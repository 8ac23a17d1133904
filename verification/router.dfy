/** The three tool handlers and the MCP `tools/call` dispatcher that feeds
    them. The search and extraction collaborators are parameters: pure
    functions from a call's arguments to what the call returned or threw.
    Every handler reports the collaborator calls it made, so that "no call
    was made" is something a contract can state. */
module Router {
  import opened Wrappers
  import opened Arguments
  import opened Results
  import Sessions
  import Text

  /** The collaborators: the search service, single-page extraction and
      batch extraction. */
  datatype Backends = Backends(
    search: (string, Option<int>, SearchFilters) -> Outcome<SearchResponse>,
    extract: (string, string) -> Outcome<Page>,
    batch: (seq<string>, string) -> Outcome<BatchEntries>)

  /** A tool result and the collaborator calls made to produce it, in order.
      A call is recorded as the request whose fields are its arguments. */
  datatype Handled = Handled(result: ToolResult, calls: seq<ToolRequest>)

  /** `handleSearch`: exactly one search call, with the request's own
      arguments. The result is an error exactly when that call threw or
      found nothing; finding nothing gives the reformulation advice, and a
      non-error result opens with the query header. */
  function HandleSearch(query: string, numResults: Option<int>, filters: SearchFilters, b: Backends): (h: Handled)
    ensures h.calls == [Search(query, numResults, filters)]
    ensures var o := b.search(query, numResults, filters);
            && (h.result.isError <==> o.Threw? || |o.value.hits| == 0)
            && (o.Returned? && |o.value.hits| == 0 ==> h.result.text == NoResultsText)
            && (!h.result.isError ==> Text.IsPrefix(SearchHeader(query), h.result.text))
  {
    Handled(SearchResult(query, b.search(query, numResults, filters)), [Search(query, numResults, filters)])
  }

  /** `handleAnalyzeWebpage`: exactly one extraction call, with the
      request's URL and format. The result is an error exactly when that
      call threw; otherwise it opens with the page's URL header. */
  function HandleExtract(url: string, format: string, b: Backends): (h: Handled)
    ensures h.calls == [Extract(url, format)]
    ensures h.result.isError <==> b.extract(url, format).Threw?
    ensures b.extract(url, format).Returned? ==>
              Text.IsPrefix(PageHeader(b.extract(url, format).value), h.result.text)
  {
    Handled(ExtractResult(b.extract(url, format)), [Extract(url, format)])
  }

  /** `handleBatchAnalyzeWebpages`: more than five URLs are refused with a
      fixed error text before the collaborator is consulted; up to five
      (including exactly five, and none) lead to one batch call for all of
      them, and the result is an error exactly when that call threw. */
  function HandleBatch(urls: seq<string>, format: string, b: Backends): (h: Handled)
    ensures |urls| > MaxBatchUrls ==> h == Handled(ToolResult(TooManyUrlsText, true), [])
    ensures |urls| <= MaxBatchUrls ==>
              && h.calls == [BatchExtract(urls, format)]
              && (h.result.isError <==> b.batch(urls, format).Threw?)
              && (!h.result.isError ==>
                    Text.IsPrefix(BatchHeader(|urls|), h.result.text))
  {
    if |urls| > MaxBatchUrls then Handled(ToolResult(TooManyUrlsText, true), [])
    else Handled(BatchResult(|urls|, b.batch(urls, format)), [BatchExtract(urls, format)])
  }

  /** The handler a validated request goes to. */
  function Handle(req: ToolRequest, b: Backends): (h: Handled)
    ensures h.calls == [] <==> req.BatchExtract? && |req.urls| > MaxBatchUrls
    ensures h.calls != [] ==> h.calls == [req]
  {
    match req
    case Search(q, n, f) => HandleSearch(q, n, f, b)
    case Extract(url, format) => HandleExtract(url, format, b)
    case BatchExtract(urls, format) => HandleBatch(urls, format, b)
  }

  /** Whether the collaborator call a request leads to throws. */
  predicate CollaboratorThrows(req: ToolRequest, b: Backends)
  {
    match req
    case Search(q, n, f) => b.search(q, n, f).Threw?
    case Extract(url, format) => b.extract(url, format).Threw?
    case BatchExtract(urls, format) => b.batch(urls, format).Threw?
  }

  /** A throwing collaborator never escapes a handler: the handler answers
      with an error result whose text opens with the thrown message. */
  lemma FailuresBecomeErrorResults(req: ToolRequest, b: Backends)
    requires CollaboratorThrows(req, b)
    requires !(req.BatchExtract? && |req.urls| > MaxBatchUrls)
    ensures Handle(req, b).result.isError
    ensures var f := match req
                     case Search(q, n, fs) => b.search(q, n, fs).failure
                     case Extract(u, fm) => b.extract(u, fm).failure
                     case BatchExtract(us, fm) => b.batch(us, fm).failure;
            var fallback := if req.Search? then SearchFailureFallback else UnknownErrorFallback;
            Text.IsPrefix(FailureMessage(f, fallback), Handle(req, b).result.text)
  {
  }

  /** The MCP `tools/call` handler. A rejected call throws (the SDK turns
      it into a protocol error) and reaches no collaborator; an accepted one
      goes to its handler. */
  function CallTool(name: string, args: Option<Json>, b: Backends): (r: Result<Handled, string>)
    ensures r.Failure? <==> Normalize(name, args).Invalid?
    ensures r.Failure? ==> r.error == Normalize(name, args).message
    ensures r.Success? ==> forall c :: c in r.value.calls ==> ToolName(c) == name
    ensures r.Success? ==> |r.value.calls| <= 1
  {
    match Normalize(name, args)
    case Invalid(m) => Failure(m)
    case Ok(req) => Success(Handle(req, b))
  }

  /** A batch call with more than five URLs, through the MCP handler: an
      error result with the fixed text, and no extraction call at all. The
      URLs are stringified before they are counted, so a URL or format that
      cannot be stringified makes it a protocol error instead. */
  lemma TooManyUrlsNeverReachExtractor(args: Json, b: Backends)
    requires Field(args, "urls").Some? && Field(args, "urls").value.JArr?
    requires |Field(args, "urls").value.items| > MaxBatchUrls
    ensures !AnyThrows(args, BatchStringKeys) ==>
              CallTool(BatchTool, Some(args), b) == Success(Handled(ToolResult(TooManyUrlsText, true), []))
    ensures AnyThrows(args, BatchStringKeys) ==> CallTool(BatchTool, Some(args), b) == Failure(ConversionError)
  {
  }

  /** An unknown tool name is refused before any collaborator is called. */
  lemma UnknownToolReachesNoCollaborator(name: string, args: Option<Json>, b: Backends)
    requires name != SearchTool && name != ExtractTool && name != BatchTool
    ensures CallTool(name, args, b) == Failure(UnknownTool(name))
  {
  }

  /** A whole session: a client connects with id `id`, its POSTs are routed
      to its transport, a search for "rust ownership" sent through it comes
      back as a non-error result that opens with the query header and shows
      the first hit's URL line, and once the client disconnects the same
      id gets 404. */
  lemma SessionSearchScenario(t: Sessions.Table, id: string, connection: nat, b: Backends)
    requires id != ""
    requires b.search("rust ownership", None, NoFilters).Returned?
    requires |b.search("rust ownership", None, NoFilters).value.hits| > 0
    ensures var open := Sessions.Connect(t, id, connection);
            var tr := Sessions.NewTransport(id, connection);
            && Sessions.RoutePost(open, id) == Sessions.Forward(tr)
            && Sessions.RoutePost(Sessions.Disconnect(open, tr), id).NotFound?
    ensures var h := CallTool(SearchTool, Some(JObj(map["query" := JStr("rust ownership")])), b);
            var resp := b.search("rust ownership", None, NoFilters).value;
            && h.Success?
            && h.value.calls == [Search("rust ownership", None, NoFilters)]
            && !h.value.result.isError
            && Text.IsPrefix(SearchHeader("rust ownership"), h.value.result.text)
            && Text.IsInfix(UrlLine(resp.hits[0].link), h.value.result.text)
  {
    var args := JObj(map["query" := JStr("rust ownership")]);
    var n := Normalize(SearchTool, Some(args));
    assert SearchFiltersOf(args) == Success(NoFilters);
    assert n == Ok(Search("rust ownership", None, NoFilters));
    var resp := b.search("rust ownership", None, NoFilters).value;
    SearchShowsEveryUrl("rust ownership", resp, 0);
  }
}
