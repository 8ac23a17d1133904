/** Tool-call arguments as they arrive (a JSON value), the JavaScript
    coercions the server applies to them, and the two dispatchers that turn
    a tool name and arguments into a tool request: the MCP `tools/call`
    handler, which validates and normalises, and the direct
    `POST /tools/:toolName` route, which does neither. */
module Arguments {
  import opened Wrappers
  import Text

  /** A JSON value. Numbers are integers in this model. */
  datatype Json =
    | JNull
    | JBool(b: bool)
    | JNum(n: int)
    | JStr(s: string)
    | JArr(items: seq<Json>)
    | JObj(fields: map<string, Json>)

  /** JavaScript truthiness of a possibly `undefined` value. */
  predicate Truthy(v: Option<Json>)
  {
    match v
    case None => false
    case Some(JNull) => false
    case Some(JBool(b)) => b
    case Some(JNum(n)) => n != 0
    case Some(JStr(s)) => s != ""
    case Some(JArr(_)) => true
    case Some(JObj(_)) => true
  }

  /** Whether JavaScript's `String(v)` returns for a JSON value. An object
      with its own `toString` key does not: JSON cannot make that key
      callable, and `valueOf` gives back the object itself, so no primitive
      is found and a TypeError is thrown. An array prints through `join`,
      so it throws when any element, at any depth, does. */
  predicate Printable(j: Json)
  {
    match j
    case JObj(fields) => "toString" !in fields
    case JArr(items) => forall i | 0 <= i < |items| :: Printable(items[i])
    case _ => true
  }

  /** The message of the TypeError V8 throws when `String(v)` finds no
      primitive value. */
  const ConversionError: string := "Cannot convert object to primitive value"

  /** `String(v)` throws for the possibly `undefined` value `v`. */
  predicate Throws(v: Option<Json>)
  {
    v.Some? && !Printable(v.value)
  }

  /** `String(v)` throws for one of the fields `keys` of `args`. */
  predicate AnyThrows(args: Json, keys: set<string>)
  {
    exists k :: k in keys && Throws(Field(args, k))
  }

  /** JavaScript's `String(v)`, where it returns. An array prints as its
      elements joined by commas, with `null` elements printing as nothing. */
  function JsString(j: Json): string
    requires Printable(j)
  {
    match j
    case JNull => "null"
    case JBool(b) => if b then "true" else "false"
    case JNum(n) => Text.IntToString(n)
    case JStr(s) => s
    case JArr(items) =>
      Text.Join(seq(|items|, i requires 0 <= i < |items| =>
                      if items[i].JNull? then "" else JsString(items[i])), ",")
    case JObj(_) => "[object Object]"
  }

  /** `args.key`: the field of an object, `undefined` otherwise. */
  function Field(args: Json, key: string): Option<Json>
  {
    if args.JObj? && key in args.fields then Some(args.fields[key]) else None
  }

  /** `typeof args === 'object' && args !== null && key in args`. Arrays
      are objects too, but never have the keys the server asks about. */
  predicate HasKey(args: Option<Json>, key: string)
  {
    args.Some? && args.value.JObj? && key in args.value.fields
  }

  datatype SearchFilters = SearchFilters(
    site: Option<string>,
    language: Option<string>,
    dateRestrict: Option<string>,
    exactTerms: Option<string>,
    resultType: Option<string>,
    page: Option<int>,
    resultsPerPage: Option<int>,
    sort: Option<string>)

  /** A validated tool call; its fields are also exactly the arguments of
      the collaborator call it leads to. */
  datatype ToolRequest =
    | Search(query: string, numResults: Option<int>, filters: SearchFilters)
    | Extract(url: string, format: string)
    | BatchExtract(urls: seq<string>, format: string)

  datatype Normalized = Ok(request: ToolRequest) | Invalid(message: string)

  const SearchTool: string := "google_search"
  const ExtractTool: string := "extract_webpage_content"
  const BatchTool: string := "extract_multiple_webpages"
  const DefaultFormat: string := "markdown"

  function ToolName(r: ToolRequest): string
  {
    match r
    case Search(_, _, _) => SearchTool
    case Extract(_, _) => ExtractTool
    case BatchExtract(_, _) => BatchTool
  }

  function InvalidArguments(tool: string): string
  {
    "Invalid arguments for " + tool + " tool"
  }

  function UnknownTool(name: string): string
  {
    "Unknown tool: " + name
  }

  /** `typeof v === 'number' ? v : undefined`. */
  function NumberField(args: Json, key: string): (r: Option<int>)
    ensures r.Some? <==> Field(args, key).Some? && Field(args, key).value.JNum?
    ensures r.Some? ==> Field(args, key) == Some(JNum(r.value))
  {
    match Field(args, key)
    case Some(JNum(n)) => Some(n)
    case _ => None
  }

  /** `v ? String(v) : undefined`: `undefined` for a falsy value, the
      stringified value otherwise, and the TypeError where `String`
      throws. */
  function StringField(args: Json, key: string): (r: Result<Option<string>, string>)
    ensures r.Failure? <==> Throws(Field(args, key))
    ensures r.Failure? ==> r.error == ConversionError
    ensures !Truthy(Field(args, key)) ==> r == Success(None)
    ensures Truthy(Field(args, key)) && !Throws(Field(args, key)) ==>
              r == Success(Some(JsString(Field(args, key).value)))
  {
    var v := Field(args, key);
    if !Truthy(v) then Success(None)
    else if !Printable(v.value) then Failure(ConversionError)
    else Success(Some(JsString(v.value)))
  }

  /** `format ? String(format) : 'markdown'`. */
  function FormatField(args: Json): (r: Result<string, string>)
    ensures r.Failure? <==> Throws(Field(args, "format"))
    ensures r.Failure? ==> r.error == ConversionError
    ensures !Truthy(Field(args, "format")) ==> r == Success(DefaultFormat)
    ensures Truthy(Field(args, "format")) && !Throws(Field(args, "format")) ==>
              r == Success(JsString(Field(args, "format").value))
  {
    match StringField(args, "format")
    case Failure(e) => Failure(e)
    case Success(v) => Success(v.GetOr(DefaultFormat))
  }

  /** The search filters that are stringified when truthy. */
  const StringFilterKeys: set<string> := {"site", "language", "dateRestrict", "exactTerms", "resultType", "sort"}

  /** Every key a search call stringifies. */
  const SearchStringKeys: set<string> := StringFilterKeys + {"query"}

  const ExtractStringKeys: set<string> := {"url", "format"}

  /** `.map(String)` throws on `urls` exactly when `String` throws on the
      whole array, so both keys are checked the same way. */
  const BatchStringKeys: set<string> := {"urls", "format"}

  /** The `filters` object of a search call; it throws when one of the
      string filters cannot be stringified. */
  function SearchFiltersOf(args: Json): (r: Result<SearchFilters, string>)
    ensures r.Failure? <==> AnyThrows(args, StringFilterKeys)
    ensures r.Failure? ==> r.error == ConversionError
  {
    var site, language, dateRestrict := StringField(args, "site"), StringField(args, "language"), StringField(args, "dateRestrict");
    var exactTerms, resultType, sort := StringField(args, "exactTerms"), StringField(args, "resultType"), StringField(args, "sort");
    if site.Failure? || language.Failure? || dateRestrict.Failure?
       || exactTerms.Failure? || resultType.Failure? || sort.Failure?
    then Failure(ConversionError)
    else Success(SearchFilters(site.value, language.value, dateRestrict.value, exactTerms.value,
                               resultType.value, NumberField(args, "page"), NumberField(args, "resultsPerPage"),
                               sort.value))
  }

  /** The MCP `tools/call` handler's validation and coercion. A call is
      accepted exactly when the tool is known, its required key is present
      (for the batch tool, holding an array) and every value the handler
      stringifies can be stringified; the request then carries the named
      tool. Anything else is rejected with the message the handler throws:
      the tool's `Invalid arguments` message when the key is missing, the
      TypeError's message when `String` throws. */
  function Normalize(name: string, args: Option<Json>): (r: Normalized)
    ensures name != SearchTool && name != ExtractTool && name != BatchTool ==>
              r == Invalid(UnknownTool(name))
    ensures name == SearchTool ==>
              (r.Ok? <==> HasKey(args, "query") && !AnyThrows(args.value, SearchStringKeys))
              && (r.Invalid? ==>
                    r.message == if HasKey(args, "query") then ConversionError else InvalidArguments(SearchTool))
    ensures name == ExtractTool ==>
              (r.Ok? <==> HasKey(args, "url") && !AnyThrows(args.value, ExtractStringKeys))
              && (r.Invalid? ==>
                    r.message == if HasKey(args, "url") then ConversionError else InvalidArguments(ExtractTool))
    ensures name == BatchTool ==>
              (r.Ok? <==> HasKey(args, "urls") && args.value.fields["urls"].JArr?
                           && !AnyThrows(args.value, BatchStringKeys))
              && (r.Invalid? ==>
                    r.message == if HasKey(args, "urls") && args.value.fields["urls"].JArr? then ConversionError
                                 else InvalidArguments(BatchTool))
    ensures r.Ok? ==> ToolName(r.request) == name
  {
    if name == SearchTool then
      if HasKey(args, "query") then
        var a := args.value;
        var query, filters := a.fields["query"], SearchFiltersOf(a);
        if !Printable(query) || filters.Failure? then
          assert Throws(Field(a, "query")) || AnyThrows(a, StringFilterKeys);
          Invalid(ConversionError)
        else
          assert !Throws(Field(a, "query"));
          Ok(Search(JsString(query), NumberField(a, "num_results"), filters.value))
      else Invalid(InvalidArguments(SearchTool))
    else if name == ExtractTool then
      if HasKey(args, "url") then
        var a := args.value;
        var url, format := a.fields["url"], FormatField(a);
        if !Printable(url) || format.Failure? then
          assert Throws(Field(a, "url")) || Throws(Field(a, "format"));
          Invalid(ConversionError)
        else
          assert !Throws(Field(a, "url")) && !Throws(Field(a, "format"));
          Ok(Extract(JsString(url), format.value))
      else Invalid(InvalidArguments(ExtractTool))
    else if name == BatchTool then
      if HasKey(args, "urls") && args.value.fields["urls"].JArr? then
        var a := args.value;
        var urls, format := a.fields["urls"], FormatField(a);
        if !Printable(urls) || format.Failure? then
          assert Throws(Field(a, "urls")) || Throws(Field(a, "format"));
          Invalid(ConversionError)
        else
          assert !Throws(Field(a, "urls")) && !Throws(Field(a, "format"));
          var items := urls.items;
          Ok(BatchExtract(seq(|items|, i requires 0 <= i < |items| => JsString(items[i])), format.value))
      else Invalid(InvalidArguments(BatchTool))
    else Invalid(UnknownTool(name))
  }

  /** A value whose stringification throws stops the call before any
      collaborator: a query object with its own `toString` key, and a URL
      list holding one. */
  lemma OwnToStringIsRejected()
    ensures var bad := JObj(map["toString" := JNum(1)]);
            && Normalize(SearchTool, Some(JObj(map["query" := bad]))) == Invalid(ConversionError)
            && Normalize(BatchTool, Some(JObj(map["urls" := JArr([JStr("a"), bad])]))) == Invalid(ConversionError)
  {
    var bad := JObj(map["toString" := JNum(1)]);
    assert Throws(Field(JObj(map["query" := bad]), "query"));
    assert !Printable([JStr("a"), bad][1]);
    assert Throws(Field(JObj(map["urls" := JArr([JStr("a"), bad])]), "urls"));
  }

  /** `v ? String(v) : undefined`, stated on its own. */
  predicate CoercedString(v: Option<string>, raw: Option<Json>)
  {
    if Truthy(raw) then Printable(raw.value) && v == Some(JsString(raw.value)) else v == None
  }

  /** `typeof v === 'number' ? v : undefined`, stated on its own. */
  predicate CoercedNumber(v: Option<int>, raw: Option<Json>)
  {
    match raw
    case Some(JNum(n)) => v == Some(n)
    case _ => v == None
  }

  /** How each field of an accepted search call is coerced: the query is
      stringified, numeric fields survive only as numbers, string filters
      only when truthy and then stringified. */
  lemma NormalizeSearchFields(args: Option<Json>)
    requires Normalize(SearchTool, args).Ok?
    ensures var r := Normalize(SearchTool, args).request;
            var a := args.value;
            && Printable(a.fields["query"]) && r.query == JsString(a.fields["query"])
            && CoercedNumber(r.numResults, Field(a, "num_results"))
            && CoercedString(r.filters.site, Field(a, "site"))
            && CoercedString(r.filters.language, Field(a, "language"))
            && CoercedString(r.filters.dateRestrict, Field(a, "dateRestrict"))
            && CoercedString(r.filters.exactTerms, Field(a, "exactTerms"))
            && CoercedString(r.filters.resultType, Field(a, "resultType"))
            && CoercedNumber(r.filters.page, Field(a, "page"))
            && CoercedNumber(r.filters.resultsPerPage, Field(a, "resultsPerPage"))
            && CoercedString(r.filters.sort, Field(a, "sort"))
  {
  }

  /** Accepted extraction calls carry the stringified URL(s) and a format
      that defaults to markdown when the given one is falsy. */
  lemma NormalizeExtractFields(name: string, args: Option<Json>)
    requires name == ExtractTool || name == BatchTool
    requires Normalize(name, args).Ok?
    ensures var r := Normalize(name, args).request;
            var a := args.value;
            && (if Truthy(Field(a, "format"))
                then Printable(a.fields["format"]) && r.format == JsString(a.fields["format"])
                else r.format == DefaultFormat)
            && (r.Extract? ==> Printable(a.fields["url"]) && r.url == JsString(a.fields["url"]))
            && (r.BatchExtract? ==>
                  |r.urls| == |a.fields["urls"].items|
                  && forall i :: 0 <= i < |r.urls| ==>
                       Printable(a.fields["urls"].items[i]) && r.urls[i] == JsString(a.fields["urls"].items[i]))
  {
  }

  /** A truthy value can still stringify to the empty string: an empty
      array given as `site` becomes the filter `""`, not `undefined`. */
  lemma EmptyArrayFilterBecomesEmptyString()
    ensures var args := JObj(map["query" := JStr("q"), "site" := JArr([])]);
            Normalize(SearchTool, Some(args)) == Ok(Search("q", None, NoFilters.(site := Some(""))))
  {
    var args := JObj(map["query" := JStr("q"), "site" := JArr([])]);
    assert JsString(JArr([])) == "";
    assert SearchFiltersOf(args) == Success(NoFilters.(site := Some("")));
  }

  /** A search with no filters given. */
  const NoFilters: SearchFilters := SearchFilters(None, None, None, None, None, None, None, None)

  /** A request whose string fields are non-empty: the ones the normaliser
      can produce from plain JSON strings. */
  predicate Canonical(r: ToolRequest)
  {
    match r
    case Search(_, _, f) =>
      && (f.site.Some? ==> f.site.value != "")
      && (f.language.Some? ==> f.language.value != "")
      && (f.dateRestrict.Some? ==> f.dateRestrict.value != "")
      && (f.exactTerms.Some? ==> f.exactTerms.value != "")
      && (f.resultType.Some? ==> f.resultType.value != "")
      && (f.sort.Some? ==> f.sort.value != "")
    case Extract(_, format) => format != ""
    case BatchExtract(_, format) => format != ""
  }

  function StrOpt(s: Option<string>): Option<Json>
  {
    match s
    case Some(x) => Some(JStr(x))
    case None => None
  }

  function NumOpt(n: Option<int>): Option<Json>
  {
    match n
    case Some(x) => Some(JNum(x))
    case None => None
  }

  const SearchKeys: set<string> :=
    {"query", "num_results", "site", "language", "dateRestrict", "exactTerms",
     "resultType", "page", "resultsPerPage", "sort"}

  /** The plain JSON value a client would send under `key` for a search. */
  function SearchArgument(query: string, numResults: Option<int>, f: SearchFilters, key: string): Option<Json>
  {
    if key == "query" then Some(JStr(query))
    else if key == "num_results" then NumOpt(numResults)
    else if key == "site" then StrOpt(f.site)
    else if key == "language" then StrOpt(f.language)
    else if key == "dateRestrict" then StrOpt(f.dateRestrict)
    else if key == "exactTerms" then StrOpt(f.exactTerms)
    else if key == "resultType" then StrOpt(f.resultType)
    else if key == "page" then NumOpt(f.page)
    else if key == "resultsPerPage" then NumOpt(f.resultsPerPage)
    else if key == "sort" then StrOpt(f.sort)
    else None
  }

  /** The plain JSON arguments a client would send for a request: strings
      as strings, numbers as numbers, absent fields left out. */
  function ArgumentsOf(r: ToolRequest): Json
  {
    match r
    case Search(q, n, f) =>
      JObj(map k | k in SearchKeys && SearchArgument(q, n, f, k).Some? :: SearchArgument(q, n, f, k).value)
    case Extract(url, format) =>
      JObj(map["url" := JStr(url), "format" := JStr(format)])
    case BatchExtract(urls, format) =>
      JObj(map["urls" := JArr(seq(|urls|, i requires 0 <= i < |urls| => JStr(urls[i]))),
               "format" := JStr(format)])
  }

  /** Sending a canonical request's plain arguments through the MCP
      handler yields that request back. */
  lemma NormalizeArgumentsOf(r: ToolRequest)
    requires Canonical(r)
    ensures Normalize(ToolName(r), Some(ArgumentsOf(r))) == Ok(r)
  {
    match r
    case Search(q, n, f) => NormalizeSearchArguments(q, n, f);
    case Extract(url, format) => NormalizeExtractArguments(url, format);
    case BatchExtract(urls, format) => NormalizeBatchArguments(urls, format);
  }

  lemma NormalizeSearchArguments(q: string, n: Option<int>, f: SearchFilters)
    requires Canonical(Search(q, n, f))
    ensures Normalize(SearchTool, Some(ArgumentsOf(Search(q, n, f)))) == Ok(Search(q, n, f))
  {
    var a := ArgumentsOf(Search(q, n, f));
    SearchArgumentFields(q, n, f);
    SearchArgumentsPrintable(a, q, n, f);
    SearchArgumentsFilters(a, q, n, f);
    assert !Printable(a.fields["query"]) ==> Throws(Field(a, "query"));
  }

  /** Arguments holding a search's plain fields carry its query and
      result count, and none of them makes `String` throw. */
  lemma SearchArgumentsPrintable(a: Json, q: string, n: Option<int>, f: SearchFilters)
    requires forall k | k in SearchKeys :: Field(a, k) == SearchArgument(q, n, f, k)
    ensures HasKey(Some(a), "query") && Field(a, "query") == Some(JStr(q))
    ensures NumberField(a, "num_results") == n
    ensures !AnyThrows(a, SearchStringKeys)
  {
    assert Field(a, "query") == SearchArgument(q, n, f, "query");
    assert Field(a, "num_results") == SearchArgument(q, n, f, "num_results");
    forall k | k in SearchStringKeys
      ensures !Throws(Field(a, k))
    {
      assert Field(a, k) == SearchArgument(q, n, f, k);
    }
  }

  /** Arguments holding a canonical search's plain fields give back its
      filters. */
  lemma SearchArgumentsFilters(a: Json, q: string, n: Option<int>, f: SearchFilters)
    requires Canonical(Search(q, n, f))
    requires forall k | k in SearchKeys :: Field(a, k) == SearchArgument(q, n, f, k)
    ensures SearchFiltersOf(a) == Success(f)
  {
    SearchArgumentValues(q, n, f);
    assert Field(a, "page") == NumOpt(f.page);
    assert Field(a, "resultsPerPage") == NumOpt(f.resultsPerPage);
    PlainStringField(a, "site", f.site);
    PlainStringField(a, "language", f.language);
    PlainStringField(a, "dateRestrict", f.dateRestrict);
    PlainStringField(a, "exactTerms", f.exactTerms);
    PlainStringField(a, "resultType", f.resultType);
    PlainStringField(a, "sort", f.sort);
    SearchFiltersFrom(a, f);
  }

  /** Filters whose every string key stringifies to the expected value are
      read back whole. */
  lemma SearchFiltersFrom(a: Json, f: SearchFilters)
    requires StringField(a, "site") == Success(f.site)
    requires StringField(a, "language") == Success(f.language)
    requires StringField(a, "dateRestrict") == Success(f.dateRestrict)
    requires StringField(a, "exactTerms") == Success(f.exactTerms)
    requires StringField(a, "resultType") == Success(f.resultType)
    requires StringField(a, "sort") == Success(f.sort)
    requires NumberField(a, "page") == f.page
    requires NumberField(a, "resultsPerPage") == f.resultsPerPage
    ensures SearchFiltersOf(a) == Success(f)
  {
  }

  /** What `SearchArgument` gives for each filter key. */
  lemma SearchArgumentValues(q: string, n: Option<int>, f: SearchFilters)
    ensures SearchArgument(q, n, f, "site") == StrOpt(f.site)
    ensures SearchArgument(q, n, f, "language") == StrOpt(f.language)
    ensures SearchArgument(q, n, f, "dateRestrict") == StrOpt(f.dateRestrict)
    ensures SearchArgument(q, n, f, "exactTerms") == StrOpt(f.exactTerms)
    ensures SearchArgument(q, n, f, "resultType") == StrOpt(f.resultType)
    ensures SearchArgument(q, n, f, "page") == NumOpt(f.page)
    ensures SearchArgument(q, n, f, "resultsPerPage") == NumOpt(f.resultsPerPage)
    ensures SearchArgument(q, n, f, "sort") == StrOpt(f.sort)
  {
  }

  /** The plain arguments of a search hold exactly its fields. */
  lemma SearchArgumentFields(q: string, n: Option<int>, f: SearchFilters)
    ensures forall k | k in SearchKeys :: Field(ArgumentsOf(Search(q, n, f)), k) == SearchArgument(q, n, f, k)
  {
  }

  /** A non-empty plain string filter comes back unchanged. */
  lemma PlainStringField(a: Json, key: string, v: Option<string>)
    requires Field(a, key) == StrOpt(v)
    requires v.Some? ==> v.value != ""
    ensures !Throws(Field(a, key))
    ensures StringField(a, key) == Success(v)
  {
  }

  lemma NormalizeExtractArguments(url: string, format: string)
    requires format != ""
    ensures Normalize(ExtractTool, Some(ArgumentsOf(Extract(url, format)))) == Ok(Extract(url, format))
  {
    var a := ArgumentsOf(Extract(url, format));
    assert !AnyThrows(a, ExtractStringKeys);
  }

  lemma NormalizeBatchArguments(urls: seq<string>, format: string)
    requires format != ""
    ensures Normalize(BatchTool, Some(ArgumentsOf(BatchExtract(urls, format)))) == Ok(BatchExtract(urls, format))
  {
    var a := ArgumentsOf(BatchExtract(urls, format));
    var items := a.fields["urls"].items;
    assert forall i | 0 <= i < |items| :: items[i] == JStr(urls[i]);
    assert Printable(a.fields["urls"]);
    assert !AnyThrows(a, BatchStringKeys);
    assert seq(|items|, i requires 0 <= i < |items| => JsString(items[i])) == urls;
  }

  /** What the direct route hands to a tool handler: the body's fields as
      they are, `undefined` where missing. */
  datatype RawFilters = RawFilters(
    site: Option<Json>,
    language: Option<Json>,
    dateRestrict: Option<Json>,
    exactTerms: Option<Json>,
    resultType: Option<Json>,
    page: Option<Json>,
    resultsPerPage: Option<Json>,
    sort: Option<Json>)

  /** The body keys the direct route copies into a search's filters. */
  const RawFilterKeys: set<string> := StringFilterKeys + {"page", "resultsPerPage"}

  /** The raw filter a handler receives under a body key. */
  function RawFilter(f: RawFilters, key: string): Option<Json>
  {
    match key
    case "site" => f.site
    case "language" => f.language
    case "dateRestrict" => f.dateRestrict
    case "exactTerms" => f.exactTerms
    case "resultType" => f.resultType
    case "page" => f.page
    case "resultsPerPage" => f.resultsPerPage
    case "sort" => f.sort
    case _ => None
  }

  datatype RawCall =
    | RawSearch(query: Option<Json>, numResults: Option<Json>, filters: RawFilters)
    | RawExtract(url: Option<Json>, format: Json)
    | RawBatch(urls: Option<Json>, format: Json)

  datatype DirectOutcome =
    | NoSuchTool(error: string)  // status 404
    | Invoke(call: RawCall)

  /** `args.format || 'markdown'`: the value itself when truthy. */
  function RawFormat(body: Json): (f: Json)
    ensures Truthy(Field(body, "format")) ==> Some(f) == Field(body, "format")
    ensures !Truthy(Field(body, "format")) ==> f == JStr(DefaultFormat)
  {
    var v := Field(body, "format");
    if Truthy(v) then v.value else JStr(DefaultFormat)
  }

  /** The `POST /tools/:toolName` route. Unknown tools get 404; known tools
      are invoked with the body's fields unchecked and uncoerced, except
      for the format default. */
  function DirectRoute(toolName: string, body: Json): (o: DirectOutcome)
    ensures o.NoSuchTool? <==> toolName != SearchTool && toolName != ExtractTool && toolName != BatchTool
    ensures o.NoSuchTool? ==> o.error == UnknownTool(toolName)
    ensures toolName == SearchTool ==>
              && o.Invoke? && o.call.RawSearch? && o.call.query == Field(body, "query")
              && o.call.numResults == Field(body, "num_results")
              && forall k | k in RawFilterKeys :: RawFilter(o.call.filters, k) == Field(body, k)
    ensures toolName == ExtractTool ==>
              o.Invoke? && o.call.RawExtract? && o.call.url == Field(body, "url")
              && o.call.format == RawFormat(body)
    ensures toolName == BatchTool ==>
              o.Invoke? && o.call.RawBatch? && o.call.urls == Field(body, "urls")
              && o.call.format == RawFormat(body)
  {
    if toolName == SearchTool then
      Invoke(RawSearch(Field(body, "query"), Field(body, "num_results"),
        RawFilters(Field(body, "site"), Field(body, "language"), Field(body, "dateRestrict"),
                   Field(body, "exactTerms"), Field(body, "resultType"), Field(body, "page"),
                   Field(body, "resultsPerPage"), Field(body, "sort"))))
    else if toolName == ExtractTool then
      Invoke(RawExtract(Field(body, "url"), RawFormat(body)))
    else if toolName == BatchTool then
      Invoke(RawBatch(Field(body, "urls"), RawFormat(body)))
    else NoSuchTool(UnknownTool(toolName))
  }

  /** The two dispatchers agree on which tool names exist, but only the MCP
      one checks required keys: a search call without a query is rejected
      there and passed on, with an undefined query, by the direct route. */
  lemma DirectRouteSkipsValidation(body: Json)
    requires !HasKey(Some(body), "query")
    ensures Normalize(SearchTool, Some(body)) == Invalid(InvalidArguments(SearchTool))
    ensures DirectRoute(SearchTool, body).Invoke?
    ensures DirectRoute(SearchTool, body).call.query == None
  {
  }

  /** Both dispatchers reject exactly the same tool names. */
  lemma UnknownToolsAgree(name: string, args: Option<Json>, body: Json)
    ensures Normalize(name, args) == Invalid(UnknownTool(name))
            <==> DirectRoute(name, body).NoSuchTool?
  {
  }
}
