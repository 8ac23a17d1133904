/** What the three tool handlers make of their collaborators' answers: the
    single text block of a tool result, its error flag, and the fixed
    guidance texts. Collaborator answers are inputs here; a collaborator
    that throws is an `Outcome` of `Threw`. */
module Results {
  import opened Wrappers
  import Text

  /** A tool result: one text block, and `isError` (absent means false). */
  datatype ToolResult = ToolResult(text: string, isError: bool)

  /** What a `catch` receives: an `Error` with a message, or anything else. */
  datatype Failure = ErrorObject(message: string) | OtherValue

  datatype Outcome<+T> = Returned(value: T) | Threw(failure: Failure)

  /** `error instanceof Error ? error.message : fallback`. */
  function FailureMessage(f: Failure, fallback: string): string
  {
    match f
    case ErrorObject(m) => m
    case OtherValue => fallback
  }

  // ---------------------------------------------------------------------
  // Search

  datatype SearchHit = SearchHit(title: string, link: string, snippet: string, category: string)

  datatype Category = Category(name: string, count: int)

  /** `totalResults` of zero counts as absent, as the server tests it for
      truthiness. */
  datatype Pagination = Pagination(currentPage: int, totalResults: int, hasNextPage: bool, hasPreviousPage: bool)

  /** The search collaborator's answer; an absent `categories` list is the
      empty one, which the server treats the same way. */
  datatype SearchResponse = SearchResponse(hits: seq<SearchHit>, pagination: Option<Pagination>, categories: seq<Category>)

  const NoResultsText: string :=
    "No results found. Try:\n- Using different keywords\n- Removing quotes from non-exact phrases\n- Using more general terms"

  const SearchFailureFallback: string := "Unknown error during search"

  function SearchHeader(query: string): string
  {
    "Search results for \"" + query + "\":\n\n"
  }

  function CategoryText(c: Category): string
  {
    c.name + " (" + Text.IntToString(c.count) + ")"
  }

  function CategoryLine(cats: seq<Category>): string
  {
    if |cats| == 0 then ""
    else "Categories: " + Text.Join(seq(|cats|, i requires 0 <= i < |cats| => CategoryText(cats[i])), ", ") + "\n\n"
  }

  function PageLine(p: Option<Pagination>): string
  {
    match p
    case None => ""
    case Some(pg) =>
      "Showing page " + Text.IntToString(pg.currentPage)
      + (if pg.totalResults != 0 then " of approximately " + Text.IntToString(pg.totalResults) + " results" else "")
      + "\n\n"
  }

  function UrlLine(link: string): string
  {
    "   URL: " + link + "\n"
  }

  /** The block for the hit numbered `n`. */
  function EntryText(n: int, h: SearchHit): string
  {
    Text.IntToString(n) + ". " + h.title + "\n" + UrlLine(h.link) + "   " + h.snippet + "\n\n"
  }

  /** Every hit's block contains its `URL:` line. */
  lemma EntryHasUrlLine(n: int, h: SearchHit)
    ensures Text.OccursAt(UrlLine(h.link), EntryText(n, h), |Text.IntToString(n)| + 2 + |h.title| + 1)
  {
  }

  /** The blocks of `hs`, numbered from `first` on. */
  function Entries(hs: seq<SearchHit>, first: int): string
  {
    Text.ConcatMap(hs, first, EntryText)
  }

  /** The `forEach` loop that appends one block per hit. */
  method AppendEntries(prefix: string, hs: seq<SearchHit>) returns (text: string)
    ensures text == prefix + Entries(hs, 1)
  {
    text := prefix;
    var i := 0;
    while i < |hs|
      invariant 0 <= i <= |hs|
      invariant text == prefix + Entries(hs[..i], 1)
    {
      Text.ConcatMapSnoc(hs, 1, EntryText, i);
      text := text + EntryText(i + 1, hs[i]);
      i := i + 1;
    }
    assert hs[..i] == hs;
  }

  const NavigationPrefix: string := "Navigation: "
  const HintOpen: string := "Use 'page: "
  const PreviousClose: string := "' for previous results. "
  const NextClose: string := "' for more results."

  function PreviousHint(page: int): string
  {
    HintOpen + Text.IntToString(page) + PreviousClose
  }

  function NextHint(page: int): string
  {
    HintOpen + Text.IntToString(page) + NextClose
  }

  /** The hints of a navigation line, without its frame. */
  function NavigationHints(pg: Pagination): string
  {
    (if pg.hasPreviousPage then PreviousHint(pg.currentPage - 1) else "")
    + (if pg.hasNextPage then NextHint(pg.currentPage + 1) else "")
  }

  /** The navigation line that closes a search result. */
  function NavigationText(p: Option<Pagination>): string
  {
    match p
    case None => ""
    case Some(pg) =>
      if pg.hasNextPage || pg.hasPreviousPage then NavigationPrefix + NavigationHints(pg) + "\n"
      else ""
  }

  /** The pages a navigation line points the reader to. */
  datatype NavPages = NavPages(previous: Option<int>, next: Option<int>)

  /** The pages navigation should offer: one back exactly when there is a
      previous page, one forward exactly when there is a next page. */
  function IntendedNavigation(p: Option<Pagination>): NavPages
  {
    match p
    case None => NavPages(None, None)
    case Some(pg) =>
      NavPages(if pg.hasPreviousPage then Some(pg.currentPage - 1) else None,
               if pg.hasNextPage then Some(pg.currentPage + 1) else None)
  }

  /** Reads one hint: whether it is the "previous" one, its page, and the
      text after it. */
  function ReadHint(s: string): Option<(bool, int, string)>
  {
    if !Text.IsPrefix(HintOpen, s) then None
    else match Text.ReadInt(s[|HintOpen|..])
      case None => None
      case Some((k, rest)) =>
        if Text.IsPrefix(PreviousClose, rest) then Some((true, k, rest[|PreviousClose|..]))
        else if Text.IsPrefix(NextClose, rest) then Some((false, k, rest[|NextClose|..]))
        else None
  }

  /** Reads the hints of a navigation line: a "previous" hint optionally
      followed by a "next" hint, or a "next" hint alone. */
  function ReadHints(body: string): Option<NavPages>
  {
    match ReadHint(body)
    case None => None
    case Some((true, k, "")) => Some(NavPages(Some(k), None))
    case Some((true, k, rest)) =>
      (match ReadHint(rest)
       case Some((false, k2, "")) => Some(NavPages(Some(k), Some(k2)))
       case _ => None)
    case Some((false, k, "")) => Some(NavPages(None, Some(k)))
    case Some(_) => None
  }

  /** Reads back the pages a navigation line offers; the empty line offers
      none. */
  function ReadNavigation(s: string): Option<NavPages>
  {
    if s == "" then Some(NavPages(None, None))
    else if !(Text.IsPrefix(NavigationPrefix, s) && |s| > |NavigationPrefix| && s[|s| - 1] == '\n') then None
    else ReadHints(s[|NavigationPrefix|..|s| - 1])
  }

  lemma ReadNavigationLine(body: string)
    ensures ReadNavigation(NavigationPrefix + body + "\n") == ReadHints(body)
  {
    Text.FramedBy(NavigationPrefix, body, "\n");
    Text.MiddleOf(NavigationPrefix, body, "\n");
  }

  lemma ReadPreviousHint(page: int, rest: string)
    ensures ReadHint(PreviousHint(page) + rest) == Some((true, page, rest))
  {
    assert PreviousClose[0] == '\'';
    Text.ReadFramedInt(HintOpen, page, PreviousClose, rest);
    Text.PrefixOfConcat(PreviousClose, rest);
    assert (PreviousClose + rest)[|PreviousClose|..] == rest;
  }

  lemma ReadNextHint(page: int)
    ensures ReadHint(NextHint(page)) == Some((false, page, ""))
  {
    assert NextClose[0] == '\'';
    Text.ReadFramedInt(HintOpen, page, NextClose, "");
    assert NextHint(page) + "" == NextHint(page);
    assert NextClose + "" == NextClose;
    assert |PreviousClose| > |NextClose|;
    Text.PrefixOfConcat(NextClose, "");
  }

  lemma ReadBothHints(prevPage: int, nextPage: int)
    ensures ReadHints(PreviousHint(prevPage) + NextHint(nextPage)) == Some(NavPages(Some(prevPage), Some(nextPage)))
  {
    ReadPreviousHint(prevPage, NextHint(nextPage));
    ReadNextHint(nextPage);
  }

  lemma ReadPreviousHintAlone(page: int)
    ensures ReadHints(PreviousHint(page)) == Some(NavPages(Some(page), None))
  {
    ReadPreviousHint(page, "");
    assert PreviousHint(page) + "" == PreviousHint(page);
  }

  lemma ReadNextHintAlone(page: int)
    ensures ReadHints(NextHint(page)) == Some(NavPages(None, Some(page)))
  {
    ReadNextHint(page);
  }

  /** The navigation line is unambiguous and says what it should: read
      back, it offers `currentPage - 1` exactly when there is a previous
      page and `currentPage + 1` exactly when there is a next page, and it
      is empty exactly when it offers neither. */
  lemma NavigationRoundTrip(p: Option<Pagination>)
    ensures ReadNavigation(NavigationText(p)) == Some(IntendedNavigation(p))
    ensures NavigationText(p) == "" <==> IntendedNavigation(p) == NavPages(None, None)
  {
    match p
    case None =>
    case Some(pg) =>
      if pg.hasNextPage || pg.hasPreviousPage {
        ReadNavigationLine(NavigationHints(pg));
        ReadNavigationHints(pg);
      }
  }

  /** The hints of a page that has a neighbour read back as the intended
      pages. */
  lemma ReadNavigationHints(pg: Pagination)
    requires pg.hasNextPage || pg.hasPreviousPage
    ensures ReadHints(NavigationHints(pg)) == Some(IntendedNavigation(Some(pg)))
  {
    var prev, next := pg.currentPage - 1, pg.currentPage + 1;
    if pg.hasPreviousPage && pg.hasNextPage {
      assert NavigationHints(pg) == PreviousHint(prev) + NextHint(next);
      ReadBothHints(prev, next);
    } else if pg.hasPreviousPage {
      assert NavigationHints(pg) == PreviousHint(prev);
      ReadPreviousHintAlone(prev);
    } else {
      assert NavigationHints(pg) == NextHint(next);
      ReadNextHintAlone(next);
    }
  }

  /** The text of a successful search. */
  function SearchText(query: string, resp: SearchResponse): string
  {
    SearchHead(query, resp) + Entries(resp.hits, 1) + NavigationText(resp.pagination)
  }

  /** What a successful search text shows before its first hit. */
  function SearchHead(query: string, resp: SearchResponse): string
  {
    SearchHeader(query) + CategoryLine(resp.categories) + PageLine(resp.pagination)
  }

  /** `handleSearch` after the collaborator call. A failure becomes an error
      result with its message; an empty hit list becomes the soft error with
      reformulation advice; otherwise the result is not an error and its
      text opens with the query header. */
  function SearchResult(query: string, o: Outcome<SearchResponse>): (r: ToolResult)
    ensures o.Threw? ==> r == ToolResult(FailureMessage(o.failure, SearchFailureFallback), true)
    ensures o.Returned? && |o.value.hits| == 0 ==> r == ToolResult(NoResultsText, true)
    ensures o.Returned? && |o.value.hits| > 0 ==>
              !r.isError && Text.IsPrefix(SearchHeader(query), r.text)
  {
    match o
    case Threw(f) => ToolResult(FailureMessage(f, SearchFailureFallback), true)
    case Returned(resp) =>
      if |resp.hits| == 0 then ToolResult(NoResultsText, true)
      else ToolResult(SearchText(query, resp), false)
  }

  /** Where the block of hit `i` starts in a search text. */
  function EntryOffset(query: string, resp: SearchResponse, i: int): int
    requires 0 <= i <= |resp.hits|
  {
    |SearchHead(query, resp)| + |Entries(resp.hits[..i], 1)|
  }

  /** A successful search lists every hit, in order, numbered from 1, each
      block directly after the previous one. */
  lemma SearchListsHitsInOrder(query: string, resp: SearchResponse, i: int)
    requires 0 <= i < |resp.hits|
    ensures Text.OccursAt(EntryText(i + 1, resp.hits[i]), SearchText(query, resp), EntryOffset(query, resp, i))
    ensures EntryOffset(query, resp, i + 1) == EntryOffset(query, resp, i) + |EntryText(i + 1, resp.hits[i])|
  {
    Text.ConcatMapBlockAt(SearchHead(query, resp), resp.hits, 1, EntryText, NavigationText(resp.pagination), i);
  }

  /** Every hit's link appears in a successful search on its own
      `   URL: ` line. */
  lemma SearchShowsEveryUrl(query: string, resp: SearchResponse, i: int)
    requires 0 <= i < |resp.hits|
    ensures Text.IsInfix(UrlLine(resp.hits[i].link), SearchText(query, resp))
  {
    var h := resp.hits[i];
    var k := |Text.IntToString(i + 1)| + 2 + |h.title| + 1;
    SearchListsHitsInOrder(query, resp, i);
    EntryHasUrlLine(i + 1, h);
    Text.OccursWithin(UrlLine(h.link), EntryText(i + 1, h), SearchText(query, resp), k, EntryOffset(query, resp, i));
  }

  // ---------------------------------------------------------------------
  // Single-page extraction

  /** The extraction collaborator's answer for one page; an empty
      `description` or `summary` is the same as an absent one. */
  datatype Page = Page(
    url: string,
    title: string,
    description: string,
    wordCount: int,
    approximateChars: int,
    summary: string,
    preview: string)

  const UnknownErrorFallback: string := "Unknown error occurred"

  const ExtractHelp: string :=
    "Common issues:\n- Check if the URL is accessible in a browser\n- Ensure the webpage is public\n- Try again if it's a temporary network issue"

  const ExtractNote: string :=
    "Note: This is a preview of the content. For specific information, please ask about particular aspects of this webpage."

  function PageDetails(c: Page): string
  {
    "Title: " + c.title + "\n"
    + (if c.description != "" then "Description: " + c.description + "\n" else "")
    + "\nStats: " + Text.IntToString(c.wordCount) + " words, " + Text.IntToString(c.approximateChars) + " characters\n\n"
    + (if c.summary != "" then "Summary: " + c.summary + "\n\n" else "")
    + "Content Preview:\n" + c.preview + "\n\n"
  }

  function PageHeader(c: Page): string
  {
    "Content from: " + c.url + "\n\n"
  }

  /** `handleAnalyzeWebpage` after the collaborator call: a failure becomes
      an error result made of its message and the troubleshooting advice;
      a page becomes a non-error result that names its URL first and ends
      with the note about previews. */
  function ExtractResult(o: Outcome<Page>): (r: ToolResult)
    ensures r.isError <==> o.Threw?
    ensures o.Threw? ==>
              r.text == FailureMessage(o.failure, UnknownErrorFallback) + "\n\n" + ExtractHelp
    ensures o.Returned? ==>
              Text.IsPrefix(PageHeader(o.value), r.text)
              && Text.IsSuffix(ExtractNote, r.text)
  {
    match o
    case Threw(f) => ToolResult(FailureMessage(f, UnknownErrorFallback) + "\n\n" + ExtractHelp, true)
    case Returned(c) =>
      PageTextShape(c);
      ToolResult(PageText(c), false)
  }

  function PageText(c: Page): string
  {
    PageHeader(c) + PageDetails(c) + ExtractNote
  }

  lemma PageTextShape(c: Page)
    ensures Text.IsPrefix(PageHeader(c), PageText(c))
    ensures Text.IsSuffix(ExtractNote, PageText(c))
  {
    Text.FramedBy(PageHeader(c), PageDetails(c), ExtractNote);
  }

  // ---------------------------------------------------------------------
  // Batch extraction

  /** One entry of the batch collaborator's answer: a page, or an object
      with an `error` key. */
  datatype BatchItem =
    | Extracted(title: string, description: string, wordCount: int, summary: string, preview: string)
    | ItemError(error: string)

  /** The answer, as `Object.entries` enumerates it. */
  type BatchEntries = seq<(string, BatchItem)>

  const MaxBatchUrls: nat := 5
  const PreviewLength: nat := 150

  const TooManyUrlsText: string :=
    "Maximum 5 URLs allowed per request to maintain performance. Please reduce the number of URLs."

  const BatchHelp: string :=
    "Common issues:\n- Check if all URLs are accessible in a browser\n- Ensure all webpages are public\n- Try again if it's a temporary network issue\n- Consider reducing the number of URLs"

  const BatchNote: string :=
    "Note: These are previews of the content. To analyze the full content of a specific URL, use the extract_webpage_content tool with that URL."

  /** `s.substring(0, 150)`: the first 150 characters, or all of a shorter
      string. */
  function Preview(s: string): (p: string)
    ensures |p| == if |s| < PreviewLength then |s| else PreviewLength
    ensures Text.IsPrefix(p, s)
  {
    if |s| <= PreviewLength then s else s[..PreviewLength]
  }

  function BatchUrlLine(url: string): string
  {
    "URL: " + url + "\n"
  }

  function ErrorLine(e: string): string
  {
    "Error: " + e + "\n\n"
  }

  /** The closing line of a page entry: the preview cut to 150 characters,
      then an ellipsis. */
  function PreviewLine(preview: string): string
  {
    "Preview: " + Preview(preview) + "...\n\n"
  }

  /** What an entry shows below its URL line. */
  function BatchItemText(item: BatchItem): string
  {
    match item
    case ItemError(e) => ErrorLine(e)
    case Extracted(title, description, words, summary, preview) =>
      "Title: " + title + "\n"
      + (if description != "" then "Description: " + description + "\n" else "")
      + "Stats: " + Text.IntToString(words) + " words\n"
      + (if summary != "" then "Summary: " + summary + "\n" else "")
      + PreviewLine(preview)
  }

  /** One entry of a batch text; it opens with the entry's URL line, so
      the reader can tell which URL every block is about. */
  function BatchEntryText(url: string, item: BatchItem): (t: string)
    ensures Text.IsPrefix(BatchUrlLine(url), t)
  {
    BatchUrlLine(url) + BatchItemText(item)
  }

  /** A failed entry shows only its URL and error; a page entry ends with
      its preview cut to 150 characters and an ellipsis. */
  lemma BatchEntryShape(url: string, item: BatchItem)
    ensures item.ItemError? ==> BatchEntryText(url, item) == BatchUrlLine(url) + ErrorLine(item.error)
    ensures item.Extracted? ==> Text.IsSuffix(PreviewLine(item.preview), BatchEntryText(url, item))
  {
    if item.Extracted? {
      var last := PreviewLine(item.preview);
      var t := BatchItemText(item);
      var front := t[..|t| - |last|];
      assert t == front + last;
      Text.SuffixOfNested(BatchUrlLine(url), front, last);
    }
  }

  /** The block of an entry; entries are not numbered, so the index
      plays no part. */
  function BatchBlock(n: int, e: (string, BatchItem)): string
  {
    BatchEntryText(e.0, e.1)
  }

  function BatchEntriesText(es: BatchEntries): string
  {
    Text.ConcatMap(es, 0, BatchBlock)
  }

  /** The first line of a batch text and the blank line after it. */
  function BatchHeader(urlCount: nat): string
  {
    "Content from " + Text.IntToString(urlCount) + " webpages:\n\n"
  }

  function BatchText(urlCount: nat, es: BatchEntries): string
  {
    BatchHeader(urlCount) + BatchEntriesText(es) + BatchNote
  }

  /** A batch text opens with the header counting the requested URLs, ends
      with the note pointing to the single-page tool, and holds between
      them exactly the entries section. */
  lemma BatchTextShape(urlCount: nat, es: BatchEntries)
    ensures var t := BatchText(urlCount, es);
            && Text.IsPrefix(BatchHeader(urlCount), t)
            && Text.IsSuffix(BatchNote, t)
            && t[|BatchHeader(urlCount)|..|t| - |BatchNote|] == BatchEntriesText(es)
  {
    Text.FramedBy(BatchHeader(urlCount), BatchEntriesText(es), BatchNote);
    Text.MiddleOf(BatchHeader(urlCount), BatchEntriesText(es), BatchNote);
  }

  /** `handleBatchAnalyzeWebpages` after the collaborator call. The header
      counts the requested URLs, not the entries returned. */
  function BatchResult(urlCount: nat, o: Outcome<BatchEntries>): (r: ToolResult)
    ensures r.isError <==> o.Threw?
    ensures o.Threw? ==>
              r.text == FailureMessage(o.failure, UnknownErrorFallback) + "\n\n" + BatchHelp
    ensures o.Returned? ==>
              Text.IsPrefix(BatchHeader(urlCount), r.text)
  {
    match o
    case Threw(f) => ToolResult(FailureMessage(f, UnknownErrorFallback) + "\n\n" + BatchHelp, true)
    case Returned(es) => ToolResult(BatchText(urlCount, es), false)
  }

  /** The entries section lists every entry the collaborator returned,
      in its enumeration order: entry `i` comes right after the entries
      before it, and each entry lengthens the section by its own length. */
  lemma BatchEntriesInOrder(es: BatchEntries, i: int)
    requires 0 <= i < |es|
    ensures Text.OccursAt(BatchEntryText(es[i].0, es[i].1), BatchEntriesText(es), |BatchEntriesText(es[..i])|)
    ensures |BatchEntriesText(es[..i + 1])| == |BatchEntriesText(es[..i])| + |BatchEntryText(es[i].0, es[i].1)|
  {
    Text.ConcatMapBlockIn(es, 0, BatchBlock, i);
    assert BatchBlock(0 + i, es[i]) == BatchEntryText(es[i].0, es[i].1);
  }
}
