# Google Search MCP server: a Dafny model of its session table, dispatch and result formatting

The server exposes three tools over the Model Context Protocol: `google_search`,
`extract_webpage_content` and `extract_multiple_webpages`. Clients reach them in two ways.
One is a Server-Sent-Events (SSE) session: `GET /sse` opens the session and
`POST /sse/:sessionId` carries its messages. The other is a direct `POST /tools/:toolName`.
This project models the sequential logic of `src/google-search.ts` as pure functions:

- **Sessions** (`sessions.dfy`): the `transports` map from session id to SSE transport.
  Connecting stores the transport, and the source does this twice. Disconnecting deletes the
  entry by key. The POST handler answers 400, answers 404, or forwards the message. A
  lifecycle is a sequence of open and close events replayed over the table.
- **Arguments** (`arguments.dfy`): tool arguments are a JSON value. The model gives
  JavaScript truthiness and `String(v)` for JSON values, including the case where `String`
  throws: an object with its own `toString` key, at any depth inside an array, cannot be
  converted (`Printable`, `ConversionError`). `Normalize` is the MCP `tools/call`
  handler's validation and coercion. It is total and returns `Ok(request)` or `Invalid(message)`.
  `DirectRoute` is the `/tools/:toolName` route, which forwards raw body fields.
- **Results** (`results.dfy`): the text of each tool result, built from the collaborators'
  answers. A collaborator that throws is an `Outcome` of `Threw`.
- **Router** (`router.dfy`): the three handlers and the MCP dispatcher. The search and
  extraction collaborators are function-valued parameters (`Backends`). Each handler returns
  its result and the list of collaborator calls it made (`Handled`).
- **Text** (`text.dfy`) and **Wrappers** (`wrappers.dfy`): string helpers, decimal rendering
  of integers with a reader that inverts it, and `Option`/`Result`.

Behaviour of the code worth knowing:

- The only check on `query` is `'query' in arguments`. It is not checked to be a non-empty
  string: `null` becomes `"null"`.
- `format` is stringified and passed on without being checked against
  `markdown | html | text`.
- An invalid or unknown MCP tool call is thrown as an exception. It is not returned as an
  `isError` result. So is an argument that `String` cannot convert, such as
  `{"query": {"toString": 1}}`: the call becomes a protocol error and no search is made.
- Session ids come from the SSE library and nothing in the server keeps them unique.
  Closing a connection deletes by key. So if a second connection has taken the same id, its
  entry is deleted too (`Sessions.StaleCloseRemovesNewer`).
- Closing a connection also calls `close()` on the one shared MCP server, which is not a
  per-session release.

## Model

| member | source | states |
|---|---|---|
| Sessions.NewTransport | src/google-search.ts:138-146 | a new transport carries the session id and an endpoint `/sse/<id>`; for a plain one-segment id (no `/`, `?`, `#` or `%`), reading the id back from that endpoint the way the POST route does gives that same id |
| Sessions.EndpointRoutesToSession | src/google-search.ts:142-143 | for a plain one-segment id, the advertised POST endpoint routes back to its own session id |
| Sessions.RegisterIdempotent | src/google-search.ts:152-157 | storing the same transport twice under its id leaves the same table as storing it once |
| Sessions.Connect | src/google-search.ts:137-157 | after a connection, the id maps to the new transport, the previous entry under that id is replaced, every other entry is unchanged, and the key set gains exactly the id |
| Sessions.Disconnect | src/google-search.ts:166-171 | a close removes exactly the closing transport's id and leaves every other entry unchanged |
| Sessions.DisconnectIdempotent | src/google-search.ts:166-169 | closing twice leaves the same table as closing once |
| Sessions.RoutePost | src/google-search.ts:175-201 | an empty id gets 400 whatever the table holds; a non-empty id is forwarded if and only if it is in the table, and then to the stored transport; otherwise 404 with the id in the message |
| Sessions.PostAfterConnect | src/google-search.ts:152-200 | right after a connection registers an id, a POST for that id reaches that connection's transport |
| Sessions.PostAfterDisconnect | src/google-search.ts:166-195 | after a close, and after a repeated close, a POST for the closed id gets 404 |
| Sessions.StaleCloseRemovesNewer | src/google-search.ts:166-169 | the close of an older connection removes a newer connection's transport registered under the same id |
| Sessions.ReplayLookup | src/google-search.ts:137-171 | over any sequence of opens and closes, the entry for an id depends only on the last event about that id: an open leaves that connection's transport, a close leaves nothing, and with no such event the entry is as before |
| Sessions.RouteAfterReplay | src/google-search.ts:137-195 | after any history, a POST for a non-empty id is forwarded exactly when the last event about it was an open, or when there was none and the id was present before; after a close it is 404 |
| Arguments.NumberField | src/google-search.ts:357 | a numeric option is kept exactly when the argument is a number, with its value; anything else becomes undefined |
| Arguments.StringField | src/google-search.ts:359 | a falsy argument gives no filter; a truthy one gives its stringification, or the conversion error exactly when `String` throws on it |
| Arguments.SearchFiltersOf | src/google-search.ts:358-367 | the filters are read exactly when none of the six string filters throws in `String`; otherwise the call fails with the conversion error |
| Arguments.FormatField | src/google-search.ts:376 | the format is `markdown` when the argument is falsy, the conversion error exactly when `String` throws on it, and otherwise the stringified argument |
| Arguments.Normalize | src/google-search.ts:351-392 | an unknown tool is rejected with `Unknown tool: <name>`; each known tool is accepted if and only if its required key is present (for the batch tool, holding an array) and no value it stringifies makes `String` throw; a missing key is rejected with that tool's `Invalid arguments` message and a value `String` cannot convert with the conversion error; an accepted request names the tool that was called |
| Arguments.NormalizeSearchFields | src/google-search.ts:354-368 | an accepted search has the stringified query; `num_results`, `page` and `resultsPerPage` are coerced as numbers, and the six string filters are coerced by truthiness |
| Arguments.NormalizeExtractFields | src/google-search.ts:372-387 | accepted extraction requests carry the stringified URL, or every element of the URL array stringified in order, with the format defaulting to `markdown` |
| Arguments.EmptyArrayFilterBecomesEmptyString | src/google-search.ts:359 | a truthy value can still stringify to the empty string, so `site: []` becomes the filter `""` and not undefined |
| Arguments.OwnToStringIsRejected | src/google-search.ts:356-385 | a query `{"toString": 1}`, or a URL array holding such an object, makes `String` throw and the call is rejected with the conversion error |
| Arguments.NormalizeArgumentsOf | src/google-search.ts:351-392 | for any request with non-empty string fields, sending its plain JSON arguments through the MCP handler gives that request back |
| Arguments.RawFormat | src/google-search.ts:231 | on the direct route the format is the raw value when it is truthy, and `markdown` otherwise |
| Arguments.DirectRoute | src/google-search.ts:204-244 | the direct route gives 404 if and only if the tool is unknown; a search gets the body's raw `query`, `num_results` and every raw filter under its own key; the extraction tools get the raw `url` or `urls` and the defaulted raw format; there is no check for required keys |
| Arguments.DirectRouteSkipsValidation | src/google-search.ts:211-225 | a search body without `query` is rejected by the MCP handler but still dispatched by the direct route, with an undefined query |
| Arguments.UnknownToolsAgree | src/google-search.ts:242-243 | both dispatchers reject exactly the same tool names as unknown |
| Results.EntryHasUrlLine | src/google-search.ts:446-448 | every hit's block contains the hit's `   URL: <link>` line at a fixed position |
| Results.AppendEntries | src/google-search.ts:445-449 | the `forEach` loop appends the blocks of all hits, in order, numbered from 1 |
| Results.NavigationRoundTrip | src/google-search.ts:452-461 | read back, the navigation line offers `currentPage - 1` exactly when there is a previous page and `currentPage + 1` exactly when there is a next page; the line is empty exactly when it offers neither |
| Results.SearchResult | src/google-search.ts:410-477 | a thrown error becomes an error result with its message, or the fallback message for a non-Error value; an empty hit list becomes the soft error with the reformulation advice; otherwise the result is not an error and opens with `Search results for "<query>":` and a blank line |
| Results.SearchListsHitsInOrder | src/google-search.ts:432-449 | hit `i` appears in the search text numbered `i + 1`, right after the block of hit `i - 1` |
| Results.SearchShowsEveryUrl | src/google-search.ts:445-449 | every hit's link appears in the search text on its own `   URL:` line |
| Results.ExtractResult | src/google-search.ts:480-526 | the result is an error if and only if extraction threw; the error text is the message followed by the troubleshooting advice; a page's text opens with `Content from: <url>` and ends with the note about previews |
| Results.Preview | src/google-search.ts:567 | a batch preview is the first `min(150, length)` characters of the page preview |
| Results.BatchEntryText | src/google-search.ts:546-567 | every batch entry opens with its `URL:` line |
| Results.BatchEntryShape | src/google-search.ts:549-567 | an error entry is only its URL line and its `Error: <msg>` line, with nothing from the page fields; a page entry ends with the preview cut to 150 characters and `...` |
| Results.BatchEntriesInOrder | src/google-search.ts:546-568 | the entries appear in the order the collaborator enumerates them: entry `i` starts right where the entries before it end, and adds exactly its own length |
| Results.BatchTextShape | src/google-search.ts:544-570 | a batch text opens with the header counting the requested URLs and ends with the note about the single-page tool, and between the two holds exactly the entries |
| Results.BatchResult | src/google-search.ts:540-593 | the result is an error if and only if batch extraction threw; the error text is the message followed by the batch advice; otherwise the text opens with the number of URLs requested |
| Router.HandleSearch | src/google-search.ts:396-478 | a search makes exactly one search call, with the request's own arguments; the result is an error exactly when that call threw or found no hits; no hits gives the reformulation advice; a non-error result opens with the query header |
| Router.HandleExtract | src/google-search.ts:480-527 | an extraction makes exactly one extraction call, with the request's URL and format; the result is an error exactly when that call threw; otherwise it opens with the page's `Content from:` header |
| Router.HandleBatch | src/google-search.ts:529-594 | more than five URLs give the fixed `Maximum 5 URLs` error and no collaborator call; five or fewer, including exactly five and none, give one batch call for all of them; the result is then an error exactly when that call threw, and otherwise opens with the count of requested URLs |
| Router.Handle | src/google-search.ts:351-392 | a handler makes no collaborator call exactly when it is a batch of more than five URLs; otherwise it makes the one call its request describes |
| Router.FailuresBecomeErrorResults | src/google-search.ts:471-593 | when the collaborator throws, the handler still returns an error result whose text opens with the thrown message |
| Router.CallTool | src/google-search.ts:351-393 | a call is refused, with the normaliser's message, exactly when normalisation rejects it; an accepted call makes at most one collaborator call, and only for the tool that was named |
| Router.TooManyUrlsNeverReachExtractor | src/google-search.ts:530-538 | through the MCP handler, a URL array of more than five elements gives the fixed error and makes no extraction call, unless a URL or the format cannot be stringified, in which case the call is a protocol error with the conversion message |
| Router.UnknownToolReachesNoCollaborator | src/google-search.ts:390-391 | an unknown tool is refused before any collaborator is called |
| Router.SessionSearchScenario | src/google-search.ts:137-201 | connect, route a search for "rust ownership" through the session, and get a non-error result that opens with the query header and shows the first hit's URL line; after disconnect, the same id gets 404 |

## Left out

- Express setup, CORS, JSON body parsing, `/health`, `app.listen` and SIGINT shutdown: these are process and HTTP wiring.
- SSE transport internals: how session ids are generated, `handlePostMessage`, and the `_sessionId` assignment. They belong to the MCP SDK. Ids are opaque strings and are not assumed to be unique.
- `server.connect` and `server.close()`, including the close on the shared server at disconnect: SDK behaviour.
- The search service and content extractor: they appear only as the `Backends` functions and their answers.
- The tool catalog, the input schemas and the `tools/list` handler: constant data with no behaviour.
- `src/mcp.d.ts`: it holds only ambient type declarations.
- Console logging, JSON serialisation of responses, and the direct route's 500 answer when a handler hits a runtime type error.
- On the direct route, what handlers do with raw values of the wrong type (for example, a string `urls` whose `.length` is compared with 5). The route is modelled only up to the raw call it makes.
- Sessions.RouteSessionId: percent-decoding of the segment (`decodeURIComponent`) and splitting off a `?` query or `#` fragment are not modelled, so an id holding `%`, `?` or `#` is not promised to route back to itself. Express's case-insensitive matching (`/SSE/abc`) and its acceptance of a trailing slash (`/sse/abc/`) are not modelled either; the function reads only the exact lower-case form.
- Concurrency between sessions: each handler is modelled as one atomic step.
- Arguments.Json: numbers are exact integers. Fractional numbers and NaN are not modelled. Nor is double rounding: `JSON.parse` rounds an integer of magnitude 2^53 or more to a double, and `String` prints the shortest round-trip digits padded with zeros (2^60 prints as `1152921504606847000`), and from 10^21 in exponent notation; the model's `JsString` prints every integer's exact decimal digits.
- Results.SearchResult: the numbers rendered with `IntToString` (category counts, `currentPage`, `totalResults`, and the navigation page numbers) are printed as exact decimal digits; for magnitudes of 2^53 and above JavaScript would print the rounded double as described for `Arguments.Json`.
- Results.ExtractResult: likewise, `wordCount` and `approximateChars` are printed exactly, which differs from JavaScript only from 2^53 up; the same holds for the word count in `Results.BatchResult`.
- Results.Preview: counts Unicode scalar values, not UTF-16 code units. The two differ only for characters outside the Basic Multilingual Plane.
- Results.BatchResult: the collaborator's answer is taken as a sequence in `Object.entries` order. That order is not derived from the object's keys.
- Results.ExtractResult: states only the opening, the ending and the error flag. The middle lines (title, optional description, stats, optional summary, preview) are given only by `PageDetails`.
