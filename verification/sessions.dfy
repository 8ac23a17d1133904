/** The SSE session table of the server: the `transports` map, the
    `GET /sse` handler that registers a transport, the `close` handler that
    removes it, and the `POST /sse/:sessionId` handler that finds the
    transport a follow-up message belongs to.

    Session ids are opaque strings chosen by the SSE transport library; the
    model does not assume they are unique. */
module Sessions {
  import opened Wrappers
  import Text

  /** One open SSE stream. `connection` stands for the HTTP response object
      the stream writes to, so two transports that happen to share an id
      are still told apart. */
  datatype Transport = Transport(sessionId: string, postEndpoint: string, connection: nat)

  /** The `transports` map, keyed by session id. */
  type Table = map<string, Transport>

  const PostPrefix: string := "/sse/"

  /** The path at which the client must POST messages for session `id`. */
  function PostEndpoint(id: string): string
  {
    PostPrefix + id
  }

  /** The session id read from a path of the exact form `/sse/<segment>`:
      one non-empty segment after the lower-case prefix. Express also
      matches other spellings of the route (case-insensitively, and with a
      trailing slash); this reads only the form the server advertises. */
  function RouteSessionId(path: string): Option<string>
  {
    if Text.IsPrefix(PostPrefix, path)
       && |path| > |PostPrefix|
       && '/' !in path[|PostPrefix|..]
    then Some(path[|PostPrefix|..])
    else None
  }

  /** An id that reads back unchanged from a request path: non-empty, a
      single path segment, and free of the characters Express treats
      specially (`?` and `#` end the path, `%` starts an escape that it
      decodes). */
  predicate PlainSegment(id: string)
  {
    id != "" && '/' !in id && '?' !in id && '#' !in id && '%' !in id
  }

  /** The endpoint advertised for a session leads back to that session,
      for any id that is a plain path segment. */
  lemma EndpointRoutesToSession(id: string)
    requires PlainSegment(id)
    ensures RouteSessionId(PostEndpoint(id)) == Some(id)
  {
  }

  /** The transport built for a new SSE connection with id `id`. */
  function NewTransport(id: string, connection: nat): (tr: Transport)
    ensures tr.sessionId == id && tr.connection == connection
    ensures PlainSegment(id) ==> RouteSessionId(tr.postEndpoint) == Some(id)
  {
    Transport(id, PostEndpoint(id), connection)
  }

  /** `transports.get(id)`. */
  function Lookup(t: Table, id: string): Option<Transport>
  {
    if id in t then Some(t[id]) else None
  }

  /** `transports.set(transport.sessionId, transport)`. */
  function Register(t: Table, tr: Transport): Table
  {
    t[tr.sessionId := tr]
  }

  /** Registering the same transport again changes nothing. */
  lemma RegisterIdempotent(t: Table, tr: Transport)
    ensures Register(Register(t, tr), tr) == Register(t, tr)
  {
  }

  /** The `GET /sse` handler: build the transport and store it, twice, under
      its session id. The result is the same as storing it once; any entry
      previously held under that id is replaced, and no other entry
      changes. */
  function Connect(t: Table, id: string, connection: nat): (r: Table)
    ensures r == Register(t, NewTransport(id, connection))
    ensures Lookup(r, id) == Some(NewTransport(id, connection))
    ensures forall k :: k != id ==> Lookup(r, k) == Lookup(t, k)
    ensures r.Keys == t.Keys + {id}
  {
    var tr := NewTransport(id, connection);
    RegisterIdempotent(t, tr);
    Register(Register(t, tr), tr)
  }

  /** The `close` handler of a connection: delete the entry under the
      session id of the transport that connection created. Deletion goes
      by key, so it removes whatever transport is stored there now. */
  function Disconnect(t: Table, tr: Transport): (r: Table)
    ensures Lookup(r, tr.sessionId) == None
    ensures forall k :: k != tr.sessionId ==> Lookup(r, k) == Lookup(t, k)
    ensures r.Keys == t.Keys - {tr.sessionId}
  {
    t - {tr.sessionId}
  }

  /** A second disconnect of the same transport is a no-op. */
  lemma DisconnectIdempotent(t: Table, tr: Transport)
    ensures Disconnect(Disconnect(t, tr), tr) == Disconnect(t, tr)
  {
  }

  /** What `POST /sse/:sessionId` does with a session id. */
  datatype PostOutcome =
    | BadRequest(error: string)    // status 400
    | NotFound(error: string)      // status 404
    | Forward(transport: Transport) // handed to the transport's `handlePostMessage`

  const MissingSessionError: string := "Missing sessionId in request URL"

  function NoSessionError(id: string): string
  {
    "No active session found for sessionId: " + id
  }

  function StatusCode(o: PostOutcome): Option<int>
  {
    match o
    case BadRequest(_) => Some(400)
    case NotFound(_) => Some(404)
    case Forward(_) => None  // chosen by the transport library
  }

  /** The `POST /sse/:sessionId` handler. An empty id is rejected before the
      table is consulted; a non-empty id is forwarded exactly when the table
      holds a transport for it, and then to that transport. */
  function RoutePost(t: Table, id: string): (o: PostOutcome)
    ensures id == "" ==> o == BadRequest(MissingSessionError)
    ensures id != "" ==> (o.Forward? <==> id in t)
    ensures o.Forward? ==> Lookup(t, id) == Some(o.transport)
    ensures id != "" && id !in t ==> o == NotFound(NoSessionError(id))
    ensures StatusCode(o) == Some(400) <==> id == ""
  {
    if id == "" then BadRequest(MissingSessionError)
    else match Lookup(t, id)
      case None => NotFound(NoSessionError(id))
      case Some(tr) => Forward(tr)
  }

  /** Right after a connection registers session `id`, a POST for `id`
      reaches that connection's transport. */
  lemma PostAfterConnect(t: Table, id: string, connection: nat)
    requires id != ""
    ensures RoutePost(Connect(t, id, connection), id) == Forward(NewTransport(id, connection))
  {
  }

  /** Once the connection that registered `id` closes, a POST for `id` gets
      404, and so does every later one until `id` is registered again. */
  lemma PostAfterDisconnect(t: Table, tr: Transport)
    requires tr.sessionId != ""
    ensures RoutePost(Disconnect(t, tr), tr.sessionId) == NotFound(NoSessionError(tr.sessionId))
    ensures RoutePost(Disconnect(Disconnect(t, tr), tr), tr.sessionId)
         == NotFound(NoSessionError(tr.sessionId))
  {
  }

  /** Deletion is by key: when a second connection has registered the same
      id, the close of the first connection removes the second one's
      transport and its messages are no longer routed. */
  lemma StaleCloseRemovesNewer(t: Table, id: string, first: nat, second: nat)
    requires id != "" && first != second
    ensures var newer := Connect(Connect(t, id, first), id, second);
            && RoutePost(newer, id) == Forward(NewTransport(id, second))
            && RoutePost(Disconnect(newer, NewTransport(id, first)), id).NotFound?
  {
  }

  /** Session lifecycle events, in the order the server observes them. */
  datatype Event =
    | Opened(id: string, connection: nat)  // a GET /sse connection arrives
    | Closed(transport: Transport)         // that connection's `close` fires

  function EventKey(e: Event): string
  {
    match e
    case Opened(id, _) => id
    case Closed(tr) => tr.sessionId
  }

  function Step(t: Table, e: Event): Table
  {
    match e
    case Opened(id, c) => Connect(t, id, c)
    case Closed(tr) => Disconnect(t, tr)
  }

  /** The table after a sequence of events. */
  function Replay(t: Table, es: seq<Event>): Table
  {
    if |es| == 0 then t else Step(Replay(t, es[..|es| - 1]), es[|es| - 1])
  }

  /** The last event of `es` about session `id`, if any. */
  function LastEventFor(es: seq<Event>, id: string): Option<Event>
  {
    if |es| == 0 then None
    else if EventKey(es[|es| - 1]) == id then Some(es[|es| - 1])
    else LastEventFor(es[..|es| - 1], id)
  }

  /** What the table holds for `id` after a history is decided by the last
      event about `id` alone: an open leaves that connection's transport, a
      close leaves nothing, and with no such event the entry is as before. */
  lemma {:induction false} ReplayLookup(t: Table, es: seq<Event>, id: string)
    ensures match LastEventFor(es, id)
            case None => Lookup(Replay(t, es), id) == Lookup(t, id)
            case Some(Opened(_, c)) => Lookup(Replay(t, es), id) == Some(NewTransport(id, c))
            case Some(Closed(_)) => Lookup(Replay(t, es), id) == None
  {
    if |es| > 0 {
      ReplayLookup(t, es[..|es| - 1], id);
    }
  }

  /** Consequently a POST for a non-empty `id` is forwarded after a history
      exactly when the last event about `id` opened a connection (or there
      is none and `id` was already present), and never to a closed one. */
  lemma RouteAfterReplay(t: Table, es: seq<Event>, id: string)
    requires id != ""
    ensures RoutePost(Replay(t, es), id).Forward? <==>
            match LastEventFor(es, id)
            case None => id in t
            case Some(e) => e.Opened?
    ensures LastEventFor(es, id).Some? && LastEventFor(es, id).value.Closed? ==>
            RoutePost(Replay(t, es), id) == NotFound(NoSessionError(id))
  {
    ReplayLookup(t, es, id);
  }
}
