/** The HTTP server's session transport: `GET /sse` opens a stream and files
    its transport in the registry, the stream's close event removes it,
    `POST /messages?sessionId=...` routes one call to the transport's message
    handler with the response's `end` temporarily replaced, and
    `GET /health` reports how many sessions the registry holds. */
module HttpServer {
  import opened Http
  import opened Registry

  const MissingSessionIdMessage := "Missing sessionId parameter"
  const NoTransportMessage := "No transport found for sessionId"

  /** What a transport's message handler, which is not part of this model,
      does to the response it is given: it may send the head with a status,
      then may call `end` (with or without arguments), and may then throw. */
  datatype HandlerRun = HandlerRun(writeHead: Option<nat>, endCall: Option<seq<Body>>, throws: bool)

  datatype HandlerOutcome = Returned | Threw

  /** The response after a handler has run on it. */
  function Handled(run: HandlerRun, s: ResponseState): ResponseState
    requires !s.headersSent
  {
    var afterHead := if run.writeHead.Some? then AfterWriteHead(s, run.writeHead.value) else s;
    if run.endCall.Some? then AfterEnd(afterHead, run.endCall.value) else afterHead
  }

  /** The chunks a handler puts on the wire while the shim is installed. */
  function HandlerChunks(run: HandlerRun): seq<Body> {
    if run.endCall.Some? then FirstOf(run.endCall.value) else []
  }

  /** The handler leaves the head unsent: no head of its own and no payload
      passed to `end`. */
  predicate Silent(run: HandlerRun) {
    run.writeHead.None? && HandlerChunks(run) == []
  }

  /** A call relayed to a handler that behaves as `run`: save `end`, install
      the shim, run the handler (an exception is caught), restore `end`, and
      acknowledge with `200 {status: 'ok'}` if the head is still unsent. */
  function Relayed(run: HandlerRun, s: ResponseState): (r: ResponseState)
    requires Unanswered(s)
    ensures r.endImpl == Original
    ensures r.written == s.written + HandlerChunks(run) + (if Silent(run) then [StatusOk] else [])
  {
    var originalEnd := s.endImpl;
    var handled := Handled(run, s.(endImpl := Shim));
    ShimEndKeepsHead(run, s.(endImpl := Shim));
    var restored := handled.(endImpl := originalEnd);
    if !restored.headersSent then AfterEnd(WithStatus(restored, 200), [StatusOk]) else restored
  }

  /** Under the shim, the handler leaves the response unfinished, appends its
      chunks, and leaves the head unsent exactly when it is silent. */
  lemma ShimEndKeepsHead(run: HandlerRun, s: ResponseState)
    requires !s.headersSent && !s.finished && s.endImpl == Shim
    ensures !Handled(run, s).finished && Handled(run, s).endImpl == Shim
    ensures Handled(run, s).written == s.written + HandlerChunks(run)
    ensures Handled(run, s).headersSent == !Silent(run)
    ensures Handled(run, s).statusCode == if run.writeHead.Some? then run.writeHead.value else s.statusCode
  {
    var afterHead := if run.writeHead.Some? then AfterWriteHead(s, run.writeHead.value) else s;
    if run.endCall.Some? {
      ShimEndOnlyWritesFirstArgument(afterHead, run.endCall.value);
    }
  }

  /** The response after `POST /messages` with the given query value, for the
      registry `m`, where `handler(t)` is how transport `t`'s message handler
      behaves. Whatever happens, `end` is the original afterwards and the
      earlier output is kept. */
  function Dispatched(m: map<SessionId, Transport>, query: Option<SessionId>,
                      handler: Transport -> HandlerRun, s: ResponseState): (r: ResponseState)
    requires Unanswered(s)
    ensures r.endImpl == Original
    ensures |s.written| <= |r.written| && r.written[..|s.written|] == s.written
  {
    if query.None? || query.value == "" then
      AfterEnd(WithStatus(s, 400), [Text(MissingSessionIdMessage)])
    else if query.value in m then
      var transport := m[query.value];
      Relayed(handler(transport), s)
    else
      AfterEnd(WithStatus(s, 404), [Text(NoTransportMessage)])
  }

  /** A missing or empty `sessionId` is answered 400, whatever the registry
      holds (it is never consulted) and whatever any handler would do. */
  lemma MissingSessionIdRejected(m: map<SessionId, Transport>, m2: map<SessionId, Transport>, query: Option<SessionId>,
                                 handler: Transport -> HandlerRun, handler2: Transport -> HandlerRun, s: ResponseState)
    requires Unanswered(s) && (query.None? || query.value == "")
    ensures Dispatched(m, query, handler, s).statusCode == 400
    ensures Dispatched(m, query, handler, s).written == s.written + [Text(MissingSessionIdMessage)]
    ensures Dispatched(m, query, handler, s).finished
    ensures Dispatched(m, query, handler, s) == Dispatched(m2, query, handler2, s)
  {
  }

  /** An id with no entry is answered 404; no handler runs and `end` is
      never replaced. */
  lemma UnknownSessionRejected(m: map<SessionId, Transport>, id: SessionId,
                               handler: Transport -> HandlerRun, handler2: Transport -> HandlerRun, s: ResponseState)
    requires Unanswered(s) && id != "" && id !in m
    ensures Dispatched(m, Some(id), handler, s).statusCode == 404
    ensures Dispatched(m, Some(id), handler, s).written == s.written + [Text(NoTransportMessage)]
    ensures Dispatched(m, Some(id), handler, s).finished
    ensures Dispatched(m, Some(id), handler, s).endImpl == Original
    ensures Dispatched(m, Some(id), handler, s) == Dispatched(m, Some(id), handler2, s)
  {
  }

  /** A call for a registered id reaches the handler of the transport filed
      under that id and no other: the answer depends on that handler alone,
      and in a keyed registry that transport is the one whose id was asked for. */
  lemma KnownSessionReachesItsTransport(m: map<SessionId, Transport>, id: SessionId,
                                        handler: Transport -> HandlerRun, handler2: Transport -> HandlerRun, s: ResponseState)
    requires Unanswered(s) && id != "" && id in m
    ensures Dispatched(m, Some(id), handler, s) == Relayed(handler(m[id]), s)
    ensures handler(m[id]) == handler2(m[id]) ==> Dispatched(m, Some(id), handler, s) == Dispatched(m, Some(id), handler2, s)
    ensures Keyed(m) ==> m[id].sessionId == id
  {
  }

  /** For a registered id the original `end` is back in place afterwards,
      and a handler that throws leaves the same response as one that returns
      after doing the same things. */
  lemma KnownSessionRestoresEnd(m: map<SessionId, Transport>, id: SessionId,
                                handler: Transport -> HandlerRun, handler2: Transport -> HandlerRun, s: ResponseState)
    requires Unanswered(s) && id != "" && id in m
    requires handler(m[id]).(throws := false) == handler2(m[id]).(throws := false)
    ensures Dispatched(m, Some(id), handler, s).endImpl == Original
    ensures Dispatched(m, Some(id), handler, s) == Dispatched(m, Some(id), handler2, s)
  {
  }

  /** For a registered id whose transport's handler behaves as `run`, the
      handler's chunks reach the wire, and the acknowledgment
      `200 {status: 'ok'}` is added exactly once exactly when the handler
      left the head unsent; otherwise nothing is added and the response is
      left unfinished, with the handler's status. */
  lemma FallbackAcknowledgesSilentHandler(m: map<SessionId, Transport>, id: SessionId,
                                          handler: Transport -> HandlerRun, s: ResponseState)
    requires Unanswered(s) && id != "" && id in m
    ensures var run := handler(m[id]);
      var r := Dispatched(m, Some(id), handler, s);
      if Silent(run) then
        r.written == s.written + HandlerChunks(run) + [StatusOk] && r.statusCode == 200 && r.finished
      else
        r.written == s.written + HandlerChunks(run) && !r.finished && r.headersSent
        && r.statusCode == (if run.writeHead.Some? then run.writeHead.value else s.statusCode)
  {
    ShimEndKeepsHead(handler(m[id]), s.(endImpl := Shim));
  }

  /** Runs `transport`'s message handler, which behaves as
      `handler(transport)`, on the response. */
  method HandlePostMessage(transport: Transport, handler: Transport -> HandlerRun, res: Response)
    returns (outcome: HandlerOutcome)
    requires !res.headersSent
    modifies res
    ensures res.State() == Handled(handler(transport), old(res.State()))
    ensures outcome == if handler(transport).throws then Threw else Returned
  {
    var run := handler(transport);
    if run.writeHead.Some? {
      res.WriteHead(run.writeHead.value);
    }
    if run.endCall.Some? {
      res.End(run.endCall.value);
    }
    outcome := if run.throws then Threw else Returned;
  }

  class Server {
    var transports: map<SessionId, Transport>

    ghost predicate Valid()
      reads this
    {
      Keyed(transports)
    }

    constructor ()
      ensures Valid() && transports == map[]
    {
      transports := map[];
    }

    /** `GET /sse`: send the event-stream head on `sse`, then file the newly
        constructed transport under its id. `created` is `None` when the
        transport's construction threw; nothing is filed then. */
    method OpenStream(sse: Response, created: Option<Transport>)
      requires Valid() && Unanswered(sse.State())
      modifies this, sse
      ensures Valid()
      ensures sse.State() == AfterWriteHead(old(sse.State()), 200)
      ensures transports == if created.Some? then Register(old(transports), created.value) else old(transports)
    {
      sse.WriteHead(200);
      if created.Some? {
        var transport := created.value;
        transports := transports[transport.sessionId := transport];
      }
    }

    /** The stream's close event: delete the entry under the transport's id. */
    method CloseStream(transport: Transport)
      requires Valid()
      modifies this
      ensures Valid()
      ensures transports == Unregister(old(transports), transport.sessionId)
    {
      transports := transports - {transport.sessionId};
    }

    /** `POST /messages`: route one call to the session's handler. */
    method PostMessages(query: Option<SessionId>, handler: Transport -> HandlerRun, res: Response)
      returns (ghost reached: Option<Transport>)
      requires Valid() && Unanswered(res.State())
      modifies res
      ensures Valid() && transports == old(transports)
      ensures res.State() == Dispatched(transports, query, handler, old(res.State()))
      ensures reached == if query.Some? && query.value != "" && query.value in transports
                         then Some(transports[query.value]) else None
      ensures reached.Some? ==> reached.value.sessionId == query.value
    {
      reached := None;
      if query.None? || query.value == "" {
        res.Status(400);
        res.Send(Text(MissingSessionIdMessage));
        return;
      }
      var sessionId := query.value;
      if sessionId in transports {
        var transport := transports[sessionId];
        var originalEnd := res.endImpl;
        res.endImpl := Shim;
        reached := Some(transport);
        // A thrown exception is caught and only logged: both outcomes go on.
        var outcome := HandlePostMessage(transport, handler, res);
        res.endImpl := originalEnd;
        if !res.headersSent {
          res.Status(200);
          res.Send(StatusOk);
        }
      } else {
        res.Status(404);
        res.Send(Text(NoTransportMessage));
      }
    }

    /** `GET /health`: answer 200 with the number of registered sessions. */
    method Health(res: Response) returns (connections: nat)
      requires Valid() && Unanswered(res.State())
      modifies res
      ensures Valid() && transports == old(transports)
      ensures connections == |transports|
      ensures res.State() == AfterEnd(WithStatus(old(res.State()), 200), [HealthReport(connections)])
    {
      connections := |transports|;
      res.Status(200);
      res.Send(HealthReport(connections));
    }
  }
}
