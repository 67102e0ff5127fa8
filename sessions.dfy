/** The server's event loop as a sequence of turns, each one route call or
    one close event, and what any such sequence does to the registry. */
module Sessions {
  import opened Http
  import opened Registry
  import opened HttpServer

  datatype Event =
    | Open(created: Option<Transport>)
    | Close(transport: Transport)
    | Post(query: Option<SessionId>, handler: Transport -> HandlerRun)
    | HealthCheck

  /** The registry after one turn: only opens and closes touch it, and
      entries stay filed under their own ids. */
  function Step(m: map<SessionId, Transport>, e: Event): (m': map<SessionId, Transport>)
    ensures e.Post? || e.HealthCheck? || (e.Open? && e.created.None?) ==> m' == m
    ensures e.Close? ==> e.transport.sessionId !in m'
    ensures e.Open? && e.created.Some? ==> Lookup(m', e.created.value.sessionId) == e.created
    ensures Keyed(m) ==> Keyed(m')
  {
    match e
    case Open(created) => if created.Some? then Register(m, created.value) else m
    case Close(t) => Unregister(m, t.sessionId)
    case Post(_, _) => m
    case HealthCheck => m
  }

  /** One turn of the event loop on the server: each route call gets a
      response of its own, as the framework hands out, and the registry
      afterwards is the one `Step` gives. */
  method Apply(server: Server, e: Event)
    requires server.Valid()
    modifies server
    ensures server.Valid()
    ensures server.transports == Step(old(server.transports), e)
  {
    match e
    case Open(created) =>
      var sse := new Response();
      server.OpenStream(sse, created);
    case Close(t) =>
      server.CloseStream(t);
    case Post(query, handler) =>
      var res := new Response();
      ghost var reached := server.PostMessages(query, handler, res);
    case HealthCheck =>
      var res := new Response();
      var connections := server.Health(res);
  }

  /** The registry after the turns `evs`, in order, starting from `m`. */
  function Run(m: map<SessionId, Transport>, evs: seq<Event>): map<SessionId, Transport>
    decreases |evs|
  {
    if evs == [] then m else Run(Step(m, evs[0]), evs[1..])
  }

  /** Reference definition, read from the latest turn backwards: the
      transport of the last successful open of `id`, unless a close of `id`
      came after it; with no such turn, the initial entry. */
  function LatestEntry(m0: map<SessionId, Transport>, evs: seq<Event>, id: SessionId): Option<Transport>
    decreases |evs|
  {
    if evs == [] then Lookup(m0, id)
    else
      var last := evs[|evs| - 1];
      if last.Open? && last.created.Some? && last.created.value.sessionId == id then last.created
      else if last.Close? && last.transport.sessionId == id then None
      else LatestEntry(m0, evs[..|evs| - 1], id)
  }

  /** The ids that ever had an entry: initially, or through an open. */
  function Candidates(m0: map<SessionId, Transport>, evs: seq<Event>): set<SessionId>
    decreases |evs|
  {
    if evs == [] then m0.Keys
    else
      var e := evs[|evs| - 1];
      Candidates(m0, evs[..|evs| - 1]) + (if e.Open? && e.created.Some? then {e.created.value.sessionId} else {})
  }

  lemma {:induction false} RunSnoc(m: map<SessionId, Transport>, evs: seq<Event>, e: Event)
    ensures Run(m, evs + [e]) == Step(Run(m, evs), e)
    decreases |evs|
  {
    if evs == [] {
      assert evs + [e] == [e];
    } else {
      assert (evs + [e])[0] == evs[0];
      assert (evs + [e])[1..] == evs[1..] + [e];
      RunSnoc(Step(m, evs[0]), evs[1..], e);
    }
  }

  /** After any sequence of turns, looking an id up in the registry gives
      exactly the transport of its latest open not followed by a close. */
  lemma {:induction false} RunMatchesLatestEntry(m0: map<SessionId, Transport>, evs: seq<Event>, id: SessionId)
    ensures Lookup(Run(m0, evs), id) == LatestEntry(m0, evs, id)
    decreases |evs|
  {
    if evs != [] {
      var earlier := evs[..|evs| - 1];
      var last := evs[|evs| - 1];
      assert evs == earlier + [last];
      RunSnoc(m0, earlier, last);
      RunMatchesLatestEntry(m0, earlier, id);
    }
  }

  /** Every registered id is a candidate. */
  lemma {:induction false} RunKeysAreCandidates(m0: map<SessionId, Transport>, evs: seq<Event>)
    ensures Run(m0, evs).Keys <= Candidates(m0, evs)
    decreases |evs|
  {
    if evs != [] {
      var earlier := evs[..|evs| - 1];
      var last := evs[|evs| - 1];
      assert evs == earlier + [last];
      RunSnoc(m0, earlier, last);
      RunKeysAreCandidates(m0, earlier);
    }
  }

  /** The registry holds exactly the sessions that are open, so the health
      report's `connections` counts exactly those. */
  lemma RegistryHoldsOpenSessions(m0: map<SessionId, Transport>, evs: seq<Event>)
    ensures Run(m0, evs).Keys == set id | id in Candidates(m0, evs) && LatestEntry(m0, evs, id).Some?
    ensures |Run(m0, evs)| == |set id | id in Candidates(m0, evs) && LatestEntry(m0, evs, id).Some?|
  {
    var open := set id | id in Candidates(m0, evs) && LatestEntry(m0, evs, id).Some?;
    RunKeysAreCandidates(m0, evs);
    forall id | id in Run(m0, evs).Keys
      ensures id in open
    {
      RunMatchesLatestEntry(m0, evs, id);
    }
    forall id | id in open
      ensures id in Run(m0, evs).Keys
    {
      RunMatchesLatestEntry(m0, evs, id);
    }
  }

  /** Every entry stays filed under its own transport's id. */
  lemma {:induction false} RunKeepsKeyed(m0: map<SessionId, Transport>, evs: seq<Event>)
    requires Keyed(m0)
    ensures Keyed(Run(m0, evs))
    decreases |evs|
  {
    if evs != [] {
      RunKeepsKeyed(Step(m0, evs[0]), evs[1..]);
    }
  }

  /** Once a session's latest turn is a close (or it was never opened), a
      call naming it is answered 404 without reaching any handler. */
  lemma ClosedSessionAnswered404(m0: map<SessionId, Transport>, evs: seq<Event>, id: SessionId,
                                 handler: Transport -> HandlerRun, s: ResponseState)
    requires Unanswered(s) && id != "" && LatestEntry(m0, evs, id).None?
    ensures Dispatched(Run(m0, evs), Some(id), handler, s).statusCode == 404
    ensures Dispatched(Run(m0, evs), Some(id), handler, s).written == s.written + [Text(NoTransportMessage)]
  {
    RunMatchesLatestEntry(m0, evs, id);
  }

  /** Closing a session, however often, makes later calls to it 404. */
  lemma CloseThenPostAnswered404(m0: map<SessionId, Transport>, evs: seq<Event>, t: Transport,
                                 repeats: nat, handler: Transport -> HandlerRun, s: ResponseState)
    requires Unanswered(s) && t.sessionId != ""
    ensures Dispatched(Run(m0, evs + seq(repeats + 1, _ => Close(t))), Some(t.sessionId), handler, s).statusCode == 404
  {
    var closed := evs + seq(repeats + 1, _ => Close(t));
    assert closed[|closed| - 1] == Close(t);
    ClosedSessionAnswered404(m0, closed, t.sessionId, handler, s);
  }

  /** While a session is open, a call naming it is relayed to the handler of
      the transport from its latest open, and to no other. */
  lemma OpenSessionReachesLatestTransport(m0: map<SessionId, Transport>, evs: seq<Event>, id: SessionId,
                                          handler: Transport -> HandlerRun, s: ResponseState)
    requires Unanswered(s) && id != "" && LatestEntry(m0, evs, id).Some?
    ensures Dispatched(Run(m0, evs), Some(id), handler, s) == Relayed(handler(LatestEntry(m0, evs, id).value), s)
  {
    RunMatchesLatestEntry(m0, evs, id);
  }

  /** Calls and health checks never change the registry. */
  lemma {:induction false} CallsLeaveRegistry(m0: map<SessionId, Transport>, evs: seq<Event>)
    requires forall i :: 0 <= i < |evs| ==> evs[i].Post? || evs[i].HealthCheck?
    ensures Run(m0, evs) == m0
    decreases |evs|
  {
    if evs != [] {
      CallsLeaveRegistry(m0, evs[1..]);
    }
  }
}
