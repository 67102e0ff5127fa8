/** `POST /messages` as written looks the session up with
    `transports[sessionId]` on a plain object literal. Such an object also
    answers for the names it inherits from `Object.prototype`, and every one
    of those values is truthy, so a call naming one of them passes the
    "known session" test. Calling `handlePostMessage` on it then throws a
    `TypeError`, which the dispatcher catches, and the fallback answers
    `200 {status: 'ok'}` where an unknown id should be answered 404.
    `HttpServer.Dispatched` is the corrected behaviour (own keys only). */
module PrototypeLookup {
  import opened Http
  import opened Registry
  import opened HttpServer

  /** The names an empty object inherits from `Object.prototype` in Node. */
  const ObjectPrototypeMembers: set<string> := {
    "constructor", "__proto__", "hasOwnProperty", "isPrototypeOf",
    "propertyIsEnumerable", "toString", "toLocaleString", "valueOf",
    "__defineGetter__", "__defineSetter__", "__lookupGetter__", "__lookupSetter__"
  }

  /** What a property read on the registry object yields. */
  datatype Property = OwnEntry(transport: Transport) | InheritedMember | Undefined

  function PropertyOf(m: map<SessionId, Transport>, key: SessionId): (p: Property)
    ensures p.OwnEntry? <==> key in m
    ensures p.OwnEntry? ==> p.transport == m[key]
    ensures p.InheritedMember? <==> key !in m && key in ObjectPrototypeMembers
  {
    if key in m then OwnEntry(m[key])
    else if key in ObjectPrototypeMembers then InheritedMember
    else Undefined
  }

  /** `POST /messages` as written, with the truthiness test on the property
      read. As in the corrected dispatcher, `end` is the original afterwards
      and the earlier output is kept. */
  function DispatchedAsWritten(m: map<SessionId, Transport>, query: Option<SessionId>,
                               handler: Transport -> HandlerRun, s: ResponseState): (r: ResponseState)
    requires Unanswered(s)
    ensures r.endImpl == Original
    ensures |s.written| <= |r.written| && r.written[..|s.written|] == s.written
  {
    if query.None? || query.value == "" then
      AfterEnd(WithStatus(s, 400), [Text(MissingSessionIdMessage)])
    else
      match PropertyOf(m, query.value)
      case Undefined =>
        AfterEnd(WithStatus(s, 404), [Text(NoTransportMessage)])
      case OwnEntry(transport) =>
        Relayed(handler(transport), s)
      case InheritedMember =>
        // `handlePostMessage` is not a function of the inherited value: the
        // call throws before touching the response.
        var restored := s.(endImpl := Shim).(endImpl := s.endImpl);
        if !restored.headersSent then AfterEnd(WithStatus(restored, 200), [StatusOk]) else restored
  }

  /** The discrepancy: for an empty registry and the id "constructor", the
      code as written acknowledges with 200, the corrected dispatcher with 404. */
  lemma ConstructorIdAcknowledged(handler: Transport -> HandlerRun)
    ensures DispatchedAsWritten(map[], Some("constructor"), handler, Fresh).statusCode == 200
    ensures DispatchedAsWritten(map[], Some("constructor"), handler, Fresh).written == [StatusOk]
    ensures Dispatched(map[], Some("constructor"), handler, Fresh).statusCode == 404
  {
  }

  /** In general: every unregistered inherited name is acknowledged 200 as
      written, while the corrected dispatcher rejects it with 404. */
  lemma InheritedNamesAcknowledged(m: map<SessionId, Transport>, id: SessionId, handler: Transport -> HandlerRun, s: ResponseState)
    requires Unanswered(s) && id in ObjectPrototypeMembers && id !in m
    ensures DispatchedAsWritten(m, Some(id), handler, s).statusCode == 200
    ensures DispatchedAsWritten(m, Some(id), handler, s).written == s.written + [StatusOk]
    ensures Dispatched(m, Some(id), handler, s).statusCode == 404
  {
  }

  /** Apart from unregistered inherited names, the code as written and the
      corrected dispatcher answer alike. */
  lemma AsWrittenAgreesElsewhere(m: map<SessionId, Transport>, query: Option<SessionId>, handler: Transport -> HandlerRun, s: ResponseState)
    requires Unanswered(s)
    requires query.Some? ==> query.value in m || query.value !in ObjectPrototypeMembers
    ensures DispatchedAsWritten(m, query, handler, s) == Dispatched(m, query, handler, s)
  {
  }
}
