/** The session registry: a table from session id to the streaming transport
    that owns the session. The transport itself is opaque here; only the id
    it was created with matters to the registry. */
module Registry {
  import opened Http

  type SessionId = string

  /** An open server-sent-events transport: the id it generated for itself
      and an opaque handle standing for the stream it writes to. */
  datatype Transport = Transport(sessionId: SessionId, stream: nat)

  /** Every entry is filed under its own transport's id. */
  ghost predicate Keyed(m: map<SessionId, Transport>) {
    forall id :: id in m ==> m[id].sessionId == id
  }

  function Lookup(m: map<SessionId, Transport>, id: SessionId): (r: Option<Transport>)
    ensures r.Some? <==> id in m
    ensures r.Some? ==> r.value == m[id]
  {
    if id in m then Some(m[id]) else None
  }

  /** Storing a new transport under its id: the entry is set (overwriting any
      entry already there, as no uniqueness check is made) and every other
      key keeps its entry. */
  function Register(m: map<SessionId, Transport>, t: Transport): (m': map<SessionId, Transport>)
    ensures t.sessionId in m' && m'[t.sessionId] == t
    ensures m'.Keys == m.Keys + {t.sessionId}
    ensures forall id :: id in m && id != t.sessionId ==> m'[id] == m[id]
    ensures Keyed(m) ==> Keyed(m')
  {
    m[t.sessionId := t]
  }

  /** Deleting a key: that key alone leaves the table; a key that is not
      there leaves the table as it was. */
  function Unregister(m: map<SessionId, Transport>, id: SessionId): (m': map<SessionId, Transport>)
    ensures m'.Keys == m.Keys - {id}
    ensures forall k :: k in m' ==> m'[k] == m[k]
    ensures id !in m ==> m' == m
    ensures Keyed(m) ==> Keyed(m')
  {
    m - {id}
  }

  /** Close events may repeat: a second delete of the same key is a no-op. */
  lemma UnregisterIdempotent(m: map<SessionId, Transport>, id: SessionId)
    ensures Unregister(Unregister(m, id), id) == Unregister(m, id)
  {
  }

  /** A later open under an id already in use replaces the earlier entry. */
  lemma RegisterOverwrites(m: map<SessionId, Transport>, t1: Transport, t2: Transport)
    requires t1.sessionId == t2.sessionId
    ensures Register(Register(m, t1), t2) == Register(m, t2)
  {
  }
}
