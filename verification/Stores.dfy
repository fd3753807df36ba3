/** The local stores (src/session/store.py, src/saga/idempotency.py). */
module Stores {
  import opened Models

  class InMemorySessionStore {
    var sessions: map<Sid, Session>

    constructor ()
      ensures sessions == map[]
    {
      sessions := map[];
    }

    method Save(session: Session) returns (saved: Session)
      modifies this
      ensures saved == session && sessions == old(sessions)[session.id := session]
    {
      sessions := sessions[session.id := session];
      saved := session;
    }

    method Get(id: Sid) returns (session: Option<Session>)
      ensures session == Find(sessions, id)
    {
      session := if id in sessions then Some(sessions[id]) else None;
    }
  }

  function Find<K, V>(m: map<K, V>, k: K): Option<V> {
    if k in m then Some(m[k]) else None
  }

  /** A session store with one lock per session.  `locks` holds the locks made so far; an entry
      is true while its lock is taken. */
  class LockedSessionStore {
    const inner: InMemorySessionStore
    var locks: map<Sid, bool>

    constructor (inner: InMemorySessionStore)
      ensures this.inner == inner && locks == map[]
    {
      this.inner := inner;
      locks := map[];
    }

    method Save(session: Session) returns (saved: Session)
      modifies inner
      ensures saved == session && inner.sessions == old(inner.sessions)[session.id := session]
    {
      saved := inner.Save(session);
    }

    method Get(id: Sid) returns (session: Option<Session>)
      ensures session == Find(inner.sessions, id)
    {
      session := inner.Get(id);
    }

    predicate Free(id: Sid)
      reads this
    {
      id in locks ==> !locks[id]
    }

    method LockFor(id: Sid)
      modifies this`locks
      ensures id in locks && locks[id] == (id in old(locks) && old(locks)[id])
      ensures forall i :: i != id ==> Find(locks, i) == Find(old(locks), i)
    {
      if id !in locks {
        locks := locks[id := false];
      }
    }

    method Acquire(id: Sid)
      requires id in locks && !locks[id]
      modifies this`locks
      ensures locks == old(locks)[id := true]
    {
      locks := locks[id := true];
    }

    method Release(id: Sid)
      requires id in locks && locks[id]
      modifies this`locks
      ensures locks == old(locks)[id := false]
    {
      locks := locks[id := false];
    }
  }

  class InMemoryIdempotencyStore {
    var records: map<(Sid, Key), Record>

    constructor ()
      ensures records == map[]
    {
      records := map[];
    }

    method Get(id: Sid, key: Key) returns (record: Option<Record>)
      ensures record == Find(records, (id, key))
    {
      record := if (id, key) in records then Some(records[(id, key)]) else None;
    }

    method Put(id: Sid, key: Key, record: Record)
      modifies this
      ensures records == old(records)[(id, key) := record]
    {
      records := records[(id, key) := record];
    }
  }
}
