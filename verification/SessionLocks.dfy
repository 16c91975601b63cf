/** The reference-counted locks that serialise work on one Codex session. Every atomic
    section of lockSessionLoad and of the unlock it returns is a method; a state that
    is valid before any of them, by any thread, is valid after it. */
module SessionLocks {
  import opened Options

  type Session = string
  type Thread = nat

  /** The identity of a lock object. */
  type LockId = nat

  datatype Lock = Lock(refs: nat, holder: Option<Thread>)

  /** How far a thread is between entering and leaving: it has its lock object and
      waits for it, holds it, or has let go of it and not yet left. */
  datatype Stage = Waiting | Holding | Leaving

  datatype Visit = Visit(session: Session, lock: LockId, stage: Stage)

  ghost function Inside(visits: map<Thread, Visit>, session: Session): (threads: set<Thread>) {
    set t | t in visits && visits[t].session == session
  }

  /** Every thread inside has its session's current lock object, and no two sessions
      share one. */
  ghost predicate Matched(current: map<Session, LockId>, made: map<LockId, Lock>, visits: map<Thread, Visit>) {
    && (forall s :: s in current ==> current[s] in made)
    && (forall s, u :: s in current && u in current && s != u ==> current[s] != current[u])
    && (forall t :: t in visits ==> visits[t].session in current && current[visits[t].session] == visits[t].lock)
  }

  /** References count the threads inside, and only sessions with one have a lock. */
  ghost predicate Counted(current: map<Session, LockId>, made: map<LockId, Lock>, visits: map<Thread, Visit>) {
    forall s :: s in current && current[s] in made ==> made[current[s]].refs == |Inside(visits, s)| > 0
  }

  ghost predicate Owned(current: map<Session, LockId>, made: map<LockId, Lock>, visits: map<Thread, Visit>) {
    && (forall s :: s in current && current[s] in made && made[current[s]].holder.Some? ==>
          var t := made[current[s]].holder.value; t in visits && visits[t].session == s && visits[t].stage == Holding)
    && (forall t :: t in visits && visits[t].stage == Holding && visits[t].lock in made ==>
          made[visits[t].lock].holder == Some(t))
  }

  ghost predicate Consistent(current: map<Session, LockId>, made: map<LockId, Lock>, visits: map<Thread, Visit>) {
    Matched(current, made, visits) && Counted(current, made, visits) && Owned(current, made, visits)
  }

  class LoadLocks {
    var current: map<Session, LockId>
    var made: map<LockId, Lock>
    ghost var visits: map<Thread, Visit>

    ghost predicate Valid()
      reads this
    {
      Consistent(current, made, visits)
    }

    constructor ()
      ensures Valid() && current == map[] && visits == map[]
    {
      current, made, visits := map[], map[], map[];
    }

    /** Find or make the session's lock and count one more reference; `id` is the
        identity a new object gets. */
    method Enter(t: Thread, session: Session, id: LockId) returns (lock: LockId)
      requires Valid() && t !in visits && id !in made
      modifies this
      ensures Valid() && visits == old(visits)[t := Visit(session, lock, Waiting)]
      ensures lock == if session in old(current) then old(current)[session] else id
      ensures current == old(current)[session := lock]
    {
      if session in current {
        lock := current[session];
        EnteredAgain(current, made, visits, t, session);
        assert current == current[session := lock];
      } else {
        lock := id;
        EnteredFirst(current, made, visits, t, session, id);
        made := made[lock := Lock(0, None)];
        current := current[session := lock];
      }
      made := made[lock := made[lock].(refs := made[lock].refs + 1)];
      visits := visits[t := Visit(session, lock, Waiting)];
    }

    /** The lock is taken; the thread waits until it is free. */
    method Acquire(t: Thread, lock: LockId)
      requires Valid() && t in visits && visits[t].stage == Waiting && visits[t].lock == lock
      requires lock in made && made[lock].holder == None
      modifies this`made, this`visits
      ensures Valid() && visits == old(visits)[t := old(visits)[t].(stage := Holding)]
      ensures lock in made && made[lock].holder == Some(t)
    {
      Acquired(current, made, visits, t);
      made := made[lock := made[lock].(holder := Some(t))];
      visits := visits[t := visits[t].(stage := Holding)];
    }

    method Unlock(t: Thread, lock: LockId)
      requires Valid() && t in visits && visits[t].stage == Holding && visits[t].lock == lock
      modifies this`made, this`visits
      ensures Valid() && visits == old(visits)[t := old(visits)[t].(stage := Leaving)]
      ensures lock in made && made[lock].holder == None
    {
      Unlocked(current, made, visits, t);
      made := made[lock := made[lock].(holder := None)];
      visits := visits[t := visits[t].(stage := Leaving)];
    }

    /** Drop the reference, and the lock with the last one. */
    method Leave(t: Thread, session: Session, lock: LockId)
      requires Valid() && t in visits && visits[t] == Visit(session, lock, Leaving)
      modifies this
      ensures Valid() && visits == old(visits) - {t}
      ensures session in current <==> exists u :: u in visits && visits[u].session == session
      ensures current == old(current) || current == old(current) - {session}
    {
      Left(current, made, visits, t);
      hide Consistent;
      made := made[lock := made[lock].(refs := made[lock].refs - 1)];
      visits := visits - {t};
      if made[lock].refs == 0 {
        current := current - {session};
      }
    }
  }

  // ----- Counting -----

  lemma EnteredInside(visits: map<Thread, Visit>, t: Thread, v: Visit)
    requires t !in visits
    ensures forall s :: |Inside(visits[t := v], s)| == |Inside(visits, s)| + (if s == v.session then 1 else 0)
  {
    forall s
      ensures |Inside(visits[t := v], s)| == |Inside(visits, s)| + (if s == v.session then 1 else 0)
    {
      assert Inside(visits[t := v], s) == Inside(visits, s) + (if s == v.session then {t} else {});
    }
  }

  lemma LeftInside(visits: map<Thread, Visit>, t: Thread)
    requires t in visits
    ensures forall s :: |Inside(visits - {t}, s)| == |Inside(visits, s)| - (if s == visits[t].session then 1 else 0)
  {
    forall s
      ensures |Inside(visits - {t}, s)| == |Inside(visits, s)| - (if s == visits[t].session then 1 else 0)
    {
      assert Inside(visits - {t}, s) == Inside(visits, s) - (if s == visits[t].session then {t} else {});
    }
  }

  lemma SomebodyInside(visits: map<Thread, Visit>, session: Session)
    ensures |Inside(visits, session)| > 0 <==> exists t :: t in visits && visits[t].session == session
  {
    if t :| t in visits && visits[t].session == session {
      assert t in Inside(visits, session);
    } else {
      assert Inside(visits, session) == {};
    }
  }

  // ----- Each section keeps the state consistent -----

  lemma EnteredAgain(current: map<Session, LockId>, made: map<LockId, Lock>, visits: map<Thread, Visit>,
                     t: Thread, session: Session)
    requires Consistent(current, made, visits) && t !in visits && session in current
    ensures var lock := current[session];
            lock in made
            && Consistent(current, made[lock := made[lock].(refs := made[lock].refs + 1)],
                          visits[t := Visit(session, lock, Waiting)])
  {
    hide Matched, Counted, Owned;
    EnteredMatched(current, made, visits, t, session);
    EnteredCounted(current, made, visits, t, session);
    EnteredOwned(current, made, visits, t, session);
  }

  lemma EnteredMatched(current: map<Session, LockId>, made: map<LockId, Lock>, visits: map<Thread, Visit>,
                       t: Thread, session: Session)
    requires Matched(current, made, visits) && t !in visits && session in current
    ensures var lock := current[session];
            lock in made
            && Matched(current, made[lock := made[lock].(refs := made[lock].refs + 1)],
                       visits[t := Visit(session, lock, Waiting)])
  {
  }

  lemma EnteredCounted(current: map<Session, LockId>, made: map<LockId, Lock>, visits: map<Thread, Visit>,
                       t: Thread, session: Session)
    requires Matched(current, made, visits) && Counted(current, made, visits) && t !in visits && session in current
    ensures var lock := current[session];
            lock in made
            && Counted(current, made[lock := made[lock].(refs := made[lock].refs + 1)],
                       visits[t := Visit(session, lock, Waiting)])
  {
    EnteredInside(visits, t, Visit(session, current[session], Waiting));
    hide Inside;
  }

  lemma EnteredOwned(current: map<Session, LockId>, made: map<LockId, Lock>, visits: map<Thread, Visit>,
                     t: Thread, session: Session)
    requires Matched(current, made, visits) && Owned(current, made, visits) && t !in visits && session in current
    ensures var lock := current[session];
            lock in made
            && Owned(current, made[lock := made[lock].(refs := made[lock].refs + 1)],
                     visits[t := Visit(session, lock, Waiting)])
  {
  }

  lemma EnteredFirst(current: map<Session, LockId>, made: map<LockId, Lock>, visits: map<Thread, Visit>,
                     t: Thread, session: Session, lock: LockId)
    requires Consistent(current, made, visits) && t !in visits && session !in current && lock !in made
    ensures Consistent(current[session := lock], made[lock := Lock(0, None)][lock := Lock(1, None)],
                       visits[t := Visit(session, lock, Waiting)])
  {
    EnteredInside(visits, t, Visit(session, lock, Waiting));
    SomebodyInside(visits, session);
    hide Inside;
  }

  lemma Acquired(current: map<Session, LockId>, made: map<LockId, Lock>, visits: map<Thread, Visit>, t: Thread)
    requires Consistent(current, made, visits) && t in visits && visits[t].stage == Waiting
    requires visits[t].lock in made && made[visits[t].lock].holder == None
    ensures var lock := visits[t].lock;
            Consistent(current, made[lock := made[lock].(holder := Some(t))], visits[t := visits[t].(stage := Holding)])
  {
    SameInside(visits, visits[t := visits[t].(stage := Holding)]);
    hide Inside;
  }

  lemma Unlocked(current: map<Session, LockId>, made: map<LockId, Lock>, visits: map<Thread, Visit>, t: Thread)
    requires Consistent(current, made, visits) && t in visits && visits[t].stage == Holding
    ensures var lock := visits[t].lock;
            lock in made
            && Consistent(current, made[lock := made[lock].(holder := None)], visits[t := visits[t].(stage := Leaving)])
  {
    SameInside(visits, visits[t := visits[t].(stage := Leaving)]);
    hide Inside;
  }

  lemma Left(current: map<Session, LockId>, made: map<LockId, Lock>, visits: map<Thread, Visit>, t: Thread)
    requires Consistent(current, made, visits) && t in visits && visits[t].stage == Leaving
    ensures var (session, lock) := (visits[t].session, visits[t].lock);
            && session in current && lock in made && made[lock].refs > 0
            && var made' := made[lock := made[lock].(refs := made[lock].refs - 1)];
               var current' := if made'[lock].refs == 0 then current - {session} else current;
               && Consistent(current', made', visits - {t})
               && (session in current' <==> exists u :: u in visits - {t} && (visits - {t})[u].session == session)
  {
    LeftInside(visits, t);
    SomebodyInside(visits, visits[t].session);
    SomebodyInside(visits - {t}, visits[t].session);
    hide Inside;
  }

  lemma SameInside(a: map<Thread, Visit>, b: map<Thread, Visit>)
    requires a.Keys == b.Keys && forall t :: t in a ==> a[t].session == b[t].session
    ensures forall s :: Inside(a, s) == Inside(b, s)
  {
  }

  // ----- What a consistent state promises -----

  /** Two threads never hold the lock of the same session at once. */
  lemma MutualExclusion(l: LoadLocks, t: Thread, u: Thread)
    requires l.Valid() && t in l.visits && u in l.visits && l.visits[t].session == l.visits[u].session
    requires l.visits[t].stage == Holding && l.visits[u].stage == Holding
    ensures t == u
  {
    assert l.made[l.visits[t].lock].holder == Some(t) && l.visits[t].lock == l.visits[u].lock;
  }

  /** Threads share a lock object exactly when they are inside for the same session, so
      a session never has two live lock objects. */
  lemma OneLockPerSession(l: LoadLocks, t: Thread, u: Thread)
    requires l.Valid() && t in l.visits && u in l.visits
    ensures l.visits[t].lock == l.visits[u].lock <==> l.visits[t].session == l.visits[u].session
  {
    var s, v := l.visits[t].session, l.visits[u].session;
    assert l.current[s] == l.visits[t].lock && l.current[v] == l.visits[u].lock;
  }

  /** The map holds exactly the sessions some thread is inside for. */
  lemma LocksAreInUse(l: LoadLocks, session: Session)
    requires l.Valid()
    ensures session in l.current <==> exists t :: t in l.visits && l.visits[t].session == session
    ensures l.visits == map[] <==> l.current == map[]
  {
    SomebodyInside(l.visits, session);
    if l.visits != map[] {
      var t :| t in l.visits;
      assert l.visits[t].session in l.current;
    }
    forall s | s in l.current
      ensures exists t :: t in l.visits && l.visits[t].session == s
    {
      SomebodyInside(l.visits, s);
    }
    assert l.visits == map[] ==> l.current.Keys == {};
  }

  /** A lock is never stuck: a thread that waits while nobody inside for its session
      holds the lock finds it free. */
  lemma WaiterCanAcquire(l: LoadLocks, t: Thread)
    requires l.Valid() && t in l.visits && l.visits[t].stage == Waiting
    requires forall u :: u in l.visits && l.visits[u].session == l.visits[t].session ==> l.visits[u].stage != Holding
    ensures l.visits[t].lock in l.made && l.made[l.visits[t].lock].holder == None
  {
    var s := l.visits[t].session;
    assert l.current[s] == l.visits[t].lock;
  }
}
