/** Which jobs a sweep evicts: exactly the finished ones that are older than a day, and,
    when the manager is full, the first finished one. */
module JobRetention {
  import opened Options
  import opened JobEvents
  import opened JobSpec
  import opened JobLedger

  /** The job finished more than a day before. */
  predicate Expired(job: Job, now: int) {
    job.finishedAt.Some? && job.finishedAt.value + 24 * 60 * 60 < now
  }

  /** The job is terminal, and every job before it is not. */
  ghost predicate FirstTerminal(order: seq<JobId>, jobs: map<JobId, Job>, id: JobId) {
    && id in jobs && Terminal(jobs[id].state)
    && exists i :: 0 <= i < |order| && order[i] == id && NoneTerminal(order, i, jobs)
  }

  ghost predicate NoneTerminal(order: seq<JobId>, n: nat, jobs: map<JobId, Job>)
    requires n <= |order|
  {
    forall j :: 0 <= j < n ==> order[j] in jobs && !Terminal(jobs[order[j]].state)
  }

  /** Why a job may go. */
  ghost predicate Due(order: seq<JobId>, jobs: map<JobId, Job>, id: JobId, now: int) {
    && id in jobs && Terminal(jobs[id].state)
    && (Expired(jobs[id], now) || (|jobs| >= 128 && FirstTerminal(order, jobs, id)))
  }

  lemma HeadIsFirst(order: seq<JobId>, jobs: map<JobId, Job>, id: JobId)
    requires order != [] && Distinct(order) && order[0] in jobs && Terminal(jobs[order[0]].state)
    ensures FirstTerminal(order, jobs, id) <==> id == order[0]
  {
    hide Terminal;
    assert NoneTerminal(order, 0, jobs);
  }

  lemma HeadIsNot(order: seq<JobId>, jobs: map<JobId, Job>, id: JobId)
    requires order != [] && Distinct(order) && order[0] in jobs && !Terminal(jobs[order[0]].state)
    ensures FirstTerminal(order, jobs, id) <==> FirstTerminal(order[1..], jobs, id)
  {
    hide Terminal;
    var rest := order[1..];
    if FirstTerminal(order, jobs, id) {
      var i :| 0 <= i < |order| && order[i] == id && NoneTerminal(order, i, jobs);
      assert rest[i - 1] == id && NoneTerminal(rest, i - 1, jobs);
    }
    if FirstTerminal(rest, jobs, id) {
      var i :| 0 <= i < |rest| && rest[i] == id && NoneTerminal(rest, i, jobs);
      forall j | 0 <= j < i + 1
        ensures order[j] in jobs && !Terminal(jobs[order[j]].state)
      {
        assert j > 0 ==> order[j] == rest[j - 1];
      }
      assert order[i + 1] == id && NoneTerminal(order, i + 1, jobs);
    }
  }

  ghost predicate EvictsExactly(order: seq<JobId>, jobs: map<JobId, Job>, now: int, kept: map<JobId, Job>) {
    forall id :: id in jobs && id in order ==> (id in kept <==> !Due(order, jobs, id, now))
  }

  lemma DueAfterEviction(order: seq<JobId>, jobs: map<JobId, Job>, now: int, kept: map<JobId, Job>)
    requires order != [] && Distinct(order) && order[0] in jobs && |jobs| <= 128
    requires Due(order, jobs, order[0], now) && order[0] !in kept
    requires EvictsExactly(order[1..], jobs - {order[0]}, now, kept)
    ensures EvictsExactly(order, jobs, now, kept)
  {
    hide Terminal, FirstTerminal, Expired;
    MapWithout(jobs, order[0]);
    forall id | id in jobs && id in order
      ensures id in kept <==> !Due(order, jobs, id, now)
    {
      HeadIsFirst(order, jobs, id);
      assert order == [order[0]] + order[1..];
      assert id != order[0] ==> id in jobs - {order[0]} && id in order[1..] && (jobs - {order[0]})[id] == jobs[id];
    }
  }

  lemma DueAfterKeeping(order: seq<JobId>, jobs: map<JobId, Job>, now: int, kept: map<JobId, Job>)
    requires order != [] && Distinct(order) && order[0] in jobs && |jobs| <= 128
    requires !Due(order, jobs, order[0], now) && order[0] in kept
    requires EvictsExactly(order[1..], jobs, now, kept)
    ensures EvictsExactly(order, jobs, now, kept)
  {
    hide Terminal, FirstTerminal, Expired;
    forall id | id in jobs && id in order
      ensures id in kept <==> !Due(order, jobs, id, now)
    {
      assert order == [order[0]] + order[1..];
      if Terminal(jobs[order[0]].state) {
        HeadIsFirst(order, jobs, order[0]);
      } else {
        HeadIsNot(order, jobs, id);
      }
    }
  }

  lemma HeadIsEvictable(order: seq<JobId>, jobs: map<JobId, Job>, now: int)
    requires order != [] && Distinct(order) && order[0] in jobs
    ensures Evictable(jobs[order[0]], |jobs|, now) <==> Due(order, jobs, order[0], now)
  {
    hide FirstTerminal, Terminal;
    if Terminal(jobs[order[0]].state) {
      HeadIsFirst(order, jobs, order[0]);
    }
  }

  lemma {:induction false} SweepsExactly(order: seq<JobId>, jobs: map<JobId, Job>, idempotency: map<Key, Committed>, now: int)
    requires Distinct(order) && |jobs| <= 128 && KeysMatch(jobs, idempotency)
    requires forall i :: 0 <= i < |order| ==> order[i] in jobs
    ensures EvictsExactly(order, jobs, now, Sweep(order, jobs, idempotency, now).jobs)
    decreases |order|
  {
    hide Due, Evictable, EvictsExactly, KeysMatch;
    if order == [] {
      NothingToEvict(jobs, idempotency, now);
    } else {
      var id, r := order[0], Sweep(order, jobs, idempotency, now);
      HeadIsEvictable(order, jobs, now);
      SweepIsOk(order, jobs, idempotency, now);
      if Evictable(jobs[id], |jobs|, now) {
        MapWithout(jobs, id);
        KeysMatchWithout(jobs, idempotency, id);
        SweepsExactly(order[1..], jobs - {id}, idempotency - {jobs[id].key}, now);
        SweepIsOk(order[1..], jobs - {id}, idempotency - {jobs[id].key}, now);
        EvictedIdIsGone(id, jobs, idempotency - {jobs[id].key}, r);
        DueAfterEviction(order, jobs, now, r.jobs);
      } else {
        SweepsExactly(order[1..], jobs, idempotency, now);
        DueAfterKeeping(order, jobs, now, r.jobs);
      }
    }
  }

  lemma NothingToEvict(jobs: map<JobId, Job>, idempotency: map<Key, Committed>, now: int)
    ensures EvictsExactly([], jobs, now, Sweep([], jobs, idempotency, now).jobs)
  {
  }

  /** A clean-up drops a job exactly when it is terminal, and finished more than a day
      before or is the first terminal one of a full manager; its key goes with it, and
      every other job keeps its entry. */
  lemma CleanedExactly(m: Manager, now: int, ok: bool)
    requires Structure(m)
    ensures var c := Cleaned(m, now, ok);
            && (forall id :: id in m.jobs ==> (id in c.jobs <==> !Due(m.order, m.jobs, id, now)))
            && (forall id :: id in c.jobs ==> id in m.jobs && c.jobs[id] == m.jobs[id])
            && (forall k :: k in m.idempotency ==> (k in c.idempotency <==> !Due(m.order, m.jobs, m.idempotency[k].jobId, now)))
            && (forall k :: k in c.idempotency ==> k in m.idempotency && c.idempotency[k] == m.idempotency[k])
  {
    hide Due, Sweep, EvictsExactly, Records, Terminal, WindowOk;
    CleanedStructure(m, now, ok);
    StructureIsSwept(m);
    SweepsExactly(m.order, m.jobs, m.idempotency, now);
    EvictsInOrder(m, now);
    assert Cleaned(m, now, ok).jobs == Sweep(m.order, m.jobs, m.idempotency, now).jobs;
  }

  lemma StructureIsSwept(m: Manager)
    requires Structure(m)
    ensures Distinct(m.order) && |m.jobs| <= 128 && KeysMatch(m.jobs, m.idempotency)
    ensures forall i :: 0 <= i < |m.order| ==> m.order[i] in m.jobs
    ensures forall id :: id in m.jobs ==> id in m.order
  {
    hide WindowOk;
    assert forall i :: 0 <= i < |m.order| ==> m.order[i] in m.order;
  }

  lemma EvictsInOrder(m: Manager, now: int)
    requires EvictsExactly(m.order, m.jobs, now, Sweep(m.order, m.jobs, m.idempotency, now).jobs)
    requires forall id :: id in m.jobs ==> id in m.order
    ensures forall id :: id in m.jobs ==>
              (id in Sweep(m.order, m.jobs, m.idempotency, now).jobs <==> !Due(m.order, m.jobs, id, now))
  {
    hide Due, Sweep;
  }
}
