/** Facts about the manager's structure: what the ledger written from it contains,
    what eviction removes, and what a restart rebuilds. */
module JobLedger {
  import opened Options
  import opened JobEvents
  import opened JobSpec

  predicate Distinct<T(==)>(s: seq<T>) {
    forall i, j :: 0 <= i < j < |s| ==> s[i] != s[j]
  }

  /** The jobs, their order and their keys describe the same set of jobs. */
  ghost predicate Indexed(m: Manager) {
    IndexedMaps(m.order, m.jobs, m.idempotency)
  }

  ghost predicate IndexedMaps(order: seq<JobId>, jobs: map<JobId, Job>, idempotency: map<Key, Committed>) {
    && Distinct(order)
    && (forall id :: id in order <==> id in jobs)
    && (forall id :: id in jobs ==>
          && jobs[id].key in idempotency && idempotency[jobs[id].key].jobId == id
          && WindowOk(jobs[id].window) && id != "" && jobs[id].key != "")
    && (forall k :: k in idempotency ==>
          idempotency[k].jobId in jobs && jobs[idempotency[k].jobId].key == k)
  }

  /** Reservations are for keys that no job has, and leave room for their jobs. */
  ghost predicate Reserving(starting: map<Key, Reservation>, jobs: map<JobId, Job>, idempotency: map<Key, Committed>) {
    && starting.Keys !! idempotency.Keys
    && "" !in starting
    && |jobs| + |starting| <= MAX_RETAINED_JOBS
  }

  ghost predicate Structure(m: Manager) {
    Indexed(m) && Reserving(m.starting, m.jobs, m.idempotency)
  }

  ghost predicate LedgerOk(records: seq<Record>) {
    && |records| <= MAX_RETAINED_JOBS
    && (forall i, j :: 0 <= i < j < |records| ==>
          records[i].id != records[j].id && records[i].job.key != records[j].job.key)
    && (forall i :: 0 <= i < |records| ==>
          records[i].id != "" && records[i].job.key != "" && WindowOk(records[i].job.window))
  }

  ghost function LedgerKeys(records: seq<Record>): (ks: set<Key>) {
    set i | 0 <= i < |records| :: records[i].job.key
  }

  // ----- Sizes -----

  lemma MapWithout<K, V>(m: map<K, V>, k: K)
    requires k in m
    ensures |m - {k}| == |m| - 1
  {
    assert (m - {k}).Keys == m.Keys - {k};
    assert |(m - {k}).Keys| == |m - {k}| && |m.Keys| == |m|;
  }

  lemma {:induction false} DistinctSize<K, V>(s: seq<K>, m: map<K, V>)
    requires Distinct(s) && forall k :: k in s <==> k in m
    ensures |s| == |m|
    decreases |s|
  {
    if s == [] {
      assert m.Keys == {} by {
        assert forall k :: k in m ==> k in s;
      }
      assert |m| == |m.Keys|;
    } else {
      var rest := s[1..];
      assert s == [s[0]] + rest;
      MapWithout(m, s[0]);
      DistinctSize(rest, m - {s[0]});
    }
  }

  // ----- The ledger written from the manager -----

  lemma {:induction false} RecordsAt(order: seq<JobId>, jobs: map<JobId, Job>, idempotency: map<Key, Committed>)
    requires forall i :: 0 <= i < |order| ==> order[i] in jobs
    ensures var rs := RecordsOf(order, jobs, idempotency);
            |rs| == |order| && forall i :: 0 <= i < |order| ==>
              rs[i] == Record(order[i], HashOf(idempotency, jobs[order[i]].key), jobs[order[i]])
    decreases |order|
  {
    if order != [] {
      RecordsAt(order[1..], jobs, idempotency);
    }
  }

  /** The written ledger lists exactly the jobs in memory, each under its key. */
  lemma WrittenLedger(m: Manager)
    requires Structure(m)
    ensures LedgerOk(Records(m)) && |Records(m)| == |m.jobs|
    ensures LedgerKeys(Records(m)) == m.idempotency.Keys
    ensures forall i :: 0 <= i < |Records(m)| ==>
              Records(m)[i].id in m.jobs && Records(m)[i].job == m.jobs[Records(m)[i].id]
  {
    WrittenInOrder(m);
    WrittenIdsAndKeys(m);
    WrittenKeys(m);
  }

  lemma WrittenInOrder(m: Manager)
    requires Indexed(m)
    ensures |Records(m)| == |m.order| == |m.jobs|
    ensures forall i :: 0 <= i < |m.order| ==>
              && Records(m)[i].id == m.order[i] && m.order[i] in m.jobs
              && Records(m)[i].job == m.jobs[m.order[i]]
  {
    assert forall i :: 0 <= i < |m.order| ==> m.order[i] in m.order;
    RecordsAt(m.order, m.jobs, m.idempotency);
    DistinctSize(m.order, m.jobs);
  }

  lemma WrittenKeys(m: Manager)
    requires Indexed(m) && |Records(m)| == |m.order|
    requires forall i :: 0 <= i < |Records(m)| ==>
               Records(m)[i].id == m.order[i] && m.order[i] in m.jobs && Records(m)[i].job == m.jobs[m.order[i]]
    ensures LedgerKeys(Records(m)) == m.idempotency.Keys
  {
    hide Records;
    var rs := Records(m);
    forall k | k in m.idempotency
      ensures k in LedgerKeys(rs)
    {
      var id := m.idempotency[k].jobId;
      assert id in m.order;
      var i :| 0 <= i < |m.order| && m.order[i] == id;
      assert rs[i].job.key == k;
    }
    forall k | k in LedgerKeys(rs)
      ensures k in m.idempotency
    {
      var i :| 0 <= i < |rs| && rs[i].job.key == k;
      assert m.jobs[m.order[i]].key == k;
    }
  }

  lemma WrittenIdsAndKeys(m: Manager)
    requires Indexed(m) && |Records(m)| == |m.order|
    requires forall i :: 0 <= i < |Records(m)| ==>
               Records(m)[i].id == m.order[i] && m.order[i] in m.jobs && Records(m)[i].job == m.jobs[m.order[i]]
    ensures forall i, j :: 0 <= i < j < |Records(m)| ==>
              Records(m)[i].id != Records(m)[j].id && Records(m)[i].job.key != Records(m)[j].job.key
  {
    hide Records;
    var rs := Records(m);
    forall i, j | 0 <= i < j < |rs|
      ensures rs[i].id != rs[j].id && rs[i].job.key != rs[j].job.key
    {
      assert m.order[i] != m.order[j];
      assert m.idempotency[rs[i].job.key].jobId == m.order[i];
      assert m.idempotency[rs[j].job.key].jobId == m.order[j];
    }
  }

  // ----- Eviction -----

  ghost predicate SubMap<K(!new), V(!new)>(small: map<K, V>, big: map<K, V>) {
    forall k :: k in small ==> k in big && small[k] == big[k]
  }

  ghost predicate KeysMatch(jobs: map<JobId, Job>, idempotency: map<Key, Committed>) {
    && (forall id :: id in jobs ==> jobs[id].key in idempotency && idempotency[jobs[id].key].jobId == id)
    && (forall k :: k in idempotency ==> idempotency[k].jobId in jobs && jobs[idempotency[k].jobId].key == k)
  }

  /** What a sweep leaves of the maps: only terminal jobs are gone, each with its
      key, and the order of the rest is kept. */
  ghost predicate SweptOk(order: seq<JobId>, jobs: map<JobId, Job>, idempotency: map<Key, Committed>, r: Swept) {
    SweptMaps(jobs, idempotency, r.jobs, r.idempotency) && SweptOrder(order, jobs, r)
  }

  ghost predicate SweptMaps(jobs: map<JobId, Job>, idempotency: map<Key, Committed>,
                            kept: map<JobId, Job>, keptKeys: map<Key, Committed>) {
    && SubMap(kept, jobs) && SubMap(keptKeys, idempotency) && |kept| <= |jobs|
    && (forall id :: id in jobs && id !in kept ==> Terminal(jobs[id].state))
    && (forall k :: k in idempotency ==> (k in keptKeys <==> idempotency[k].jobId in kept))
  }

  ghost predicate SweptOrder(order: seq<JobId>, jobs: map<JobId, Job>, r: Swept) {
    && Distinct(r.order)
    && (forall id :: id in r.order ==> id in order && id in r.jobs)
    && (forall id :: id in order && id in r.jobs ==> id in r.order)
    && (forall id :: id in jobs && id !in order ==> id in r.jobs)
  }

  lemma SweptMapsAfterEviction(id: JobId, jobs: map<JobId, Job>, idempotency: map<Key, Committed>, r: Swept)
    requires id in jobs && KeysMatch(jobs, idempotency) && Terminal(jobs[id].state)
    requires SweptMaps(jobs - {id}, idempotency - {jobs[id].key}, r.jobs, r.idempotency)
    ensures SweptMaps(jobs, idempotency, r.jobs, r.idempotency)
  {
    hide Terminal, KeysMatch, SubMap;
    MapWithout(jobs, id);
    SubMapOfMore(r.jobs, jobs, id);
    SubMapOfMore(r.idempotency, idempotency, jobs[id].key);
    KeysOfSwept(id, jobs, idempotency, r);
    TerminalsGone(id, jobs, r.jobs);
  }

  lemma TerminalsGone(id: JobId, jobs: map<JobId, Job>, kept: map<JobId, Job>)
    requires id in jobs && Terminal(jobs[id].state)
    requires forall x :: x in jobs - {id} && x !in kept ==> Terminal((jobs - {id})[x].state)
    ensures forall x :: x in jobs && x !in kept ==> Terminal(jobs[x].state)
  {
    hide Terminal;
    forall x | x in jobs && x !in kept
      ensures Terminal(jobs[x].state)
    {
      assert x != id ==> (jobs - {id})[x] == jobs[x];
    }
  }

  lemma KeysOfSwept(id: JobId, jobs: map<JobId, Job>, idempotency: map<Key, Committed>, r: Swept)
    requires id in jobs && KeysMatch(jobs, idempotency)
    requires id !in r.jobs && jobs[id].key !in r.idempotency
    requires forall k :: k in idempotency - {jobs[id].key} ==>
               (k in r.idempotency <==> (idempotency - {jobs[id].key})[k].jobId in r.jobs)
    ensures forall k :: k in idempotency ==> (k in r.idempotency <==> idempotency[k].jobId in r.jobs)
  {
    hide KeysMatch;
    forall k | k in idempotency
      ensures k in r.idempotency <==> idempotency[k].jobId in r.jobs
    {
      KeyOfAnother(id, jobs, idempotency, k);
    }
  }

  lemma SubMapOfMore<K(!new), V(!new)>(small: map<K, V>, big: map<K, V>, k: K)
    requires SubMap(small, big - {k})
    ensures SubMap(small, big) && k !in small
  {
  }

  lemma KeyOfAnother(id: JobId, jobs: map<JobId, Job>, idempotency: map<Key, Committed>, k: Key)
    requires id in jobs && KeysMatch(jobs, idempotency) && k in idempotency
    ensures k == jobs[id].key <==> idempotency[k].jobId == id
    ensures k != jobs[id].key ==> k in idempotency - {jobs[id].key} && (idempotency - {jobs[id].key})[k] == idempotency[k]
  {
  }

  lemma SweptOrderAfterEviction(order: seq<JobId>, jobs: map<JobId, Job>, r: Swept)
    requires order != [] && order[0] !in r.jobs && order[0] in jobs
    requires SweptOrder(order[1..], jobs - {order[0]}, r)
    ensures SweptOrder(order, jobs, r)
  {
    assert forall x :: x in order <==> x == order[0] || x in order[1..] by {
      assert order == [order[0]] + order[1..];
    }
  }

  lemma SweptOrderAfterKeeping(order: seq<JobId>, jobs: map<JobId, Job>, r: Swept)
    requires order != [] && Distinct(order) && order[0] in jobs
    requires SweptOrder(order[1..], jobs, r)
    ensures SweptOrder(order, jobs, r.(order := [order[0]] + r.order))
  {
    var id := order[0];
    assert forall x :: x in order <==> x == id || x in order[1..] by {
      assert order == [id] + order[1..];
    }
    assert id !in order[1..];
    assert id in r.jobs;
    assert id !in r.order;
  }

  lemma {:induction false} SweepIsOk(order: seq<JobId>, jobs: map<JobId, Job>, idempotency: map<Key, Committed>, now: int)
    requires Distinct(order) && KeysMatch(jobs, idempotency)
    requires forall i :: 0 <= i < |order| ==> order[i] in jobs
    ensures SweptOk(order, jobs, idempotency, Sweep(order, jobs, idempotency, now))
    decreases |order|
  {
    hide SweptMaps, SweptOrder;
    if order == [] {
      SweptNothing(jobs, idempotency);
    } else {
      var id := order[0];
      if Evictable(jobs[id], |jobs|, now) {
        KeysMatchWithout(jobs, idempotency, id);
        SweepIsOk(order[1..], jobs - {id}, idempotency - {jobs[id].key}, now);
        EvictedIdIsGone(id, jobs, idempotency - {jobs[id].key}, Sweep(order, jobs, idempotency, now));
        SweptMapsAfterEviction(id, jobs, idempotency, Sweep(order, jobs, idempotency, now));
        SweptOrderAfterEviction(order, jobs, Sweep(order, jobs, idempotency, now));
      } else {
        SweepIsOk(order[1..], jobs, idempotency, now);
        SweptOrderAfterKeeping(order, jobs, Sweep(order[1..], jobs, idempotency, now));
      }
    }
  }

  lemma SweptNothing(jobs: map<JobId, Job>, idempotency: map<Key, Committed>)
    requires KeysMatch(jobs, idempotency)
    ensures SweptOk([], jobs, idempotency, Swept([], jobs, idempotency))
  {
  }

  lemma EvictedIdIsGone(id: JobId, jobs: map<JobId, Job>, idempotency: map<Key, Committed>, r: Swept)
    requires SweptMaps(jobs - {id}, idempotency, r.jobs, r.idempotency)
    ensures id !in r.jobs
  {
  }

  lemma KeysMatchWithout(jobs: map<JobId, Job>, idempotency: map<Key, Committed>, id: JobId)
    requires KeysMatch(jobs, idempotency) && id in jobs
    ensures KeysMatch(jobs - {id}, idempotency - {jobs[id].key})
  {
  }

  /** cleanupLocked keeps the structure; what it evicts is terminal. */
  lemma CleanedStructure(m: Manager, now: int, ok: bool)
    requires Structure(m)
    ensures var c := Cleaned(m, now, ok);
            && Structure(c) && c.starting == m.starting && c.tokens == m.tokens
            && c.storeOpen == m.storeOpen && c.closed == m.closed
            && SubMap(c.jobs, m.jobs) && SubMap(c.idempotency, m.idempotency)
            && (forall id :: id in m.jobs && id !in c.jobs ==> Terminal(m.jobs[id].state))
            && (forall k :: k in m.idempotency ==> (k in c.idempotency <==> m.idempotency[k].jobId in c.jobs))
  {
    var r := Sweep(m.order, m.jobs, m.idempotency, now);
    assert SweptOk(m.order, m.jobs, m.idempotency, r) by {
      assert forall i :: 0 <= i < |m.order| ==> m.order[i] in m.order;
      SweepIsOk(m.order, m.jobs, m.idempotency, now);
    }
    CleanedFromSweep(m, now, ok, r);
  }

  lemma CleanedFromSweep(m: Manager, now: int, ok: bool, r: Swept)
    requires Structure(m) && r == Sweep(m.order, m.jobs, m.idempotency, now)
    requires SweptOk(m.order, m.jobs, m.idempotency, r)
    ensures var c := Cleaned(m, now, ok);
            && Structure(c) && c.starting == m.starting && c.tokens == m.tokens
            && c.storeOpen == m.storeOpen && c.closed == m.closed
            && c.jobs == r.jobs && c.idempotency == r.idempotency
  {
    hide Sweep, RecordsOf, Indexed;
    var c := Cleaned(m, now, ok);
    assert c.jobs == r.jobs && c.idempotency == r.idempotency && c.order == r.order;
    assert Indexed(c) by {
      SweptKeepsIndexed(m, c, r);
    }
  }

  lemma SweptKeepsIndexed(m: Manager, c: Manager, r: Swept)
    requires Indexed(m) && SweptOk(m.order, m.jobs, m.idempotency, r)
    requires c.jobs == r.jobs && c.idempotency == r.idempotency && c.order == r.order
    ensures Indexed(c)
  {
    SweptIsIndexed(m, c);
  }

  lemma SweptIsIndexed(m: Manager, c: Manager)
    requires Indexed(m) && SubMap(c.jobs, m.jobs) && SubMap(c.idempotency, m.idempotency)
    requires Distinct(c.order) && (forall id :: id in c.order ==> id in m.order)
    requires forall id :: id in c.order ==> id in c.jobs
    requires forall id :: id in m.order && id in c.jobs ==> id in c.order
    requires forall k :: k in m.idempotency ==> (k in c.idempotency <==> m.idempotency[k].jobId in c.jobs)
    ensures Indexed(c)
  {
  }

  // ----- Restart -----

  /** Records about to be restored do not meet what has been restored. */
  ghost predicate Apart(m: Manager, records: seq<Record>) {
    forall i :: 0 <= i < |records| ==> records[i].id !in m.jobs && records[i].job.key !in m.idempotency
  }

  lemma KeysOfCons(records: seq<Record>)
    requires records != []
    ensures LedgerKeys(records) == {records[0].job.key} + LedgerKeys(records[1..])
  {
    var rest := records[1..];
    forall k | k in LedgerKeys(records)
      ensures k in {records[0].job.key} + LedgerKeys(rest)
    {
      var i :| 0 <= i < |records| && records[i].job.key == k;
      if i > 0 {
        assert rest[i - 1].job.key == k;
      }
    }
    forall k | k in LedgerKeys(rest)
      ensures k in LedgerKeys(records)
    {
      var i :| 0 <= i < |rest| && rest[i].job.key == k;
      assert records[i + 1].job.key == k;
    }
  }

  /** One step of the restore loop. */
  function AfterRecord(m: Manager, r: Record, stopped: set<JobId>, at: int): (m': Manager)
    requires WindowOk(r.job.window)
  {
    var job := RestoredJob(r.job, r.id in stopped, at);
    m.(jobs := m.jobs[r.id := job], order := m.order + [r.id],
       idempotency := m.idempotency[job.key := Committed(r.id, r.hash)])
  }

  lemma AfterRecordIsIndexed(m: Manager, r: Record, stopped: set<JobId>, at: int)
    requires Indexed(m) && WindowOk(r.job.window) && r.id != "" && r.job.key != ""
    requires r.id !in m.jobs && r.job.key !in m.idempotency
    ensures Indexed(AfterRecord(m, r, stopped, at))
  {
    hide RestoredJob, IndexedMaps;
    var job := RestoredJob(r.job, r.id in stopped, at);
    IndexAdds(m.order, m.jobs, m.idempotency, r.id, job, r.hash);
  }

  lemma IndexAdds(order: seq<JobId>, jobs: map<JobId, Job>, idempotency: map<Key, Committed>, id: JobId, job: Job, hash: Hash)
    requires IndexedMaps(order, jobs, idempotency) && WindowOk(job.window) && id != "" && job.key != ""
    requires id !in jobs && job.key !in idempotency
    ensures IndexedMaps(order + [id], jobs[id := job], idempotency[job.key := Committed(id, hash)])
  {
    hide WindowOk;
    assert id !in order;
  }

  lemma RestOfLedger(m: Manager, records: seq<Record>, stopped: set<JobId>, at: int)
    requires records != [] && LedgerOk(records) && Apart(m, records)
    ensures WindowsOk(records) && WindowsOk(records[1..]) && WindowOk(records[0].job.window)
    ensures LedgerOk(records[1..]) && Apart(AfterRecord(m, records[0], stopped, at), records[1..])
    ensures RestoreFrom(m, records, stopped, at)
         == RestoreFrom(AfterRecord(m, records[0], stopped, at), records[1..], stopped, at)
  {
  }

  ghost predicate SameRest(r: Manager, m: Manager) {
    && r.starting == m.starting && r.tokens == m.tokens && r.storeOpen == m.storeOpen
    && r.storeErr == m.storeErr && r.closed == m.closed && r.ledger == m.ledger
  }

  /** The maps a restart rebuilds: one job and one key per record. */
  ghost predicate RestoredOk(m: Manager, records: seq<Record>, r: Manager) {
    && Indexed(r) && SameRest(r, m)
    && |r.jobs| == |m.jobs| + |records|
    && r.idempotency.Keys == m.idempotency.Keys + LedgerKeys(records)
  }

  lemma RestoredStep(m: Manager, m': Manager, records: seq<Record>, r: Manager)
    requires records != [] && RestoredOk(m', records[1..], r)
    requires SameRest(m', m)
    requires |m'.jobs| == |m.jobs| + 1
    requires m'.idempotency.Keys == m.idempotency.Keys + {records[0].job.key}
    ensures RestoredOk(m, records, r)
  {
    hide Indexed, LedgerKeys;
    KeysOfCons(records);
    SetAssociative(m.idempotency.Keys, {records[0].job.key}, LedgerKeys(records[1..]));
  }

  lemma SetAssociative<T>(a: set<T>, b: set<T>, c: set<T>)
    ensures (a + b) + c == a + (b + c)
  {
  }

  lemma AfterRecordFrame(m: Manager, r: Record, stopped: set<JobId>, at: int)
    requires WindowOk(r.job.window) && r.id !in m.jobs
    ensures var m' := AfterRecord(m, r, stopped, at);
            && SameRest(m', m)
            && |m'.jobs| == |m.jobs| + 1
            && m'.idempotency.Keys == m.idempotency.Keys + {r.job.key}
  {
    hide RestoredJob;
  }

  lemma {:induction false} RestoredStructure(m: Manager, records: seq<Record>, stopped: set<JobId>, at: int)
    requires Indexed(m) && LedgerOk(records) && Apart(m, records)
    ensures WindowsOk(records) && RestoredOk(m, records, RestoreFrom(m, records, stopped, at))
    decreases |records|
  {
    hide Indexed, Apart, RestoredJob, RestoredOk, AfterRecord;
    if records == [] {
      NothingRestored(m);
    } else {
      RestOfLedger(m, records, stopped, at);
      FirstRecord(m, records);
      AfterRecordIsIndexed(m, records[0], stopped, at);
      AfterRecordFrame(m, records[0], stopped, at);
      var m' := AfterRecord(m, records[0], stopped, at);
      RestoredStructure(m', records[1..], stopped, at);
      RestoredStep(m, m', records, RestoreFrom(m, records, stopped, at));
    }
  }

  lemma NothingRestored(m: Manager)
    requires Indexed(m)
    ensures RestoredOk(m, [], m)
  {
  }

  lemma FirstRecord(m: Manager, records: seq<Record>)
    requires records != [] && LedgerOk(records) && Apart(m, records)
    ensures WindowOk(records[0].job.window) && records[0].id != "" && records[0].job.key != ""
    ensures records[0].id !in m.jobs && records[0].job.key !in m.idempotency
  {
  }

  /** Every restored job is the recovery of its record. */
  lemma {:induction false} RestoredJobs(m: Manager, records: seq<Record>, stopped: set<JobId>, at: int, id: JobId)
    requires LedgerOk(records) && Apart(m, records)
    ensures var r := RestoreFrom(m, records, stopped, at);
            && (id in m.jobs ==> id in r.jobs && r.jobs[id] == m.jobs[id])
            && (id in r.jobs && id !in m.jobs ==>
                  exists i :: 0 <= i < |records| && records[i].id == id
                    && r.jobs[id] == RestoredJob(records[i].job, id in stopped, at))
    decreases |records|
  {
    hide RestoredJob;
    if records != [] {
      RestOfLedger(m, records, stopped, at);
      var m' := AfterRecord(m, records[0], stopped, at);
      FirstRecord(m, records);
      RestoredJobs(m', records[1..], stopped, at, id);
      var r := RestoreFrom(m, records, stopped, at);
      if id in r.jobs && id !in m'.jobs {
        var i :| 0 <= i < |records[1..]| && records[1..][i].id == id
                 && r.jobs[id] == RestoredJob(records[1..][i].job, id in stopped, at);
        assert records[i + 1] == records[1..][i];
      }
    }
  }
}
