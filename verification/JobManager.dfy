/** The job manager as the object it is: each method is one critical section and
    computes the corresponding function of JobSpec on the manager's fields. */
module JobManager {
  import opened Options
  import opened JobEvents
  import opened JobSpec

  /** The ledger file. */
  class JobStore {
    var records: seq<Record>

    constructor (initial: seq<Record>)
      ensures records == initial
    {
      records := initial;
    }

    /** replace: the new content is installed, or the old content stays, as the system
        decides. */
    method Replace(content: seq<Record>, installs: bool) returns (ok: bool)
      modifies this
      ensures ok == installs && records == if installs then content else old(records)
    {
      if installs {
        records := content;
      }
      return installs;
    }

    method Load(readable: bool) returns (loaded: Option<seq<Record>>)
      ensures loaded == if readable then Some(records) else None
    {
      return if readable then Some(records) else None;
    }
  }

  /** What the system decides while the launch section holds the lock. */
  datatype Answers = Answers(startingSaved: bool, processStarts: bool, cleared: bool, commitSaved: bool)

  /** The end those answers lead to. */
  function EndOf(storeOpen: bool, a: Answers): (end: LaunchEnd)
    ensures end.Launched? <==> a.processStarts && (storeOpen ==> a.startingSaved && a.commitSaved)
    ensures end.CommitNotSaved? <==> a.processStarts && storeOpen && a.startingSaved && !a.commitSaved
    ensures end.StartingNotSaved? <==> storeOpen && !a.startingSaved
  {
    if storeOpen && !a.startingSaved then StartingNotSaved
    else if !a.processStarts then ProcessNotStarted(a.cleared)
    else if storeOpen && !a.commitSaved then CommitNotSaved
    else Launched
  }

  class Jobs {
    var jobs: map<JobId, Job>
    var order: seq<JobId>
    var idempotency: map<Key, Committed>
    var starting: map<Key, Reservation>
    var tokens: nat
    var storeErr: bool
    var closed: bool
    const storeOpen: bool
    const store: JobStore

    ghost function Value(): (m: Manager)
      reads this, store
    {
      Manager(jobs, order, idempotency, starting, tokens, storeOpen, storeErr, closed, store.records)
    }

    /** NewJobManager: open the store, load the ledger, recover what was running. */
    constructor (disk: JobStore, opens: bool, readable: bool, stopped: set<JobId>, now: int, installs: bool)
      requires WindowsOk(disk.records)
      modifies disk
      ensures store == disk
      ensures Value() == Opened(old(disk.records),
                if !opens then NoStore else if !readable then LoadFailed else Loaded(stopped, now, installs))
    {
      jobs, order, idempotency, starting, tokens := map[], [], map[], map[], 0;
      storeErr, closed, storeOpen, store := !opens, false, opens, disk;
      new;
      if opens {
        var loaded := store.Load(readable);
        if loaded.None? {
          storeErr := true;
        } else {
          var ok := RestorePersistedJobs(loaded.value, stopped, now, installs);
          storeErr := !ok;
        }
      }
    }

    /** restorePersistedJobs: the loop over the loaded records. */
    method RestorePersistedJobs(records: seq<Record>, stopped: set<JobId>, now: int, installs: bool) returns (ok: bool)
      requires WindowsOk(records) && Value() == Fresh(true, false, records)
      modifies this, store
      ensures Value().(storeErr := !ok) == Opened(records, Loaded(stopped, now, installs))
      ensures !storeErr
    {
      var changed := false;
      ghost var start := Value();
      for i := 0 to |records|
        invariant store.records == records && !storeErr
        invariant RestoreFrom(Value(), records[i..], stopped, now) == RestoreFrom(start, records, stopped, now)
        invariant changed <==> AnyChanges(records[..i])
      {
        var record := records[i];
        assert records[i..][0] == record && records[i..][1..] == records[i + 1..];
        ChangesGrow(records, i);
        if record.id != "" && record.job.key != "" {
          if Changes(record.job.state) {
            changed := true;
          }
          var job := RestoredJob(record.job, record.id in stopped, now);
          jobs := jobs[record.id := job];
          order := order + [record.id];
          idempotency := idempotency[job.key := Committed(record.id, record.hash)];
        }
      }
      assert records[..|records|] == records;
      ok := true;
      if changed {
        ok := PersistLocked(installs);
      }
    }

    /** persistedRecordsLocked: the loop over the jobs in order. */
    method PersistedRecordsLocked(extra: Option<Record>) returns (records: seq<Record>)
      ensures records == Records(Value()) + if extra.Some? then [extra.value] else []
    {
      records := [];
      for i := 0 to |order|
        invariant records + RecordsOf(order[i..], jobs, idempotency) == RecordsOf(order, jobs, idempotency)
      {
        assert order[i..][0] == order[i] && order[i..][1..] == order[i + 1..];
        if order[i] in jobs {
          var job := jobs[order[i]];
          records := records + [Record(order[i], HashOf(idempotency, job.key), job)];
        }
      }
      if extra.Some? {
        records := records + [extra.value];
      }
    }

    /** persistLocked and persistJob; false is the error their callers store. */
    method PersistLocked(installs: bool) returns (ok: bool)
      modifies store
      ensures Value() == Replaced(old(Value()), Records(old(Value())), installs)
      ensures ok == (!storeOpen || installs)
    {
      if !storeOpen {
        return true;
      }
      var records := PersistedRecordsLocked(None);
      ok := store.Replace(records, installs);
    }

    /** cleanupLocked: filter the order, then persist. */
    method CleanupLocked(now: int, installs: bool)
      modifies this, store
      ensures Value() == Cleaned(old(Value()), now, installs)
    {
      EvictLoop(now);
      var ok := PersistLocked(installs);
      if !ok {
        storeErr := true;
      }
    }

    /** Its loop: drop evictable jobs and their keys, keep the rest in order. */
    method EvictLoop(now: int)
      modifies `order, `jobs, `idempotency
      ensures Swept(order, jobs, idempotency) == Sweep(old(order), old(jobs), old(idempotency), now)
    {
      var kept: seq<JobId> := [];
      for i := 0 to |order|
        invariant order == old(order)
        invariant var rest := Sweep(order[i..], jobs, idempotency, now);
                  Sweep(old(order), old(jobs), old(idempotency), now) == rest.(order := kept + rest.order)
      {
        assert order[i..][0] == order[i] && order[i..][1..] == order[i + 1..];
        var id := order[i];
        if id in jobs {
          var job := jobs[id];
          if Evictable(job, |jobs|, now) {
            jobs := jobs - {id};
            idempotency := idempotency - {job.key};
          } else {
            kept := kept + [id];
          }
        }
      }
      assert order[|order|..] == [];
      order := kept;
    }

    /** The locked prologue of StartExecution. */
    method Admit(key: Key, hash: Hash, owner: nat, now: int, installs: bool) returns (admission: Admission)
      modifies this, store
      ensures (Value(), admission) == Admitted(old(Value()), key, hash, owner, now, installs)
    {
      if closed {
        return IsClosed;
      }
      if storeErr {
        return StoreDown;
      }
      if key in idempotency {
        var previous := idempotency[key];
        if previous.hash != hash {
          return Conflict;
        }
        if previous.jobId !in jobs {
          return NotFound;
        }
        return Replayed(previous.jobId);
      }
      if key in starting {
        if starting[key].hash != hash {
          return Conflict;
        }
        return Wait;
      }
      CleanupLocked(now, installs);
      if storeErr {
        return StoreDown;
      }
      if |jobs| + |starting| >= MAX_RETAINED_JOBS {
        return Limit;
      }
      if tokens >= MAX_CONCURRENT_JOBS {
        return Limit;
      }
      tokens := tokens + 1;
      starting := starting[key := Reservation(hash, owner)];
      return Reserved;
    }

    /** The launch section. None: the reservation was lost or the call was cancelled. */
    method Launch(key: Key, hash: Hash, owner: nat, id: JobId, cancelled: bool, a: Answers)
      returns (end: Option<LaunchEnd>)
      requires id !in jobs && (key in starting ==> key !in idempotency)
      modifies this, store
      ensures end == if old(closed || !Holds(Value(), key, owner)) || cancelled then None else Some(EndOf(storeOpen, a))
      ensures Value() == if end.None? then old(Value()) else LaunchSection(old(Value()), key, hash, id, end.value)
    {
      if closed || key !in starting || starting[key].owner != owner || cancelled {
        return None;
      }
      var e := LaunchReserved(key, hash, id, a);
      return Some(e);
    }

    /** The launch section once the reservation is known to be held. */
    method LaunchReserved(key: Key, hash: Hash, id: JobId, a: Answers) returns (end: LaunchEnd)
      requires id !in jobs && key !in idempotency
      modifies this, store
      ensures end == EndOf(storeOpen, a)
      ensures Value() == LaunchSection(old(Value()), key, hash, id, end)
    {
      hide Records, StartingRecord, NewJob;
      var saved := PersistStartingLocked(id, key, hash, a.startingSaved);
      if !saved {
        storeErr := true;
        return StartingNotSaved;
      }
      if !a.processStarts {
        var cleared := PersistLocked(a.cleared);
        if !cleared {
          storeErr := true;
        }
        return ProcessNotStarted(a.cleared);
      }
      ghost var before := Value();
      var committed := Commit(key, hash, id, a.commitSaved);
      if !committed {
        RollBack(key, id);
        assert order == before.order && jobs == before.jobs && idempotency == before.idempotency;
        return CommitNotSaved;
      }
      starting := starting - {key};
      return Launched;
    }

    /** Enter the job in memory and save the ledger with it. */
    method Commit(key: Key, hash: Hash, id: JobId, installs: bool) returns (ok: bool)
      modifies this, store
      ensures Value() == Replaced(WithJob(old(Value()), key, hash, id), Records(WithJob(old(Value()), key, hash, id)), installs)
      ensures ok == (!storeOpen || installs)
    {
      jobs := jobs[id := NewJob(key)];
      order := order + [id];
      idempotency := idempotency[key := Committed(id, hash)];
      assert Value() == WithJob(old(Value()), key, hash, id);
      ok := PersistLocked(installs);
    }

    /** Take the job out of memory again; the process is killed. */
    method RollBack(key: Key, id: JobId)
      requires |order| > 0
      modifies this
      ensures Value() == old(Value()).(storeErr := true, jobs := old(jobs) - {id},
                order := old(order)[..|old(order)| - 1], idempotency := old(idempotency) - {key})
    {
      storeErr := true;
      jobs := jobs - {id};
      order := order[..|order| - 1];
      idempotency := idempotency - {key};
    }

    /** persistStartingLocked. */
    method PersistStartingLocked(id: JobId, key: Key, hash: Hash, installs: bool) returns (ok: bool)
      modifies store
      ensures Value() == Replaced(old(Value()), Records(old(Value())) + [StartingRecord(id, key, hash)], installs)
      ensures ok == (!storeOpen || installs)
    {
      if !storeOpen {
        return true;
      }
      var records := PersistedRecordsLocked(Some(StartingRecord(id, key, hash)));
      ok := store.Replace(records, installs);
    }

    /** The deferred clean-up of a start that did not commit. */
    method Abandon(key: Key, owner: nat)
      modifies `starting
      ensures Value() == Abandoned(old(Value()), key, owner)
      ensures starting == if key in old(starting) && old(starting)[key].owner == owner then old(starting) - {key} else old(starting)
    {
      if key in starting && starting[key].owner == owner {
        starting := starting - {key};
      }
    }

    /** finish, for a job this process runs. */
    method Finish(id: JobId, stopReason: string, exitedCleanly: bool, exitCode: Option<int>, at: int, text: string)
      requires id in jobs && WindowOk(jobs[id].window)
      modifies `jobs
      ensures Value() == old(Value()).(jobs := old(jobs)[id :=
                WithState(old(jobs)[id], FinishedState(stopReason, exitedCleanly), exitCode, at, text)])
    {
      var state;
      if stopReason == "user" || stopReason == "shutdown" || stopReason == "permission_revoked" {
        state := if exitedCleanly then Completed else Canceled;
      } else if stopReason == "timeout" {
        state := if exitedCleanly then Completed else Expired;
      } else {
        state := if exitedCleanly then Completed else Failed;
      }
      jobs := jobs[id := WithState(jobs[id], state, exitCode, at, text)];
    }

    /** recoverUnknownJob, up to its persist: only a job in state unknown whose
        process is confirmed stopped changes. */
    method RecoverUnknown(id: JobId, stopped: bool, at: int)
      requires id in jobs && WindowOk(jobs[id].window)
      modifies `jobs
      ensures Value() == old(Value()).(jobs :=
                if stopped then old(jobs)[id := RecoveredJob(old(jobs)[id], at)] else old(jobs))
    {
      if jobs[id].state == Unknown && stopped {
        jobs := jobs[id := WithState(jobs[id], Interrupted, jobs[id].exitCode, at, STOPPED_AFTER_RESTART)];
      } else {
        assert jobs[id := jobs[id]] == jobs;
      }
    }

    /** persistJob with its caller's reaction to an error. */
    method PersistJob(installs: bool) returns (ok: bool)
      modifies `storeErr, store
      ensures Value() == Persisted(old(Value()), installs) && ok == (!storeOpen || installs)
    {
      ok := PersistLocked(installs);
      if !ok {
        storeErr := true;
      }
    }
  }

  lemma ChangesGrow(records: seq<Record>, i: nat)
    requires i < |records|
    ensures AnyChanges(records[..i + 1]) <==>
            AnyChanges(records[..i]) || (records[i].id != "" && records[i].job.key != "" && Changes(records[i].job.state))
  {
    var p, q := records[..i], records[..i + 1];
    assert forall j :: 0 <= j < i ==> p[j] == q[j];
  }
}
