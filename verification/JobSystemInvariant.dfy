/** Every step keeps the invariant, and every step but the erasing sweep keeps the
    live keys. */
module JobSystemInvariant {
  import opened Options
  import opened JobEvents
  import opened JobSpec
  import opened JobLedger
  import opened JobSystem

  /** The ledger the manager would write agrees with everything promised. */
  lemma WrittenMatches(s: System, reported: set<JobId>)
    requires Core(s)
    ensures LedgerOk(Records(s.m)) && LedgerKeys(Records(s.m)) == s.m.idempotency.Keys
    ensures |Records(s.m)| == |s.m.jobs|
    ensures LedgerAgrees(Records(s.m), reported, s.settled) && LedgerUsed(Records(s.m), s.used)
  {
    hide LedgerOk, LedgerKeys, Records, IndexedMaps, Reserving;
    WrittenLedger(s.m);
  }

  /** Rewriting the ledger from memory. */
  lemma CoreAfterPersist(s: System, ok: bool)
    requires Core(s) && s.up
    ensures Core(s.(m := Persisted(s.m, ok)))
    ensures LiveKept(s) && s.loaded ==> LiveKept(s.(m := Persisted(s.m, ok)))
  {
    hide LedgerOk, LedgerKeys, Records, IndexedMaps, Reserving, TokensMatch, ReservationsMatch, BegunApart, RunsMatch,
      SettledMatch, WatchersMatch, LedgerAgrees, LedgerUsed, UsedCovers;
    WrittenMatches(s, s.reported);
    BegunStaysApart(s.starters, s.m.idempotency, s.m.idempotency, s.m.storeErr, Persisted(s.m, ok).storeErr);
  }

  // ----- Starts whose commit failed -----

  lemma BegunStaysApart(starters: map<nat, Starter>, idempotency: map<Key, Committed>, fewer: map<Key, Committed>,
                        storeErr: bool, storeErr': bool)
    requires BegunApart(starters, idempotency, storeErr)
    requires (forall k :: k in fewer ==> k in idempotency) && (storeErr ==> storeErr')
    ensures BegunApart(starters, fewer, storeErr')
  {
  }

  /** A new start, by a manager whose store is not broken. */
  lemma BegunAfterAdmission(starters: map<nat, Starter>, idempotency: map<Key, Committed>, owner: nat, st: Starter)
    requires BegunApart(starters, idempotency, false) && st.phase == Preparing && !st.begun
    ensures BegunApart(starters[owner := st], idempotency, false)
  {
  }

  /** A start that commits: nobody begun has its key. */
  lemma BegunAfterCommit(starters: map<nat, Starter>, idempotency: map<Key, Committed>, storeErr: bool, owner: nat, c: Committed)
    requires BegunApart(starters, idempotency, storeErr) && owner in starters && starters[owner].phase == Preparing
    ensures BegunApart(starters - {owner}, idempotency[starters[owner].key := c], storeErr)
  {
  }

  lemma NoneBegun(idempotency: map<Key, Committed>, storeErr: bool)
    ensures BegunApart(map[], idempotency, storeErr)
  {
  }

  /** A start whose launch section fails. */
  lemma BegunAfterFailure(starting: map<Key, Reservation>, starters: map<nat, Starter>, idempotency: map<Key, Committed>,
                          storeErr: bool, storeErr': bool, owner: nat, end: LaunchEnd)
    requires ReservationsMatch(starting, starters) && BegunApart(starters, idempotency, storeErr)
    requires owner in starters && starters[owner].phase == Preparing
    requires starters[owner].key !in idempotency && starters[owner].key != ""
    requires (storeErr ==> storeErr') && (end == CommitNotSaved ==> storeErr')
    ensures BegunApart(starters[owner := FailedStart(starters[owner], end)], idempotency, storeErr')
  {
  }

  /** A start that goes on towards its end. */
  lemma BegunInPhase(starters: map<nat, Starter>, idempotency: map<Key, Committed>, storeErr: bool, owner: nat, phase: Phase)
    requires BegunApart(starters, idempotency, storeErr) && owner in starters
    requires phase == TearingDown || (phase == LaunchFailed && starters[owner].phase == Unkilled)
    ensures BegunApart(starters[owner := starters[owner].(phase := phase)], idempotency, storeErr)
    ensures BegunApart(starters - {owner}, idempotency, storeErr)
  {
  }

  // ----- Eviction -----

  /** Memory after the eviction loop, before it is saved. */
  function SweptMemory(m: Manager, now: int): (m': Manager) {
    var r := Sweep(m.order, m.jobs, m.idempotency, now);
    m.(order := r.order, jobs := r.jobs, idempotency := r.idempotency)
  }

  /** Fewer jobs, the same values, and none that is running is gone. */
  lemma FewerJobs(s: System, jobs: map<JobId, Job>)
    requires RunsMatch(s.runs, s.m.jobs) && SettledMatch(s.settled, s.m.jobs)
    requires UsedCovers(s.used, s.m.jobs, s.runs, s.settled)
    requires SubMap(jobs, s.m.jobs)
    requires forall id :: id in s.m.jobs && id !in jobs ==> Terminal(s.m.jobs[id].state)
    ensures RunsMatch(s.runs, jobs) && SettledMatch(s.settled, jobs)
    ensures UsedCovers(s.used, jobs, s.runs, s.settled)
  {
  }

  lemma SweptEmpty(m: Manager, now: int)
    requires m.order == []
    ensures SweptMemory(m, now) == m
  {
  }

  lemma CoreAfterSweep(s: System, now: int)
    requires Core(s) && s.up
    ensures Core(s.(m := SweptMemory(s.m, now)))
    ensures SubMap(SweptMemory(s.m, now).idempotency, s.m.idempotency)
  {
    hide LedgerOk, IndexedMaps, Reserving, TokensMatch, ReservationsMatch, BegunApart, RunsMatch, Records, Sweep,
      SettledMatch, WatchersMatch, LedgerAgrees, LedgerUsed, UsedCovers;
    CleanedStructure(s.m, now, false);
    var c := SweptMemory(s.m, now);
    assert Cleaned(s.m, now, false).jobs == c.jobs;
    FewerJobs(s, c.jobs);
    BegunStaysApart(s.starters, s.m.idempotency, c.idempotency, s.m.storeErr, s.m.storeErr);
    if !s.loaded {
      SweptEmpty(s.m, now);
    }
  }

  function WithoutEvicted(live: set<Key>, before: Manager, after: Manager): (l: set<Key>) {
    live - (before.idempotency.Keys - after.idempotency.Keys)
  }

  /** cleanupLocked, as a step of its own or at the start of an admission. */
  lemma CoreAfterCleaned(s: System, now: int, ok: bool)
    requires Core(s) && s.up
    ensures var c := Cleaned(s.m, now, ok);
            var t := s.(m := c, live := WithoutEvicted(s.live, s.m, c));
            && Core(t)
            && (LiveKept(s) && (s.loaded || !s.m.storeOpen || !ok) ==> LiveKept(t))
            && c.starting == s.m.starting && c.tokens == s.m.tokens && c.closed == s.m.closed
            && SubMap(c.idempotency, s.m.idempotency)
  {
    hide LedgerOk, LedgerKeys, IndexedMaps, Reserving, TokensMatch, ReservationsMatch, BegunApart, RunsMatch, Records, Sweep,
      SettledMatch, WatchersMatch, LedgerAgrees, LedgerUsed, UsedCovers;
    CoreAfterSweep(s, now);
    var swept := SweptMemory(s.m, now);
    var live := WithoutEvicted(s.live, s.m, swept);
    var t := s.(m := swept, live := live);
    assert Cleaned(s.m, now, ok) == Persisted(swept, ok);
    CoreIgnoresLive(s.(m := swept), live);
    CoreAfterPersist(t, ok);
    assert LiveKept(s) ==> LiveKept(t);
  }

  lemma CoreIgnoresLive(s: System, live: set<Key>)
    requires Core(s)
    ensures Core(s.(live := live))
  {
    hide LedgerOk, LedgerKeys, Records, IndexedMaps, Reserving, TokensMatch, ReservationsMatch, BegunApart, RunsMatch,
      SettledMatch, WatchersMatch, LedgerAgrees, LedgerUsed, UsedCovers;
  }

  // ----- Admission -----

  lemma ReservationAdded(s: System, key: Key, hash: Hash, owner: nat)
    requires Core(s) && key != "" && owner !in s.starters
    requires key !in s.m.idempotency && key !in s.m.starting
    requires |s.m.jobs| + |s.m.starting| < MAX_RETAINED_JOBS && s.m.tokens < MAX_CONCURRENT_JOBS
    ensures var starting := s.m.starting[key := Reservation(hash, owner)];
            var starters := s.starters[owner := Starter(key, hash, Preparing, false)];
            && Reserving(starting, s.m.jobs, s.m.idempotency)
            && ReservationsMatch(starting, starters)
            && TokensMatch(s.m.tokens + 1, starters, s.runs)
  {
    hide IndexedMaps, RunsMatch, SettledMatch, WatchersMatch, LedgerAgrees, LedgerUsed, UsedCovers, LedgerOk, BegunApart,
      ReservationsMatch, Reserving, TokensMatch;
    KeyReserved(s.m.starting, s.m.jobs, s.m.idempotency, key, Reservation(hash, owner));
    StarterReserved(s.m.starting, s.starters, key, hash, owner);
    TokenTaken(s.m.tokens, s.starters, s.runs, owner, Starter(key, hash, Preparing, false));
  }

  lemma KeyReserved(starting: map<Key, Reservation>, jobs: map<JobId, Job>, idempotency: map<Key, Committed>,
                    key: Key, r: Reservation)
    requires Reserving(starting, jobs, idempotency) && key != "" && key !in idempotency && key !in starting
    requires |jobs| + |starting| < MAX_RETAINED_JOBS
    ensures Reserving(starting[key := r], jobs, idempotency)
  {
  }

  lemma StarterReserved(starting: map<Key, Reservation>, starters: map<nat, Starter>, key: Key, hash: Hash, owner: nat)
    requires ReservationsMatch(starting, starters) && key !in starting && owner !in starters
    ensures ReservationsMatch(starting[key := Reservation(hash, owner)], starters[owner := Starter(key, hash, Preparing, false)])
  {
  }

  lemma TokenTaken(tokens: nat, starters: map<nat, Starter>, runs: map<JobId, RunPhase>, owner: nat, st: Starter)
    requires TokensMatch(tokens, starters, runs) && owner !in starters && tokens < MAX_CONCURRENT_JOBS
    ensures TokensMatch(tokens + 1, starters[owner := st], runs)
  {
  }

  lemma CoreAfterAdmit(s: System, key: Key, hash: Hash, owner: nat, now: int, ok: bool)
    requires Core(s) && s.up && key != "" && owner !in s.starters
    ensures Core(AfterAdmit(s, key, hash, owner, now, ok))
    ensures LiveKept(s) ==> LiveKept(AfterAdmit(s, key, hash, owner, now, ok))
  {
    hide LedgerOk, LedgerKeys, IndexedMaps, Reserving, TokensMatch, ReservationsMatch, BegunApart, RunsMatch, Records, Sweep,
      SettledMatch, WatchersMatch, LedgerAgrees, LedgerUsed, UsedCovers, Cleaned;
    var (m, admission) := Admitted(s.m, key, hash, owner, now, ok);
    if s.m.closed || s.m.storeErr || key in s.m.idempotency || key in s.m.starting {
      assert m == s.m && s.live - (s.m.idempotency.Keys - m.idempotency.Keys) == s.live;
    } else {
      CoreAfterCleaned(s, now, ok);
      var c := Cleaned(s.m, now, ok);
      var t := s.(m := c, live := WithoutEvicted(s.live, s.m, c));
      if admission == Reserved {
        ReservationAdded(t, key, hash, owner);
        BegunAfterAdmission(t.starters, t.m.idempotency, owner, Starter(key, hash, Preparing, false));
      }
    }
  }

  // ----- The launch section -----

  lemma HeldKeyIsFree(s: System, owner: nat, id: JobId)
    requires Core(s) && CanLaunch(s, owner, id)
    ensures var st := s.starters[owner];
            && st.key !in s.m.idempotency && st.key != "" && id !in s.m.jobs && id !in s.settled && id !in s.reported
            && s.loaded && s.m.storeOpen && |s.m.jobs| < MAX_RETAINED_JOBS
            && s.m.starting[st.key] == Reservation(st.hash, owner) && id !in s.runs
  {
    hide IndexedMaps, RunsMatch, LedgerAgrees, LedgerUsed, LedgerOk;
    assert |s.m.starting| >= 1 by {
      assert s.starters[owner].key in s.m.starting.Keys;
    }
  }

  /** The ledger with the "starting" record added. */
  lemma StartingLedger(s: System, owner: nat, id: JobId)
    requires Core(s) && CanLaunch(s, owner, id)
    ensures var st := s.starters[owner];
            var ledger := Records(s.m) + [StartingRecord(id, st.key, st.hash)];
            && LedgerOk(ledger) && LedgerAgrees(ledger, s.reported, s.settled) && LedgerUsed(ledger, s.used + {id})
            && LedgerKeys(ledger) == s.m.idempotency.Keys + {st.key}
  {
    HeldKeyIsFree(s, owner, id);
    WrittenMatches(s, s.reported);
    var st := s.starters[owner];
    AppendedLedger(Records(s.m), StartingRecord(id, st.key, st.hash), s);
  }

  lemma AppendedLedger(records: seq<Record>, r: Record, s: System)
    requires LedgerOk(records) && |records| < MAX_RETAINED_JOBS && LedgerUsed(records, s.used)
    requires LedgerAgrees(records, s.reported, s.settled)
    requires r.id !in s.used && r.id != "" && r.job.key != "" && r.job.key !in LedgerKeys(records)
    requires r.id !in s.reported && WindowOk(r.job.window)
    ensures var ledger := records + [r];
            && LedgerOk(ledger) && LedgerAgrees(ledger, s.reported, s.settled) && LedgerUsed(ledger, s.used + {r.id})
            && LedgerKeys(ledger) == LedgerKeys(records) + {r.job.key}
  {
    hide WindowOk, TextBytes;
    var ledger := records + [r];
    forall i | 0 <= i < |records|
      ensures records[i].job.key in LedgerKeys(records)
    {
    }
    forall k | k in LedgerKeys(records) + {r.job.key}
      ensures k in LedgerKeys(ledger)
    {
      if k == r.job.key {
        assert ledger[|records|].job.key == k;
      } else {
        var i :| 0 <= i < |records| && records[i].job.key == k;
        assert ledger[i].job.key == k;
      }
    }
  }

  lemma UseMore(s: System, id: JobId)
    requires LedgerUsed(s.m.ledger, s.used) && UsedCovers(s.used, s.m.jobs, s.runs, s.settled)
    ensures LedgerUsed(s.m.ledger, s.used + {id}) && UsedCovers(s.used + {id}, s.m.jobs, s.runs, s.settled)
  {
  }

  lemma SamePhaseClass(s: System, owner: nat, st: Starter)
    requires ReservationsMatch(s.m.starting, s.starters) && TokensMatch(s.m.tokens, s.starters, s.runs)
    requires owner in s.starters && s.starters[owner].phase != TearingDown && st.phase != TearingDown
    requires st.key == s.starters[owner].key && st.hash == s.starters[owner].hash
    ensures var starters := s.starters[owner := st];
            ReservationsMatch(s.m.starting, starters) && TokensMatch(s.m.tokens, starters, s.runs)
  {
  }

  /** A launch that does not commit leaves memory as it was. */
  lemma CoreAfterFailedLaunch(s: System, owner: nat, id: JobId, end: LaunchEnd)
    requires Core(s) && CanLaunch(s, owner, id) && end != Launched
    ensures Core(AfterLaunch(s, owner, id, end))
    ensures LiveKept(s) ==> LiveKept(AfterLaunch(s, owner, id, end))
  {
    hide LedgerOk, LedgerKeys, Records, IndexedMaps, Reserving, TokensMatch, ReservationsMatch, BegunApart, RunsMatch,
      SettledMatch, WatchersMatch, LedgerAgrees, LedgerUsed, UsedCovers, StartingRecord, CanLaunch;
    assert s.up && owner in s.starters && s.starters[owner].phase == Preparing by {
      LaunchingStarter(s, owner, id);
    }
    HeldKeyIsFree(s, owner, id);
    var st := s.starters[owner];
    var starting := Records(s.m) + [StartingRecord(id, st.key, st.hash)];
    UseMore(s, id);
    SamePhaseClass(s, owner, FailedStart(st, end));
    BegunAfterFailure(s.m.starting, s.starters, s.m.idempotency, s.m.storeErr, LaunchSection(s.m, st.key, st.hash, id, end).storeErr,
                      owner, end);
    match end
    case StartingNotSaved =>
    case CommitNotSaved => StartingLedger(s, owner, id);
    case ProcessNotStarted(cleared) =>
      StartingLedger(s, owner, id);
      WrittenMatches(s, s.reported);
      UseMore(s.(m := s.m.(ledger := Records(s.m))), id);
      RecordsIgnoreStarting(s.m, s.m.(ledger := starting));
  }

  lemma LaunchingStarter(s: System, owner: nat, id: JobId)
    requires CanLaunch(s, owner, id)
    ensures s.up && owner in s.starters && s.starters[owner].phase == Preparing
  {
  }

  /** Memory and starts after a committed launch, before the ledger is rewritten. */
  function Committing(s: System, owner: nat, id: JobId): (t: System)
    requires CanLaunch(s, owner, id)
  {
    var st := s.starters[owner];
    var m := WithJob(s.m, st.key, st.hash, id);
    s.(m := m.(starting := m.starting - {st.key}, ledger := Records(s.m) + [StartingRecord(id, st.key, st.hash)]),
       starters := s.starters - {owner}, runs := s.runs[id := Executing],
       used := s.used + {id}, live := s.live + {st.key})
  }

  lemma JobAdded(m: Manager, id: JobId, key: Key, hash: Hash, job: Job)
    requires Structure(m) && id !in m.jobs && id != "" && key !in m.idempotency && key in m.starting
    requires job.key == key && WindowOk(job.window)
    ensures IndexedMaps(m.order + [id], m.jobs[id := job], m.idempotency[key := Committed(id, hash)])
    ensures Reserving(m.starting - {key}, m.jobs[id := job], m.idempotency[key := Committed(id, hash)])
  {
    hide WindowOk;
    MapWithout(m.starting, key);
    assert id !in m.order;
    assert key != "";
  }

  lemma StarterRemoved(starting: map<Key, Reservation>, starters: map<nat, Starter>, owner: nat)
    requires ReservationsMatch(starting, starters) && owner in starters && starters[owner].phase != TearingDown
    ensures ReservationsMatch(starting - {starters[owner].key}, starters - {owner})
  {
  }

  lemma TokenPassedOn(tokens: nat, starters: map<nat, Starter>, runs: map<JobId, RunPhase>, owner: nat, id: JobId)
    requires TokensMatch(tokens, starters, runs) && owner in starters && id !in runs
    ensures TokensMatch(tokens, starters - {owner}, runs[id := Executing])
  {
    MapWithout(starters, owner);
  }

  lemma RunningJobAdded(s: System, id: JobId, job: Job)
    requires RunsMatch(s.runs, s.m.jobs) && SettledMatch(s.settled, s.m.jobs)
    requires UsedCovers(s.used, s.m.jobs, s.runs, s.settled)
    requires id !in s.used && job.state == Running
    ensures RunsMatch(s.runs[id := Executing], s.m.jobs[id := job]) && SettledMatch(s.settled, s.m.jobs[id := job])
    ensures UsedCovers(s.used + {id}, s.m.jobs[id := job], s.runs[id := Executing], s.settled)
  {
  }

  lemma NewJobIsRunning(key: Key)
    ensures NewJob(key).key == key && NewJob(key).state == Running && WindowOk(NewJob(key).window)
  {
  }

  /** The parts of the invariant that speak of the maps. */
  ghost predicate MapsMatch(s: System) {
    && Structure(s.m) && TokensMatch(s.m.tokens, s.starters, s.runs) && ReservationsMatch(s.m.starting, s.starters)
    && BegunApart(s.starters, s.m.idempotency, s.m.storeErr) && RunsMatch(s.runs, s.m.jobs)
    && SettledMatch(s.settled, s.m.jobs) && UsedCovers(s.used, s.m.jobs, s.runs, s.settled)
  }

  lemma MapsWhenCommitting(s: System, owner: nat, id: JobId)
    requires Core(s) && CanLaunch(s, owner, id)
    ensures MapsMatch(Committing(s, owner, id))
  {
    hide LedgerOk, LedgerKeys, Records, IndexedMaps, Reserving, TokensMatch, ReservationsMatch, BegunApart, RunsMatch,
      SettledMatch, WatchersMatch, LedgerAgrees, LedgerUsed, UsedCovers, StartingRecord, NewJob;
    HeldKeyIsFree(s, owner, id);
    var st := s.starters[owner];
    var job := NewJob(st.key);
    NewJobIsRunning(st.key);
    JobAdded(s.m, id, st.key, st.hash, job);
    StarterRemoved(s.m.starting, s.starters, owner);
    TokenPassedOn(s.m.tokens, s.starters, s.runs, owner, id);
    RunningJobAdded(s, id, job);
    BegunAfterCommit(s.starters, s.m.idempotency, s.m.storeErr, owner, Committed(id, st.hash));
  }

  lemma CoreWhenCommitting(s: System, owner: nat, id: JobId)
    requires Core(s) && CanLaunch(s, owner, id)
    ensures Core(Committing(s, owner, id))
    ensures LiveKept(s) ==> LiveKept(Committing(s, owner, id))
  {
    hide LedgerOk, LedgerKeys, Records, Structure, TokensMatch, ReservationsMatch, BegunApart, RunsMatch,
      SettledMatch, WatchersMatch, LedgerAgrees, LedgerUsed, UsedCovers, StartingRecord, NewJob;
    HeldKeyIsFree(s, owner, id);
    StartingLedger(s, owner, id);
    MapsWhenCommitting(s, owner, id);
    var t, st := Committing(s, owner, id), s.starters[owner];
    assert t.m.ledger == Records(s.m) + [StartingRecord(id, st.key, st.hash)];
  }

  lemma CommittingThenSaved(s: System, owner: nat, id: JobId)
    requires Core(s) && CanLaunch(s, owner, id)
    ensures var t := Committing(s, owner, id);
            AfterLaunch(s, owner, id, Launched) == t.(m := Persisted(t.m, true))
  {
    hide Core, Records, StartingRecord, NewJob, HasJob;
    HeldKeyIsFree(s, owner, id);
    var st := s.starters[owner];
    var t := Committing(s, owner, id);
    var ledger := Records(s.m) + [StartingRecord(id, st.key, st.hash)];
    RecordsIgnoreStarting(WithJob(s.m.(ledger := ledger), st.key, st.hash, id), t.m);
  }

  lemma RecordsIgnoreStarting(a: Manager, b: Manager)
    requires a.order == b.order && a.jobs == b.jobs && a.idempotency == b.idempotency
    ensures Records(a) == Records(b)
  {
  }

  lemma CoreAfterLaunch(s: System, owner: nat, id: JobId, end: LaunchEnd)
    requires Core(s) && CanLaunch(s, owner, id)
    ensures Core(AfterLaunch(s, owner, id, end))
    ensures LiveKept(s) ==> LiveKept(AfterLaunch(s, owner, id, end))
  {
    hide Core, LiveKept, CanLaunch, AfterLaunch;
    if end == Launched {
      CoreWhenCommitting(s, owner, id);
      CommittingThenSaved(s, owner, id);
      var t := Committing(s, owner, id);
      assert t.up && t.loaded by {
        LaunchingStarter(s, owner, id);
        HeldKeyIsFree(s, owner, id);
      }
      CoreAfterPersist(t, true);
    } else {
      CoreAfterFailedLaunch(s, owner, id, end);
    }
  }

  // ----- Crash and restart -----

  /** A crash leaves a valid ledger and forgets what was not reported. */
  lemma CoreAfterCrash(s: System, ledger: seq<Record>, live: set<Key>, used: set<JobId>)
    requires Core(s) && LedgerOk(ledger) && LedgerUsed(ledger, used) && s.used <= used
    requires LedgerAgrees(ledger, s.reported, s.settled)
    ensures Core(Crashed(s, ledger, live, used))
    ensures live <= LedgerKeys(ledger) ==> LiveKept(Crashed(s, ledger, live, used))
  {
    hide LedgerOk, LedgerKeys, LedgerUsed, LedgerAgrees, RunsMatch, IndexedMaps, Reserving, SettledMatch, WatchersMatch,
      ReservationsMatch, BegunApart, TokensMatch, UsedCovers;
    NothingIsFine();
    var t := Crashed(s, ledger, live, used);
    SettledAfterCrash(s, used);
    AgreesAfterCrash(s, ledger);
  }

  lemma SettledAfterCrash(s: System, used: set<JobId>)
    requires SettledMatch(s.settled, s.m.jobs) && WatchersMatch(s.watchers, s.reported, s.settled)
    requires UsedCovers(s.used, s.m.jobs, s.runs, s.settled) && s.used <= used
    ensures SettledMatch(KeptSettled(s), map[]) && WatchersMatch(map[], s.reported, KeptSettled(s))
    ensures UsedCovers(used, map[], map[], KeptSettled(s)) && KeptSettled(s).Keys <= s.reported
  {
  }

  lemma AgreesAfterCrash(s: System, ledger: seq<Record>)
    requires LedgerAgrees(ledger, s.reported, s.settled)
    ensures LedgerAgrees(ledger, s.reported, KeptSettled(s))
  {
  }

  lemma NothingIsFine()
    ensures IndexedMaps([], map[], map[]) && Reserving(map[], map[], map[])
    ensures RunsMatch(map[], map[]) && ReservationsMatch(map[], map[]) && TokensMatch(0, map[], map[])
    ensures BegunApart(map[], map[], true)
  {
  }

  /** What a crash inside the launch section leaves of the ledger. */
  ghost predicate LedgerWith(ledger: seq<Record>, s: System, owner: nat, id: JobId)
    requires owner in s.starters
  {
    && LedgerOk(ledger) && LedgerUsed(ledger, s.used + {id}) && LedgerAgrees(ledger, s.reported, s.settled)
    && LedgerKeys(ledger) == s.m.idempotency.Keys + {s.starters[owner].key}
    && |ledger| == |s.m.jobs| + 1
  }

  lemma CommittedLedger(s: System, owner: nat, id: JobId)
    requires Core(s) && CanLaunch(s, owner, id)
    ensures var st := s.starters[owner]; LedgerWith(Records(WithJob(s.m, st.key, st.hash, id)), s, owner, id)
  {
    hide Core, CanLaunch, LedgerOk, LedgerKeys, LedgerUsed, LedgerAgrees, Records, StartingRecord, NewJob;
    HeldKeyIsFree(s, owner, id);
    LaunchingStarter(s, owner, id);
    var st := s.starters[owner];
    CoreWhenCommitting(s, owner, id);
    var t := Committing(s, owner, id);
    WrittenMatches(t, s.reported);
    RecordsIgnoreStarting(WithJob(s.m, st.key, st.hash, id), t.m);
  }

  lemma CrashedLedger(s: System, owner: nat, id: JobId, started: bool, saved: bool)
    requires Core(s) && CanLaunch(s, owner, id) && (saved ==> started)
    ensures owner in s.starters && LedgerWith(AfterCrashInLaunch(s, owner, id, started, saved).m.ledger, s, owner, id)
  {
    hide Core, CanLaunch, LedgerOk, LedgerKeys, LedgerUsed, LedgerAgrees, Records, StartingRecord;
    HeldKeyIsFree(s, owner, id);
    LaunchingStarter(s, owner, id);
    if saved {
      CommittedLedger(s, owner, id);
    } else {
      WrittenMatches(s, s.reported);
      StartingLedger(s, owner, id);
    }
  }

  lemma CoreAfterCrashInLaunch(s: System, owner: nat, id: JobId, started: bool, saved: bool)
    requires Core(s) && CanLaunch(s, owner, id) && (saved ==> started)
    ensures Core(AfterCrashInLaunch(s, owner, id, started, saved))
    ensures LiveKept(s) && BegunKeys(s.starters) <= LedgerKeys(AfterCrashInLaunch(s, owner, id, started, saved).m.ledger) ==>
              LiveKept(AfterCrashInLaunch(s, owner, id, started, saved))
  {
    hide Core, LiveKept, CanLaunch, LedgerOk, LedgerKeys, LedgerUsed, LedgerAgrees, Records, StartingRecord, BegunKeys;
    HeldKeyIsFree(s, owner, id);
    LaunchingStarter(s, owner, id);
    CrashedLedger(s, owner, id, started, saved);
    var t := AfterCrashInLaunch(s, owner, id, started, saved);
    CoreAfterCrash(s, t.m.ledger, t.live, s.used + {id});
    if LiveKept(s) && BegunKeys(s.starters) <= LedgerKeys(t.m.ledger) {
      LiveInMemory(s);
      assert t.live <= LedgerKeys(t.m.ledger);
    }
  }

  lemma LiveInMemory(s: System)
    requires LiveKept(s) && s.up && s.loaded
    ensures s.live <= s.m.idempotency.Keys
  {
  }

  // ----- Giving up and returning tokens -----

  lemma ReservationDropped(s: System, owner: nat)
    requires ReservationsMatch(s.m.starting, s.starters) && TokensMatch(s.m.tokens, s.starters, s.runs)
    requires Reserving(s.m.starting, s.m.jobs, s.m.idempotency)
    requires owner in s.starters && s.starters[owner].phase != TearingDown
    ensures var starting := s.m.starting - {s.starters[owner].key};
            var starters := s.starters[owner := s.starters[owner].(phase := TearingDown)];
            && ReservationsMatch(starting, starters) && TokensMatch(s.m.tokens, starters, s.runs)
            && Reserving(starting, s.m.jobs, s.m.idempotency)
            && Holds(s.m, s.starters[owner].key, owner)
  {
    MapWithout(s.m.starting, s.starters[owner].key);
  }

  lemma CoreAfterGiveUp(s: System, owner: nat)
    requires Core(s) && s.up && owner in s.starters && s.starters[owner].phase != TearingDown
    ensures Core(AfterGiveUp(s, owner))
    ensures LiveKept(s) ==> LiveKept(AfterGiveUp(s, owner))
  {
    hide LedgerOk, LedgerKeys, Records, IndexedMaps, Reserving, TokensMatch, ReservationsMatch, BegunApart, RunsMatch,
      SettledMatch, WatchersMatch, LedgerAgrees, LedgerUsed, UsedCovers;
    ReservationDropped(s, owner);
    BegunInPhase(s.starters, s.m.idempotency, s.m.storeErr, owner, TearingDown);
  }

  lemma CoreAfterKill(s: System, owner: nat)
    requires Core(s) && s.up && owner in s.starters && s.starters[owner].phase == Unkilled
    ensures Core(AfterKill(s, owner))
    ensures LiveKept(s) ==> LiveKept(AfterKill(s, owner))
  {
    hide LedgerOk, LedgerKeys, Records, IndexedMaps, Reserving, TokensMatch, ReservationsMatch, BegunApart, RunsMatch,
      SettledMatch, WatchersMatch, LedgerAgrees, LedgerUsed, UsedCovers;
    SamePhaseClass(s, owner, s.starters[owner].(phase := LaunchFailed));
    BegunInPhase(s.starters, s.m.idempotency, s.m.storeErr, owner, LaunchFailed);
  }

  lemma StarterTokenReturned(s: System, owner: nat)
    requires ReservationsMatch(s.m.starting, s.starters) && TokensMatch(s.m.tokens, s.starters, s.runs)
    requires owner in s.starters && s.starters[owner].phase == TearingDown
    ensures s.m.tokens > 0 && TokensMatch(s.m.tokens - 1, s.starters - {owner}, s.runs)
    ensures ReservationsMatch(s.m.starting, s.starters - {owner})
  {
    MapWithout(s.starters, owner);
    assert owner in s.starters.Keys;
  }

  lemma CoreAfterRelease(s: System, owner: nat)
    requires Core(s) && s.up && owner in s.starters && s.starters[owner].phase == TearingDown
    ensures Core(AfterRelease(s, owner))
    ensures LiveKept(s) ==> LiveKept(AfterRelease(s, owner))
  {
    hide LedgerOk, LedgerKeys, Records, IndexedMaps, Reserving, TokensMatch, ReservationsMatch, BegunApart, RunsMatch,
      SettledMatch, WatchersMatch, LedgerAgrees, LedgerUsed, UsedCovers;
    StarterTokenReturned(s, owner);
    BegunInPhase(s.starters, s.m.idempotency, s.m.storeErr, owner, TearingDown);
  }

  lemma RunTokenReturned(s: System, id: JobId)
    requires RunsMatch(s.runs, s.m.jobs) && TokensMatch(s.m.tokens, s.starters, s.runs)
    requires UsedCovers(s.used, s.m.jobs, s.runs, s.settled)
    requires id in s.runs && s.runs[id] != Executing
    ensures s.m.tokens > 0 && TokensMatch(s.m.tokens - 1, s.starters, s.runs - {id})
    ensures RunsMatch(s.runs - {id}, s.m.jobs) && UsedCovers(s.used, s.m.jobs, s.runs - {id}, s.settled)
  {
    MapWithout(s.runs, id);
    assert id in s.runs.Keys;
  }

  lemma CoreAfterEndRun(s: System, id: JobId)
    requires Core(s) && s.up && id in s.runs && s.runs[id] == Saved
    ensures Core(AfterEndRun(s, id))
    ensures LiveKept(s) ==> LiveKept(AfterEndRun(s, id))
  {
    hide LedgerOk, LedgerKeys, Records, IndexedMaps, Reserving, TokensMatch, ReservationsMatch, BegunApart, RunsMatch,
      SettledMatch, WatchersMatch, LedgerAgrees, LedgerUsed, UsedCovers;
    RunTokenReturned(s, id);
  }

  // ----- A job's own life -----

  /** Replacing a job by one with the same key. */
  lemma JobReplaced(m: Manager, id: JobId, j: Job)
    requires Structure(m) && id in m.jobs && j.key == m.jobs[id].key && WindowOk(j.window)
    ensures Structure(m.(jobs := m.jobs[id := j]))
  {
    hide WindowOk;
    assert m.jobs[id := j].Keys == m.jobs.Keys;
  }

  lemma CoreAfterOutput(s: System, id: JobId, kind: string, text: string)
    requires Core(s) && s.up && HasJob(s, id)
    ensures Core(AfterOutput(s, id, kind, text))
    ensures LiveKept(s) ==> LiveKept(AfterOutput(s, id, kind, text))
  {
    hide LedgerOk, LedgerKeys, Records, IndexedMaps, Reserving, TokensMatch, ReservationsMatch, BegunApart,
      WatchersMatch, LedgerAgrees, LedgerUsed, Appended, WindowOk;
    var j := s.m.jobs[id];
    var j' := j.(window := Appended(j.window, kind, text));
    JobReplaced(s.m, id, j');
    SameStateReplaced(s, id, j');
  }

  lemma SameStateReplaced(s: System, id: JobId, j: Job)
    requires RunsMatch(s.runs, s.m.jobs) && SettledMatch(s.settled, s.m.jobs)
    requires UsedCovers(s.used, s.m.jobs, s.runs, s.settled)
    requires id in s.m.jobs && j.state == s.m.jobs[id].state && j.exitCode == s.m.jobs[id].exitCode
    ensures RunsMatch(s.runs, s.m.jobs[id := j]) && SettledMatch(s.settled, s.m.jobs[id := j])
    ensures UsedCovers(s.used, s.m.jobs[id := j], s.runs, s.settled)
  {
  }

  /** A job that was not terminal reaches a terminal state. */
  lemma JobSettles(s: System, id: JobId, j: Job, runs: map<JobId, RunPhase>)
    requires RunsMatch(s.runs, s.m.jobs) && SettledMatch(s.settled, s.m.jobs)
    requires UsedCovers(s.used, s.m.jobs, s.runs, s.settled)
    requires LedgerAgrees(s.m.ledger, s.reported, s.settled) && WatchersMatch(s.watchers, s.reported, s.settled)
    requires id in s.m.jobs && !Terminal(s.m.jobs[id].state) && Terminal(j.state)
    requires if id in s.runs && s.runs[id] == Executing then runs == s.runs[id := Finished] else runs == s.runs
    ensures RunsMatch(runs, s.m.jobs[id := j]) && SettledMatch(s.settled[id := SeenOf(j)], s.m.jobs[id := j])
    ensures UsedCovers(s.used, s.m.jobs[id := j], runs, s.settled[id := SeenOf(j)])
    ensures LedgerAgrees(s.m.ledger, s.reported, s.settled[id := SeenOf(j)])
    ensures WatchersMatch(s.watchers, s.reported, s.settled[id := SeenOf(j)])
    ensures id !in s.settled
  {
    assert id !in s.settled;
  }

  lemma CoreAfterFinish(s: System, id: JobId, state: State, exitCode: Option<int>, at: int, text: string)
    requires Core(s) && s.up && id in s.runs && s.runs[id] == Executing && HasJob(s, id) && Terminal(state)
    ensures Core(AfterFinish(s, id, state, exitCode, at, text))
    ensures LiveKept(s) ==> LiveKept(AfterFinish(s, id, state, exitCode, at, text))
  {
    hide LedgerOk, LedgerKeys, Records, IndexedMaps, Reserving, TokensMatch, ReservationsMatch, BegunApart, RunsMatch,
      SettledMatch, WatchersMatch, LedgerAgrees, LedgerUsed, UsedCovers, Appended, WindowOk;
    var j := WithState(s.m.jobs[id], state, exitCode, at, text);
    ExecutingIsRunning(s, id);
    JobSettles(s, id, j, s.runs[id := Finished]);
    WindowStaysOk(s.m.jobs[id].window, StateName(state), text);
    JobReplaced(s.m, id, j);
    SameNumberOfRuns(s, id);
  }

  lemma WindowStaysOk(w: Window, kind: string, text: string)
    requires WindowOk(w)
    ensures WindowOk(Appended(w, kind, text))
  {
  }

  lemma ExecutingIsRunning(s: System, id: JobId)
    requires RunsMatch(s.runs, s.m.jobs) && id in s.runs && s.runs[id] == Executing
    ensures id in s.m.jobs && !Terminal(s.m.jobs[id].state)
  {
  }

  lemma SameNumberOfRuns(s: System, id: JobId)
    requires TokensMatch(s.m.tokens, s.starters, s.runs) && id in s.runs
    ensures TokensMatch(s.m.tokens, s.starters, s.runs[id := Finished])
    ensures TokensMatch(s.m.tokens, s.starters, s.runs[id := Saved])
  {
  }

  lemma CoreAfterRecover(s: System, id: JobId, at: int)
    requires Core(s) && s.up && HasJob(s, id) && s.m.jobs[id].state == Unknown
    ensures Core(AfterRecover(s, id, at))
    ensures LiveKept(s) ==> LiveKept(AfterRecover(s, id, at))
  {
    hide LedgerOk, LedgerKeys, Records, IndexedMaps, Reserving, TokensMatch, ReservationsMatch, BegunApart, RunsMatch,
      SettledMatch, WatchersMatch, LedgerAgrees, LedgerUsed, UsedCovers, Appended, WindowOk;
    var j := RecoveredJob(s.m.jobs[id], at);
    UnknownIsIdle(s, id);
    JobSettles(s, id, j, s.runs);
    WindowStaysOk(s.m.jobs[id].window, StateName(Interrupted), STOPPED_AFTER_RESTART);
    JobReplaced(s.m, id, j);
  }

  lemma UnknownIsIdle(s: System, id: JobId)
    requires RunsMatch(s.runs, s.m.jobs) && id in s.m.jobs && s.m.jobs[id].state == Unknown
    ensures id !in s.runs || s.runs[id] != Executing
  {
  }

  lemma CoreAfterSaveRun(s: System, id: JobId, ok: bool)
    requires Core(s) && s.up && id in s.runs && s.runs[id] == Finished
    ensures Core(AfterSaveRun(s, id, ok))
    ensures LiveKept(s) ==> LiveKept(AfterSaveRun(s, id, ok))
  {
    CoreAfterPersist(s, ok);
    RunIsSaved(s, id);
    hide LedgerOk, LedgerKeys, Records, IndexedMaps, Reserving, TokensMatch, ReservationsMatch, BegunApart, RunsMatch,
      SettledMatch, WatchersMatch, LedgerAgrees, LedgerUsed, UsedCovers, Persisted;
    assert s.loaded;
  }

  lemma RunIsSaved(s: System, id: JobId)
    requires RunsMatch(s.runs, s.m.jobs) && TokensMatch(s.m.tokens, s.starters, s.runs)
    requires UsedCovers(s.used, s.m.jobs, s.runs, s.settled)
    requires id in s.runs && s.runs[id] == Finished
    ensures var runs := s.runs[id := Saved];
            && RunsMatch(runs, s.m.jobs) && TokensMatch(s.m.tokens, s.starters, runs)
            && UsedCovers(s.used, s.m.jobs, runs, s.settled)
  {
  }

  // ----- Watch -----

  lemma CoreAfterObserve(s: System, watcher: nat, id: JobId)
    requires Core(s) && Enabled(s, Observe(watcher, id))
    ensures Core(Apply(s, Observe(watcher, id)))
    ensures LiveKept(s) ==> LiveKept(Apply(s, Observe(watcher, id)))
  {
    hide LedgerOk, LedgerKeys, Records, IndexedMaps, Reserving, TokensMatch, ReservationsMatch, BegunApart, RunsMatch,
      LedgerAgrees, LedgerUsed, UsedCovers;
  }

  /** A terminal snapshot is returned only once the ledger agrees with it. */
  lemma CoreAfterReport(s: System, watcher: nat, ok: bool)
    requires Core(s) && s.up && watcher in s.watchers
    ensures Core(AfterReport(s, watcher, ok))
    ensures LiveKept(s) ==> LiveKept(AfterReport(s, watcher, ok))
  {
    var id := s.watchers[watcher];
    WrittenMatches(s, s.reported + {id});
    CoreAfterPersist(s, ok);
    MoreReported(s, watcher, id);
    hide LedgerOk, LedgerKeys, Records, IndexedMaps, Reserving, TokensMatch, ReservationsMatch, BegunApart, RunsMatch,
      SettledMatch, WatchersMatch, LedgerAgrees, LedgerUsed, UsedCovers;
  }

  lemma MoreReported(s: System, watcher: nat, id: JobId)
    requires WatchersMatch(s.watchers, s.reported, s.settled) && watcher in s.watchers && s.watchers[watcher] == id
    ensures WatchersMatch(s.watchers - {watcher}, s.reported, s.settled)
    ensures WatchersMatch(s.watchers - {watcher}, s.reported + {id}, s.settled)
  {
  }

  // ----- Restart -----

  lemma RestoredJobIsQuiet(j: Job, stopped: bool, at: int)
    requires WindowOk(j.window)
    ensures RestoredJob(j, stopped, at).state != Running
    ensures RestoredJob(j, stopped, at).state == Unknown || Terminal(RestoredJob(j, stopped, at).state)
  {
  }

  /** The memory a restart builds from the ledger agrees with what was reported. */
  lemma RestoredAgrees(s: System, stopped: set<JobId>, at: int)
    requires Core(s) && !s.up
    ensures var r := RestoreFrom(Fresh(true, false, s.m.ledger), s.m.ledger, stopped, at);
            && RunsMatch(map[], r.jobs) && SettledMatch(TerminalOf(r.jobs) + s.settled, r.jobs)
            && UsedCovers(s.used, r.jobs, map[], TerminalOf(r.jobs) + s.settled)
            && WatchersMatch(map[], s.reported, TerminalOf(r.jobs) + s.settled)
  {
    var m := Fresh(true, false, s.m.ledger);
    var r := RestoreFrom(m, s.m.ledger, stopped, at);
    hide IndexedMaps, Reserving, TokensMatch, ReservationsMatch, BegunApart, RestoredJob;
    forall id | id in r.jobs
      ensures r.jobs[id].state != Running && (r.jobs[id].state == Unknown || Terminal(r.jobs[id].state))
      ensures id in s.used && (id in s.settled ==> s.settled[id] == SeenOf(r.jobs[id]))
    {
      RestoredJobs(m, s.m.ledger, stopped, at, id);
      var i :| 0 <= i < |s.m.ledger| && s.m.ledger[i].id == id
               && r.jobs[id] == RestoredJob(s.m.ledger[i].job, id in stopped, at);
      RestoredJobIsQuiet(s.m.ledger[i].job, id in stopped, at);
    }
    AgreementFromJobs(s, r.jobs);
  }

  lemma AgreementFromJobs(s: System, jobs: map<JobId, Job>)
    requires Core(s) && !s.up
    requires forall id :: id in jobs ==>
               && jobs[id].state != Running && (jobs[id].state == Unknown || Terminal(jobs[id].state))
               && id in s.used && (id in s.settled ==> s.settled[id] == SeenOf(jobs[id]))
    ensures RunsMatch(map[], jobs) && SettledMatch(TerminalOf(jobs) + s.settled, jobs)
    ensures UsedCovers(s.used, jobs, map[], TerminalOf(jobs) + s.settled)
    ensures WatchersMatch(map[], s.reported, TerminalOf(jobs) + s.settled)
  {
    hide IndexedMaps, Reserving, TokensMatch, ReservationsMatch, BegunApart, LedgerOk, LedgerAgrees, LedgerUsed;
  }

  /** A manager that read the ledger, before it rewrites it. */
  function Reading(s: System, stopped: set<JobId>, at: int): (t: System)
    requires WindowsOk(s.m.ledger)
  {
    var r := RestoreFrom(Fresh(true, false, s.m.ledger), s.m.ledger, stopped, at);
    System(true, true, r, map[], map[], map[], s.used, s.live, TerminalOf(r.jobs) + s.settled, s.reported)
  }

  lemma LedgerWindows(records: seq<Record>)
    requires LedgerOk(records)
    ensures WindowsOk(records)
  {
  }

  lemma AgreesAfterRestore(s: System, extra: map<JobId, Seen>)
    requires LedgerAgrees(s.m.ledger, s.reported, s.settled) && WatchersMatch(s.watchers, s.reported, s.settled)
    ensures LedgerAgrees(s.m.ledger, s.reported, extra + s.settled)
  {
  }

  lemma ReadStructure(s: System, stopped: set<JobId>, at: int)
    requires Core(s) && !s.up
    ensures WindowsOk(s.m.ledger)
    ensures var r := RestoreFrom(Fresh(true, false, s.m.ledger), s.m.ledger, stopped, at);
            && Structure(r) && r.idempotency.Keys == LedgerKeys(s.m.ledger)
            && SameRest(r, Fresh(true, false, s.m.ledger))
  {
    hide RunsMatch, SettledMatch, UsedCovers, WatchersMatch, TokensMatch, ReservationsMatch, BegunApart, LedgerUsed, LedgerAgrees,
      RestoreFrom, IndexedMaps, LedgerKeys, Reserving, LedgerOk;
    LedgerWindows(s.m.ledger);
    NothingIsFine();
    var m := Fresh(true, false, s.m.ledger);
    ApartFromNothing(m, s.m.ledger);
    RestoredStructure(m, s.m.ledger, stopped, at);
    NothingReserved(RestoreFrom(m, s.m.ledger, stopped, at), s.m.ledger);
  }

  lemma ApartFromNothing(m: Manager, records: seq<Record>)
    requires m.jobs == map[] && m.idempotency == map[]
    ensures Apart(m, records)
  {
  }

  lemma NothingReserved(r: Manager, records: seq<Record>)
    requires r.starting == map[] && |r.jobs| == |records| && LedgerOk(records)
    ensures Reserving(r.starting, r.jobs, r.idempotency)
  {
  }

  lemma CoreWhenReading(s: System, stopped: set<JobId>, at: int)
    requires Core(s) && !s.up
    ensures WindowsOk(s.m.ledger) && Core(Reading(s, stopped, at))
    ensures LiveKept(s) ==> LiveKept(Reading(s, stopped, at))
  {
    hide RunsMatch, SettledMatch, UsedCovers, WatchersMatch, TokensMatch, ReservationsMatch, BegunApart, LedgerUsed, LedgerAgrees,
      RestoreFrom, IndexedMaps, LedgerKeys, Reserving, LedgerOk, TerminalOf;
    ReadStructure(s, stopped, at);
    RestoredAgrees(s, stopped, at);
    NothingIsFine();
    NoneBegun(Reading(s, stopped, at).m.idempotency, Reading(s, stopped, at).m.storeErr);
    AgreesAfterRestore(s, TerminalOf(Reading(s, stopped, at).m.jobs));
  }

  /** A manager that could not read the ledger. */
  lemma CoreWhenBlind(s: System, storeOpen: bool)
    requires Core(s) && !s.up
    ensures var t := System(true, false, Fresh(storeOpen, true, s.m.ledger), map[], map[], map[], s.used, s.live,
                            TerminalOf(map[]) + s.settled, s.reported);
            Core(t) && (LiveKept(s) ==> LiveKept(t))
  {
    hide RunsMatch, SettledMatch, UsedCovers, WatchersMatch, TokensMatch, ReservationsMatch, BegunApart, LedgerUsed, LedgerAgrees,
      IndexedMaps, LedgerKeys, Reserving, LedgerOk;
    NothingIsFine();
    assert TerminalOf(map[]) == map[];
    assert TerminalOf(map[]) + s.settled == s.settled;
  }

  lemma CoreAfterOpens(s: System, opening: Opening)
    requires Core(s) && !s.up
    ensures WindowsOk(s.m.ledger) && Core(Opens(s, opening))
    ensures LiveKept(s) ==> LiveKept(Opens(s, opening))
  {
    hide Core, LiveKept, RestoreFrom, AnyChanges, TerminalOf, Persisted;
    assert WindowsOk(s.m.ledger) by {
      CoreWhenReading(s, {}, 0);
    }
    match opening
    case NoStore => CoreWhenBlind(s, false);
    case LoadFailed => CoreWhenBlind(s, true);
    case Loaded(stopped, at, ok) =>
      CoreWhenReading(s, stopped, at);
      var t := Reading(s, stopped, at);
      CoreAfterPersist(t, ok);
      PersistKeepsJobs(t.m, ok);
  }

  lemma PersistKeepsJobs(m: Manager, ok: bool)
    ensures Persisted(m, ok).jobs == m.jobs
  {
  }

  // ----- Any step -----

  lemma CoreAfterStep(s: System, step: Step)
    requires Core(s) && Enabled(s, step)
    ensures Core(Apply(s, step))
    ensures LiveKept(s) && !Erasing(s, step) && (forall k :: !Orphans(s, step, k)) ==> LiveKept(Apply(s, step))
  {
    hide Core, LiveKept, AfterAdmit, AfterLaunch, AfterCrashInLaunch, AfterKill, AfterGiveUp, AfterRelease, AfterOutput, AfterFinish,
      AfterSaveRun, AfterEndRun, AfterRecover, AfterReport, Opens, Persisted, CanLaunch, HasJob, Cleaned, KeptSettled, BegunKeys, LedgerKeys;
    match step
    case Admit(key, hash, owner, now, ok) => CoreAfterAdmit(s, key, hash, owner, now, ok);
    case Launch(owner, id, end) => CoreAfterLaunch(s, owner, id, end);
    case CrashInLaunch(owner, id, started, saved) =>
      CoreAfterCrashInLaunch(s, owner, id, started, saved);
      NoOrphans(s, step);
    case Kill(owner) => CoreAfterKill(s, owner);
    case GiveUp(owner) => CoreAfterGiveUp(s, owner);
    case Release(owner) => CoreAfterRelease(s, owner);
    case Output(id, kind, text) => CoreAfterOutput(s, id, kind, text);
    case Finish(id, stopReason, clean, exitCode, at, text) =>
      CoreAfterFinish(s, id, FinishedState(stopReason, clean), exitCode, at, text);
    case SaveRun(id, ok) => CoreAfterSaveRun(s, id, ok);
    case EndRun(id) => CoreAfterEndRun(s, id);
    case Recover(id, at) => CoreAfterRecover(s, id, at);
    case Persist(ok) => CoreAfterPersist(s, ok);
    case Observe(watcher, id) => CoreAfterObserve(s, watcher, id);
    case Report(watcher, ok) => CoreAfterReport(s, watcher, ok);
    case Maintain(now, ok) => CoreAfterCleaned(s, now, ok);
    case Close => CoreAfterClose(s);
    case Crash =>
      CoreAfterPlainCrash(s);
      NoOrphans(s, step);
    case Restart(opening) => CoreAfterOpens(s, opening);
  }

  lemma CoreAfterClose(s: System)
    requires Core(s) && s.up
    ensures Core(s.(m := s.m.(closed := true)))
    ensures LiveKept(s) ==> LiveKept(s.(m := s.m.(closed := true)))
  {
    hide LedgerOk, LedgerKeys, IndexedMaps, Reserving, TokensMatch, ReservationsMatch, BegunApart, RunsMatch,
      SettledMatch, WatchersMatch, LedgerAgrees, LedgerUsed, UsedCovers;
  }

  lemma NoOrphans(s: System, step: Step)
    requires Enabled(s, step) && Crashing(step)
    ensures (forall k :: !Orphans(s, step, k)) <==> BegunKeys(s.starters) <= LedgerKeys(Apply(s, step).m.ledger)
  {
    hide BegunKeys, LedgerKeys, Apply;
    var begun, kept := BegunKeys(s.starters), LedgerKeys(Apply(s, step).m.ledger);
    if !(begun <= kept) {
      var k :| k in begun && k !in kept;
      assert Orphans(s, step, k);
    }
  }

  lemma CoreAfterPlainCrash(s: System)
    requires Core(s) && s.up
    ensures var t := Crashed(s, s.m.ledger, s.live + BegunKeys(s.starters), s.used);
            && Core(t)
            && (LiveKept(s) && BegunKeys(s.starters) <= LedgerKeys(s.m.ledger) ==> LiveKept(t))
  {
    hide LedgerOk, LedgerKeys, IndexedMaps, Reserving, TokensMatch, ReservationsMatch, BegunApart, RunsMatch, KeptSettled,
      SettledMatch, WatchersMatch, LedgerAgrees, LedgerUsed, UsedCovers, BegunKeys;
    CoreAfterCrash(s, s.m.ledger, s.live + BegunKeys(s.starters), s.used);
  }
}
