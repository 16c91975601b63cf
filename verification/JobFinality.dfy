/** When the terminal state of a job is final: exactly when no record on disk says
    otherwise, and so once Watch has returned it. */
module JobFinality {
  import opened Options
  import opened JobEvents
  import opened JobSpec
  import opened JobLedger
  import opened JobSystem
  import opened JobSystemInvariant
  import opened JobRuns
  import opened JobTheorems

  // ----- A reported terminal state is final -----

  /** The Watch call `w` reads a terminal snapshot of a job at step `o` and returns it
      at step `r`. */
  ghost predicate WatchReturns(states: seq<System>, steps: seq<Step>, o: nat, r: nat, w: nat, id: JobId)
    requires |states| == |steps| + 1
  {
    && o < r < |steps| && steps[o] == Observe(w, id) && steps[r] == Report(w, true)
    && (forall n :: o < n <= r ==> w in states[n].watchers)
  }

  ghost predicate Remembers(s: System, id: JobId, seen: Seen) {
    id in s.settled && s.settled[id] == seen
  }

  lemma SettledStays(s: System, step: Step, id: JobId, seen: Seen)
    requires Core(s) && Enabled(s, step) && Remembers(s, id, seen)
    requires id in s.reported || Apply(s, step).up
    ensures Remembers(Apply(s, step), id, seen)
  {
    hide WatchersMatch, LedgerAgrees, LedgerUsed, LedgerOk, ReservationsMatch, UsedCovers, TokensMatch, Structure,
      LaunchSection, Records, StartingRecord, Holds, Cleaned, Persisted, Opened, Admitted, TokenReturned,
      Abandoned, FinishedState, WithState, RecoveredJob, WindowOk;
  }

  lemma WatcherIsKept(s: System, step: Step, w: nat)
    requires Enabled(s, step) && w in s.watchers && w in Apply(s, step).watchers
    ensures Apply(s, step).up && Apply(s, step).watchers[w] == s.watchers[w]
  {
    hide LaunchSection, Records, StartingRecord, Holds, Cleaned, Persisted, Opened, Admitted, TokenReturned,
      Abandoned, FinishedState, WithState, RecoveredJob, WindowOk;
  }

  lemma ReportedGrows(s: System, step: Step, id: JobId)
    requires Enabled(s, step) && id in s.reported
    ensures id in Apply(s, step).reported
  {
    hide LaunchSection, Records, StartingRecord, Holds, Cleaned, Persisted, Opened, Admitted, TokenReturned,
      Abandoned, FinishedState, WithState, RecoveredJob, WindowOk, TerminalOf, KeptSettled;
  }

  lemma ObservedIsSettled(s: System, w: nat, id: JobId)
    requires Core(s) && Enabled(s, Observe(w, id))
    ensures id in s.m.jobs && Terminal(s.m.jobs[id].state)
    ensures var t := Apply(s, Observe(w, id));
            Remembers(t, id, SeenOf(s.m.jobs[id])) && w in t.watchers && t.watchers[w] == id
  {
    hide WatchersMatch, LedgerAgrees, LedgerUsed, LedgerOk, ReservationsMatch, UsedCovers, TokensMatch, Structure, RunsMatch;
  }

  /** From the moment the snapshot was read until it is returned. */
  lemma {:induction false} WatchedStays(states: seq<System>, steps: seq<Step>, o: nat, r: nat, w: nat, id: JobId, j: nat)
    requires IsRun(states, steps) && WatchReturns(states, steps, o, r, w, id) && o < j <= r
    ensures id in states[o].m.jobs && Terminal(states[o].m.jobs[id].state)
    ensures Remembers(states[j], id, SeenOf(states[o].m.jobs[id])) && states[j].watchers[w] == id
  {
    hide Core, Enabled, Apply, Initial, Remembers;
    CoreInRun(states, steps, j - 1);
    assert Enabled(states[j - 1], steps[j - 1]) && states[j] == Apply(states[j - 1], steps[j - 1]);
    CoreInRun(states, steps, o);
    ObservedIsSettled(states[o], w, id);
    if j > o + 1 {
      WatchedStays(states, steps, o, r, w, id, j - 1);
      WatcherIsKept(states[j - 1], steps[j - 1], w);
      SettledStays(states[j - 1], steps[j - 1], id, SeenOf(states[o].m.jobs[id]));
    }
  }

  lemma {:induction false} ReportedStays(states: seq<System>, steps: seq<Step>, o: nat, r: nat, w: nat, id: JobId, j: nat)
    requires IsRun(states, steps) && WatchReturns(states, steps, o, r, w, id) && r < j <= |steps|
    requires id in states[o].m.jobs
    ensures Remembers(states[j], id, SeenOf(states[o].m.jobs[id])) && id in states[j].reported
  {
    hide Core, Enabled, Apply, Initial, Remembers;
    CoreInRun(states, steps, j - 1);
    assert Enabled(states[j - 1], steps[j - 1]) && states[j] == Apply(states[j - 1], steps[j - 1]);
    if j == r + 1 {
      WatchedStays(states, steps, o, r, w, id, r);
      ReportKeeps(states[r], w, id, SeenOf(states[o].m.jobs[id]));
    } else {
      ReportedStays(states, steps, o, r, w, id, j - 1);
      SettledStays(states[j - 1], steps[j - 1], id, SeenOf(states[o].m.jobs[id]));
      ReportedGrows(states[j - 1], steps[j - 1], id);
    }
  }

  lemma ReportKeeps(s: System, w: nat, id: JobId, seen: Seen)
    requires Enabled(s, Report(w, true)) && s.watchers[w] == id && Remembers(s, id, seen)
    ensures var t := Apply(s, Report(w, true)); Remembers(t, id, seen) && id in t.reported
  {
  }

  lemma SettledIsTheJob(s: System, id: JobId, seen: Seen)
    requires Core(s) && Remembers(s, id, seen) && id in s.m.jobs
    ensures SeenOf(s.m.jobs[id]) == seen
  {
    hide WatchersMatch, LedgerAgrees, LedgerUsed, LedgerOk, ReservationsMatch, UsedCovers, TokensMatch, Structure, RunsMatch;
  }

  /** Once Watch has returned a terminal state, every later state of the node that
      knows the job, before or after any number of crashes, gives the same state and
      exit code. */
  lemma ReportedStateIsFinal(states: seq<System>, steps: seq<Step>, o: nat, r: nat, w: nat, id: JobId, j: nat)
    requires IsRun(states, steps) && WatchReturns(states, steps, o, r, w, id) && o < j <= |steps|
    requires id in states[j].m.jobs
    ensures id in states[o].m.jobs && Terminal(states[o].m.jobs[id].state)
    ensures SeenOf(states[j].m.jobs[id]) == SeenOf(states[o].m.jobs[id])
  {
    hide Core, Enabled, Apply, Initial, Remembers;
    WatchedStays(states, steps, o, r, w, id, r);
    if j <= r {
      WatchedStays(states, steps, o, r, w, id, j);
    } else {
      ReportedStays(states, steps, o, r, w, id, j);
    }
    CoreInRun(states, steps, j);
    SettledIsTheJob(states[j], id, SeenOf(states[o].m.jobs[id]));
  }

  // ----- Exactly when a terminal state is final -----

  /** No record of the job on disk carries another state or exit code. */
  ghost predicate OnDisk(s: System, id: JobId, x: Seen) {
    forall i :: 0 <= i < |s.m.ledger| && s.m.ledger[i].id == id ==> SeenOf(s.m.ledger[i].job) == x
  }

  /** However the run goes on, a state of the node that knows the job gives it x. */
  ghost predicate FinalFrom(s: System, id: JobId, x: Seen) {
    forall states: seq<System>, steps: seq<Step>, j: nat ::
      Runs(states, steps) && states[0] == s && j <= |steps| && id in states[j].m.jobs ==>
        SeenOf(states[j].m.jobs[id]) == x
  }

  ghost predicate Fixed(s: System, id: JobId, x: Seen) {
    id in s.used && Terminal(x.state) && (id in s.m.jobs ==> SeenOf(s.m.jobs[id]) == x) && OnDisk(s, id, x)
  }

  /** A record on disk was there before, or is a job of memory, or of a new job. */
  ghost predicate FromBefore(s: System, r: Record) {
    r in s.m.ledger || (r.id in s.m.jobs && r.job == s.m.jobs[r.id]) || r.id !in s.used
  }

  ghost predicate AllFromBefore(s: System, ledger: seq<Record>) {
    forall i :: 0 <= i < |ledger| ==> FromBefore(s, ledger[i])
  }

  lemma OldLedgerIsFromBefore(s: System)
    ensures AllFromBefore(s, s.m.ledger)
  {
    hide WindowOk;
  }

  lemma WrittenIsFromBefore(s: System, m: Manager)
    requires Structure(m)
    requires forall id :: id in m.jobs ==> (id in s.m.jobs && m.jobs[id] == s.m.jobs[id]) || id !in s.used
    ensures AllFromBefore(s, Records(m))
  {
    hide Records, Structure, LedgerOk, LedgerKeys;
    WrittenLedger(m);
  }

  lemma WithStarting(s: System, records: seq<Record>, r: Record)
    requires AllFromBefore(s, records) && r.id !in s.used
    ensures AllFromBefore(s, records + [r])
  {
    hide WindowOk;
  }

  lemma SweepIsFromBefore(s: System, now: int)
    requires Core(s) && s.up
    ensures AllFromBefore(s, Records(SweptMemory(s.m, now)))
    ensures SubMap(SweptMemory(s.m, now).jobs, s.m.jobs)
  {
    hide AllFromBefore, Records, Sweep, LedgerOk, IndexedMaps, Reserving, TokensMatch, ReservationsMatch, BegunApart, RunsMatch,
      SettledMatch, WatchersMatch, LedgerAgrees, LedgerUsed, UsedCovers;
    CleanedStructure(s.m, now, false);
    var swept := SweptMemory(s.m, now);
    assert Structure(swept) by {
      CoreAfterSweep(s, now);
    }
    WrittenIsFromBefore(s, swept);
  }

  lemma LaunchIsFromBefore(s: System, owner: nat, id: JobId)
    requires Core(s) && CanLaunch(s, owner, id)
    ensures var st := s.starters[owner];
            && AllFromBefore(s, Records(s.m)) && AllFromBefore(s, Records(s.m) + [StartingRecord(id, st.key, st.hash)])
            && AllFromBefore(s, Records(WithJob(s.m, st.key, st.hash, id)))
  {
    hide AllFromBefore, Records, LedgerOk, IndexedMaps, Reserving, TokensMatch, ReservationsMatch, BegunApart, RunsMatch, NewJob,
      SettledMatch, WatchersMatch, LedgerAgrees, LedgerUsed, UsedCovers;
    var st := s.starters[owner];
    HeldKeyIsFree(s, owner, id);
    WrittenIsFromBefore(s, s.m);
    WithStarting(s, Records(s.m), StartingRecord(id, st.key, st.hash));
    CoreWhenCommitting(s, owner, id);
    var t := Committing(s, owner, id);
    WrittenIsFromBefore(s, t.m);
    RecordsIgnoreStarting(WithJob(s.m, st.key, st.hash, id), t.m);
  }

  lemma MemoryIsFromBefore(s: System)
    requires Core(s)
    ensures AllFromBefore(s, Records(s.m))
  {
    hide AllFromBefore, Records, Structure;
    WrittenIsFromBefore(s, s.m);
  }

  /** Where the records on disk come from. */
  lemma DiskFromBefore(s: System, step: Step)
    requires Core(s) && Enabled(s, step) && !step.Restart?
    ensures AllFromBefore(s, Apply(s, step).m.ledger)
  {
    hide Core, AllFromBefore, Apply, Enabled;
    OldLedgerIsFromBefore(s);
    if step.Admit? || step.Maintain? {
      RetentionWrites(s, step);
    } else if step.Launch? {
      LaunchEnabled(s, step.owner, step.id, step.end);
      LaunchWritesFromBefore(s, step.owner, step.id, step.end);
    } else if step.CrashInLaunch? {
      CrashWrites(s, step);
    } else {
      OtherStepsWrite(s, step);
      MemoryIsFromBefore(s);
    }
  }

  lemma RetentionWrites(s: System, step: Step)
    requires Core(s) && Enabled(s, step) && (step.Admit? || step.Maintain?)
    ensures AllFromBefore(s, Apply(s, step).m.ledger)
  {
    hide Core, AllFromBefore, Records, Sweep, Apply, Enabled, Cleaned, SweptMemory;
    RetentionCleans(s, step);
    OldLedgerIsFromBefore(s);
    SweepIsFromBefore(s, step.now);
    RecordsOfSwept(s.m, step.now);
  }

  lemma RetentionCleans(s: System, step: Step)
    requires Enabled(s, step) && (step.Admit? || step.Maintain?)
    ensures s.up
    ensures CleanedOrSame(s.m, step.now, step.ok, Apply(s, step).m)
  {
    hide Admitted, CleanedOrSame, Cleaned;
    if step.Admit? {
      AdmissionCleans(s.m, step.key, step.hash, step.owner, step.now, step.ok);
    } else {
      CleaningCleans(s.m, step.now, step.ok);
    }
  }

  /** Jobs and ledger are those of the clean-up, or the old ones. */
  ghost predicate CleanedOrSame(m: Manager, now: int, ok: bool, m': Manager) {
    var c := Cleaned(m, now, ok);
    (m'.ledger == m.ledger && m'.jobs == m.jobs) || (m'.ledger == c.ledger && m'.jobs == c.jobs)
  }

  lemma AdmissionCleans(m: Manager, key: Key, hash: Hash, owner: nat, now: int, ok: bool)
    ensures CleanedOrSame(m, now, ok, Admitted(m, key, hash, owner, now, ok).0)
  {
    hide Cleaned;
  }

  lemma CleaningCleans(m: Manager, now: int, ok: bool)
    ensures CleanedOrSame(m, now, ok, Cleaned(m, now, ok))
  {
    hide Cleaned;
  }

  lemma RecordsOfSwept(m: Manager, now: int)
    ensures forall ok :: Cleaned(m, now, ok).ledger == m.ledger || Cleaned(m, now, ok).ledger == Records(SweptMemory(m, now))
  {
    hide Sweep, Records;
  }

  lemma CrashWrites(s: System, step: Step)
    requires Core(s) && Enabled(s, step) && step.CrashInLaunch?
    ensures AllFromBefore(s, Apply(s, step).m.ledger)
  {
    hide Core, AllFromBefore, Records, StartingRecord, CanLaunch, BegunKeys, KeptSettled, NewJob;
    OldLedgerIsFromBefore(s);
    LaunchingStarter(s, step.owner, step.id);
    LaunchIsFromBefore(s, step.owner, step.id);
  }

  lemma OtherStepsWrite(s: System, step: Step)
    requires Enabled(s, step) && !step.Restart? && !step.Admit? && !step.Maintain? && !step.Launch? && !step.CrashInLaunch?
    ensures Apply(s, step).m.ledger == s.m.ledger || Apply(s, step).m.ledger == Records(s.m)
  {
    hide Records, BegunKeys, KeptSettled, Holds, HasJob, WithState, RecoveredJob, FinishedState, WindowOk;
  }

  lemma LaunchWritesFromBefore(s: System, owner: nat, id: JobId, end: LaunchEnd)
    requires Core(s) && CanLaunch(s, owner, id)
    ensures AllFromBefore(s, AfterLaunch(s, owner, id, end).m.ledger)
  {
    hide Core, AllFromBefore, Records, StartingRecord, CanLaunch, NewJob;
    LaunchingStarter(s, owner, id);
    HeldKeyIsFree(s, owner, id);
    LaunchIsFromBefore(s, owner, id);
    OldLedgerIsFromBefore(s);
    var st := s.starters[owner];
    var ledger := Records(s.m) + [StartingRecord(id, st.key, st.hash)];
    RecordsIgnoreStarting(s.m, s.m.(ledger := ledger));
    RecordsIgnoreStarting(WithJob(s.m, st.key, st.hash, id), WithJob(s.m.(ledger := ledger), st.key, st.hash, id));
  }

  /** Where the jobs in memory come from. */
  lemma JobsFromBefore(s: System, step: Step)
    requires Core(s) && Enabled(s, step) && !step.Restart?
    ensures forall id :: id in Apply(s, step).m.jobs ==> id in s.m.jobs || id !in s.used
  {
    hide Core, Enabled, Apply, SubMap;
    if step.Admit? || step.Maintain? {
      RetentionKeeps(s, step);
    } else {
      OtherStepsKeep(s, step);
    }
  }

  lemma RetentionKeeps(s: System, step: Step)
    requires Core(s) && Enabled(s, step) && (step.Admit? || step.Maintain?)
    ensures forall id :: id in Apply(s, step).m.jobs ==> id in s.m.jobs
  {
    hide Core, Records, Sweep, AllFromBefore, SweptMemory, Cleaned, Apply, Enabled;
    RetentionCleans(s, step);
    SweepIsFromBefore(s, step.now);
    JobsOfSwept(s.m, step.now, step.ok);
  }

  lemma JobsOfSwept(m: Manager, now: int, ok: bool)
    ensures Cleaned(m, now, ok).jobs == SweptMemory(m, now).jobs
  {
    hide Sweep, Records;
  }

  lemma OtherStepsKeep(s: System, step: Step)
    requires Enabled(s, step) && !step.Restart? && !step.Admit? && !step.Maintain?
    ensures forall id :: id in Apply(s, step).m.jobs ==> id in s.m.jobs || id !in s.used
  {
    hide Apply, Enabled;
    if step.Launch? {
      LaunchAddsNew(s, step.owner, step.id, step.end);
    } else {
      RestAddsNothing(s, step);
    }
  }

  lemma LaunchAddsNew(s: System, owner: nat, id: JobId, end: LaunchEnd)
    requires Enabled(s, Launch(owner, id, end))
    ensures id !in s.used
    ensures forall i :: i in Apply(s, Launch(owner, id, end)).m.jobs ==> i in s.m.jobs || i == id
  {
    hide Records, StartingRecord, Holds, NewJob, FailedStart;
  }

  lemma RestAddsNothing(s: System, step: Step)
    requires Enabled(s, step) && !step.Restart? && !step.Admit? && !step.Maintain? && !step.Launch?
    ensures Apply(s, step).m.jobs.Keys <= s.m.jobs.Keys
  {
    hide Records, StartingRecord, BegunKeys, KeptSettled, Holds, WithState, RecoveredJob, FinishedState, WindowOk, Appended,
      SeenOf, AfterCrashInLaunch, Persisted;
    if step.CrashInLaunch? {
      CrashHasNoJobs(s, step);
    } else {
      PersistedJobs(s.m);
    }
  }

  lemma CrashHasNoJobs(s: System, step: Step)
    requires Enabled(s, step) && step.CrashInLaunch?
    ensures Apply(s, step).m.jobs == map[]
  {
    hide Records, StartingRecord, BegunKeys, KeptSettled, Holds;
  }

  lemma PersistedJobs(m: Manager)
    ensures forall ok :: Persisted(m, ok).jobs == m.jobs
  {
    hide Records;
  }

  lemma FixedInMemory(s: System, step: Step, id: JobId, x: Seen)
    requires Core(s) && Enabled(s, step) && Fixed(s, id, x) && !step.Restart?
    ensures id in Apply(s, step).m.jobs ==> SeenOf(Apply(s, step).m.jobs[id]) == x
  {
    hide Core, Enabled, Apply, Terminal, OnDisk;
    var t := Apply(s, step);
    if id in t.m.jobs {
      JobsFromBefore(s, step);
      CoreAfterStep(s, step);
      JobsNeedProcess(t);
      TerminalIsSettled(s, id);
      SettledStays(s, step, id, x);
      SettledIsTheJob(t, id, x);
    }
  }

  lemma JobsNeedProcess(t: System)
    requires Core(t)
    ensures t.m.jobs != map[] ==> t.up
  {
    hide RunsMatch, SettledMatch, WatchersMatch, LedgerAgrees, LedgerUsed, LedgerOk, ReservationsMatch, UsedCovers,
      TokensMatch, Structure, BegunApart;
  }

  lemma TerminalIsSettled(s: System, id: JobId)
    requires Core(s) && id in s.m.jobs && Terminal(s.m.jobs[id].state)
    ensures Remembers(s, id, SeenOf(s.m.jobs[id]))
  {
    hide RunsMatch, WatchersMatch, LedgerAgrees, LedgerUsed, LedgerOk, ReservationsMatch, UsedCovers, TokensMatch,
      Structure, BegunApart;
  }

  lemma FixedOnDisk(s: System, ledger: seq<Record>, id: JobId, x: Seen)
    requires Fixed(s, id, x) && AllFromBefore(s, ledger)
    ensures forall i :: 0 <= i < |ledger| && ledger[i].id == id ==> SeenOf(ledger[i].job) == x
  {
    hide WindowOk;
    forall i | 0 <= i < |ledger| && ledger[i].id == id
      ensures SeenOf(ledger[i].job) == x
    {
      assert FromBefore(s, ledger[i]);
    }
  }

  /** A restart takes the terminal state from the record. */
  lemma FixedThroughRestart(s: System, opening: Opening, id: JobId, x: Seen)
    requires Core(s) && Fixed(s, id, x) && Enabled(s, Restart(opening))
    ensures Fixed(Apply(s, Restart(opening)), id, x)
  {
    hide Core, RestoreFrom, TerminalOf, AnyChanges, Records, WindowOk, Terminal;
    if opening.Loaded? {
      RestoredIsFixed(s, opening.stopped, opening.at, id, x);
      WrittenRestored(s, opening.stopped, opening.at, id, x);
      RestartWrites(s, opening);
    }
  }

  lemma RestartWrites(s: System, opening: Opening)
    requires opening.Loaded? && Enabled(s, Restart(opening)) && WindowsOk(s.m.ledger)
    ensures var r := RestoreFrom(Fresh(true, false, s.m.ledger), s.m.ledger, opening.stopped, opening.at);
            var t := Apply(s, Restart(opening));
            && t.m.jobs == r.jobs && t.used == s.used
            && (t.m.ledger == r.ledger || t.m.ledger == Records(r))
  {
    hide RestoreFrom, TerminalOf, AnyChanges, Records, WindowOk;
  }

  lemma RestoredIsFixed(s: System, stopped: set<JobId>, at: int, id: JobId, x: Seen)
    requires Core(s) && !s.up && Fixed(s, id, x)
    ensures WindowsOk(s.m.ledger)
    ensures var r := RestoreFrom(Fresh(true, false, s.m.ledger), s.m.ledger, stopped, at);
            id in r.jobs ==> SeenOf(r.jobs[id]) == x
  {
    hide RunsMatch, SettledMatch, UsedCovers, WatchersMatch, TokensMatch, ReservationsMatch, LedgerUsed, LedgerAgrees,
      RestoreFrom, IndexedMaps, LedgerKeys, Reserving, LedgerOk, BegunApart, RestoredJob;
    var m := Fresh(true, false, s.m.ledger);
    LedgerWindows(s.m.ledger);
    ApartFromNothing(m, s.m.ledger);
    RestoredJobs(m, s.m.ledger, stopped, at, id);
    var r := RestoreFrom(m, s.m.ledger, stopped, at);
    if id in r.jobs {
      var i :| 0 <= i < |s.m.ledger| && s.m.ledger[i].id == id
               && r.jobs[id] == RestoredJob(s.m.ledger[i].job, id in stopped, at);
      assert Terminal(s.m.ledger[i].job.state);
    }
  }

  lemma WrittenRestored(s: System, stopped: set<JobId>, at: int, id: JobId, x: Seen)
    requires Core(s) && !s.up && Fixed(s, id, x)
    ensures WindowsOk(s.m.ledger)
    ensures var r := RestoreFrom(Fresh(true, false, s.m.ledger), s.m.ledger, stopped, at);
            && r.ledger == s.m.ledger
            && forall i :: 0 <= i < |Records(r)| && Records(r)[i].id == id ==> SeenOf(Records(r)[i].job) == x
  {
    hide Core, RestoreFrom, Records, RestoredJob, Structure;
    RestoredIsFixed(s, stopped, at, id, x);
    ReadStructure(s, stopped, at);
    WrittenLedger(RestoreFrom(Fresh(true, false, s.m.ledger), s.m.ledger, stopped, at));
  }

  lemma FixedStays(s: System, step: Step, id: JobId, x: Seen)
    requires Core(s) && Enabled(s, step) && Fixed(s, id, x)
    ensures Fixed(Apply(s, step), id, x)
  {
    hide Core, Enabled, Apply, Terminal, AllFromBefore;
    if step.Restart? {
      FixedThroughRestart(s, step.opening, id, x);
    } else {
      FixedInMemory(s, step, id, x);
      DiskFromBefore(s, step);
      FixedOnDisk(s, Apply(s, step).m.ledger, id, x);
      UsedGrows(s, step);
    }
  }

  lemma UsedGrows(s: System, step: Step)
    requires Enabled(s, step)
    ensures s.used <= Apply(s, step).used
  {
    hide LaunchSection, Records, StartingRecord, Holds, Cleaned, Persisted, Opened, Admitted, TokenReturned,
      Abandoned, FinishedState, WithState, RecoveredJob, WindowOk, TerminalOf, KeptSettled, BegunKeys;
  }

  lemma {:induction false} FixedGoesOn(states: seq<System>, steps: seq<Step>, j: nat, id: JobId, x: Seen)
    requires Runs(states, steps) && j <= |steps| && Core(states[0]) && Fixed(states[0], id, x)
    ensures Fixed(states[j], id, x)
  {
    hide Core, Enabled, Apply, Fixed;
    if j > 0 {
      FixedGoesOn(states, steps, j - 1, id, x);
      CoreGoesOn(states, steps, j - 1);
      assert Enabled(states[j - 1], steps[j - 1]) && states[j] == Apply(states[j - 1], steps[j - 1]);
      FixedStays(states[j - 1], steps[j - 1], id, x);
    }
  }

  /** A crash, and a start that finds no process confirmed stopped. */
  function CrashAndRestart(at: int): (steps: seq<Step>) {
    [Crash, Restart(Loaded({}, at, true))]
  }

  /** If a record on disk says otherwise, a crash is all it takes. */
  lemma UnsavedIsLost(s: System, id: JobId, x: Seen, at: int) returns (states: seq<System>)
    requires Core(s) && s.up && Terminal(x.state) && !OnDisk(s, id, x)
    ensures Runs(states, CrashAndRestart(at)) && states[0] == s
    ensures id in states[2].m.jobs && SeenOf(states[2].m.jobs[id]) != x
  {
    hide Core, Apply, Enabled, Terminal;
    Crashes(s);
    var s1 := Apply(s, Crash);
    CoreAfterStep(s, Crash);
    ReadsLedger(s1, at);
    var s2 := Apply(s1, Restart(Loaded({}, at, true)));
    states := [s, s1, s2];
    RestoredFrom(s1, at);
    var i :| 0 <= i < |s1.m.ledger| && s1.m.ledger[i].id == id && SeenOf(s1.m.ledger[i].job) != x;
    RecordIsRestored(s1, i, at);
    RestoredDiffers(s1.m.ledger[i].job, x, at);
  }

  lemma RestoredFrom(s: System, at: int)
    requires Core(s) && !s.up && Enabled(s, Restart(Loaded({}, at, true)))
    ensures Apply(s, Restart(Loaded({}, at, true))).m.jobs
         == RestoreFrom(Fresh(true, false, s.m.ledger), s.m.ledger, {}, at).jobs
  {
    hide Core, RestoreFrom, AnyChanges, TerminalOf, Records;
  }

  /** Every record comes back as a job. */
  lemma RecordIsRestored(s: System, i: nat, at: int)
    requires Core(s) && !s.up && i < |s.m.ledger|
    ensures WindowsOk(s.m.ledger)
    ensures var r := RestoreFrom(Fresh(true, false, s.m.ledger), s.m.ledger, {}, at);
            s.m.ledger[i].id in r.jobs && r.jobs[s.m.ledger[i].id] == RestoredJob(s.m.ledger[i].job, false, at)
  {
    hide RunsMatch, SettledMatch, UsedCovers, WatchersMatch, TokensMatch, ReservationsMatch, LedgerUsed, LedgerAgrees,
      RestoreFrom, IndexedMaps, LedgerKeys, Reserving, LedgerOk, BegunApart, RestoredJob;
    var m := Fresh(true, false, s.m.ledger);
    LedgerWindows(s.m.ledger);
    ApartFromNothing(m, s.m.ledger);
    RecordComesBack(m, s.m.ledger, {}, at, i);
  }

  lemma {:induction false} RecordComesBack(m: Manager, records: seq<Record>, stopped: set<JobId>, at: int, i: nat)
    requires LedgerOk(records) && Apart(m, records) && i < |records|
    ensures WindowsOk(records)
    ensures var r := RestoreFrom(m, records, stopped, at);
            records[i].id in r.jobs
            && r.jobs[records[i].id] == RestoredJob(records[i].job, records[i].id in stopped, at)
    decreases |records|
  {
    hide RestoredJob;
    RestOfLedger(m, records, stopped, at);
    FirstRecord(m, records);
    var m' := AfterRecord(m, records[0], stopped, at);
    if i == 0 {
      RestoredJobs(m', records[1..], stopped, at, records[0].id);
    } else {
      RecordComesBack(m', records[1..], stopped, at, i - 1);
    }
  }

  lemma RestoredDiffers(j: Job, x: Seen, at: int)
    requires WindowOk(j.window) && Terminal(x.state) && SeenOf(j) != x
    ensures SeenOf(RestoredJob(j, false, at)) != x
  {
    hide WindowOk, Pushed;
  }

  lemma FinalFromState(s: System, id: JobId)
    requires Core(s) && s.up && id in s.m.jobs && Terminal(s.m.jobs[id].state)
    ensures FinalFrom(s, id, SeenOf(s.m.jobs[id])) <==> OnDisk(s, id, SeenOf(s.m.jobs[id]))
  {
    hide Core, Enabled, Apply, Fixed, Terminal, OnDisk;
    var x := SeenOf(s.m.jobs[id]);
    if OnDisk(s, id, x) {
      KnownIsFixed(s, id);
      forall states: seq<System>, steps: seq<Step>, j: nat |
        Runs(states, steps) && states[0] == s && j <= |steps| && id in states[j].m.jobs
        ensures SeenOf(states[j].m.jobs[id]) == x
      {
        FixedGoesOn(states, steps, j, id, x);
        FixedIsSeen(states[j], id, x);
      }
    } else {
      var states := UnsavedIsLost(s, id, x, 0);
      assert Runs(states, CrashAndRestart(0));
    }
  }

  /** In every reachable state, the terminal state of a job is final, in every way the
      run may go on, exactly when no record on disk says otherwise. */
  lemma FinalExactlyWhenOnDisk(states: seq<System>, steps: seq<Step>, i: nat, id: JobId)
    requires IsRun(states, steps) && i <= |steps|
    requires states[i].up && id in states[i].m.jobs && Terminal(states[i].m.jobs[id].state)
    ensures var x := SeenOf(states[i].m.jobs[id]); FinalFrom(states[i], id, x) <==> OnDisk(states[i], id, x)
  {
    hide Core, Terminal, OnDisk, FinalFrom;
    CoreInRun(states, steps, i);
    FinalFromState(states[i], id);
  }

  lemma KnownIsFixed(s: System, id: JobId)
    requires Core(s) && id in s.m.jobs && Terminal(s.m.jobs[id].state) && OnDisk(s, id, SeenOf(s.m.jobs[id]))
    ensures Fixed(s, id, SeenOf(s.m.jobs[id]))
  {
    hide RunsMatch, SettledMatch, WatchersMatch, LedgerAgrees, LedgerUsed, LedgerOk, ReservationsMatch, TokensMatch,
      Structure, BegunApart, OnDisk, Terminal;
  }

  lemma FixedIsSeen(s: System, id: JobId, x: Seen)
    requires Fixed(s, id, x) && id in s.m.jobs
    ensures SeenOf(s.m.jobs[id]) == x
  {
    hide OnDisk, Terminal;
  }

  /** A job Watch has reported is on disk as it was reported; so is every terminal job
      after any save that succeeds. */
  lemma ReportedIsOnDisk(s: System, id: JobId)
    requires Core(s) && id in s.reported && id in s.m.jobs && Terminal(s.m.jobs[id].state)
    ensures OnDisk(s, id, SeenOf(s.m.jobs[id]))
  {
    hide RunsMatch, WatchersMatch, LedgerUsed, LedgerOk, ReservationsMatch, TokensMatch, Structure, BegunApart, UsedCovers;
  }

  lemma SavedIsOnDisk(s: System, id: JobId)
    requires Core(s) && s.up && s.loaded && id in s.m.jobs
    ensures OnDisk(s.(m := Persisted(s.m, true)), id, SeenOf(s.m.jobs[id]))
  {
    hide RunsMatch, SettledMatch, WatchersMatch, LedgerAgrees, LedgerUsed, LedgerOk, ReservationsMatch, UsedCovers, TokensMatch,
      BegunApart, Records, Structure, LedgerKeys;
    WrittenLedger(s.m);
  }

  // ----- An unsaved terminal state happens -----

  lemma JobIsWritten(m: Manager, id: JobId)
    requires Structure(m) && id in m.jobs
    ensures exists i :: 0 <= i < |Records(m)| && Records(m)[i].id == id && Records(m)[i].job == m.jobs[id]
  {
    hide Records, WindowOk;
    WrittenInOrder(m);
    assert id in m.order;
    var i :| 0 <= i < |m.order| && m.order[i] == id;
    assert Records(m)[i].id == id;
  }

  /** A job just launched is on disk as it is in memory: running. */
  lemma LaunchedIsOnDisk(s: System, owner: nat, id: JobId)
    requires Core(s) && CanLaunch(s, owner, id)
    ensures var t := AfterLaunch(s, owner, id, Launched);
            && HasJob(t, id) && id in t.runs && t.runs[id] == Executing && t.up
            && exists i :: 0 <= i < |t.m.ledger| && t.m.ledger[i].id == id && t.m.ledger[i].job.state == Running
  {
    hide Core, Records, StartingRecord, CanLaunch, NewJob, WindowOk, Structure;
    LaunchingStarter(s, owner, id);
    HeldKeyIsFree(s, owner, id);
    NewJobIsRunning(s.starters[owner].key);
    CoreWhenCommitting(s, owner, id);
    CommittingThenSaved(s, owner, id);
    var t := Committing(s, owner, id);
    assert Structure(t.m) by {
      MapsWhenCommitting(s, owner, id);
    }
    JobIsWritten(t.m, id);
  }

  /** The process of a job ends, and the new state is not saved yet. */
  lemma FinishedUnsaved(s: System, id: JobId, now: int) returns (finish: Step)
    requires s.up && HasJob(s, id) && id in s.runs && s.runs[id] == Executing
    requires exists i :: 0 <= i < |s.m.ledger| && s.m.ledger[i].id == id && s.m.ledger[i].job.state == Running
    ensures finish == Finish(id, "", true, Some(0), now, "done") && Enabled(s, finish)
    ensures var t := Apply(s, finish);
            && t.up && id in t.m.jobs && t.m.jobs[id].state == Completed && !OnDisk(t, id, SeenOf(t.m.jobs[id]))
  {
    hide Appended, WindowOk;
    finish := Finish(id, "", true, Some(0), now, "done");
  }

  /** From an unused data directory: a job completes, the node crashes before the new
      state is saved, and the job is found in another state. */
  lemma UnsavedStateChanges(k: Key, hash: Hash, id: JobId, now: int) returns (states: seq<System>, steps: seq<Step>)
    requires k != "" && id != ""
    ensures IsRun(states, steps) && |steps| == 6
    ensures id in states[4].m.jobs && Terminal(states[4].m.jobs[id].state)
    ensures id in states[6].m.jobs && SeenOf(states[6].m.jobs[id]) != SeenOf(states[4].m.jobs[id])
  {
    hide Core, Apply, Enabled, Initial, LaunchStands, LedgerKeys, OnDisk, AfterLaunch, HasJob, CanLaunch;
    var p := FirstLaunch(k, hash, id, now, Launched);
    var a := FirstLaunchRuns(k, hash, id, now, Launched);
    assert Enabled(a[2], p[2]) && a[3] == Apply(a[2], p[2]);
    assert Core(a[2]) by {
      CoreInRun(a, p, 2);
    }
    LaunchEnabled(a[2], 0, id, Launched);
    LaunchedIsOnDisk(a[2], 0, id);
    var finish := FinishedUnsaved(a[3], id, now);
    var s4 := Apply(a[3], finish);
    CoreAfterStep(a[3], finish);
    var b := [a[3], s4];
    var c := UnsavedIsLost(s4, id, SeenOf(s4.m.jobs[id]), now);
    RunsJoin(a, p, b, [finish]);
    RunsJoin(a + b[1..], p + [finish], c, CrashAndRestart(now));
    states, steps := a + b[1..] + c[1..], p + [finish] + CrashAndRestart(now);
  }
}
