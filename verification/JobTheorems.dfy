/** A launch is not repeated: when the promise holds, exactly when a step breaks it, and
    runs in which it is broken. */
module JobTheorems {
  import opened Options
  import opened JobEvents
  import opened JobSpec
  import opened JobLedger
  import opened JobRetention
  import opened JobSystem
  import opened JobSystemInvariant
  import opened JobRuns

  // ----- Launches -----

  ghost predicate LaunchOf(s: System, owner: nat, k: Key) {
    owner in s.starters && s.starters[owner].key == k
  }

  /** A process is started for the key. */
  ghost predicate StartsProcess(s: System, step: Step, k: Key) {
    || (step.Launch? && LaunchOf(s, step.owner, k) && (step.end == Launched || step.end == CommitNotSaved))
    || (step.CrashInLaunch? && LaunchOf(s, step.owner, k) && step.started)
  }

  /** The launch is acknowledged to the caller, or a crash interrupts it: inside the
      launch section, or after a failed commit and before that failure was reported. A
      launch reported as failed, whose process is killed first, is neither. */
  ghost predicate LaunchStands(s: System, step: Step, k: Key) {
    || (step.Launch? && LaunchOf(s, step.owner, k) && step.end == Launched)
    || (step.CrashInLaunch? && LaunchOf(s, step.owner, k) && step.started)
    || (Crashing(step) && k in BegunKeys(s.starters))
  }

  /** Retention drops the key and its job. */
  ghost predicate Evicts(s: System, step: Step, t: System, k: Key) {
    (step.Admit? || step.Maintain?) && k in s.m.idempotency && k !in t.m.idempotency
  }

  lemma CleaningEvictsDue(m: Manager, now: int, ok: bool, k: Key)
    requires Structure(m) && k in m.idempotency
    ensures m.idempotency[k].jobId in m.jobs
    ensures k !in Cleaned(m, now, ok).idempotency <==> Due(m.order, m.jobs, m.idempotency[k].jobId, now)
  {
    hide Cleaned, Reserving, Terminal, WindowOk, Due;
    CleanedExactly(m, now, ok);
  }

  lemma AdmissionOnlyCleans(m: Manager, key: Key, hash: Hash, owner: nat, now: int, ok: bool)
    ensures var m' := Admitted(m, key, hash, owner, now, ok).0;
            m'.idempotency == m.idempotency || m'.idempotency == Cleaned(m, now, ok).idempotency
  {
    hide Cleaned;
  }

  /** Retention drops a key only with a job that is due: terminal, and more than a day
      old or the first terminal one of a full manager. */
  lemma OnlyDueJobsAreEvicted(s: System, step: Step, k: Key)
    requires Core(s) && Enabled(s, step) && Evicts(s, step, Apply(s, step), k)
    ensures Due(s.m.order, s.m.jobs, s.m.idempotency[k].jobId, step.now)
  {
    hide RunsMatch, SettledMatch, WatchersMatch, LedgerAgrees, LedgerUsed, LedgerOk, ReservationsMatch, UsedCovers,
      TokensMatch, Cleaned, Structure, Admitted, Due;
    if step.Admit? {
      AdmissionOnlyCleans(s.m, step.key, step.hash, step.owner, step.now, step.ok);
    }
    CleaningEvictsDue(s.m, step.now, step.ok, k);
  }

  /** The hourly sweep drops every job that is due. */
  lemma DueJobsAreSwept(s: System, now: int, ok: bool, k: Key)
    requires Core(s) && Enabled(s, Maintain(now, ok)) && k in s.m.idempotency
    ensures Evicts(s, Maintain(now, ok), Apply(s, Maintain(now, ok)), k)
       <==> Due(s.m.order, s.m.jobs, s.m.idempotency[k].jobId, now)
  {
    hide RunsMatch, SettledMatch, WatchersMatch, LedgerAgrees, LedgerUsed, LedgerOk, ReservationsMatch, UsedCovers,
      TokensMatch, Cleaned, Structure, Due;
    CleaningEvictsDue(s.m, now, ok, k);
  }

  // ----- A kept key -----

  /** The key is on disk and, once this process has read the ledger, in memory. */
  ghost predicate Kept(s: System, k: Key) {
    k in LedgerKeys(s.m.ledger) && (s.up && s.loaded ==> k in s.m.idempotency)
  }

  /** The state with this one key to be kept. */
  function Watching(s: System, k: Key): (t: System) {
    s.(live := {k})
  }

  lemma KeptIsLive(s: System, k: Key)
    ensures Kept(s, k) <==> LiveKept(Watching(s, k))
  {
    hide LedgerKeys;
  }

  lemma WatchingIsEnabled(s: System, step: Step, k: Key)
    requires Enabled(s, step)
    ensures Enabled(Watching(s, k), step)
    ensures Erasing(Watching(s, k), step) <==> Erasing(s, step)
  {
    hide Holds, WindowOk;
  }

  /** The same step with the one key watched. */
  ghost predicate SameButWatched(t: System, w: System) {
    w.m == t.m && w.up == t.up && w.loaded == t.loaded
  }

  lemma WatchingStep(s: System, step: Step, k: Key)
    requires Enabled(s, step) && !Crashing(step)
    ensures Enabled(Watching(s, k), step)
    ensures var (t, w) := (Apply(s, step), Apply(Watching(s, k), step));
            SameButWatched(t, w) && (Evicts(s, step, t, k) || k in w.live)
  {
    WatchingIsEnabled(s, step, k);
    hide Enabled, LaunchSection, Records, StartingRecord, Holds, Cleaned, Persisted, Opened, Admitted, TokenReturned,
      Abandoned, TerminalOf, KeptSettled, FinishedState, WithState, RecoveredJob, WindowOk, FailedStart, BegunKeys, HasJob,
      CanLaunch, SeenOf;
    if step.Admit? || step.Maintain? {
      WatchingRetention(s, step, k);
    } else {
      WatchingOther(s, step, k);
    }
  }

  lemma WatchingRetention(s: System, step: Step, k: Key)
    requires (step.Admit? || step.Maintain?) && Enabled(s, step) && Enabled(Watching(s, k), step)
    ensures var (t, w) := (Apply(s, step), Apply(Watching(s, k), step));
            SameButWatched(t, w) && (Evicts(s, step, t, k) || k in w.live)
  {
    hide Cleaned, Admitted, AfterAdmit;
    if step.Admit? {
      WatchingAdmission(s, step.key, step.hash, step.owner, step.now, step.ok, k);
    }
  }

  lemma WatchingAdmission(s: System, key: Key, hash: Hash, owner: nat, now: int, ok: bool, k: Key)
    ensures var (t, w) := (AfterAdmit(s, key, hash, owner, now, ok), AfterAdmit(Watching(s, k), key, hash, owner, now, ok));
            SameButWatched(t, w) && ((k in s.m.idempotency && k !in t.m.idempotency) || k in w.live)
  {
    hide Cleaned, Admitted;
  }

  lemma WatchingOther(s: System, step: Step, k: Key)
    requires !step.Admit? && !step.Maintain? && !Crashing(step) && Enabled(s, step) && Enabled(Watching(s, k), step)
    ensures var (t, w) := (Apply(s, step), Apply(Watching(s, k), step)); SameButWatched(t, w) && k in w.live
  {
    hide LaunchSection, Records, StartingRecord, Holds, Cleaned, Persisted, Opened, Admitted, TokenReturned,
      Abandoned, TerminalOf, KeptSettled, FinishedState, WithState, RecoveredJob, WindowOk, FailedStart, BegunKeys;
  }

  lemma KeptThroughCrash(s: System, step: Step, k: Key)
    requires Core(s) && Kept(s, k) && Enabled(s, step) && Crashing(step)
    ensures Kept(Apply(s, step), k)
  {
    hide Core, LedgerKeys, Records, StartingRecord, BegunKeys, KeptSettled, CanLaunch, LedgerOk, LedgerUsed, LedgerAgrees;
    if step.CrashInLaunch? {
      HeldKeyIsFree(s, step.owner, step.id);
      LaunchingStarter(s, step.owner, step.id);
      CrashedLedger(s, step.owner, step.id, step.started, step.saved);
    }
  }

  lemma KeptStays(s: System, step: Step, k: Key)
    requires Core(s) && Kept(s, k) && Enabled(s, step) && !Erasing(s, step)
    requires !Evicts(s, step, Apply(s, step), k)
    ensures Kept(Apply(s, step), k)
  {
    hide Core, LiveKept, Kept, Apply, Enabled, Evicts, Erasing;
    if Crashing(step) {
      KeptThroughCrash(s, step, k);
    } else {
      var w := Watching(s, k);
      CoreIgnoresLive(s, {k});
      KeptIsLive(s, k);
      WatchingIsEnabled(s, step, k);
      WatchingStep(s, step, k);
      CoreAfterStep(w, step);
      LiveKeyIsKept(Apply(w, step), Apply(s, step), k);
    }
  }

  lemma LiveKeyIsKept(w: System, t: System, k: Key)
    requires LiveKept(w) && k in w.live && w.m == t.m && w.up == t.up && w.loaded == t.loaded
    ensures Kept(t, k)
  {
    hide LedgerKeys;
  }

  // ----- A launch is not repeated -----

  /** A standing launch is on record, unless the crash orphans it. */
  lemma StandingIsKept(s: System, step: Step, k: Key)
    requires Core(s) && Enabled(s, step) && LaunchStands(s, step, k)
    ensures Kept(Apply(s, step), k) <==> !Orphans(s, step, k)
  {
    hide Core, LedgerKeys, Apply, Enabled, BegunKeys, CanLaunch;
    if step.Launch? {
      LaunchEnabled(s, step.owner, step.id, step.end);
      AcknowledgedIsKept(s, step.owner, step.id);
    } else {
      StandingThroughCrash(s, step, k);
    }
  }

  lemma LaunchEnabled(s: System, owner: nat, id: JobId, end: LaunchEnd)
    requires Enabled(s, Launch(owner, id, end))
    ensures CanLaunch(s, owner, id) && Apply(s, Launch(owner, id, end)) == AfterLaunch(s, owner, id, end)
  {
    hide AfterLaunch, CanLaunch;
  }

  lemma AcknowledgedIsKept(s: System, owner: nat, id: JobId)
    requires Core(s) && CanLaunch(s, owner, id)
    ensures Kept(AfterLaunch(s, owner, id, Launched), s.starters[owner].key)
  {
    hide Core, Records, AfterLaunch, LedgerKeys, StartingRecord, LedgerOk, LedgerAgrees, LedgerUsed, CanLaunch, NewJob;
    HeldKeyIsFree(s, owner, id);
    LaunchingStarter(s, owner, id);
    CoreWhenCommitting(s, owner, id);
    CommittingThenSaved(s, owner, id);
    var t := Committing(s, owner, id);
    WrittenMatches(t, s.reported);
  }

  lemma StandingThroughCrash(s: System, step: Step, k: Key)
    requires Core(s) && Enabled(s, step) && Crashing(step) && LaunchStands(s, step, k)
    ensures Kept(Apply(s, step), k) <==> !Orphans(s, step, k)
  {
    hide Core, LedgerKeys, Records, StartingRecord, BegunKeys, KeptSettled, CanLaunch, LedgerOk, LedgerUsed, LedgerAgrees;
    if step.CrashInLaunch? {
      LaunchingStarter(s, step.owner, step.id);
      CrashedLedger(s, step.owner, step.id, step.started, step.saved);
    }
  }

  lemma {:induction false} KeptUntilEvicted(states: seq<System>, steps: seq<Step>, i: nat, j: nat, k: Key)
    requires IsRun(states, steps) && i < j <= |steps| && LaunchStands(states[i], steps[i], k)
    requires !Orphans(states[i], steps[i], k)
    requires forall n :: i < n < j ==> !Evicts(states[n], steps[n], states[n + 1], k) && !Erasing(states[n], steps[n])
    ensures Kept(states[j], k)
  {
    hide Core, Enabled, Apply, Initial, LaunchStands, Evicts, Erasing, Orphans, Kept;
    CoreInRun(states, steps, j - 1);
    assert Enabled(states[j - 1], steps[j - 1]) && states[j] == Apply(states[j - 1], steps[j - 1]);
    if j == i + 1 {
      StandingIsKept(states[i], steps[i], k);
    } else {
      KeptUntilEvicted(states, steps, i, j - 1, k);
      KeptStays(states[j - 1], steps[j - 1], k);
    }
  }

  lemma KeptKeyIsNotStarted(s: System, step: Step, k: Key)
    requires Core(s) && Enabled(s, step) && StartsProcess(s, step, k)
    ensures !Kept(s, k)
  {
    hide Core, LaunchSection, Records, StartingRecord, Holds, WindowOk;
    HeldKeyIsFree(s, step.owner, step.id);
  }

  ghost predicate EvictsDue(s: System, step: Step, t: System, k: Key) {
    Evicts(s, step, t, k) && Due(s.m.order, s.m.jobs, s.m.idempotency[k].jobId, step.now)
  }

  /** No process is started for a key whose earlier launch stands, unless the key's job
      was due and evicted in between; but for a crash that orphans the launch
      itself, and the erasing sweep. */
  lemma LaunchIsNotRepeated(states: seq<System>, steps: seq<Step>, i: nat, j: nat, k: Key)
    requires IsRun(states, steps) && i < j < |steps|
    requires LaunchStands(states[i], steps[i], k) && StartsProcess(states[j], steps[j], k)
    requires !Orphans(states[i], steps[i], k)
    requires forall n :: i < n < j ==> !Erasing(states[n], steps[n])
    ensures exists n :: i < n < j && EvictsDue(states[n], steps[n], states[n + 1], k)
  {
    hide Core, Enabled, Apply, Initial, LaunchStands, Evicts, StartsProcess, Terminal, Erasing, Orphans, Kept;
    if forall n :: i < n < j ==> !Evicts(states[n], steps[n], states[n + 1], k) {
      KeptUntilEvicted(states, steps, i, j, k);
      CoreInRun(states, steps, j);
      assert Enabled(states[j], steps[j]);
      KeptKeyIsNotStarted(states[j], steps[j], k);
      assert false;
    } else {
      var n :| i < n < j && Evicts(states[n], steps[n], states[n + 1], k);
      CoreInRun(states, steps, n);
      OnlyDueJobsAreEvicted(states[n], steps[n], k);
    }
  }

  // ----- Exactly when a kept key is forgotten -----

  /** A step forgets a kept key without evicting it exactly when it is the sweep of a
      manager that could not read its ledger. */
  lemma ForgetsExactlyWhenErasing(s: System, step: Step, k: Key)
    requires Core(s) && Kept(s, k) && Enabled(s, step)
    ensures Kept(Apply(s, step), k) || Evicts(s, step, Apply(s, step), k) <==> !Erasing(s, step)
  {
    hide Core, Kept, Apply, Enabled, Evicts, Erasing;
    if Erasing(s, step) {
      ErasingEmptiesLedger(s, step);
      NothingIsKept(Apply(s, step), k);
      ErasingIsBlind(s, step);
      NothingToEvict(s, step, Apply(s, step), k);
    } else if !Evicts(s, step, Apply(s, step), k) {
      KeptStays(s, step, k);
    }
  }

  /** So a key on record whose job has not ended, or ended within a day, is still on
      record after a clean-up of a manager that holds fewer than 128 jobs. */
  lemma YoungJobsAreKept(states: seq<System>, steps: seq<Step>, n: nat, k: Key)
    requires IsRun(states, steps) && n < |steps| && (steps[n].Admit? || steps[n].Maintain?)
    requires Kept(states[n], k) && k in states[n].m.idempotency && states[n].m.idempotency[k].jobId in states[n].m.jobs
    requires var job := states[n].m.jobs[states[n].m.idempotency[k].jobId];
             !Terminal(job.state) || job.finishedAt.None? || steps[n].now <= job.finishedAt.value + 86400
    requires |states[n].m.jobs| < 128
    ensures Kept(states[n + 1], k) && k in states[n + 1].m.idempotency
    ensures states[n + 1].m.idempotency[k] == states[n].m.idempotency[k]
  {
    hide Core, Kept, Terminal, Apply, Erasing, FirstTerminal;
    CoreInRun(states, steps, n);
    var (s, step) := (states[n], steps[n]);
    assert Enabled(s, step) && states[n + 1] == Apply(s, step);
    if Evicts(s, step, Apply(s, step), k) {
      OnlyDueJobsAreEvicted(s, step, k);
      assert false;
    }
    RetentionKeepsEntry(s, step, k);
    ForgetsExactlyWhenErasing(s, step, k);
  }

  lemma RetentionKeepsEntry(s: System, step: Step, k: Key)
    requires Core(s) && Enabled(s, step) && (step.Admit? || step.Maintain?) && k in s.m.idempotency
    requires !Evicts(s, step, Apply(s, step), k)
    ensures k in Apply(s, step).m.idempotency && Apply(s, step).m.idempotency[k] == s.m.idempotency[k]
    ensures !Erasing(s, step)
  {
    hide RunsMatch, SettledMatch, WatchersMatch, LedgerAgrees, LedgerUsed, LedgerOk, ReservationsMatch, UsedCovers,
      TokensMatch, Cleaned, Structure, Admitted, Due, BegunApart;
    if step.Admit? {
      AdmissionOnlyCleans(s.m, step.key, step.hash, step.owner, step.now, step.ok);
    }
    CleanedExactly(s.m, step.now, step.ok);
  }

  lemma ErasingIsBlind(s: System, step: Step)
    requires Erasing(s, step)
    ensures s.up && !s.loaded
  {
  }

  lemma NothingIsKept(s: System, k: Key)
    requires s.m.ledger == []
    ensures !Kept(s, k)
  {
  }

  lemma ErasingEmptiesLedger(s: System, step: Step)
    requires Core(s) && Enabled(s, step) && Erasing(s, step)
    ensures var t := Apply(s, step); t.m.ledger == [] && t.up && !t.loaded && t.used == s.used
  {
    hide RunsMatch, SettledMatch, WatchersMatch, LedgerAgrees, LedgerUsed, LedgerOk, ReservationsMatch, UsedCovers,
      TokensMatch, Structure, BegunApart;
  }

  lemma NothingToEvict(s: System, step: Step, t: System, k: Key)
    requires Core(s) && s.up && !s.loaded
    ensures !Evicts(s, step, t, k)
  {
    hide RunsMatch, SettledMatch, WatchersMatch, LedgerAgrees, LedgerUsed, LedgerOk, ReservationsMatch, UsedCovers,
      TokensMatch, Structure, BegunApart;
  }

  // ----- Exactly when a crash orphans a launch -----

  /** The step replaces the ledger, and succeeds. */
  predicate Rewrites(s: System, step: Step) {
    s.m.storeOpen
    && match step
       case Admit(key, _, _, _, ok) => ok && !s.m.closed && !s.m.storeErr && key !in s.m.idempotency && key !in s.m.starting
       case Launch(_, _, end) => end != StartingNotSaved
       case CrashInLaunch(_, _, _, _) => true
       case SaveRun(_, ok) => ok
       case Persist(ok) => ok
       case Report(_, ok) => ok
       case Maintain(_, ok) => ok
       case _ => false
  }

  /** The start of the key has a failed commit that is still to be reported. */
  ghost predicate Unreported(s: System, owner: nat, k: Key) {
    owner in s.starters && s.starters[owner].begun && s.starters[owner].key == k
  }

  lemma UnreportedIsApart(s: System, owner: nat, k: Key)
    requires Core(s) && Unreported(s, owner, k)
    ensures s.m.storeErr && k !in s.m.idempotency && s.up && s.loaded && k in BegunKeys(s.starters)
    ensures forall p :: p in s.starters && s.starters[p].phase == Preparing ==> s.starters[p].key != k
  {
    hide RunsMatch, SettledMatch, WatchersMatch, LedgerAgrees, LedgerUsed, LedgerOk, ReservationsMatch, UsedCovers,
      TokensMatch, Structure;
    assert s.starters != map[];
  }

  /** Whoever else rewrites the ledger drops the "starting" record of such a start. */
  lemma RewritingDropsRecord(s: System, step: Step, owner: nat, k: Key)
    requires Core(s) && Enabled(s, step) && Unreported(s, owner, k) && Rewrites(s, step)
    ensures k !in LedgerKeys(Apply(s, step).m.ledger)
  {
    hide Core, LedgerKeys, Records, StartingRecord, BegunKeys, KeptSettled, CanLaunch, LedgerOk, LedgerUsed, LedgerAgrees,
      AfterLaunch, AfterCrashInLaunch, Unreported, Cleaned, TokenReturned;
    UnreportedIsApart(s, owner, k);
    WrittenMatches(s, s.reported);
    match step
    case Launch(o, id, end) =>
      LaunchingStarter(s, o, id);
      LaunchWritesOthers(s, o, id, end, k);
    case CrashInLaunch(o, id, started, saved) =>
      LaunchingStarter(s, o, id);
      CrashedLedger(s, o, id, started, saved);
    case Maintain(now, ok) => SweepWritesOthers(s, now, k);
    case _ =>
  }

  lemma LaunchWritesOthers(s: System, owner: nat, id: JobId, end: LaunchEnd, k: Key)
    requires Core(s) && CanLaunch(s, owner, id) && end != StartingNotSaved
    requires s.starters[owner].key != k && k !in s.m.idempotency
    ensures k !in LedgerKeys(AfterLaunch(s, owner, id, end).m.ledger)
  {
    hide Core, LedgerKeys, Records, StartingRecord, CanLaunch, LedgerOk, LedgerUsed, LedgerAgrees, NewJob;
    LaunchingStarter(s, owner, id);
    HeldKeyIsFree(s, owner, id);
    StartingLedger(s, owner, id);
    var st := s.starters[owner];
    match end
    case Launched =>
      CoreWhenCommitting(s, owner, id);
      CommittingThenSaved(s, owner, id);
      WrittenMatches(Committing(s, owner, id), s.reported);
    case ProcessNotStarted(_) =>
      WrittenMatches(s, s.reported);
      RecordsIgnoreStarting(s.m, s.m.(ledger := Records(s.m) + [StartingRecord(id, st.key, st.hash)]));
    case CommitNotSaved =>
  }

  lemma SweepWritesOthers(s: System, now: int, k: Key)
    requires Core(s) && s.up && s.m.storeOpen && k !in s.m.idempotency
    ensures k !in LedgerKeys(Cleaned(s.m, now, true).ledger)
  {
    hide Core, LedgerKeys, Records, LedgerOk, LedgerUsed, LedgerAgrees, Sweep;
    CoreAfterSweep(s, now);
    var swept := SweptMemory(s.m, now);
    WrittenMatches(s.(m := swept), s.reported);
    assert Cleaned(s.m, now, true) == Persisted(swept, true);
  }

  /** Any other step leaves the ledger as it is. */
  lemma OthersLeaveLedger(s: System, step: Step, owner: nat, k: Key)
    requires Core(s) && Enabled(s, step) && Unreported(s, owner, k) && !Rewrites(s, step)
    ensures Apply(s, step).m.ledger == s.m.ledger
  {
    hide Core, LedgerKeys, Records, StartingRecord, BegunKeys, KeptSettled, CanLaunch, Unreported, Sweep, Holds,
      WithState, RecoveredJob, FinishedState, HasJob, WindowOk;
    UnreportedIsApart(s, owner, k);
    if step.CrashInLaunch? {
      HeldKeyIsFree(s, step.owner, step.id);
    }
  }

  /** After the failed commit the record is still there. */
  lemma FailedCommitIsOnDisk(s: System, owner: nat, id: JobId)
    requires Core(s) && CanLaunch(s, owner, id)
    ensures s.starters[owner].key in LedgerKeys(AfterLaunch(s, owner, id, CommitNotSaved).m.ledger)
  {
    hide Core, LedgerKeys, Records, StartingRecord, CanLaunch, LedgerOk, LedgerUsed, LedgerAgrees;
    HeldKeyIsFree(s, owner, id);
    StartingLedger(s, owner, id);
  }

  ghost predicate RewrittenBetween(states: seq<System>, steps: seq<Step>, f: nat, n: nat)
    requires |states| == |steps| + 1 && n <= |steps|
  {
    exists r :: f < r < n && Rewrites(states[r], steps[r])
  }

  ghost predicate UnreportedBetween(states: seq<System>, f: nat, n: nat, owner: nat, k: Key)
    requires n < |states|
  {
    forall r :: f < r <= n ==> Unreported(states[r], owner, k)
  }

  /** While the failure is unreported, the record is on disk exactly until somebody
      rewrites the ledger. */
  lemma {:induction false} OnDiskUntilRewritten(states: seq<System>, steps: seq<Step>, f: nat, n: nat, owner: nat, id: JobId, k: Key)
    requires IsRun(states, steps) && f < n <= |steps| && steps[f] == Launch(owner, id, CommitNotSaved)
    requires LaunchOf(states[f], owner, k) && UnreportedBetween(states, f, n - 1, owner, k)
    ensures k in LedgerKeys(states[n].m.ledger) <==> !RewrittenBetween(states, steps, f, n)
    decreases n
  {
    hide Core, Enabled, Apply, Initial, Rewrites, Unreported, LedgerKeys, AfterLaunch, CanLaunch;
    assert Enabled(states[n - 1], steps[n - 1]) && states[n] == Apply(states[n - 1], steps[n - 1]);
    CoreInRun(states, steps, n - 1);
    if n == f + 1 {
      LaunchEnabled(states[f], owner, id, CommitNotSaved);
      FailedCommitIsOnDisk(states[f], owner, id);
    } else {
      OnDiskUntilRewritten(states, steps, f, n - 1, owner, id, k);
      if Rewrites(states[n - 1], steps[n - 1]) {
        RewritingDropsRecord(states[n - 1], steps[n - 1], owner, k);
      } else {
        OthersLeaveLedger(states[n - 1], steps[n - 1], owner, k);
        assert RewrittenBetween(states, steps, f, n) ==> RewrittenBetween(states, steps, f, n - 1);
      }
    }
  }

  /** A crash after a failed commit interrupts the launch; it orphans it exactly when
      somebody rewrote the ledger since that commit, or the crash does. */
  lemma OrphansExactlyWhenRewritten(states: seq<System>, steps: seq<Step>, f: nat, i: nat, owner: nat, id: JobId, k: Key)
    requires IsRun(states, steps) && f < i < |steps| && steps[f] == Launch(owner, id, CommitNotSaved)
    requires LaunchOf(states[f], owner, k) && UnreportedBetween(states, f, i, owner, k) && Crashing(steps[i])
    ensures LaunchStands(states[i], steps[i], k)
    ensures Orphans(states[i], steps[i], k) <==> RewrittenBetween(states, steps, f, i + 1)
  {
    hide Core, Enabled, Apply, Initial, Rewrites, LedgerKeys;
    assert Enabled(states[i], steps[i]) && states[i + 1] == Apply(states[i], steps[i]);
    CoreInRun(states, steps, i);
    UnreportedIsApart(states[i], owner, k);
    OnDiskUntilRewritten(states, steps, f, i + 1, owner, id, k);
  }

  /** An orphaned launch always has such a commit before it. */
  lemma {:induction false} BegunSince(states: seq<System>, steps: seq<Step>, i: nat, owner: nat, k: Key) returns (f: nat, id: JobId)
    requires IsRun(states, steps) && i <= |steps| && Unreported(states[i], owner, k)
    ensures f < i && steps[f] == Launch(owner, id, CommitNotSaved) && LaunchOf(states[f], owner, k)
    ensures UnreportedBetween(states, f, i, owner, k)
  {
    hide Core, Enabled, Apply, Unreported;
    if i == 0 {
      NobodyBegunYet(owner, k);
    } else {
      assert Enabled(states[i - 1], steps[i - 1]) && states[i] == Apply(states[i - 1], steps[i - 1]);
      if Unreported(states[i - 1], owner, k) {
        f, id := BegunSince(states, steps, i - 1, owner, k);
      } else {
        BegunHere(states[i - 1], steps[i - 1], owner, k);
        f, id := i - 1, steps[i - 1].id;
      }
    }
  }

  lemma NobodyBegunYet(owner: nat, k: Key)
    ensures !Unreported(Initial(), owner, k)
  {
  }

  lemma BegunHere(s: System, step: Step, owner: nat, k: Key)
    requires Enabled(s, step) && !Unreported(s, owner, k) && Unreported(Apply(s, step), owner, k)
    ensures step.Launch? && step == Launch(owner, step.id, CommitNotSaved) && LaunchOf(s, owner, k)
  {
    hide LaunchSection, Records, StartingRecord, Holds, Cleaned, Persisted, Opened, Admitted, TokenReturned,
      Abandoned, TerminalOf, KeptSettled, FinishedState, WithState, RecoveredJob, HasJob, WindowOk, BegunKeys;
  }

  // ----- What follows a forgotten key -----

  /** A restart, a retry and a launch. */
  function Retry(k: Key, hash: Hash, id: JobId, now: int): (steps: seq<Step>) {
    [Restart(Loaded({}, now, true)), Admit(k, hash, 0, now, true), Launch(0, id, Launched)]
  }

  /** Whenever the node is down without a record of the key, the key can be launched,
      without an eviction, once there is room for a job. */
  lemma ForgottenIsLaunched(s: System, k: Key, hash: Hash, id: JobId, now: int) returns (states: seq<System>)
    requires Core(s) && !s.up && k !in LedgerKeys(s.m.ledger) && |s.m.ledger| < MAX_RETAINED_JOBS
    requires k != "" && id !in s.used && id != ""
    ensures Runs(states, Retry(k, hash, id, now)) && states[0] == s
    ensures StartsProcess(states[2], Retry(k, hash, id, now)[2], k)
    ensures forall n :: 0 <= n < 2 ==> !Evicts(states[n], Retry(k, hash, id, now)[n], states[n + 1], k)
  {
    hide Core, Apply, Enabled, Evicts, StartsProcess, LaunchStands, LedgerKeys;
    ReadsLedger(s, now);
    var s1 := Apply(s, Restart(Loaded({}, now, true)));
    AdmittedWithRoom(s1, k, hash, now);
    var s2 := Apply(s1, Admit(k, hash, 0, now, true));
    LaunchedNext(s2, k, hash, id);
    var s3 := Apply(s2, Launch(0, id, Launched));
    states := [s, s1, s2, s3];
    OnlyRetentionEvicts(s, Restart(Loaded({}, now, true)), s1, k);
    EvictsNeedsKey(s1, Admit(k, hash, 0, now, true), s2, k);
  }

  lemma EvictsNeedsKey(s: System, step: Step, t: System, k: Key)
    requires k !in s.m.idempotency
    ensures !Evicts(s, step, t, k)
  {
  }

  lemma OnlyRetentionEvicts(s: System, step: Step, t: System, k: Key)
    requires !step.Admit? && !step.Maintain?
    ensures !Evicts(s, step, t, k)
  {
  }

  /** A start that reads the ledger. */
  lemma ReadsLedger(s: System, now: int)
    requires Core(s) && !s.up
    ensures Enabled(s, Restart(Loaded({}, now, true)))
    ensures var t := Apply(s, Restart(Loaded({}, now, true)));
            && Core(t) && t.up && t.loaded && t.m.storeOpen && !t.m.storeErr && !t.m.closed && t.m.tokens == 0
            && t.m.starting == map[] && t.starters == map[] && t.used == s.used
            && t.m.idempotency.Keys == LedgerKeys(s.m.ledger) && |t.m.jobs| == |s.m.ledger|
  {
    hide Core, RestoreFrom, AnyChanges, TerminalOf, LedgerKeys, Reading;
    CoreAfterOpens(s, Loaded({}, now, true));
    ReadStructure(s, {}, now);
    RestoredSize(s, now);
  }

  lemma RestoredSize(s: System, now: int)
    requires Core(s) && !s.up
    ensures WindowsOk(s.m.ledger)
    ensures |RestoreFrom(Fresh(true, false, s.m.ledger), s.m.ledger, {}, now).jobs| == |s.m.ledger|
  {
    hide RunsMatch, SettledMatch, UsedCovers, WatchersMatch, TokensMatch, ReservationsMatch, LedgerUsed, LedgerAgrees,
      RestoreFrom, IndexedMaps, LedgerKeys, Reserving, LedgerOk, BegunApart;
    NothingIsFine();
    var m := Fresh(true, false, s.m.ledger);
    ApartFromNothing(m, s.m.ledger);
    RestoredStructure(m, s.m.ledger, {}, now);
  }

  lemma AdmittedWithRoom(s: System, k: Key, hash: Hash, now: int)
    requires Core(s) && s.up && !s.m.storeErr && !s.m.closed && s.m.tokens == 0
    requires s.m.starting == map[] && s.starters == map[] && k != ""
    requires k !in s.m.idempotency && |s.m.jobs| < MAX_RETAINED_JOBS
    ensures Enabled(s, Admit(k, hash, 0, now, true))
    ensures var t := Apply(s, Admit(k, hash, 0, now, true));
            && t.up && !t.m.closed && t.m.starting == map[k := Reservation(hash, 0)]
            && t.starters == map[0 := Starter(k, hash, Preparing, false)] && t.used == s.used
  {
    hide RunsMatch, SettledMatch, WatchersMatch, LedgerAgrees, LedgerUsed, LedgerOk, ReservationsMatch, UsedCovers,
      TokensMatch, Structure, BegunApart, Cleaned, SubMap;
    CleanedStructure(s.m, now, true);
    CleanedHasRoom(s.m, now);
  }

  lemma CleanedHasRoom(m: Manager, now: int)
    requires Structure(m) && !m.storeErr
    ensures !Cleaned(m, now, true).storeErr && |Cleaned(m, now, true).jobs| <= |m.jobs|
  {
    var r := Sweep(m.order, m.jobs, m.idempotency, now);
    assert SweptOk(m.order, m.jobs, m.idempotency, r) by {
      assert forall i :: 0 <= i < |m.order| ==> m.order[i] in m.order;
      SweepIsOk(m.order, m.jobs, m.idempotency, now);
    }
  }

  lemma LaunchedNext(s: System, k: Key, hash: Hash, id: JobId)
    requires s.up && s.starters == map[0 := Starter(k, hash, Preparing, false)] && id !in s.used && id != ""
    requires !s.m.closed && s.m.starting == map[k := Reservation(hash, 0)]
    ensures forall end :: Enabled(s, Launch(0, id, end))
    ensures LaunchStands(s, Launch(0, id, Launched), k) && StartsProcess(s, Launch(0, id, Launched), k)
    ensures var t := Apply(s, Launch(0, id, Launched)); t.up && t.used == s.used + {id}
    ensures var t := Apply(s, Launch(0, id, CommitNotSaved));
            t.up && t.used == s.used + {id} && Unreported(t, 0, k) && t.starters[0].phase == Unkilled
  {
    hide LaunchSection;
    assert CanLaunch(s, 0, id);
  }

  // ----- The erasing sweep happens -----

  /** The sweep of a manager that could not read its ledger, and a crash. */
  function Erase(now: int): (steps: seq<Step>) {
    [Maintain(now, true), Crash]
  }

  /** Whatever such a manager's ledger held, after its sweep and a crash nothing is on
      record, so that every key can be launched again. */
  lemma ErasedIsForgotten(s: System, k: Key, now: int) returns (states: seq<System>)
    requires Core(s) && s.up && !s.loaded && s.m.storeOpen
    ensures Runs(states, Erase(now)) && states[0] == s
    ensures Core(states[2]) && !states[2].up && states[2].m.ledger == [] && states[2].used == s.used
    ensures !Evicts(states[0], Maintain(now, true), states[1], k) && !Evicts(states[1], Crash, states[2], k)
  {
    hide Core, Apply, Enabled, Evicts;
    MaintenanceIsEnabled(s, now);
    ErasingEmptiesLedger(s, Maintain(now, true));
    var s1 := Apply(s, Maintain(now, true));
    CoreAfterStep(s, Maintain(now, true));
    Crashes(s1);
    var s2 := Apply(s1, Crash);
    CoreAfterStep(s1, Crash);
    states := [s, s1, s2];
    NothingToEvict(s, Maintain(now, true), s1, k);
    OnlyRetentionEvicts(s1, Crash, s2, k);
  }

  lemma MaintenanceIsEnabled(s: System, now: int)
    requires s.up
    ensures Enabled(s, Maintain(now, true))
  {
  }

  lemma Crashes(s: System)
    requires s.up
    ensures Enabled(s, Crash)
    ensures var t := Apply(s, Crash); !t.up && t.used == s.used && t.m.ledger == s.m.ledger
  {
    hide BegunKeys;
  }

  /** From an unused data directory to a first launch that ends as given. */
  function FirstLaunch(k: Key, hash: Hash, id: JobId, now: int, end: LaunchEnd): (steps: seq<Step>) {
    [Restart(Loaded({}, now, true)), Admit(k, hash, 0, now, true), Launch(0, id, end)]
  }

  /** The first start's commit has failed, and its process still runs. */
  ghost predicate Unkilling(s: System, k: Key) {
    Unreported(s, 0, k) && s.starters[0].phase == Unkilled
  }

  lemma FirstLaunchRuns(k: Key, hash: Hash, id: JobId, now: int, end: LaunchEnd) returns (states: seq<System>)
    requires k != "" && id != "" && (end == Launched || end == CommitNotSaved)
    ensures Runs(states, FirstLaunch(k, hash, id, now, end)) && states[0] == Initial()
    ensures LaunchOf(states[2], 0, k) && Core(states[3]) && states[3].up && states[3].used == {id}
    ensures end == Launched ==> LaunchStands(states[2], Launch(0, id, Launched), k)
    ensures end == CommitNotSaved ==> Unkilling(states[3], k)
  {
    hide Core, Apply, Enabled, LaunchStands, LedgerKeys;
    var s0 := Initial();
    InitialIsFine();
    ReadsLedger(s0, now);
    NothingOnRecord();
    var s1 := Apply(s0, Restart(Loaded({}, now, true)));
    AdmittedWithRoom(s1, k, hash, now);
    var s2 := Apply(s1, Admit(k, hash, 0, now, true));
    CoreAfterStep(s1, Admit(k, hash, 0, now, true));
    LaunchedNext(s2, k, hash, id);
    var s3 := Apply(s2, Launch(0, id, end));
    CoreAfterStep(s2, Launch(0, id, end));
    states := [s0, s1, s2, s3];
  }

  lemma NothingOnRecord()
    ensures LedgerKeys([]) == {}
  {
  }

  /** A crash, and a start that cannot read the ledger. */
  lemma BlindAfterCrash(s: System) returns (states: seq<System>)
    requires Core(s) && s.up
    ensures Runs(states, [Crash, Restart(LoadFailed)]) && states[0] == s
    ensures var t := states[2]; Core(t) && t.up && !t.loaded && t.m.storeOpen && t.used == s.used
  {
    hide Core, Apply, Enabled;
    Crashes(s);
    var s1 := Apply(s, Crash);
    CoreAfterStep(s, Crash);
    CannotRead(s1);
    var s2 := Apply(s1, Restart(LoadFailed));
    CoreAfterStep(s1, Restart(LoadFailed));
    states := [s, s1, s2];
  }

  lemma CannotRead(s: System)
    requires Core(s) && !s.up
    ensures Enabled(s, Restart(LoadFailed))
    ensures var t := Apply(s, Restart(LoadFailed)); t.up && !t.loaded && t.m.storeOpen && t.used == s.used
  {
    hide RunsMatch, SettledMatch, WatchersMatch, LedgerAgrees, LedgerUsed, ReservationsMatch, UsedCovers, TokensMatch,
      Structure, WindowOk, TerminalOf, BegunApart;
    LedgerWindows(s.m.ledger);
  }

  ghost predicate NoEviction(states: seq<System>, steps: seq<Step>, i: nat, j: nat, k: Key)
    requires |states| == |steps| + 1 && j <= |steps|
  {
    forall n :: i < n < j ==> !Evicts(states[n], steps[n], states[n + 1], k)
  }

  /** The erasing sweep can really happen: from an unused data directory, an
      acknowledged launch is repeated without its job having been evicted. */
  lemma AnAcknowledgedLaunchIsRepeated(k: Key, hash: Hash, now: int) returns (states: seq<System>, steps: seq<Step>)
    requires k != ""
    ensures IsRun(states, steps) && |steps| == 10
    ensures LaunchStands(states[2], steps[2], k) && StartsProcess(states[9], steps[9], k)
    ensures NoEviction(states, steps, 2, 9, k)
  {
    hide Core, LaunchStands, StartsProcess, Enabled, Apply, Evicts, Initial, LedgerKeys, LaunchOf;
    var a := FirstLaunchRuns(k, hash, "a", now, Launched);
    var b := BlindAfterCrash(a[3]);
    var c := ErasedIsForgotten(b[2], k, now);
    NothingOnRecord();
    var d := ForgottenIsLaunched(c[2], k, hash, "b", now);
    var p, q, r, t := FirstLaunch(k, hash, "a", now, Launched), [Crash, Restart(LoadFailed)], Erase(now), Retry(k, hash, "b", now);
    RunsJoin(a, p, b, q);
    RunsJoin(a + b[1..], p + q, c, r);
    RunsJoin(a + b[1..] + c[1..], p + q + r, d, t);
    states, steps := a + b[1..] + c[1..] + d[1..], p + q + r + t;
    forall n | 2 < n < 9
      ensures !Evicts(states[n], steps[n], states[n + 1], k)
    {
      if n == 3 {
        OnlyRetentionEvicts(states[3], Crash, states[4], k);
      } else if n == 4 {
        OnlyRetentionEvicts(states[4], Restart(LoadFailed), states[5], k);
      }
    }
  }

  // ----- An orphan happens -----

  /** The sweep takes the record of an unkilled launch off the disk; the crash then
      orphans it. */
  lemma SweptThenCrashed(s: System, k: Key, now: int) returns (states: seq<System>)
    requires Core(s) && s.up && Unkilling(s, k)
    ensures Runs(states, Erase(now)) && states[0] == s && Unkilling(states[1], k)
    ensures LaunchStands(states[1], Crash, k) && Enabled(states[1], Crash) && Orphans(states[1], Crash, k)
    ensures var t := states[2];
            && Core(t) && !t.up && k !in LedgerKeys(t.m.ledger) && |t.m.ledger| < MAX_RETAINED_JOBS && t.used == s.used
    ensures !Evicts(states[0], Maintain(now, true), states[1], k) && !Evicts(states[1], Crash, states[2], k)
  {
    hide Core, Apply, Enabled, Evicts, LedgerKeys, BegunKeys, LaunchStands, Unreported;
    UnreportedIsApart(s, 0, k);
    MaintenanceIsEnabled(s, now);
    var s1 := Apply(s, Maintain(now, true));
    CoreAfterStep(s, Maintain(now, true));
    SweepRewrites(s, k, now);
    UnreportedIsApart(s1, 0, k);
    Crashes(s1);
    var s2 := Apply(s1, Crash);
    CoreAfterStep(s1, Crash);
    states := [s, s1, s2];
    CrashStands(s1, k);
    EvictsNeedsKey(s, Maintain(now, true), s1, k);
    EvictsNeedsKey(s1, Crash, s2, k);
  }

  lemma CrashStands(s: System, k: Key)
    requires k in BegunKeys(s.starters)
    ensures LaunchStands(s, Crash, k)
  {
    hide BegunKeys;
  }

  lemma SweepRewrites(s: System, k: Key, now: int)
    requires Core(s) && s.up && Unkilling(s, k) && Enabled(s, Maintain(now, true))
    ensures var t := Apply(s, Maintain(now, true));
            && t.up && t.used == s.used && Unkilling(t, k)
            && k !in LedgerKeys(t.m.ledger) && |t.m.ledger| < MAX_RETAINED_JOBS
  {
    hide Core, LedgerKeys, Records, LedgerOk, LedgerUsed, LedgerAgrees, Sweep, BegunKeys;
    UnreportedIsApart(s, 0, k);
    LoadedIsOpen(s);
    SweepWritesOthers(s, now, k);
    SweepWritesFew(s, now);
  }

  lemma LoadedIsOpen(s: System)
    requires Core(s) && s.up && s.loaded
    ensures s.m.storeOpen
  {
    hide RunsMatch, SettledMatch, WatchersMatch, LedgerAgrees, LedgerUsed, LedgerOk, ReservationsMatch, UsedCovers,
      TokensMatch, Structure, BegunApart;
  }

  lemma SweepWritesFew(s: System, now: int)
    requires Core(s) && s.up && s.m.storeOpen && 0 in s.starters && s.starters[0].phase == Unkilled
    ensures |Cleaned(s.m, now, true).ledger| < MAX_RETAINED_JOBS
  {
    hide LedgerKeys, Records, LedgerOk, LedgerUsed, LedgerAgrees, Sweep, IndexedMaps, RunsMatch, SettledMatch, WatchersMatch,
      UsedCovers, BegunApart, TokensMatch;
    assert s.starters[0].key in s.m.starting.Keys;
    CoreAfterSweep(s, now);
    var swept := SweptMemory(s.m, now);
    WrittenMatches(s.(m := swept), s.reported);
    assert Cleaned(s.m, now, true) == Persisted(swept, true);
  }

  /** So can the orphan: the commit of a launch fails, the hourly sweep rewrites the
      ledger, and the node crashes before the process is killed. */
  lemma AnUnkilledLaunchIsRepeated(k: Key, hash: Hash, now: int) returns (states: seq<System>, steps: seq<Step>)
    requires k != ""
    ensures IsRun(states, steps) && |steps| == 8
    ensures StartsProcess(states[2], steps[2], k) && Unkilling(states[4], k)
    ensures LaunchStands(states[4], steps[4], k) && Orphans(states[4], steps[4], k)
    ensures StartsProcess(states[7], steps[7], k) && NoEviction(states, steps, 2, 7, k)
  {
    hide Core, LaunchStands, StartsProcess, Enabled, Apply, Evicts, Initial, LedgerKeys, LaunchOf, Unkilling, Orphans;
    var a := FirstLaunchRuns(k, hash, "a", now, CommitNotSaved);
    FailedLaunchStarts(a[2], "a", k);
    var b := SweptThenCrashed(a[3], k, now);
    var c := ForgottenIsLaunched(b[2], k, hash, "b", now);
    var p, q, r := FirstLaunch(k, hash, "a", now, CommitNotSaved), Erase(now), Retry(k, hash, "b", now);
    RunsJoin(a, p, b, q);
    RunsJoin(a + b[1..], p + q, c, r);
    states, steps := a + b[1..] + c[1..], p + q + r;
  }

  lemma FailedLaunchStarts(s: System, id: JobId, k: Key)
    requires LaunchOf(s, 0, k)
    ensures StartsProcess(s, Launch(0, id, CommitNotSaved), k)
  {
  }
}
