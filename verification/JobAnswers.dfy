/** What StartExecution answers: a repeated request is answered with the job its first
    launch made, and another request under the same key with a conflict, however long
    after and whatever crashed in between; who is admitted; and how a job ends. */
module JobAnswers {
  import opened Options
  import opened JobEvents
  import opened JobSpec
  import opened JobLedger
  import opened JobRetention
  import opened JobSystem
  import opened JobSystemInvariant
  import opened JobRuns
  import opened JobTheorems
  import opened JobFinality

  /** The answer to an admission. */
  function AnswerTo(s: System, key: Key, hash: Hash, owner: nat, now: int, ok: bool): (a: Admission) {
    Admitted(s.m, key, hash, owner, now, ok).1
  }

  // ----- The start that a request made -----

  /** The request with this key and hash was admitted at `a` as this start, which is
      under way until `l`. */
  ghost predicate Attempt(states: seq<System>, steps: seq<Step>, a: nat, l: nat, owner: nat, k: Key, hash: Hash)
    requires |states| == |steps| + 1
  {
    && a < l <= |steps| && steps[a].Admit? && steps[a].key == k && steps[a].hash == hash && steps[a].owner == owner
    && forall n :: a < n <= l ==> owner in states[n].starters
  }

  lemma AdmittedStart(s: System, step: Step)
    requires Enabled(s, step) && step.Admit? && step.owner in Apply(s, step).starters
    ensures Apply(s, step).starters[step.owner] == Starter(step.key, step.hash, Preparing, false)
  {
    hide Cleaned, Admitted;
  }

  predicate MovesStarts(step: Step) {
    step.Admit? || step.Launch? || step.Kill? || step.GiveUp? || step.Release?
  }

  lemma StartKeepsRequest(s: System, step: Step, owner: nat)
    requires Enabled(s, step) && owner in s.starters && owner in Apply(s, step).starters
    ensures var (st, st') := (s.starters[owner], Apply(s, step).starters[owner]); st'.key == st.key && st'.hash == st.hash
  {
    if MovesStarts(step) {
      MovedStartKeepsRequest(s, step, owner);
    } else {
      StartsStay(s, step);
    }
  }

  lemma MovedStartKeepsRequest(s: System, step: Step, owner: nat)
    requires Enabled(s, step) && MovesStarts(step) && owner in s.starters && owner in Apply(s, step).starters
    ensures var (st, st') := (s.starters[owner], Apply(s, step).starters[owner]); st'.key == st.key && st'.hash == st.hash
  {
    hide LaunchSection, Holds, Cleaned, Admitted, TokenReturned, Abandoned;
  }

  lemma StartsStay(s: System, step: Step)
    requires Enabled(s, step) && !MovesStarts(step)
    ensures Apply(s, step).starters == s.starters || Apply(s, step).starters == map[]
  {
    hide Records, StartingRecord, Holds, Cleaned, Persisted, Opened, TokenReturned, TerminalOf, KeptSettled, FinishedState,
      WithState, RecoveredJob, HasJob, WindowOk, BegunKeys;
  }

  lemma {:induction false} AttemptIsTheStart(states: seq<System>, steps: seq<Step>, a: nat, l: nat, owner: nat, k: Key, hash: Hash)
    requires IsRun(states, steps) && Attempt(states, steps, a, l, owner, k, hash)
    ensures states[l].starters[owner].key == k && states[l].starters[owner].hash == hash
    decreases l
  {
    hide Enabled, Apply, Initial;
    assert Enabled(states[l - 1], steps[l - 1]) && states[l] == Apply(states[l - 1], steps[l - 1]);
    if l == a + 1 {
      AdmittedStart(states[a], steps[a]);
    } else {
      AttemptIsTheStart(states, steps, a, l - 1, owner, k, hash);
      StartKeepsRequest(states[l - 1], steps[l - 1], owner);
    }
  }

  // ----- The record of a launch -----

  /** Whatever record of the key there is names this job and this hash. */
  ghost predicate Names(ledger: seq<Record>, k: Key, id: JobId, hash: Hash) {
    forall i :: 0 <= i < |ledger| && ledger[i].job.key == k ==> ledger[i].id == id && ledger[i].hash == hash
  }

  ghost predicate Entry(idempotency: map<Key, Committed>, k: Key, id: JobId, hash: Hash) {
    k in idempotency ==> idempotency[k] == Committed(id, hash)
  }

  ghost predicate NamedAs(s: System, k: Key, id: JobId, hash: Hash) {
    Names(s.m.ledger, k, id, hash) && Entry(s.m.idempotency, k, id, hash)
  }

  lemma WrittenNames(m: Manager, k: Key, id: JobId, hash: Hash)
    requires Structure(m) && Entry(m.idempotency, k, id, hash)
    ensures Names(Records(m), k, id, hash)
  {
    hide Terminal, WindowOk;
    assert forall i :: 0 <= i < |m.order| ==> m.order[i] in m.order;
    RecordsAt(m.order, m.jobs, m.idempotency);
  }

  lemma AppendedNames(ledger: seq<Record>, r: Record, k: Key, id: JobId, hash: Hash)
    requires Names(ledger, k, id, hash) && (r.job.key == k ==> r.id == id && r.hash == hash)
    ensures Names(ledger + [r], k, id, hash)
  {
  }

  ghost predicate LaunchesOther(s: System, step: Step, k: Key) {
    step.Launch? || step.CrashInLaunch? ==> step.owner in s.starters && s.starters[step.owner].key != k
  }

  lemma CleanUpNames(s: System, step: Step, k: Key, id: JobId, hash: Hash)
    requires Core(s) && Enabled(s, step) && (step.Admit? || step.Maintain?) && NamedAs(s, k, id, hash)
    ensures NamedAs(Apply(s, step), k, id, hash)
  {
    hide Core, Records, Sweep, Apply, Enabled, Cleaned, SweptMemory, Names, CleanedOrSame, Admitted;
    SweptNames(s, step.now, k, id, hash);
    if step.Admit? {
      AdmitSteps(s, step);
      AdmissionCleansAll(s.m, step.key, step.hash, step.owner, step.now, step.ok);
    } else {
      MaintainSteps(s, step);
    }
  }

  lemma AdmitSteps(s: System, step: Step)
    requires Enabled(s, step) && step.Admit?
    ensures s.up && Apply(s, step).m == Admitted(s.m, step.key, step.hash, step.owner, step.now, step.ok).0
  {
    hide Cleaned, Admitted;
  }

  lemma MaintainSteps(s: System, step: Step)
    requires Enabled(s, step) && step.Maintain?
    ensures s.up && Apply(s, step).m == Cleaned(s.m, step.now, step.ok)
  {
    hide Cleaned;
  }

  lemma AdmissionCleansAll(m: Manager, key: Key, hash: Hash, owner: nat, now: int, ok: bool)
    ensures var (m', c) := (Admitted(m, key, hash, owner, now, ok).0, Cleaned(m, now, ok));
            (m'.ledger == m.ledger && m'.idempotency == m.idempotency) || (m'.ledger == c.ledger && m'.idempotency == c.idempotency)
  {
    hide Cleaned;
  }

  lemma SweptNames(s: System, now: int, k: Key, id: JobId, hash: Hash)
    requires Core(s) && NamedAs(s, k, id, hash)
    ensures s.up ==> forall ok :: Names(Cleaned(s.m, now, ok).ledger, k, id, hash)
    ensures s.up ==> forall ok :: Entry(Cleaned(s.m, now, ok).idempotency, k, id, hash)
  {
    hide Core, Records, Sweep, Cleaned, SweptMemory, Names, Structure, SubMap;
    if s.up {
      CoreAfterSweep(s, now);
      SweptStructure(s, now);
      SweptEntry(s.m, now, k, id, hash);
      WrittenNames(SweptMemory(s.m, now), k, id, hash);
      RecordsOfSwept(s.m, now);
    }
  }

  lemma SweptStructure(s: System, now: int)
    requires Core(s.(m := SweptMemory(s.m, now))) && Core(s)
    ensures Structure(SweptMemory(s.m, now)) && Structure(s.m)
  {
    hide Structure, SweptMemory;
  }

  lemma SweptEntry(m: Manager, now: int, k: Key, id: JobId, hash: Hash)
    requires SubMap(SweptMemory(m, now).idempotency, m.idempotency) && Entry(m.idempotency, k, id, hash)
    ensures Entry(SweptMemory(m, now).idempotency, k, id, hash)
    ensures forall ok :: Entry(Cleaned(m, now, ok).idempotency, k, id, hash)
  {
    hide Sweep, Records;
  }

  /** A launch of another key. */
  lemma LaunchNames(s: System, owner: nat, id': JobId, end: LaunchEnd, k: Key, id: JobId, hash: Hash)
    requires Core(s) && CanLaunch(s, owner, id') && NamedAs(s, k, id, hash) && s.starters[owner].key != k
    ensures NamedAs(AfterLaunch(s, owner, id', end), k, id, hash)
  {
    hide Core, Records, StartingRecord, Names, Structure, CanLaunch, NewJob;
    LaunchingStarter(s, owner, id');
    var st := s.starters[owner];
    LaunchLedgers(s, owner, id', k, id, hash);
    RecordsIgnoreStarting(s.m, s.m.(ledger := Records(s.m) + [StartingRecord(id', st.key, st.hash)]));
    RecordsIgnoreStarting(WithJob(s.m, st.key, st.hash, id'),
                          WithJob(s.m.(ledger := Records(s.m) + [StartingRecord(id', st.key, st.hash)]), st.key, st.hash, id'));
  }

  /** The ledgers a launch section can write. */
  lemma LaunchLedgers(s: System, owner: nat, id': JobId, k: Key, id: JobId, hash: Hash)
    requires Core(s) && CanLaunch(s, owner, id') && Entry(s.m.idempotency, k, id, hash)
    requires s.starters[owner].key == k ==> id' == id && s.starters[owner].hash == hash
    ensures var st := s.starters[owner];
            && Names(Records(s.m), k, id, hash)
            && Names(Records(s.m) + [StartingRecord(id', st.key, st.hash)], k, id, hash)
            && Names(Records(WithJob(s.m, st.key, st.hash, id')), k, id, hash)
  {
    hide Core, Records, Names, Structure, CanLaunch, NewJob;
    LaunchingStarter(s, owner, id');
    var st := s.starters[owner];
    assert Structure(s.m) by {
      CoreHasStructure(s);
    }
    WrittenNames(s.m, k, id, hash);
    AppendedNames(Records(s.m), StartingRecord(id', st.key, st.hash), k, id, hash);
    MapsWhenCommitting(s, owner, id');
    var t := Committing(s, owner, id');
    assert Structure(t.m) by {
      MapsHaveStructure(t);
    }
    WrittenNames(t.m, k, id, hash);
    RecordsIgnoreStarting(t.m, WithJob(s.m, st.key, st.hash, id'));
  }

  lemma CoreHasStructure(s: System)
    requires Core(s)
    ensures Structure(s.m)
  {
    hide Structure;
  }

  lemma MapsHaveStructure(t: System)
    requires MapsMatch(t)
    ensures Structure(t.m)
  {
    hide Structure;
  }

  lemma CrashNames(s: System, step: Step, k: Key, id: JobId, hash: Hash)
    requires Core(s) && Enabled(s, step) && step.CrashInLaunch? && Entry(s.m.idempotency, k, id, hash)
    requires Names(s.m.ledger, k, id, hash) || s.m.storeOpen
    requires CanLaunch(s, step.owner, step.id) && (s.starters[step.owner].key == k ==> step.id == id && s.starters[step.owner].hash == hash)
    ensures NamedAs(Apply(s, step), k, id, hash)
  {
    hide Core, Records, StartingRecord, Names, CanLaunch, NewJob, BegunKeys, KeptSettled;
    LaunchLedgers(s, step.owner, step.id, k, id, hash);
  }

  // ----- Restart -----

  lemma {:induction false} RestoredEntry(m: Manager, records: seq<Record>, stopped: set<JobId>, at: int, k: Key, id: JobId, hash: Hash)
    requires LedgerOk(records) && Apart(m, records) && Names(records, k, id, hash) && Entry(m.idempotency, k, id, hash)
    ensures WindowsOk(records) && Entry(RestoreFrom(m, records, stopped, at).idempotency, k, id, hash)
    decreases |records|
  {
    hide RestoredJob, LedgerOk, Apart;
    if records == [] {
      assert WindowsOk(records);
    } else {
      RestOfLedger(m, records, stopped, at);
      RestNames(records, k, id, hash);
      EntryAfterRecord(m, records[0], stopped, at, k, id, hash);
      RestoredEntry(AfterRecord(m, records[0], stopped, at), records[1..], stopped, at, k, id, hash);
    }
  }

  lemma RestNames(records: seq<Record>, k: Key, id: JobId, hash: Hash)
    requires records != [] && Names(records, k, id, hash)
    ensures Names(records[1..], k, id, hash) && (records[0].job.key == k ==> records[0].id == id && records[0].hash == hash)
  {
  }

  lemma EntryAfterRecord(m: Manager, r: Record, stopped: set<JobId>, at: int, k: Key, id: JobId, hash: Hash)
    requires WindowOk(r.job.window) && Entry(m.idempotency, k, id, hash) && (r.job.key == k ==> r.id == id && r.hash == hash)
    ensures Entry(AfterRecord(m, r, stopped, at).idempotency, k, id, hash)
  {
    hide WindowOk;
  }

  lemma RestartNames(s: System, opening: Opening, k: Key, id: JobId, hash: Hash)
    requires Core(s) && Enabled(s, Restart(opening)) && NamedAs(s, k, id, hash)
    ensures NamedAs(Apply(s, Restart(opening)), k, id, hash)
  {
    hide Core, RestoreFrom, TerminalOf, AnyChanges, Records, WindowOk, Names, Structure;
    if opening.Loaded? {
      var r := RestoreFrom(Fresh(true, false, s.m.ledger), s.m.ledger, opening.stopped, opening.at);
      ReadStructure(s, opening.stopped, opening.at);
      ReadEntry(s, opening, k, id, hash);
      WrittenNames(r, k, id, hash);
      RestartWrites(s, opening);
      RestartIndexes(s, opening);
    }
  }

  lemma RestartIndexes(s: System, opening: Opening)
    requires opening.Loaded? && Enabled(s, Restart(opening)) && WindowsOk(s.m.ledger)
    ensures Apply(s, Restart(opening)).m.idempotency
         == RestoreFrom(Fresh(true, false, s.m.ledger), s.m.ledger, opening.stopped, opening.at).idempotency
  {
    hide RestoreFrom, TerminalOf, AnyChanges, Records, WindowOk;
  }

  lemma ReadEntry(s: System, opening: Opening, k: Key, id: JobId, hash: Hash)
    requires Core(s) && !s.up && Names(s.m.ledger, k, id, hash) && opening.Loaded? && WindowsOk(s.m.ledger)
    ensures Entry(RestoreFrom(Fresh(true, false, s.m.ledger), s.m.ledger, opening.stopped, opening.at).idempotency, k, id, hash)
  {
    hide RunsMatch, SettledMatch, UsedCovers, WatchersMatch, TokensMatch, ReservationsMatch, BegunApart, LedgerUsed, LedgerAgrees,
      RestoreFrom, LedgerOk, Names, Structure;
    var m := Fresh(true, false, s.m.ledger);
    ApartFromNothing(m, s.m.ledger);
    RestoredEntry(m, s.m.ledger, opening.stopped, opening.at, k, id, hash);
  }

  // ----- Any step -----

  lemma OtherStepsIndex(s: System, step: Step)
    requires Enabled(s, step) && !step.Restart? && !step.Admit? && !step.Maintain? && !step.Launch? && !step.CrashInLaunch?
    ensures Apply(s, step).m.idempotency == s.m.idempotency || Apply(s, step).m.idempotency == map[]
  {
    hide Records, BegunKeys, KeptSettled, Holds, HasJob, WithState, RecoveredJob, FinishedState, WindowOk, Persisted, SeenOf;
    PersistedIndex(s.m);
  }

  lemma PersistedIndex(m: Manager)
    ensures forall ok :: Persisted(m, ok).idempotency == m.idempotency
  {
    hide Records;
  }

  /** No step but a launch of the key itself gives it another job or hash. */
  lemma NamedStays(s: System, step: Step, k: Key, id: JobId, hash: Hash)
    requires Core(s) && Enabled(s, step) && NamedAs(s, k, id, hash) && LaunchesOther(s, step, k)
    ensures NamedAs(Apply(s, step), k, id, hash)
  {
    hide Core, Apply, Enabled, Names, Structure, Records, CanLaunch;
    if step.Admit? || step.Maintain? {
      CleanUpNames(s, step, k, id, hash);
    } else if step.Launch? {
      LaunchEnabled(s, step.owner, step.id, step.end);
      LaunchNames(s, step.owner, step.id, step.end, k, id, hash);
    } else if step.CrashInLaunch? {
      CrashEnabled(s, step);
      CrashNames(s, step, k, id, hash);
    } else if step.Restart? {
      RestartNames(s, step.opening, k, id, hash);
    } else {
      OtherStepsWrite(s, step);
      OtherStepsIndex(s, step);
      CoreHasStructure(s);
      WrittenNames(s.m, k, id, hash);
    }
  }

  lemma CrashEnabled(s: System, step: Step)
    requires Enabled(s, step) && step.CrashInLaunch?
    ensures CanLaunch(s, step.owner, step.id)
  {
  }

  lemma {:induction false} NamedInRun(states: seq<System>, steps: seq<Step>, from: nat, j: nat, k: Key, id: JobId, hash: Hash)
    requires IsRun(states, steps) && from <= j <= |steps| && NamedAs(states[from], k, id, hash)
    requires forall n :: from <= n < j ==> LaunchesOther(states[n], steps[n], k)
    ensures NamedAs(states[j], k, id, hash)
  {
    hide Core, Enabled, Apply, Initial, NamedAs, LaunchesOther;
    if from < j {
      NamedInRun(states, steps, from, j - 1, k, id, hash);
      assert Enabled(states[j - 1], steps[j - 1]) && states[j] == Apply(states[j - 1], steps[j - 1]);
      CoreInRun(states, steps, j - 1);
      NamedStays(states[j - 1], steps[j - 1], k, id, hash);
    }
  }

  lemma KeptIsNotLaunched(s: System, step: Step, k: Key)
    requires Core(s) && Enabled(s, step) && Kept(s, k)
    ensures LaunchesOther(s, step, k)
  {
    hide Core, CanLaunch, LedgerKeys;
    if step.Launch? || step.CrashInLaunch? {
      LaunchingStarter(s, step.owner, step.id);
      HeldKeyIsFree(s, step.owner, step.id);
    }
  }

  lemma UnreportedIsNotLaunched(s: System, step: Step, owner: nat, k: Key)
    requires Core(s) && Enabled(s, step) && Unreported(s, owner, k)
    ensures LaunchesOther(s, step, k)
  {
    hide Core, CanLaunch, Unreported;
    UnreportedIsApart(s, owner, k);
    if step.Launch? || step.CrashInLaunch? {
      LaunchingStarter(s, step.owner, step.id);
    }
  }

  /** The launch enters the job on record, under the start's hash. */
  lemma OwnLaunchNames(s: System, owner: nat, id: JobId, end: LaunchEnd, k: Key, hash: Hash)
    requires Core(s) && CanLaunch(s, owner, id) && (end == Launched || end == CommitNotSaved)
    requires s.starters[owner].key == k && s.starters[owner].hash == hash
    ensures NamedAs(AfterLaunch(s, owner, id, end), k, id, hash)
  {
    hide Core, Records, StartingRecord, Names, Structure, CanLaunch, NewJob;
    LaunchingStarter(s, owner, id);
    HeldKeyIsFree(s, owner, id);
    LaunchLedgers(s, owner, id, k, id, hash);
    RecordsIgnoreStarting(WithJob(s.m, k, hash, id), WithJob(s.m.(ledger := Records(s.m) + [StartingRecord(id, k, hash)]), k, hash, id));
  }

  // ----- The theorem -----

  /** The launch at `l` stands from `i` on: it was acknowledged, or a crash interrupted
      it inside the launch section, or after a failed commit and before its report. */
  ghost predicate StandsAs(states: seq<System>, steps: seq<Step>, l: nat, i: nat, owner: nat, id: JobId, k: Key)
    requires |states| == |steps| + 1
  {
    && l <= i < |steps|
    && if l == i then steps[l] == Launch(owner, id, Launched) || steps[l] == CrashInLaunch(owner, id, true, false)
                      || steps[l] == CrashInLaunch(owner, id, true, true)
       else steps[l] == Launch(owner, id, CommitNotSaved) && UnreportedBetween(states, l, i, owner, k) && Crashing(steps[i])
  }

  lemma StandingNames(states: seq<System>, steps: seq<Step>, l: nat, i: nat, owner: nat, id: JobId, k: Key, hash: Hash)
    requires IsRun(states, steps) && StandsAs(states, steps, l, i, owner, id, k) && LaunchOf(states[l], owner, k)
    requires states[l].starters[owner].hash == hash
    ensures NamedAs(states[i + 1], k, id, hash) && LaunchStands(states[i], steps[i], k)
  {
    hide Core, Apply, Initial, NamedAs, BegunKeys, CanLaunch, LaunchesOther, Unreported;
    assert Enabled(states[l], steps[l]) && states[l + 1] == Apply(states[l], steps[l]);
    CoreInRun(states, steps, l);
    if steps[l].CrashInLaunch? {
      CrashNamesOwn(states[l], steps[l], k, id, hash);
    } else {
      LaunchEnabled(states[l], owner, id, steps[l].end);
      OwnLaunchNames(states[l], owner, id, steps[l].end, k, hash);
      if l < i {
        UnreportedNames(states, steps, l, i, owner, id, k, hash);
      }
    }
  }

  lemma CrashNamesOwn(s: System, step: Step, k: Key, id: JobId, hash: Hash)
    requires Core(s) && Enabled(s, step) && step.CrashInLaunch? && step.id == id && LaunchOf(s, step.owner, k)
    requires s.starters[step.owner].hash == hash
    ensures NamedAs(Apply(s, step), k, id, hash)
  {
    hide Core, Apply, Names, CanLaunch;
    CrashEnabled(s, step);
    HeldKeyIsFree(s, step.owner, step.id);
    CrashNames(s, step, k, id, hash);
  }

  lemma UnreportedNames(states: seq<System>, steps: seq<Step>, l: nat, i: nat, owner: nat, id: JobId, k: Key, hash: Hash)
    requires IsRun(states, steps) && l < i < |steps| && UnreportedBetween(states, l, i, owner, k) && Crashing(steps[i])
    requires NamedAs(states[l + 1], k, id, hash)
    ensures NamedAs(states[i + 1], k, id, hash) && LaunchStands(states[i], steps[i], k)
  {
    hide Core, Enabled, Apply, Initial, NamedAs, BegunKeys, LaunchesOther, Unreported;
    forall n | l < n <= i
      ensures LaunchesOther(states[n], steps[n], k)
    {
      assert Enabled(states[n], steps[n]);
      CoreInRun(states, steps, n);
      UnreportedIsNotLaunched(states[n], steps[n], owner, k);
    }
    NamedInRun(states, steps, l + 1, i + 1, k, id, hash);
    CoreInRun(states, steps, i);
    UnreportedIsApart(states[i], owner, k);
  }

  /** A launch that stands answers for its key, at any later moment and after any crashes,
      until its job is evicted: the request it was started for with that job, and any
      other request under the key with a conflict; but for a crash that orphans it, and
      the erasing sweep. The hash is that of the request, as it was admitted. */
  lemma RepeatedRequestIsAnswered(states: seq<System>, steps: seq<Step>, a: nat, l: nat, i: nat, j: nat, owner: nat,
                                  k: Key, hash: Hash, id: JobId, hash': Hash, owner': nat, now: int, ok: bool)
    requires IsRun(states, steps) && Attempt(states, steps, a, l, owner, k, hash)
    requires StandsAs(states, steps, l, i, owner, id, k) && i < j <= |steps| && !Orphans(states[i], steps[i], k)
    requires forall n :: i < n < j ==> !Evicts(states[n], steps[n], states[n + 1], k) && !Erasing(states[n], steps[n])
    requires states[j].up && !states[j].m.closed && !states[j].m.storeErr
    ensures AnswerTo(states[j], k, hash', owner', now, ok) == if hash' == hash then Replayed(id) else Conflict
  {
    hide Core, Enabled, Apply, Initial, NamedAs, Evicts, Erasing, Orphans, LaunchStands, LaunchesOther, Kept, AnswerTo;
    AttemptIsTheStart(states, steps, a, l, owner, k, hash);
    StandingNames(states, steps, l, i, owner, id, k, hash);
    forall n | i < n <= j
      ensures Kept(states[n], k) && Core(states[n])
    {
      KeptUntilEvicted(states, steps, i, n, k);
      CoreInRun(states, steps, n);
    }
    forall n | i < n < j
      ensures LaunchesOther(states[n], steps[n], k)
    {
      assert Enabled(states[n], steps[n]);
      KeptIsNotLaunched(states[n], steps[n], k);
    }
    NamedInRun(states, steps, i + 1, j, k, id, hash);
    NamedAnswers(states[j], k, id, hash, hash', owner', now, ok);
  }

  lemma NamedAnswers(s: System, k: Key, id: JobId, hash: Hash, hash': Hash, owner: nat, now: int, ok: bool)
    requires Core(s) && Kept(s, k) && NamedAs(s, k, id, hash) && s.up && !s.m.closed && !s.m.storeErr
    ensures AnswerTo(s, k, hash', owner, now, ok) == if hash' == hash then Replayed(id) else Conflict
  {
    hide RunsMatch, SettledMatch, WatchersMatch, LedgerAgrees, LedgerUsed, LedgerOk, ReservationsMatch, UsedCovers,
      TokensMatch, BegunApart, Cleaned, Names, LedgerKeys;
  }

  /** While a start is under way, its request is told to wait, and any other request
      under the key of a conflict. */
  lemma StartingKeyIsAnswered(states: seq<System>, steps: seq<Step>, a: nat, j: nat, owner: nat, k: Key, hash: Hash,
                              hash': Hash, owner': nat, now: int, ok: bool)
    requires IsRun(states, steps) && Attempt(states, steps, a, j, owner, k, hash)
    requires states[j].starters[owner].phase != TearingDown
    requires !states[j].m.closed && !states[j].m.storeErr
    ensures AnswerTo(states[j], k, hash', owner', now, ok) == if hash' == hash then Wait else Conflict
  {
    hide RunsMatch, SettledMatch, WatchersMatch, LedgerAgrees, LedgerUsed, LedgerOk, UsedCovers, TokensMatch, BegunApart, Cleaned,
      Enabled, Apply, Initial, IndexedMaps;
    AttemptIsTheStart(states, steps, a, j, owner, k, hash);
    CoreInRun(states, steps, j);
  }

  // ----- Who is admitted -----

  /** The jobs a clean-up leaves. */
  ghost function Survivors(m: Manager, now: int): (ids: set<JobId>) {
    set id | id in m.jobs && !Due(m.order, m.jobs, id, now)
  }

  lemma CleanedSize(m: Manager, now: int, ok: bool)
    requires Structure(m)
    ensures |Cleaned(m, now, ok).jobs| == |Survivors(m, now)|
  {
    hide Due, Cleaned;
    CleanedExactly(m, now, ok);
    assert Cleaned(m, now, ok).jobs.Keys == Survivors(m, now);
    assert |Cleaned(m, now, ok).jobs.Keys| == |Cleaned(m, now, ok).jobs|;
  }

  /** In every reachable state, a closed manager and one with a broken store refuse; a
      request for a key that is neither on record nor being started is otherwise admitted
      exactly when the clean-up is saved and leaves room: fewer than 128 jobs and starts
      with a reservation, and fewer than 16 starts and runs. */
  lemma NewRequestIsAnswered(states: seq<System>, steps: seq<Step>, i: nat, k: Key, hash: Hash, owner: nat, now: int, ok: bool)
    requires IsRun(states, steps) && i <= |steps| && states[i].up
    ensures states[i].m.closed ==> AnswerTo(states[i], k, hash, owner, now, ok) == IsClosed
    ensures !states[i].m.closed && states[i].m.storeErr ==> AnswerTo(states[i], k, hash, owner, now, ok) == StoreDown
    ensures !states[i].m.closed && !states[i].m.storeErr && k !in states[i].m.idempotency && k !in states[i].m.starting ==>
              var s := states[i];
              AnswerTo(s, k, hash, owner, now, ok)
              == if !ok then StoreDown
                 else if |Survivors(s.m, now)| + |s.m.starting| < 128 && |s.starters| + |s.runs| < 16 then Reserved
                 else Limit
  {
    hide Core, Apply, Enabled, Initial, Survivors;
    CoreInRun(states, steps, i);
    NewRequestAnswer(states[i], k, hash, owner, now, ok);
  }

  lemma NewRequestAnswer(s: System, k: Key, hash: Hash, owner: nat, now: int, ok: bool)
    requires Core(s) && s.up
    ensures s.m.closed ==> AnswerTo(s, k, hash, owner, now, ok) == IsClosed
    ensures !s.m.closed && s.m.storeErr ==> AnswerTo(s, k, hash, owner, now, ok) == StoreDown
    ensures !s.m.closed && !s.m.storeErr && k !in s.m.idempotency && k !in s.m.starting ==>
              AnswerTo(s, k, hash, owner, now, ok)
              == if !ok then StoreDown
                 else if |Survivors(s.m, now)| + |s.m.starting| < 128 && |s.starters| + |s.runs| < 16 then Reserved
                 else Limit
  {
    hide RunsMatch, SettledMatch, WatchersMatch, LedgerAgrees, LedgerUsed, LedgerOk, ReservationsMatch, UsedCovers,
      BegunApart, Structure, Survivors, Sweep, Records;
    CleanedSize(s.m, now, ok);
  }

  // ----- How a job ends -----

  /** The end of a process settles its job: completed when it exited cleanly; otherwise
      canceled after a stop by the user, the shutdown or the loss of a permission, expired
      after a timeout, and failed; with its exit code and the time of the end. */
  lemma JobEndsAs(s: System, step: Step)
    requires Enabled(s, step) && step.Finish?
    ensures var (job, was) := (Apply(s, step).m.jobs[step.id], s.m.jobs[step.id]);
            && job.key == was.key && job.exitCode == step.exitCode && job.finishedAt == Some(step.at)
            && (job.state == Completed <==> step.exitedCleanly)
            && (job.state == Canceled <==> !step.exitedCleanly && step.stopReason in {"user", "shutdown", "permission_revoked"})
            && (job.state == Expired <==> !step.exitedCleanly && step.stopReason == "timeout")
            && (job.state == Failed <==>
                  !step.exitedCleanly && step.stopReason !in {"user", "shutdown", "permission_revoked", "timeout"})
    ensures forall id :: id in s.m.jobs && id != step.id ==> Apply(s, step).m.jobs[id] == s.m.jobs[id]
  {
    hide Appended, WindowOk;
  }

  /** An unknown job whose process is confirmed stopped is interrupted. */
  lemma JobRecoversAs(s: System, step: Step)
    requires Enabled(s, step) && step.Recover?
    ensures var (job, was) := (Apply(s, step).m.jobs[step.id], s.m.jobs[step.id]);
            job.key == was.key && job.state == Interrupted && job.exitCode == was.exitCode && job.finishedAt == Some(step.at)
  {
    hide Appended, WindowOk;
  }

  /** A restart finds a job that was starting or running interrupted, if its process is
      confirmed stopped, and otherwise unknown; so too a job in a state it does not know;
      every other job is found as it was written. */
  lemma JobIsFoundAs(job: Job, stopped: bool, at: int)
    requires WindowOk(job.window)
    ensures var found := RestoredJob(job, stopped, at);
            && found.key == job.key && found.exitCode == job.exitCode
            && (if job.state == Starting || job.state == Running
                then if stopped then found.state == Interrupted && found.finishedAt == Some(at)
                     else found.state == Unknown && found.finishedAt == job.finishedAt
                else if job.state.Unrecognised? then found.state == Unknown && found.finishedAt == job.finishedAt
                else found == job)
  {
    hide WindowOk;
  }

  /** After a start that could save, every job is on disk as it was found. */
  lemma FoundIsOnDisk(states: seq<System>, steps: seq<Step>, n: nat, stopped: set<JobId>, at: int, id: JobId)
    requires IsRun(states, steps) && n < |steps| && steps[n] == Restart(Loaded(stopped, at, true))
    requires id in states[n + 1].m.jobs
    ensures OnDisk(states[n + 1], id, SeenOf(states[n + 1].m.jobs[id]))
  {
    hide Core, Apply, Enabled, Says;
    CoreInRun(states, steps, n);
    assert Enabled(states[n], steps[n]) && states[n + 1] == Apply(states[n], steps[n]);
    FoundIsSaid(states[n], stopped, at, id);
    SaidIsOnDisk(states[n + 1], id, SeenOf(states[n + 1].m.jobs[id]));
  }

  /** The records of the job carry this state and exit code. */
  ghost predicate Says(ledger: seq<Record>, id: JobId, x: Seen) {
    forall i :: 0 <= i < |ledger| && ledger[i].id == id ==> SeenOf(ledger[i].job) == x
  }

  lemma SaidIsOnDisk(s: System, id: JobId, x: Seen)
    requires Says(s.m.ledger, id, x)
    ensures OnDisk(s, id, x)
  {
  }

  lemma FoundIsSaid(s: System, stopped: set<JobId>, at: int, id: JobId)
    requires Core(s) && Enabled(s, Restart(Loaded(stopped, at, true)))
    requires id in Apply(s, Restart(Loaded(stopped, at, true))).m.jobs
    ensures var t := Apply(s, Restart(Loaded(stopped, at, true))); Says(t.m.ledger, id, SeenOf(t.m.jobs[id]))
  {
    hide Core, Apply, RestoreFrom, AnyChanges, Says, Records, Structure, SeenOf;
    ReadStructure(s, stopped, at);
    RestartSaves(s, stopped, at);
    if AnyChanges(s.m.ledger) {
      ReadIsOnDisk(s, stopped, at, id);
    } else {
      UnchangedIsOnDisk(s, stopped, at, id);
    }
  }

  lemma RestartSaves(s: System, stopped: set<JobId>, at: int)
    requires Enabled(s, Restart(Loaded(stopped, at, true))) && WindowsOk(s.m.ledger)
    ensures var r := RestoreFrom(Fresh(true, false, s.m.ledger), s.m.ledger, stopped, at);
            var t := Apply(s, Restart(Loaded(stopped, at, true)));
            && t.m.jobs == r.jobs
            && (AnyChanges(s.m.ledger) && r.storeOpen ==> t.m.ledger == Records(r))
            && (!AnyChanges(s.m.ledger) ==> t.m.ledger == r.ledger)
  {
    hide RestoreFrom, TerminalOf, AnyChanges, Records, WindowOk;
  }

  lemma ReadIsOnDisk(s: System, stopped: set<JobId>, at: int, id: JobId)
    requires Core(s) && !s.up && WindowsOk(s.m.ledger)
    requires var r := RestoreFrom(Fresh(true, false, s.m.ledger), s.m.ledger, stopped, at); Structure(r) && id in r.jobs
    ensures var r := RestoreFrom(Fresh(true, false, s.m.ledger), s.m.ledger, stopped, at);
            Says(Records(r), id, SeenOf(r.jobs[id]))
  {
    hide Core, RestoreFrom, Records, Structure;
    WrittenLedger(RestoreFrom(Fresh(true, false, s.m.ledger), s.m.ledger, stopped, at));
  }

  lemma UnchangedIsOnDisk(s: System, stopped: set<JobId>, at: int, id: JobId)
    requires Core(s) && !s.up && WindowsOk(s.m.ledger) && !AnyChanges(s.m.ledger)
    requires id in RestoreFrom(Fresh(true, false, s.m.ledger), s.m.ledger, stopped, at).jobs
    ensures var r := RestoreFrom(Fresh(true, false, s.m.ledger), s.m.ledger, stopped, at);
            Says(s.m.ledger, id, SeenOf(r.jobs[id]))
  {
    hide Core, RestoreFrom, RestoredJob;
    forall i | 0 <= i < |s.m.ledger| && s.m.ledger[i].id == id
      ensures SeenOf(s.m.ledger[i].job) == SeenOf(RestoreFrom(Fresh(true, false, s.m.ledger), s.m.ledger, stopped, at).jobs[id])
    {
      RecordIsRestoredWith(s, stopped, i, at);
      JobIsFoundAs(s.m.ledger[i].job, id in stopped, at);
      NotChanged(s, i);
    }
  }

  lemma NotChanged(s: System, i: nat)
    requires Core(s) && i < |s.m.ledger| && !AnyChanges(s.m.ledger)
    ensures var state := s.m.ledger[i].job.state; state != Starting && state != Running && !state.Unrecognised?
  {
    hide RunsMatch, SettledMatch, UsedCovers, WatchersMatch, TokensMatch, ReservationsMatch, LedgerUsed, LedgerAgrees,
      Structure, BegunApart;
  }

  lemma RecordIsRestoredWith(s: System, stopped: set<JobId>, i: nat, at: int)
    requires Core(s) && !s.up && i < |s.m.ledger|
    ensures WindowsOk(s.m.ledger)
    ensures var r := RestoreFrom(Fresh(true, false, s.m.ledger), s.m.ledger, stopped, at);
            && s.m.ledger[i].id in r.jobs
            && r.jobs[s.m.ledger[i].id] == RestoredJob(s.m.ledger[i].job, s.m.ledger[i].id in stopped, at)
  {
    hide RunsMatch, SettledMatch, UsedCovers, WatchersMatch, TokensMatch, ReservationsMatch, LedgerUsed, LedgerAgrees,
      RestoreFrom, IndexedMaps, LedgerKeys, Reserving, LedgerOk, BegunApart, RestoredJob;
    var m := Fresh(true, false, s.m.ledger);
    LedgerWindows(s.m.ledger);
    ApartFromNothing(m, s.m.ledger);
    RecordComesBack(m, s.m.ledger, stopped, at, i);
  }

  /** A launched job runs, under the key of its start, and has not ended. */
  lemma JobBeginsAs(s: System, owner: nat, id: JobId)
    requires CanLaunch(s, owner, id)
    ensures var t := Apply(s, Launch(owner, id, Launched));
            && id in t.m.jobs && t.m.jobs[id].key == s.starters[owner].key && t.m.jobs[id].state == Running
            && t.m.jobs[id].exitCode == None && t.m.jobs[id].finishedAt == None
            && id in t.runs && t.runs[id] == Executing
  {
    hide Records, StartingRecord, Holds, Appended;
  }
}
