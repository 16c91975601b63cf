/** Whole runs of the job manager: any number of callers, processes that end at
    any time, stores that fail at any time, and crashes at any point, including
    inside the launch section. */
module JobSystem {
  import opened Options
  import opened JobEvents
  import opened JobSpec
  import opened JobLedger

  /** How far a StartExecution call with a reservation has come: its commit may have
      failed with the process still to be killed. */
  datatype Phase = Preparing | Unkilled | LaunchFailed | TearingDown

  /** `begun` says that a process was started whose commit failed; it stays until the
      call has reported the failure. */
  datatype Starter = Starter(key: Key, hash: Hash, phase: Phase, begun: bool)

  /** How far the goroutine that runs a job has come. */
  datatype RunPhase = Executing | Finished | Saved

  /** A terminal snapshot: what Watch reports about a job. */
  datatype Seen = Seen(state: State, exitCode: Option<int>)

  /** The node, its data directory, and what has been promised to clients.
      `loaded` says that this process has read the ledger. `live` holds the keys
      with a launch that was acknowledged, or that a crash interrupted before its failure
      was reported, and whose job has not been evicted. `settled` holds the terminal state of each job that
      reached one in this process or was reported by Watch; `reported` the jobs
      whose terminal state Watch has returned. */
  datatype System = System(
    up: bool, loaded: bool, m: Manager,
    starters: map<nat, Starter>, runs: map<JobId, RunPhase>, watchers: map<nat, JobId>,
    used: set<JobId>, live: set<Key>, settled: map<JobId, Seen>, reported: set<JobId>)

  datatype Step =
    | Admit(key: Key, hash: Hash, owner: nat, now: int, ok: bool)
    | Launch(owner: nat, id: JobId, end: LaunchEnd)
    | CrashInLaunch(owner: nat, id: JobId, started: bool, saved: bool)
    | Kill(owner: nat)
    | GiveUp(owner: nat)
    | Release(owner: nat)
    | Output(id: JobId, kind: string, text: string)
    | Finish(id: JobId, stopReason: string, exitedCleanly: bool, exitCode: Option<int>, at: int, text: string)
    | SaveRun(id: JobId, ok: bool)
    | EndRun(id: JobId)
    | Recover(id: JobId, at: int)
    | Persist(ok: bool)
    | Observe(watcher: nat, id: JobId)
    | Report(watcher: nat, ok: bool)
    | Maintain(now: int, ok: bool)
    | Close
    | Crash
    | Restart(opening: Opening)

  function Down(ledger: seq<Record>): (m: Manager) {
    Fresh(false, true, ledger)
  }

  /** A data directory that has never been used. */
  function Initial(): (s: System) {
    System(false, false, Down([]), map[], map[], map[], {}, {}, map[], {})
  }

  predicate CanLaunch(s: System, owner: nat, id: JobId) {
    && s.up && owner in s.starters && s.starters[owner].phase == Preparing
    && !s.m.closed && Holds(s.m, s.starters[owner].key, owner)
    && id !in s.used && id != ""
  }

  predicate Enabled(s: System, step: Step) {
    match step
    case Admit(key, _, owner, _, _) => s.up && key != "" && owner !in s.starters
    case Launch(owner, id, end) => CanLaunch(s, owner, id)
    case CrashInLaunch(owner, id, started, saved) => CanLaunch(s, owner, id) && (saved ==> started)
    case Kill(owner) => s.up && owner in s.starters && s.starters[owner].phase == Unkilled
    case GiveUp(owner) =>
      s.up && owner in s.starters && (s.starters[owner].phase == Preparing || s.starters[owner].phase == LaunchFailed)
    case Release(owner) => s.up && owner in s.starters && s.starters[owner].phase == TearingDown
    case Output(id, _, _) => s.up && id in s.runs && s.runs[id] == Executing && HasJob(s, id)
    case Finish(id, _, _, _, _, _) =>
      s.up && id in s.runs && s.runs[id] == Executing && HasJob(s, id)
    case SaveRun(id, _) => s.up && id in s.runs && s.runs[id] == Finished
    case EndRun(id) => s.up && id in s.runs && s.runs[id] == Saved
    case Recover(id, _) => s.up && HasJob(s, id) && s.m.jobs[id].state == Unknown
    case Persist(_) => s.up && s.loaded
    case Observe(watcher, id) =>
      s.up && watcher !in s.watchers && id in s.m.jobs && Terminal(s.m.jobs[id].state)
    case Report(watcher, _) => s.up && watcher in s.watchers
    case Maintain(_, _) => s.up
    case Close => s.up
    case Crash => s.up
    case Restart(opening) => !s.up && WindowsOk(s.m.ledger)
  }

  function SeenOf(j: Job): (x: Seen) {
    Seen(j.state, j.exitCode)
  }

  /** A crash forgets what was not reported. */
  function KeptSettled(s: System): (settled: map<JobId, Seen>) {
    map id | id in s.settled && id in s.reported :: s.settled[id]
  }

  function Crashed(s: System, ledger: seq<Record>, live: set<Key>, used: set<JobId>): (t: System) {
    System(false, false, Down(ledger), map[], map[], map[], used, live, KeptSettled(s), s.reported)
  }

  function Settle(s: System, id: JobId, j: Job): (t: System) {
    s.(m := s.m.(jobs := s.m.jobs[id := j]), settled := s.settled[id := SeenOf(j)])
  }

  function TerminalOf(jobs: map<JobId, Job>): (settled: map<JobId, Seen>) {
    map id | id in jobs && Terminal(jobs[id].state) :: SeenOf(jobs[id])
  }

  function Opens(s: System, opening: Opening): (t: System)
    requires WindowsOk(s.m.ledger)
  {
    var m := Opened(s.m.ledger, opening);
    System(true, opening.Loaded?, m, map[], map[], map[], s.used, s.live, TerminalOf(m.jobs) + s.settled, s.reported)
  }

  function AfterAdmit(s: System, key: Key, hash: Hash, owner: nat, now: int, ok: bool): (t: System) {
    var (m, admission) := Admitted(s.m, key, hash, owner, now, ok);
    var kept := s.live - (s.m.idempotency.Keys - m.idempotency.Keys);
    if admission == Reserved then s.(m := m, live := kept, starters := s.starters[owner := Starter(key, hash, Preparing, false)])
    else s.(m := m, live := kept)
  }

  function AfterLaunch(s: System, owner: nat, id: JobId, end: LaunchEnd): (t: System)
    requires CanLaunch(s, owner, id)
  {
    var st := s.starters[owner];
    var m := LaunchSection(s.m, st.key, st.hash, id, end);
    if end == Launched then
      s.(m := m, starters := s.starters - {owner}, runs := s.runs[id := Executing],
         used := s.used + {id}, live := s.live + {st.key})
    else
      s.(m := m, starters := s.starters[owner := FailedStart(st, end)], used := s.used + {id})
  }

  /** A start whose launch section failed; after a failed commit its process still runs. */
  function FailedStart(st: Starter, end: LaunchEnd): (st': Starter) {
    if end == CommitNotSaved then st.(phase := Unkilled, begun := true) else st.(phase := LaunchFailed)
  }

  /** The keys of the processes that were started and whose failure is not reported. */
  function BegunKeys(starters: map<nat, Starter>): (ks: set<Key>) {
    set o | o in starters && starters[o].begun :: starters[o].key
  }

  function AfterCrashInLaunch(s: System, owner: nat, id: JobId, started: bool, saved: bool): (t: System)
    requires CanLaunch(s, owner, id)
  {
    var st := s.starters[owner];
    var ledger :=
      if saved then Records(WithJob(s.m, st.key, st.hash, id))
      else Records(s.m) + [StartingRecord(id, st.key, st.hash)];
    Crashed(s, if s.m.storeOpen then ledger else s.m.ledger,
            s.live + BegunKeys(s.starters) + if started then {st.key} else {}, s.used + {id})
  }

  predicate HasJob(s: System, id: JobId) {
    id in s.m.jobs && WindowOk(s.m.jobs[id].window)
  }

  function AfterKill(s: System, owner: nat): (t: System)
    requires owner in s.starters
  {
    s.(starters := s.starters[owner := s.starters[owner].(phase := LaunchFailed)])
  }

  function AfterGiveUp(s: System, owner: nat): (t: System)
    requires owner in s.starters
  {
    var st := s.starters[owner];
    s.(m := Abandoned(s.m, st.key, owner), starters := s.starters[owner := st.(phase := TearingDown)])
  }

  function AfterRelease(s: System, owner: nat): (t: System) {
    s.(m := TokenReturned(s.m), starters := s.starters - {owner})
  }

  function AfterOutput(s: System, id: JobId, kind: string, text: string): (t: System)
    requires HasJob(s, id)
  {
    var j := s.m.jobs[id];
    s.(m := s.m.(jobs := s.m.jobs[id := j.(window := Appended(j.window, kind, text))]))
  }

  function AfterFinish(s: System, id: JobId, state: State, exitCode: Option<int>, at: int, text: string): (t: System)
    requires HasJob(s, id)
  {
    Settle(s, id, WithState(s.m.jobs[id], state, exitCode, at, text)).(runs := s.runs[id := Finished])
  }

  function AfterSaveRun(s: System, id: JobId, ok: bool): (t: System) {
    s.(m := Persisted(s.m, ok), runs := s.runs[id := Saved])
  }

  function AfterEndRun(s: System, id: JobId): (t: System) {
    s.(m := TokenReturned(s.m), runs := s.runs - {id})
  }

  function AfterRecover(s: System, id: JobId, at: int): (t: System)
    requires HasJob(s, id)
  {
    Settle(s, id, RecoveredJob(s.m.jobs[id], at))
  }

  /** Watch returns the snapshot only if the ledger could be saved after it. */
  function AfterReport(s: System, watcher: nat, ok: bool): (t: System)
    requires watcher in s.watchers
  {
    s.(m := Persisted(s.m, ok), watchers := s.watchers - {watcher},
       reported := if ok then s.reported + {s.watchers[watcher]} else s.reported)
  }

  function AfterMaintain(s: System, now: int, ok: bool): (t: System) {
    var m := Cleaned(s.m, now, ok);
    s.(m := m, live := s.live - (s.m.idempotency.Keys - m.idempotency.Keys))
  }

  function Apply(s: System, step: Step): (t: System)
    requires Enabled(s, step)
  {
    match step
    case Admit(key, hash, owner, now, ok) => AfterAdmit(s, key, hash, owner, now, ok)
    case Launch(owner, id, end) => AfterLaunch(s, owner, id, end)
    case CrashInLaunch(owner, id, started, saved) => AfterCrashInLaunch(s, owner, id, started, saved)
    case Kill(owner) => AfterKill(s, owner)
    case GiveUp(owner) => AfterGiveUp(s, owner)
    case Release(owner) => AfterRelease(s, owner)
    case Output(id, kind, text) => AfterOutput(s, id, kind, text)
    case Finish(id, stopReason, exitedCleanly, exitCode, at, text) =>
      AfterFinish(s, id, FinishedState(stopReason, exitedCleanly), exitCode, at, text)
    case SaveRun(id, ok) => AfterSaveRun(s, id, ok)
    case EndRun(id) => AfterEndRun(s, id)
    case Recover(id, at) => AfterRecover(s, id, at)
    case Persist(ok) => s.(m := Persisted(s.m, ok))
    case Observe(watcher, id) => s.(watchers := s.watchers[watcher := id])
    case Report(watcher, ok) => AfterReport(s, watcher, ok)
    case Maintain(now, ok) => AfterMaintain(s, now, ok)
    case Close => s.(m := s.m.(closed := true))
    case Crash => Crashed(s, s.m.ledger, s.live + BegunKeys(s.starters), s.used)
    case Restart(opening) => Opens(s, opening)
  }

  // ----- The invariant -----

  /** Every held token belongs to a start in progress, to its teardown, or to a run. */
  ghost predicate TokensMatch(tokens: nat, starters: map<nat, Starter>, runs: map<JobId, RunPhase>) {
    tokens == |starters| + |runs| <= MAX_CONCURRENT_JOBS
  }

  /** Reservations and the starts that hold them. */
  ghost predicate ReservationsMatch(starting: map<Key, Reservation>, starters: map<nat, Starter>) {
    && (forall o :: o in starters && starters[o].phase != TearingDown ==>
          starters[o].key in starting && starting[starters[o].key] == Reservation(starters[o].hash, o))
    && (forall k :: k in starting ==>
          && starting[k].owner in starters && starters[starting[k].owner].key == k
          && starters[starting[k].owner].phase != TearingDown)
  }

  /** Once a commit has failed the store counts as broken, so that nobody else comes to
      hold or commit the key before the failure is reported. */
  ghost predicate BegunApart(starters: map<nat, Starter>, idempotency: map<Key, Committed>, storeErr: bool) {
    && (forall o :: o in starters && starters[o].phase == Unkilled ==> starters[o].begun)
    && (forall o :: o in starters && starters[o].begun ==>
          storeErr && starters[o].key !in idempotency && starters[o].key != "" && starters[o].phase != Preparing)
    && (forall o, p :: o in starters && p in starters && o != p && starters[o].begun && starters[p].key == starters[o].key ==>
          starters[p].phase == TearingDown && !starters[p].begun)
  }

  /** A job in memory is running exactly while its goroutine executes. */
  ghost predicate RunsMatch(runs: map<JobId, RunPhase>, jobs: map<JobId, Job>) {
    && (forall id :: id in runs && runs[id] == Executing ==> id in jobs && jobs[id].state == Running)
    && (forall id :: id in jobs ==>
          && (jobs[id].state == Running ==> id in runs && runs[id] == Executing)
          && (jobs[id].state == Running || jobs[id].state == Unknown || Terminal(jobs[id].state)))
  }

  /** The settled states are terminal, and those of the jobs in memory. */
  ghost predicate SettledMatch(settled: map<JobId, Seen>, jobs: map<JobId, Job>) {
    && (forall id :: id in settled ==> Terminal(settled[id].state))
    && (forall id :: id in jobs && id in settled ==> settled[id] == SeenOf(jobs[id]))
    && (forall id :: id in jobs && Terminal(jobs[id].state) ==> id in settled)
  }

  ghost predicate WatchersMatch(watchers: map<nat, JobId>, reported: set<JobId>, settled: map<JobId, Seen>) {
    reported <= settled.Keys && forall w :: w in watchers ==> watchers[w] in settled
  }

  /** The ledger does not contradict what Watch has reported. */
  ghost predicate LedgerAgrees(ledger: seq<Record>, reported: set<JobId>, settled: map<JobId, Seen>) {
    forall i :: 0 <= i < |ledger| && ledger[i].id in reported && ledger[i].id in settled ==>
      settled[ledger[i].id] == SeenOf(ledger[i].job)
  }

  ghost predicate LedgerUsed(ledger: seq<Record>, used: set<JobId>) {
    forall i :: 0 <= i < |ledger| ==> ledger[i].id in used
  }

  ghost predicate UsedCovers(used: set<JobId>, jobs: map<JobId, Job>, runs: map<JobId, RunPhase>, settled: map<JobId, Seen>) {
    jobs.Keys <= used && runs.Keys <= used && settled.Keys <= used
  }

  /** A manager that never read the ledger refuses everything and knows no job. */
  ghost predicate BlindIsIdle(s: System) {
    && (s.up && s.loaded ==> s.m.storeOpen)
    && (s.up && !s.loaded ==> s.m.storeErr && Idle(s))
  }

  ghost predicate Idle(s: System) {
    && s.m.jobs == map[] && s.m.order == [] && s.m.idempotency == map[] && s.m.starting == map[]
    && s.starters == map[] && s.runs == map[] && s.watchers == map[]
  }

  ghost predicate DownIsEmpty(s: System) {
    !s.up ==> Idle(s) && s.m == Down(s.m.ledger) && !s.loaded && s.settled.Keys <= s.reported
  }

  /** What every reachable state satisfies, whatever happens. */
  ghost predicate Core(s: System) {
    && Structure(s.m) && LedgerOk(s.m.ledger)
    && TokensMatch(s.m.tokens, s.starters, s.runs)
    && ReservationsMatch(s.m.starting, s.starters)
    && BegunApart(s.starters, s.m.idempotency, s.m.storeErr)
    && RunsMatch(s.runs, s.m.jobs)
    && SettledMatch(s.settled, s.m.jobs)
    && WatchersMatch(s.watchers, s.reported, s.settled)
    && LedgerAgrees(s.m.ledger, s.reported, s.settled)
    && LedgerUsed(s.m.ledger, s.used)
    && UsedCovers(s.used, s.m.jobs, s.runs, s.settled)
    && BlindIsIdle(s) && DownIsEmpty(s)
  }

  /** No live key is forgotten: neither on disk nor, once the ledger is read, in memory. */
  ghost predicate LiveKept(s: System) {
    && s.live <= LedgerKeys(s.m.ledger)
    && (s.up && s.loaded ==> s.live <= s.m.idempotency.Keys)
  }

  /** The hourly sweep of a manager that failed to read its ledger rewrites the
      ledger from its empty memory. */
  predicate Erasing(s: System, step: Step) {
    step.Maintain? && s.up && !s.loaded && s.m.storeOpen && step.ok
  }

  predicate Crashing(step: Step) {
    step.Crash? || step.CrashInLaunch?
  }

  /** A crash meets a process that was started for the key and whose failed commit is
      not reported, and leaves no record of it. */
  ghost predicate Orphans(s: System, step: Step, k: Key)
    requires Enabled(s, step)
  {
    Crashing(step) && k in BegunKeys(s.starters) && k !in LedgerKeys(Apply(s, step).m.ledger)
  }
}
