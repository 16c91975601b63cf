/** The job manager as a value: its maps, the stored ledger, and what each
    critical section makes of them. `ok` says whether the store's replacement of
    the ledger succeeded; a failed replacement leaves the old ledger. */
module JobSpec {
  import opened Options
  import opened JobEvents

  const MAX_CONCURRENT_JOBS := 16
  const MAX_RETAINED_JOBS := 128
  const JOB_RETENTION := 86400

  type Key = string
  type JobId = string
  type Hash = string

  datatype State =
    | Starting | Running | Unknown
    | Completed | Failed | Canceled | Expired | Interrupted
    | Unrecognised(name: string)

  predicate Terminal(s: State) {
    s.Completed? || s.Failed? || s.Canceled? || s.Expired? || s.Interrupted?
  }

  datatype Job = Job(key: Key, state: State, exitCode: Option<int>, finishedAt: Option<int>, window: Window)

  /** One line of the stored ledger. */
  datatype Record = Record(id: JobId, hash: Hash, job: Job)

  datatype Committed = Committed(jobId: JobId, hash: Hash)

  datatype Reservation = Reservation(hash: Hash, owner: nat)

  datatype Manager = Manager(
    jobs: map<JobId, Job>,
    order: seq<JobId>,
    idempotency: map<Key, Committed>,
    starting: map<Key, Reservation>,
    tokens: nat,
    storeOpen: bool,
    storeErr: bool,
    closed: bool,
    ledger: seq<Record>)

  // ----- Persistence -----

  function HashOf(idempotency: map<Key, Committed>, key: Key): (h: Hash) {
    if key in idempotency then idempotency[key].hash else ""
  }

  /** persistedRecordsLocked without an extra record. */
  function RecordsOf(order: seq<JobId>, jobs: map<JobId, Job>, idempotency: map<Key, Committed>): (rs: seq<Record>) {
    if order == [] then []
    else
      var rest := RecordsOf(order[1..], jobs, idempotency);
      var id := order[0];
      if id in jobs then [Record(id, HashOf(idempotency, jobs[id].key), jobs[id])] + rest else rest
  }

  function Records(m: Manager): (rs: seq<Record>) {
    RecordsOf(m.order, m.jobs, m.idempotency)
  }

  /** Replace the ledger, if there is a store and the replacement succeeds. */
  function Replaced(m: Manager, records: seq<Record>, ok: bool): (m': Manager) {
    if m.storeOpen && ok then m.(ledger := records) else m
  }

  /** persistLocked or persistJob, and the caller's reaction to its error. */
  function Persisted(m: Manager, ok: bool): (m': Manager) {
    var p := Replaced(m, Records(m), ok);
    if m.storeOpen && !ok then p.(storeErr := true) else p
  }

  // ----- Retention -----

  datatype Swept = Swept(order: seq<JobId>, jobs: map<JobId, Job>, idempotency: map<Key, Committed>)

  predicate Evictable(job: Job, retained: nat, now: int) {
    Terminal(job.state)
    && ((job.finishedAt.Some? && job.finishedAt.value < now - JOB_RETENTION) || retained >= MAX_RETAINED_JOBS)
  }

  /** The eviction loop over the jobs in order. */
  function Sweep(order: seq<JobId>, jobs: map<JobId, Job>, idempotency: map<Key, Committed>, now: int): (r: Swept) {
    if order == [] then Swept([], jobs, idempotency)
    else
      var id := order[0];
      if id !in jobs then Sweep(order[1..], jobs, idempotency, now)
      else if Evictable(jobs[id], |jobs|, now) then
        Sweep(order[1..], jobs - {id}, idempotency - {jobs[id].key}, now)
      else
        var rest := Sweep(order[1..], jobs, idempotency, now);
        rest.(order := [id] + rest.order)
  }

  /** cleanupLocked. */
  function Cleaned(m: Manager, now: int, ok: bool): (m': Manager) {
    var r := Sweep(m.order, m.jobs, m.idempotency, now);
    Persisted(m.(order := r.order, jobs := r.jobs, idempotency := r.idempotency), ok)
  }

  // ----- Starting a job -----

  datatype Admission =
    | IsClosed | StoreDown | Conflict | NotFound | Replayed(jobId: JobId) | Wait | Limit | Reserved

  /** The first critical section of StartExecution. */
  function Admitted(m: Manager, key: Key, hash: Hash, owner: nat, now: int, ok: bool): (r: (Manager, Admission)) {
    if m.closed then (m, IsClosed)
    else if m.storeErr then (m, StoreDown)
    else if key in m.idempotency then
      var previous := m.idempotency[key];
      if previous.hash != hash then (m, Conflict)
      else if previous.jobId !in m.jobs then (m, NotFound)
      else (m, Replayed(previous.jobId))
    else if key in m.starting then
      (m, if m.starting[key].hash != hash then Conflict else Wait)
    else
      var c := Cleaned(m, now, ok);
      if c.storeErr then (c, StoreDown)
      else if |c.jobs| + |c.starting| >= MAX_RETAINED_JOBS then (c, Limit)
      else if c.tokens >= MAX_CONCURRENT_JOBS then (c, Limit)
      else (c.(starting := c.starting[key := Reservation(hash, owner)], tokens := c.tokens + 1), Reserved)
  }

  /** How the launch section ends, from the point where it holds the lock. */
  datatype LaunchEnd =
    | StartingNotSaved
    | ProcessNotStarted(cleared: bool)
    | CommitNotSaved
    | Launched

  function NewJob(key: Key): (j: Job) {
    Job(key, Running, None, None, Appended(EMPTY_WINDOW, "started", "process started"))
  }

  function StartingRecord(id: JobId, key: Key, hash: Hash): (r: Record) {
    Record(id, hash, Job(key, Starting, None, None, EMPTY_WINDOW))
  }

  predicate Holds(m: Manager, key: Key, owner: nat) {
    key in m.starting && m.starting[key].owner == owner
  }

  function WithJob(m: Manager, key: Key, hash: Hash, id: JobId): (m': Manager) {
    m.(jobs := m.jobs[id := NewJob(key)], order := m.order + [id],
       idempotency := m.idempotency[key := Committed(id, hash)])
  }

  /** The launch section of StartExecution, held under the lock from the
      "starting" record to the commit. */
  function LaunchSection(m: Manager, key: Key, hash: Hash, id: JobId, end: LaunchEnd): (m': Manager) {
    var written := Replaced(m, Records(m) + [StartingRecord(id, key, hash)], true);
    match end
    case StartingNotSaved => m.(storeErr := true)
    case ProcessNotStarted(cleared) => Persisted(written, cleared)
    case CommitNotSaved => written.(storeErr := true)
    case Launched =>
      var c := Persisted(WithJob(written, key, hash, id), true);
      c.(starting := c.starting - {key})
  }

  /** The deferred clean-up of a start that did not commit. */
  function Abandoned(m: Manager, key: Key, owner: nat): (m': Manager) {
    if Holds(m, key, owner) then m.(starting := m.starting - {key}) else m
  }

  function TokenReturned(m: Manager): (m': Manager) {
    if m.tokens > 0 then m.(tokens := m.tokens - 1) else m
  }

  // ----- A job's own life -----

  function WithState(j: Job, state: State, exitCode: Option<int>, at: int, text: string): (j': Job)
    requires WindowOk(j.window)
  {
    Job(j.key, state, exitCode, Some(at), Appended(j.window, StateName(state), text))
  }

  function StateName(s: State): (n: string) {
    match s
    case Starting => "starting"
    case Running => "running"
    case Unknown => "unknown"
    case Completed => "completed"
    case Failed => "failed"
    case Canceled => "canceled"
    case Expired => "expired"
    case Interrupted => "interrupted"
    case Unrecognised(name) => name
  }

  /** finish: how the stop reason and the exit of the process decide the state. */
  function FinishedState(stopReason: string, exitedCleanly: bool): (s: State)
    ensures Terminal(s)
  {
    if exitedCleanly then Completed
    else if stopReason == "user" || stopReason == "shutdown" || stopReason == "permission_revoked" then Canceled
    else if stopReason == "timeout" then Expired
    else Failed
  }

  const STOPPED_AFTER_RESTART := "job process was confirmed stopped after Node restart"

  function RecoveredJob(j: Job, at: int): (j': Job)
    requires WindowOk(j.window)
  {
    if j.state == Unknown then WithState(j, Interrupted, j.exitCode, at, STOPPED_AFTER_RESTART) else j
  }

  // ----- Restart -----

  /** The appended note of restart recovery; it is not trimmed. */
  function Noted(j: Job, state: State, text: string): (j': Job)
    requires WindowOk(j.window)
    ensures WindowOk(j'.window)
  {
    j.(state := state, window := Pushed(j.window, StateName(state), text))
  }

  predicate NeedsRecovery(s: State) {
    s.Starting? || s.Running?
  }

  /** One record of the ledger after a restart. */
  function RestoredJob(j: Job, stopped: bool, at: int): (j': Job)
    requires WindowOk(j.window)
    ensures WindowOk(j'.window) && j'.key == j.key
    ensures Terminal(j.state) ==> j' == j
    ensures Terminal(j'.state) || j'.state == Unknown
  {
    if NeedsRecovery(j.state) then
      if stopped then Noted(j, Interrupted, "job interrupted by Node restart").(finishedAt := Some(at))
      else Noted(j, Unknown, "job process state is unknown after Node restart")
    else if j.state.Unrecognised? then Noted(j, Unknown, "job state was not recoverable after Node restart")
    else j
  }

  predicate WindowsOk(records: seq<Record>) {
    forall i :: 0 <= i < |records| ==> WindowOk(records[i].job.window)
  }

  predicate Changes(s: State) {
    NeedsRecovery(s) || s.Unrecognised?
  }

  /** The restore loop; `stopped` holds the jobs whose process was confirmed gone. */
  function RestoreFrom(m: Manager, records: seq<Record>, stopped: set<JobId>, at: int): (m': Manager)
    requires WindowsOk(records)
    decreases |records|
  {
    if records == [] then m
    else
      var r := records[0];
      if r.id == "" || r.job.key == "" then RestoreFrom(m, records[1..], stopped, at)
      else
        var job := RestoredJob(r.job, r.id in stopped, at);
        RestoreFrom(
          m.(jobs := m.jobs[r.id := job], order := m.order + [r.id],
             idempotency := m.idempotency[job.key := Committed(r.id, r.hash)]),
          records[1..], stopped, at)
  }

  predicate AnyChanges(records: seq<Record>) {
    exists i :: 0 <= i < |records| && records[i].id != "" && records[i].job.key != "" && Changes(records[i].job.state)
  }

  function Fresh(storeOpen: bool, storeErr: bool, ledger: seq<Record>): (m: Manager) {
    Manager(map[], [], map[], map[], 0, storeOpen, storeErr, false, ledger)
  }

  /** What opening the store can come to. */
  datatype Opening = NoStore | LoadFailed | Loaded(stopped: set<JobId>, at: int, ok: bool)

  /** NewJobManager over a data directory. */
  function Opened(ledger: seq<Record>, opening: Opening): (m: Manager)
    requires WindowsOk(ledger)
  {
    match opening
    case NoStore => Fresh(false, true, ledger)
    case LoadFailed => Fresh(true, true, ledger)
    case Loaded(stopped, at, ok) =>
      var m := RestoreFrom(Fresh(true, false, ledger), ledger, stopped, at);
      if AnyChanges(ledger) then Persisted(m, ok) else m
  }
}
