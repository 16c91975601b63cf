/** The idempotency ledger of session.create: its records, what each operation makes
    of them, and what a save leaves on the disk. */
module SessionLedger {
  import opened Options
  import opened StateFile

  const MAX_SESSION_CREATE_RECORDS := 4096
  const CHATGPT_CLOUD := "chatgpt_cloud"

  type Key = string
  type Hash = string

  /** Clock readings; the zero time never comes from a clock. */
  type Time = t: int | t != 0 witness 1

  datatype State = Reserved | ThreadCreated | Succeeded | InDoubt | Deleting | Unrecognised(name: string)

  datatype Attempt = Attempt(backend: string, messageId: string, startedAt: int)

  /** A stored result: its session, whether creation was confirmed, and the rest. */
  datatype Result = Result(sessionId: Option<string>, confirmed: bool, details: string)

  datatype Record = Record(hash: Hash, state: State, attempt: Option<Attempt>, result: Option<Result>, updatedAt: int)

  type Records = map<Key, Record>

  // ----- Text -----

  predicate IsSpace(c: char) {
    c in "\t\n\U{0B}\U{0C}\r \U{85}\U{A0}\U{1680}\U{2028}\U{2029}\U{202F}\U{205F}\U{3000}"
    || '\U{2000}' <= c <= '\U{200A}'
  }

  function TrimLeft(s: string): (r: string) {
    if s != "" && IsSpace(s[0]) then TrimLeft(s[1..]) else s
  }

  function TrimRight(s: string): (r: string) {
    if s != "" && IsSpace(s[|s| - 1]) then TrimRight(s[..|s| - 1]) else s
  }

  function Trim(s: string): (r: string) {
    TrimRight(TrimLeft(s))
  }

  function CharBytes(c: char): (n: nat) {
    if c < '\U{80}' then 1 else if c < '\U{800}' then 2 else if c < '\U{10000}' then 3 else 4
  }

  /** The length of a text in UTF-8. */
  function ByteLength(s: string): (n: nat) {
    if s == "" then 0 else CharBytes(s[0]) + ByteLength(s[1..])
  }

  predicate SafeText(s: string, limit: nat) {
    ByteLength(s) <= limit && '\0' !in s && '\r' !in s && '\n' !in s
  }

  predicate IsDigest(h: string) {
    |h| == 64 && forall i :: 0 <= i < |h| ==> '0' <= h[i] <= '9' || 'a' <= h[i] <= 'f'
  }

  // ----- Records -----

  predicate ValidAttempt(a: Attempt) {
    a.backend == CHATGPT_CLOUD && Trim(a.messageId) != "" && SafeText(a.messageId, 128) && a.startedAt != 0
  }

  predicate ValidSession(id: Option<string>) {
    id.Some? && Trim(id.value) != "" && SafeText(id.value, 256)
  }

  /** validateSessionCreateRecord. */
  predicate ValidRecord(key: Key, r: Record) {
    && key != "" && SafeText(key, 160)
    && IsDigest(r.hash)
    && r.updatedAt != 0
    && (r.attempt.Some? ==> ValidAttempt(r.attempt.value))
    && (r.result.Some? ==> ValidSession(r.result.value.sessionId))
    && match r.state
       case Reserved => r.result.None?
       case ThreadCreated | Succeeded | Deleting => r.result.Some?
       case InDoubt => true
       case Unrecognised(_) => false
  }

  predicate RecordsOk(records: Records) {
    |records| <= MAX_SESSION_CREATE_RECORDS && forall k :: k in records ==> ValidRecord(k, records[k])
  }

  predicate Transitional(s: State) {
    s.Reserved? || s.ThreadCreated?
  }

  function MarkedState(s: State): (s': State) {
    if Transitional(s) then InDoubt else s
  }

  function MarkedRecord(r: Record, now: Time): (r': Record) {
    if Transitional(r.state) then r.(state := InDoubt, updatedAt := now) else r
  }

  /** markInterruptedSessionCreateRecords. */
  function Marked(records: Records, now: Time): (marked: Records) {
    map k | k in records :: MarkedRecord(records[k], now)
  }

  // ----- Saving -----

  /** The store in memory, the file it sees, and the versions of that file that a
      power loss may bring back. */
  datatype Ledger = Ledger(records: Records, visible: Records, versions: set<Records>, broken: bool)

  /** saveLocked. */
  function Saved(l: Ledger, save: Save, now: Time): (l': Ledger) {
    match save
    case NotCommitted => l
    case Unsynced => l.(records := Marked(l.records, now), visible := l.records, versions := l.versions + {l.records})
    case Synced => l.(visible := l.records, versions := {l.records})
  }

  /** Save changed records; if nothing was installed, take the change back. */
  function SavedOrTakenBack(l: Ledger, records: Records, save: Save, now: Time): (l': Ledger) {
    if save.NotCommitted? then l else Saved(l.(records := records), save, now)
  }

  // ----- Operations -----

  datatype Begun =
    | Proceed | Replay(result: Option<Result>)
    | BeginUnavailable | BeginInvalid | BeginConflict | BeginInProgress | BeginInDoubt | BeginFull | BeginNotSaved

  function NewReservation(hash: Hash, now: Time): (r: Record) {
    Record(hash, Reserved, None, None, now)
  }

  predicate Confirmed(r: Record) {
    r.result.Some? && r.result.value.confirmed
    && r.result.value.sessionId.Some? && Trim(r.result.value.sessionId.value) != ""
  }

  function Answer(r: Record): (b: Begun) {
    match r.state
    case Succeeded => Replay(r.result)
    case ThreadCreated | InDoubt => if Confirmed(r) then Replay(r.result) else BeginInDoubt
    case Reserved => BeginInProgress
    case _ => BeginInDoubt
  }

  function Begin(l: Ledger, key: Key, hash: Hash, legacy: seq<Hash>, save: Save, now: Time): (r: (Ledger, Begun)) {
    if l.broken then (l, BeginUnavailable)
    else if !ValidRecord(key, NewReservation(hash, now)) then (l, BeginInvalid)
    else if key in l.records then
      var current := l.records[key];
      if current.hash == hash then (l, Answer(current))
      else if current.hash == "" || current.hash !in legacy then (l, BeginConflict)
      else
        var l' := SavedOrTakenBack(l, l.records[key := current.(hash := hash, updatedAt := now)], save, now);
        (l', if save.Synced? then Answer(current) else BeginNotSaved)
    else if |l.records| >= MAX_SESSION_CREATE_RECORDS then (l, BeginFull)
    else
      var l' := SavedOrTakenBack(l, l.records[key := NewReservation(hash, now)], save, now);
      (l', if save.Synced? then Proceed else BeginNotSaved)
  }

  datatype Outcome = Done | Nothing | Unavailable | Missing | Conflict | Invalid | NotSaved

  function SaveOutcome(save: Save): (o: Outcome) {
    if save.Synced? then Done else NotSaved
  }

  function SetAttempt(l: Ledger, key: Key, attempt: Attempt, save: Save, now: Time): (r: (Ledger, Outcome)) {
    if l.broken then (l, Unavailable)
    else if key !in l.records || !l.records[key].state.Reserved? then (l, Missing)
    else
      var record := l.records[key];
      if record.attempt.Some? then (l, if record.attempt.value == attempt then Done else Conflict)
      else
        var changed := record.(attempt := Some(attempt), updatedAt := now);
        if !ValidRecord(key, changed) then (l, Invalid)
        else (SavedOrTakenBack(l, l.records[key := changed], save, now), SaveOutcome(save))
  }

  function Changed(r: Record, state: State, result: Option<Result>, now: Time): (r': Record) {
    r.(state := state, result := result, updatedAt := now)
  }

  /** An update to "in_doubt" stays in memory even when it could not be written. */
  function Update(l: Ledger, key: Key, state: State, result: Option<Result>, save: Save, now: Time): (r: (Ledger, Outcome)) {
    if l.broken then (l, Unavailable)
    else if key !in l.records then (l, Missing)
    else
      var changed := Changed(l.records[key], state, result, now);
      if !ValidRecord(key, changed) then (l, Invalid)
      else if save.NotCommitted? && state.InDoubt? then (l.(records := l.records[key := changed]), NotSaved)
      else (SavedOrTakenBack(l, l.records[key := changed], save, now), SaveOutcome(save))
  }

  function Abort(l: Ledger, key: Key, save: Save, now: Time): (r: (Ledger, Outcome)) {
    if l.broken then (l, Unavailable)
    else if key !in l.records then (l, Nothing)
    else if !l.records[key].state.Reserved? then (l, Conflict)
    else (SavedOrTakenBack(l, l.records - {key}, save, now), SaveOutcome(save))
  }

  function ReleaseUnresolved(l: Ledger, key: Key, save: Save, now: Time): (r: (Ledger, Outcome)) {
    if l.broken then (l, Unavailable)
    else if key !in l.records then (l, Nothing)
    else if !l.records[key].state.InDoubt? || l.records[key].result.Some? then (l, Conflict)
    else (SavedOrTakenBack(l, l.records - {key}, save, now), SaveOutcome(save))
  }

  /** A missing session reads as the empty string. */
  function SessionOf(r: Record): (id: string) {
    if r.result.Some? && r.result.value.sessionId.Some? then r.result.value.sessionId.value else ""
  }

  function Doomed(r: Record, session: string, now: Time): (r': Record) {
    if SessionOf(r) == session && !r.state.Deleting? then r.(state := Deleting, updatedAt := now) else r
  }

  function AllDoomed(records: Records, session: string, now: Time): (records': Records) {
    map k | k in records :: Doomed(records[k], session, now)
  }

  predicate IsDoomed(r: Record, session: string) {
    SessionOf(r) == session && r.state.Deleting?
  }

  predicate AnyToDoom(records: Records, session: string) {
    exists k :: k in records && SessionOf(records[k]) == session && !records[k].state.Deleting?
  }

  predicate AnyDoomed(records: Records, session: string) {
    exists k :: k in records && IsDoomed(records[k], session)
  }

  function PrepareDelete(l: Ledger, raw: string, save: Save, now: Time): (r: (Ledger, Outcome)) {
    var session := Trim(raw);
    if session == "" then (l, Nothing)
    else if l.broken then (l, Unavailable)
    else if !AnyToDoom(l.records, session) then (l, if AnyDoomed(l.records, session) then Done else Nothing)
    else (SavedOrTakenBack(l, AllDoomed(l.records, session, now), save, now), SaveOutcome(save))
  }

  function WithoutDoomed(records: Records, session: string): (records': Records) {
    map k | k in records && !IsDoomed(records[k], session) :: records[k]
  }

  function FinalizeDelete(l: Ledger, raw: string, save: Save, now: Time): (r: (Ledger, Outcome)) {
    var session := Trim(raw);
    if session == "" then (l, Nothing)
    else if l.broken then (l, Unavailable)
    else if !AnyDoomed(l.records, session) then (l, Nothing)
    else (SavedOrTakenBack(l, WithoutDoomed(l.records, session), save, now), SaveOutcome(save))
  }

  // ----- Opening -----

  /** newSessionCreateStore over a file with these records; `readable` says whether
      reading and decoding it succeeded. */
  function Opened(visible: Records, versions: set<Records>, readable: bool, now: Time): (l: Ledger) {
    if readable && RecordsOk(visible) then Ledger(Marked(visible, now), visible, versions, false)
    else Ledger(map[], visible, versions, true)
  }
}
