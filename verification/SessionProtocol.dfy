/** Whole runs of session.create, session.delete and the operator's release over one
    ledger: any number of calls at once, a provider that may answer anything, saves
    that may fail in either way, process crashes and power losses at any point. */
module SessionProtocol {
  import opened Options
  import opened SessionLedger
  import opened StateFile
  import opened SessionLedgerTheorems

  type Session = string

  datatype Provider = Codex | Claude

  /** The steps of deleting a session: mark its records, delete it at the provider,
      drop its records. */
  datatype Stage = Preparing | Erasing | Finalizing

  /** How far a session.create call has come after its key was reserved. */
  datatype Phase =
    | Unsent
    | Sent
    | Rejected
    | Vague
    | Made(session: Session)
    | Recording(session: Session)
    | Turning(session: Session)
    | Completing(session: Session)
    | Doubtful(session: Session)
    | Cleaning(session: Session, stage: Stage)

  datatype Call = Call(key: Key, provider: Provider, phase: Phase)

  datatype Deletion = Deletion(session: Session, stage: Stage)

  /** `made` holds the sessions the provider has created for a key; `issued` the keys
      with a create issued since the key was last freed. */
  datatype System = System(
    up: bool, ledger: Ledger, calls: map<nat, Call>, deletions: map<nat, Deletion>,
    made: map<Session, Key>, issued: set<Key>)

  /** What the provider answers to the creation of a session. */
  datatype Reply = Refused | Unclear | NoSession | NewSession(session: Session)

  /** What Codex answers to the first turn of a new session; a call that asks for no turn
      goes on as if it had been accepted. */
  datatype TurnReply = TurnAccepted | TurnRefused | TurnUnclear

  datatype Step =
    | BeginCreate(call: nat, provider: Provider, key: Key, hash: Hash, legacy: seq<Hash>, save: Save, now: Time)
    | SendCreate(call: nat)
    | ReceiveReply(call: nat, reply: Reply)
    | AbortCreate(call: nat, save: Save, now: Time)
    | PutInDoubt(call: nat, save: Save, now: Time)
    | SaveVisibility(call: nat, ok: bool)
    | RecordThread(call: nat, save: Save, now: Time)
    | FirstTurn(call: nat, answer: TurnReply)
    | Complete(call: nat, details: string, save: Save, now: Time)
    | CleanPrepare(call: nat, save: Save, now: Time)
    | CleanErase(call: nat, ok: bool)
    | CleanFinalize(call: nat, save: Save, now: Time)
    | StartDelete(deletion: nat, session: Session)
    | DeletePrepare(deletion: nat, save: Save, now: Time)
    | DeleteErase(deletion: nat, ok: bool)
    | DeleteFinalize(deletion: nat, save: Save, now: Time)
    | Release(key: Key, save: Save, now: Time)
    | ProcessCrash
    | PowerLoss(version: Records)
    | Restart(readable: bool, now: Time)

  /** A data directory without an index, and no process. */
  function Initial(): (s: System) {
    System(false, Ledger(map[], map[], {map[]}, true), map[], map[], map[], {})
  }

  predicate At(s: System, call: nat, phase: Phase) {
    s.up && call in s.calls && s.calls[call].phase == phase
  }

  predicate InCall(s: System, call: nat) {
    s.up && call in s.calls
  }

  predicate DeletionAt(s: System, deletion: nat, stage: Stage) {
    s.up && deletion in s.deletions && s.deletions[deletion].stage == stage
  }

  predicate Enabled(s: System, step: Step) {
    match step
    case BeginCreate(call, _, _, _, _, _, _) => s.up && call !in s.calls
    case SendCreate(call) => At(s, call, Unsent)
    case ReceiveReply(call, reply) =>
      At(s, call, Sent) && (reply.Unclear? ==> s.calls[call].provider.Codex?)
      && (reply.NewSession? ==> reply.session != "" && reply.session !in s.made)
    case AbortCreate(call, _, _) => At(s, call, Rejected)
    case PutInDoubt(call, _, _) => InCall(s, call) && (s.calls[call].phase.Vague? || s.calls[call].phase.Doubtful?)
    case SaveVisibility(call, _) => InCall(s, call) && s.calls[call].phase.Made?
    case RecordThread(call, _, _) => InCall(s, call) && s.calls[call].phase.Recording?
    case FirstTurn(call, _) => InCall(s, call) && s.calls[call].phase.Turning?
    case Complete(call, _, _, _) => InCall(s, call) && s.calls[call].phase.Completing?
    case CleanPrepare(call, _, _) => InCleaning(s, call, Preparing)
    case CleanErase(call, _) => InCleaning(s, call, Erasing)
    case CleanFinalize(call, _, _) => InCleaning(s, call, Finalizing)
    case StartDelete(deletion, session) => s.up && deletion !in s.deletions && Trim(session) != ""
    case DeletePrepare(deletion, _, _) => DeletionAt(s, deletion, Preparing)
    case DeleteErase(deletion, _) => DeletionAt(s, deletion, Erasing)
    case DeleteFinalize(deletion, _, _) => DeletionAt(s, deletion, Finalizing)
    case Release(_, _, _) => s.up
    case ProcessCrash => s.up
    case PowerLoss(version) => version in s.ledger.versions
    case Restart(_, _) => !s.up
  }

  predicate InCleaning(s: System, call: nat, stage: Stage) {
    InCall(s, call) && s.calls[call].phase.Cleaning? && s.calls[call].phase.stage == stage
  }

  function Known(session: Session, details: string): (r: Option<Result>) {
    Some(Result(Some(session), false, details))
  }

  /** What a step does to the ledger. */
  datatype Effect = NoEffect | Operation(op: Op, save: Save, now: Time)

  function EffectOf(s: System, step: Step): (e: Effect)
    requires Enabled(s, step)
  {
    match step
    case BeginCreate(_, _, key, hash, legacy, save, now) => Operation(DoBegin(key, hash, legacy), save, now)
    case AbortCreate(call, save, now) => Operation(DoAbort(s.calls[call].key), save, now)
    case PutInDoubt(call, save, now) =>
      var c := s.calls[call];
      Operation(DoUpdate(c.key, InDoubt, if c.phase.Vague? then None else Known(c.phase.session, "")), save, now)
    case RecordThread(call, save, now) =>
      var c := s.calls[call];
      Operation(DoUpdate(c.key, ThreadCreated, Known(c.phase.session, "")), save, now)
    case Complete(call, details, save, now) =>
      var c := s.calls[call];
      Operation(DoUpdate(c.key, Succeeded, Known(c.phase.session, details)), save, now)
    case CleanPrepare(call, save, now) => Operation(DoPrepareDelete(s.calls[call].phase.session), save, now)
    case CleanFinalize(call, save, now) => Operation(DoFinalizeDelete(s.calls[call].phase.session), save, now)
    case DeletePrepare(deletion, save, now) => Operation(DoPrepareDelete(s.deletions[deletion].session), save, now)
    case DeleteFinalize(deletion, save, now) => Operation(DoFinalizeDelete(s.deletions[deletion].session), save, now)
    case Release(key, save, now) => Operation(DoRelease(key), save, now)
    case _ => NoEffect
  }

  function LedgerAfter(s: System, step: Step): (l: Ledger)
    requires Enabled(s, step)
  {
    match step
    case PowerLoss(version) => s.ledger.(visible := version, versions := {version})
    case Restart(readable, now) => Opened(s.ledger.visible, s.ledger.versions, readable, now)
    case _ =>
      match EffectOf(s, step)
      case NoEffect => s.ledger
      case Operation(op, save, now) => SessionLedgerTheorems.Apply(s.ledger, op, save, now)
  }

  /** The answer to a create call, and whether it ends there. */
  function AfterReply(c: Call, reply: Reply): (p: Option<Phase>) {
    match reply
    case Refused => Some(Rejected)
    case Unclear => Some(Vague)
    case NoSession => if c.provider.Codex? then Some(Vague) else None
    case NewSession(session) => Some(Made(session))
  }

  function AfterTurn(session: Session, answer: TurnReply): (p: Phase) {
    match answer
    case TurnAccepted => Completing(session)
    case TurnRefused => Cleaning(session, Preparing)
    case TurnUnclear => Doubtful(session)
  }

  predicate Went(o: Outcome) {
    o.Done? || o.Nothing?
  }

  /** The phase a call goes on to, if it goes on. */
  function NextPhase(s: System, call: nat, step: Step): (p: Option<Phase>)
    requires Enabled(s, step) && call in s.calls
  {
    var c := s.calls[call];
    match step
    case SendCreate(_) => Some(Sent)
    case ReceiveReply(_, reply) => AfterReply(c, reply)
    case SaveVisibility(_, ok) =>
      if !c.phase.Made? then None
      else if !ok then Some(Doubtful(c.phase.session))
      else if c.provider.Codex? then Some(Recording(c.phase.session))
      else Some(Completing(c.phase.session))
    case RecordThread(_, save, now) =>
      if c.phase.Recording?
         && Update(s.ledger, c.key, ThreadCreated, Known(c.phase.session, ""), save, now).1.Done?
      then Some(Turning(c.phase.session)) else None
    case FirstTurn(_, answer) => if c.phase.Turning? then Some(AfterTurn(c.phase.session, answer)) else None
    case CleanPrepare(_, save, now) =>
      if c.phase.Cleaning? && Went(PrepareDelete(s.ledger, c.phase.session, save, now).1)
      then Some(Cleaning(c.phase.session, Erasing)) else None
    case CleanErase(_, ok) => if c.phase.Cleaning? && ok then Some(Cleaning(c.phase.session, Finalizing)) else None
    case _ => None
  }

  function Advance(calls: map<nat, Call>, call: nat, p: Option<Phase>): (calls': map<nat, Call>)
    requires call in calls
  {
    if p.Some? then calls[call := calls[call].(phase := p.value)] else calls - {call}
  }

  function CallsAfter(s: System, step: Step): (calls: map<nat, Call>)
    requires Enabled(s, step)
  {
    match step
    case BeginCreate(call, provider, key, hash, legacy, save, now) =>
      if Begin(s.ledger, key, hash, legacy, save, now).1.Proceed? then s.calls[call := Call(key, provider, Unsent)]
      else s.calls
    case SendCreate(call) => Advance(s.calls, call, NextPhase(s, call, step))
    case ReceiveReply(call, _) => Advance(s.calls, call, NextPhase(s, call, step))
    case AbortCreate(call, _, _) => Advance(s.calls, call, None)
    case PutInDoubt(call, _, _) => Advance(s.calls, call, None)
    case SaveVisibility(call, _) => Advance(s.calls, call, NextPhase(s, call, step))
    case RecordThread(call, _, _) => Advance(s.calls, call, NextPhase(s, call, step))
    case FirstTurn(call, _) => Advance(s.calls, call, NextPhase(s, call, step))
    case Complete(call, _, _, _) => Advance(s.calls, call, None)
    case CleanPrepare(call, _, _) => Advance(s.calls, call, NextPhase(s, call, step))
    case CleanErase(call, _) => Advance(s.calls, call, NextPhase(s, call, step))
    case CleanFinalize(call, _, _) => Advance(s.calls, call, None)
    case ProcessCrash => map[]
    case PowerLoss(_) => map[]
    case Restart(_, _) => map[]
    case _ => s.calls
  }

  function DeletionsAfter(s: System, step: Step): (deletions: map<nat, Deletion>)
    requires Enabled(s, step)
  {
    match step
    case StartDelete(d, session) => s.deletions[d := Deletion(Trim(session), Preparing)]
    case DeletePrepare(d, save, now) =>
      if Went(PrepareDelete(s.ledger, s.deletions[d].session, save, now).1)
      then s.deletions[d := s.deletions[d].(stage := Erasing)] else s.deletions - {d}
    case DeleteErase(d, ok) =>
      if ok then s.deletions[d := s.deletions[d].(stage := Finalizing)] else s.deletions - {d}
    case DeleteFinalize(d, _, _) => s.deletions - {d}
    case ProcessCrash => map[]
    case PowerLoss(_) => map[]
    case Restart(_, _) => map[]
    case _ => s.deletions
  }

  predicate FreeingStep(step: Step) {
    step.AbortCreate? || step.CleanFinalize? || step.DeleteFinalize? || step.Release?
  }

  /** The step frees the key: it drops the key's record from memory. */
  predicate Frees(s: System, step: Step, k: Key)
    requires Enabled(s, step)
  {
    FreeingStep(step) && k in s.ledger.records && k !in LedgerAfter(s, step).records
  }

  function IssuedAfter(s: System, step: Step): (issued: set<Key>)
    requires Enabled(s, step)
  {
    if step.SendCreate? then s.issued + {s.calls[step.call].key}
    else set k | k in s.issued && !Frees(s, step, k)
  }

  function MadeAfter(s: System, step: Step): (made: map<Session, Key>)
    requires Enabled(s, step)
  {
    if step.ReceiveReply? && step.reply.NewSession? then s.made[step.reply.session := s.calls[step.call].key] else s.made
  }

  function UpAfter(s: System, step: Step): (up: bool) {
    match step
    case ProcessCrash => false
    case PowerLoss(_) => false
    case Restart(_, _) => true
    case _ => s.up
  }

  function Apply(s: System, step: Step): (t: System)
    requires Enabled(s, step)
  {
    System(UpAfter(s, step), LedgerAfter(s, step), CallsAfter(s, step), DeletionsAfter(s, step),
           MadeAfter(s, step), IssuedAfter(s, step))
  }

  /** A run from any state. */
  ghost predicate Runs(states: seq<System>, steps: seq<Step>) {
    && |states| == |steps| + 1
    && (forall i :: 0 <= i < |steps| ==> Enabled(states[i], steps[i]) && states[i + 1] == Apply(states[i], steps[i]))
  }

  /** A run from an unused data directory. */
  ghost predicate IsRun(states: seq<System>, steps: seq<Step>) {
    && |states| == |steps| + 1 && states[0] == Initial()
    && (forall i :: 0 <= i < |steps| ==> Enabled(states[i], steps[i]) && states[i + 1] == Apply(states[i], steps[i]))
  }
}
