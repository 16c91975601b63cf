/** What holds in every run, and what more holds in a quiet one: a run in which a
    record is released or deleted only while no other call works on its key. */
module SessionQuiet {
  import opened Options
  import opened SessionLedger
  import opened StateFile
  import opened SessionLedgerTheorems
  import opened SessionProtocol
  import opened SessionTheorems

  // ----- Every run: files load, and a stored session was made for its key -----

  ghost predicate OwnSessions(made: map<Session, Key>, records: Records) {
    forall k :: k in records && SessionOf(records[k]) != "" ==>
      SessionOf(records[k]) in made && made[SessionOf(records[k])] == k
  }

  predicate HasSession(p: Phase) {
    p.Made? || p.Recording? || p.Turning? || p.Completing? || p.Doubtful? || p.Cleaning?
  }

  ghost predicate CallsOwn(made: map<Session, Key>, calls: map<nat, Call>) {
    forall c :: c in calls && HasSession(calls[c].phase) ==>
      calls[c].phase.session in made && made[calls[c].phase.session] == calls[c].key
  }

  ghost predicate LedgerOwns(made: map<Session, Key>, l: Ledger) {
    && (!l.broken ==> OwnSessions(made, l.records))
    && (forall v :: v in l.versions ==> OwnSessions(made, v))
  }

  ghost predicate Safe(s: System) {
    LedgerOk(s.ledger) && LedgerOwns(s.made, s.ledger) && CallsOwn(s.made, s.calls)
  }

  lemma MarkedOwns(made: map<Session, Key>, records: Records, now: Time)
    requires OwnSessions(made, records)
    ensures OwnSessions(made, Marked(records, now))
  {
  }

  /** The session an update stores is its call's own. */
  ghost predicate StoresOwn(made: map<Session, Key>, op: Op) {
    op.DoUpdate? && op.result.Some? && op.result.value.sessionId.Some? && op.result.value.sessionId.value != "" ==>
      op.result.value.sessionId.value in made && made[op.result.value.sessionId.value] == op.key
  }

  lemma ProposedOwns(made: map<Session, Key>, l: Ledger, op: Op, now: Time)
    requires OwnSessions(made, l.records) && StoresOwn(made, op)
    ensures OwnSessions(made, Proposed(l, op, now))
  {
    hide Trim;
  }

  lemma OperationOwns(made: map<Session, Key>, l: Ledger, op: Op, save: Save, now: Time)
    requires LedgerOwns(made, l) && StoresOwn(made, op)
    ensures LedgerOwns(made, SessionLedgerTheorems.Apply(l, op, save, now))
  {
    hide SessionLedgerTheorems.Apply, OwnSessions, Proposed, Proposes, Marked, StoresOwn;
    OperationShape(l, op, save, now);
    if !l.broken {
      ProposedOwns(made, l, op, now);
      MarkedOwns(made, Proposed(l, op, now), now);
    }
  }

  lemma EffectStoresOwn(s: System, step: Step)
    requires Enabled(s, step) && CallsOwn(s.made, s.calls) && EffectOf(s, step).Operation?
    ensures StoresOwn(s.made, EffectOf(s, step).op)
  {
  }

  lemma MoreMade(made: map<Session, Key>, session: Session, k: Key, l: Ledger, calls: map<nat, Call>)
    requires session !in made
    ensures LedgerOwns(made, l) ==> LedgerOwns(made[session := k], l)
    ensures CallsOwn(made, calls) ==> CallsOwn(made[session := k], calls)
  {
  }

  lemma CallsOwnStays(s: System, step: Step)
    requires Enabled(s, step) && CallsOwn(s.made, s.calls)
    ensures CallsOwn(MadeAfter(s, step), CallsAfter(s, step))
  {
    hide Begin, Update, PrepareDelete;
    forall c | c in CallsAfter(s, step) && HasSession(CallsAfter(s, step)[c].phase)
      ensures var p := CallsAfter(s, step)[c];
              p.phase.session in MadeAfter(s, step) && MadeAfter(s, step)[p.phase.session] == p.key
    {
    }
  }

  lemma LedgerStaysOk(s: System, step: Step)
    requires LedgerOk(s.ledger) && Enabled(s, step)
    ensures LedgerOk(LedgerAfter(s, step))
  {
    hide SessionLedgerTheorems.Apply, RecordsOk, Marked, EffectOf;
    if step.Restart? {
      MarkedIsOk(s.ledger.visible, step.now);
    } else if !step.PowerLoss? && EffectOf(s, step).Operation? {
      var e := EffectOf(s, step);
      FilesStayLoadable(s.ledger, e.op, e.save, e.now);
    }
  }

  lemma LedgerStaysOwn(s: System, step: Step)
    requires Safe(s) && Enabled(s, step)
    ensures LedgerOwns(s.made, LedgerAfter(s, step))
  {
    hide SessionLedgerTheorems.Apply, RecordsOk, Marked, OwnSessions, EffectOf;
    if step.Restart? {
      MarkedOwns(s.made, s.ledger.visible, step.now);
    } else if !step.PowerLoss? && EffectOf(s, step).Operation? {
      var e := EffectOf(s, step);
      EffectStoresOwn(s, step);
      OperationOwns(s.made, s.ledger, e.op, e.save, e.now);
    }
  }

  lemma SafeStays(s: System, step: Step)
    requires Safe(s) && Enabled(s, step)
    ensures Safe(SessionProtocol.Apply(s, step))
  {
    hide LedgerAfter, CallsAfter, DeletionsAfter, IssuedAfter, LedgerOk, LedgerOwns, CallsOwn;
    LedgerStaysOk(s, step);
    LedgerStaysOwn(s, step);
    CallsOwnStays(s, step);
    if step.ReceiveReply? && step.reply.NewSession? {
      MoreMade(s.made, step.reply.session, s.calls[step.call].key, LedgerAfter(s, step), s.calls);
    }
  }

  lemma NothingIsSafe()
    ensures Safe(Initial())
  {
  }

  lemma {:induction false} SafeInRun(states: seq<System>, steps: seq<Step>, n: nat)
    requires IsRun(states, steps) && n <= |steps|
    ensures Safe(states[n])
  {
    hide Safe, Enabled, SessionProtocol.Apply, Initial;
    if n == 0 {
      NothingIsSafe();
    } else {
      SafeInRun(states, steps, n - 1);
      assert Enabled(states[n - 1], steps[n - 1]);
      SafeStays(states[n - 1], steps[n - 1]);
    }
  }

  /** In every run the store can load whatever file a crash leaves: a start fails only
      when the file cannot be read or decoded. */
  lemma EveryFileLoads(states: seq<System>, steps: seq<Step>, n: nat, readable: bool, now: Time)
    requires IsRun(states, steps) && n <= |steps|
    ensures forall v :: v in states[n].ledger.versions ==> !Opened(v, {v}, true, now).broken
    ensures Opened(states[n].ledger.visible, states[n].ledger.versions, readable, now).broken <==> !readable
  {
    hide RecordsOk, OwnSessions, CallsOwn;
    SafeInRun(states, steps, n);
  }

  /** A replayed result names a session that the provider made for that very key. */
  lemma ReplaysOwnSession(states: seq<System>, steps: seq<Step>, n: nat,
                          k: Key, hash: Hash, legacy: seq<Hash>, save: Save, now: Time)
    requires IsRun(states, steps) && n <= |steps|
    requires var b := Begin(states[n].ledger, k, hash, legacy, save, now).1;
             b.Replay? && b.result.Some? && b.result.value.sessionId.Some? && b.result.value.sessionId.value != ""
    ensures var session := Begin(states[n].ledger, k, hash, legacy, save, now).1.result.value.sessionId.value;
            session in states[n].made && states[n].made[session] == k
  {
    hide RecordsOk, ValidRecord, CallsOwn, SavedOrTakenBack, Trim;
    SafeInRun(states, steps, n);
  }

  // ----- Quiet runs -----

  ghost predicate NoOtherCall(s: System, session: Session, self: Option<nat>) {
    forall c :: c in s.calls && Some(c) != self && s.calls[c].key in s.ledger.records ==>
      SessionOf(s.ledger.records[s.calls[c].key]) != Trim(session)
  }

  /** Releases and deletions touch only keys that no other call works on. */
  ghost predicate Quiet(s: System, step: Step)
    requires Enabled(s, step)
  {
    match step
    case Release(key, _, _) => forall c :: c in s.calls ==> s.calls[c].key != key
    case CleanPrepare(call, _, _) => NoOtherCall(s, s.calls[call].phase.session, Some(call))
    case CleanFinalize(call, _, _) => NoOtherCall(s, s.calls[call].phase.session, Some(call))
    case DeletePrepare(d, _, _) => NoOtherCall(s, s.deletions[d].session, None)
    case DeleteFinalize(d, _, _) => NoOtherCall(s, s.deletions[d].session, None)
    case _ => true
  }

  predicate Fresh(r: Record) {
    (r.state.Reserved? || r.state.InDoubt?) && r.result.None?
  }

  predicate Recorded(r: Record, session: Session) {
    (r.state.ThreadCreated? || r.state.InDoubt?) && SessionOf(r) == session
  }

  /** What the record of a call's key can be at each phase. */
  predicate Matches(p: Phase, r: Record) {
    match p
    case Turning(session) => Recorded(r, session)
    case Completing(session) => Fresh(r) || Recorded(r, session)
    case Doubtful(session) => Fresh(r) || Recorded(r, session)
    case Cleaning(session, _) => Recorded(r, session) || (r.state.Deleting? && SessionOf(r) == session)
    case _ => Fresh(r)
  }

  ghost predicate Orderly(s: System) {
    && (forall c :: c in s.calls ==>
          && s.up && !s.ledger.broken && s.calls[c].key in s.ledger.records
          && Matches(s.calls[c].phase, s.ledger.records[s.calls[c].key]))
    && (forall c, d :: c in s.calls && d in s.calls && c != d ==> s.calls[c].key != s.calls[d].key)
    && (s.up ==> Agrees(s.ledger))
  }

  /** The operation may change the record of the key, beyond its hash and attempt. */
  predicate Touches(l: Ledger, op: Op, k: Key)
    requires k in l.records
  {
    match op
    case DoUpdate(key, _, _) => key == k
    case DoAbort(key) => key == k
    case DoRelease(key) => key == k
    case DoPrepareDelete(session) => SessionOf(l.records[k]) == Trim(session)
    case DoFinalizeDelete(session) => SessionOf(l.records[k]) == Trim(session)
    case _ => false
  }

  predicate SameOrMarked(r: Record, r': Record) {
    r'.result == r.result && (r'.state == r.state || r'.state == MarkedState(r.state))
  }

  lemma UntouchedRecord(l: Ledger, op: Op, save: Save, now: Time, k: Key)
    requires k in l.records && !Touches(l, op, k)
    ensures k in SessionLedgerTheorems.Apply(l, op, save, now).records
    ensures SameOrMarked(l.records[k], SessionLedgerTheorems.Apply(l, op, save, now).records[k])
  {
    hide SessionLedgerTheorems.Apply, Proposes, KeptUnwritten, Proposed, Touches;
    OperationShape(l, op, save, now);
    UntouchedProposal(l, op, now, k);
  }

  lemma UntouchedProposal(l: Ledger, op: Op, now: Time, k: Key)
    requires k in l.records && !Touches(l, op, k)
    ensures k in Proposed(l, op, now)
    ensures Proposed(l, op, now)[k].result == l.records[k].result && Proposed(l, op, now)[k].state == l.records[k].state
  {
    hide Trim;
  }

  lemma MarkedStillMatches(p: Phase, r: Record, r': Record)
    requires Matches(p, r) && SameOrMarked(r, r')
    ensures Matches(p, r')
  {
  }

  lemma NothingIsOrderly()
    ensures Orderly(Initial())
  {
  }

  /** In a quiet step an operation touches the key of no call but its own. */
  lemma QuietTouches(s: System, step: Step, c: nat)
    requires Orderly(s) && Enabled(s, step) && Quiet(s, step) && EffectOf(s, step).Operation? && c in s.calls
    requires Touches(s.ledger, EffectOf(s, step).op, s.calls[c].key)
    ensures !step.BeginCreate? && !step.Release? && !step.DeletePrepare? && !step.DeleteFinalize? && step.call == c
  {
    hide Agrees, Matches, Trim;
  }

  lemma OwnStepMatches(s: System, step: Step, c: nat)
    requires Orderly(s) && Enabled(s, step) && Quiet(s, step) && EffectOf(s, step).Operation?
    requires c in s.calls && c in CallsAfter(s, step)
    requires step.RecordThread? || step.CleanPrepare?
    requires step.call == c
    ensures var t := SessionProtocol.Apply(s, step);
            var k := s.calls[c].key;
            t.calls[c].key == k && k in t.ledger.records && Matches(t.calls[c].phase, t.ledger.records[k])
  {
    hide Agrees, IssuedAfter, DeletionsAfter, MadeAfter, Matches;
    if step.CleanPrepare? {
      PreparingMatches(s, step, c);
    } else {
      RecordingMatches(s, step, c);
    }
  }

  lemma RecordingMatches(s: System, step: Step, c: nat)
    requires Enabled(s, step) && step.RecordThread? && step.call == c && c in CallsAfter(s, step)
    requires s.calls[c].key in s.ledger.records && !s.ledger.broken
    ensures var k := s.calls[c].key;
            CallsAfter(s, step)[c].key == k && k in LedgerAfter(s, step).records
            && Matches(CallsAfter(s, step)[c].phase, LedgerAfter(s, step).records[k])
  {
    hide Trim, ValidRecord;
  }

  lemma PreparingMatches(s: System, step: Step, c: nat)
    requires Enabled(s, step) && step.CleanPrepare? && step.call == c && c in CallsAfter(s, step)
    requires s.calls[c].key in s.ledger.records && !s.ledger.broken
    requires Matches(s.calls[c].phase, s.ledger.records[s.calls[c].key])
    ensures var k := s.calls[c].key;
            CallsAfter(s, step)[c].key == k && k in LedgerAfter(s, step).records
            && Matches(CallsAfter(s, step)[c].phase, LedgerAfter(s, step).records[k])
  {
    hide Trim, PrepareDelete;
    PreparedRecord(s.ledger, s.calls[c].phase.session, step.save, step.now, s.calls[c].key);
  }

  lemma PreparedRecord(l: Ledger, session: Session, save: Save, now: Time, k: Key)
    requires k in l.records && !l.broken && Went(PrepareDelete(l, session, save, now).1)
    ensures var l' := PrepareDelete(l, session, save, now).0;
            k in l'.records && SessionOf(l'.records[k]) == SessionOf(l.records[k])
            && (l'.records[k].state == l.records[k].state || l'.records[k].state.Deleting?)
  {
    hide Trim;
  }

  lemma OrderlyCall(s: System, step: Step, c: nat)
    requires Orderly(s) && Enabled(s, step) && Quiet(s, step) && c in CallsAfter(s, step)
    ensures var t := SessionProtocol.Apply(s, step);
            && t.up && !t.ledger.broken && t.calls[c].key in t.ledger.records
            && Matches(t.calls[c].phase, t.ledger.records[t.calls[c].key])
  {
    hide Agrees, IssuedAfter, DeletionsAfter, MadeAfter, SessionLedgerTheorems.Apply, EffectOf, CallsAfter, Quiet, Touches, Matches,
      Begin, LedgerAfter;
    CallsComeFrom(s, step, c);
    ProcessStays(s, step);
    if c !in s.calls {
      BegunIsOpen(s, step);
      NewCallMatches(s, step);
    } else {
      CalledKeyStays(s, step, c);
    }
  }

  lemma NewCallMatches(s: System, step: Step)
    requires Enabled(s, step) && step.BeginCreate?
    requires Begin(s.ledger, step.key, step.hash, step.legacy, step.save, step.now).1.Proceed?
    ensures step.key in LedgerAfter(s, step).records
    ensures Matches(Unsent, LedgerAfter(s, step).records[step.key])
  {
    hide Begin;
    ProceedReserves(s.ledger, step.key, step.hash, step.legacy, step.save, step.now);
  }

  lemma CalledKeyStays(s: System, step: Step, c: nat)
    requires Orderly(s) && Enabled(s, step) && Quiet(s, step) && c in CallsAfter(s, step) && c in s.calls
    ensures var t := SessionProtocol.Apply(s, step);
            var k := t.calls[c].key;
            k in t.ledger.records && Matches(t.calls[c].phase, t.ledger.records[k])
  {
    hide Agrees, IssuedAfter, DeletionsAfter, MadeAfter, SessionLedgerTheorems.Apply, CallsAfter, Quiet, Touches, Matches,
      Begin, EffectOf, LedgerAfter;
    var k := s.calls[c].key;
    CallsComeFrom(s, step, c);
    if EffectOf(s, step).Operation? {
      var e := EffectOf(s, step);
      DropsOnlyWhenFreeing(s, step);
      if Touches(s.ledger, e.op, k) {
        QuietTouches(s, step, c);
        OnlyTwoGoOn(s, step, c);
        OwnStepMatches(s, step, c);
      } else {
        UntouchedRecord(s.ledger, e.op, e.save, e.now, k);
        MarkedStillMatches(s.calls[c].phase, s.ledger.records[k], LedgerAfter(s, step).records[k]);
        UntouchedPhase(s, step, c);
      }
    } else {
      NoEffectKeepsLedger(s, step, c);
      SilentPhase(s, step, c);
    }
  }

  lemma NoEffectKeepsLedger(s: System, step: Step, c: nat)
    requires Enabled(s, step) && EffectOf(s, step).NoEffect? && c in CallsAfter(s, step)
    ensures LedgerAfter(s, step) == s.ledger
  {
    hide SessionLedgerTheorems.Apply;
  }

  lemma OnlyTwoGoOn(s: System, step: Step, c: nat)
    requires Enabled(s, step) && EffectOf(s, step).Operation? && c in CallsAfter(s, step)
    requires !step.BeginCreate? && !step.Release? && !step.DeletePrepare? && !step.DeleteFinalize? && step.call == c
    ensures step.RecordThread? || step.CleanPrepare?
  {
  }

  /** A step that leaves the call's record untouched and is the call's own can only be
      the preparation of a deletion that found nothing. */
  lemma UntouchedPhase(s: System, step: Step, c: nat)
    requires Enabled(s, step) && EffectOf(s, step).Operation? && c in s.calls && c in CallsAfter(s, step)
    requires s.calls[c].key in s.ledger.records && !Touches(s.ledger, EffectOf(s, step).op, s.calls[c].key)
    requires s.calls[c].key in LedgerAfter(s, step).records
    requires Matches(s.calls[c].phase, LedgerAfter(s, step).records[s.calls[c].key])
    ensures Matches(CallsAfter(s, step)[c].phase, LedgerAfter(s, step).records[s.calls[c].key])
  {
    hide SessionLedgerTheorems.Apply, LedgerAfter, CallsAfter, Matches, Touches, EffectOf, Enabled;
    UntouchedCall(s, step, c);
    StageDoesNotMatter(s.calls[c].phase, CallsAfter(s, step)[c].phase, LedgerAfter(s, step).records[s.calls[c].key]);
  }

  predicate SameUpToStage(p: Phase, p': Phase) {
    p' == p || (p.Cleaning? && p'.Cleaning? && p'.session == p.session)
  }

  lemma StageDoesNotMatter(p: Phase, p': Phase, r: Record)
    requires Matches(p, r) && SameUpToStage(p, p')
    ensures Matches(p', r)
  {
  }

  lemma UntouchedCall(s: System, step: Step, c: nat)
    requires Enabled(s, step) && EffectOf(s, step).Operation? && c in s.calls && c in CallsAfter(s, step)
    requires s.calls[c].key in s.ledger.records && !Touches(s.ledger, EffectOf(s, step).op, s.calls[c].key)
    ensures SameUpToStage(s.calls[c].phase, CallsAfter(s, step)[c].phase)
  {
    hide SessionLedgerTheorems.Apply, LedgerAfter, Begin, PrepareDelete, Update, Trim;
  }

  /** A step without an operation on the ledger. */
  lemma SilentPhase(s: System, step: Step, c: nat)
    requires Enabled(s, step) && EffectOf(s, step).NoEffect? && c in s.calls && c in CallsAfter(s, step)
    requires s.calls[c].key in s.ledger.records && Matches(s.calls[c].phase, s.ledger.records[s.calls[c].key])
    ensures Matches(CallsAfter(s, step)[c].phase, s.ledger.records[s.calls[c].key])
  {
    hide LedgerAfter;
  }

  lemma AgreementStays(s: System, step: Step)
    requires Orderly(s) && Enabled(s, step) && UpAfter(s, step)
    ensures Agrees(LedgerAfter(s, step))
  {
    hide SessionLedgerTheorems.Apply, RecordsOk, ValidRecord, Agrees;
    if step.Restart? {
      RestartAgrees(s, step.readable, step.now);
    } else if EffectOf(s, step).Operation? {
      var e := EffectOf(s, step);
      AgreementExactly(s.ledger, e.op, e.save, e.now);
    }
  }

  lemma RestartAgrees(s: System, readable: bool, now: Time)
    ensures Agrees(Opened(s.ledger.visible, s.ledger.versions, readable, now))
  {
    hide RecordsOk, Marked;
    MarkingKeepsView(s.ledger.visible, now);
  }

  lemma OrderlyStays(s: System, step: Step)
    requires Orderly(s) && Enabled(s, step) && Quiet(s, step)
    ensures Orderly(SessionProtocol.Apply(s, step))
  {
    hide Agrees, LedgerAfter, CallsAfter, DeletionsAfter, MadeAfter, IssuedAfter, Quiet, Matches, Begin;
    var t := SessionProtocol.Apply(s, step);
    forall c | c in t.calls
      ensures t.up && !t.ledger.broken && t.calls[c].key in t.ledger.records
              && Matches(t.calls[c].phase, t.ledger.records[t.calls[c].key])
    {
      OrderlyCall(s, step, c);
    }
    forall c, d | c in t.calls && d in t.calls && c != d
      ensures t.calls[c].key != t.calls[d].key
    {
      CallsComeFrom(s, step, c);
      CallsComeFrom(s, step, d);
      if c !in s.calls || d !in s.calls {
        ProceedReserves(s.ledger, step.key, step.hash, step.legacy, step.save, step.now);
      }
    }
    if t.up {
      AgreementStays(s, step);
    }
  }

  lemma QuietNeverStrands(s: System, step: Step)
    requires Orderly(s) && Enabled(s, step) && Quiet(s, step)
    ensures forall k :: !Strands(s, step, k)
  {
    hide Orderly, Quiet, Frees;
    forall c | c in s.calls && s.calls[c].phase.Unsent? && Frees(s, step, s.calls[c].key)
      ensures false
    {
      QuietSparesUnsent(s, step, c);
    }
  }

  lemma QuietSparesUnsent(s: System, step: Step, c: nat)
    requires Orderly(s) && Enabled(s, step) && Quiet(s, step) && c in s.calls && s.calls[c].phase.Unsent?
    ensures !Frees(s, step, s.calls[c].key)
  {
    hide Agrees, Matches, SessionLedgerTheorems.Apply, EffectOf, Quiet, Touches, LedgerAfter;
    var k := s.calls[c].key;
    if FreeingStep(step) {
      FreeingHasEffect(s, step);
      DropsOnlyWhenFreeing(s, step);
      var e := EffectOf(s, step);
      if Touches(s.ledger, e.op, k) {
        QuietTouches(s, step, c);
        FreeingIsLater(s, step, c);
      } else {
        UntouchedRecord(s.ledger, e.op, e.save, e.now, k);
      }
    }
  }

  lemma FreeingIsLater(s: System, step: Step, c: nat)
    requires Enabled(s, step) && FreeingStep(step) && !step.Release? && !step.DeleteFinalize? && step.call == c
    ensures c in s.calls && !s.calls[c].phase.Unsent?
  {
  }

  ghost predicate AllQuiet(states: seq<System>, steps: seq<Step>, n: nat)
    requires Runs(states, steps) && n <= |steps|
  {
    forall i :: 0 <= i < n ==> Quiet(states[i], steps[i])
  }

  lemma {:induction false} OrderlyInRun(states: seq<System>, steps: seq<Step>, n: nat)
    requires Runs(states, steps) && n <= |steps| && AllQuiet(states, steps, n) && Orderly(states[0])
    ensures Orderly(states[n]) && NeverStrands(states, steps, n)
  {
    hide Orderly, Enabled, SessionProtocol.Apply, Quiet, Strands;
    if n > 0 {
      OrderlyInRun(states, steps, n - 1);
      assert Enabled(states[n - 1], steps[n - 1]) && Quiet(states[n - 1], steps[n - 1]);
      OrderlyStays(states[n - 1], steps[n - 1]);
      QuietNeverStrands(states[n - 1], steps[n - 1]);
    }
  }

  /** In a quiet run a key has at most one call, the provider is asked at most once
      between frees, and a restart at any moment would find what memory holds. */
  lemma QuietRuns(states: seq<System>, steps: seq<Step>, n: nat)
    requires IsRun(states, steps) && n <= |steps| && AllQuiet(states, steps, n)
    ensures forall c, d :: c in states[n].calls && d in states[n].calls && states[n].calls[c].key == states[n].calls[d].key ==>
              c == d
    ensures forall i, j, k :: 0 <= i < j < n && Issues(states[i], steps[i], k) && Issues(states[j], steps[j], k) ==>
              exists m :: i < m < j && Frees(states[m], steps[m], k)
    ensures states[n].up ==> Agrees(states[n].ledger)
  {
    NothingIsOrderly();
    OrderlyInRun(states, steps, n);
    hide Matches, Frees, Issues, SessionProtocol.Apply, Enabled, Strands, Agrees;
    forall i, j, k | 0 <= i < j < n && Issues(states[i], steps[i], k) && Issues(states[j], steps[j], k)
      ensures exists m :: i < m < j && Frees(states[m], steps[m], k)
    {
      CreatedAtMostOnce(states, steps, i, j, k);
    }
  }
}
