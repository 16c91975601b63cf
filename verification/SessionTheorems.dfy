/** A session is created at most once per key until the key is freed: when that holds,
    when it does not, and what a quiet run adds. */
module SessionTheorems {
  import opened Options
  import opened SessionLedger
  import opened StateFile
  import opened SessionLedgerTheorems
  import opened SessionProtocol

  // ----- Keys in memory and on the disk -----

  /** No crash or restart can lose the key. */
  ghost predicate Durable(s: System, k: Key) {
    && (s.up && !s.ledger.broken ==> k in s.ledger.records)
    && (forall v :: v in s.ledger.versions ==> k in v)
  }

  lemma OperationKeepsKey(l: Ledger, op: Op, save: Save, now: Time, k: Key)
    requires forall v :: v in l.versions ==> k in v
    requires !l.broken ==> k in SessionLedgerTheorems.Apply(l, op, save, now).records
    ensures forall v :: v in SessionLedgerTheorems.Apply(l, op, save, now).versions ==> k in v
  {
    hide SessionLedgerTheorems.Apply, Proposed, Proposes, KeptUnwritten, MarkedRecord;
    OperationShape(l, op, save, now);
  }

  predicate DropsKeys(op: Op) {
    op.DoAbort? || op.DoRelease? || op.DoFinalizeDelete?
  }

  lemma OtherOperationsKeepKeys(l: Ledger, op: Op, save: Save, now: Time)
    requires !DropsKeys(op)
    ensures l.records.Keys <= SessionLedgerTheorems.Apply(l, op, save, now).records.Keys
  {
    hide SessionLedgerTheorems.Apply, Proposes, KeptUnwritten, MarkedRecord, Changed, NewReservation, Trim, Doomed;
    OperationShape(l, op, save, now);
  }

  lemma BrokenStaysPut(l: Ledger, op: Op, save: Save, now: Time)
    requires l.broken
    ensures SessionLedgerTheorems.Apply(l, op, save, now) == l
  {
    hide SessionLedgerTheorems.Apply, Proposed, Proposes;
    OperationShape(l, op, save, now);
  }

  lemma StaysOpen(l: Ledger, op: Op, save: Save, now: Time)
    ensures SessionLedgerTheorems.Apply(l, op, save, now).broken == l.broken
    ensures l.visible in l.versions ==>
              SessionLedgerTheorems.Apply(l, op, save, now).visible in SessionLedgerTheorems.Apply(l, op, save, now).versions
  {
    hide SessionLedgerTheorems.Apply, Proposed, Proposes, KeptUnwritten, Marked;
    OperationShape(l, op, save, now);
  }

  lemma ProceedReserves(l: Ledger, key: Key, hash: Hash, legacy: seq<Hash>, save: Save, now: Time)
    requires Begin(l, key, hash, legacy, save, now).1.Proceed?
    ensures var l' := Begin(l, key, hash, legacy, save, now).0;
            && !l.broken && key !in l.records && l'.records == l.records[key := NewReservation(hash, now)]
            && l'.versions == {l'.records} && l'.visible == l'.records && !l'.broken
  {
    hide ValidRecord;
  }

  lemma DurableStays(s: System, step: Step, k: Key)
    requires Enabled(s, step) && Durable(s, k) && s.ledger.visible in s.ledger.versions && !Frees(s, step, k)
    ensures Durable(SessionProtocol.Apply(s, step), k)
  {
    hide SessionLedgerTheorems.Apply, CallsAfter, DeletionsAfter, IssuedAfter, MadeAfter, RecordsOk, MarkedRecord, Trim;
    if !step.PowerLoss? && !step.Restart? && EffectOf(s, step).Operation? {
      var e := EffectOf(s, step);
      OperationNeedsProcess(s, step);
      if !s.ledger.broken && !DropsKeys(e.op) {
        OtherOperationsKeepKeys(s.ledger, e.op, e.save, e.now);
      }
      DropsOnlyWhenFreeing(s, step);
      OperationKeepsKey(s.ledger, e.op, e.save, e.now, k);
      StaysOpen(s.ledger, e.op, e.save, e.now);
    }
  }

  lemma OperationNeedsProcess(s: System, step: Step)
    requires Enabled(s, step) && EffectOf(s, step).Operation?
    ensures s.up && UpAfter(s, step)
  {
    hide SessionLedgerTheorems.Apply;
  }

  lemma DropsOnlyWhenFreeing(s: System, step: Step)
    requires Enabled(s, step) && EffectOf(s, step).Operation?
    ensures DropsKeys(EffectOf(s, step).op) <==> FreeingStep(step)
    ensures LedgerAfter(s, step)
         == SessionLedgerTheorems.Apply(s.ledger, EffectOf(s, step).op, EffectOf(s, step).save, EffectOf(s, step).now)
  {
    hide SessionLedgerTheorems.Apply;
  }

  // ----- The invariant of every run without stranded calls -----

  ghost predicate Held(s: System) {
    && s.ledger.visible in s.ledger.versions
    && (forall k :: k in s.issued ==> Durable(s, k))
    && (forall c :: c in s.calls ==> s.up && !s.ledger.broken)
    && (forall c :: c in s.calls && s.calls[c].phase.Unsent? ==>
          && s.calls[c].key in s.ledger.records && Durable(s, s.calls[c].key) && s.calls[c].key !in s.issued)
    && (forall c, d :: c in s.calls && d in s.calls && c != d && s.calls[c].phase.Unsent? && s.calls[d].phase.Unsent? ==>
          s.calls[c].key != s.calls[d].key)
  }

  /** The step frees a key whose reservation another call is about to use. */
  ghost predicate Strands(s: System, step: Step, k: Key)
    requires Enabled(s, step)
  {
    Frees(s, step, k) && exists c :: c in s.calls && s.calls[c].key == k && s.calls[c].phase.Unsent?
  }

  /** Where the calls after a step come from. */
  lemma CallsComeFrom(s: System, step: Step, c: nat)
    requires Enabled(s, step) && c in CallsAfter(s, step)
    ensures var t := CallsAfter(s, step);
            || (c in s.calls && t[c].key == s.calls[c].key && t[c].provider == s.calls[c].provider
                && (t[c].phase.Unsent? ==> s.calls[c].phase.Unsent? && (step.SendCreate? ==> step.call != c)))
            || (step.BeginCreate? && c == step.call && c !in s.calls && t[c] == Call(step.key, step.provider, Unsent)
                && Begin(s.ledger, step.key, step.hash, step.legacy, step.save, step.now).1.Proceed?)
    ensures !step.ProcessCrash? && !step.PowerLoss? && !step.Restart?
  {
    hide Begin, Update, PrepareDelete, Known;
  }

  lemma ProcessStays(s: System, step: Step)
    requires Enabled(s, step) && s.up && !step.ProcessCrash? && !step.PowerLoss? && !step.Restart?
    ensures var t := SessionProtocol.Apply(s, step); t.up && t.ledger.broken == s.ledger.broken
  {
    hide SessionLedgerTheorems.Apply, CallsAfter, DeletionsAfter, IssuedAfter, MadeAfter;
    var e := EffectOf(s, step);
    if e.Operation? {
      StaysOpen(s.ledger, e.op, e.save, e.now);
    }
  }

  lemma VisibleIsAVersion(s: System, step: Step)
    requires Enabled(s, step) && s.ledger.visible in s.ledger.versions
    ensures LedgerAfter(s, step).visible in LedgerAfter(s, step).versions
  {
    hide SessionLedgerTheorems.Apply, RecordsOk, Marked;
    if !step.PowerLoss? && !step.Restart? && EffectOf(s, step).Operation? {
      var e := EffectOf(s, step);
      StaysOpen(s.ledger, e.op, e.save, e.now);
    }
  }

  /** A new reservation is durable, and its key was not issued. */
  lemma NewReservationHolds(s: System, step: Step)
    requires Held(s) && Enabled(s, step) && step.BeginCreate?
    requires Begin(s.ledger, step.key, step.hash, step.legacy, step.save, step.now).1.Proceed?
    ensures Durable(SessionProtocol.Apply(s, step), step.key) && step.key in LedgerAfter(s, step).records
    ensures step.key !in s.issued
    ensures forall c :: c in s.calls && s.calls[c].phase.Unsent? ==> s.calls[c].key != step.key
  {
    hide Begin, CallsAfter, DeletionsAfter, IssuedAfter, MadeAfter;
    ProceedReserves(s.ledger, step.key, step.hash, step.legacy, step.save, step.now);
  }

  lemma IssuedStaysDurable(s: System, step: Step)
    requires Held(s) && Enabled(s, step)
    ensures var t := SessionProtocol.Apply(s, step); forall k :: k in t.issued ==> Durable(t, k)
  {
    hide LedgerAfter, Durable;
    var t := SessionProtocol.Apply(s, step);
    forall k | k in t.issued
      ensures Durable(t, k)
    {
      DurableStays(s, step, k);
    }
  }

  lemma HeldStays(s: System, step: Step)
    requires Held(s) && Enabled(s, step) && forall k :: !Strands(s, step, k)
    ensures Held(SessionProtocol.Apply(s, step))
  {
    hide LedgerAfter, Durable, CallsAfter, DeletionsAfter, MadeAfter, Begin, Frees, IssuedAfter;
    var t := SessionProtocol.Apply(s, step);
    VisibleIsAVersion(s, step);
    IssuedStaysDurable(s, step);
    forall c | c in t.calls
      ensures t.up && !t.ledger.broken
      ensures t.calls[c].phase.Unsent? ==>
                t.calls[c].key in t.ledger.records && Durable(t, t.calls[c].key) && t.calls[c].key !in t.issued
    {
      CallsComeFrom(s, step, c);
      if c in s.calls {
        ProcessStays(s, step);
        if t.calls[c].phase.Unsent? {
          assert !Strands(s, step, s.calls[c].key);
          UnsentStays(s, step, c);
        }
      } else {
        NewReservationHolds(s, step);
        ProcessStays(s, step);
        BegunIsOpen(s, step);
        NewKeyIsNotIssued(s, step);
      }
    }
    forall c, d | c in t.calls && d in t.calls && c != d && t.calls[c].phase.Unsent? && t.calls[d].phase.Unsent?
      ensures t.calls[c].key != t.calls[d].key
    {
      CallsComeFrom(s, step, c);
      CallsComeFrom(s, step, d);
      if c !in s.calls || d !in s.calls {
        NewReservationHolds(s, step);
      }
    }
  }

  lemma BegunIsOpen(s: System, step: Step)
    requires step.BeginCreate? && Begin(s.ledger, step.key, step.hash, step.legacy, step.save, step.now).1.Proceed?
    ensures !s.ledger.broken
  {
    hide ValidRecord, SavedOrTakenBack;
  }

  lemma NewKeyIsNotIssued(s: System, step: Step)
    requires Enabled(s, step) && step.BeginCreate? && step.key !in s.issued
    ensures step.key !in IssuedAfter(s, step)
  {
  }

  lemma UnsentStays(s: System, step: Step, c: nat)
    requires Held(s) && Enabled(s, step) && c in s.calls && s.calls[c].phase.Unsent?
    requires !Frees(s, step, s.calls[c].key) && (step.SendCreate? ==> step.call != c)
    requires !step.ProcessCrash? && !step.PowerLoss? && !step.Restart?
    ensures var t := SessionProtocol.Apply(s, step);
            var k := s.calls[c].key;
            k in t.ledger.records && Durable(t, k) && k !in t.issued
  {
    hide LedgerAfter, CallsAfter, DeletionsAfter, MadeAfter, Frees;
    DurableStays(s, step, s.calls[c].key);
    ProcessStays(s, step);
  }

  // ----- At most one creation between frees -----

  ghost predicate Issues(s: System, step: Step, k: Key) {
    step.SendCreate? && step.call in s.calls && s.calls[step.call].key == k
  }

  ghost predicate NeverStrands(states: seq<System>, steps: seq<Step>, n: nat)
    requires Runs(states, steps) && n <= |steps|
  {
    forall i, k :: 0 <= i < n ==> !Strands(states[i], steps[i], k)
  }

  lemma {:induction false} HeldInRun(states: seq<System>, steps: seq<Step>, n: nat)
    requires IsRun(states, steps) && n <= |steps| && NeverStrands(states, steps, n)
    ensures Held(states[n])
  {
    hide Held, Enabled, SessionProtocol.Apply, Strands;
    if n == 0 {
      NothingHeld();
    } else {
      HeldInRun(states, steps, n - 1);
      assert Enabled(states[n - 1], steps[n - 1]);
      HeldStays(states[n - 1], steps[n - 1]);
    }
  }

  lemma NothingHeld()
    ensures Held(Initial())
  {
  }

  lemma {:induction false} IssuedUntilFreed(states: seq<System>, steps: seq<Step>, i: nat, j: nat, k: Key)
    requires IsRun(states, steps) && i < j <= |steps| && Issues(states[i], steps[i], k)
    requires forall n :: i < n < j ==> !Frees(states[n], steps[n], k)
    ensures k in states[j].issued
  {
    hide Enabled, Frees, LedgerAfter, CallsAfter, DeletionsAfter, MadeAfter, Initial;
    if j > i + 1 {
      IssuedUntilFreed(states, steps, i, j - 1, k);
    }
    assert states[j] == SessionProtocol.Apply(states[j - 1], steps[j - 1]);
  }

  /** If no call is stranded, the provider is asked to create a session for a key at
      most once between events that free the key: the abort after a definitive
      refusal, the operator's release, or the completed deletion of the session. */
  lemma CreatedAtMostOnce(states: seq<System>, steps: seq<Step>, i: nat, j: nat, k: Key)
    requires IsRun(states, steps) && i < j < |steps| && NeverStrands(states, steps, j)
    requires Issues(states[i], steps[i], k) && Issues(states[j], steps[j], k)
    ensures exists n :: i < n < j && Frees(states[n], steps[n], k)
  {
    hide Frees, SessionProtocol.Apply, Strands, Durable;
    HeldInRun(states, steps, j);
    assert Enabled(states[j], steps[j]);
    if forall n :: i < n < j ==> !Frees(states[n], steps[n], k) {
      IssuedUntilFreed(states, steps, i, j, k);
    }
  }

  // ----- A stranded call is all it takes -----

  function Twice(k: Key, hash: Hash, first: nat, second: nat, now: Time): (steps: seq<Step>) {
    [BeginCreate(second, Codex, k, hash, [], Synced, now), SendCreate(first), SendCreate(second)]
  }

  /** From `s`, both calls ask the provider for the key, with nothing freed in between. */
  ghost predicate AsksTwice(s: System, states: seq<System>, k: Key, hash: Hash, first: nat, second: nat, now: Time) {
    var steps := Twice(k, hash, first, second, now);
    && Runs(states, steps) && states[0] == s
    && Issues(states[1], steps[1], k) && Issues(states[2], steps[2], k) && !Frees(states[1], steps[1], k)
  }

  /** A call is stranded when its key has no record and it is still to ask the
      provider: another call can then reserve the key, and both ask. */
  lemma StrandedIsRepeated(s: System, k: Key, hash: Hash, first: nat, second: nat, now: Time)
    returns (states: seq<System>)
    requires At(s, first, Unsent) && s.calls[first].key == k && second !in s.calls
    requires !s.ledger.broken && k !in s.ledger.records && |s.ledger.records| < MAX_SESSION_CREATE_RECORDS
    requires ValidRecord(k, NewReservation(hash, now))
    ensures AsksTwice(s, states, k, hash, first, second, now)
  {
    hide ValidRecord, Saved, NewReservation;
    var s1 := SessionProtocol.Apply(s, BeginCreate(second, Codex, k, hash, [], Synced, now));
    var s2 := SessionProtocol.Apply(s1, SendCreate(first));
    var s3 := SessionProtocol.Apply(s2, SendCreate(second));
    states := [s, s1, s2, s3];
  }

  lemma FreedIsOneLess(l: Ledger, op: Op, save: Save, now: Time, k: Key)
    requires LedgerOk(l) && !l.broken && k in l.records && DropsKeys(op)
    requires k !in SessionLedgerTheorems.Apply(l, op, save, now).records
    ensures |SessionLedgerTheorems.Apply(l, op, save, now).records| < MAX_SESSION_CREATE_RECORDS
  {
    hide SessionLedgerTheorems.Apply, RecordsOk, Proposed;
    var l' := SessionLedgerTheorems.Apply(l, op, save, now);
    assert l'.records.Keys <= l.records.Keys by {
      DropsOnly(l, op, save, now);
    }
    assert |l.records| <= MAX_SESSION_CREATE_RECORDS by {
      SizeIsBounded(l.records);
    }
    SmallerDomain(l'.records.Keys, l.records.Keys - {k});
    assert |l'.records| == |l'.records.Keys| && |l.records| == |l.records.Keys|;
  }

  lemma SizeIsBounded(records: Records)
    requires RecordsOk(records)
    ensures |records| <= MAX_SESSION_CREATE_RECORDS
  {
  }

  lemma DropsOnly(l: Ledger, op: Op, save: Save, now: Time)
    requires DropsKeys(op)
    ensures SessionLedgerTheorems.Apply(l, op, save, now).records.Keys <= l.records.Keys
  {
    hide SessionLedgerTheorems.Apply, MarkedRecord, Trim, IsDoomed;
    OperationShape(l, op, save, now);
  }

  /** Whenever a step strands a call, the run can go on so that the provider is asked
      twice for the key with nothing freed in between. */
  lemma StrandingIsRepeated(s: System, step: Step, k: Key, second: nat, now: Time)
    returns (states: seq<System>, hash: Hash, first: nat)
    requires LedgerOk(s.ledger) && !s.ledger.broken && s.up && Enabled(s, step) && Strands(s, step, k)
    requires second !in s.calls
    ensures AsksTwice(SessionProtocol.Apply(s, step), states, k, hash, first, second, now)
  {
    hide RecordsOk, SessionLedgerTheorems.Apply, EffectOf, DeletionsAfter, MadeAfter, IssuedAfter, AsksTwice, ValidRecord, Begin;
    var t := SessionProtocol.Apply(s, step);
    first :| first in s.calls && s.calls[first].key == k && s.calls[first].phase.Unsent?;
    UnsentIsLeftAlone(s, step, first);
    FreeingHasEffect(s, step);
    var e := EffectOf(s, step);
    DropsOnlyWhenFreeing(s, step);
    StaysOpen(s.ledger, e.op, e.save, e.now);
    FreedIsOneLess(s.ledger, e.op, e.save, e.now, k);
    hash := s.ledger.records[k].hash;
    OneIsValid(s.ledger.records, k);
    StoredKeyIsValid(k, s.ledger.records[k], now);
    states := StrandedIsRepeated(t, k, hash, first, second, now);
  }

  lemma StoredKeyIsValid(k: Key, r: Record, now: Time)
    requires ValidRecord(k, r)
    ensures ValidRecord(k, NewReservation(r.hash, now))
  {
    hide SafeText, IsDigest;
  }

  lemma FreeingHasEffect(s: System, step: Step)
    requires Enabled(s, step) && FreeingStep(step)
    ensures EffectOf(s, step).Operation?
  {
  }

  lemma UnsentIsLeftAlone(s: System, step: Step, c: nat)
    requires Enabled(s, step) && FreeingStep(step) && c in s.calls && s.calls[c].phase.Unsent?
    ensures c in CallsAfter(s, step) && CallsAfter(s, step)[c] == s.calls[c] && CallsAfter(s, step).Keys <= s.calls.Keys
    ensures UpAfter(s, step) == s.up
  {
  }
}
