/** What every operation of the session.create ledger keeps, whatever its save comes
    to: the files it writes can be read back, and what a restart would make of the
    visible file is what it would make of memory. */
module SessionLedgerTheorems {
  import opened Options
  import opened SessionLedger
  import opened StateFile

  datatype Op =
    | DoBegin(key: Key, hash: Hash, legacy: seq<Hash>)
    | DoSetAttempt(key: Key, attempt: Attempt)
    | DoUpdate(key: Key, state: State, result: Option<Result>)
    | DoAbort(key: Key)
    | DoRelease(key: Key)
    | DoPrepareDelete(session: string)
    | DoFinalizeDelete(session: string)

  function Apply(l: Ledger, op: Op, save: Save, now: Time): (l': Ledger) {
    match op
    case DoBegin(key, hash, legacy) => Begin(l, key, hash, legacy, save, now).0
    case DoSetAttempt(key, attempt) => SetAttempt(l, key, attempt, save, now).0
    case DoUpdate(key, state, result) => Update(l, key, state, result, save, now).0
    case DoAbort(key) => Abort(l, key, save, now).0
    case DoRelease(key) => ReleaseUnresolved(l, key, save, now).0
    case DoPrepareDelete(session) => PrepareDelete(l, session, save, now).0
    case DoFinalizeDelete(session) => FinalizeDelete(l, session, save, now).0
  }

  // ----- Every file that was ever written can be loaded -----

  ghost predicate LedgerOk(l: Ledger) {
    && (!l.broken ==> RecordsOk(l.records))
    && l.visible in l.versions
    && (forall v :: v in l.versions ==> RecordsOk(v))
  }

  lemma MarkedIsOk(records: Records, now: Time)
    requires RecordsOk(records)
    ensures RecordsOk(Marked(records, now))
  {
    hide SafeText, IsDigest, ValidAttempt, ValidSession;
    assert Marked(records, now).Keys == records.Keys;
    SameKeysSameSize(Marked(records, now), records);
  }

  lemma SameKeysSameSize<K, V, W>(a: map<K, V>, b: map<K, W>)
    requires a.Keys == b.Keys
    ensures |a| == |b|
  {
    assert |a| == |a.Keys| && |b| == |b.Keys|;
  }

  lemma SavingIsOk(l: Ledger, records: Records, save: Save, now: Time)
    requires LedgerOk(l) && !l.broken && RecordsOk(records)
    ensures LedgerOk(SavedOrTakenBack(l, records, save, now))
    ensures SavedOrTakenBack(l, records, save, now).broken == l.broken
  {
    hide RecordsOk;
    MarkedIsOk(records, now);
  }

  lemma PutIsOk(records: Records, key: Key, r: Record)
    requires RecordsOk(records) && ValidRecord(key, r)
    requires key in records || |records| < MAX_SESSION_CREATE_RECORDS
    ensures RecordsOk(records[key := r])
  {
    hide ValidRecord;
    if key in records {
      assert records[key := r].Keys == records.Keys;
      SameKeysSameSize(records[key := r], records);
    } else {
      assert |records[key := r]| == |records| + 1;
    }
  }

  lemma FewerIsOk(records: Records, fewer: Records)
    requires RecordsOk(records) && forall k :: k in fewer ==> k in records && fewer[k] == records[k]
    ensures RecordsOk(fewer)
  {
    hide ValidRecord;
    SmallerDomain(fewer.Keys, records.Keys);
    assert |fewer| == |fewer.Keys| && |records| == |records.Keys|;
  }

  lemma {:induction false} SmallerDomain<T>(a: set<T>, b: set<T>)
    requires a <= b
    ensures |a| <= |b|
  {
    assert b == a + (b - a);
  }

  lemma DoomedIsOk(records: Records, session: string, now: Time)
    requires RecordsOk(records) && session != ""
    ensures RecordsOk(AllDoomed(records, session, now))
  {
    hide SafeText, IsDigest, ValidAttempt, ValidSession;
    assert AllDoomed(records, session, now).Keys == records.Keys;
    SameKeysSameSize(AllDoomed(records, session, now), records);
  }

  lemma RehashedIsValid(key: Key, r: Record, hash: Hash, now: Time)
    requires ValidRecord(key, r) && ValidRecord(key, NewReservation(hash, now))
    ensures ValidRecord(key, r.(hash := hash, updatedAt := now))
  {
  }

  /** The records an operation saves, when it saves any. */
  function Proposed(l: Ledger, op: Op, now: Time): (records: Records) {
    match op
    case DoBegin(key, hash, _) =>
      if key in l.records then l.records[key := l.records[key].(hash := hash, updatedAt := now)]
      else l.records[key := NewReservation(hash, now)]
    case DoSetAttempt(key, attempt) =>
      if key in l.records then l.records[key := l.records[key].(attempt := Some(attempt), updatedAt := now)]
      else l.records
    case DoUpdate(key, state, result) =>
      if key in l.records then l.records[key := Changed(l.records[key], state, result, now)] else l.records
    case DoAbort(key) => l.records - {key}
    case DoRelease(key) => l.records - {key}
    case DoPrepareDelete(session) => AllDoomed(l.records, Trim(session), now)
    case DoFinalizeDelete(session) => WithoutDoomed(l.records, Trim(session))
  }

  /** The records an operation leaves in memory without having written them. */
  predicate KeptUnwritten(l: Ledger, op: Op, save: Save, now: Time) {
    && op.DoUpdate? && op.state.InDoubt? && save.NotCommitted? && !l.broken && op.key in l.records
    && ValidRecord(op.key, Changed(l.records[op.key], InDoubt, op.result, now))
  }

  /** Every operation changes nothing, or saves its records, or keeps them unwritten. */
  lemma OperationShape(l: Ledger, op: Op, save: Save, now: Time)
    ensures var l' := Apply(l, op, save, now);
            || (l' == l && !KeptUnwritten(l, op, save, now))
            || (!l.broken && Proposes(l, op, now) && !KeptUnwritten(l, op, save, now)
                && l' == SavedOrTakenBack(l, Proposed(l, op, now), save, now))
            || (Proposes(l, op, now) && KeptUnwritten(l, op, save, now) && l' == l.(records := Proposed(l, op, now)))
  {
    hide ValidRecord, Trim, SavedOrTakenBack, AnyToDoom, AnyDoomed, AllDoomed, WithoutDoomed, Answer, NewReservation;
  }

  /** What is known of a record that is about to be saved. */
  predicate Proposes(l: Ledger, op: Op, now: Time) {
    match op
    case DoBegin(key, hash, _) =>
      ValidRecord(key, NewReservation(hash, now)) && (key in l.records || |l.records| < MAX_SESSION_CREATE_RECORDS)
    case DoSetAttempt(key, attempt) =>
      key in l.records && ValidRecord(key, l.records[key].(attempt := Some(attempt), updatedAt := now))
    case DoUpdate(key, state, result) =>
      key in l.records && ValidRecord(key, Changed(l.records[key], state, result, now))
    case DoPrepareDelete(session) => Trim(session) != ""
    case _ => true
  }

  lemma ProposedIsOk(l: Ledger, op: Op, now: Time)
    requires RecordsOk(l.records) && Proposes(l, op, now)
    ensures RecordsOk(Proposed(l, op, now))
  {
    hide ValidRecord, Trim, RecordsOk, AllDoomed, NewReservation;
    match op
    case DoBegin(key, hash, _) =>
      if key in l.records {
        OneIsValid(l.records, key);
        RehashedIsValid(key, l.records[key], hash, now);
        PutIsOk(l.records, key, l.records[key].(hash := hash, updatedAt := now));
      } else {
        PutIsOk(l.records, key, NewReservation(hash, now));
      }
    case DoSetAttempt(key, attempt) =>
      PutIsOk(l.records, key, l.records[key].(attempt := Some(attempt), updatedAt := now));
    case DoUpdate(key, state, result) =>
      PutIsOk(l.records, key, Changed(l.records[key], state, result, now));
    case DoAbort(key) => FewerIsOk(l.records, l.records - {key});
    case DoRelease(key) => FewerIsOk(l.records, l.records - {key});
    case DoPrepareDelete(session) => DoomedIsOk(l.records, Trim(session), now);
    case DoFinalizeDelete(session) => FewerIsOk(l.records, WithoutDoomed(l.records, Trim(session)));
  }

  lemma OneIsValid(records: Records, key: Key)
    requires RecordsOk(records) && key in records
    ensures ValidRecord(key, records[key])
  {
    hide ValidRecord;
  }

  /** Whatever the operation and whatever its save comes to, memory and every version
      of the file that a power loss may restore stay loadable. */
  lemma FilesStayLoadable(l: Ledger, op: Op, save: Save, now: Time)
    requires LedgerOk(l)
    ensures LedgerOk(Apply(l, op, save, now)) && Apply(l, op, save, now).broken == l.broken
  {
    hide RecordsOk, Apply, Proposed, Proposes, KeptUnwritten, SavedOrTakenBack;
    OperationShape(l, op, save, now);
    if !l.broken && Proposes(l, op, now) {
      ProposedIsOk(l, op, now);
      SavingIsOk(l, Proposed(l, op, now), save, now);
    }
  }

  // ----- Memory and the visible file agree -----

  ghost predicate SameView(a: Records, b: Records) {
    && a.Keys == b.Keys
    && (forall k :: k in a && k in b ==> a[k].hash == b[k].hash && MarkedState(a[k].state) == MarkedState(b[k].state))
  }

  /** Interrupt-marking the visible file and interrupt-marking memory give the same
      keys, hashes and states. */
  ghost predicate Agrees(l: Ledger) {
    !l.broken ==> SameView(l.visible, l.records)
  }

  lemma MarkingKeepsView(records: Records, now: Time)
    ensures SameView(records, Marked(records, now))
  {
  }

  lemma SavingAgrees(l: Ledger, records: Records, save: Save, now: Time)
    requires Agrees(l)
    ensures Agrees(SavedOrTakenBack(l, records, save, now))
  {
    MarkingKeepsView(records, now);
  }

  /** The one divergence: an update to "in_doubt" that could not be written, of a
      record that a restart would not have put in doubt. */
  predicate Diverges(l: Ledger, op: Op, save: Save, now: Time) {
    KeptUnwritten(l, op, save, now)
    && !Transitional(l.records[op.key].state) && !l.records[op.key].state.InDoubt?
  }

  lemma AgreementExactly(l: Ledger, op: Op, save: Save, now: Time)
    requires Agrees(l)
    ensures Agrees(Apply(l, op, save, now)) <==> !Diverges(l, op, save, now)
  {
    hide Agrees, Apply, SavedOrTakenBack, Proposes, ValidRecord;
    OperationShape(l, op, save, now);
    SavingAgrees(l, Proposed(l, op, now), save, now);
    if KeptUnwritten(l, op, save, now) {
      UnwrittenDoubt(l, op.key, Changed(l.records[op.key], InDoubt, op.result, now));
    }
  }

  lemma UnwrittenDoubt(l: Ledger, key: Key, r: Record)
    requires Agrees(l) && !l.broken && key in l.records && r.state.InDoubt? && r.hash == l.records[key].hash
    ensures Agrees(l.(records := l.records[key := r]))
       <==> Transitional(l.records[key].state) || l.records[key].state.InDoubt?
  {
    var l' := l.(records := l.records[key := r]);
    assert MarkedState(l.visible[key].state) == MarkedState(l.records[key].state);
    if Transitional(l.records[key].state) || l.records[key].state.InDoubt? {
      assert SameView(l'.visible, l'.records);
    } else {
      assert MarkedState(l'.visible[key].state) != MarkedState(l'.records[key].state);
    }
  }

  /** A restart right after any operation that does not diverge finds the keys, hashes
      and states that memory holds, up to interrupted creations put in doubt. */
  lemma RestartSeesMemory(l: Ledger, op: Op, save: Save, now: Time, later: Time)
    requires LedgerOk(l) && Agrees(l) && !l.broken && !Diverges(l, op, save, now)
    ensures var l' := Apply(l, op, save, now);
            var restarted := Opened(l'.visible, l'.versions, true, later);
            && !restarted.broken && restarted.records.Keys == l'.records.Keys
            && forall k :: k in l'.records ==>
                 && restarted.records[k].hash == l'.records[k].hash
                 && restarted.records[k].state == MarkedState(l'.records[k].state)
  {
    hide RecordsOk, Apply;
    FilesStayLoadable(l, op, save, now);
    AgreementExactly(l, op, save, now);
  }
}
