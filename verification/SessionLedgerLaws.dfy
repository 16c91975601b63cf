/** What each operation of the ledger does to the records, and when: said of every ledger
    and every outcome of the save. */
module SessionLedgerLaws {
  import opened Options
  import opened SessionLedger
  import opened StateFile
  import opened SessionLedgerTheorems
  import opened SessionTheorems

  /** The operation means to drop the key, and the record lets it: an abort a reservation,
      a release a record in doubt without a result, and the end of a deletion a record
      being deleted with its session. */
  predicate MayDrop(r: Record, op: Op, k: Key) {
    || (op == DoAbort(k) && r.state == Reserved)
    || (op == DoRelease(k) && r.state == InDoubt && r.result == None)
    || (op.DoFinalizeDelete? && Trim(op.session) != "" && r.state == Deleting && SessionOf(r) == Trim(op.session))
  }

  /** A key is dropped exactly then, by an open store whose save is installed. */
  lemma DropsExactly(l: Ledger, op: Op, save: Save, now: Time, k: Key)
    requires k in l.records
    ensures k !in SessionLedgerTheorems.Apply(l, op, save, now).records <==>
              !l.broken && !save.NotCommitted? && MayDrop(l.records[k], op, k)
  {
    hide SessionLedgerTheorems.Apply, MarkedRecord, Trim;
    OperationShape(l, op, save, now);
    if DropsKeys(op) {
      DroppingOperation(l, op, save, now, k);
    } else {
      OtherOperationsKeepKeys(l, op, save, now);
    }
  }

  lemma DroppingOperation(l: Ledger, op: Op, save: Save, now: Time, k: Key)
    requires k in l.records && DropsKeys(op)
    ensures k !in SessionLedgerTheorems.Apply(l, op, save, now).records <==>
              !l.broken && !save.NotCommitted? && MayDrop(l.records[k], op, k)
  {
    hide Trim, SessionOf;
  }

  /** The operation is about the key's record. */
  predicate Concerns(l: Ledger, op: Op, k: Key)
    requires k in l.records
  {
    match op
    case DoBegin(key, _, _) => key == k
    case DoSetAttempt(key, _) => key == k
    case DoUpdate(key, _, _) => key == k
    case DoAbort(key) => key == k
    case DoRelease(key) => key == k
    case DoPrepareDelete(session) => SessionOf(l.records[k]) == Trim(session)
    case DoFinalizeDelete(session) => SessionOf(l.records[k]) == Trim(session)
  }

  /** A record the operation is not about stays as it is, but for the doubt that a save
      which is not durable puts it in if its creation is under way. */
  lemma OthersStay(l: Ledger, op: Op, save: Save, now: Time, k: Key)
    requires k in l.records && !Concerns(l, op, k)
    ensures k in SessionLedgerTheorems.Apply(l, op, save, now).records
    ensures var r := SessionLedgerTheorems.Apply(l, op, save, now).records[k];
            && (r == l.records[k] || (save.Unsynced? && r == l.records[k].(state := InDoubt, updatedAt := now)))
            && (!Transitional(l.records[k].state) ==> r == l.records[k])
  {
    hide SessionLedgerTheorems.Apply, Proposes, KeptUnwritten, Proposed, Concerns;
    OperationShape(l, op, save, now);
    ProposalLeavesOthers(l, op, now, k);
  }

  lemma ProposalLeavesOthers(l: Ledger, op: Op, now: Time, k: Key)
    requires k in l.records && !Concerns(l, op, k)
    ensures k in Proposed(l, op, now) && Proposed(l, op, now)[k] == l.records[k]
  {
    hide Trim;
  }

  /** An update that is done has stored state and result in memory and in the file; one
      that is not saved has left the record, but for a doubt, which is kept. */
  lemma UpdateStores(l: Ledger, k: Key, state: State, result: Option<Result>, save: Save, now: Time)
    requires k in l.records && !l.broken
    ensures var (l', o) := Update(l, k, state, result, save, now);
            var r := l.records[k].(state := state, result := result, updatedAt := now);
            && (o == Invalid <==> !ValidRecord(k, r))
            && (o == Invalid ==> l' == l)
            && (o == Done <==> ValidRecord(k, r) && save.Synced?)
            && (o == Done ==> k in l'.records && l'.records[k] == r && k in l'.visible && l'.visible[k] == r
                              && l'.versions == {l'.visible})
            && (o == NotSaved && save.NotCommitted? ==>
                  l' == if state.InDoubt? then l.(records := l.records[k := r]) else l)
  {
    hide ValidRecord;
  }

  /** An attempt is attached once: asking again for the same one is done at once, and
      another one is a conflict, whatever the save. */
  lemma AttemptIsAttachedOnce(l: Ledger, k: Key, a: Attempt, b: Attempt, save: Save, now: Time, later: Time)
    requires SetAttempt(l, k, a, Synced, now).1 == Done
    ensures var l' := SetAttempt(l, k, a, Synced, now).0;
            && k in l'.records && l'.records[k].attempt == Some(a) && l'.records[k].state == Reserved
            && SetAttempt(l', k, b, save, later) == (l', if b == a then Done else Conflict)
  {
    hide ValidRecord;
  }

  /** It is attached to a reservation only. */
  lemma AttemptNeedsReservation(l: Ledger, k: Key, a: Attempt, save: Save, now: Time)
    ensures SetAttempt(l, k, a, save, now).1 == Missing <==> !l.broken && (k !in l.records || l.records[k].state != Reserved)
    ensures k in l.records && l.records[k].attempt == None && ValidAttempt(a) && RecordsOk(l.records) && !l.broken
              && l.records[k].state == Reserved && save.Synced? ==>
              SetAttempt(l, k, a, save, now).1 == Done
  {
    hide SafeText, IsDigest, ValidAttempt, Saved;
    if k in l.records && RecordsOk(l.records) {
      OneIsValid(l.records, k);
    }
  }

  /** A deletion goes on exactly when no record of the session is left unmarked, or their
      marking is durable; it is then marked in memory and in the file. */
  lemma DeletionGoesOn(l: Ledger, raw: string, save: Save, now: Time)
    requires !l.broken && Trim(raw) != ""
    ensures var (l', o) := PrepareDelete(l, raw, save, now);
            && (o == Done || o == Nothing <==> save.Synced? || forall k :: k in l.records && SessionOf(l.records[k]) == Trim(raw) ==>
                  l.records[k].state == Deleting)
            && (o == Done || o == Nothing ==> forall k :: k in l'.records && SessionOf(l'.records[k]) == Trim(raw) ==>
                  l'.records[k].state == Deleting)
  {
    hide Trim;
    var session := Trim(raw);
    if AnyToDoom(l.records, session) {
      var k :| k in l.records && SessionOf(l.records[k]) == session && !l.records[k].state.Deleting?;
      assert l.records[k].state != Deleting;
    }
  }

  /** A request for a key that is not on record proceeds, once its reservation is durable,
      unless the ledger is full. */
  lemma NewKeyIsAnswered(l: Ledger, k: Key, hash: Hash, legacy: seq<Hash>, save: Save, now: Time)
    requires !l.broken && k !in l.records && ValidRecord(k, NewReservation(hash, now))
    ensures Begin(l, k, hash, legacy, save, now).1
         == if |l.records| >= 4096 then BeginFull else if save.Synced? then Proceed else BeginNotSaved
    ensures |l.records| >= 4096 || save.NotCommitted? ==> Begin(l, k, hash, legacy, save, now).0 == l
  {
    hide ValidRecord;
  }

  // ----- What can be recorded -----

  /** What is trimmed are the spaces at the ends, all of them and nothing else. */
  lemma TrimIsExact(s: string)
    ensures exists i, j :: 0 <= i <= j <= |s| && Trim(s) == s[i..j]
              && (forall k :: 0 <= k < |s| && (k < i || j <= k) ==> IsSpace(s[k]))
              && (i < j ==> !IsSpace(s[i]) && !IsSpace(s[j - 1]))
  {
    hide IsSpace;
    var i := LeftEnd(s);
    var j := RightEnd(TrimLeft(s));
    assert TrimLeft(s)[..j] == s[i..i + j];
    forall k | 0 <= k < |s| && (k < i || i + j <= k)
      ensures IsSpace(s[k])
    {
      assert k >= i ==> TrimLeft(s)[k - i] == s[k];
    }
    assert j > 0 ==> TrimLeft(s)[0] == s[i] && TrimLeft(s)[j - 1] == s[i + j - 1];
  }

  lemma {:induction false} LeftEnd(s: string) returns (i: nat)
    ensures i <= |s| && TrimLeft(s) == s[i..] && (forall k :: 0 <= k < i ==> IsSpace(s[k]))
    ensures i < |s| ==> !IsSpace(s[i])
  {
    hide IsSpace;
    if s != "" && IsSpace(s[0]) {
      var n := LeftEnd(s[1..]);
      i := n + 1;
      assert s[1..][n..] == s[i..];
      forall k | 0 <= k < i
        ensures IsSpace(s[k])
      {
        assert k > 0 ==> s[k] == s[1..][k - 1];
      }
    } else {
      i := 0;
    }
  }

  lemma {:induction false} RightEnd(s: string) returns (j: nat)
    ensures j <= |s| && TrimRight(s) == s[..j] && (forall k :: j <= k < |s| ==> IsSpace(s[k]))
    ensures j > 0 ==> !IsSpace(s[j - 1])
    decreases |s|
  {
    hide IsSpace;
    if s != "" && IsSpace(s[|s| - 1]) {
      j := RightEnd(s[..|s| - 1]);
      assert s[..|s| - 1][..j] == s[..j];
    } else {
      j := |s|;
      assert s[..j] == s;
    }
  }

  predicate OneLine(s: string) {
    forall i :: 0 <= i < |s| ==> s[i] !in "\0\r\n"
  }

  predicate Recordable(session: Option<string>) {
    session.Some? && (exists i :: 0 <= i < |session.value| && !IsSpace(session.value[i])) && ByteLength(session.value) <= 256
    && OneLine(session.value)
  }

  lemma BlankIsTrimmed(s: string)
    ensures Trim(s) == "" <==> forall i :: 0 <= i < |s| ==> IsSpace(s[i])
  {
    hide IsSpace;
    TrimIsExact(s);
    var i, j :| 0 <= i <= j <= |s| && Trim(s) == s[i..j]
                && (forall k :: 0 <= k < |s| && (k < i || j <= k) ==> IsSpace(s[k]))
                && (i < j ==> !IsSpace(s[i]) && !IsSpace(s[j - 1]));
    if i < j {
      assert !IsSpace(s[i]);
    }
  }

  /** A record without an attempt is valid exactly when its key and its hash fit, it has a
      time, its state is known, a recorded session is a line of up to 256 bytes that is
      not blank, and there is one wherever a session is known to have been made. */
  lemma ValidExactly(k: Key, r: Record)
    requires r.attempt == None
    ensures ValidRecord(k, r) <==>
              && 0 < |k| && ByteLength(k) <= 160 && OneLine(k) && IsDigest(r.hash) && r.updatedAt != 0
              && !r.state.Unrecognised?
              && (r.state == Reserved ==> r.result == None)
              && (r.state in {ThreadCreated, Succeeded, Deleting} ==> r.result.Some?)
              && (r.result.Some? ==> Recordable(r.result.value.sessionId))
  {
    hide IsDigest, IsSpace, Trim;
    if r.result.Some? && r.result.value.sessionId.Some? {
      BlankIsTrimmed(r.result.value.sessionId.value);
    }
  }
}
