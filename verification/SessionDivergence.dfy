/** A run in which memory and the file come to disagree about a record: a session is
    deleted while the creation that made it is still under way. */
module SessionDivergence {
  import opened Options
  import opened StateFile
  import opened SessionLedger
  import opened SessionLedgerTheorems
  import opened SessionProtocol
  import opened SessionReplay
  import opened SessionRequests

  /** A ledger with one durable record. */
  function Single(k: Key, r: Record): (l: Ledger) {
    Ledger(map[k := r], map[k := r], {map[k := r]}, false)
  }

  /** One Codex call at a phase, and its durable record. */
  ghost predicate Working(s: System, k: Key, p: Phase, r: Record) {
    s.up && s.ledger == Single(k, r) && s.calls == map[0 := Call(k, Codex, p)]
  }

  function Created(hash: Hash, session: Session, state: State, now: Time): (r: Record) {
    Record(hash, state, None, Known(session, ""), now)
  }

  ghost predicate Usable(k: Key, hash: Hash, session: Session, now: Time) {
    ValidRecord(k, NewReservation(hash, now)) && ValidSession(Some(session)) && Trim(session) == session
  }

  /** From the first start to the session that was made and recorded. */
  function MakeSession(k: Key, hash: Hash, session: Session, now: Time): (steps: seq<Step>) {
    [Restart(true, now), BeginCreate(0, Codex, k, hash, [], Synced, now), SendCreate(0), ReceiveReply(0, NewSession(session)),
     SaveVisibility(0, true), RecordThread(0, Synced, now)]
  }

  /** Somebody deletes it; its first turn then ends unclearly, and the doubt cannot be
      written. */
  function DeleteMeanwhile(session: Session, now: Time): (steps: seq<Step>) {
    [StartDelete(0, session), DeletePrepare(0, Synced, now), FirstTurn(0, TurnUnclear), PutInDoubt(0, NotCommitted, now)]
  }

  lemma SendsIt(s: System, k: Key, r: Record, session: Session)
    requires Working(s, k, Unsent, r) && s.made == map[] && session != ""
    ensures Enabled(s, SendCreate(0))
    ensures var t := SessionProtocol.Apply(s, SendCreate(0));
            Working(t, k, Sent, r) && t.made == map[] && Enabled(t, ReceiveReply(0, NewSession(session)))
  {
  }

  lemma Answers(s: System, k: Key, r: Record, session: Session)
    requires Working(s, k, Sent, r) && s.made == map[] && session != ""
    ensures Enabled(s, ReceiveReply(0, NewSession(session)))
    ensures Working(SessionProtocol.Apply(s, ReceiveReply(0, NewSession(session))), k, Made(session), r)
  {
  }

  lemma Shows(s: System, k: Key, r: Record, session: Session)
    requires Working(s, k, Made(session), r)
    ensures Enabled(s, SaveVisibility(0, true))
    ensures Working(SessionProtocol.Apply(s, SaveVisibility(0, true)), k, Recording(session), r)
  {
  }

  lemma RecordedLedger(k: Key, hash: Hash, session: Session, now: Time)
    requires Usable(k, hash, session, now)
    ensures Update(Single(k, NewReservation(hash, now)), k, ThreadCreated, Known(session, ""), Synced, now)
         == (Single(k, Created(hash, session, ThreadCreated, now)), Done)
  {
    hide SafeText, IsDigest;
    var r := NewReservation(hash, now);
    assert map[k := r][k := Created(hash, session, ThreadCreated, now)] == map[k := Created(hash, session, ThreadCreated, now)];
  }

  lemma RecordsIt(s: System, k: Key, hash: Hash, session: Session, now: Time)
    requires Usable(k, hash, session, now) && Working(s, k, Recording(session), NewReservation(hash, now))
    ensures Enabled(s, RecordThread(0, Synced, now))
    ensures Working(SessionProtocol.Apply(s, RecordThread(0, Synced, now)), k, Turning(session),
                    Created(hash, session, ThreadCreated, now))
  {
    hide Update, ValidRecord, Trim;
    RecordedLedger(k, hash, session, now);
  }

  lemma DoomedLedger(k: Key, hash: Hash, session: Session, now: Time)
    requires Usable(k, hash, session, now)
    ensures PrepareDelete(Single(k, Created(hash, session, ThreadCreated, now)), session, Synced, now)
         == (Single(k, Created(hash, session, Deleting, now)), Done)
  {
    hide SafeText, IsDigest;
    var r := Created(hash, session, ThreadCreated, now);
    var records: Records := map[k := r];
    assert AllDoomed(records, session, now) == map[k := Created(hash, session, Deleting, now)];
    assert SessionOf(records[k]) == session;
  }

  /** The deletion marks the record under the feet of the call. */
  lemma DeletesIt(s: System, k: Key, hash: Hash, session: Session, now: Time) returns (states: seq<System>)
    requires Usable(k, hash, session, now) && s.deletions == map[]
    requires Working(s, k, Turning(session), Created(hash, session, ThreadCreated, now))
    ensures |states| == 3 && states[0] == s
    ensures Enabled(s, StartDelete(0, session)) && states[1] == SessionProtocol.Apply(s, StartDelete(0, session))
    ensures Enabled(states[1], DeletePrepare(0, Synced, now))
    ensures states[2] == SessionProtocol.Apply(states[1], DeletePrepare(0, Synced, now))
    ensures Working(states[2], k, Turning(session), Created(hash, session, Deleting, now))
  {
    hide PrepareDelete, ValidRecord, Trim, SafeText;
    DoomedLedger(k, hash, session, now);
    var s1 := SessionProtocol.Apply(s, StartDelete(0, session));
    var s2 := SessionProtocol.Apply(s1, DeletePrepare(0, Synced, now));
    states := [s, s1, s2];
  }

  lemma Doubts(s: System, k: Key, r: Record, session: Session)
    requires Working(s, k, Turning(session), r)
    ensures Enabled(s, FirstTurn(0, TurnUnclear))
    ensures Working(SessionProtocol.Apply(s, FirstTurn(0, TurnUnclear)), k, Doubtful(session), r)
  {
  }

  lemma DivergedLedger(k: Key, hash: Hash, session: Session, now: Time)
    requires Usable(k, hash, session, now)
    ensures var l := Single(k, Created(hash, session, Deleting, now));
            var l' := Update(l, k, InDoubt, Known(session, ""), NotCommitted, now).0;
            && Agrees(l) && !Agrees(l') && k in l'.records && k in l'.visible
            && l'.records[k].state == InDoubt && l'.visible[k].state == Deleting
  {
    hide SafeText, IsDigest;
  }

  lemma CannotWrite(s: System, k: Key, hash: Hash, session: Session, now: Time)
    requires Usable(k, hash, session, now) && Working(s, k, Doubtful(session), Created(hash, session, Deleting, now))
    ensures Enabled(s, PutInDoubt(0, NotCommitted, now))
    ensures var l := SessionProtocol.Apply(s, PutInDoubt(0, NotCommitted, now)).ledger;
            && Agrees(s.ledger) && !Agrees(l) && k in l.records && k in l.visible
            && l.records[k].state == InDoubt && l.visible[k].state == Deleting
  {
    hide Update, ValidRecord, Trim, Agrees;
    DivergedLedger(k, hash, session, now);
  }

  lemma SessionIsMade(k: Key, hash: Hash, session: Session, now: Time) returns (states: seq<System>)
    requires Usable(k, hash, session, now)
    ensures IsRun(states, MakeSession(k, hash, session, now)) && states[6].deletions == map[]
    ensures Working(states[6], k, Turning(session), Created(hash, session, ThreadCreated, now))
  {
    hide SessionProtocol.Apply, Enabled, ValidRecord, Working, Usable;
    var s0 := Initial();
    StoreOpens(now);
    NothingMadeYet(now);
    var s1 := SessionProtocol.Apply(s0, Restart(true, now));
    UsableIsValid(k, hash, session, now);
    FirstReserves(s1, k, hash, now);
    var s2 := SessionProtocol.Apply(s1, BeginCreate(0, Codex, k, hash, [], Synced, now));
    var r := NewReservation(hash, now);
    assert Working(s2, k, Unsent, r) by {
      ReservedWorks(s2, k, hash, now);
    }
    BeginMakesNothing(s1, k, hash, now);
    SendsIt(s2, k, r, session);
    var s3 := SessionProtocol.Apply(s2, SendCreate(0));
    Answers(s3, k, r, session);
    var s4 := SessionProtocol.Apply(s3, ReceiveReply(0, NewSession(session)));
    Shows(s4, k, r, session);
    var s5 := SessionProtocol.Apply(s4, SaveVisibility(0, true));
    RecordsIt(s5, k, hash, session, now);
    var s6 := SessionProtocol.Apply(s5, RecordThread(0, Synced, now));
    states := [s0, s1, s2, s3, s4, s5, s6];
    NoDeletions(s2, SendCreate(0));
    NoDeletions(s3, ReceiveReply(0, NewSession(session)));
    NoDeletions(s4, SaveVisibility(0, true));
    NoDeletions(s5, RecordThread(0, Synced, now));
  }

  lemma ReservedWorks(s: System, k: Key, hash: Hash, now: Time)
    requires var one := map[k := NewReservation(hash, now)];
             s.up && s.ledger == Ledger(one, one, {one}, false) && s.calls == map[0 := Call(k, Codex, Unsent)]
    ensures Working(s, k, Unsent, NewReservation(hash, now))
  {
  }

  lemma UsableIsValid(k: Key, hash: Hash, session: Session, now: Time)
    requires Usable(k, hash, session, now)
    ensures ValidRecord(k, NewReservation(hash, now)) && session != ""
  {
    hide SafeText, IsDigest;
  }

  lemma NothingMadeYet(now: Time)
    requires Enabled(Initial(), Restart(true, now))
    ensures var s := SessionProtocol.Apply(Initial(), Restart(true, now)); s.made == map[] && s.deletions == map[]
  {
  }

  lemma BeginMakesNothing(s: System, k: Key, hash: Hash, now: Time)
    requires Enabled(s, BeginCreate(0, Codex, k, hash, [], Synced, now))
    ensures var t := SessionProtocol.Apply(s, BeginCreate(0, Codex, k, hash, [], Synced, now));
            t.made == s.made && t.deletions == s.deletions
  {
    hide Begin;
  }

  lemma NoDeletions(s: System, step: Step)
    requires Enabled(s, step) && (step.SendCreate? || step.ReceiveReply? || step.SaveVisibility? || step.RecordThread?)
    ensures SessionProtocol.Apply(s, step).deletions == s.deletions
  {
    hide Update;
  }

  /** From an unused data directory: the session of a creation is deleted while its
      first turn runs, the turn ends unclearly, and the update to "in_doubt" cannot be
      written; memory then says in doubt and the file says deleting. */
  lemma DivergenceHappens(k: Key, hash: Hash, session: Session, now: Time) returns (states: seq<System>, steps: seq<Step>)
    requires Usable(k, hash, session, now)
    ensures IsRun(states, steps) && steps == MakeSession(k, hash, session, now) + DeleteMeanwhile(session, now)
    ensures |states| == 11 && Agrees(states[9].ledger) && !Agrees(states[10].ledger)
    ensures var l := states[10].ledger;
            k in l.records && k in l.visible && l.records[k].state == InDoubt && l.visible[k].state == Deleting
  {
    hide SessionProtocol.Apply, Enabled, Working, Agrees, Usable, Initial;
    var a := SessionIsMade(k, hash, session, now);
    var b := DeletesIt(a[6], k, hash, session, now);
    Doubts(b[2], k, Created(hash, session, Deleting, now), session);
    var s9 := SessionProtocol.Apply(b[2], FirstTurn(0, TurnUnclear));
    CannotWrite(s9, k, hash, session, now);
    var s10 := SessionProtocol.Apply(s9, PutInDoubt(0, NotCommitted, now));
    var p, q := MakeSession(k, hash, session, now), DeleteMeanwhile(session, now);
    states, steps := a + [b[1], b[2], s9, s10], p + q;
    forall i | 0 <= i < |steps|
      ensures Enabled(states[i], steps[i]) && states[i + 1] == SessionProtocol.Apply(states[i], steps[i])
    {
      if i < 6 {
        assert states[i] == a[i] && states[i + 1] == a[i + 1] && steps[i] == p[i];
      } else {
        assert steps[i] == q[i - 6];
      }
    }
  }

  /** A request asks for these steps. */
  lemma DivergenceIsAsked(digest: Digest, q: Request, session: Session, now: Time)
    requires Accepted(q) && q.provider.Codex? && !SaysNothing(q.inputs)
    ensures FromRequests(digest, {q}, MakeSession(StoreKey(q), SpecHash(digest, q), session, now) + DeleteMeanwhile(session, now))
  {
    hide Resolve;
    var steps := MakeSession(StoreKey(q), SpecHash(digest, q), session, now) + DeleteMeanwhile(session, now);
    assert SessionRequests.Asks(digest, steps[1], q);
  }
}
