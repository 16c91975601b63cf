/** What a repeated session.create is answered at every stage of the first: a result only
    if a call completed with it, and otherwise that the creation is in progress or in
    doubt. */
module SessionAnswers {
  import opened Options
  import opened SessionLedger
  import opened StateFile
  import opened SessionLedgerTheorems
  import opened SessionProtocol
  import opened SessionRequests
  import opened SessionTheorems
  import opened SessionQuiet
  import opened SessionReplay

  // ----- A result is answered only if a call completed with it -----

  /** A call for the key completes with this result, and the result is installed. */
  ghost predicate Completes(s: System, step: Step, k: Key, r: Result) {
    && step.Complete? && step.call in s.calls && s.calls[step.call].key == k && s.calls[step.call].phase.Completing?
    && r == Result(Some(s.calls[step.call].phase.session), false, step.details) && !step.save.NotCommitted?
  }

  /** The keys and results with which calls have completed. */
  ghost function Completed(states: seq<System>, steps: seq<Step>, n: nat): (done: set<(Key, Result)>)
    requires Runs(states, steps) && n <= |steps|
  {
    if n == 0 then {}
    else
      var (s, step) := (states[n - 1], steps[n - 1]);
      Completed(states, steps, n - 1) +
      if step.Complete? && step.call in s.calls && s.calls[step.call].phase.Completing? && !step.save.NotCommitted?
      then {(s.calls[step.call].key, Result(Some(s.calls[step.call].phase.session), false, step.details))} else {}
  }

  lemma {:induction false} CompletedByAStep(states: seq<System>, steps: seq<Step>, n: nat, k: Key, r: Result)
    requires Runs(states, steps) && n <= |steps| && (k, r) in Completed(states, steps, n)
    ensures exists i :: 0 <= i < n && Completes(states[i], steps[i], k, r)
  {
    hide Enabled, SessionProtocol.Apply;
    if (k, r) in Completed(states, steps, n - 1) {
      CompletedByAStep(states, steps, n - 1, k, r);
    } else {
      assert Completes(states[n - 1], steps[n - 1], k, r);
    }
  }

  /** Success is recorded only with a result some call completed with, and no result says
      that its creation was confirmed otherwise. */
  ghost predicate Proven(records: Records, done: set<(Key, Result)>) {
    forall k :: k in records ==>
      && (records[k].state.Succeeded? ==> records[k].result.Some? && (k, records[k].result.value) in done)
      && (records[k].result.Some? ==> !records[k].result.value.confirmed)
  }

  ghost predicate ProvenLedger(l: Ledger, done: set<(Key, Result)>) {
    Proven(l.records, done) && l.visible in l.versions && forall v :: v in l.versions ==> Proven(v, done)
  }

  lemma MarkedIsProven(records: Records, now: Time, done: set<(Key, Result)>)
    requires Proven(records, done)
    ensures Proven(Marked(records, now), done)
  {
  }

  ghost predicate ProvesResult(op: Op, done: set<(Key, Result)>) {
    op.DoUpdate? ==>
      && (op.result.Some? ==> !op.result.value.confirmed)
      && (op.state.Succeeded? ==> op.result.Some? && (op.key, op.result.value) in done)
  }

  lemma ProposedIsProven(l: Ledger, op: Op, now: Time, done: set<(Key, Result)>)
    requires Proven(l.records, done) && ProvesResult(op, done)
    ensures Proven(Proposed(l, op, now), done)
  {
    hide Trim;
  }

  lemma OperationIsProven(l: Ledger, op: Op, save: Save, now: Time, done: set<(Key, Result)>)
    requires ProvenLedger(l, done) && ProvesResult(op, done)
    ensures ProvenLedger(SessionLedgerTheorems.Apply(l, op, save, now), done)
  {
    hide SessionLedgerTheorems.Apply, Proposed, Proposes, KeptUnwritten, Proven, ProvesResult, Marked;
    OperationShape(l, op, save, now);
    StaysOpen(l, op, save, now);
    ProposedIsProven(l, op, now, done);
    MarkedIsProven(Proposed(l, op, now), now, done);
  }

  lemma MoreIsProven(l: Ledger, done: set<(Key, Result)>, more: set<(Key, Result)>)
    requires ProvenLedger(l, done) && done <= more
    ensures ProvenLedger(l, more)
  {
  }

  lemma UnwrittenCompletion(s: System, step: Step)
    requires Enabled(s, step) && step.Complete? && step.save.NotCommitted?
    ensures LedgerAfter(s, step) == s.ledger
  {
    hide ValidRecord;
  }

  lemma ProvenThroughCrash(s: System, step: Step, done: set<(Key, Result)>)
    requires Enabled(s, step) && ProvenLedger(s.ledger, done)
    requires step.PowerLoss? || step.Restart? || EffectOf(s, step).NoEffect?
    ensures ProvenLedger(LedgerAfter(s, step), done)
  {
    hide RecordsOk, Proven, Marked, SessionLedgerTheorems.Apply;
    if step.Restart? {
      MarkedIsProven(s.ledger.visible, step.now, done);
      assert Proven(map[], done) by {
        NothingIsProven(done);
      }
    }
  }

  lemma NothingIsProven(done: set<(Key, Result)>)
    ensures Proven(map[], done)
  {
  }

  lemma {:induction false} ProvenInRun(states: seq<System>, steps: seq<Step>, n: nat)
    requires IsRun(states, steps) && n <= |steps|
    ensures ProvenLedger(states[n].ledger, Completed(states, steps, n))
  {
    hide Enabled, SessionProtocol.Apply, Initial, ProvenLedger;
    if n == 0 {
      InitialIsProven();
    } else {
      ProvenInRun(states, steps, n - 1);
      assert Enabled(states[n - 1], steps[n - 1]) && states[n] == SessionProtocol.Apply(states[n - 1], steps[n - 1]);
      var done := Completed(states, steps, n);
      MoreIsProven(states[n - 1].ledger, Completed(states, steps, n - 1), done);
      NewlyCompleted(states[n - 1], steps[n - 1]);
      ProvenStays(states[n - 1], steps[n - 1], done);
    }
  }

  lemma InitialIsProven()
    ensures ProvenLedger(Initial().ledger, {})
  {
  }

  lemma NewlyCompleted(s: System, step: Step)
    requires Enabled(s, step)
    ensures step.Complete? ==> step.call in s.calls && s.calls[step.call].phase.Completing?
  {
  }

  lemma ProvenStays(s: System, step: Step, done: set<(Key, Result)>)
    requires Enabled(s, step) && ProvenLedger(s.ledger, done)
    requires step.Complete? && !step.save.NotCommitted? ==>
               && step.call in s.calls && s.calls[step.call].phase.Completing?
               && (s.calls[step.call].key, Result(Some(s.calls[step.call].phase.session), false, step.details)) in done
    ensures ProvenLedger(SessionProtocol.Apply(s, step).ledger, done)
  {
    hide ProvenLedger, LedgerAfter, CallsAfter, DeletionsAfter, IssuedAfter, MadeAfter, EffectOf, ProvesResult;
    LedgerIsTheNext(s, step);
    if step.PowerLoss? || step.Restart? || EffectOf(s, step).NoEffect? {
      ProvenThroughCrash(s, step, done);
    } else if step.Complete? && step.save.NotCommitted? {
      UnwrittenCompletion(s, step);
    } else {
      var e := EffectOf(s, step);
      DropsOnlyWhenFreeing(s, step);
      OperationProves(s, step, done);
      OperationIsProven(s.ledger, e.op, e.save, e.now, done);
    }
  }

  lemma OperationProves(s: System, step: Step, done: set<(Key, Result)>)
    requires Enabled(s, step) && EffectOf(s, step).Operation? && !(step.Complete? && step.save.NotCommitted?)
    requires step.Complete? ==>
               && step.call in s.calls && s.calls[step.call].phase.Completing?
               && (s.calls[step.call].key, Result(Some(s.calls[step.call].phase.session), false, step.details)) in done
    ensures ProvesResult(EffectOf(s, step).op, done)
  {
  }

  /** In every run, a request that is answered with a result is answered with one with
      which an earlier call for its key completed, and which was recorded then. */
  lemma ResultsAreEarned(states: seq<System>, steps: seq<Step>, n: nat,
                         k: Key, hash: Hash, legacy: seq<Hash>, save: Save, now: Time)
    requires IsRun(states, steps) && n <= |steps| && Begin(states[n].ledger, k, hash, legacy, save, now).1.Replay?
    ensures var b := Begin(states[n].ledger, k, hash, legacy, save, now).1;
            && b.result.Some?
            && exists i :: 0 <= i < n && Completes(states[i], steps[i], k, b.result.value)
  {
    hide Completes, Completed;
    ProvenInRun(states, steps, n);
    var b := Begin(states[n].ledger, k, hash, legacy, save, now).1;
    ReplayIsRecorded(states[n].ledger, Completed(states, steps, n), k, hash, legacy, save, now);
    CompletedByAStep(states, steps, n, k, b.result.value);
  }

  lemma ReplayIsRecorded(l: Ledger, done: set<(Key, Result)>, k: Key, hash: Hash, legacy: seq<Hash>, save: Save, now: Time)
    requires ProvenLedger(l, done) && Begin(l, k, hash, legacy, save, now).1.Replay?
    ensures var b := Begin(l, k, hash, legacy, save, now).1; b.result.Some? && (k, b.result.value) in done
  {
    hide ValidRecord, SavedOrTakenBack, Trim;
  }

  // ----- Until then it is in progress or in doubt -----

  /** What a request is answered by the state of the record, if no result is confirmed. */
  lemma AnswerByState(l: Ledger, digest: Digest, requests: set<Request>, p: Request, q: Request, save: Save, now: Time)
    requires GoodDigest(digest, requests) && p in requests && q in requests && Accepted(p) && Accepted(q)
    requires StoreKey(p) == StoreKey(q) && !l.broken && RecordsOk(l.records) && StoreKey(q) in l.records
    requires var r := l.records[StoreKey(q)];
             r.hash == SpecHash(digest, q) && (r.result.Some? ==> !r.result.value.confirmed)
    ensures var state := l.records[StoreKey(q)].state;
            && (!SameSpec(p, q) ==> AnswerTo(l, digest, p, save, now) == BeginConflict)
            && (SameSpec(p, q) && state.Reserved? ==> AnswerTo(l, digest, p, save, now) == BeginInProgress)
            && (SameSpec(p, q) && (state.InDoubt? || state.ThreadCreated? || state.Deleting?) ==>
                  AnswerTo(l, digest, p, save, now) == BeginInDoubt)
  {
    hide GoodDigest, Accepted, RecordsOk, Begin, StoreKey, SpecHash, LegacyHashes, SameSpec, IsDigest, SaysNothing;
    HashesTellRequestsApart(digest, requests, p, q);
    HashesTellRequestsApart(digest, requests, q, p);
    OneIsValid(l.records, StoreKey(q));
    StateAnswer(l, StoreKey(q), SpecHash(digest, p), LegacyHashes(digest, p), save, now);
  }

  lemma StateAnswer(l: Ledger, k: Key, hash: Hash, legacy: seq<Hash>, save: Save, now: Time)
    requires !l.broken && k in l.records && ValidRecord(k, l.records[k]) && IsDigest(hash)
    requires l.records[k].result.Some? ==> !l.records[k].result.value.confirmed
    requires l.records[k].hash == hash || l.records[k].hash !in legacy
    ensures var (r, b) := (l.records[k], Begin(l, k, hash, legacy, save, now).1);
            && (r.hash != hash ==> b == BeginConflict)
            && (r.hash == hash && r.state.Reserved? ==> b == BeginInProgress)
            && (r.hash == hash && (r.state.InDoubt? || r.state.ThreadCreated? || r.state.Deleting?) ==> b == BeginInDoubt)
  {
    hide SafeText, IsDigest, Trim;
  }

  /** The call that the request began at `b` is still under way at `n`. */
  ghost predicate UnderWay(states: seq<System>, steps: seq<Step>, b: nat, n: nat, digest: Digest, q: Request)
    requires Runs(states, steps)
  {
    && b < n <= |steps| && Asks(digest, steps[b], q)
    && Reserves(states[b], steps[b], steps[b].call, StoreKey(q), SpecHash(digest, q))
    && forall m :: b < m <= n ==> steps[b].call in states[m].calls && states[m].calls[steps[b].call].key == StoreKey(q)
  }

  lemma InitialIsOnlyFiles()
    ensures OnlyFiles(Initial())
  {
  }

  lemma UnderWayIsOnRecord(states: seq<System>, steps: seq<Step>, b: nat, n: nat, digest: Digest, q: Request)
    requires IsRun(states, steps) && UnderWay(states, steps, b, n, digest, q) && AllQuiet(states, steps, n)
    ensures OnRecord(states, b + 1, n, StoreKey(q))
    ensures states[n].up && !states[n].ledger.broken && StoreKey(q) in states[n].ledger.records
    ensures Matches(states[n].calls[steps[b].call].phase, states[n].ledger.records[StoreKey(q)])
  {
    hide Enabled, SessionProtocol.Apply, Initial, Quiet, Reserves, Matches, Agrees, Asks, StoreKey, SpecHash;
    NothingIsOrderly();
    forall m | b < m <= n
      ensures Orderly(states[m])
    {
      OrderlyInRun(states, steps, m);
    }
  }

  /** What the answer needs of a key that has been on record since the call began. */
  lemma AnswerSinceBegin(states: seq<System>, steps: seq<Step>, b: nat, j: nat, digest: Digest, requests: set<Request>,
                         q: Request, p: Request, save: Save, now: Time)
    requires IsRun(states, steps) && b < j <= |steps| && Asks(digest, steps[b], q)
    requires Reserves(states[b], steps[b], steps[b].call, StoreKey(q), SpecHash(digest, q))
    requires FromRequests(digest, requests, steps) && GoodDigest(digest, requests)
    requires q in requests && p in requests && Accepted(p) && StoreKey(p) == StoreKey(q)
    requires OnRecord(states, b + 1, j, StoreKey(q)) && states[j].up && !states[j].ledger.broken
    ensures StoreKey(q) in states[j].ledger.records
    ensures var state := states[j].ledger.records[StoreKey(q)].state;
            && (!SameSpec(p, q) ==> AnswerTo(states[j].ledger, digest, p, save, now) == BeginConflict)
            && (SameSpec(p, q) && state.Reserved? ==> AnswerTo(states[j].ledger, digest, p, save, now) == BeginInProgress)
            && (SameSpec(p, q) && (state.InDoubt? || state.ThreadCreated? || state.Deleting?) ==>
                  AnswerTo(states[j].ledger, digest, p, save, now) == BeginInDoubt)
  {
    hide Enabled, SessionProtocol.Apply, Initial, Reserves, OnlyFiles, RecordsOk, GoodDigest, Accepted, AnswerTo, StoreKey,
      SpecHash, FromRequests, SameSpec, ProvenLedger, Completed;
    var k, hashes := StoreKey(q), {SpecHash(digest, q)};
    assert Enabled(states[b], steps[b]) && states[b + 1] == SessionProtocol.Apply(states[b], steps[b]);
    InitialIsOnlyFiles();
    ReservedIsFiled(states[b], steps[b], steps[b].call, k, SpecHash(digest, q));
    CurrentHashStays(digest, requests, steps, q, k);
    FiledInRun(states, steps, b + 1, j, k, hashes);
    FilesLoadInRun(states, steps, j);
    ProvenInRun(states, steps, j);
    NothingConfirmed(states[j].ledger, Completed(states, steps, j), k);
    assert states[j].ledger.records[k].hash in hashes;
    AnswerByState(states[j].ledger, digest, requests, p, q, save, now);
  }

  lemma NothingConfirmed(l: Ledger, done: set<(Key, Result)>, k: Key)
    requires ProvenLedger(l, done) && k in l.records
    ensures l.records[k].result.Some? ==> !l.records[k].result.value.confirmed
  {
  }

  // ----- Before the session is recorded -----

  /** The step installs something whose durability is in doubt. */
  predicate Unsyncs(s: System, step: Step)
    requires Enabled(s, step)
  {
    EffectOf(s, step).Operation? && EffectOf(s, step).save.Unsynced?
  }

  lemma UnmarkedRecord(l: Ledger, op: Op, save: Save, now: Time, k: Key)
    requires k in l.records && !Touches(l, op, k) && !save.Unsynced?
    ensures k in SessionLedgerTheorems.Apply(l, op, save, now).records
    ensures SessionLedgerTheorems.Apply(l, op, save, now).records[k].state == l.records[k].state
  {
    hide SessionLedgerTheorems.Apply, Proposes, KeptUnwritten, Proposed, Touches, Marked;
    OperationShape(l, op, save, now);
    UntouchedProposal(l, op, now, k);
  }

  predicate RecordsSession(step: Step, call: nat) {
    step.RecordThread? && step.call == call
  }

  lemma ReservedStays(s: System, step: Step, c: nat)
    requires Orderly(s) && Enabled(s, step) && Quiet(s, step) && !Unsyncs(s, step) && !RecordsSession(step, c)
    requires c in s.calls && c in CallsAfter(s, step)
    requires s.calls[c].key in s.ledger.records && s.ledger.records[s.calls[c].key].state.Reserved?
    ensures s.calls[c].key in LedgerAfter(s, step).records
    ensures LedgerAfter(s, step).records[s.calls[c].key].state.Reserved?
  {
    hide Orderly, Quiet, Touches, EffectOf, CallsAfter, LedgerAfter, SessionLedgerTheorems.Apply, Enabled;
    var k := s.calls[c].key;
    if EffectOf(s, step).Operation? {
      var e := EffectOf(s, step);
      DropsOnlyWhenFreeing(s, step);
      if Touches(s.ledger, e.op, k) {
        QuietTouches(s, step, c);
        OnlyTwoGoOn(s, step, c);
        ReservedIsNotCleaned(s, step, c);
      } else {
        UnmarkedRecord(s.ledger, e.op, e.save, e.now, k);
      }
    } else {
      CallsComeFrom(s, step, c);
      NoEffectKeepsLedger(s, step, c);
    }
  }

  lemma ReservedIsNotCleaned(s: System, step: Step, c: nat)
    requires Orderly(s) && Enabled(s, step) && c in s.calls && s.calls[c].key in s.ledger.records
    requires s.ledger.records[s.calls[c].key].state.Reserved?
    ensures !(step.CleanPrepare? && step.call == c)
  {
    hide Agrees;
  }

  lemma {:induction false} ReservedInRun(states: seq<System>, steps: seq<Step>, b: nat, n: nat, c: nat, k: Key)
    requires IsRun(states, steps) && b < n <= |steps| && AllQuiet(states, steps, n)
    requires steps[b].BeginCreate? && Reserves(states[b], steps[b], c, k, steps[b].hash)
    requires forall m :: b < m <= n ==> c in states[m].calls && states[m].calls[c].key == k
    requires forall m :: b < m < n ==> !Unsyncs(states[m], steps[m]) && !RecordsSession(steps[m], c)
    ensures k in states[n].ledger.records && states[n].ledger.records[k].state.Reserved?
    decreases n
  {
    hide Enabled, SessionProtocol.Apply, Initial, Quiet, Unsyncs, RecordsSession, Orderly, Reserves;
    var (s, step) := (states[n - 1], steps[n - 1]);
    assert Enabled(s, step) && states[n] == SessionProtocol.Apply(s, step);
    if n == b + 1 {
      BegunReserves(s, step, c, k, step.hash);
    } else {
      CallsAreNext(s, step);
      ReservedInRun(states, steps, b, n - 1, c, k);
      NothingIsOrderly();
      OrderlyInRun(states, steps, n - 1);
      ReservedStays(s, step, c);
      LedgerIsTheNext(s, step);
    }
  }

  lemma CallsAreNext(s: System, step: Step)
    requires Enabled(s, step)
    ensures SessionProtocol.Apply(s, step).calls == CallsAfter(s, step)
  {
    hide LedgerAfter, CallsAfter, DeletionsAfter, IssuedAfter, MadeAfter;
  }

  lemma BegunReserves(s: System, step: Step, call: nat, k: Key, hash: Hash)
    requires Enabled(s, step) && Reserves(s, step, call, k, hash)
    ensures var l := SessionProtocol.Apply(s, step).ledger; k in l.records && l.records[k].state.Reserved?
  {
    hide CallsAfter, DeletionsAfter, IssuedAfter, MadeAfter, Begin;
    ProceedReserves(s.ledger, k, hash, step.legacy, step.save, step.now);
  }

  /** While the call has not recorded its session, the same request is answered that it
      is in progress, or - only after some save was not durable - in doubt; any other
      request with the key meets a conflict. */
  lemma UnrecordedIsInProgress(states: seq<System>, steps: seq<Step>, b: nat, n: nat, digest: Digest, requests: set<Request>,
                               q: Request, p: Request, save: Save, now: Time)
    requires IsRun(states, steps) && UnderWay(states, steps, b, n, digest, q) && AllQuiet(states, steps, n)
    requires FromRequests(digest, requests, steps) && GoodDigest(digest, requests)
    requires q in requests && p in requests && Accepted(p) && StoreKey(p) == StoreKey(q)
    requires forall m :: b < m < n ==> !RecordsSession(steps[m], steps[b].call)
    ensures var a := AnswerTo(states[n].ledger, digest, p, save, now);
            if !SameSpec(p, q) then a == BeginConflict
            else
              && (a == BeginInProgress || a == BeginInDoubt)
              && ((forall m :: b < m < n ==> !Unsyncs(states[m], steps[m])) ==> a == BeginInProgress)
  {
    hide Enabled, SessionProtocol.Apply, Initial, Quiet, Unsyncs, StoreKey, SpecHash, Reserves, AnswerTo, SameSpec,
      GoodDigest, Accepted, FromRequests, OnRecord, RecordsSession;
    UnderWayIsOnRecord(states, steps, b, n, digest, q);
    AnswerSinceBegin(states, steps, b, n, digest, requests, q, p, save, now);
    if forall m :: b < m < n ==> !Unsyncs(states[m], steps[m]) {
      ReservedInRun(states, steps, b, n, steps[b].call, StoreKey(q));
    }
  }

  // ----- After the session is recorded -----

  predicate Threaded(p: Phase, r: Record) {
    && (p.Turning? || p.Completing? || p.Doubtful? || p.Cleaning?)
    && (r.state.ThreadCreated? || r.state.InDoubt? || r.state.Deleting?)
  }

  lemma ThreadedStays(s: System, step: Step, c: nat)
    requires Orderly(s) && Enabled(s, step) && Quiet(s, step) && c in s.calls && c in CallsAfter(s, step)
    requires s.calls[c].key in s.ledger.records && Threaded(s.calls[c].phase, s.ledger.records[s.calls[c].key])
    requires s.calls[c].key in LedgerAfter(s, step).records
    ensures Threaded(CallsAfter(s, step)[c].phase, LedgerAfter(s, step).records[s.calls[c].key])
  {
    hide Orderly, Quiet, Touches, EffectOf, CallsAfter, LedgerAfter, SessionLedgerTheorems.Apply, Threaded;
    var k := s.calls[c].key;
    if EffectOf(s, step).Operation? {
      var e := EffectOf(s, step);
      DropsOnlyWhenFreeing(s, step);
      if Touches(s.ledger, e.op, k) {
        QuietTouches(s, step, c);
        OnlyTwoGoOn(s, step, c);
        OpenForCalls(s, c);
        PreparedIsThreaded(s, step, c);
      } else {
        UntouchedRecord(s.ledger, e.op, e.save, e.now, k);
        UntouchedCall(s, step, c);
        SameIsThreaded(s.calls[c].phase, CallsAfter(s, step)[c].phase, s.ledger.records[k], LedgerAfter(s, step).records[k]);
      }
    } else {
      NoEffectKeepsLedger(s, step, c);
      SilentIsThreaded(s, step, c);
    }
  }

  lemma SameIsThreaded(p: Phase, p': Phase, r: Record, r': Record)
    requires Threaded(p, r) && SameUpToStage(p, p') && SameOrMarked(r, r')
    ensures Threaded(p', r')
  {
  }

  lemma SilentIsThreaded(s: System, step: Step, c: nat)
    requires Enabled(s, step) && EffectOf(s, step).NoEffect? && c in s.calls && c in CallsAfter(s, step)
    requires s.calls[c].key in s.ledger.records && Threaded(s.calls[c].phase, s.ledger.records[s.calls[c].key])
    ensures Threaded(CallsAfter(s, step)[c].phase, s.ledger.records[s.calls[c].key])
  {
    hide LedgerAfter;
  }

  lemma PreparedIsThreaded(s: System, step: Step, c: nat)
    requires Enabled(s, step) && (step.RecordThread? || step.CleanPrepare?) && step.call == c && c in CallsAfter(s, step)
    requires s.calls[c].key in s.ledger.records && !s.ledger.broken
    requires Threaded(s.calls[c].phase, s.ledger.records[s.calls[c].key])
    ensures s.calls[c].key in LedgerAfter(s, step).records
    ensures Threaded(CallsAfter(s, step)[c].phase, LedgerAfter(s, step).records[s.calls[c].key])
  {
    hide Trim, PrepareDelete, Update;
    assert step.CleanPrepare?;
    PreparedRecord(s.ledger, s.calls[c].phase.session, step.save, step.now, s.calls[c].key);
  }

  lemma OpenForCalls(s: System, c: nat)
    requires Orderly(s) && c in s.calls
    ensures s.up && !s.ledger.broken && s.calls[c].key in s.ledger.records
  {
    hide Agrees, Matches;
  }

  lemma RecordsThread(s: System, step: Step, c: nat)
    requires Enabled(s, step) && step.RecordThread? && step.call == c && c in CallsAfter(s, step)
    ensures s.calls[c].key in LedgerAfter(s, step).records
    ensures Threaded(CallsAfter(s, step)[c].phase, LedgerAfter(s, step).records[s.calls[c].key])
  {
    hide ValidRecord;
  }

  lemma {:induction false} ThreadedInRun(states: seq<System>, steps: seq<Step>, m: nat, n: nat, c: nat, k: Key)
    requires IsRun(states, steps) && m < n <= |steps| && AllQuiet(states, steps, n)
    requires steps[m].RecordThread? && steps[m].call == c
    requires forall x :: m <= x <= n ==> c in states[x].calls && states[x].calls[c].key == k
    ensures k in states[n].ledger.records && Threaded(states[n].calls[c].phase, states[n].ledger.records[k])
    decreases n
  {
    hide Enabled, SessionProtocol.Apply, Initial, Quiet, Threaded, Orderly;
    var (s, step) := (states[n - 1], steps[n - 1]);
    assert Enabled(s, step) && states[n] == SessionProtocol.Apply(s, step);
    CallsAreNext(s, step);
    LedgerIsTheNext(s, step);
    if n == m + 1 {
      RecordsThread(s, step, c);
    } else {
      ThreadedInRun(states, steps, m, n - 1, c, k);
      NothingIsOrderly();
      OrderlyInRun(states, steps, n - 1);
      OrderlyInRun(states, steps, n);
      OpenForCalls(states[n], c);
      ThreadedStays(s, step, c);
    }
  }

  /** From the moment the call recorded its session, while it is under way, the same
      request is answered that the creation is in doubt. */
  lemma RecordedIsInDoubt(states: seq<System>, steps: seq<Step>, b: nat, m: nat, n: nat, digest: Digest, requests: set<Request>,
                          q: Request, p: Request, save: Save, now: Time)
    requires IsRun(states, steps) && UnderWay(states, steps, b, n, digest, q) && AllQuiet(states, steps, n)
    requires b < m < n && steps[m].RecordThread? && steps[m].call == steps[b].call
    requires FromRequests(digest, requests, steps) && GoodDigest(digest, requests)
    requires q in requests && p in requests && Accepted(p) && StoreKey(p) == StoreKey(q)
    ensures AnswerTo(states[n].ledger, digest, p, save, now) == if SameSpec(p, q) then BeginInDoubt else BeginConflict
  {
    hide Enabled, SessionProtocol.Apply, Initial, Quiet, StoreKey, SpecHash, Reserves, AnswerTo, SameSpec, GoodDigest,
      Accepted, FromRequests, OnRecord;
    UnderWayIsOnRecord(states, steps, b, n, digest, q);
    AnswerSinceBegin(states, steps, b, n, digest, requests, q, p, save, now);
    ThreadedInRun(states, steps, m, n, steps[b].call, StoreKey(q));
  }

  // ----- In doubt, or being deleted -----

  /** Nothing but a release or a deletion concerns the key any more: its record is in
      doubt, or would be after a restart; or it is being deleted. */
  ghost predicate Stuck(s: System, k: Key, doomed: bool) {
    && (s.up && !s.ledger.broken ==> k in s.ledger.records && StuckState(s.ledger.records[k].state, doomed, true))
    && s.ledger.visible in s.ledger.versions
    && (forall v: Records :: v in s.ledger.versions ==> k in v && StuckState(v[k].state, doomed, false))
    && (forall c :: c in s.calls && s.calls[c].key == k ==> doomed && LateCleaning(s.calls[c].phase))
  }

  predicate StuckState(state: State, doomed: bool, inMemory: bool) {
    if doomed then state.Deleting? else state.InDoubt? || (!inMemory && Transitional(state))
  }

  predicate LateCleaning(p: Phase) {
    p.Cleaning? && !p.stage.Preparing?
  }

  /** The step releases the key, or begins the deletion of the session it has. */
  ghost predicate LetsGo(s: System, step: Step, k: Key, doomed: bool)
    requires Enabled(s, step)
  {
    if doomed then Frees(s, step, k)
    else (step.Release? && step.key == k)
         || (k in s.ledger.records && SessionOf(s.ledger.records[k]) != "" && Deletes(s, step, SessionOf(s.ledger.records[k])))
  }

  lemma StuckCalls(s: System, step: Step, k: Key, doomed: bool)
    requires Stuck(s, k, doomed) && Enabled(s, step) && (s.up && !s.ledger.broken ==> k in s.ledger.records)
    ensures forall c :: c in CallsAfter(s, step) && CallsAfter(s, step)[c].key == k ==>
              doomed && LateCleaning(CallsAfter(s, step)[c].phase)
  {
    hide Begin, StuckState, CallsAfter;
    forall c | c in CallsAfter(s, step) && CallsAfter(s, step)[c].key == k
      ensures doomed && LateCleaning(CallsAfter(s, step)[c].phase)
    {
      CallsComeFrom(s, step, c);
      if c !in s.calls {
        BegunNeedsProcess(s, step);
        ProceedReserves(s.ledger, step.key, step.hash, step.legacy, step.save, step.now);
      } else {
        LateStaysLate(s, step, c);
      }
    }
  }

  lemma LateStaysLate(s: System, step: Step, c: nat)
    requires Enabled(s, step) && c in s.calls && c in CallsAfter(s, step) && LateCleaning(s.calls[c].phase)
    ensures LateCleaning(CallsAfter(s, step)[c].phase)
  {
    hide Begin, Update, PrepareDelete;
  }

  /** What an operation that does not let the key go proposes for it. */
  lemma StuckProposal(l: Ledger, op: Op, now: Time, k: Key, doomed: bool)
    requires k in l.records && StuckState(l.records[k].state, doomed, true)
    requires op.DoUpdate? || op.DoAbort? || op.DoSetAttempt? ==> op.key != k
    requires !doomed ==> op != DoRelease(k)
                         && (op.DoPrepareDelete? ==> Trim(op.session) == "" || SessionOf(l.records[k]) != Trim(op.session))
    requires doomed ==> k in Proposed(l, op, now)
    ensures Proposes(l, op, now) ==> k in Proposed(l, op, now) && StuckState(Proposed(l, op, now)[k].state, doomed, true)
  {
    hide Trim, ValidRecord;
  }

  lemma StuckSaves(l: Ledger, records: Records, save: Save, now: Time, k: Key, doomed: bool)
    requires k in records && StuckState(records[k].state, doomed, true)
    requires k in l.records && StuckState(l.records[k].state, doomed, true)
    requires forall v: Records :: v in l.versions ==> k in v && StuckState(v[k].state, doomed, false)
    ensures var l' := SavedOrTakenBack(l, records, save, now);
            && k in l'.records && StuckState(l'.records[k].state, doomed, true)
            && forall v: Records :: v in l'.versions ==> k in v && StuckState(v[k].state, doomed, false)
  {
  }

  lemma StuckOperation(l: Ledger, op: Op, save: Save, now: Time, k: Key, doomed: bool)
    requires !l.broken && k in l.records && StuckState(l.records[k].state, doomed, true)
    requires forall v: Records :: v in l.versions ==> k in v && StuckState(v[k].state, doomed, false)
    requires op.DoUpdate? || op.DoAbort? || op.DoSetAttempt? ==> op.key != k
    requires !doomed ==> op != DoRelease(k)
                         && (op.DoPrepareDelete? ==> Trim(op.session) == "" || SessionOf(l.records[k]) != Trim(op.session))
    requires doomed ==> k in SessionLedgerTheorems.Apply(l, op, save, now).records
    ensures var l' := SessionLedgerTheorems.Apply(l, op, save, now);
            && k in l'.records && StuckState(l'.records[k].state, doomed, true)
            && forall v: Records :: v in l'.versions ==> k in v && StuckState(v[k].state, doomed, false)
  {
    hide SessionLedgerTheorems.Apply, Proposes, Proposed, KeptUnwritten, SavedOrTakenBack, StuckState, Trim;
    OperationShape(l, op, save, now);
    var l', records := SessionLedgerTheorems.Apply(l, op, save, now), Proposed(l, op, now);
    if l' != l {
      if doomed {
        DroppedIsDropped(l, op, save, now, k);
      }
      StuckProposal(l, op, now, k, doomed);
      StuckSaves(l, records, save, now, k, doomed);
      if KeptUnwritten(l, op, save, now) {
        assert l' == l.(records := records);
      }
    }
  }

  lemma DroppedIsDropped(l: Ledger, op: Op, save: Save, now: Time, k: Key)
    requires SessionLedgerTheorems.Apply(l, op, save, now) != l && k in SessionLedgerTheorems.Apply(l, op, save, now).records
    requires k in l.records
    ensures save.NotCommitted? || k in Proposed(l, op, now)
    ensures k !in Proposed(l, op, now) ==> SavedOrTakenBack(l, Proposed(l, op, now), save, now) == l
  {
    hide SessionLedgerTheorems.Apply, Proposes, Proposed, KeptUnwritten;
    OperationShape(l, op, save, now);
  }

  lemma StuckSpares(s: System, step: Step, k: Key, doomed: bool)
    requires Stuck(s, k, doomed) && Enabled(s, step) && EffectOf(s, step).Operation? && s.up && !s.ledger.broken
    requires !LetsGo(s, step, k, doomed)
    ensures var op := EffectOf(s, step).op;
            && k in s.ledger.records
            && (op.DoUpdate? || op.DoAbort? || op.DoSetAttempt? ==> op.key != k)
            && (!doomed ==> op != DoRelease(k)
                            && (op.DoPrepareDelete? ==> Trim(op.session) == "" || SessionOf(s.ledger.records[k]) != Trim(op.session)))
  {
    hide Trim, StuckState, Frees, SessionOf;
  }

  lemma StuckIsNotDropped(s: System, step: Step, k: Key)
    requires Enabled(s, step) && EffectOf(s, step).Operation? && k in s.ledger.records && !Frees(s, step, k)
    ensures k in LedgerAfter(s, step).records
  {
    hide LedgerAfter, EffectOf, SessionLedgerTheorems.Apply;
    var e := EffectOf(s, step);
    DropsOnlyWhenFreeing(s, step);
    if !DropsKeys(e.op) {
      OtherOperationsKeepKeys(s.ledger, e.op, e.save, e.now);
    }
  }

  lemma StuckLedger(s: System, step: Step, k: Key, doomed: bool)
    requires Stuck(s, k, doomed) && Enabled(s, step) && EffectOf(s, step).Operation? && s.up
    requires !LetsGo(s, step, k, doomed)
    ensures var l := LedgerAfter(s, step);
            && (!l.broken ==> k in l.records && StuckState(l.records[k].state, doomed, true))
            && (forall v: Records :: v in l.versions ==> k in v && StuckState(v[k].state, doomed, false))
  {
    hide LedgerAfter, EffectOf, SessionLedgerTheorems.Apply, Frees, StuckState, Deletes;
    var e := EffectOf(s, step);
    DropsOnlyWhenFreeing(s, step);
    StaysOpen(s.ledger, e.op, e.save, e.now);
    if s.ledger.broken {
      BrokenStaysPut(s.ledger, e.op, e.save, e.now);
    } else {
      StuckSpares(s, step, k, doomed);
      if doomed {
        StuckIsNotDropped(s, step, k);
      }
      StuckOperation(s.ledger, e.op, e.save, e.now, k, doomed);
    }
  }

  lemma StuckThroughCrash(s: System, step: Step, k: Key, doomed: bool)
    requires Stuck(s, k, doomed) && Enabled(s, step)
    requires step.PowerLoss? || step.Restart? || EffectOf(s, step).NoEffect?
    ensures var (l, up) := (LedgerAfter(s, step), UpAfter(s, step));
            && (up && !l.broken ==> k in l.records && StuckState(l.records[k].state, doomed, true))
            && (forall v: Records :: v in l.versions ==> k in v && StuckState(v[k].state, doomed, false))
  {
    hide RecordsOk, SessionLedgerTheorems.Apply;
  }

  lemma StuckStays(s: System, step: Step, k: Key, doomed: bool)
    requires Stuck(s, k, doomed) && Enabled(s, step) && !LetsGo(s, step, k, doomed)
    requires forall c :: c in s.calls ==> s.up && !s.ledger.broken
    ensures Stuck(SessionProtocol.Apply(s, step), k, doomed)
  {
    hide LedgerAfter, CallsAfter, DeletionsAfter, MadeAfter, IssuedAfter, EffectOf, StuckState, LetsGo, Enabled, LateCleaning, UpAfter;
    VisibleIsAVersion(s, step);
    StuckCalls(s, step, k, doomed);
    if step.PowerLoss? || step.Restart? || EffectOf(s, step).NoEffect? {
      StuckThroughCrash(s, step, k, doomed);
    } else {
      OperationNeedsProcess(s, step);
      StuckLedger(s, step, k, doomed);
    }
  }

  ghost predicate NeverLetsGo(states: seq<System>, steps: seq<Step>, i: nat, j: nat, k: Key, doomed: bool)
    requires Runs(states, steps) && j <= |steps|
  {
    forall n :: i <= n < j ==> !LetsGo(states[n], steps[n], k, doomed)
  }

  lemma {:induction false} StuckInRun(states: seq<System>, steps: seq<Step>, i: nat, j: nat, k: Key, doomed: bool)
    requires IsRun(states, steps) && i <= j <= |steps| && AllQuiet(states, steps, j)
    requires Stuck(states[i], k, doomed) && NeverLetsGo(states, steps, i, j, k, doomed)
    ensures Stuck(states[j], k, doomed)
  {
    hide Orderly, Enabled, SessionProtocol.Apply, Initial, Quiet, Stuck, LetsGo;
    if i < j {
      StuckInRun(states, steps, i, j - 1, k, doomed);
      assert Enabled(states[j - 1], steps[j - 1]) && states[j] == SessionProtocol.Apply(states[j - 1], steps[j - 1]);
      NothingIsOrderly();
      OrderlyInRun(states, steps, j - 1);
      CallsNeedLedger(states[j - 1]);
      StuckStays(states[j - 1], steps[j - 1], k, doomed);
    }
  }

  // ----- A call in every version of the file -----

  predicate NotCleaning(p: Phase) {
    !p.Cleaning?
  }

  predicate Pending(state: State) {
    Transitional(state) || state.InDoubt?
  }

  /** The record of a call that has not begun to clean up is pending in every version. */
  ghost predicate PendingEverywhere(s: System) {
    && s.ledger.visible in s.ledger.versions
    && forall c, v: Records :: c in s.calls && NotCleaning(s.calls[c].phase) && v in s.ledger.versions ==>
         s.calls[c].key in v && Pending(v[s.calls[c].key].state)
  }

  lemma MatchedIsPending(p: Phase, r: Record)
    requires Matches(p, r) && NotCleaning(p)
    ensures Pending(r.state)
  {
  }

  lemma NewVersions(l: Ledger, op: Op, save: Save, now: Time, k: Key)
    requires forall v: Records :: v in l.versions ==> k in v && Pending(v[k].state)
    requires var l' := SessionLedgerTheorems.Apply(l, op, save, now); k in l'.records && Pending(l'.records[k].state)
    ensures forall v: Records :: v in SessionLedgerTheorems.Apply(l, op, save, now).versions ==> k in v && Pending(v[k].state)
  {
    hide SessionLedgerTheorems.Apply, Proposed, Proposes, KeptUnwritten;
    OperationShape(l, op, save, now);
    var records := Proposed(l, op, now);
    if save.Unsynced? && k in records {
      assert k in Marked(records, now);
    }
  }

  lemma NotCleaningBefore(s: System, step: Step, c: nat)
    requires Enabled(s, step) && c in s.calls && c in CallsAfter(s, step) && NotCleaning(CallsAfter(s, step)[c].phase)
    ensures NotCleaning(s.calls[c].phase)
  {
    hide Update, PrepareDelete, Begin;
  }

  lemma NewCallIsPending(s: System, step: Step)
    requires Enabled(s, step) && step.BeginCreate?
    requires Begin(s.ledger, step.key, step.hash, step.legacy, step.save, step.now).1.Proceed?
    ensures forall v: Records :: v in LedgerAfter(s, step).versions ==> step.key in v && Pending(v[step.key].state)
  {
    hide Begin;
    ProceedReserves(s.ledger, step.key, step.hash, step.legacy, step.save, step.now);
  }

  lemma CallStaysPending(s: System, step: Step, c: nat)
    requires Orderly(s) && PendingEverywhere(s) && Enabled(s, step) && Quiet(s, step)
    requires c in CallsAfter(s, step) && NotCleaning(CallsAfter(s, step)[c].phase)
    ensures forall v: Records :: v in LedgerAfter(s, step).versions ==>
              CallsAfter(s, step)[c].key in v && Pending(v[CallsAfter(s, step)[c].key].state)
  {
    hide Orderly, CallsAfter, LedgerAfter, EffectOf, SessionLedgerTheorems.Apply, Pending, NotCleaning, Quiet, Matches, Begin;
    CallsComeFrom(s, step, c);
    if c !in s.calls {
      NewCallIsPending(s, step);
    } else {
      NotCleaningBefore(s, step, c);
      var k := s.calls[c].key;
      if EffectOf(s, step).Operation? {
        var e := EffectOf(s, step);
        DropsOnlyWhenFreeing(s, step);
        CalledKeyStays(s, step, c);
        CallsAreNext(s, step);
        LedgerIsTheNext(s, step);
        MatchedIsPending(CallsAfter(s, step)[c].phase, LedgerAfter(s, step).records[k]);
        NewVersions(s.ledger, e.op, e.save, e.now, k);
      } else {
        NoEffectKeepsLedger(s, step, c);
      }
    }
  }

  lemma PendingStays(s: System, step: Step)
    requires Orderly(s) && PendingEverywhere(s) && Enabled(s, step) && Quiet(s, step)
    ensures PendingEverywhere(SessionProtocol.Apply(s, step))
  {
    hide Orderly, CallsAfter, LedgerAfter, Pending, NotCleaning, Quiet, Enabled, DeletionsAfter, MadeAfter, IssuedAfter;
    VisibleIsAVersion(s, step);
    forall c | c in CallsAfter(s, step) && NotCleaning(CallsAfter(s, step)[c].phase)
      ensures forall v: Records :: v in LedgerAfter(s, step).versions ==>
                CallsAfter(s, step)[c].key in v && Pending(v[CallsAfter(s, step)[c].key].state)
    {
      CallStaysPending(s, step, c);
    }
  }

  lemma {:induction false} PendingInRun(states: seq<System>, steps: seq<Step>, n: nat)
    requires IsRun(states, steps) && n <= |steps| && AllQuiet(states, steps, n)
    ensures PendingEverywhere(states[n])
  {
    hide Orderly, Enabled, SessionProtocol.Apply, Initial, Quiet, PendingEverywhere;
    if n == 0 {
      NothingIsPending();
    } else {
      PendingInRun(states, steps, n - 1);
      assert Enabled(states[n - 1], steps[n - 1]) && states[n] == SessionProtocol.Apply(states[n - 1], steps[n - 1]);
      NothingIsOrderly();
      OrderlyInRun(states, steps, n - 1);
      PendingStays(states[n - 1], steps[n - 1]);
    }
  }

  lemma NothingIsPending()
    ensures PendingEverywhere(Initial())
  {
  }

  // ----- The two theorems -----

  /** The call puts its key in doubt, with a session that can be recorded, if it has one. */
  ghost predicate Doubts(s: System, step: Step, call: nat)
    requires Enabled(s, step)
  {
    && step.PutInDoubt? && step.call == call
    && (s.calls[call].phase.Doubtful? ==> ValidSession(Some(s.calls[call].phase.session)))
  }

  lemma DoubtIsValid(k: Key, r: Record, session: Option<Session>, now: Time)
    requires ValidRecord(k, r) && (session.Some? ==> ValidSession(session))
    ensures ValidRecord(k, Changed(r, InDoubt, if session.Some? then Known(session.value, "") else None, now))
  {
    hide SafeText, IsDigest, ValidAttempt, Trim;
  }

  lemma DoubtInLedger(l: Ledger, k: Key, result: Option<Result>, save: Save, now: Time)
    requires !l.broken && k in l.records && ValidRecord(k, Changed(l.records[k], InDoubt, result, now))
    requires forall v: Records :: v in l.versions ==> k in v && Pending(v[k].state)
    ensures var l' := Update(l, k, InDoubt, result, save, now).0;
            && k in l'.records && l'.records[k].state.InDoubt?
            && forall v: Records :: v in l'.versions ==> k in v && Pending(v[k].state)
  {
    hide ValidRecord;
  }

  lemma DoubtSticks(s: System, step: Step, call: nat)
    requires Orderly(s) && PendingEverywhere(s) && LedgerOk(s.ledger) && Enabled(s, step) && Doubts(s, step, call)
    ensures Stuck(SessionProtocol.Apply(s, step), s.calls[call].key, false)
  {
    hide Agrees, Matches, RecordsOk, Known, ValidRecord, Update, MadeAfter, IssuedAfter, DeletionsAfter, Trim, ValidSession, Pending;
    var c := s.calls[call];
    OpenForCalls(s, call);
    OneIsValid(s.ledger.records, c.key);
    DoubtIsValid(c.key, s.ledger.records[c.key], if c.phase.Vague? then None else Some(c.phase.session), step.now);
    var result := if c.phase.Vague? then None else Known(c.phase.session, "");
    DoubtInLedger(s.ledger, c.key, result, step.save, step.now);
    VisibleIsAVersion(s, step);
    PendingIsStuck(Update(s.ledger, c.key, InDoubt, result, step.save, step.now).0, c.key);
  }

  lemma PendingIsStuck(l: Ledger, k: Key)
    requires k in l.records && l.records[k].state.InDoubt?
    requires forall v: Records :: v in l.versions ==> k in v && Pending(v[k].state)
    ensures StuckState(l.records[k].state, false, true)
    ensures forall v: Records :: v in l.versions ==> k in v && StuckState(v[k].state, false, false)
  {
  }

  lemma StuckIsThere(s: System, k: Key, doomed: bool)
    requires Stuck(s, k, doomed) && s.up && !s.ledger.broken
    ensures k in s.ledger.records && StuckState(s.ledger.records[k].state, doomed, true)
  {
    hide StuckState;
  }

  /** Once the call has put its key in doubt, however the save went, the same request is
      answered that the creation is in doubt, across all crashes, until the key is
      released or the deletion of the session it has begins. */
  lemma DoubtIsAnswered(states: seq<System>, steps: seq<Step>, b: nat, i: nat, j: nat, digest: Digest, requests: set<Request>,
                        q: Request, p: Request, save: Save, now: Time)
    requires IsRun(states, steps) && i < j <= |steps| && UnderWay(states, steps, b, i, digest, q) && AllQuiet(states, steps, j)
    requires Doubts(states[i], steps[i], steps[b].call) && NeverLetsGo(states, steps, i + 1, j, StoreKey(q), false)
    requires FromRequests(digest, requests, steps) && GoodDigest(digest, requests)
    requires q in requests && p in requests && Accepted(p) && StoreKey(p) == StoreKey(q)
    requires states[j].up && !states[j].ledger.broken
    ensures AnswerTo(states[j].ledger, digest, p, save, now) == if SameSpec(p, q) then BeginInDoubt else BeginConflict
  {
    hide Enabled, SessionProtocol.Apply, Initial, Quiet, StoreKey, SpecHash, Reserves, AnswerTo, SameSpec, GoodDigest,
      Accepted, FromRequests, Orderly, PendingEverywhere, LedgerOk, Stuck, Doubts, LetsGo, Matches;
    var k := StoreKey(q);
    assert Enabled(states[i], steps[i]) && states[i + 1] == SessionProtocol.Apply(states[i], steps[i]);
    NothingIsOrderly();
    OrderlyInRun(states, steps, i);
    PendingInRun(states, steps, i);
    InitialIsOnlyFiles();
    FilesLoadInRun(states, steps, i);
    DoubtSticks(states[i], steps[i], steps[b].call);
    UnderWayIsOnRecord(states, steps, b, i, digest, q);
    forall n | i < n <= j && states[n].up && !states[n].ledger.broken
      ensures k in states[n].ledger.records && StuckState(states[n].ledger.records[k].state, false, true)
    {
      StuckInRun(states, steps, i + 1, n, k, false);
      StuckIsThere(states[n], k, false);
    }
    AnswerSinceBegin(states, steps, b, j, digest, requests, q, p, save, now);
  }

  lemma DeletionSticks(s: System, step: Step, k: Key, r: Result)
    requires Acknowledged(s, k, r) && r.sessionId.Some? && r.sessionId.value != "" && Enabled(s, step)
    requires s.up && !s.ledger.broken && Deletes(s, step, r.sessionId.value) && step.save.Synced?
    ensures Stuck(SessionProtocol.Apply(s, step), k, true)
  {
    hide MadeAfter, IssuedAfter, DeletionsAfter, Trim;
    var raw := if step.CleanPrepare? then s.calls[step.call].phase.session else s.deletions[step.deletion].session;
    DoomedInLedger(s.ledger, raw, step.now, k, r);
    StuckCallsOfNobody(s, step, k);
  }

  lemma DoomedInLedger(l: Ledger, raw: string, now: Time, k: Key, r: Result)
    requires !l.broken && Holds(l.records, k, r) && r.sessionId.Some? && r.sessionId.value != "" && Trim(raw) == r.sessionId.value
    ensures var l' := PrepareDelete(l, raw, Synced, now).0;
            k in l'.records && l'.records[k].state.Deleting? && l'.versions == {l'.records} && l'.visible == l'.records
  {
    hide Trim;
    assert SessionOf(l.records[k]) == r.sessionId.value;
  }

  lemma StuckCallsOfNobody(s: System, step: Step, k: Key)
    requires Enabled(s, step) && !step.BeginCreate? && forall c :: c in s.calls ==> s.calls[c].key != k
    ensures forall c :: c in CallsAfter(s, step) ==> CallsAfter(s, step)[c].key != k
  {
    hide CallsAfter;
    forall c | c in CallsAfter(s, step)
      ensures CallsAfter(s, step)[c].key != k
    {
      CallsComeFrom(s, step, c);
    }
  }

  /** Once the deletion of an acknowledged session is marked durably, its request is
      answered that the creation is in doubt, across all crashes, until the key is freed. */
  lemma DeletionIsAnswered(states: seq<System>, steps: seq<Step>, b: nat, i: nat, d: nat, j: nat, digest: Digest,
                           requests: set<Request>, q: Request, p: Request, r: Result, save: Save, now: Time)
    requires IsRun(states, steps) && d < j <= |steps| && AllQuiet(states, steps, j)
    requires Succeeds(states, steps, b, i, d, digest, q, r) && r.sessionId.value != ""
    requires states[d].up && !states[d].ledger.broken && Deletes(states[d], steps[d], r.sessionId.value) && steps[d].save.Synced?
    requires NeverLetsGo(states, steps, d + 1, j, StoreKey(q), true)
    requires FromRequests(digest, requests, steps) && GoodDigest(digest, requests)
    requires q in requests && p in requests && Accepted(p) && StoreKey(p) == StoreKey(q)
    requires states[j].up && !states[j].ledger.broken
    ensures AnswerTo(states[j].ledger, digest, p, save, now) == if SameSpec(p, q) then BeginInDoubt else BeginConflict
  {
    hide Enabled, SessionProtocol.Apply, Initial, Quiet, StoreKey, SpecHash, Reserves, Asks, AnswerTo, SameSpec, GoodDigest,
      Accepted, FromRequests, Orderly, LedgerOk, Stuck, LetsGo, Matches, Acknowledged, Acknowledges, Deletes;
    var k := StoreKey(q);
    assert Enabled(states[d], steps[d]) && states[d + 1] == SessionProtocol.Apply(states[d], steps[d]);
    InitialIsOnlyFiles();
    AcknowledgedInRun(states, steps, i, d, k, r);
    DeletionSticks(states[d], steps[d], k, r);
    OnRecordThroughout(states, steps, b, i, d, digest, q, r);
    forall n | d < n <= j && states[n].up && !states[n].ledger.broken
      ensures k in states[n].ledger.records && StuckState(states[n].ledger.records[k].state, true, true)
    {
      StuckInRun(states, steps, d + 1, n, k, true);
      StuckIsThere(states[n], k, true);
    }
    AnswerSinceBegin(states, steps, b, j, digest, requests, q, p, save, now);
  }
}
