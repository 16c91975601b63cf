/** A request whose session.create was acknowledged is replayed, through any crashes,
    until its session is deleted, also if an older version began it; and a run that
    strands a call. */
module SessionReplay {
  import opened Options
  import opened SessionLedger
  import opened StateFile
  import opened SessionLedgerTheorems
  import opened SessionProtocol
  import opened SessionTheorems
  import opened SessionQuiet
  import opened SessionRequests

  ghost predicate Holds(records: Records, k: Key, r: Result) {
    k in records && records[k].state.Succeeded? && records[k].result == Some(r)
  }

  /** The result of the key is in memory and in every version of the file. */
  ghost predicate Acknowledged(s: System, k: Key, r: Result) {
    && (s.up && !s.ledger.broken ==> Holds(s.ledger.records, k, r))
    && s.ledger.visible in s.ledger.versions
    && (forall v :: v in s.ledger.versions ==> Holds(v, k, r))
    && (forall c :: c in s.calls ==> s.calls[c].key != k)
  }

  /** The step begins the deletion of the session. */
  ghost predicate Deletes(s: System, step: Step, session: Session)
    requires Enabled(s, step)
  {
    || (step.CleanPrepare? && Trim(s.calls[step.call].phase.session) == session)
    || (step.DeletePrepare? && Trim(s.deletions[step.deletion].session) == session)
  }

  lemma OperationHolds(l: Ledger, op: Op, save: Save, now: Time, k: Key, r: Result)
    requires !l.broken && Holds(l.records, k, r) && forall v :: v in l.versions ==> Holds(v, k, r)
    requires Holds(Proposed(l, op, now), k, r)
    requires !KeptUnwritten(l, op, save, now) || op.key != k
    ensures var l' := SessionLedgerTheorems.Apply(l, op, save, now);
            Holds(l'.records, k, r) && forall v :: v in l'.versions ==> Holds(v, k, r)
  {
    hide SessionLedgerTheorems.Apply, Proposes, Proposed, KeptUnwritten;
    OperationShape(l, op, save, now);
  }

  lemma ProposalHolds(l: Ledger, op: Op, now: Time, k: Key, r: Result)
    requires Holds(l.records, k, r)
    requires op.DoUpdate? || op.DoAbort? || op.DoRelease? || op.DoSetAttempt? ==> op.key != k
    requires op.DoPrepareDelete? ==> SessionOf(l.records[k]) != Trim(op.session)
    ensures Holds(Proposed(l, op, now), k, r)
  {
    hide Trim;
  }

  /** A release or a finished deletion does not concern a record that succeeded. */
  lemma ReleaseSparesSuccess(l: Ledger, save: Save, now: Time, k: Key, r: Result)
    requires Holds(l.records, k, r)
    ensures SessionLedgerTheorems.Apply(l, DoRelease(k), save, now) == l
  {
  }

  lemma AcknowledgedOperation(s: System, step: Step, k: Key, r: Result)
    requires s.up && Acknowledged(s, k, r) && Enabled(s, step) && EffectOf(s, step).Operation?
    requires r.sessionId.Some? && !Deletes(s, step, r.sessionId.value)
    ensures var t := SessionProtocol.Apply(s, step);
            && (!t.ledger.broken ==> Holds(t.ledger.records, k, r))
            && (forall v :: v in t.ledger.versions ==> Holds(v, k, r))
  {
    hide SessionLedgerTheorems.Apply, Holds, EffectOf, CallsAfter, DeletionsAfter, IssuedAfter, MadeAfter, LedgerAfter, Deletes, Trim;
    var e := EffectOf(s, step);
    DropsOnlyWhenFreeing(s, step);
    StaysOpen(s.ledger, e.op, e.save, e.now);
    if s.ledger.broken {
      BrokenStaysPut(s.ledger, e.op, e.save, e.now);
    } else if e.op == DoRelease(k) {
      ReleaseSparesSuccess(s.ledger, e.save, e.now, k, r);
    } else {
      EffectSpares(s, step, k, r);
      ProposalHolds(s.ledger, e.op, e.now, k, r);
      OperationHolds(s.ledger, e.op, e.save, e.now, k, r);
    }
  }

  lemma EffectSpares(s: System, step: Step, k: Key, r: Result)
    requires s.up && !s.ledger.broken && Acknowledged(s, k, r) && Enabled(s, step) && EffectOf(s, step).Operation?
    requires r.sessionId.Some? && !Deletes(s, step, r.sessionId.value) && EffectOf(s, step).op != DoRelease(k)
    ensures var op := EffectOf(s, step).op;
            && (op.DoUpdate? || op.DoAbort? || op.DoRelease? || op.DoSetAttempt? ==> op.key != k)
            && (op.DoPrepareDelete? ==> SessionOf(s.ledger.records[k]) != Trim(op.session))
  {
    hide Trim;
  }

  lemma AcknowledgedStays(s: System, step: Step, k: Key, r: Result)
    requires Acknowledged(s, k, r) && Enabled(s, step)
    requires r.sessionId.Some? && !Deletes(s, step, r.sessionId.value)
    requires forall c :: c in s.calls ==> s.up && !s.ledger.broken
    ensures Acknowledged(SessionProtocol.Apply(s, step), k, r)
  {
    hide SessionLedgerTheorems.Apply, Holds, EffectOf, CallsAfter, DeletionsAfter, IssuedAfter, MadeAfter, Deletes,
      LedgerAfter, Begin, Enabled;
    var t := SessionProtocol.Apply(s, step);
    VisibleIsAVersion(s, step);
    forall c | c in t.calls
      ensures t.calls[c].key != k
    {
      CallsComeFrom(s, step, c);
      if c !in s.calls {
        BegunNeedsProcess(s, step);
        ProceedReserves(s.ledger, step.key, step.hash, step.legacy, step.save, step.now);
        HeldIsThere(s.ledger.records, k, r);
      }
    }
    if EffectOf(s, step).Operation? {
      OperationNeedsProcess(s, step);
      AcknowledgedOperation(s, step, k, r);
    } else {
      QuietLedgerHolds(s, step, k, r);
    }
  }

  lemma HeldIsThere(records: Records, k: Key, r: Result)
    requires Holds(records, k, r)
    ensures k in records
  {
  }

  lemma BegunNeedsProcess(s: System, step: Step)
    requires Enabled(s, step) && step.BeginCreate?
    ensures s.up
  {
  }

  /** Crashes, power losses, restarts, and steps that leave the ledger alone. */
  lemma QuietLedgerHolds(s: System, step: Step, k: Key, r: Result)
    requires Acknowledged(s, k, r) && Enabled(s, step) && EffectOf(s, step).NoEffect?
    ensures var t := SessionProtocol.Apply(s, step);
            && (t.up && !t.ledger.broken ==> Holds(t.ledger.records, k, r))
            && (forall v :: v in t.ledger.versions ==> Holds(v, k, r))
  {
    hide SessionLedgerTheorems.Apply, CallsAfter, DeletionsAfter, IssuedAfter, MadeAfter, RecordsOk;
  }

  // ----- The theorem -----

  /** The call records the success of its creation, and the caller is told. */
  ghost predicate Acknowledges(s: System, step: Step, k: Key, r: Result)
    requires Enabled(s, step)
  {
    && step.Complete? && s.calls[step.call].key == k && r == Result(Some(s.calls[step.call].phase.session), false, step.details)
    && Update(s.ledger, k, Succeeded, Some(r), step.save, step.now).1.Done?
  }

  lemma AcknowledgedAtOnce(s: System, step: Step, k: Key, r: Result)
    requires Orderly(s) && Enabled(s, step) && Acknowledges(s, step, k, r)
    ensures Acknowledged(SessionProtocol.Apply(s, step), k, r)
  {
    hide Agrees, Matches, ValidRecord, IssuedAfter, MadeAfter, DeletionsAfter;
  }

  /** A run from a data directory with any files that can be loaded, and no process. */
  ghost predicate RunsFromFiles(states: seq<System>, steps: seq<Step>) {
    Runs(states, steps) && OnlyFiles(states[0])
  }

  ghost predicate OnlyFiles(s: System) {
    !s.up && s.calls == map[] && s.deletions == map[] && s.ledger.broken && s.ledger.records == map[] && LedgerOk(s.ledger)
  }

  lemma OnlyFilesIsFine(s: System)
    requires OnlyFiles(s)
    ensures Orderly(s) && LedgerOk(s.ledger)
  {
  }

  lemma {:induction false} FilesLoadInRun(states: seq<System>, steps: seq<Step>, n: nat)
    requires RunsFromFiles(states, steps) && n <= |steps|
    ensures LedgerOk(states[n].ledger)
  {
    hide LedgerOk, Enabled, SessionProtocol.Apply;
    if n > 0 {
      FilesLoadInRun(states, steps, n - 1);
      assert Enabled(states[n - 1], steps[n - 1]);
      LedgerStaysOk(states[n - 1], steps[n - 1]);
      LedgerIsTheNext(states[n - 1], steps[n - 1]);
    }
  }

  lemma LedgerIsTheNext(s: System, step: Step)
    requires Enabled(s, step)
    ensures SessionProtocol.Apply(s, step).ledger == LedgerAfter(s, step)
  {
    hide LedgerAfter, CallsAfter, DeletionsAfter, IssuedAfter, MadeAfter;
  }

  ghost predicate NotDeleted(states: seq<System>, steps: seq<Step>, from: nat, j: nat, r: Result)
    requires Runs(states, steps) && j <= |steps|
  {
    r.sessionId.Some? && forall n :: from <= n < j ==> !Deletes(states[n], steps[n], r.sessionId.value)
  }

  /** A recorded result stays, in a quiet run, until the deletion of its session begins. */
  lemma {:induction false} AcknowledgedGoesOn(states: seq<System>, steps: seq<Step>, from: nat, j: nat, k: Key, r: Result)
    requires RunsFromFiles(states, steps) && from <= j <= |steps| && AllQuiet(states, steps, j)
    requires Acknowledged(states[from], k, r) && NotDeleted(states, steps, from, j, r)
    ensures Acknowledged(states[j], k, r)
  {
    hide Orderly, Enabled, SessionProtocol.Apply, Quiet, Strands, Acknowledged, Deletes, OnlyFiles;
    if from < j {
      AcknowledgedGoesOn(states, steps, from, j - 1, k, r);
      assert Enabled(states[j - 1], steps[j - 1]);
      assert states[j] == SessionProtocol.Apply(states[j - 1], steps[j - 1]);
      OnlyFilesIsFine(states[0]);
      OrderlyInRun(states, steps, j - 1);
      CallsNeedLedger(states[j - 1]);
      AcknowledgedStays(states[j - 1], steps[j - 1], k, r);
    }
  }

  lemma AcknowledgedInRun(states: seq<System>, steps: seq<Step>, i: nat, j: nat, k: Key, r: Result)
    requires RunsFromFiles(states, steps) && i < j <= |steps| && AllQuiet(states, steps, j)
    requires Acknowledges(states[i], steps[i], k, r) && NotDeleted(states, steps, i + 1, j, r)
    ensures Acknowledged(states[j], k, r)
  {
    hide Orderly, Enabled, SessionProtocol.Apply, Quiet, Strands, Acknowledged, Acknowledges, Deletes, OnlyFiles;
    OnlyFilesIsFine(states[0]);
    OrderlyInRun(states, steps, i);
    assert Enabled(states[i], steps[i]) && states[i + 1] == SessionProtocol.Apply(states[i], steps[i]);
    AcknowledgedAtOnce(states[i], steps[i], k, r);
    AcknowledgedGoesOn(states, steps, i + 1, j, k, r);
  }

  lemma CallsNeedLedger(s: System)
    requires Orderly(s)
    ensures forall c :: c in s.calls ==> s.up && !s.ledger.broken
  {
  }

  // ----- The hash of a recorded request -----

  /** Wherever the key is on record, it is under one of these hashes. */
  ghost predicate Filed(l: Ledger, k: Key, hashes: set<Hash>) {
    && (k in l.records ==> l.records[k].hash in hashes)
    && (forall v: Records :: v in l.versions && k in v ==> v[k].hash in hashes)
  }

  /** The step does not offer any of the hashes as its legacy hash of the key, unless
      its own is among them. */
  predicate StaysAmong(step: Step, k: Key, hashes: set<Hash>) {
    step.BeginCreate? && step.key == k && step.hash !in hashes ==> forall h :: h in hashes ==> h !in step.legacy
  }

  lemma SavingFiles(l: Ledger, records: Records, save: Save, now: Time, k: Key, hashes: set<Hash>)
    requires Filed(l, k, hashes) && (k in records ==> records[k].hash in hashes)
    ensures Filed(SavedOrTakenBack(l, records, save, now), k, hashes)
  {
  }

  lemma ProposalKeepsHash(l: Ledger, op: Op, now: Time, k: Key)
    requires k in l.records && k in Proposed(l, op, now) && !(op.DoBegin? && op.key == k)
    ensures Proposed(l, op, now)[k].hash == l.records[k].hash
  {
    hide Trim;
  }

  lemma ProposalAddsNothing(l: Ledger, op: Op, now: Time, k: Key)
    requires k !in l.records && k in Proposed(l, op, now)
    ensures op.DoBegin? && op.key == k
  {
    hide Trim;
  }

  lemma OperationFiles(l: Ledger, op: Op, save: Save, now: Time, k: Key, hashes: set<Hash>)
    requires Filed(l, k, hashes) && !(op.DoBegin? && op.key == k)
    ensures Filed(SessionLedgerTheorems.Apply(l, op, save, now), k, hashes)
  {
    hide SessionLedgerTheorems.Apply, Proposes, Proposed, KeptUnwritten, SavedOrTakenBack;
    OperationShape(l, op, save, now);
    var records := Proposed(l, op, now);
    if k in records {
      if k in l.records {
        ProposalKeepsHash(l, op, now, k);
      } else {
        ProposalAddsNothing(l, op, now, k);
      }
    }
    SavingFiles(l, records, save, now, k, hashes);
  }

  /** Asking for a recorded key changes at most its hash, from one that is offered. */
  lemma AskingFiles(l: Ledger, key: Key, hash: Hash, legacy: seq<Hash>, save: Save, now: Time, hashes: set<Hash>)
    requires Filed(l, key, hashes) && key in l.records
    requires hash in hashes || forall h :: h in hashes ==> h !in legacy
    ensures Filed(Begin(l, key, hash, legacy, save, now).0, key, hashes)
  {
    hide ValidRecord, Answer, SavedOrTakenBack;
    var current := l.records[key];
    if hash in hashes {
      SavingFiles(l, l.records[key := current.(hash := hash, updatedAt := now)], save, now, key, hashes);
    }
  }

  lemma FiledStays(s: System, step: Step, k: Key, hashes: set<Hash>)
    requires Enabled(s, step) && Filed(s.ledger, k, hashes) && s.ledger.visible in s.ledger.versions
    requires StaysAmong(step, k, hashes) && (s.up && !s.ledger.broken ==> k in s.ledger.records)
    ensures Filed(SessionProtocol.Apply(s, step).ledger, k, hashes)
  {
    hide SessionLedgerTheorems.Apply, CallsAfter, DeletionsAfter, IssuedAfter, MadeAfter, RecordsOk, Filed, EffectOf;
    if step.PowerLoss? || step.Restart? {
      FiledThroughCrash(s, step, k, hashes);
    } else if EffectOf(s, step).Operation? {
      var e := EffectOf(s, step);
      DropsOnlyWhenFreeing(s, step);
      if e.op.DoBegin? && e.op.key == k {
        OnlyBeginBegins(s, step);
        if s.ledger.broken {
          BrokenStaysPut(s.ledger, e.op, e.save, e.now);
        } else {
          AskingFiles(s.ledger, step.key, step.hash, step.legacy, step.save, step.now, hashes);
          BeginIsApplied(s.ledger, e.op, e.save, e.now);
        }
      } else {
        OperationFiles(s.ledger, e.op, e.save, e.now, k, hashes);
      }
    }
  }

  lemma BeginIsApplied(l: Ledger, op: Op, save: Save, now: Time)
    requires op.DoBegin?
    ensures SessionLedgerTheorems.Apply(l, op, save, now) == Begin(l, op.key, op.hash, op.legacy, save, now).0
  {
    hide Begin;
  }

  lemma OnlyBeginBegins(s: System, step: Step)
    requires Enabled(s, step) && EffectOf(s, step).Operation? && EffectOf(s, step).op.DoBegin?
    ensures step.BeginCreate? && s.up
    ensures EffectOf(s, step) == Operation(DoBegin(step.key, step.hash, step.legacy), step.save, step.now)
  {
  }

  lemma FiledThroughCrash(s: System, step: Step, k: Key, hashes: set<Hash>)
    requires Enabled(s, step) && (step.PowerLoss? || step.Restart?)
    requires Filed(s.ledger, k, hashes) && s.ledger.visible in s.ledger.versions
    ensures Filed(LedgerAfter(s, step), k, hashes)
  {
    hide RecordsOk;
  }

  ghost predicate OnRecord(states: seq<System>, from: nat, j: nat, k: Key)
    requires j < |states|
  {
    forall n :: from <= n <= j && states[n].up && !states[n].ledger.broken ==> k in states[n].ledger.records
  }

  /** While the key stays on record, no request takes it out of the hashes. */
  lemma {:induction false} FiledInRun(states: seq<System>, steps: seq<Step>, from: nat, j: nat, k: Key, hashes: set<Hash>)
    requires RunsFromFiles(states, steps) && from <= j <= |steps| && Filed(states[from].ledger, k, hashes)
    requires OnRecord(states, from, j, k) && forall n :: 0 <= n < |steps| ==> StaysAmong(steps[n], k, hashes)
    ensures Filed(states[j].ledger, k, hashes)
  {
    hide Enabled, SessionProtocol.Apply, Filed, StaysAmong, OnlyFiles, RecordsOk;
    if from < j {
      FiledInRun(states, steps, from, j - 1, k, hashes);
      assert Enabled(states[j - 1], steps[j - 1]) && states[j] == SessionProtocol.Apply(states[j - 1], steps[j - 1]);
      FilesLoadInRun(states, steps, j - 1);
      FiledStays(states[j - 1], steps[j - 1], k, hashes);
    }
  }

  // ----- Requests stay with their hashes -----

  /** No request offers the current hash of another as its legacy hash. */
  lemma CurrentHashStays(digest: Digest, requests: set<Request>, steps: seq<Step>, q: Request, k: Key)
    requires FromRequests(digest, requests, steps) && GoodDigest(digest, requests) && q in requests && Accepted(q)
    ensures forall n :: 0 <= n < |steps| ==> StaysAmong(steps[n], k, {SpecHash(digest, q)})
  {
    hide GoodDigest, Accepted, SpecHash, LegacyHashes, SameSpec;
    forall n | 0 <= n < |steps| && steps[n].BeginCreate?
      ensures StaysAmong(steps[n], k, {SpecHash(digest, q)})
    {
      var p :| p in requests && Asks(digest, steps[n], p);
      HashesTellRequestsApart(digest, requests, p, q);
    }
  }

  /** A request that offers the legacy hash of another asks for the same. */
  lemma LegacyHashStays(digest: Digest, requests: set<Request>, steps: seq<Step>, q: Request, k: Key)
    requires FromRequests(digest, requests, steps) && GoodDigest(digest, requests) && q in requests && Accepted(q)
    requires SaysNothing(q.inputs)
    ensures forall n :: 0 <= n < |steps| ==> StaysAmong(steps[n], k, {digest(PlainValue(q)), SpecHash(digest, q)})
  {
    hide GoodDigest, Accepted, LegacyHashes, SaysNothing;
    forall n | 0 <= n < |steps| && steps[n].BeginCreate?
      ensures StaysAmong(steps[n], k, {digest(PlainValue(q)), SpecHash(digest, q)})
    {
      var p :| p in requests && Asks(digest, steps[n], p);
      HashesTellRequestsApart(digest, requests, p, q);
    }
  }

  /** The begin step reserves the key for the call, under the hash of its request. */
  ghost predicate Reserves(s: System, step: Step, call: nat, k: Key, hash: Hash) {
    && step.BeginCreate? && step.call == call && step.key == k && step.hash == hash
    && Begin(s.ledger, k, hash, step.legacy, step.save, step.now).1.Proceed?
  }

  lemma ReservedIsFiled(s: System, step: Step, call: nat, k: Key, hash: Hash)
    requires Enabled(s, step) && Reserves(s, step, call, k, hash)
    ensures Filed(SessionProtocol.Apply(s, step).ledger, k, {hash})
  {
    hide CallsAfter, DeletionsAfter, IssuedAfter, MadeAfter, Begin;
    ProceedReserves(s.ledger, k, hash, step.legacy, step.save, step.now);
  }

  /** The call that the request began at `b` works on its key until it records its
      success at `i`, and the deletion of its session does not begin before `j`. */
  ghost predicate Succeeds(states: seq<System>, steps: seq<Step>, b: nat, i: nat, j: nat, digest: Digest, q: Request, r: Result)
    requires Runs(states, steps)
  {
    && b < i < j <= |steps|
    && Asks(digest, steps[b], q) && Reserves(states[b], steps[b], steps[b].call, StoreKey(q), SpecHash(digest, q))
    && (forall n :: b < n <= i ==> steps[b].call in states[n].calls && states[n].calls[steps[b].call].key == StoreKey(q))
    && Acknowledges(states[i], steps[i], StoreKey(q), r) && steps[i].call == steps[b].call
    && NotDeleted(states, steps, i + 1, j, r)
  }

  lemma OnRecordThroughout(states: seq<System>, steps: seq<Step>, b: nat, i: nat, j: nat, digest: Digest, q: Request, r: Result)
    requires RunsFromFiles(states, steps) && Succeeds(states, steps, b, i, j, digest, q, r) && AllQuiet(states, steps, j)
    ensures OnRecord(states, b + 1, j, StoreKey(q))
  {
    hide Enabled, SessionProtocol.Apply, Quiet, Acknowledges, Deletes, Reserves, Matches, Agrees, Asks, StoreKey, SpecHash,
      OnlyFiles;
    forall n | b < n <= j && states[n].up && !states[n].ledger.broken
      ensures StoreKey(q) in states[n].ledger.records
    {
      if n <= i {
        OnlyFilesIsFine(states[0]);
        OrderlyInRun(states, steps, n);
      } else {
        AcknowledgedInRun(states, steps, i, n, StoreKey(q), r);
      }
    }
  }

  // ----- What a recorded key answers -----

  /** What an acknowledged key answers, by its hash. */
  lemma AcknowledgedAnswer(l: Ledger, k: Key, r: Result, hash: Hash, legacy: seq<Hash>, save: Save, now: Time)
    requires RecordsOk(l.records) && !l.broken && Holds(l.records, k, r) && IsDigest(hash)
    ensures Begin(l, k, hash, legacy, save, now).1
         == if hash == l.records[k].hash then Replay(Some(r))
            else if l.records[k].hash !in legacy then BeginConflict
            else if save.Synced? then Replay(Some(r)) else BeginNotSaved
  {
    hide SafeText;
  }

  /** What an acknowledged key answers, by its requests: the one it was recorded for,
      or its legacy form, and any other. */
  lemma RecordedAnswer(l: Ledger, digest: Digest, requests: set<Request>, p: Request, q: Request, r: Result, save: Save, now: Time)
    requires GoodDigest(digest, requests) && p in requests && q in requests && Accepted(p) && Accepted(q)
    requires StoreKey(p) == StoreKey(q) && !l.broken && RecordsOk(l.records) && Holds(l.records, StoreKey(q), r)
    ensures l.records[StoreKey(q)].hash == SpecHash(digest, q) ==>
              AnswerTo(l, digest, p, save, now) == if SameSpec(p, q) then Replay(Some(r)) else BeginConflict
    ensures SaysNothing(q.inputs) && l.records[StoreKey(q)].hash == digest(PlainValue(q)) ==>
              AnswerTo(l, digest, p, save, now)
              == if !SameSpec(p, q) || !SaysNothing(p.inputs) then BeginConflict
                 else if save.Synced? then Replay(Some(r)) else BeginNotSaved
  {
    hide GoodDigest, Accepted, RecordsOk, Begin, StoreKey, SpecHash, LegacyHashes, SameSpec, IsDigest, SaysNothing;
    HashesTellRequestsApart(digest, requests, p, q);
    HashesTellRequestsApart(digest, requests, q, p);
    AcknowledgedAnswer(l, StoreKey(q), r, SpecHash(digest, p), LegacyHashes(digest, p), save, now);
  }

  lemma AcknowledgedIsHeld(s: System, k: Key, r: Result)
    requires Acknowledged(s, k, r) && s.up && !s.ledger.broken && LedgerOk(s.ledger)
    ensures Holds(s.ledger.records, k, r) && RecordsOk(s.ledger.records)
  {
    hide RecordsOk, Holds;
  }

  // ----- The theorems -----

  /** In a quiet run, from whatever files, once the caller of session.create was told of
      success, a request with its key is answered at every later moment, across any
      crashes and power losses, until the deletion of that session begins: with the
      same result if it asks for the same, and otherwise with a conflict. */
  lemma AcknowledgedIsReplayed(states: seq<System>, steps: seq<Step>, b: nat, i: nat, j: nat, digest: Digest,
                               requests: set<Request>, q: Request, p: Request, r: Result, save: Save, now: Time)
    requires RunsFromFiles(states, steps) && Succeeds(states, steps, b, i, j, digest, q, r) && AllQuiet(states, steps, j)
    requires FromRequests(digest, requests, steps) && GoodDigest(digest, requests)
    requires q in requests && p in requests && Accepted(p) && StoreKey(p) == StoreKey(q)
    requires states[j].up && !states[j].ledger.broken
    ensures AnswerTo(states[j].ledger, digest, p, save, now) == if SameSpec(p, q) then Replay(Some(r)) else BeginConflict
  {
    hide Enabled, SessionProtocol.Apply, Quiet, Acknowledges, Deletes, Reserves, OnlyFiles, RecordsOk, GoodDigest, Accepted,
      AnswerTo, StoreKey, SpecHash, FromRequests, SameSpec, Acknowledged, LedgerOk;
    var k, hashes := StoreKey(q), {SpecHash(digest, q)};
    assert Enabled(states[b], steps[b]) && states[b + 1] == SessionProtocol.Apply(states[b], steps[b]);
    ReservedIsFiled(states[b], steps[b], steps[b].call, k, SpecHash(digest, q));
    OnRecordThroughout(states, steps, b, i, j, digest, q, r);
    CurrentHashStays(digest, requests, steps, q, k);
    FiledInRun(states, steps, b + 1, j, k, hashes);
    AcknowledgedInRun(states, steps, i, j, k, r);
    FilesLoadInRun(states, steps, j);
    AcknowledgedIsHeld(states[j], k, r);
    assert states[j].ledger.records[k].hash in hashes;
    RecordedAnswer(states[j].ledger, digest, requests, p, q, r, save, now);
  }

  /** Every version of the file has the result, under the hash that an older version
      took of the request. */
  ghost predicate LeftByOlderVersion(s: System, digest: Digest, q: Request, r: Result) {
    forall v: Records :: v in s.ledger.versions ==>
      Holds(v, StoreKey(q), r) && v[StoreKey(q)].hash == digest(PlainValue(q))
  }

  /** A result left by an older version is kept too. Its hash is only ever replaced by
      the current hash of the same request, whatever the saves come to; a request that
      asks for the same is replayed before and after, and any other meets a conflict -
      as does, until the hash was replaced, one that says the same visibility outright. */
  lemma OldRecordIsReplayed(states: seq<System>, steps: seq<Step>, j: nat, digest: Digest, requests: set<Request>,
                            q: Request, p: Request, r: Result, save: Save, now: Time)
    requires RunsFromFiles(states, steps) && j <= |steps| && AllQuiet(states, steps, j)
    requires FromRequests(digest, requests, steps) && GoodDigest(digest, requests)
    requires q in requests && p in requests && Accepted(p) && Accepted(q) && StoreKey(p) == StoreKey(q) && SaysNothing(q.inputs)
    requires LeftByOlderVersion(states[0], digest, q, r) && NotDeleted(states, steps, 0, j, r)
    requires states[j].up && !states[j].ledger.broken
    ensures StoreKey(q) in states[j].ledger.records
    ensures var hash := states[j].ledger.records[StoreKey(q)].hash;
            && (hash == digest(PlainValue(q)) || hash == SpecHash(digest, q))
            && AnswerTo(states[j].ledger, digest, p, save, now)
               == if !SameSpec(p, q) then BeginConflict
                  else if hash == SpecHash(digest, q) then Replay(Some(r))
                  else if !SaysNothing(p.inputs) then BeginConflict
                  else if save.Synced? then Replay(Some(r)) else BeginNotSaved
  {
    hide Enabled, SessionProtocol.Apply, Quiet, Deletes, OnlyFiles, RecordsOk, GoodDigest, Accepted, AnswerTo, StoreKey,
      FromRequests, SameSpec, Acknowledged, LedgerOk, LeftByOlderVersion, SaysNothing, NotDeleted, Filed;
    var k, hashes := StoreKey(q), {digest(PlainValue(q)), SpecHash(digest, q)};
    OldRecordIsFiled(states[0], digest, q, r);
    OldRecordStays(states, steps, j, k, r);
    LegacyHashStays(digest, requests, steps, q, k);
    FiledInRun(states, steps, 0, j, k, hashes);
    AcknowledgedGoesOn(states, steps, 0, j, k, r);
    FilesLoadInRun(states, steps, j);
    AcknowledgedIsHeld(states[j], k, r);
    assert states[j].ledger.records[k].hash in hashes by {
      FiledInMemory(states[j].ledger, k, hashes);
    }
    HashesTellRequestsApart(digest, requests, q, q);
    RecordedAnswer(states[j].ledger, digest, requests, p, q, r, save, now);
  }

  /** Asking for such a record replaces the hash, in memory and in the visible file,
      exactly when the save is installed. */
  lemma AskingMigrates(l: Ledger, digest: Digest, requests: set<Request>, q: Request, r: Result, save: Save, now: Time)
    requires GoodDigest(digest, requests) && q in requests && Accepted(q) && SaysNothing(q.inputs)
    requires !l.broken && RecordsOk(l.records) && Holds(l.records, StoreKey(q), r)
    requires l.records[StoreKey(q)].hash == digest(PlainValue(q))
    ensures var l' := Begin(l, StoreKey(q), SpecHash(digest, q), LegacyHashes(digest, q), save, now).0;
            && Holds(l'.records, StoreKey(q), r)
            && (if save.NotCommitted? then l' == l
                else Holds(l'.visible, StoreKey(q), r) && l'.records[StoreKey(q)].hash == SpecHash(digest, q)
                     && l'.visible[StoreKey(q)].hash == SpecHash(digest, q))
  {
    hide GoodDigest, Accepted, StoreKey, SpecHash, IsDigest, ValidRecord, SaysNothing, RecordsOk;
    HashesTellRequestsApart(digest, requests, q, q);
    OneIsValid(l.records, StoreKey(q));
    KeyTakesHash(StoreKey(q), l.records[StoreKey(q)], SpecHash(digest, q), now);
    HashIsThere(StoreKey(q), l.records[StoreKey(q)]);
  }

  lemma KeyTakesHash(k: Key, r: Record, hash: Hash, now: Time)
    requires ValidRecord(k, r) && IsDigest(hash)
    ensures ValidRecord(k, NewReservation(hash, now))
  {
    hide SafeText, IsDigest;
  }

  lemma HashIsThere(k: Key, r: Record)
    requires ValidRecord(k, r)
    ensures r.hash != ""
  {
    hide SafeText;
  }

  lemma FiledInMemory(l: Ledger, k: Key, hashes: set<Hash>)
    requires Filed(l, k, hashes) && k in l.records
    ensures l.records[k].hash in hashes
  {
  }

  lemma OldRecordIsFiled(s: System, digest: Digest, q: Request, r: Result)
    requires OnlyFiles(s) && LeftByOlderVersion(s, digest, q, r)
    ensures Acknowledged(s, StoreKey(q), r)
    ensures Filed(s.ledger, StoreKey(q), {digest(PlainValue(q)), SpecHash(digest, q)})
  {
    hide StoreKey, SpecHash, RecordsOk;
  }

  lemma OldRecordStays(states: seq<System>, steps: seq<Step>, j: nat, k: Key, r: Result)
    requires RunsFromFiles(states, steps) && j <= |steps| && AllQuiet(states, steps, j)
    requires Acknowledged(states[0], k, r) && NotDeleted(states, steps, 0, j, r)
    ensures OnRecord(states, 0, j, k)
  {
    hide Enabled, SessionProtocol.Apply, Quiet, Deletes, OnlyFiles;
    forall n | 0 <= n <= j && states[n].up && !states[n].ledger.broken
      ensures k in states[n].ledger.records
    {
      AcknowledgedGoesOn(states, steps, 0, n, k, r);
    }
  }

  // ----- A call can be stranded -----

  function Stranding(k: Key, other: Key, hash: Hash, now: Time): (steps: seq<Step>) {
    [Restart(true, now), BeginCreate(0, Codex, k, hash, [], Synced, now), BeginCreate(1, Codex, other, hash, [], Unsynced, now),
     Release(k, Synced, now)]
  }

  /** A save for another key that could not be made durable puts a reservation in
      doubt while its call is still to ask the provider; an operator who then releases
      the key strands the call. */
  lemma StrandingHappens(k: Key, other: Key, hash: Hash, now: Time) returns (states: seq<System>)
    requires k != other && ValidRecord(k, NewReservation(hash, now)) && ValidRecord(other, NewReservation(hash, now))
    ensures IsRun(states, Stranding(k, other, hash, now)) && Strands(states[3], Release(k, Synced, now), k)
    ensures !Quiet(states[3], Release(k, Synced, now))
  {
    hide SessionProtocol.Apply, Enabled, ValidRecord, Strands, Quiet, NewReservation, Stranding;
    var s0 := Initial();
    StoreOpens(now);
    var s1 := SessionProtocol.Apply(s0, Restart(true, now));
    FirstReserves(s1, k, hash, now);
    var s2 := SessionProtocol.Apply(s1, BeginCreate(0, Codex, k, hash, [], Synced, now));
    SecondIsUnsynced(s2, k, other, hash, now);
    var s3 := SessionProtocol.Apply(s2, BeginCreate(1, Codex, other, hash, [], Unsynced, now));
    ReleaseStrands(s3, k, now);
    var s4 := SessionProtocol.Apply(s3, Release(k, Synced, now));
    states := [s0, s1, s2, s3, s4];
    assert Stranding(k, other, hash, now)
        == [Restart(true, now), BeginCreate(0, Codex, k, hash, [], Synced, now),
            BeginCreate(1, Codex, other, hash, [], Unsynced, now), Release(k, Synced, now)] by {
      StrandingSteps(k, other, hash, now);
    }
  }

  /** Requests ask for these steps: one request under two keys. */
  lemma StrandingIsAsked(digest: Digest, q: Request, other: string, now: Time)
    requires Accepted(q) && q.provider.Codex? && !SaysNothing(q.inputs)
    ensures FromRequests(digest, {q, q.(key := other)},
                         Stranding(StoreKey(q), StoreKey(q.(key := other)), SpecHash(digest, q), now))
  {
    hide Resolve;
    var p := q.(key := other);
    var steps := Stranding(StoreKey(q), StoreKey(p), SpecHash(digest, q), now);
    assert Asks(digest, steps[1], q) && Asks(digest, steps[2], p);
  }

  lemma StrandingSteps(k: Key, other: Key, hash: Hash, now: Time)
    ensures Stranding(k, other, hash, now)
         == [Restart(true, now), BeginCreate(0, Codex, k, hash, [], Synced, now),
             BeginCreate(1, Codex, other, hash, [], Unsynced, now), Release(k, Synced, now)]
  {
  }

  lemma StoreOpens(now: Time)
    ensures Enabled(Initial(), Restart(true, now))
    ensures var s := SessionProtocol.Apply(Initial(), Restart(true, now));
            s.up && s.ledger == Ledger(map[], map[], {map[]}, false) && s.calls == map[]
  {
    assert Marked(map[], now) == map[];
  }

  lemma FirstReserves(s: System, k: Key, hash: Hash, now: Time)
    requires s.up && s.ledger == Ledger(map[], map[], {map[]}, false) && s.calls == map[]
    requires ValidRecord(k, NewReservation(hash, now))
    ensures Enabled(s, BeginCreate(0, Codex, k, hash, [], Synced, now))
    ensures var t := SessionProtocol.Apply(s, BeginCreate(0, Codex, k, hash, [], Synced, now));
            var one := map[k := NewReservation(hash, now)];
            t.up && t.ledger == Ledger(one, one, {one}, false) && t.calls == map[0 := Call(k, Codex, Unsent)]
  {
    hide ValidRecord, NewReservation, Saved;
    ProceedReserves(s.ledger, k, hash, [], Synced, now);
  }

  lemma SecondIsUnsynced(s: System, k: Key, other: Key, hash: Hash, now: Time)
    requires var one := map[k := NewReservation(hash, now)];
             s.up && s.ledger == Ledger(one, one, {one}, false) && s.calls == map[0 := Call(k, Codex, Unsent)]
    requires k != other && ValidRecord(other, NewReservation(hash, now))
    ensures Enabled(s, BeginCreate(1, Codex, other, hash, [], Unsynced, now))
    ensures var t := SessionProtocol.Apply(s, BeginCreate(1, Codex, other, hash, [], Unsynced, now));
            && t.up && !t.ledger.broken && k in t.ledger.records && t.calls == map[0 := Call(k, Codex, Unsent)]
            && t.ledger.records[k].state.InDoubt? && t.ledger.records[k].result.None?
  {
    hide ValidRecord, NewReservation, Begin;
    BegunUnsynced(s.ledger.records, k, other, hash, now);
  }

  lemma ReleaseStrands(s: System, k: Key, now: Time)
    requires s.up && !s.ledger.broken && k in s.ledger.records && s.calls == map[0 := Call(k, Codex, Unsent)]
    requires s.ledger.records[k].state.InDoubt? && s.ledger.records[k].result.None?
    ensures Enabled(s, Release(k, Synced, now)) && Strands(s, Release(k, Synced, now), k)
    ensures !Quiet(s, Release(k, Synced, now))
  {
    assert s.calls[0].key == k;
  }

  lemma BegunUnsynced(one: Records, k: Key, other: Key, hash: Hash, now: Time)
    requires one == map[k := NewReservation(hash, now)] && k != other
    requires ValidRecord(other, NewReservation(hash, now))
    ensures var (l, b) := Begin(Ledger(one, one, {one}, false), other, hash, [], Unsynced, now);
            && b == BeginNotSaved && !l.broken && k in l.records && l.records[k].state.InDoubt? && l.records[k].result.None?
  {
    hide ValidRecord;
  }
}
