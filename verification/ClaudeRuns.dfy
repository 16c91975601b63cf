/** Any interleaving of turns, cancellations, output, exits, renames and deletions over
    any number of Claude Code sessions. */
module ClaudeRuns {
  import opened Options
  import opened StateFile
  import opened ClaudeTurn

  datatype Step =
    | Create(session: SessionId, name: string)
    | Reserve(session: SessionId, turn: TurnId)
    | FailEarly(turn: TurnId)
    | PersistStart(turn: TurnId, save: Save)
    | Recheck(turn: TurnId, save: Save)
    | Start(turn: TurnId, ok: bool, save: Save)
    | PublishCommand(turn: TurnId)
    | CleanUp(turn: TurnId)
    | Cancel(session: SessionId)
    | CloseAdapter
    | Line(turn: TurnId, isError: bool, text: string)
    | OutputEnds(turn: TurnId)
    | Exit(turn: TurnId)
    | WaitRun(turn: TurnId, failed: bool)
    | Rename(session: SessionId, name: string, save: Save)
    | SetArchived(session: SessionId, archived: bool, save: Save)
    | Delete(session: SessionId, save: Save)
    | DropCreated(session: SessionId)

  function Initial(): (a: Adapter) {
    Adapter(map[], map[], map[])
  }

  predicate Enabled(a: Adapter, step: Step) {
    match step
    case Create(s, _) => s !in a.sessions && forall t :: t in a.runs ==> a.runs[t].session != s
    case Reserve(s, t) => t !in a.runs && s in a.sessions && s !in a.active
    case FailEarly(t) => At(a, t, Held)
    case PersistStart(t, _) => At(a, t, Held)
    case Recheck(t, _) => At(a, t, Persisted)
    case Start(t, _, _) => At(a, t, Cleared)
    case PublishCommand(t) => At(a, t, Spawned)
    case CleanUp(t) => At(a, t, Failing)
    case Cancel(s) => s in a.active
    case CloseAdapter => true
    case Line(t, _, _) => At(a, t, Live) && !a.runs[t].outputDone
    case OutputEnds(t) => At(a, t, Live)
    case Exit(t) => (At(a, t, Spawned) || At(a, t, Live)) && !a.runs[t].exited
    case WaitRun(t, _) => At(a, t, Live) && a.runs[t].outputDone && a.runs[t].exited
    case Rename(s, _, _) => s in a.sessions
    case SetArchived(s, _, _) => s in a.sessions
    case Delete(_, _) => true
    case DropCreated(s) => s in a.sessions
  }

  function Apply(a: Adapter, step: Step): (b: Adapter)
    requires Enabled(a, step)
  {
    match step
    case Create(s, name) => a.(sessions := a.sessions[s := SessionRecord(Labels(name, false), None, Status.Created, "")])
    case Reserve(s, t) => Reserved(a, s, t)
    case FailEarly(t) => WithStage(a, t, Failing)
    case PersistStart(t, save) => StartPersisted(a, t, save)
    case Recheck(t, save) => Rechecked(a, t, save)
    case Start(t, ok, save) => Started(a, t, ok, save)
    case PublishCommand(t) => CommandPublished(a, t)
    case CleanUp(t) => CleanedUp(a, t)
    case Cancel(s) => CancelRequested(a, s)
    case CloseAdapter => ClosedAll(a)
    case Line(t, isError, text) => LineHandled(a, t, isError, text)
    case OutputEnds(t) => a.(runs := a.runs[t := a.runs[t].(outputDone := true)])
    case Exit(t) => a.(runs := a.runs[t := a.runs[t].(exited := true)])
    case WaitRun(t, failed) => Waited(a, t, failed)
    case Rename(s, name, save) => Labelled(a, s, a.sessions[s].labels.(name := name), save)
    case SetArchived(s, archived, save) => Labelled(a, s, a.sessions[s].labels.(archived := archived), save)
    case Delete(s, save) => Deleted(a, s, save)
    case DropCreated(s) => a.(sessions := a.sessions - {s})
  }

  // ----- The invariant -----

  /** A run that is not gone is the active run of its session, and a cancelled one that
      is live is being killed. */
  ghost predicate Inv(a: Adapter) {
    && (forall s :: s in a.active ==>
          a.active[s] in a.runs && a.runs[a.active[s]].session == s && a.runs[a.active[s]].stage != Gone)
    && (forall t :: t in a.runs && a.runs[t].stage != Gone ==>
          a.runs[t].session in a.active && a.active[a.runs[t].session] == t)
    && (forall t :: t in a.runs ==> RunOk(a.runs[t]))
  }

  predicate RunOk(r: Run) {
    && (r.hasCommand ==> r.stage == Live || r.stage == Gone)
    && (r.stage == Live ==> r.hasCommand && (r.canceled ==> r.killing))
  }

  /** A step changes the stage of at most its own run; the others keep theirs, and only
      cancellations change anything else about them. */
  predicate SameOrCanceled(r: Run, r': Run) {
    r' == r || r' == CanceledRun(r)
  }

  lemma CanceledIsOk(r: Run)
    requires RunOk(r)
    ensures RunOk(CanceledRun(r))
  {
  }

  lemma ReserveHolds(a: Adapter, s: SessionId, t: TurnId)
    requires Inv(a) && t !in a.runs
    ensures Inv(Reserved(a, s, t))
  {
  }

  /** A run's record is replaced by one of the same session that is not gone. */
  lemma RunReplaced(a: Adapter, t: TurnId, r: Run, sessions: map<SessionId, SessionRecord>)
    requires Inv(a) && t in a.runs && RunOk(r) && r.session == a.runs[t].session
    requires r.stage == Gone <==> a.runs[t].stage == Gone
    ensures Inv(Adapter(sessions, a.active, a.runs[t := r]))
  {
  }

  /** A run goes, and its session has no active run any more. */
  lemma RunGone(a: Adapter, t: TurnId, r: Run, sessions: map<SessionId, SessionRecord>)
    requires Inv(a) && t in a.runs && a.runs[t].stage != Gone && RunOk(r) && r.stage == Gone
    ensures Inv(Adapter(sessions, a.active - {a.runs[t].session}, a.runs[t := r]))
  {
  }

  lemma CloseHolds(a: Adapter)
    requires Inv(a)
    ensures Inv(ClosedAll(a))
  {
  }

  lemma RecordsDoNotMatter(a: Adapter, sessions: map<SessionId, SessionRecord>)
    requires Inv(a)
    ensures Inv(a.(sessions := sessions))
  {
  }

  predicate KeepsStage(step: Step) {
    step.FailEarly? || step.PersistStart? || step.Recheck? || step.Start? || step.PublishCommand? || step.OutputEnds? || step.Exit?
  }

  /** One run is replaced by an acceptable one of the same session; neither is gone. */
  ghost predicate OneRunChanged(a: Adapter, b: Adapter, t: TurnId) {
    && t in a.runs && t in b.runs && b.active == a.active && b.runs == a.runs[t := b.runs[t]]
    && RunOk(b.runs[t]) && b.runs[t].session == a.runs[t].session
    && b.runs[t].stage != Gone && a.runs[t].stage != Gone
  }

  lemma RollBackRun(a: Adapter, t: TurnId, save: Save)
    requires t in a.runs && RunOk(a.runs[t]) && (At(a, t, Persisted) || At(a, t, Cleared))
    ensures OneRunChanged(a, RolledBack(a, t, save), t)
  {
  }

  lemma PersistRun(a: Adapter, t: TurnId, save: Save)
    requires At(a, t, Held) && RunOk(a.runs[t])
    ensures OneRunChanged(a, StartPersisted(a, t, save), t)
  {
  }

  lemma MovedRun(a: Adapter, t: TurnId, run: Run)
    requires t in a.runs && RunOk(run) && run.session == a.runs[t].session && run.stage != Gone && a.runs[t].stage != Gone
    ensures OneRunChanged(a, a.(runs := a.runs[t := run]), t)
  {
  }

  lemma StageRun(a: Adapter, step: Step)
    requires Enabled(a, step) && KeepsStage(step) && step.turn in a.runs && RunOk(a.runs[step.turn])
    ensures OneRunChanged(a, Apply(a, step), step.turn)
  {
    hide OneRunChanged, StartPersisted, RolledBack;
    var t := step.turn;
    if step.PersistStart? {
      PersistRun(a, t, step.save);
    } else if (step.Recheck? && a.runs[t].canceled) || (step.Start? && !step.ok) {
      RollBackRun(a, t, step.save);
    } else {
      MovedRun(a, t, Apply(a, step).runs[t]);
    }
  }

  lemma StageHolds(a: Adapter, step: Step)
    requires Inv(a) && Enabled(a, step) && KeepsStage(step)
    ensures Inv(Apply(a, step))
  {
    hide Inv, Apply, RunOk;
    RunIsOk(a, step);
    StageRun(a, step);
    var b := Apply(a, step);
    RunReplaced(a, step.turn, b.runs[step.turn], b.sessions);
  }

  lemma RunIsOk(a: Adapter, step: Step)
    requires Inv(a) && Enabled(a, step) && KeepsStage(step)
    ensures step.turn in a.runs && RunOk(a.runs[step.turn])
  {
    hide RunOk;
  }

  lemma GoingHolds(a: Adapter, step: Step)
    requires Inv(a) && Enabled(a, step) && (step.CleanUp? || step.WaitRun?)
    ensures Inv(Apply(a, step))
  {
    var b := Apply(a, step);
    var t := step.turn;
    RunGone(a, t, b.runs[t], b.sessions);
  }

  lemma CancelHolds(a: Adapter, s: SessionId)
    requires Inv(a)
    ensures Inv(CancelRequested(a, s))
  {
    if s in a.active {
      CanceledIsOk(a.runs[a.active[s]]);
      RunReplaced(a, a.active[s], CanceledRun(a.runs[a.active[s]]), a.sessions);
    }
  }

  predicate Labelling(step: Step) {
    step.Rename? || step.SetArchived?
  }

  lemma RecordHolds(a: Adapter, step: Step)
    requires Inv(a) && Enabled(a, step)
    requires step.Create? || step.Line? || Labelling(step) || step.Delete? || step.DropCreated?
    ensures Inv(Apply(a, step))
  {
    RecordsDoNotMatter(a, Apply(a, step).sessions);
  }

  lemma InvStays(a: Adapter, step: Step)
    requires Inv(a) && Enabled(a, step)
    ensures Inv(Apply(a, step))
  {
    hide Inv;
    if KeepsStage(step) {
      StageHolds(a, step);
    } else {
      match step
      case Reserve(s, t) => ReserveHolds(a, s, t);
      case CleanUp(_) => GoingHolds(a, step);
      case WaitRun(_, _) => GoingHolds(a, step);
      case Cancel(s) => CancelHolds(a, s);
      case CloseAdapter => CloseHolds(a);
      case _ => RecordHolds(a, step);
    }
  }

  // ----- Every run -----

  ghost predicate IsRun(states: seq<Adapter>, steps: seq<Step>) {
    && |states| == |steps| + 1 && states[0] == Initial()
    && (forall i :: 0 <= i < |steps| ==> Enabled(states[i], steps[i]) && states[i + 1] == Apply(states[i], steps[i]))
  }

  lemma {:induction false} InvInRun(states: seq<Adapter>, steps: seq<Step>, n: nat)
    requires IsRun(states, steps) && n <= |steps|
    ensures Inv(states[n])
  {
    hide Inv, Enabled, Apply, Initial;
    if n == 0 {
      NothingHolds();
    } else {
      InvInRun(states, steps, n - 1);
      assert Enabled(states[n - 1], steps[n - 1]);
      InvStays(states[n - 1], steps[n - 1]);
    }
  }

  lemma NothingHolds()
    ensures Inv(Initial())
  {
  }

  /** A session never has two runs that are not gone. */
  lemma OneRunPerSession(states: seq<Adapter>, steps: seq<Step>, n: nat, t: TurnId, u: TurnId)
    requires IsRun(states, steps) && n <= |steps| && t in states[n].runs && u in states[n].runs
    requires states[n].runs[t].session == states[n].runs[u].session
    requires states[n].runs[t].stage != Gone && states[n].runs[u].stage != Gone
    ensures t == u
  {
    InvInRun(states, steps, n);
  }

  predicate NotStarted(s: Stage) {
    s.Held? || s.Persisted? || s.Failing? || s.Gone?
  }

  /** A cancelled run stays cancelled; one not yet cleared for its start never starts. */
  lemma CancelSticks(a: Adapter, step: Step, t: TurnId)
    requires Enabled(a, step) && t in a.runs && a.runs[t].canceled
    ensures var b := Apply(a, step);
            t in b.runs && b.runs[t].canceled && (NotStarted(a.runs[t].stage) ==> NotStarted(b.runs[t].stage))
  {
    hide Enabled, Apply, NotStarted;
    CanceledKept(a, step, t);
    if NotStarted(a.runs[t].stage) {
      CanceledDoesNotStart(a, step, t);
    }
  }

  lemma CanceledKept(a: Adapter, step: Step, t: TurnId)
    requires Enabled(a, step) && t in a.runs && a.runs[t].canceled
    ensures t in Apply(a, step).runs && Apply(a, step).runs[t].canceled
  {
  }

  lemma CanceledDoesNotStart(a: Adapter, step: Step, t: TurnId)
    requires Enabled(a, step) && t in a.runs && a.runs[t].canceled && NotStarted(a.runs[t].stage)
    requires t in Apply(a, step).runs
    ensures NotStarted(Apply(a, step).runs[t].stage)
  {
  }

  lemma {:induction false} CanceledInRun(states: seq<Adapter>, steps: seq<Step>, i: nat, j: nat, t: TurnId)
    requires IsRun(states, steps) && i <= j <= |steps| && t in states[i].runs && states[i].runs[t].canceled
    ensures t in states[j].runs && states[j].runs[t].canceled
    ensures NotStarted(states[i].runs[t].stage) ==> NotStarted(states[j].runs[t].stage)
  {
    hide Enabled, Apply, Initial, NotStarted;
    if i < j {
      CanceledInRun(states, steps, i, j - 1, t);
      assert Enabled(states[j - 1], steps[j - 1]) && states[j] == Apply(states[j - 1], steps[j - 1]);
      CancelSticks(states[j - 1], steps[j - 1], t);
    }
  }

  /** An accepted cancellation of a turn, or closing the adapter while it is active,
      prevents the start of its process, if the start was not yet cleared, and otherwise
      leads to a kill: from the moment its command is known, a kill has been ordered. */
  lemma AcceptedCancelStopsTheTurn(states: seq<Adapter>, steps: seq<Step>, i: nat, j: nat, s: SessionId)
    requires IsRun(states, steps) && i < j <= |steps|
    requires steps[i] == Cancel(s) || (steps[i] == CloseAdapter && s in states[i].active)
    ensures s in states[i].active && states[i].active[s] in states[i].runs && states[i].active[s] in states[j].runs
    ensures var t := states[i].active[s];
            && (NotStarted(states[i].runs[t].stage) ==> NotStarted(states[j].runs[t].stage))
            && (states[j].runs[t].stage == Live ==> states[j].runs[t].killing)
  {
    assert Enabled(states[i], steps[i]) && states[i + 1] == Apply(states[i], steps[i]);
    InvInRun(states, steps, i);
    var t := states[i].active[s];
    assert states[i + 1].runs[t] == CanceledRun(states[i].runs[t]);
    CanceledInRun(states, steps, i + 1, j, t);
    InvInRun(states, steps, j);
  }

  /** The turn writes the session's record. */
  predicate WritesRecord(step: Step, t: TurnId) {
    (step.PersistStart? || step.Recheck? || step.Start? || step.Line? || step.WaitRun?) && step.turn == t
  }

  lemma GoneStaysGone(a: Adapter, step: Step, t: TurnId)
    requires Enabled(a, step) && At(a, t, Gone)
    ensures At(Apply(a, step), t, Gone) && !WritesRecord(step, t)
  {
  }

  lemma {:induction false} GoneInRun(states: seq<Adapter>, steps: seq<Step>, i: nat, j: nat, t: TurnId)
    requires IsRun(states, steps) && i <= j <= |steps| && At(states[i], t, Gone)
    ensures At(states[j], t, Gone)
  {
    hide Enabled, Apply, Initial, At;
    if i < j {
      GoneInRun(states, steps, i, j - 1, t);
      assert Enabled(states[j - 1], steps[j - 1]) && states[j] == Apply(states[j - 1], steps[j - 1]);
      GoneStaysGone(states[j - 1], steps[j - 1], t);
    }
  }

  /** Once a later turn of a session is reserved, no earlier turn of it writes the
      session's record again, be it from its output, its exit or a roll-back. */
  lemma EarlierTurnsAreSilent(states: seq<Adapter>, steps: seq<Step>, i: nat, j: nat, u: TurnId, t: TurnId)
    requires IsRun(states, steps) && i <= j < |steps| && t in states[i].runs
    requires steps[i] == Reserve(states[i].runs[t].session, u)
    ensures !WritesRecord(steps[j], t)
  {
    assert Enabled(states[i], steps[i]);
    InvInRun(states, steps, i);
    GoneInRun(states, steps, i, j, t);
    assert Enabled(states[j], steps[j]);
    GoneStaysGone(states[j], steps[j], t);
  }

  // ----- How a turn ends -----

  /** The step cancels the turn: a cancellation of its session, or Close, while it is the
      active turn. */
  predicate Cancels(a: Adapter, step: Step, t: TurnId) {
    (step.Cancel? && step.session in a.active && a.active[step.session] == t) || (step.CloseAdapter? && t in a.active.Values)
  }

  lemma CanceledHere(a: Adapter, step: Step, t: TurnId)
    requires Inv(a) && Enabled(a, step) && t in Apply(a, step).runs
    ensures t in a.runs ==> (Apply(a, step).runs[t].canceled <==> a.runs[t].canceled || Cancels(a, step, t))
    ensures t !in a.runs ==> !Apply(a, step).runs[t].canceled && !Cancels(a, step, t)
  {
    if step.Cancel? || step.CloseAdapter? {
      CancelingStep(a, step, t);
    } else {
      hide Inv;
      OthersDoNotCancel(a, step, t);
    }
  }

  lemma CancelingStep(a: Adapter, step: Step, t: TurnId)
    requires Inv(a) && Enabled(a, step) && (step.Cancel? || step.CloseAdapter?) && t in Apply(a, step).runs
    ensures t in a.runs && (Apply(a, step).runs[t].canceled <==> a.runs[t].canceled || Cancels(a, step, t))
  {
    hide RunOk;
  }

  lemma OthersDoNotCancel(a: Adapter, step: Step, t: TurnId)
    requires Enabled(a, step) && !step.Cancel? && !step.CloseAdapter? && t in Apply(a, step).runs
    ensures t in a.runs ==> Apply(a, step).runs[t].canceled == a.runs[t].canceled
    ensures t !in a.runs ==> !Apply(a, step).runs[t].canceled
  {
  }

  /** A turn counts as cancelled exactly when it was cancelled while active. */
  lemma {:induction false} CanceledExactly(states: seq<Adapter>, steps: seq<Step>, n: nat, t: TurnId)
    requires IsRun(states, steps) && n <= |steps| && t in states[n].runs
    ensures states[n].runs[t].canceled <==> exists i :: 0 <= i < n && Cancels(states[i], steps[i], t)
  {
    hide Inv, Enabled, Apply, Initial, Cancels;
    if n == 0 {
      NoRunsYet(t);
    } else {
      var (a, step) := (states[n - 1], steps[n - 1]);
      assert Enabled(a, step) && states[n] == Apply(a, step);
      InvInRun(states, steps, n - 1);
      CanceledHere(a, step, t);
      if t in a.runs {
        CanceledExactly(states, steps, n - 1, t);
      } else {
        NeverCanceledBefore(states, steps, n - 1, t);
      }
    }
  }

  lemma NoRunsYet(t: TurnId)
    ensures t !in Initial().runs
  {
  }

  lemma RunsStay(a: Adapter, step: Step)
    requires Enabled(a, step)
    ensures a.runs.Keys <= Apply(a, step).runs.Keys
  {
  }

  lemma {:induction false} NeverCanceledBefore(states: seq<Adapter>, steps: seq<Step>, n: nat, t: TurnId)
    requires IsRun(states, steps) && n <= |steps| && t !in states[n].runs
    ensures forall i :: 0 <= i < n ==> !Cancels(states[i], steps[i], t)
  {
    hide Inv, Enabled, Apply, Initial, Cancels;
    if n > 0 {
      var (a, step) := (states[n - 1], steps[n - 1]);
      assert Enabled(a, step) && states[n] == Apply(a, step);
      RunsStay(a, step);
      InvInRun(states, steps, n - 1);
      NeverCanceledBefore(states, steps, n - 1, t);
      OnlyRunsAreCanceled(a, step, t);
    }
  }

  lemma OnlyRunsAreCanceled(a: Adapter, step: Step, t: TurnId)
    requires Inv(a) && t !in a.runs
    ensures !Cancels(a, step, t)
  {
  }

  /** The exit of a turn's process frees its session. If the session still runs, it is then
      canceled if the turn was cancelled while active, failed if the process failed, and
      completed otherwise; a status that a result line has set stays. */
  lemma TurnEndsAs(states: seq<Adapter>, steps: seq<Step>, n: nat, t: TurnId)
    requires IsRun(states, steps) && n < |steps| && steps[n].WaitRun? && steps[n].turn == t
    ensures t in states[n].runs
    ensures var s := states[n].runs[t].session;
            && s !in states[n + 1].active
            && (s in states[n].sessions ==>
                  var r := states[n].sessions[s];
                  && s in states[n + 1].sessions
                  && states[n + 1].sessions[s]
                     == if r.status != Running then r
                        else if exists i :: 0 <= i < n && Cancels(states[i], steps[i], t) then r.(status := Canceled)
                        else if steps[n].failed then r.(status := Failed)
                        else r.(status := Completed))
  {
    hide Inv, Cancels, Initial;
    assert Enabled(states[n], steps[n]) && states[n + 1] == Apply(states[n], steps[n]);
    InvInRun(states, steps, n);
    CanceledExactly(states, steps, n, t);
  }

  /** A result line of a turn sets the status of its session, and the result if there is
      one. */
  lemma ResultLineSettles(states: seq<Adapter>, steps: seq<Step>, n: nat, t: TurnId)
    requires IsRun(states, steps) && n < |steps| && steps[n].Line? && steps[n].turn == t
    ensures t in states[n].runs
    ensures var s := states[n].runs[t].session;
            s in states[n].sessions ==>
              && s in states[n + 1].sessions
              && states[n + 1].sessions[s].status == (if steps[n].isError then Failed else Completed)
              && states[n + 1].sessions[s].result == (if steps[n].isError then "" else steps[n].text)
              && states[n + 1].sessions[s].labels == states[n].sessions[s].labels
  {
    assert Enabled(states[n], steps[n]) && states[n + 1] == Apply(states[n], steps[n]);
  }

  // ----- How a turn begins, and when a session goes -----

  /** Recording the start of a turn that was not cancelled makes it the session's latest,
      running and without a result; one that may not be durable counts as interrupted,
      and one that was not written leaves the record. */
  lemma TurnBeginsAs(states: seq<Adapter>, steps: seq<Step>, n: nat, t: TurnId)
    requires IsRun(states, steps) && n < |steps| && steps[n].PersistStart? && steps[n].turn == t
    ensures t in states[n].runs
    ensures var (s, a, b) := (states[n].runs[t].session, states[n], states[n + 1]);
            && b.sessions.Keys == a.sessions.Keys
            && (forall x :: x in a.sessions && x != s ==> b.sessions[x] == a.sessions[x])
            && (s in a.sessions ==>
                  if a.runs[t].canceled || steps[n].save == NotCommitted then b.sessions[s] == a.sessions[s]
                  else b.sessions[s] == SessionRecord(a.sessions[s].labels, Some(t),
                                                      if steps[n].save == Synced then Running else Interrupted, ""))
            && (At(b, t, Persisted) <==> !a.runs[t].canceled && steps[n].save == Synced)
  {
    assert Enabled(states[n], steps[n]) && states[n + 1] == Apply(states[n], steps[n]);
  }

  /** A session with an active turn is not deleted; any other goes with the save. */
  lemma DeletionSparesActive(states: seq<Adapter>, steps: seq<Step>, n: nat, s: SessionId, t: TurnId)
    requires IsRun(states, steps) && n < |steps| && steps[n].Delete? && steps[n].session == s
    ensures t in states[n].runs && states[n].runs[t].session == s && states[n].runs[t].stage != Gone ==> states[n + 1] == states[n]
    ensures (forall u :: u in states[n].runs && states[n].runs[u].session == s ==> states[n].runs[u].stage == Gone) ==>
              states[n + 1] == if steps[n].save == NotCommitted then states[n]
                               else states[n].(sessions := states[n].sessions - {s})
  {
    assert Enabled(states[n], steps[n]) && states[n + 1] == Apply(states[n], steps[n]);
    InvInRun(states, steps, n);
    assert states[n].sessions - {s} == states[n].sessions || s in states[n].sessions;
  }
}
