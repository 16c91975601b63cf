/** The name and the archive flag of a session: which steps change them, when a change
    by the user can be undone, and runs in which it is. */
module ClaudeLabels {
  import opened Options
  import opened StateFile
  import opened ClaudeTurn
  import opened ClaudeRuns

  /** The start of the turn is recorded, and its process is not started yet. */
  predicate Starting(a: Adapter, t: TurnId) {
    At(a, t, Persisted) || At(a, t, Cleared)
  }

  /** The step rolls the start of the turn back, and writes the old record. */
  predicate RollsBack(a: Adapter, step: Step, t: TurnId) {
    || (step.Recheck? && step.turn == t && t in a.runs && a.runs[t].canceled && !step.save.NotCommitted?)
    || (step.Start? && step.turn == t && !step.ok && !step.save.NotCommitted?)
  }

  /** The step creates the session, labels it, or removes it. */
  predicate Owns(step: Step, s: SessionId) {
    (step.Create? || step.Rename? || step.SetArchived? || step.Delete? || step.DropCreated?) && step.session == s
  }

  // ----- Which steps change the labels -----

  /** Any step but those that own the session leaves it its labels, unless it rolls a
      start back to others. */
  lemma LabelsAfterStep(a: Adapter, step: Step, s: SessionId)
    requires Inv(a) && Enabled(a, step) && s in a.sessions && !Owns(step, s)
    ensures s in Apply(a, step).sessions
    ensures Apply(a, step).sessions[s].labels != a.sessions[s].labels <==>
              exists t :: t in a.runs && a.runs[t].session == s && RollsBack(a, step, t) && a.runs[t].previous.Some?
                && a.runs[t].previous.value.labels != a.sessions[s].labels
  {
    hide Inv;
    if step.Recheck? || step.Start? {
      RollBackLabels(a, step, s);
    } else {
      OtherStepsKeepLabels(a, step, s);
    }
  }

  lemma RollBackLabels(a: Adapter, step: Step, s: SessionId)
    requires Enabled(a, step) && s in a.sessions && (step.Recheck? || step.Start?)
    ensures s in Apply(a, step).sessions
    ensures step.turn in a.runs
    ensures var run := a.runs[step.turn];
            Apply(a, step).sessions[s] ==
              if run.session == s && RollsBack(a, step, step.turn) && run.previous.Some? then run.previous.value else a.sessions[s]
  {
  }

  lemma OtherStepsKeepLabels(a: Adapter, step: Step, s: SessionId)
    requires Enabled(a, step) && s in a.sessions && !Owns(step, s) && !step.Recheck? && !step.Start?
    ensures s in Apply(a, step).sessions && Apply(a, step).sessions[s].labels == a.sessions[s].labels
  {
  }

  // ----- What a roll-back goes back to -----

  /** The start of the turn was recorded at step `p`, over the record `previous`. */
  ghost predicate RecordedAt(states: seq<Adapter>, steps: seq<Step>, p: nat, n: nat, t: TurnId, previous: Option<SessionRecord>)
    requires |states| == |steps| + 1
  {
    && p < n <= |steps| && steps[p] == PersistStart(t, Synced) && t in states[p].runs && !states[p].runs[t].canceled
    && previous == RecordOf(states[p], states[p].runs[t].session)
  }

  lemma StartedHere(a: Adapter, step: Step, t: TurnId)
    requires Enabled(a, step) && Starting(Apply(a, step), t) && !Starting(a, t)
    ensures step == PersistStart(t, Synced) && t in a.runs && !a.runs[t].canceled
    ensures var run := Apply(a, step).runs[t];
            run.session == a.runs[t].session && run.previous == RecordOf(a, run.session)
  {
  }

  lemma StillStarting(a: Adapter, step: Step, t: TurnId)
    requires Enabled(a, step) && Starting(Apply(a, step), t) && Starting(a, t)
    ensures var run := Apply(a, step).runs[t];
            run.session == a.runs[t].session && run.previous == a.runs[t].previous
  {
  }

  /** A turn that is starting recorded its start at one step of the run, and would go
      back to the record of that moment. */
  lemma {:induction false} StartingWasRecorded(states: seq<Adapter>, steps: seq<Step>, n: nat, t: TurnId) returns (p: nat)
    requires IsRun(states, steps) && n <= |steps| && Starting(states[n], t)
    ensures RecordedAt(states, steps, p, n, t, states[n].runs[t].previous)
    ensures states[p].runs[t].session == states[n].runs[t].session
  {
    hide Enabled, Apply;
    if n == 0 {
      NobodyStarts(t);
    } else {
      assert Enabled(states[n - 1], steps[n - 1]) && states[n] == Apply(states[n - 1], steps[n - 1]);
      if Starting(states[n - 1], t) {
        p := StartingWasRecorded(states, steps, n - 1, t);
        StillStarting(states[n - 1], steps[n - 1], t);
      } else {
        StartedHere(states[n - 1], steps[n - 1], t);
        p := n - 1;
      }
    }
  }

  lemma NobodyStarts(t: TurnId)
    ensures !Starting(Initial(), t)
  {
  }

  predicate PastRecording(a: Adapter, t: TurnId) {
    t in a.runs && !a.runs[t].stage.Held?
  }

  lemma StaysPast(a: Adapter, step: Step, t: TurnId)
    requires Enabled(a, step) && PastRecording(a, t)
    ensures PastRecording(Apply(a, step), t) && (step.PersistStart? ==> step.turn != t)
  {
  }

  lemma RecordingPasses(a: Adapter, t: TurnId, save: Save)
    requires Enabled(a, PersistStart(t, save))
    ensures PastRecording(Apply(a, PersistStart(t, save)), t)
  {
  }

  /** A turn records its start only once. */
  lemma {:induction false} RecordedOnce(states: seq<Adapter>, steps: seq<Step>, p: nat, n: nat, t: TurnId)
    requires IsRun(states, steps) && p < n <= |steps| && steps[p] == PersistStart(t, Synced)
    ensures PastRecording(states[n], t)
    ensures forall q :: p < q < n ==> steps[q] != PersistStart(t, Synced)
  {
    hide Enabled, Apply, PastRecording;
    assert Enabled(states[n - 1], steps[n - 1]) && states[n] == Apply(states[n - 1], steps[n - 1]);
    if n == p + 1 {
      RecordingPasses(states[p], t, Synced);
    } else {
      RecordedOnce(states, steps, p, n - 1, t);
      StaysPast(states[n - 1], steps[n - 1], t);
    }
  }

  /** The turn's start was recorded over other labels than the session now has. */
  ghost predicate RecordedOverOthers(states: seq<Adapter>, steps: seq<Step>, n: nat, t: TurnId, s: SessionId)
    requires |states| == |steps| + 1 && n <= |steps|
  {
    exists p :: 0 <= p < n && steps[p] == PersistStart(t, Synced) && s in states[p].sessions
      && s in states[n].sessions && states[p].sessions[s].labels != states[n].sessions[s].labels
  }

  /** In every run, a step that does not own the session changes its labels exactly when
      it rolls back a start of the session - of a cancelled turn, or of a process that
      did not start - whose record was made over other labels. */
  lemma LabelsChangeExactly(states: seq<Adapter>, steps: seq<Step>, n: nat, s: SessionId)
    requires IsRun(states, steps) && n < |steps| && s in states[n].sessions && !Owns(steps[n], s)
    ensures s in states[n + 1].sessions
    ensures states[n + 1].sessions[s].labels != states[n].sessions[s].labels <==>
              exists t :: t in states[n].runs && states[n].runs[t].session == s && RollsBack(states[n], steps[n], t)
                && RecordedOverOthers(states, steps, n, t, s)
  {
    hide Inv, RollsBack, Owns, Apply;
    var (a, step) := (states[n], steps[n]);
    assert Enabled(a, step) && states[n + 1] == Apply(a, step);
    InvInRun(states, steps, n);
    LabelsAfterStep(a, step, s);
    forall t | t in a.runs && a.runs[t].session == s && RollsBack(a, step, t)
      ensures RecordedOverOthers(states, steps, n, t, s) <==>
                a.runs[t].previous.Some? && a.runs[t].previous.value.labels != a.sessions[s].labels
    {
      OthersExactly(states, steps, n, t, s);
    }
  }

  lemma OthersExactly(states: seq<Adapter>, steps: seq<Step>, n: nat, t: TurnId, s: SessionId)
    requires IsRun(states, steps) && n < |steps| && s in states[n].sessions
    requires t in states[n].runs && states[n].runs[t].session == s && RollsBack(states[n], steps[n], t)
    ensures RecordedOverOthers(states, steps, n, t, s) <==>
              states[n].runs[t].previous.Some?
              && states[n].runs[t].previous.value.labels != states[n].sessions[s].labels
  {
    hide Apply;
    assert Enabled(states[n], steps[n]);
    assert Starting(states[n], t);
    var p := StartingWasRecorded(states, steps, n, t);
    RecordedOnce(states, steps, p, n, t);
    forall q | 0 <= q < n && steps[q] == PersistStart(t, Synced)
      ensures q == p
    {
      RecordedOnce(states, steps, q, n, t);
    }
  }

  // ----- When a label can be undone -----

  /** A start of the session is under way over other labels. */
  ghost predicate Exposed(a: Adapter, s: SessionId, labels: Labels) {
    exists t :: t in a.runs && a.runs[t].session == s && Starting(a, t)
      && a.runs[t].previous.Some? && a.runs[t].previous.value.labels != labels
  }

  /** The session has these labels, and no start under way would take them back. */
  ghost predicate Settled(a: Adapter, s: SessionId, labels: Labels) {
    (s in a.sessions ==> a.sessions[s].labels == labels) && !Exposed(a, s, labels)
  }

  ghost predicate Runs(states: seq<Adapter>, steps: seq<Step>) {
    && |states| == |steps| + 1
    && (forall i :: 0 <= i < |steps| ==> Enabled(states[i], steps[i]) && states[i + 1] == Apply(states[i], steps[i]))
  }

  /** Nobody labels or creates the session. */
  ghost predicate NobodyLabels(steps: seq<Step>, s: SessionId) {
    forall i :: 0 <= i < |steps| && (Labelling(steps[i]) || steps[i].Create?) ==> steps[i].session != s
  }

  lemma SettledStays(a: Adapter, step: Step, s: SessionId, labels: Labels)
    requires Inv(a) && Enabled(a, step) && Settled(a, s, labels)
    requires Labelling(step) || step.Create? ==> step.session != s
    ensures Settled(Apply(a, step), s, labels)
  {
    hide Inv;
    var b := Apply(a, step);
    if s in a.sessions && !Owns(step, s) {
      NotTakenBack(a, step, s, labels);
    }
    NoNewStart(a, step, s, labels);
  }

  lemma NotTakenBack(a: Adapter, step: Step, s: SessionId, labels: Labels)
    requires Inv(a) && Enabled(a, step) && s in a.sessions && !Owns(step, s)
    requires a.sessions[s].labels == labels && !Exposed(a, s, labels)
    ensures s in Apply(a, step).sessions && Apply(a, step).sessions[s].labels == labels
  {
    hide Inv, Apply;
    LabelsAfterStep(a, step, s);
    forall t | t in a.runs && a.runs[t].session == s && RollsBack(a, step, t) && a.runs[t].previous.Some?
      ensures a.runs[t].previous.value.labels == labels
    {
      assert Starting(a, t);
    }
  }

  lemma NoNewStart(a: Adapter, step: Step, s: SessionId, labels: Labels)
    requires Enabled(a, step) && Settled(a, s, labels)
    ensures !Exposed(Apply(a, step), s, labels)
  {
    hide Apply, Enabled, Starting;
    var b := Apply(a, step);
    forall t | t in b.runs && b.runs[t].session == s && Starting(b, t) && b.runs[t].previous.Some?
      ensures b.runs[t].previous.value.labels == labels
    {
      if Starting(a, t) {
        StartingIsARun(a, t);
        StillStarting(a, step, t);
      } else {
        StartedHere(a, step, t);
      }
    }
  }

  lemma StartingIsARun(a: Adapter, t: TurnId)
    requires Starting(a, t)
    ensures t in a.runs
  {
  }

  lemma {:induction false} SettledGoesOn(states: seq<Adapter>, steps: seq<Step>, j: nat, s: SessionId, labels: Labels)
    requires Runs(states, steps) && j <= |steps| && Inv(states[0]) && Settled(states[0], s, labels) && NobodyLabels(steps, s)
    ensures Inv(states[j]) && Settled(states[j], s, labels)
  {
    hide Enabled, Apply, Inv, Settled;
    if j > 0 {
      SettledGoesOn(states, steps, j - 1, s, labels);
      assert Enabled(states[j - 1], steps[j - 1]) && states[j] == Apply(states[j - 1], steps[j - 1]);
      InvStays(states[j - 1], steps[j - 1]);
      SettledStays(states[j - 1], steps[j - 1], s, labels);
    }
  }

  /** However the run goes on while nobody labels the session, it keeps these labels as
      long as it exists. */
  ghost predicate KeptFrom(a: Adapter, s: SessionId, labels: Labels) {
    forall states: seq<Adapter>, steps: seq<Step>, j: nat ::
      Runs(states, steps) && states[0] == a && NobodyLabels(steps, s) && j <= |steps| && s in states[j].sessions ==>
        states[j].sessions[s].labels == labels
  }

  /** A start under way is all it takes: cancelled before it is cleared, or failing after. */
  lemma StartTakesBack(a: Adapter, s: SessionId, t: TurnId) returns (states: seq<Adapter>, steps: seq<Step>)
    requires Inv(a) && s in a.sessions && t in a.runs && a.runs[t].session == s && Starting(a, t) && a.runs[t].previous.Some?
    ensures steps == if At(a, t, Persisted) then [Cancel(s), Recheck(t, Synced)] else [Start(t, false, Synced)]
    ensures Runs(states, steps) && states[0] == a && NobodyLabels(steps, s)
    ensures s in states[|steps|].sessions && states[|steps|].sessions[s] == a.runs[t].previous.value
  {
    if At(a, t, Persisted) {
      var b := Apply(a, Cancel(s));
      var c := Apply(b, Recheck(t, Synced));
      states, steps := [a, b, c], [Cancel(s), Recheck(t, Synced)];
    } else {
      var b := Apply(a, Start(t, false, Synced));
      states, steps := [a, b], [Start(t, false, Synced)];
    }
  }

  /** The labels of a session are safe, however the run goes on, exactly when no turn of
      it is starting - recorded, and its process not started - over other labels. */
  lemma SafeExactlyWhenUnexposed(a: Adapter, s: SessionId)
    requires Inv(a) && s in a.sessions
    ensures KeptFrom(a, s, a.sessions[s].labels) <==> !Exposed(a, s, a.sessions[s].labels)
  {
    hide Inv, Apply, Enabled, Starting;
    var labels := a.sessions[s].labels;
    if !Exposed(a, s, labels) {
      forall states: seq<Adapter>, steps: seq<Step>, j: nat |
        Runs(states, steps) && states[0] == a && NobodyLabels(steps, s) && j <= |steps| && s in states[j].sessions
        ensures states[j].sessions[s].labels == labels
      {
        SettledGoesOn(states, steps, j, s, labels);
      }
    } else {
      var t :| t in a.runs && a.runs[t].session == s && Starting(a, t)
               && a.runs[t].previous.Some? && a.runs[t].previous.value.labels != labels;
      var states, steps := StartTakesBack(a, s, t);
      assert Runs(states, steps) && states[0] == a && NobodyLabels(steps, s) && |steps| <= |steps|;
    }
  }

  /** So, in every run, an acknowledged rename or archive flag stays until somebody
      labels the session again, if it was given while no turn of the session was
      starting. */
  lemma LabelGivenInPeaceStays(states: seq<Adapter>, steps: seq<Step>, i: nat, j: nat, s: SessionId)
    requires IsRun(states, steps) && i < j <= |steps| && Labelling(steps[i]) && steps[i].session == s && steps[i].save.Synced?
    requires forall t :: t in states[i].runs && states[i].runs[t].session == s ==> !Starting(states[i], t)
    requires forall n :: i < n < j && (Labelling(steps[n]) || steps[n].Create?) ==> steps[n].session != s
    requires s in states[j].sessions
    ensures s in states[i + 1].sessions && states[j].sessions[s].labels == states[i + 1].sessions[s].labels
    ensures s in states[i].sessions && states[i + 1].sessions[s].labels
              == if steps[i].Rename? then states[i].sessions[s].labels.(name := steps[i].name)
                 else states[i].sessions[s].labels.(archived := steps[i].archived)
  {
    hide Inv;
    assert Enabled(states[i], steps[i]) && states[i + 1] == Apply(states[i], steps[i]);
    InvInRun(states, steps, i + 1);
    var labels := states[i + 1].sessions[s].labels;
    assert Settled(states[i + 1], s, labels);
    hide Apply, Enabled, Settled;
    forall n | i < n <= j
      ensures Settled(states[n], s, labels)
    {
      SettledFromHere(states, steps, i, n, s, labels);
    }
    SettledLabels(states[j], s, labels);
  }

  lemma SettledLabels(a: Adapter, s: SessionId, labels: Labels)
    requires Settled(a, s, labels) && s in a.sessions
    ensures a.sessions[s].labels == labels
  {
  }

  lemma {:induction false} SettledFromHere(states: seq<Adapter>, steps: seq<Step>, i: nat, n: nat, s: SessionId, labels: Labels)
    requires IsRun(states, steps) && i < n <= |steps| && Settled(states[i + 1], s, labels)
    requires forall q :: i < q < n && (Labelling(steps[q]) || steps[q].Create?) ==> steps[q].session != s
    ensures Settled(states[n], s, labels)
  {
    hide Enabled, Apply, Inv, Settled, Initial;
    if n > i + 1 {
      SettledFromHere(states, steps, i, n - 1, s, labels);
      assert Enabled(states[n - 1], steps[n - 1]) && states[n] == Apply(states[n - 1], steps[n - 1]);
      InvInRun(states, steps, n - 1);
      SettledStays(states[n - 1], steps[n - 1], s, labels);
    }
  }

  // ----- Two runs in which an acknowledged rename is undone -----

  function Fresh(name: string): (r: SessionRecord) {
    SessionRecord(Labels(name, false), None, Status.Created, "")
  }

  /** The one session has this name, and its first turn is at this stage, recorded over
      the session as it was created. */
  ghost predicate OneTurn(a: Adapter, s: SessionId, name: string, before: string, stage: Stage) {
    && a.active == map[s := 0] && s in a.sessions && a.sessions[s].labels.name == name
    && a.runs == map[0 := NewRun(s).(stage := stage, previous := Some(Fresh(before)))]
  }

  function RecordStart(s: SessionId, before: string): (steps: seq<Step>) {
    [Create(s, before), Reserve(s, 0), PersistStart(0, Synced)]
  }

  lemma FirstReservation(s: SessionId, before: string)
    ensures Enabled(Initial(), Create(s, before))
    ensures var a := Apply(Initial(), Create(s, before));
            && Enabled(a, Reserve(s, 0))
            && Apply(a, Reserve(s, 0)) == Adapter(map[s := Fresh(before)], map[s := 0], map[0 := NewRun(s)])
  {
  }

  lemma FirstStart(s: SessionId, before: string, a: Adapter)
    requires a == Adapter(map[s := Fresh(before)], map[s := 0], map[0 := NewRun(s)])
    ensures Enabled(a, PersistStart(0, Synced))
    ensures OneTurn(Apply(a, PersistStart(0, Synced)), s, before, before, Persisted)
  {
  }

  lemma StartIsRecorded(s: SessionId, before: string) returns (states: seq<Adapter>)
    ensures IsRun(states, RecordStart(s, before)) && OneTurn(states[3], s, before, before, Persisted)
  {
    hide Initial, Enabled, Apply, OneTurn;
    FirstReservation(s, before);
    var a := Apply(Initial(), Create(s, before));
    var b := Apply(a, Reserve(s, 0));
    FirstStart(s, before, b);
    states := [Initial(), a, b, Apply(b, PersistStart(0, Synced))];
  }

  lemma RenamesIt(a: Adapter, s: SessionId, before: string, after: string, stage: Stage)
    requires OneTurn(a, s, before, before, stage)
    ensures Enabled(a, Rename(s, after, Synced)) && OneTurn(Apply(a, Rename(s, after, Synced)), s, after, before, stage)
  {
  }

  lemma IsCleared(a: Adapter, s: SessionId, name: string, before: string)
    requires OneTurn(a, s, name, before, Persisted)
    ensures Enabled(a, Recheck(0, Synced)) && OneTurn(Apply(a, Recheck(0, Synced)), s, name, before, Cleared)
  {
  }

  lemma DoesNotStart(a: Adapter, s: SessionId, name: string, before: string)
    requires OneTurn(a, s, name, before, Cleared)
    ensures Enabled(a, Start(0, false, Synced))
    ensures var b := Apply(a, Start(0, false, Synced)); s in b.sessions && b.sessions[s] == Fresh(before)
  {
  }

  lemma IsCancelled(a: Adapter, s: SessionId, name: string, before: string)
    requires OneTurn(a, s, name, before, Persisted)
    ensures Enabled(a, Cancel(s))
    ensures var b := Apply(a, Cancel(s));
            && Enabled(b, Recheck(0, Synced))
            && var c := Apply(b, Recheck(0, Synced)); s in c.sessions && c.sessions[s] == Fresh(before)
  {
  }

  ghost predicate HasName(a: Adapter, s: SessionId, name: string) {
    s in a.sessions && a.sessions[s].labels.name == name
  }

  lemma Named(a: Adapter, s: SessionId, name: string, before: string, stage: Stage)
    requires OneTurn(a, s, name, before, stage)
    ensures HasName(a, s, name)
  {
  }

  /** The turn is cancelled after a rename, before its process may start. */
  lemma RenameIsLostToCancel(s: SessionId, before: string, after: string) returns (states: seq<Adapter>, steps: seq<Step>)
    ensures IsRun(states, steps)
    ensures steps == RecordStart(s, before) + [Rename(s, after, Synced), Cancel(s), Recheck(0, Synced)]
    ensures HasName(states[4], s, after) && HasName(states[6], s, before)
  {
    hide Initial, Enabled, Apply, OneTurn;
    states := StartIsRecorded(s, before);
    var a := states[3];
    RenamesIt(a, s, before, after, Persisted);
    var b := Apply(a, Rename(s, after, Synced));
    Named(b, s, after, before, Persisted);
    IsCancelled(b, s, after, before);
    var c := Apply(b, Cancel(s));
    states, steps := AndThen(states, RecordStart(s, before), Rename(s, after, Synced));
    states, steps := AndThen(states, steps, Cancel(s));
    states, steps := AndThen(states, steps, Recheck(0, Synced));
  }

  /** The process of the turn does not start, and nobody cancelled it. */
  lemma RenameIsLostToFailedStart(s: SessionId, before: string, after: string) returns (states: seq<Adapter>, steps: seq<Step>)
    ensures IsRun(states, steps)
    ensures steps == RecordStart(s, before) + [Recheck(0, Synced), Rename(s, after, Synced), Start(0, false, Synced)]
    ensures HasName(states[5], s, after) && HasName(states[6], s, before)
  {
    hide Initial, Enabled, Apply, OneTurn;
    states := StartIsRecorded(s, before);
    IsCleared(states[3], s, before, before);
    var b := Apply(states[3], Recheck(0, Synced));
    RenamesIt(b, s, before, after, Cleared);
    var c := Apply(b, Rename(s, after, Synced));
    Named(c, s, after, before, Cleared);
    DoesNotStart(c, s, after, before);
    states, steps := AndThen(states, RecordStart(s, before), Recheck(0, Synced));
    states, steps := AndThen(states, steps, Rename(s, after, Synced));
    states, steps := AndThen(states, steps, Start(0, false, Synced));
  }

  lemma AndThen(states: seq<Adapter>, steps: seq<Step>, step: Step) returns (states': seq<Adapter>, steps': seq<Step>)
    requires IsRun(states, steps) && Enabled(states[|steps|], step)
    ensures states' == states + [Apply(states[|steps|], step)] && steps' == steps + [step] && IsRun(states', steps')
  {
    hide Initial, Enabled, Apply;
    states', steps' := states + [Apply(states[|steps|], step)], steps + [step];
  }
}
