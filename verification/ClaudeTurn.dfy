/** A turn of a Claude Code session: reserving it, recording its start, starting the
    process, cancelling it, reading its output and waiting for its exit. Each critical
    section of the adapter is a method proved against a function on values. */
module ClaudeTurn {
  import opened Options
  import opened StateFile

  type SessionId = string
  type TurnId = nat

  datatype Status = Created | Running | Completed | Failed | Canceled | Interrupted

  /** The part of a session record that its user sets. */
  datatype Labels = Labels(name: string, archived: bool)

  datatype SessionRecord = SessionRecord(labels: Labels, latestTurn: Option<TurnId>, status: Status, result: string)

  /** How far startTurnWithOverrides has come with a run: reserved; its start recorded;
      seen not to be cancelled; process started; command published; failing; gone. */
  datatype Stage = Held | Persisted | Cleared | Spawned | Live | Failing | Gone

  /** `previous` is the record as it was before the start was recorded; `killing` says
      that a kill of the process has been ordered. */
  datatype Run = Run(
    session: SessionId, stage: Stage, previous: Option<SessionRecord>,
    hasCommand: bool, canceled: bool, killing: bool, outputDone: bool, exited: bool)

  datatype Adapter = Adapter(sessions: map<SessionId, SessionRecord>, active: map<SessionId, TurnId>, runs: map<TurnId, Run>)

  function NewRun(s: SessionId): (r: Run) {
    Run(s, Held, None, false, false, false, false, false)
  }

  predicate At(a: Adapter, t: TurnId, stage: Stage) {
    t in a.runs && a.runs[t].stage == stage
  }

  function WithStage(a: Adapter, t: TurnId, stage: Stage): (a': Adapter)
    requires t in a.runs
  {
    a.(runs := a.runs[t := a.runs[t].(stage := stage)])
  }

  /** Write the session's record, if the session is still there. */
  function WithRecord(a: Adapter, s: SessionId, r: SessionRecord): (a': Adapter) {
    if s in a.sessions then a.(sessions := a.sessions[s := r]) else a
  }

  function Reserved(a: Adapter, s: SessionId, t: TurnId): (a': Adapter) {
    if s !in a.sessions || s in a.active then a
    else a.(active := a.active[s := t], runs := a.runs[t := NewRun(s)])
  }

  /** A session's record; a session dropped meanwhile has none to be seen. */
  function RecordOf(a: Adapter, s: SessionId): (r: Option<SessionRecord>) {
    if s in a.sessions then Some(a.sessions[s]) else None
  }

  /** The record of the start of a turn; one that may not be durable counts as
      interrupted. */
  function StartOf(r: SessionRecord, t: TurnId, save: Save): (r': SessionRecord) {
    r.(latestTurn := Some(t), status := if save.Unsynced? then Interrupted else Running, result := "")
  }

  function StartPersisted(a: Adapter, t: TurnId, save: Save): (a': Adapter)
    requires t in a.runs
  {
    var run := a.runs[t];
    if run.canceled || save.NotCommitted? then WithStage(a, t, Failing)
    else
      var previous := RecordOf(a, run.session);
      var started := if previous.None? then a else WithRecord(a, run.session, StartOf(previous.value, t, save));
      if save.Unsynced? then WithStage(started, t, Failing)
      else started.(runs := started.runs[t := run.(stage := Persisted, previous := previous)])
  }

  /** Put the record back as it was before the start; if that cannot be written, leave
      it as it is. */
  function RolledBack(a: Adapter, t: TurnId, save: Save): (a': Adapter)
    requires t in a.runs
  {
    var run := a.runs[t];
    WithStage(
      if save.NotCommitted? || run.previous.None? then a else WithRecord(a, run.session, run.previous.value), t, Failing)
  }

  function Rechecked(a: Adapter, t: TurnId, save: Save): (a': Adapter)
    requires t in a.runs
  {
    if a.runs[t].canceled then RolledBack(a, t, save) else WithStage(a, t, Cleared)
  }

  function Started(a: Adapter, t: TurnId, ok: bool, save: Save): (a': Adapter)
    requires t in a.runs
  {
    if ok then WithStage(a, t, Spawned) else RolledBack(a, t, save)
  }

  /** The command becomes visible to Cancel; a cancellation that came before is now
      carried out by the starting thread. */
  function CommandPublished(a: Adapter, t: TurnId): (a': Adapter)
    requires t in a.runs
  {
    var run := a.runs[t];
    a.(runs := a.runs[t := run.(stage := Live, hasCommand := true, killing := run.killing || run.canceled)])
  }

  function CleanedUp(a: Adapter, t: TurnId): (a': Adapter)
    requires t in a.runs
  {
    var s := a.runs[t].session;
    WithStage(if s in a.active && a.active[s] == t then a.(active := a.active - {s}) else a, t, Gone)
  }

  function CanceledRun(r: Run): (r': Run) {
    r.(canceled := true, killing := r.killing || r.hasCommand)
  }

  function CancelRequested(a: Adapter, s: SessionId): (a': Adapter) {
    if s in a.active && a.active[s] in a.runs
    then a.(runs := a.runs[a.active[s] := CanceledRun(a.runs[a.active[s]])]) else a
  }

  function ClosedAll(a: Adapter): (a': Adapter) {
    a.(runs := map t | t in a.runs :: if t in a.active.Values then CanceledRun(a.runs[t]) else a.runs[t])
  }

  /** A result line of a turn. */
  function LineHandled(a: Adapter, t: TurnId, isError: bool, text: string): (a': Adapter)
    requires t in a.runs
  {
    var s := a.runs[t].session;
    if s in a.sessions then
      WithRecord(a, s, a.sessions[s].(status := if isError then Failed else Completed, result := if isError then "" else text))
    else a
  }

  function ExitStatus(r: Run, failed: bool): (s: Status) {
    if r.canceled then Canceled else if failed then Failed else Completed
  }

  function Waited(a: Adapter, t: TurnId, failed: bool): (a': Adapter)
    requires t in a.runs
  {
    var run := a.runs[t];
    var b := a.(active := a.active - {run.session});
    var c :=
      if run.session in b.sessions && b.sessions[run.session].status.Running?
      then WithRecord(b, run.session, b.sessions[run.session].(status := ExitStatus(run, failed))) else b;
    WithStage(c, t, Gone)
  }

  /** Rename and SetArchived. */
  function Labelled(a: Adapter, s: SessionId, labels: Labels, save: Save): (a': Adapter) {
    if s in a.sessions && !save.NotCommitted? then WithRecord(a, s, a.sessions[s].(labels := labels)) else a
  }

  function Deleted(a: Adapter, s: SessionId, save: Save): (a': Adapter) {
    if s in a.sessions && s !in a.active && !save.NotCommitted? then a.(sessions := a.sessions - {s}) else a
  }

  /** The loop of Close with some turns left. */
  ghost predicate PartClosed(was: map<TurnId, Run>, turns: set<TurnId>, left: set<TurnId>, runs: map<TurnId, Run>) {
    && left <= turns <= runs.Keys == was.Keys
    && forall t :: t in runs ==> runs[t] == if t in turns && t !in left then CanceledRun(was[t]) else was[t]
  }

  lemma NothingClosed(was: map<TurnId, Run>, turns: set<TurnId>)
    requires turns <= was.Keys
    ensures PartClosed(was, turns, turns, was)
  {
  }

  lemma CloseOne(was: map<TurnId, Run>, turns: set<TurnId>, left: set<TurnId>, runs: map<TurnId, Run>, t: TurnId)
    requires PartClosed(was, turns, left, runs) && t in left
    ensures t in runs && |left - {t}| < |left|
    ensures PartClosed(was, turns, left - {t}, runs[t := CanceledRun(runs[t])])
  {
  }

  lemma EveryOneClosed(a: Adapter, runs: map<TurnId, Run>)
    requires PartClosed(a.runs, a.active.Values, {}, runs)
    ensures runs == ClosedAll(a).runs
  {
  }

  class ClaudeCodeAdapter {
    var sessions: map<SessionId, SessionRecord>
    var active: map<SessionId, TurnId>
    var runs: map<TurnId, Run>

    ghost function Value(): (a: Adapter)
      reads this
    {
      Adapter(sessions, active, runs)
    }

    method Reserve(s: SessionId, t: TurnId) returns (ok: bool)
      modifies this
      ensures Value() == Reserved(old(Value()), s, t) && ok == (s in old(sessions) && s !in old(active))
    {
      if s !in sessions || s in active {
        return false;
      }
      active := active[s := t];
      runs := runs[t := NewRun(s)];
      return true;
    }

    method PersistStart(t: TurnId, save: Save)
      requires t in runs
      modifies this
      ensures Value() == StartPersisted(old(Value()), t, save)
    {
      var run := runs[t];
      if run.canceled {
        SetStage(t, Failing);
        return;
      }
      var previous := if run.session in sessions then Some(sessions[run.session]) else None;
      if previous.Some? {
        sessions := sessions[run.session := StartOf(previous.value, t, Synced)];
        if save.NotCommitted? {
          sessions := sessions[run.session := previous.value];
          assert sessions == old(sessions);
        } else if save.Unsynced? {
          sessions := sessions[run.session := sessions[run.session].(status := Interrupted)];
          assert sessions == old(sessions)[run.session := StartOf(previous.value, t, save)];
        }
      }
      if !save.Synced? {
        SetStage(t, Failing);
        return;
      }
      runs := runs[t := run.(stage := Persisted, previous := previous)];
    }

    method SetStage(t: TurnId, stage: Stage)
      requires t in runs
      modifies this`runs
      ensures runs == old(runs)[t := old(runs)[t].(stage := stage)]
    {
      runs := runs[t := runs[t].(stage := stage)];
    }

    method RollBack(t: TurnId, save: Save)
      requires t in runs
      modifies this
      ensures Value() == RolledBack(old(Value()), t, save)
    {
      var run := runs[t];
      if run.session in sessions && run.previous.Some? {
        var running := sessions[run.session];
        sessions := sessions[run.session := run.previous.value];
        if save.NotCommitted? {
          sessions := sessions[run.session := running];
          assert sessions == old(sessions);
        }
      }
      SetStage(t, Failing);
    }

    method Recheck(t: TurnId, save: Save)
      requires t in runs
      modifies this
      ensures Value() == Rechecked(old(Value()), t, save)
    {
      if runs[t].canceled {
        RollBack(t, save);
      } else {
        SetStage(t, Cleared);
      }
    }

    method Start(t: TurnId, ok: bool, save: Save)
      requires t in runs
      modifies this
      ensures Value() == Started(old(Value()), t, ok, save)
    {
      if ok {
        SetStage(t, Spawned);
      } else {
        RollBack(t, save);
      }
    }

    method PublishCommand(t: TurnId) returns (kill: bool)
      requires t in runs
      modifies this`runs
      ensures Value() == CommandPublished(old(Value()), t) && kill == old(runs)[t].canceled
    {
      kill := runs[t].canceled;
      runs := runs[t := runs[t].(stage := Live, hasCommand := true, killing := runs[t].killing || kill)];
    }

    method CleanUp(t: TurnId)
      requires t in runs
      modifies this
      ensures Value() == CleanedUp(old(Value()), t)
    {
      var s := runs[t].session;
      if s in active && active[s] == t {
        active := active - {s};
      }
      SetStage(t, Gone);
    }

    /** Cancel without its final kill; `kill` says that the caller goes on to kill. */
    method Cancel(s: SessionId) returns (accepted: bool, kill: bool)
      requires forall x :: x in active ==> active[x] in runs
      modifies this`runs
      ensures Value() == CancelRequested(old(Value()), s) && accepted == (s in active)
      ensures kill ==> accepted && runs[active[s]].killing
    {
      if s !in active {
        return false, false;
      }
      var t := active[s];
      kill := runs[t].hasCommand;
      runs := runs[t := runs[t].(canceled := true, killing := runs[t].killing || kill)];
      accepted := true;
    }

    method Close()
      requires forall x :: x in active ==> active[x] in runs
      modifies this`runs
      ensures Value() == ClosedAll(old(Value()))
    {
      hide PartClosed;
      var left := active.Values;
      ghost var was := runs;
      NothingClosed(was, left);
      while left != {}
        invariant PartClosed(was, active.Values, left, runs)
        decreases |left|
      {
        var t :| t in left;
        CloseOne(was, active.Values, left, runs, t);
        runs := runs[t := CanceledRun(runs[t])];
        left := left - {t};
      }
      EveryOneClosed(Adapter(sessions, active, was), runs);
    }

    method HandleLine(t: TurnId, isError: bool, text: string)
      requires t in runs
      modifies this`sessions
      ensures Value() == LineHandled(old(Value()), t, isError, text)
    {
      var s := runs[t].session;
      if s in sessions {
        sessions := sessions[s := sessions[s].(
          status := if isError then Failed else Completed, result := if isError then "" else text)];
      }
    }

    method WaitRun(t: TurnId, failed: bool)
      requires t in runs
      modifies this
      ensures Value() == Waited(old(Value()), t, failed)
    {
      var run := runs[t];
      active := active - {run.session};
      if run.session in sessions && sessions[run.session].status.Running? {
        sessions := sessions[run.session := sessions[run.session].(status := ExitStatus(run, failed))];
      }
      SetStage(t, Gone);
    }

    method Rename(s: SessionId, name: string, save: Save)
      modifies this`sessions
      ensures s in old(sessions) ==>
                Value() == Labelled(old(Value()), s, old(sessions)[s].labels.(name := name), save)
      ensures s !in old(sessions) ==> Value() == old(Value())
    {
      if s in sessions {
        var previous := sessions[s];
        sessions := sessions[s := previous.(labels := previous.labels.(name := name))];
        if save.NotCommitted? {
          sessions := sessions[s := previous];
          assert sessions == old(sessions);
        }
      }
    }

    method SetArchived(s: SessionId, archived: bool, save: Save)
      modifies this`sessions
      ensures s in old(sessions) ==>
                Value() == Labelled(old(Value()), s, old(sessions)[s].labels.(archived := archived), save)
      ensures s !in old(sessions) ==> Value() == old(Value())
    {
      if s in sessions {
        var previous := sessions[s];
        sessions := sessions[s := previous.(labels := previous.labels.(archived := archived))];
        if save.NotCommitted? {
          sessions := sessions[s := previous];
          assert sessions == old(sessions);
        }
      }
    }

    method Delete(s: SessionId, save: Save)
      modifies this`sessions
      ensures Value() == Deleted(old(Value()), s, save)
    {
      if s in sessions && s !in active {
        var record := sessions[s];
        sessions := sessions - {s};
        if save.NotCommitted? {
          sessions := sessions[s := record];
          assert sessions == old(sessions);
        }
      }
    }
  }
}
