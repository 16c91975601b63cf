/** How a create call gets where it is: what the provider's answers lead to, and what a
    success, an abort or a doubt must have been preceded by. */
module SessionOutcomes {
  import opened Options
  import opened SessionLedger
  import opened StateFile
  import opened SessionLedgerTheorems
  import opened SessionProtocol
  import opened SessionTheorems
  import opened SessionAnswers

  /** The step that brings a call to a phase. */
  predicate Brings(s: System, step: Step, call: nat, p: Phase) {
    match p
    case Unsent => step.BeginCreate? && step.call == call
    case Sent => step == SendCreate(call)
    case Rejected => step == ReceiveReply(call, Refused)
    case Vague =>
      || step == ReceiveReply(call, Unclear)
      || (step == ReceiveReply(call, NoSession) && call in s.calls && s.calls[call].provider == Codex)
    case Made(x) => step == ReceiveReply(call, NewSession(x))
    case Recording(_) => step == SaveVisibility(call, true) && call in s.calls && s.calls[call].provider == Codex
    case Turning(_) => step.RecordThread? && step.call == call && step.save == Synced
    case Completing(_) =>
      || step == FirstTurn(call, TurnAccepted)
      || (step == SaveVisibility(call, true) && call in s.calls && s.calls[call].provider == Claude)
    case Doubtful(_) => step == SaveVisibility(call, false) || step == FirstTurn(call, TurnUnclear)
    case Cleaning(_, stage) =>
      match stage
      case Preparing => step == FirstTurn(call, TurnRefused)
      case Erasing => step.CleanPrepare? && step.call == call
      case Finalizing => step == CleanErase(call, true)
  }

  lemma PhaseComesFrom(s: System, step: Step, call: nat)
    requires Enabled(s, step) && call in CallsAfter(s, step)
    ensures var p := CallsAfter(s, step)[call].phase;
            (call in s.calls && s.calls[call].phase == p) || Brings(s, step, call, p)
  {
    hide Begin, PrepareDelete, ValidRecord, SavedOrTakenBack;
  }

  ghost predicate Brought(states: seq<System>, steps: seq<Step>, f: nat, n: nat, call: nat, p: Phase)
    requires |states| == |steps| + 1 && n <= |steps|
  {
    && f < n && Brings(states[f], steps[f], call, p)
    && forall m :: f < m <= n ==> call in states[m].calls && states[m].calls[call].phase == p
  }

  /** In every run, a call is in a phase since the step that brings it there. */
  lemma {:induction false} PhaseWasBrought(states: seq<System>, steps: seq<Step>, n: nat, call: nat) returns (f: nat)
    requires IsRun(states, steps) && n <= |steps| && call in states[n].calls
    ensures Brought(states, steps, f, n, call, states[n].calls[call].phase)
  {
    hide Enabled, SessionProtocol.Apply, Initial, Brings;
    if n == 0 {
      NoCallsYet(call);
    } else {
      var (s, step, p) := (states[n - 1], steps[n - 1], states[n].calls[call].phase);
      assert Enabled(s, step) && states[n] == SessionProtocol.Apply(s, step);
      CallsAreNext(s, step);
      PhaseComesFrom(s, step, call);
      if call in s.calls && s.calls[call].phase == p {
        f := PhaseWasBrought(states, steps, n - 1, call);
      } else {
        f := n - 1;
      }
    }
  }

  lemma NoCallsYet(call: nat)
    ensures call !in Initial().calls
  {
  }

  /** A call completes only after Codex accepted the first turn of its session, if it asks
      for one, or, for Claude Code, the session was made visible. */
  lemma SuccessWasAccepted(states: seq<System>, steps: seq<Step>, n: nat, call: nat) returns (f: nat)
    requires IsRun(states, steps) && n < |steps| && steps[n].Complete? && steps[n].call == call
    ensures f < n && call in states[f].calls
    ensures steps[f] == FirstTurn(call, TurnAccepted)
            || (steps[f] == SaveVisibility(call, true) && states[f].calls[call].provider == Claude)
  {
    assert Enabled(states[n], steps[n]);
    f := PhaseWasBrought(states, steps, n, call);
    assert Enabled(states[f], steps[f]);
  }

  /** A call gives its key back only after the provider definitely refused. */
  lemma AbortWasRefused(states: seq<System>, steps: seq<Step>, n: nat, call: nat) returns (f: nat)
    requires IsRun(states, steps) && n < |steps| && steps[n].AbortCreate? && steps[n].call == call
    ensures f < n && steps[f] == ReceiveReply(call, Refused)
  {
    assert Enabled(states[n], steps[n]);
    f := PhaseWasBrought(states, steps, n, call);
  }

  /** A call begins to delete its session only after Codex refused the first turn. */
  lemma CleanUpWasRefused(states: seq<System>, steps: seq<Step>, n: nat, call: nat) returns (f: nat)
    requires IsRun(states, steps) && n < |steps| && steps[n].CleanPrepare? && steps[n].call == call
    ensures f < n && steps[f] == FirstTurn(call, TurnRefused)
  {
    assert Enabled(states[n], steps[n]);
    f := PhaseWasBrought(states, steps, n, call);
  }

  /** What each answer leads to. */
  lemma AnswerLeadsTo(s: System, step: Step)
    requires Enabled(s, step)
    ensures step.ReceiveReply? ==>
              var (calls, c) := (CallsAfter(s, step), step.call);
              match step.reply
              case Refused => c in calls && calls[c].phase == Rejected
              case Unclear => c in calls && calls[c].phase == Vague
              case NewSession(x) => c in calls && calls[c].phase == Made(x)
              case NoSession => if s.calls[c].provider == Codex then c in calls && calls[c].phase == Vague else c !in calls
    ensures step.SaveVisibility? ==>
              var (calls, c) := (CallsAfter(s, step), step.call);
              var x := s.calls[c].phase.session;
              c in calls && calls[c].phase == if !step.ok then Doubtful(x)
                                              else if s.calls[c].provider == Codex then Recording(x) else Completing(x)
    ensures step.FirstTurn? ==>
              var (calls, c) := (CallsAfter(s, step), step.call);
              var x := s.calls[c].phase.session;
              c in calls && calls[c].phase == match step.answer
                                              case TurnAccepted => Completing(x)
                                              case TurnRefused => Cleaning(x, Preparing)
                                              case TurnUnclear => Doubtful(x)
  {
  }
}
