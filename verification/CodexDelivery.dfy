/** A response reaches the caller that waits for it, and no other; a quarantined process
    takes no more requests. */
module CodexDelivery {
  import opened Options
  import opened CodexProcess
  import opened CodexRuns

  /** The message is on the way to the caller, or in its channel. */
  ghost predicate Delivered(s: System, id: Id, m: Message) {
    && id in s.channels && id !in s.a.pending && id in s.requests && id <= s.a.nextId
    && if id in s.sending then s.sending[id] == m && s.channels[id] == [] else s.channels[id] == [m]
  }

  /** When the line of a response is taken, by the reader of the process its request was
      written to, while the caller waits and nothing else is there for it, the response
      is on its way. */
  lemma ResponseIsTaken(states: seq<System>, steps: seq<Step>, n: nat, g: Generation)
    requires IsRun(states, steps) && n < |steps| && steps[n] == TakeLine(g)
    requires g in states[n].lines
    requires var id := states[n].lines[g];
             && id in states[n].waiting && id in states[n].requests && states[n].requests[id] == g
             && id !in states[n].sending && id in states[n].channels && states[n].channels[id] == []
    ensures var (id, t) := (states[n].lines[g], states[n + 1]);
            id in t.sending && t.sending[id] == Response(g) && Delivered(t, id, Response(g))
  {
    hide OneProcess;
    InvInRun(states, steps, n);
    assert Enabled(states[n], steps[n]) && states[n + 1] == Apply(states[n], steps[n]);
    assert RequestOk(states[n], states[n].lines[g]);
  }

  lemma DeliveredStays(s: System, step: Step, id: Id, m: Message)
    requires Enabled(s, step) && Delivered(s, id, m)
    ensures Delivered(Apply(s, step), id, m)
  {
  }

  /** From then on the caller finds that message, in every run: it stays on the way or in
      the channel, whatever else happens, also to the process. */
  lemma {:induction false} DeliveredInRun(states: seq<System>, steps: seq<Step>, i: nat, j: nat, id: Id, m: Message)
    requires IsRun(states, steps) && i <= j <= |steps| && Delivered(states[i], id, m)
    ensures Delivered(states[j], id, m)
  {
    hide Enabled, Apply, Initial, Delivered;
    if i < j {
      DeliveredInRun(states, steps, i, j - 1, id, m);
      assert Enabled(states[j - 1], steps[j - 1]) && states[j] == Apply(states[j - 1], steps[j - 1]);
      DeliveredStays(states[j - 1], steps[j - 1], id, m);
    }
  }

  lemma ResponseReachesItsCaller(states: seq<System>, steps: seq<Step>, n: nat, j: nat, g: Generation)
    requires IsRun(states, steps) && n < j <= |steps| && steps[n] == TakeLine(g) && g in states[n].lines
    requires var id := states[n].lines[g];
             && id in states[n].waiting && id in states[n].requests && states[n].requests[id] == g
             && id !in states[n].sending && id in states[n].channels && states[n].channels[id] == []
    ensures Delivered(states[j], states[n].lines[g], Response(g))
    ensures j < |steps| && steps[j] == Receive(states[n].lines[g]) ==>
              states[j].channels[states[n].lines[g]] == [Response(g)]
  {
    hide Apply, Initial;
    ResponseIsTaken(states, steps, n, g);
    DeliveredInRun(states, steps, n + 1, j, states[n].lines[g], Response(g));
    if j < |steps| {
      assert Enabled(states[j], steps[j]);
    }
  }

  /** A line with the number of a request written to another process, or of none, changes
      nothing but that it is gone. */
  lemma ForeignLineChangesNothing(states: seq<System>, steps: seq<Step>, n: nat, g: Generation)
    requires IsRun(states, steps) && n < |steps| && steps[n] == TakeLine(g) && g in states[n].lines
    requires states[n].lines[g] in states[n].requests ==> states[n].requests[states[n].lines[g]] != g
    ensures states[n + 1] == states[n].(lines := states[n].lines - {g})
  {
    hide OneProcess;
    InvInRun(states, steps, n);
    assert Enabled(states[n], steps[n]) && states[n + 1] == Apply(states[n], steps[n]);
    assert states[n].lines[g] in states[n].requests ==> RequestOk(states[n], states[n].lines[g]);
  }

  /** When a process exits, each of its requests still waiting for a message is told so,
      and no other request hears of it. */
  lemma ExitIsTold(states: seq<System>, steps: seq<Step>, n: nat, g: Generation, id: Id)
    requires IsRun(states, steps) && n < |steps| && steps[n] == Exit(g)
    requires id in states[n].waiting && id in states[n].requests && id in states[n].channels
    requires id !in states[n].sending && states[n].channels[id] == []
    ensures states[n].requests[id] == g ==> Delivered(states[n + 1], id, Exited)
    ensures states[n].requests[id] != g ==>
              var t := states[n + 1]; id in t.a.pending && id !in t.sending && id in t.channels && t.channels[id] == []
  {
    hide OneProcess;
    InvInRun(states, steps, n);
    assert Enabled(states[n], steps[n]) && states[n + 1] == Apply(states[n], steps[n]);
    assert RequestOk(states[n], id);
  }

  // ----- Quarantine -----

  /** Quarantining the process that runs fences it; of any other generation it changes
      nothing. */
  lemma QuarantineFences(states: seq<System>, steps: seq<Step>, n: nat, g: Generation)
    requires IsRun(states, steps) && n < |steps| && steps[n] == Quarantine(g)
    ensures states[n + 1] == if states[n].a.process == Some(g) && !states[n].a.closed
                             then states[n].(a := states[n].a.(quarantined := true)) else states[n]
  {
    hide RequestOk, PendingLive;
    InvInRun(states, steps, n);
    assert Enabled(states[n], steps[n]) && states[n + 1] == Apply(states[n], steps[n]);
  }

  ghost predicate Fenced(a: Adapter, g: Generation) {
    1 <= g <= a.generation && (a.process == Some(g) ==> a.quarantined)
  }

  lemma FencedStays(s: System, step: Step, g: Generation)
    requires Inv(s) && Enabled(s, step) && Fenced(s.a, g)
    ensures Fenced(Apply(s, step).a, g)
  {
    hide RequestOk, PendingLive;
  }

  /** A fenced process takes no request that names it, and is never found fit for one:
      whoever looks at it goes on looking until it has exited, or the adapter is closed. */
  lemma {:induction false} FencedInRun(states: seq<System>, steps: seq<Step>, i: nat, j: nat, g: Generation)
    requires IsRun(states, steps) && i <= j <= |steps| && Fenced(states[i].a, g)
    ensures Fenced(states[j].a, g)
    ensures j < |steps| ==> steps[j] != RegisterOnTarget(g)
    ensures j < |steps| && steps[j].Look? && states[j].a.process == Some(g) && !states[j].a.closed ==>
              states[j + 1].gate == Looking
  {
    hide Inv, Enabled, Apply, Initial, Fenced;
    InvInRun(states, steps, j);
    if i < j {
      FencedInRun(states, steps, i, j - 1, g);
      InvInRun(states, steps, j - 1);
      assert Enabled(states[j - 1], steps[j - 1]) && states[j] == Apply(states[j - 1], steps[j - 1]);
      FencedStays(states[j - 1], steps[j - 1], g);
    }
    if j < |steps| {
      assert Enabled(states[j], steps[j]) && states[j + 1] == Apply(states[j], steps[j]);
      FencedServesNobody(states[j], steps[j], g);
    }
  }

  lemma FencedServesNobody(s: System, step: Step, g: Generation)
    requires Inv(s) && Enabled(s, step) && Fenced(s.a, g)
    ensures step != RegisterOnTarget(g)
    ensures step.Look? && s.a.process == Some(g) && !s.a.closed ==> Apply(s, step).gate == Looking
  {
    hide RequestOk, PendingLive;
  }

  /** A process that runs, unfenced, is found fit, and a request for it can be
      registered by either way. */
  lemma FitProcessServes(states: seq<System>, steps: seq<Step>, n: nat)
    requires IsRun(states, steps) && n <= |steps|
    requires states[n].a.process.Some? && !states[n].a.quarantined && !states[n].a.closed
    ensures Enabled(states[n], Register) && Enabled(states[n], RegisterOnTarget(states[n].a.process.value))
    ensures states[n].gate == Looking ==> Apply(states[n], Look(true)).gate == Free
    ensures states[n].a.process.value !in states[n].lines ==>
              forall id :: Enabled(states[n], ReadLine(states[n].a.process.value, id))
  {
    hide RequestOk, PendingLive;
    InvInRun(states, steps, n);
  }

  /** A process is published fit to serve, as the next generation; when it exits, none
      runs and nothing is quarantined. */
  lemma ProcessComesAndGoes(states: seq<System>, steps: seq<Step>, n: nat, g: Generation)
    requires IsRun(states, steps) && n < |steps|
    ensures steps[n] == Publish && !states[n].a.closed ==>
              states[n + 1].a == states[n].a.(generation := states[n].a.generation + 1,
                                              process := Some(states[n].a.generation + 1), quarantined := false)
    ensures steps[n] == Exit(g) && states[n].a.process == Some(g) ==>
              states[n + 1].a.process == None && !states[n + 1].a.quarantined
    ensures steps[n] == Exit(g) && states[n].a.process != Some(g) ==>
              states[n + 1].a.process == states[n].a.process && states[n + 1].a.quarantined == states[n].a.quarantined
  {
    hide RequestOk, PendingLive;
    InvInRun(states, steps, n);
    assert Enabled(states[n], steps[n]) && states[n + 1] == Apply(states[n], steps[n]);
  }
}
