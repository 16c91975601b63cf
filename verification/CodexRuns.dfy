/** Any interleaving of starts, requests, reads, timeouts, exits and Close on the Codex
    adapter. */
module CodexRuns {
  import opened Options
  import opened CodexProcess

  /** How far the holder of the start gate has come: it looks at the running process,
      or has seen that there is none, or has published a new one. */
  datatype Gate = Free | Looking | Clear | Initializing

  /** `requests` gives every request ever registered its generation; `waiting` those
      whose caller still waits; `sending` the messages taken out for a waiter and not
      yet sent; `channels` what was sent to each waiter's one-slot channel; `lines` the
      response lines whose reader has passed the generation check. */
  datatype System = System(
    a: Adapter, gate: Gate, requests: map<Id, Generation>, waiting: set<Id>,
    sending: map<Id, Message>, channels: map<Id, seq<Message>>, lines: map<Generation, Id>,
    finished: set<Generation>)

  datatype Step =
    | TakeGate
    | Look(alive: bool)
    | Publish
    | LeaveGate
    | Register
    | RegisterOnTarget(g: Generation)
    | StopWaiting(id: Id)
    | ReadLine(g: Generation, id: Id)
    | TakeLine(g: Generation)
    | Send(id: Id)
    | Receive(id: Id)
    | Quarantine(g: Generation)
    | Exit(g: Generation)
    | Close

  function Initial(): (s: System) {
    System(Adapter(false, None, 0, false, 0, map[]), Free, map[], {}, map[], map[], map[], {})
  }

  predicate Enabled(s: System, step: Step) {
    match step
    case TakeGate => s.gate == Free
    case Look(_) => s.gate == Looking
    case Publish => s.gate == Clear
    case LeaveGate => s.gate != Free
    case Register => s.a.process.Some?
    case RegisterOnTarget(g) => IsCurrent(s.a, g) && s.a.process == Some(g)
    case StopWaiting(id) => id in s.waiting
    case ReadLine(g, _) => 1 <= g <= s.a.generation && g !in s.lines && IsCurrent(s.a, g)
    case TakeLine(g) => g in s.lines
    case Send(id) => id in s.sending
    case Receive(id) => id in s.waiting && id in s.channels && s.channels[id] != []
    case Quarantine(_) => true
    case Exit(g) => 1 <= g <= s.a.generation && g !in s.finished
    case Close => true
  }

  function WithRequest(s: System): (t: System) {
    var id := s.a.nextId + 1;
    s.(a := Registered(s.a), requests := s.requests[id := s.a.generation], waiting := s.waiting + {id},
       channels := s.channels[id := []])
  }

  /** One look at the running process under the start gate. */
  function Looked(s: System, alive: bool): (g: Gate) {
    if s.a.closed then Free
    else if s.a.process.Some? && alive && !s.a.quarantined then Free
    else if s.a.process.Some? then Looking
    else Clear
  }

  function Apply(s: System, step: Step): (t: System)
    requires Enabled(s, step)
  {
    match step
    case TakeGate => s.(gate := Looking)
    case Look(alive) => s.(gate := Looked(s, alive))
    case Publish => s.(a := Published(s.a), gate := if s.a.closed then Free else Initializing)
    case LeaveGate => s.(gate := Free)
    case Register => WithRequest(s)
    case RegisterOnTarget(_) => WithRequest(s)
    case StopWaiting(id) => s.(a := Removed(s.a, id), waiting := s.waiting - {id})
    case ReadLine(g, id) => s.(lines := s.lines[g := id])
    case TakeLine(g) =>
      var id := s.lines[g];
      var t := s.(lines := s.lines - {g});
      if Answers(s.a, id, g) then t.(a := Removed(s.a, id), sending := s.sending[id := Response(g)]) else t
    case Send(id) =>
      s.(sending := s.sending - {id},
         channels := s.channels[id := (if id in s.channels then s.channels[id] else []) + [s.sending[id]]])
    case Receive(id) => s.(waiting := s.waiting - {id})
    case Quarantine(g) => s.(a := Quarantined(s.a, g))
    case Exit(g) =>
      s.(a := Finished(s.a, g), finished := s.finished + {g},
         sending := s.sending + map id | id in s.a.pending && s.a.pending[id] == g :: Exited)
    case Close => s.(a := s.a.(closed := true))
  }

  // ----- The invariant -----

  /** At most one published process has not exited: the running one. */
  ghost predicate OneProcess(a: Adapter, finished: set<Generation>, gate: Gate) {
    && (forall g :: 1 <= g <= a.generation ==> (g !in finished <==> a.process == Some(g)))
    && (forall g :: g in finished ==> 1 <= g <= a.generation)
    && (a.process.Some? ==> a.process.value == a.generation >= 1)
    && (gate == Clear ==> a.process.None?)
  }

  /** Where a request is: in `pending`, on the way to its channel, or in it; and only
      a caller that gave up can be without any of the three. */
  ghost predicate RequestOk(s: System, id: Id) {
    && id in s.requests && id in s.channels && 1 <= id <= s.a.nextId
    && |s.channels[id]| <= 1
    && (id in s.a.pending ==> id !in s.sending && s.channels[id] == [] && s.a.pending[id] == s.requests[id])
    && (id in s.sending ==> s.channels[id] == [] && FromOwn(s.sending[id], s.requests[id]))
    && (s.channels[id] != [] ==> FromOwn(s.channels[id][0], s.requests[id]))
    && (id in s.waiting ==> id in s.a.pending || id in s.sending || s.channels[id] != [])
  }

  ghost predicate FromOwn(m: Message, g: Generation) {
    m.Response? ==> m.generation == g
  }

  ghost predicate PendingLive(s: System, id: Id) {
    id in s.requests && s.requests[id] <= s.a.generation && (id in s.a.pending ==> s.requests[id] !in s.finished)
  }

  ghost predicate Inv(s: System) {
    && OneProcess(s.a, s.finished, s.gate)
    && (forall id :: id in s.requests ==> RequestOk(s, id) && PendingLive(s, id))
    && s.a.pending.Keys <= s.requests.Keys && s.sending.Keys <= s.requests.Keys
    && s.channels.Keys == s.requests.Keys && s.waiting <= s.requests.Keys
  }

  lemma InitialHolds()
    ensures Inv(Initial())
  {
  }

  lemma OneProcessStays(s: System, step: Step)
    requires OneProcess(s.a, s.finished, s.gate) && Enabled(s, step)
    ensures var t := Apply(s, step); OneProcess(t.a, t.finished, t.gate)
  {
  }

  lemma RegisteredHolds(s: System)
    requires Inv(s) && s.a.process.Some?
    ensures Inv(WithRequest(s))
  {
    var t := WithRequest(s);
    assert s.a.nextId + 1 !in s.requests;
    forall id | id in t.requests
      ensures RequestOk(t, id) && PendingLive(t, id)
    {
      assert id in s.requests ==> RequestOk(s, id) && PendingLive(s, id);
    }
  }

  lemma ExitHolds(s: System, g: Generation)
    requires Inv(s) && Enabled(s, Exit(g))
    ensures Inv(Apply(s, Exit(g)))
  {
    var t := Apply(s, Exit(g));
    OneProcessStays(s, Exit(g));
    forall id | id in t.requests
      ensures RequestOk(t, id) && PendingLive(t, id)
    {
      assert RequestOk(s, id) && PendingLive(s, id);
    }
  }

  /** The requests and their messages are as before. */
  ghost predicate SameRequests(s: System, t: System) {
    && t.requests == s.requests && t.waiting <= s.waiting && t.sending == s.sending && t.channels == s.channels
    && t.finished == s.finished && t.a.pending == s.a.pending && t.a.nextId == s.a.nextId
    && t.a.generation >= s.a.generation
  }

  lemma SameRequestsHold(s: System, t: System)
    requires Inv(s) && SameRequests(s, t) && OneProcess(t.a, t.finished, t.gate)
    ensures Inv(t)
  {
    hide OneProcess;
    forall id | id in t.requests
      ensures RequestOk(t, id) && PendingLive(t, id)
    {
      assert RequestOk(s, id) && PendingLive(s, id);
    }
  }

  predicate Moves(step: Step) {
    step.StopWaiting? || step.TakeLine? || step.Send? || step.Register? || step.RegisterOnTarget? || step.Exit?
  }

  lemma OtherStepsKeepRequests(s: System, step: Step)
    requires Enabled(s, step) && !Moves(step)
    ensures SameRequests(s, Apply(s, step))
  {
  }

  lemma StopHolds(s: System, id: Id)
    requires Inv(s) && id in s.waiting
    ensures Inv(s.(a := Removed(s.a, id), waiting := s.waiting - {id}))
  {
    var t := s.(a := Removed(s.a, id), waiting := s.waiting - {id});
    forall i | i in t.requests
      ensures RequestOk(t, i) && PendingLive(t, i)
    {
      assert RequestOk(s, i) && PendingLive(s, i);
    }
  }

  lemma TakeHolds(s: System, g: Generation)
    requires Inv(s) && g in s.lines
    ensures Inv(Apply(s, TakeLine(g)))
  {
    var t := Apply(s, TakeLine(g));
    forall i | i in t.requests
      ensures RequestOk(t, i) && PendingLive(t, i)
    {
      assert RequestOk(s, i) && PendingLive(s, i);
    }
  }

  lemma SendHolds(s: System, id: Id)
    requires Inv(s) && id in s.sending
    ensures Inv(Apply(s, Send(id)))
  {
    hide OneProcess, PendingLive;
    var t := Apply(s, Send(id));
    assert RequestOk(s, id);
    forall i | i in t.requests
      ensures RequestOk(t, i) && PendingLive(t, i)
    {
      assert RequestOk(s, i) && PendingLive(s, i);
      SendKeepsLive(s, id, i);
    }
  }

  lemma SendKeepsLive(s: System, id: Id, i: Id)
    requires id in s.sending && PendingLive(s, i)
    ensures PendingLive(Apply(s, Send(id)), i)
  {
  }

  lemma InvStays(s: System, step: Step)
    requires Inv(s) && Enabled(s, step)
    ensures Inv(Apply(s, step))
  {
    hide Inv, Apply, SameRequests, OneProcess, WithRequest, RequestOk;
    match step
    case Register => RegisterStep(s, step);
    case RegisterOnTarget(_) => RegisterStep(s, step);
    case Exit(g) => ExitHolds(s, g);
    case StopWaiting(id) => StopStep(s, id);
    case TakeLine(g) => TakeHolds(s, g);
    case Send(id) => SendHolds(s, id);
    case _ => OtherStep(s, step);
  }

  lemma RegisterStep(s: System, step: Step)
    requires Inv(s) && Enabled(s, step) && (step.Register? || step.RegisterOnTarget?)
    ensures Inv(Apply(s, step))
  {
    hide Inv, WithRequest;
    RegisteredHolds(s);
  }

  lemma StopStep(s: System, id: Id)
    requires Inv(s) && id in s.waiting
    ensures Inv(Apply(s, StopWaiting(id)))
  {
    hide Inv;
    StopHolds(s, id);
  }

  lemma OtherStep(s: System, step: Step)
    requires Inv(s) && Enabled(s, step) && !Moves(step)
    ensures Inv(Apply(s, step))
  {
    hide Apply, SameRequests, RequestOk, PendingLive;
    OtherStepsKeepRequests(s, step);
    OneProcessStays(s, step);
    SameRequestsHold(s, Apply(s, step));
  }

  // ----- Every run -----

  ghost predicate IsRun(states: seq<System>, steps: seq<Step>) {
    && |states| == |steps| + 1 && states[0] == Initial()
    && (forall i :: 0 <= i < |steps| ==> Enabled(states[i], steps[i]) && states[i + 1] == Apply(states[i], steps[i]))
  }

  lemma {:induction false} InvInRun(states: seq<System>, steps: seq<Step>, n: nat)
    requires IsRun(states, steps) && n <= |steps|
    ensures Inv(states[n])
  {
    hide Inv, Enabled, Apply, Initial;
    if n == 0 {
      InitialHolds();
    } else {
      InvInRun(states, steps, n - 1);
      assert Enabled(states[n - 1], steps[n - 1]);
      InvStays(states[n - 1], steps[n - 1]);
    }
  }

  /** No sender ever finds a waiter's one-slot channel full, and a waiter gets at most
      one message; a response comes from the generation the request was written to. */
  lemma OneMessageFromItsGeneration(states: seq<System>, steps: seq<Step>, n: nat, id: Id)
    requires IsRun(states, steps) && n <= |steps| && id in states[n].requests
    ensures id in states[n].channels && |states[n].channels[id]| <= 1
    ensures n < |steps| && steps[n] == Send(id) ==> states[n].channels[id] == []
    ensures forall m :: m in states[n].channels[id] && m.Response? ==> m.generation == states[n].requests[id]
  {
    hide OneProcess;
    InvInRun(states, steps, n);
    assert RequestOk(states[n], id);
    if n < |steps| {
      assert Enabled(states[n], steps[n]);
    }
  }

  /** Once a generation has exited, each of its requests whose caller still waits has a
      message in its channel or on the way to it. */
  lemma NobodyWaitsForAnExitedProcess(states: seq<System>, steps: seq<Step>, n: nat, id: Id)
    requires IsRun(states, steps) && n <= |steps| && id in states[n].waiting && id in states[n].requests
    requires states[n].requests[id] in states[n].finished
    ensures id !in states[n].a.pending
    ensures id in states[n].sending || (id in states[n].channels && states[n].channels[id] != [])
  {
    hide OneProcess;
    InvInRun(states, steps, n);
    assert RequestOk(states[n], id) && PendingLive(states[n], id);
  }

  /** A new process is published only after every earlier one has exited. */
  lemma PublishedAfterEveryExit(states: seq<System>, steps: seq<Step>, n: nat)
    requires IsRun(states, steps) && n < |steps| && steps[n] == Publish
    ensures forall g :: 1 <= g <= states[n].a.generation ==> g in states[n].finished
  {
    hide RequestOk, PendingLive;
    InvInRun(states, steps, n);
    assert Enabled(states[n], steps[n]);
  }

  lemma ClosedStays(s: System, step: Step)
    requires Enabled(s, step) && s.a.closed
    ensures var t := Apply(s, step);
            t.a.closed && t.a.generation == s.a.generation && (t.a.process.Some? ==> t.a.process == s.a.process)
  {
  }

  /** Nothing is published after Close. */
  lemma {:induction false} NothingPublishedAfterClose(states: seq<System>, steps: seq<Step>, i: nat, j: nat)
    requires IsRun(states, steps) && i <= j <= |steps| && states[i].a.closed
    ensures states[j].a.closed && states[j].a.generation == states[i].a.generation
    ensures states[j].a.process.Some? ==> states[i].a.process == states[j].a.process
  {
    hide Apply, Enabled, Initial;
    if i < j {
      NothingPublishedAfterClose(states, steps, i, j - 1);
      assert Enabled(states[j - 1], steps[j - 1]) && states[j] == Apply(states[j - 1], steps[j - 1]);
      ClosedStays(states[j - 1], steps[j - 1]);
    }
  }
}
