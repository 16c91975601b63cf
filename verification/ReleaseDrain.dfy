/** The hand-over between the Hub's requests and the release drain: each atomic section
    as a step on a value and as a method, and what every interleaving of them keeps. */
module ReleaseDrain {
  const MAX_REQUESTS := 8

  /** A request that holds a token: not yet checked, past the drain check, or refused. */
  datatype Phase = Admitted | Passed | Refused

  /** What BeginReleaseDrain has read while it holds the activity lock. */
  datatype Reading = NothingRead | RequestsRead(busy: bool) | AllRead(busy: bool)

  /** The activity lock: free, or held by BeginReleaseDrain. */
  datatype Lock = Unlocked | Beginning(reading: Reading)

  /** The semaphore, the drain flag, the activity lock, and the requests with a token. */
  datatype System = System(tokens: nat, draining: bool, activity: Lock, requests: map<nat, Phase>)

  datatype Step =
    | DoAdmit(r: nat)
    | DoCheck(r: nat)
    | DoReject(r: nat)
    | DoFinish(r: nat)
    | DoBegin
    | DoReadRequests
    | DoReadOthers(otherBusy: bool)
    | DoDecide
    | DoEnd

  predicate Enabled(s: System, step: Step) {
    match step
    case DoAdmit(r) => r !in s.requests
    case DoCheck(r) => r in s.requests && s.requests[r] == Admitted && s.activity == Unlocked
    case DoReject(r) => r in s.requests && s.requests[r] == Admitted
    case DoFinish(r) => r in s.requests && s.requests[r] != Admitted && s.tokens > 0
    case DoBegin => s.activity == Unlocked
    case DoReadRequests => s.activity == Beginning(NothingRead)
    case DoReadOthers(_) => s.activity.Beginning? && s.activity.reading.RequestsRead?
    case DoDecide => s.activity.Beginning? && s.activity.reading.AllRead?
    case DoEnd => s.activity == Unlocked
  }

  function Apply(s: System, step: Step): (t: System)
    requires Enabled(s, step)
  {
    match step
    case DoAdmit(r) =>
      if s.tokens >= MAX_REQUESTS then s else s.(tokens := s.tokens + 1, requests := s.requests[r := Admitted])
    case DoCheck(r) => s.(requests := s.requests[r := if s.draining then Refused else Passed])
    case DoReject(r) => s.(requests := s.requests[r := Refused])
    case DoFinish(r) => s.(tokens := s.tokens - 1, requests := s.requests - {r})
    case DoBegin => if s.draining then s else s.(activity := Beginning(NothingRead))
    case DoReadRequests => s.(activity := Beginning(RequestsRead(s.tokens > 0)))
    case DoReadOthers(otherBusy) => s.(activity := Beginning(AllRead(s.activity.reading.busy || otherBusy)))
    case DoDecide => s.(draining := !s.activity.reading.busy, activity := Unlocked)
    case DoEnd => s.(draining := false)
  }

  class Client {
    var tokens: nat
    var draining: bool
    var activity: Lock
    ghost var requests: map<nat, Phase>

    ghost function Value(): (s: System)
      reads this
    {
      System(tokens, draining, activity, requests)
    }

    /** The reader of the connection takes a token for a request, or answers that there
        are too many. */
    method Admit(r: nat) returns (admitted: bool)
      requires Enabled(Value(), DoAdmit(r))
      modifies this
      ensures Value() == Apply(old(Value()), DoAdmit(r)) && admitted == (old(tokens) < 8)
    {
      if tokens >= MAX_REQUESTS {
        return false;
      }
      tokens := tokens + 1;
      requests := requests[r := Admitted];
      return true;
    }

    /** The drain check of a request, under the activity lock. */
    method Check(r: nat) returns (passed: bool)
      requires Enabled(Value(), DoCheck(r))
      modifies this`requests
      ensures Value() == Apply(old(Value()), DoCheck(r)) && passed == (requests[r] == Passed) == !draining
    {
      passed := !draining;
      requests := requests[r := if passed then Passed else Refused];
    }

    /** A request that is malformed is answered without the check. */
    method Reject(r: nat)
      requires Enabled(Value(), DoReject(r))
      modifies this`requests
      ensures Value() == Apply(old(Value()), DoReject(r))
    {
      requests := requests[r := Refused];
    }

    /** The request is answered and returns its token. */
    method Finish(r: nat)
      requires Enabled(Value(), DoFinish(r))
      modifies this`tokens, this`requests
      ensures Value() == Apply(old(Value()), DoFinish(r))
    {
      tokens := tokens - 1;
      requests := requests - {r};
    }

    /** BeginReleaseDrain takes the lock; a second drain is refused at once. */
    method BeginDrain() returns (refused: bool)
      requires Enabled(Value(), DoBegin)
      modifies this`activity
      ensures Value() == Apply(old(Value()), DoBegin) && refused == activity.Unlocked? == draining
    {
      if draining {
        return true;
      }
      activity := Beginning(NothingRead);
      return false;
    }

    /** It reads the number of request tokens in use. */
    method ReadRequests()
      requires Enabled(Value(), DoReadRequests)
      modifies this`activity
      ensures Value() == Apply(old(Value()), DoReadRequests)
    {
      activity := Beginning(RequestsRead(tokens > 0));
    }

    /** It reads the jobs, the browser and the agent, one after the other. */
    method ReadOthers(jobs: bool, browser: bool, agent: bool)
      requires Enabled(Value(), DoReadOthers(jobs || browser || agent))
      modifies this`activity
      ensures Value() == Apply(old(Value()), DoReadOthers(jobs || browser || agent))
    {
      var busy := activity.reading.busy;
      if jobs {
        busy := true;
      }
      if browser {
        busy := true;
      }
      if agent {
        busy := true;
      }
      activity := Beginning(AllRead(busy));
    }

    /** It starts the drain unless something was busy, and lets go of the lock. */
    method DecideDrain() returns (begun: bool)
      requires Enabled(Value(), DoDecide) && !draining
      modifies this`activity, this`draining
      ensures Value() == Apply(old(Value()), DoDecide) && begun == draining
    {
      begun := !activity.reading.busy;
      if begun {
        draining := true;
      }
      activity := Unlocked;
    }

    method EndDrain()
      requires Enabled(Value(), DoEnd)
      modifies this`draining
      ensures Value() == Apply(old(Value()), DoEnd)
    {
      draining := false;
    }
  }

  // ----- Every run -----

  /** The drain will begin if nothing else turns out to be busy. */
  predicate Idle(activity: Lock) {
    activity.Beginning? && !activity.reading.NothingRead? && !activity.reading.busy
  }

  ghost predicate NonePassed(requests: map<nat, Phase>) {
    forall r :: r in requests ==> requests[r] != Passed
  }

  lemma SameSize(requests: map<nat, Phase>, r: nat, p: Phase)
    requires r in requests
    ensures |requests[r := p]| == |requests|
  {
    assert requests[r := p].Keys == requests.Keys;
    assert |requests[r := p]| == |requests[r := p].Keys| && |requests| == |requests.Keys|;
  }

  lemma OneLess(requests: map<nat, Phase>, r: nat)
    requires r in requests
    ensures |requests - {r}| == |requests| - 1
  {
    assert (requests - {r}).Keys == requests.Keys - {r};
    assert |requests - {r}| == |(requests - {r}).Keys| && |requests| == |requests.Keys|;
  }

  lemma NoRequests(requests: map<nat, Phase>)
    requires |requests| == 0
    ensures NonePassed(requests)
  {
  }

  ghost predicate IsRun(states: seq<System>, steps: seq<Step>) {
    && |states| == |steps| + 1 && states[0] == System(0, false, Unlocked, map[])
    && (forall i :: 0 <= i < |steps| ==> Enabled(states[i], steps[i]) && states[i + 1] == Apply(states[i], steps[i]))
  }

  ghost predicate Inv(s: System) {
    && s.tokens == |s.requests| <= MAX_REQUESTS
    && (s.draining || Idle(s.activity) ==> NonePassed(s.requests))
    && (s.activity.Beginning? ==> !s.draining)
  }

  lemma InvStays(s: System, step: Step)
    requires Inv(s) && Enabled(s, step)
    ensures Inv(Apply(s, step))
  {
    match step
    case DoCheck(r) => SameSize(s.requests, r, if s.draining then Refused else Passed);
    case DoReject(r) => SameSize(s.requests, r, Refused);
    case DoFinish(r) => OneLess(s.requests, r);
    case DoReadRequests =>
      if s.tokens == 0 {
        NoRequests(s.requests);
      }
    case _ =>
  }

  lemma {:induction false} InvInRun(states: seq<System>, steps: seq<Step>, n: nat)
    requires IsRun(states, steps) && n <= |steps|
    ensures Inv(states[n])
  {
    hide Inv, Enabled, Apply;
    if n == 0 {
      assert Inv(System(0, false, Unlocked, map[])) by {
        NothingYet();
      }
    } else {
      InvInRun(states, steps, n - 1);
      assert Enabled(states[n - 1], steps[n - 1]);
      InvStays(states[n - 1], steps[n - 1]);
    }
  }

  lemma NothingYet()
    ensures Inv(System(0, false, Unlocked, map[]))
  {
  }

  /** From the step that begins a drain until the drain ends, no request that passed the
      check is still executing, and none passes it. */
  lemma {:induction false} DrainExcludesRequests(states: seq<System>, steps: seq<Step>, i: nat, j: nat)
    requires IsRun(states, steps) && i < j <= |steps|
    requires steps[i] == DoDecide && states[i + 1].draining
    requires forall n :: i < n < j ==> steps[n] != DoEnd
    ensures states[j].draining && forall r :: r in states[j].requests ==> states[j].requests[r] != Passed
    decreases j
  {
    InvInRun(states, steps, j);
    if j > i + 1 {
      InvInRun(states, steps, j - 1);
      DrainExcludesRequests(states, steps, i, j - 1);
      assert Enabled(states[j - 1], steps[j - 1]) && states[j] == Apply(states[j - 1], steps[j - 1]);
    }
  }

  // ----- When a drain begins -----

  /** What the reading says, by the steps since the drain was asked for: the tokens in use
      when they were read, and the answer about the others. */
  ghost predicate ReadAs(states: seq<System>, steps: seq<Step>, m: nat, n: nat, reading: Reading)
    requires |states| == |steps| + 1 && n <= |steps|
  {
    && m < n && steps[m] == DoReadRequests
    && match reading
       case NothingRead => false
       case RequestsRead(busy) => busy == (states[m].tokens > 0)
       case AllRead(busy) =>
         exists o :: m < o < n && steps[o].DoReadOthers? && busy == (states[m].tokens > 0 || steps[o].otherBusy)
  }

  lemma ReadingComesFrom(s: System, step: Step)
    requires Enabled(s, step) && Apply(s, step).activity.Beginning?
    ensures var r := Apply(s, step).activity.reading;
            match r
            case NothingRead => true
            case RequestsRead(busy) => s.activity == Beginning(r) || (step == DoReadRequests && busy == (s.tokens > 0))
            case AllRead(busy) =>
              || s.activity == Beginning(r)
              || (step.DoReadOthers? && s.activity.Beginning? && s.activity.reading.RequestsRead?
                  && busy == (s.activity.reading.busy || step.otherBusy))
  {
  }

  lemma {:induction false} ReadingWasRead(states: seq<System>, steps: seq<Step>, n: nat) returns (m: nat)
    requires IsRun(states, steps) && n <= |steps| && states[n].activity.Beginning? && !states[n].activity.reading.NothingRead?
    ensures ReadAs(states, steps, m, n, states[n].activity.reading)
  {
    hide Enabled, Apply;
    if n > 0 {
      var (s, step, r) := (states[n - 1], steps[n - 1], states[n].activity.reading);
      assert Enabled(s, step) && states[n] == Apply(s, step);
      ReadingComesFrom(s, step);
      if s.activity == Beginning(r) || r.AllRead? {
        m := ReadingWasRead(states, steps, n - 1);
        if s.activity == Beginning(r) && r.AllRead? {
          var o :| m < o < n - 1 && steps[o].DoReadOthers? && r.busy == (states[m].tokens > 0 || steps[o].otherBusy);
          assert m < o < n;
        } else if r.AllRead? {
          assert m < n - 1 < n && steps[n - 1].DoReadOthers?;
        }
      } else {
        m := n - 1;
      }
    }
  }

  /** A drain begins exactly when no request held a token when they were counted and none
      of the others was busy when asked after that. */
  lemma DrainBeginsExactly(states: seq<System>, steps: seq<Step>, n: nat) returns (m: nat, o: nat)
    requires IsRun(states, steps) && n < |steps| && steps[n] == DoDecide
    ensures m < o < n && steps[m] == DoReadRequests && steps[o].DoReadOthers?
    ensures states[n + 1].draining <==> |states[m].requests| == 0 && !steps[o].otherBusy
    ensures states[n + 1].activity == Unlocked
  {
    assert Enabled(states[n], steps[n]) && states[n + 1] == Apply(states[n], steps[n]);
    m := ReadingWasRead(states, steps, n);
    o :| m < o < n && steps[o].DoReadOthers?
         && states[n].activity.reading.busy == (states[m].tokens > 0 || steps[o].otherBusy);
    InvInRun(states, steps, m);
  }

  /** A request is admitted exactly while fewer than eight are, and passes its check
      exactly when no drain is on. */
  lemma RequestsAreServed(states: seq<System>, steps: seq<Step>, n: nat, r: nat)
    requires IsRun(states, steps) && n < |steps|
    ensures steps[n] == DoAdmit(r) ==> (r in states[n + 1].requests <==> |states[n].requests| < 8)
    ensures steps[n] == DoCheck(r) ==>
              r in states[n + 1].requests && (states[n + 1].requests[r] == Passed <==> !states[n].draining)
    ensures states[n + 1].draining && !states[n].draining ==> steps[n] == DoDecide
    ensures states[n].draining && !states[n + 1].draining ==> steps[n] == DoEnd
  {
    assert Enabled(states[n], steps[n]) && states[n + 1] == Apply(states[n], steps[n]);
    InvInRun(states, steps, n);
  }
}
