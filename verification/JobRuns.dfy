/** Runs of the job manager, and what every reachable state looks like. */
module JobRuns {
  import opened Options
  import opened JobEvents
  import opened JobSpec
  import opened JobLedger
  import opened JobSystem
  import opened JobSystemInvariant

  /** A run from an unused data directory: the states and the steps between them. */
  ghost predicate IsRun(states: seq<System>, steps: seq<Step>) {
    && |states| == |steps| + 1 && states[0] == Initial()
    && (forall i :: 0 <= i < |steps| ==> Enabled(states[i], steps[i]) && states[i + 1] == Apply(states[i], steps[i]))
  }

  /** A run from any state. */
  ghost predicate Runs(states: seq<System>, steps: seq<Step>) {
    && |states| == |steps| + 1
    && (forall i :: 0 <= i < |steps| ==> Enabled(states[i], steps[i]) && states[i + 1] == Apply(states[i], steps[i]))
  }

  lemma InitialIsFine()
    ensures Core(Initial()) && LiveKept(Initial())
  {
    assert LedgerKeys([]) == {};
  }

  lemma {:induction false} CoreInRun(states: seq<System>, steps: seq<Step>, i: nat)
    requires IsRun(states, steps) && i <= |steps|
    ensures Core(states[i])
  {
    hide Core, LiveKept, Erasing, Enabled, Apply, Initial, Orphans;
    if i == 0 {
      InitialIsFine();
    } else {
      CoreInRun(states, steps, i - 1);
      assert Enabled(states[i - 1], steps[i - 1]);
      CoreAfterStep(states[i - 1], steps[i - 1]);
      assert states[i] == Apply(states[i - 1], steps[i - 1]);
    }
  }

  lemma {:induction false} CoreGoesOn(states: seq<System>, steps: seq<Step>, i: nat)
    requires Runs(states, steps) && i <= |steps| && Core(states[0])
    ensures Core(states[i])
  {
    hide Core, LiveKept, Erasing, Enabled, Apply, Orphans;
    if i > 0 {
      CoreGoesOn(states, steps, i - 1);
      assert Enabled(states[i - 1], steps[i - 1]);
      CoreAfterStep(states[i - 1], steps[i - 1]);
      assert states[i] == Apply(states[i - 1], steps[i - 1]);
    }
  }

  lemma RunsJoin(a: seq<System>, p: seq<Step>, b: seq<System>, q: seq<Step>)
    requires Runs(a, p) && Runs(b, q) && a[|p|] == b[0]
    ensures Runs(a + b[1..], p + q)
  {
    hide Enabled, Apply;
    var states, steps := a + b[1..], p + q;
    forall i | 0 <= i < |steps|
      ensures Enabled(states[i], steps[i]) && states[i + 1] == Apply(states[i], steps[i])
    {
      if i < |p| {
        assert states[i] == a[i] && states[i + 1] == a[i + 1] && steps[i] == p[i];
      } else {
        assert states[i] == b[i - |p|] && states[i + 1] == b[i - |p| + 1] && steps[i] == q[i - |p|];
      }
    }
  }

  // ----- The shape of every reachable state -----

  /** The starts that have dropped their reservation and still hold their token. */
  ghost function Teardowns(starters: map<nat, Starter>): (os: set<nat>) {
    set o | o in starters && starters[o].phase == TearingDown
  }

  ghost function Owners(starting: map<Key, Reservation>): (os: set<nat>) {
    set k | k in starting :: starting[k].owner
  }

  lemma {:induction false} DistinctOwners(starting: map<Key, Reservation>)
    requires forall k, l :: k in starting && l in starting && k != l ==> starting[k].owner != starting[l].owner
    ensures |Owners(starting)| == |starting|
    decreases |starting|
  {
    if starting != map[] {
      var k :| k in starting;
      var rest := starting - {k};
      MapWithout(starting, k);
      DistinctOwners(rest);
      assert Owners(starting) == Owners(rest) + {starting[k].owner} by {
        assert forall l :: l in starting ==> l == k || (l in rest && rest[l] == starting[l]);
      }
      assert starting[k].owner !in Owners(rest);
    }
  }

  /** Each reservation belongs to one start that has not dropped it, and each such
      start has its own. */
  lemma OneOwnerPerReservation(starting: map<Key, Reservation>, starters: map<nat, Starter>)
    requires ReservationsMatch(starting, starters)
    ensures |starters| == |starting| + |Teardowns(starters)|
  {
    DistinctOwners(starting);
    assert Owners(starting) == starters.Keys - Teardowns(starters) by {
      forall o | o in starters && starters[o].phase != TearingDown
        ensures o in Owners(starting)
      {
        assert starting[starters[o].key].owner == o;
      }
    }
    assert |starters| == |starters.Keys|;
    assert Teardowns(starters) <= starters.Keys;
  }

  /** In every reachable state the order lists exactly the jobs, once each; jobs and
      keys are in bijection; so are the reservations and the starts that have not
      dropped theirs; reserved keys have no job; jobs and reservations stay within the
      limit; and the tokens held are the reservations, the teardowns and the runs. */
  lemma ReachableShape(states: seq<System>, steps: seq<Step>, i: nat)
    requires IsRun(states, steps) && i <= |steps|
    ensures var (m, starters) := (states[i].m, states[i].starters);
            && (forall a, b :: 0 <= a < b < |m.order| ==> m.order[a] != m.order[b])
            && (forall id :: id in m.order <==> id in m.jobs)
            && (forall id :: id in m.jobs ==>
                  m.jobs[id].key in m.idempotency && m.idempotency[m.jobs[id].key].jobId == id)
            && (forall k :: k in m.idempotency ==>
                  m.idempotency[k].jobId in m.jobs && m.jobs[m.idempotency[k].jobId].key == k)
            && (forall o :: o in starters && starters[o].phase != TearingDown ==>
                  starters[o].key in m.starting && m.starting[starters[o].key].owner == o)
            && (forall k :: k in m.starting ==>
                  && m.starting[k].owner in starters && starters[m.starting[k].owner].key == k
                  && starters[m.starting[k].owner].phase != TearingDown)
            && m.starting.Keys !! m.idempotency.Keys
            && |m.jobs| + |m.starting| <= 128
            && m.tokens == |m.starting| + |Teardowns(starters)| + |states[i].runs| <= 16
  {
    CoreInRun(states, steps, i);
    OneOwnerPerReservation(states[i].m.starting, states[i].starters);
    hide RunsMatch, SettledMatch, WatchersMatch, LedgerAgrees, LedgerUsed, LedgerOk, UsedCovers, BegunApart, Teardowns;
  }
}
