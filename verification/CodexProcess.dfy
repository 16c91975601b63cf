/** The generations of the Codex app-server process and the waiters of its requests:
    each critical section of the adapter, on the adapter and as a value. */
module CodexProcess {
  import opened Options

  type Id = nat
  type Generation = nat

  datatype Message = Response(generation: Generation) | Exited

  /** The fields under the adapter's lock; `process` is the generation of the running
      command, and `pending` gives the generation each waiting request was written to. */
  datatype Adapter = Adapter(
    closed: bool, process: Option<Generation>, generation: Generation, quarantined: bool,
    nextId: Id, pending: map<Id, Generation>)

  function Published(a: Adapter): (a': Adapter) {
    if a.closed then a
    else a.(generation := a.generation + 1, process := Some(a.generation + 1), quarantined := false)
  }

  predicate IsCurrent(a: Adapter, g: Generation) {
    a.generation == g && !a.quarantined && (g == 0 || a.process.Some?)
  }

  function Registered(a: Adapter): (a': Adapter) {
    a.(nextId := a.nextId + 1, pending := a.pending[a.nextId + 1 := a.generation])
  }

  predicate Answers(a: Adapter, id: Id, g: Generation) {
    id in a.pending && a.pending[id] == g
  }

  function Removed(a: Adapter, id: Id): (a': Adapter) {
    a.(pending := a.pending - {id})
  }

  function Quarantined(a: Adapter, g: Generation): (a': Adapter) {
    if !a.closed && IsCurrent(a, g) && a.process.Some? then a.(quarantined := true) else a
  }

  function WaitersOf(a: Adapter, g: Generation): (ids: set<Id>) {
    set id | id in a.pending && a.pending[id] == g
  }

  function Finished(a: Adapter, g: Generation): (a': Adapter) {
    var rest := a.(pending := a.pending - WaitersOf(a, g));
    if a.process == Some(g) && a.generation == g then rest.(process := None, quarantined := false) else rest
  }

  class CodexAdapter {
    var closed: bool
    var process: Option<Generation>
    var generation: Generation
    var quarantined: bool
    var nextId: Id
    var pending: map<Id, Generation>

    ghost function Value(): (a: Adapter)
      reads this
    {
      Adapter(closed, process, generation, quarantined, nextId, pending)
    }

    constructor ()
      ensures Value() == Adapter(false, None, 0, false, 0, map[])
    {
      closed, process, generation, quarantined, nextId, pending := false, None, 0, false, 0, map[];
    }

    /** publishStartedProcess. */
    method Publish() returns (g: Generation, published: bool)
      modifies this
      ensures Value() == Published(old(Value()))
      ensures published == !old(closed) && (published ==> process == Some(g) && g == old(generation) + 1)
    {
      if closed {
        return 0, false;
      }
      generation := generation + 1;
      process := Some(generation);
      quarantined := false;
      return generation, true;
    }

    /** The registration of a request. */
    method Register() returns (id: Option<Id>)
      modifies this
      ensures if old(process).None? then id.None? && Value() == old(Value())
              else id == Some(old(nextId) + 1) && Value() == Registered(old(Value()))
    {
      if process.None? {
        return None;
      }
      nextId := nextId + 1;
      pending := pending[nextId := generation];
      return Some(nextId);
    }

    /** The registration of a request to the process captured as `g`. */
    method RegisterOnTarget(g: Generation) returns (id: Option<Id>)
      modifies this
      ensures if IsCurrent(old(Value()), g) && old(process) == Some(g)
              then id == Some(old(nextId) + 1) && Value() == Registered(old(Value()))
              else id.None? && Value() == old(Value())
    {
      if generation != g || quarantined || (g != 0 && process.None?) || process != Some(g) {
        return None;
      }
      nextId := nextId + 1;
      pending := pending[nextId := g];
      return Some(nextId);
    }

    /** The lookup of a response's waiter; when found, the caller sends it the message. */
    method TakeResponse(g: Generation, id: Id) returns (found: bool)
      modifies this`pending
      ensures found == Answers(old(Value()), id, g)
      ensures Value() == if found then Removed(old(Value()), id) else old(Value())
    {
      if id in pending && pending[id] == g {
        pending := pending - {id};
        return true;
      }
      return false;
    }

    method RemovePending(id: Id)
      modifies this`pending
      ensures Value() == Removed(old(Value()), id)
    {
      pending := pending - {id};
    }

    /** The critical section of quarantineProcess. */
    method Quarantine(g: Generation) returns (stop: bool)
      modifies this`quarantined
      ensures Value() == Quarantined(old(Value()), g)
      ensures stop ==> process == Some(g) || generation == g
    {
      if closed || generation != g || quarantined || process.None? {
        return false;
      }
      quarantined := true;
      return true;
    }

    /** The loop of finishProcess over the waiting requests. */
    method TakeWaiters(g: Generation) returns (waiters: seq<Id>)
      modifies this`pending
      ensures pending == old(pending) - WaitersOf(old(Value()), g)
      ensures forall id :: id in waiters <==> id in WaitersOf(old(Value()), g)
      ensures forall i, j :: 0 <= i < j < |waiters| ==> waiters[i] != waiters[j]
    {
      waiters := [];
      var left := pending.Keys;
      while left != {}
        invariant left <= pending.Keys <= old(pending).Keys
        invariant forall id :: id in waiters <==> id in old(pending) && id !in left && old(pending)[id] == g
        invariant forall i, j :: 0 <= i < j < |waiters| ==> waiters[i] != waiters[j]
        invariant forall id :: id in old(pending) ==> (id in pending <==> id in left || old(pending)[id] != g)
        invariant forall id :: id in pending ==> pending[id] == old(pending)[id]
        decreases |left|
      {
        var id :| id in left;
        if pending[id] == g {
          waiters := waiters + [id];
          pending := pending - {id};
        }
        left := left - {id};
      }
    }

    /** The critical section of finishProcess; the waiters it takes out of `pending` are
        each sent an exit message afterwards. */
    method Finish(g: Generation) returns (waiters: seq<Id>)
      modifies this
      ensures Value() == Finished(old(Value()), g)
      ensures forall id :: id in waiters <==> id in WaitersOf(old(Value()), g)
      ensures forall i, j :: 0 <= i < j < |waiters| ==> waiters[i] != waiters[j]
    {
      if process == Some(g) && generation == g {
        process := None;
        quarantined := false;
      }
      assert WaitersOf(Value(), g) == WaitersOf(old(Value()), g);
      hide WaitersOf;
      waiters := TakeWaiters(g);
    }

    method Close()
      modifies this`closed
      ensures Value() == old(Value()).(closed := true)
    {
      closed := true;
    }
  }
}
