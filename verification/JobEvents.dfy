/** The bounded event window of a job, and what a client that feeds back
    NextCursor gets to see of it. */
module JobEvents {
  const MAX_JOB_EVENTS := 1024
  const MAX_JOB_EVENT_BYTES := 0x1_8000

  datatype Event = Event(sequence: int, kind: string, text: string)

  datatype Window = Window(events: seq<Event>, eventBytes: int, nextSequence: int, truncatedBefore: int)

  function TextBytes(events: seq<Event>): (n: nat) {
    if events == [] then 0 else |events[0].text| + TextBytes(events[1..])
  }

  predicate Numbered(events: seq<Event>, after: int) {
    forall i :: 0 <= i < |events| ==> events[i].sequence == after + 1 + i
  }

  /** The retained events are exactly those numbered truncatedBefore + 1 ..
      nextSequence, and eventBytes is the size of their texts. */
  predicate WindowOk(w: Window) {
    && Numbered(w.events, w.truncatedBefore)
    && w.truncatedBefore + |w.events| == w.nextSequence
    && w.eventBytes == TextBytes(w.events)
  }

  predicate WithinLimits(w: Window) {
    |w.events| <= MAX_JOB_EVENTS && w.eventBytes <= MAX_JOB_EVENT_BYTES
  }

  const EMPTY_WINDOW := Window([], 0, 0, 0)

  /** The trimming loop of appendEventLocked. */
  function Trim(w: Window): (t: Window)
    requires WindowOk(w)
    ensures WindowOk(t) && WithinLimits(t)
    decreases |w.events|
  {
    if WithinLimits(w) then w else Trim(DropFirst(w))
  }

  function DropFirst(w: Window): (t: Window)
    requires WindowOk(w) && !WithinLimits(w)
    ensures WindowOk(t) && |t.events| == |w.events| - 1
  {
    Window(w.events[1..], w.eventBytes - |w.events[0].text|, w.nextSequence, w.events[0].sequence)
  }

  function Pushed(w: Window, kind: string, text: string): (p: Window)
    requires WindowOk(w)
    ensures WindowOk(p)
  {
    var e := Event(w.nextSequence + 1, kind, text);
    TextBytesAppend(w.events, e);
    Window(w.events + [e], w.eventBytes + |text|, w.nextSequence + 1, w.truncatedBefore)
  }

  function Appended(w: Window, kind: string, text: string): (a: Window)
    requires WindowOk(w)
    ensures WindowOk(a) && WithinLimits(a)
  {
    Trim(Pushed(w, kind, text))
  }

  lemma {:induction false} TextBytesAppend(events: seq<Event>, e: Event)
    ensures TextBytes(events + [e]) == TextBytes(events) + |e.text|
    decreases |events|
  {
    if events == [] {
      assert events + [e] == [e];
    } else {
      TextBytesAppend(events[1..], e);
      assert (events + [e])[1..] == events[1..] + [e];
    }
  }

  /** Trimming drops events from the front only, and no more than needed: one
      event more would be over a limit. */
  lemma {:induction false} TrimDropsLeast(w: Window)
    requires WindowOk(w)
    ensures var t := Trim(w);
            && t.nextSequence == w.nextSequence && t.truncatedBefore >= w.truncatedBefore
            && var k := t.truncatedBefore - w.truncatedBefore;
            && k <= |w.events| && t.events == w.events[k..]
            && (k > 0 ==> |w.events[k - 1..]| > 1024 || TextBytes(w.events[k - 1..]) > 98304)
    decreases |w.events|
  {
    if !WithinLimits(w) {
      var d := DropFirst(w);
      TrimDropsLeast(d);
      var k := Trim(w).truncatedBefore - w.truncatedBefore;
      assert d.events[k - 1..] == w.events[k..];
      if k > 1 {
        assert d.events[k - 2..] == w.events[k - 1..];
      } else {
        assert w.events[k - 1..] == w.events;
      }
    }
  }

  /** What is left is within the limits. */
  lemma TrimFits(w: Window)
    requires WindowOk(w)
    ensures |Trim(w).events| <= 1024 && TextBytes(Trim(w).events) <= 98304
  {
    hide TextBytes;
  }

  /** An event whose own text exceeds the limit empties the window, itself included. */
  lemma OversizedEventIsLost(w: Window, kind: string, text: string)
    requires WindowOk(w) && |text| > 98304
    ensures Appended(w, kind, text) == Window([], 0, w.nextSequence + 1, w.nextSequence + 1)
  {
    var p := Pushed(w, kind, text);
    var a := Trim(p);
    TrimDropsLeast(p);
    if a.events != [] {
      assert p.events[|p.events| - 1].text == text;
      LastTextCounts(a.events);
    }
  }

  lemma {:induction false} LastTextCounts(events: seq<Event>)
    requires events != []
    ensures TextBytes(events) >= |events[|events| - 1].text|
    decreases |events|
  {
    if |events| > 1 {
      LastTextCounts(events[1..]);
    }
  }

  // ----- What a client sees -----

  /** The events snapshotAfter returns for a cursor. */
  function EventsAfter(events: seq<Event>, cursor: int): (out: seq<Event>) {
    if events == [] then []
    else if events[0].sequence > cursor then [events[0]] + EventsAfter(events[1..], cursor)
    else EventsAfter(events[1..], cursor)
  }

  lemma {:induction false} EventsAfterIsSuffix(events: seq<Event>, after: int, cursor: int)
    requires Numbered(events, after)
    ensures EventsAfter(events, cursor) ==
            if cursor <= after then events else if cursor - after <= |events| then events[cursor - after..] else []
    decreases |events|
  {
    if events != [] {
      EventsAfterIsSuffix(events[1..], after + 1, cursor);
    }
  }

  /** A job with its complete log. */
  datatype Watched = Watched(window: Window, log: seq<Event>, origin: int)

  predicate WatchedOk(s: Watched) {
    && WindowOk(s.window) && s.origin <= s.window.truncatedBefore
    && Numbered(s.log, s.origin) && s.origin + |s.log| == s.window.nextSequence
    && s.window.events == s.log[s.window.truncatedBefore - s.origin..]
  }

  /** The trimmed window is still the end of the log. */
  lemma AppendKeepsLog(s: Watched, kind: string, text: string)
    requires WatchedOk(s)
    ensures var a := Appended(s.window, kind, text);
            var log := s.log + [Event(s.window.nextSequence + 1, kind, text)];
            && a.nextSequence == s.window.nextSequence + 1 && s.origin <= a.truncatedBefore <= a.nextSequence
            && Numbered(log, s.origin) && a.events == log[a.truncatedBefore - s.origin..]
  {
    hide Trim, TextBytes;
    var e := Event(s.window.nextSequence + 1, kind, text);
    var p := Pushed(s.window, kind, text);
    TrimDropsLeast(p);
    var a := Trim(p);
    var from := s.window.truncatedBefore - s.origin;
    SuffixOfSuffix(s.log, e, from, a.truncatedBefore - s.window.truncatedBefore);
  }

  lemma SuffixOfSuffix(log: seq<Event>, e: Event, from: nat, k: nat)
    requires from <= |log| && from + k <= |log| + 1
    ensures (log[from..] + [e])[k..] == (log + [e])[from + k..]
  {
  }

  function AppendTo(s: Watched, kind: string, text: string): (t: Watched)
    requires WatchedOk(s)
    ensures WatchedOk(t) && t.origin == s.origin && s.log <= t.log
    ensures t.window.nextSequence == s.window.nextSequence + 1
  {
    AppendKeepsLog(s, kind, text);
    Watched(Appended(s.window, kind, text), s.log + [Event(s.window.nextSequence + 1, kind, text)], s.origin)
  }

  /** The job object's event fields. The ghost log remembers every event since the
      object was made, the first of them numbered origin + 1. */
  class EventWindow {
    var events: seq<Event>
    var eventBytes: int
    var nextSequence: int
    var truncatedBefore: int
    ghost var log: seq<Event>
    ghost const origin: int

    ghost function Value(): (w: Window)
      reads this
    {
      Window(events, eventBytes, nextSequence, truncatedBefore)
    }

    ghost function Watch(): (s: Watched)
      reads this
    {
      Watched(Value(), log, origin)
    }

    ghost predicate Valid()
      reads this
    {
      WatchedOk(Watch())
    }

    /** A new job, or one restored from its persisted window. */
    constructor (w: Window)
      requires WindowOk(w)
      ensures Valid() && Watch() == Watched(w, w.events, w.truncatedBefore)
    {
      events, eventBytes, nextSequence, truncatedBefore := w.events, w.eventBytes, w.nextSequence, w.truncatedBefore;
      log, origin := w.events, w.truncatedBefore;
    }

    /** appendEventLocked. */
    method AppendEventLocked(kind: string, text: string)
      requires Valid()
      modifies this
      ensures Valid() && Watch() == AppendTo(old(Watch()), kind, text)
    {
      hide Trim, TextBytes;
      TextBytesAppend(events, Event(nextSequence + 1, kind, text));
      nextSequence := nextSequence + 1;
      var event := Event(nextSequence, kind, text);
      events := events + [event];
      log := log + [event];
      eventBytes := eventBytes + |text|;
      assert Value() == Pushed(old(Value()), kind, text);
      TrimWindow();
      AppendKeepsLog(old(Watch()), kind, text);
    }

    /** Its loop: the list is never indexed when empty, and the loop ends. */
    method TrimWindow()
      requires WindowOk(Value())
      modifies `events, `eventBytes, `truncatedBefore
      ensures Value() == Trim(old(Value()))
    {
      while |events| > MAX_JOB_EVENTS || eventBytes > MAX_JOB_EVENT_BYTES
        invariant WindowOk(Value()) && nextSequence == old(nextSequence)
        invariant Trim(Value()) == Trim(old(Value()))
        decreases |events|
      {
        var dropped := events[0];
        events := events[1..];
        eventBytes := eventBytes - |dropped.text|;
        truncatedBefore := dropped.sequence;
      }
    }

    /** The event part of snapshotAfter. */
    method SnapshotAfter(cursor: int) returns (out: seq<Event>, nextCursor: int, truncated: int)
      ensures out == EventsAfter(events, cursor) && nextCursor == nextSequence && truncated == truncatedBefore
    {
      out := [];
      for i := 0 to |events|
        invariant out + EventsAfter(events[i..], cursor) == EventsAfter(events, cursor)
      {
        assert events[i..][0] == events[i] && events[i..][1..] == events[i + 1..];
        if events[i].sequence > cursor {
          out := out + [events[i]];
        }
      }
      return out, nextSequence, truncatedBefore;
    }
  }

  /** What happens to one job while one client watches it. */
  datatype Action = Append(kind: string, text: string) | Poll

  /** One answer to the client: the events it missed for good, then the ones it got. */
  datatype Delivery = Delivery(lost: seq<Event>, seen: seq<Event>)

  /** The answers of a whole run of appends and polls. */
  function Deliveries(s: Watched, cursor: int, actions: seq<Action>): (ds: seq<Delivery>)
    requires WatchedOk(s) && s.origin <= cursor <= s.window.nextSequence
    decreases |actions|
  {
    if actions == [] then []
    else match actions[0]
      case Append(kind, text) => Deliveries(AppendTo(s, kind, text), cursor, actions[1..])
      case Poll =>
        var gone := if cursor < s.window.truncatedBefore then s.window.truncatedBefore else cursor;
        var lost := s.log[cursor - s.origin..gone - s.origin];
        [Delivery(lost, EventsAfter(s.window.events, cursor))]
        + Deliveries(s, s.window.nextSequence, actions[1..])
  }

  /** The log and the cursor after a run. */
  function AfterRun(s: Watched, cursor: int, actions: seq<Action>): (r: (Watched, int))
    requires WatchedOk(s) && s.origin <= cursor <= s.window.nextSequence
    ensures WatchedOk(r.0) && r.0.origin == s.origin && s.log <= r.0.log
    ensures cursor <= r.1 <= r.0.window.nextSequence
    decreases |actions|
  {
    if actions == [] then (s, cursor)
    else match actions[0]
      case Append(kind, text) => AfterRun(AppendTo(s, kind, text), cursor, actions[1..])
      case Poll => AfterRun(s, s.window.nextSequence, actions[1..])
  }

  function Joined(ds: seq<Delivery>): (events: seq<Event>) {
    if ds == [] then [] else ds[0].lost + ds[0].seen + Joined(ds[1..])
  }

  /** Over any run, the events lost and seen, answer by answer, are exactly the
      log between the first cursor and the last: every event once and in order,
      and lost only if it had been truncated before the poll. */
  lemma {:induction false} EveryEventOnce(s: Watched, cursor: int, actions: seq<Action>)
    requires WatchedOk(s) && s.origin <= cursor <= s.window.nextSequence
    ensures var (t, last) := AfterRun(s, cursor, actions);
            Joined(Deliveries(s, cursor, actions)) == t.log[cursor - s.origin..last - s.origin]
    decreases |actions|
  {
    hide AppendTo, Trim, TextBytes, EventsAfter, Deliveries, AfterRun;
    if actions == [] {
      NothingRuns(s, cursor);
    } else {
      match actions[0]
      case Append(kind, text) =>
        AppendRuns(s, cursor, actions);
        EveryEventOnce(AppendTo(s, kind, text), cursor, actions[1..]);
      case Poll =>
        var next := s.window.nextSequence;
        EveryEventOnce(s, next, actions[1..]);
        PollJoins(s, cursor, actions);
        PollRuns(s, cursor, actions);
        var (t, last) := AfterRun(s, next, actions[1..]);
        JoinPrefix(t.log, s.log, cursor - s.origin, last - s.origin);
    }
  }

  lemma NothingRuns(s: Watched, cursor: int)
    requires WatchedOk(s) && s.origin <= cursor <= s.window.nextSequence
    ensures AfterRun(s, cursor, []) == (s, cursor) && Joined(Deliveries(s, cursor, [])) == []
  {
  }

  lemma AppendRuns(s: Watched, cursor: int, actions: seq<Action>)
    requires WatchedOk(s) && s.origin <= cursor <= s.window.nextSequence && actions != [] && actions[0].Append?
    ensures var t := AppendTo(s, actions[0].kind, actions[0].text);
            && Deliveries(s, cursor, actions) == Deliveries(t, cursor, actions[1..])
            && AfterRun(s, cursor, actions) == AfterRun(t, cursor, actions[1..])
  {
    hide Trim, TextBytes, EventsAfter;
  }

  lemma PollRuns(s: Watched, cursor: int, actions: seq<Action>)
    requires WatchedOk(s) && s.origin <= cursor <= s.window.nextSequence && actions != [] && actions[0].Poll?
    ensures AfterRun(s, cursor, actions) == AfterRun(s, s.window.nextSequence, actions[1..])
  {
    hide AppendTo, Trim, TextBytes, EventsAfter;
  }

  lemma PollJoins(s: Watched, cursor: int, actions: seq<Action>)
    requires WatchedOk(s) && s.origin <= cursor <= s.window.nextSequence && actions != [] && actions[0].Poll?
    ensures Joined(Deliveries(s, cursor, actions)) ==
            s.log[cursor - s.origin..] + Joined(Deliveries(s, s.window.nextSequence, actions[1..]))
  {
    PollSplitsLog(s, cursor);
    var ds := Deliveries(s, cursor, actions);
    assert ds[1..] == Deliveries(s, s.window.nextSequence, actions[1..]);
    assert ds[0].lost + ds[0].seen == s.log[cursor - s.origin..];
  }

  lemma JoinPrefix(whole: seq<Event>, prefix: seq<Event>, lo: nat, hi: nat)
    requires prefix <= whole && lo <= |prefix| <= hi <= |whole|
    ensures prefix[lo..] + whole[|prefix|..hi] == whole[lo..hi]
  {
    assert prefix == whole[..|prefix|];
  }

  lemma PollSplitsLog(s: Watched, cursor: int)
    requires WatchedOk(s) && s.origin <= cursor <= s.window.nextSequence
    ensures var gone := if cursor < s.window.truncatedBefore then s.window.truncatedBefore else cursor;
            && EventsAfter(s.window.events, cursor) == s.log[gone - s.origin..]
            && s.log[cursor - s.origin..gone - s.origin] + s.log[gone - s.origin..] == s.log[cursor - s.origin..]
  {
    hide TextBytes, EventsAfter;
    var from := s.window.truncatedBefore;
    EventsAfterIsSuffix(s.window.events, from, cursor);
    if from < cursor {
      assert s.log[from - s.origin..][cursor - from..] == s.log[cursor - s.origin..];
    }
  }
}
