/** Which newline a file has, counted by positions, and that edits keep it: a file with
    one style of line break keeps that style. */
module FileNewlines {
  import opened Utf8
  import opened TextSearch
  import opened FileEdit
  import opened FileEditTheorems
  import opened FileEditLaws

  // ----- The dominant newline -----

  predicate PairedAt(s: seq<byte>, i: nat) {
    0 < i < |s| && s[i - 1] == 13 && s[i] == 10
  }

  predicate BareAt(s: seq<byte>, i: nat) {
    i < |s| && s[i] == 10 && (i == 0 || s[i - 1] != 13)
  }

  /** Line feeds right after a carriage return, and the others. */
  ghost function PairedFeeds(s: seq<byte>): (places: set<nat>) {
    set i | 0 <= i < |s| && PairedAt(s, i)
  }

  ghost function BareFeeds(s: seq<byte>): (places: set<nat>) {
    set i | 0 <= i < |s| && BareAt(s, i)
  }

  ghost function Places(s: seq<byte>, p: seq<byte>): (places: set<nat>) {
    set i | 0 <= i < |s| && MatchesAt(s, p, i)
  }

  ghost function Shifted(places: set<nat>, k: nat): (moved: set<nat>) {
    set i | i in places :: i + k
  }

  lemma {:induction false} ShiftedSize(places: set<nat>, k: nat)
    ensures |Shifted(places, k)| == |places|
    decreases |places|
  {
    if places != {} {
      var i :| i in places;
      ShiftedSize(places - {i}, k);
      assert places == (places - {i}) + {i};
      assert Shifted(places, k) == Shifted(places - {i}, k) + {i + k};
    }
  }

  lemma PlaceMoves(s: seq<byte>, p: seq<byte>, i: nat)
    requires s != [] && p != []
    ensures i > 0 ==> (i in Places(s, p) <==> i in Shifted(Places(s[1..], p), 1))
    ensures 0 in Places(s, p) <==> MatchesAt(s, p, 0)
    ensures 0 !in Shifted(Places(s[1..], p), 1)
  {
    hide MatchesAt;
    MatchesShift(s, p);
    var rest := Places(s[1..], p);
    if i > 0 && i in Places(s, p) {
      assert MatchesAt(s[1..], p, i - 1);
      assert i - 1 in rest;
    }
    if i > 0 && i in Shifted(rest, 1) {
      assert i - 1 in rest;
      assert MatchesAt(s, p, (i - 1) + 1);
    }
  }

  lemma PlacesStep(s: seq<byte>, p: seq<byte>)
    requires s != [] && p != []
    ensures |Places(s, p)| == |Places(s[1..], p)| + if MatchesAt(s, p, 0) then 1 else 0
  {
    var all, moved := Places(s, p), Shifted(Places(s[1..], p), 1);
    PlaceMoves(s, p, 0);
    forall i: nat
      ensures i > 0 ==> (i in all <==> i in moved)
    {
      PlaceMoves(s, p, i);
    }
    ShiftedSize(Places(s[1..], p), 1);
    hide MatchesAt, Places, Shifted;
    OneMore(all, moved);
  }

  lemma OneMore(all: set<nat>, moved: set<nat>)
    requires 0 !in moved && forall i: nat :: i > 0 ==> (i in all <==> i in moved)
    ensures |all| == |moved| + if 0 in all then 1 else 0
  {
    assert all == moved + if 0 in all then {0} else {};
  }

  lemma CountStep(s: seq<byte>, p: seq<byte>)
    requires s != [] && p != []
    ensures Count(s, p) == if MatchesAt(s, p, 0) then 1 + Count(s[|p|..], p) else Count(s[1..], p)
  {
    hide Index, MatchesAt;
    IndexStep(s, p);
    if !MatchesAt(s, p, 0) {
      CountOfRest(s, p, Index(s[1..], p));
    }
  }

  lemma CountOfRest(s: seq<byte>, p: seq<byte>, i: int)
    requires s != [] && p != [] && i == Index(s[1..], p) && Index(s, p) == if i < 0 then -1 else i + 1
    ensures Count(s, p) == Count(s[1..], p)
  {
    hide Index, MatchesAt;
    if i >= 0 {
      SameRest(s, i + |p|);
    }
  }

  lemma SameRest(s: seq<byte>, k: nat)
    requires s != [] && k <= |s| - 1
    ensures s[1..][k..] == s[k + 1..]
  {
  }

  lemma NoPairInside(s: seq<byte>)
    requires MatchesAt(s, NEWLINE_CRLF, 0)
    ensures |s| >= 2 && !MatchesAt(s[1..], NEWLINE_CRLF, 0) && s[1..][1..] == s[2..]
  {
    assert s[0..2] == [CR, LF];
    assert s[1] == LF;
    assert |s| > 2 ==> s[1..][0..2] == [s[1], s[2]];
  }

  /** Neither newline overlaps itself, so the count is that of all the places. */
  lemma {:induction false} CountsPlaces(s: seq<byte>, p: seq<byte>)
    requires p == NEWLINE_LF || p == NEWLINE_CRLF
    ensures Count(s, p) == |Places(s, p)|
    decreases |s|
  {
    hide Count, MatchesAt, Places;
    if s == [] {
      NothingCounted(p);
    } else {
      CountStep(s, p);
      PlacesStep(s, p);
      if MatchesAt(s, p, 0) && p == NEWLINE_CRLF {
        NoPairInside(s);
        PlacesStep(s[1..], p);
        CountsPlaces(s[2..], p);
      } else {
        CountsPlaces(s[1..], p);
      }
    }
  }

  lemma NothingCounted(p: seq<byte>)
    requires p != []
    ensures Count([], p) == 0 && Places([], p) == {}
  {
  }

  lemma NewlineAt(s: seq<byte>, i: nat)
    requires i < |s|
    ensures MatchesAt(s, NEWLINE_LF, i) <==> s[i] == 10
    ensures MatchesAt(s, NEWLINE_CRLF, i) <==> PairedAt(s, i + 1)
  {
    assert s[i..i + 1] == [s[i]];
    assert i + 1 < |s| ==> s[i..i + 2] == [s[i], s[i + 1]];
  }

  lemma PlacesAreFeeds(s: seq<byte>)
    ensures |Places(s, NEWLINE_CRLF)| == |PairedFeeds(s)|
    ensures |Places(s, NEWLINE_LF)| == |PairedFeeds(s)| + |BareFeeds(s)|
  {
    forall i | 0 <= i < |s|
      ensures MatchesAt(s, NEWLINE_LF, i) <==> PairedAt(s, i) || BareAt(s, i)
      ensures MatchesAt(s, NEWLINE_CRLF, i) <==> PairedAt(s, i + 1)
    {
      NewlineAt(s, i);
    }
    hide MatchesAt;
    assert PairedFeeds(s) == Shifted(Places(s, NEWLINE_CRLF), 1) by {
      FeedsAreShifted(s);
    }
    ShiftedSize(Places(s, NEWLINE_CRLF), 1);
    assert Places(s, NEWLINE_LF) == PairedFeeds(s) + BareFeeds(s);
    assert PairedFeeds(s) !! BareFeeds(s);
  }

  lemma FeedsAreShifted(s: seq<byte>)
    requires forall i :: 0 <= i < |s| ==> (MatchesAt(s, NEWLINE_CRLF, i) <==> PairedAt(s, i + 1))
    ensures PairedFeeds(s) == Shifted(Places(s, NEWLINE_CRLF), 1)
  {
    hide MatchesAt;
    var moved := Shifted(Places(s, NEWLINE_CRLF), 1);
    forall i | i in PairedFeeds(s)
      ensures i in moved
    {
      assert PairedAt(s, (i - 1) + 1);
      assert i - 1 in Places(s, NEWLINE_CRLF);
    }
    forall i | i in moved
      ensures i in PairedFeeds(s)
    {
      assert i - 1 in Places(s, NEWLINE_CRLF);
      assert PairedAt(s, (i - 1) + 1);
    }
  }

  /** The dominant newline is CRLF exactly when more line feeds follow a carriage return
      than do not; otherwise it is LF. */
  lemma DominantByPosition(data: seq<byte>)
    ensures DominantNewline(data) == if |PairedFeeds(data)| > |BareFeeds(data)| then [13, 10] else [10]
  {
    hide Count, Places, PairedFeeds, BareFeeds;
    CountsPlaces(data, NEWLINE_CRLF);
    CountsPlaces(data, NEWLINE_LF);
    PlacesAreFeeds(data);
  }

  // ----- Files with one style -----

  predicate NoReturns(s: seq<byte>) {
    forall i :: 0 <= i < |s| ==> s[i] != 13
  }

  /** Returns and feeds occur only as pairs. */
  predicate OnlyPairs(s: seq<byte>) {
    && (forall i :: 0 <= i < |s| && s[i] == 13 ==> i + 1 < |s| && s[i + 1] == 10)
    && (forall i :: 0 <= i < |s| && s[i] == 10 ==> i > 0 && s[i - 1] == 13)
  }

  lemma LfFilesStyle(s: seq<byte>)
    requires NoReturns(s)
    ensures DominantNewline(s) == NEWLINE_LF
  {
    hide DominantNewline;
    DominantByPosition(s);
    forall i | 0 <= i < |s|
      ensures !PairedAt(s, i)
    {
    }
    assert PairedFeeds(s) == {};
  }

  lemma PairFilesStyle(s: seq<byte>)
    requires OnlyPairs(s) && 10 in s
    ensures DominantNewline(s) == NEWLINE_CRLF
  {
    hide DominantNewline;
    DominantByPosition(s);
    forall i | 0 <= i < |s|
      ensures !BareAt(s, i)
    {
    }
    assert BareFeeds(s) == {};
    var i :| 0 <= i < |s| && s[i] == 10;
    assert PairedAt(s, i) && i in PairedFeeds(s);
  }

  lemma {:induction false} UnifiedHasNoReturns(value: seq<byte>)
    ensures NoReturns(Unify(value, NEWLINE_LF))
  {
    if value != [] {
      UnifiedHasNoReturns(value[1..]);
      if |value| >= 2 {
        UnifiedHasNoReturns(value[2..]);
      }
    }
  }

  lemma PairsJoin(a: seq<byte>, b: seq<byte>)
    requires OnlyPairs(a) && OnlyPairs(b)
    ensures OnlyPairs(a + b)
  {
  }

  lemma {:induction false} UnifiedHasOnlyPairs(value: seq<byte>)
    ensures OnlyPairs(Unify(value, NEWLINE_CRLF))
  {
    hide OnlyPairs;
    OnePiece();
    if value != [] {
      if |value| >= 2 && value[0] == CR && value[1] == LF {
        UnifiedHasOnlyPairs(value[2..]);
        PairsJoin(NEWLINE_CRLF, Unify(value[2..], NEWLINE_CRLF));
      } else {
        UnifiedHasOnlyPairs(value[1..]);
        var head := if value[0] == CR || value[0] == LF then NEWLINE_CRLF else [value[0]];
        assert OnlyPairs(head) by {
          PieceOf(value[0]);
        }
        PairsJoin(head, Unify(value[1..], NEWLINE_CRLF));
      }
    }
  }

  lemma OnePiece()
    ensures OnlyPairs([]) && OnlyPairs(NEWLINE_CRLF)
  {
  }

  lemma PieceOf(b: byte)
    ensures b != CR && b != LF ==> OnlyPairs([b])
  {
  }

  // ----- Edits keep the style -----

  lemma {:induction false} SpliceHasNoReturns(before: seq<byte>, rs: seq<EditRange>, cursor: nat)
    requires RangesIn(before, rs) && NoOverlap(rs) && cursor <= |before| && (rs != [] ==> cursor <= rs[0].start)
    requires NoReturns(before) && forall i :: 0 <= i < |rs| ==> NoReturns(rs[i].change.newText)
    ensures NoReturns(Splice(before, rs, cursor))
    decreases |rs|
  {
    if rs != [] {
      SpliceHasNoReturns(before, rs[1..], rs[0].end);
    }
  }

  /** The cut does not part a pair. */
  predicate BetweenPairs(s: seq<byte>, i: nat) {
    i <= |s| && (0 < i < |s| ==> !(s[i - 1] == 13 && s[i] == 10))
  }

  lemma PieceHasOnlyPairs(s: seq<byte>, lo: nat, hi: nat)
    requires OnlyPairs(s) && lo <= hi && BetweenPairs(s, lo) && BetweenPairs(s, hi)
    ensures OnlyPairs(s[lo..hi])
  {
    var t := s[lo..hi];
    forall i | 0 <= i < |t| && t[i] == 13
      ensures i + 1 < |t| && t[i + 1] == 10
    {
      assert s[lo + i] == 13;
    }
    forall i | 0 <= i < |t| && t[i] == 10
      ensures i > 0 && t[i - 1] == 13
    {
      assert s[lo + i] == 10;
    }
  }

  lemma {:induction false} SpliceHasOnlyPairs(before: seq<byte>, rs: seq<EditRange>, cursor: nat)
    requires RangesIn(before, rs) && NoOverlap(rs) && cursor <= |before| && (rs != [] ==> cursor <= rs[0].start)
    requires OnlyPairs(before) && BetweenPairs(before, cursor)
    requires forall i :: 0 <= i < |rs| ==>
               BetweenPairs(before, rs[i].start) && BetweenPairs(before, rs[i].end) && OnlyPairs(rs[i].change.newText)
    ensures OnlyPairs(Splice(before, rs, cursor))
    decreases |rs|
  {
    hide OnlyPairs, BetweenPairs;
    if rs == [] {
      assert BetweenPairs(before, |before|) by {
        EndIsBetween(before);
      }
      PieceHasOnlyPairs(before, cursor, |before|);
      assert before[cursor..|before|] == before[cursor..];
    } else {
      var kept, rest := before[cursor..rs[0].start], Splice(before, rs[1..], rs[0].end);
      PieceHasOnlyPairs(before, cursor, rs[0].start);
      SpliceHasOnlyPairs(before, rs[1..], rs[0].end);
      PairsJoin(kept, rs[0].change.newText);
      PairsJoin(kept + rs[0].change.newText, rest);
    }
  }

  lemma EndIsBetween(s: seq<byte>)
    ensures BetweenPairs(s, 0) && BetweenPairs(s, |s|)
  {
  }

  /** A text with only pairs is never found with its ends inside a pair. */
  lemma FoundBetweenPairs(s: seq<byte>, p: seq<byte>, i: nat)
    requires OnlyPairs(p) && p != [] && i + |p| <= |s| && s[i..i + |p|] == p
    ensures BetweenPairs(s, i) && BetweenPairs(s, i + |p|)
  {
    assert s[i] == p[0] && s[i + |p| - 1] == p[|p| - 1];
  }

  lemma NewTextHasStyle(before: seq<byte>, e: TextEdit)
    requires EditLocated(before, DominantNewline(before), e)
    ensures var r := RangeOf(before, DominantNewline(before), e);
            && r.end <= |before| && before[r.start..r.end] == r.change.oldText != []
            && (DominantNewline(before) == NEWLINE_LF ==> NoReturns(r.change.newText))
            && (DominantNewline(before) == NEWLINE_CRLF ==> OnlyPairs(r.change.oldText) && OnlyPairs(r.change.newText))
  {
    hide Index, Count, NormalizeNewlines, Unify, DominantNewline, NoReturns, OnlyPairs;
    var style := DominantNewline(before);
    NormalizeIsOnePass(e.oldText, style);
    NormalizeIsOnePass(e.newText, style);
    UnifiedHasNoReturns(e.newText);
    UnifiedHasOnlyPairs(e.oldText);
    UnifiedHasOnlyPairs(e.newText);
  }

  /** An accepted list of edits keeps a file without carriage returns free of them,
      whatever newlines the edits are written with. */
  lemma EditsKeepLf(before: seq<byte>, edits: seq<TextEdit>)
    requires NoReturns(before) && Acceptable(before, edits)
    ensures NoReturns(Edited(before, edits))
  {
    hide DominantNewline, Acceptable, NoReturns, EditLocated, RangeOf;
    LfFilesStyle(before);
    var rs := ChosenRanges(before, edits);
    forall k | 0 <= k < |rs|
      ensures NoReturns(rs[k].change.newText)
    {
      var i := ChosenRangeHasEdit(before, edits, k);
      AcceptedIsLocated(before, edits, i);
      NewTextHasStyle(before, edits[i]);
    }
    SpliceHasNoReturns(before, rs, 0);
  }

  /** It keeps a file whose returns and feeds occur only as pairs, at least one, that
      way. */
  lemma EditsKeepCrlf(before: seq<byte>, edits: seq<TextEdit>)
    requires OnlyPairs(before) && 10 in before && Acceptable(before, edits)
    ensures OnlyPairs(Edited(before, edits))
  {
    hide DominantNewline, Acceptable, OnlyPairs, EditLocated, RangeOf, BetweenPairs;
    PairFilesStyle(before);
    var rs := ChosenRanges(before, edits);
    forall k | 0 <= k < |rs|
      ensures BetweenPairs(before, rs[k].start) && BetweenPairs(before, rs[k].end) && OnlyPairs(rs[k].change.newText)
    {
      var i := ChosenRangeHasEdit(before, edits, k);
      AcceptedIsLocated(before, edits, i);
      NewTextHasStyle(before, edits[i]);
      FoundBetweenPairs(before, rs[k].change.oldText, rs[k].start);
    }
    EndIsBetween(before);
    SpliceHasOnlyPairs(before, rs, 0);
  }
}
