/** When a list of edits is accepted, said by positions and in numbers, and what one edit
    does to a file. */
module FileEditLaws {
  import opened Utf8
  import opened TextSearch
  import opened FileEdit
  import opened FileEditTheorems

  /** The text with its line breaks in the style of the file. */
  function InStyle(before: seq<byte>, text: seq<byte>): (t: seq<byte>) {
    Unify(text, DominantNewline(before))
  }

  /** The edit's texts are text of at most 64 KiB, the old one not empty. */
  predicate EditFits(e: TextEdit) {
    0 < |e.oldText| <= 65536 && |e.newText| <= 65536 && TextOk(e.oldText) && TextOk(e.newText)
  }

  /** The old text is in the file, and is there nowhere else, but for places that overlap
      the first. */
  ghost predicate IsAt(before: seq<byte>, oldText: seq<byte>, i: nat) {
    && MatchesAt(before, oldText, i)
    && forall j: nat :: MatchesAt(before, oldText, j) ==> i <= j < i + |oldText|
  }

  /** The edits can all be placed, and no two places share a byte. */
  ghost predicate PlacedApart(before: seq<byte>, edits: seq<TextEdit>, places: seq<nat>) {
    && |places| == |edits|
    && (forall k :: 0 <= k < |edits| ==>
          InStyle(before, edits[k].oldText) != [] && IsAt(before, InStyle(before, edits[k].oldText), places[k]))
    && (forall k, l :: 0 <= k < l < |edits| ==>
          || places[k] + |InStyle(before, edits[k].oldText)| <= places[l]
          || places[l] + |InStyle(before, edits[l].oldText)| <= places[k])
  }

  lemma LocatedIsAt(before: seq<byte>, e: TextEdit)
    ensures EditLocated(before, DominantNewline(before), e) <==>
              EditFits(e) && InStyle(before, e.oldText) != [] && exists i :: 0 <= i <= |before| && IsAt(before, InStyle(before, e.oldText), i)
    ensures EditLocated(before, DominantNewline(before), e) ==>
              var r := RangeOf(before, DominantNewline(before), e);
              && IsAt(before, InStyle(before, e.oldText), r.start) && r.end == r.start + |InStyle(before, e.oldText)|
              && r.change.newText == InStyle(before, e.newText)
  {
    hide Index, Count, Unify, NormalizeNewlines, DominantNewline, TextOk, MatchesAt;
    var style := DominantNewline(before);
    NormalizeIsOnePass(e.oldText, style);
    NormalizeIsOnePass(e.newText, style);
    var text := InStyle(before, e.oldText);
    if text != [] {
      CountIsOne(before, text);
      if i :| 0 <= i <= |before| && IsAt(before, text, i) {
        FirstPlace(before, text, i);
      }
      if Count(before, text) == 1 {
        assert IsAt(before, text, Index(before, text));
      }
    }
  }

  lemma FirstPlace(before: seq<byte>, text: seq<byte>, i: nat)
    requires text != [] && IsAt(before, text, i)
    ensures Index(before, text) == i
  {
    hide Index, MatchesAt;
  }

  predicate Apart(a: EditRange, b: EditRange) {
    a.end <= b.start || b.end <= a.start
  }

  ghost predicate AllApart(rs: seq<EditRange>) {
    forall i, j :: 0 <= i < j < |rs| ==> Apart(rs[i], rs[j])
  }

  /** Whether any two of the ranges overlap does not depend on their order. */
  lemma ApartInAnyOrder(rs: seq<EditRange>, sorted: seq<EditRange>)
    requires multiset(sorted) == multiset(rs) && NoneEmpty(rs) && SortedByStart(sorted)
    ensures NoOverlap(sorted) <==> AllApart(rs)
  {
    SameRanges(rs, sorted);
    NeighboursDecide(sorted);
    if AllApart(rs) && SomeTwoOverlap(sorted) {
      var i, j :| 0 <= i < j < |sorted| && sorted[i].start < sorted[j].end && sorted[j].start < sorted[i].end;
      TwoOfSorted(rs, sorted, i, j);
      assert false;
    }
    if NoOverlap(sorted) {
      forall i, j | 0 <= i < j < |rs|
        ensures Apart(rs[i], rs[j])
      {
        if !Apart(rs[i], rs[j]) {
          TwoOfSorted(sorted, rs, i, j);
          SortedApart(sorted);
          assert false;
        }
      }
    }
  }

  lemma SameRanges(rs: seq<EditRange>, sorted: seq<EditRange>)
    requires multiset(sorted) == multiset(rs) && NoneEmpty(rs)
    ensures NoneEmpty(sorted) && |sorted| == |rs|
  {
    assert |multiset(sorted)| == |sorted| && |multiset(rs)| == |rs|;
    forall i | 0 <= i < |sorted|
      ensures sorted[i].start < sorted[i].end
    {
      assert sorted[i] in multiset(sorted);
      assert sorted[i] in rs;
    }
  }

  lemma SortedApart(sorted: seq<EditRange>)
    requires NoneEmpty(sorted) && NoOverlap(sorted)
    ensures AllApart(sorted)
  {
    forall i, j | 0 <= i < j < |sorted|
      ensures Apart(sorted[i], sorted[j])
    {
      ApartFromAll(sorted, i, j);
    }
  }

  /** Two elements that are not apart in one order are two in the other. */
  lemma TwoOfSorted(rs: seq<EditRange>, other: seq<EditRange>, i: nat, j: nat)
    requires multiset(other) == multiset(rs) && i < j < |other| && !Apart(other[i], other[j])
    ensures exists k, l :: 0 <= k < l < |rs| && !Apart(rs[k], rs[l])
  {
    var x, y := other[i], other[j];
    assert x in multiset(other) && y in multiset(other);
    assert x in rs && y in rs;
    var k :| 0 <= k < |rs| && rs[k] == x;
    if x == y {
      TwiceInOther(rs, other, i, j, k);
    } else {
      var l :| 0 <= l < |rs| && rs[l] == y;
      if k < l {
        assert !Apart(rs[k], rs[l]);
      } else {
        assert !Apart(rs[l], rs[k]);
      }
    }
  }

  lemma TwiceInOther(rs: seq<EditRange>, other: seq<EditRange>, i: nat, j: nat, k: nat)
    requires multiset(other) == multiset(rs) && i < j < |other| && other[i] == other[j] && k < |rs| && rs[k] == other[i]
    requires !Apart(other[i], other[j])
    ensures exists k, l :: 0 <= k < l < |rs| && !Apart(rs[k], rs[l])
  {
    var x := other[i];
    assert other == other[..i] + [x] + other[i + 1..j] + [x] + other[j + 1..];
    assert multiset(other)[x] >= 2;
    assert rs == rs[..k] + [x] + rs[k + 1..];
    assert x in rs[..k] + rs[k + 1..] by {
      assert multiset(rs) == multiset(rs[..k] + rs[k + 1..]) + multiset{x};
      assert multiset(rs[..k] + rs[k + 1..])[x] >= 1;
    }
    var l :| 0 <= l < |rs| && l != k && rs[l] == x;
    if k < l {
      assert !Apart(rs[k], rs[l]);
    } else {
      assert !Apart(rs[l], rs[k]);
    }
  }

  // ----- When a list of edits is accepted -----

  /** The size of all the texts. */
  function Bytes(edits: seq<TextEdit>): (n: nat) {
    if edits == [] then 0 else |edits[0].oldText| + |edits[0].newText| + Bytes(edits[1..])
  }

  lemma {:induction false} BytesAppend(edits: seq<TextEdit>, e: TextEdit)
    ensures Bytes(edits + [e]) == Bytes(edits) + |e.oldText| + |e.newText|
    decreases |edits|
  {
    if edits == [] {
      assert [e][1..] == [];
    } else {
      assert (edits + [e])[1..] == edits[1..] + [e];
      BytesAppend(edits[1..], e);
    }
  }

  lemma {:induction false} RawSizeIsBytes(edits: seq<TextEdit>)
    ensures RawSize(edits) == Bytes(edits)
    decreases |edits|
  {
    if edits != [] {
      var n := |edits| - 1;
      RawSizeIsBytes(edits[..n]);
      assert edits == edits[..n] + [edits[n]];
      BytesAppend(edits[..n], edits[n]);
    }
  }

  lemma PlacesAreUnique(before: seq<byte>, text: seq<byte>, i: nat, j: nat)
    requires text != [] && IsAt(before, text, i) && IsAt(before, text, j)
    ensures i == j
  {
    hide MatchesAt;
  }

  lemma LocatedArePlaced(before: seq<byte>, edits: seq<TextEdit>)
    requires AllLocated(before, DominantNewline(before), edits)
    ensures NoneEmpty(RangesOf(before, DominantNewline(before), edits))
    ensures AllApart(RangesOf(before, DominantNewline(before), edits)) <==> exists places :: PlacedApart(before, edits, places)
  {
    hide EditLocated, RangeOf, DominantNewline, IsAt, EditFits, InStyle;
    var rs := RangesOf(before, DominantNewline(before), edits);
    forall k | 0 <= k < |edits|
      ensures InStyle(before, edits[k].oldText) != [] && IsAt(before, InStyle(before, edits[k].oldText), rs[k].start)
      ensures rs[k].start < rs[k].end == rs[k].start + |InStyle(before, edits[k].oldText)|
    {
      LocatedIsAt(before, edits[k]);
    }
    if AllApart(rs) {
      var places := seq(|rs|, k requires 0 <= k < |rs| => rs[k].start);
      forall k, l | 0 <= k < l < |edits|
        ensures places[k] + |InStyle(before, edits[k].oldText)| <= places[l]
                || places[l] + |InStyle(before, edits[l].oldText)| <= places[k]
      {
        assert Apart(rs[k], rs[l]);
      }
      assert PlacedApart(before, edits, places);
    }
    if places :| PlacedApart(before, edits, places) {
      forall k | 0 <= k < |edits|
        ensures places[k] == rs[k].start
      {
        PlacesAreUnique(before, InStyle(before, edits[k].oldText), places[k], rs[k].start);
      }
    }
  }

  lemma PlacedAreLocated(before: seq<byte>, edits: seq<TextEdit>, places: seq<nat>)
    requires (forall k :: 0 <= k < |edits| ==> EditFits(edits[k])) && PlacedApart(before, edits, places)
    ensures AllLocated(before, DominantNewline(before), edits)
  {
    hide EditLocated, RangeOf, DominantNewline, EditFits, InStyle;
    forall k | 0 <= k < |edits|
      ensures EditLocated(before, DominantNewline(before), edits[k])
    {
      LocatedIsAt(before, edits[k]);
      assert 0 <= places[k] <= |before|;
    }
  }

  /** A list of edits is accepted exactly when there are at most 64, their texts fit and
      come to at most 512 KiB, and their old texts have places, found once, no two of
      which share a byte. */
  lemma AcceptableExactly(before: seq<byte>, edits: seq<TextEdit>)
    ensures Acceptable(before, edits) <==>
              && |edits| <= 64 && Bytes(edits) <= 524288
              && (forall k :: 0 <= k < |edits| ==> EditFits(edits[k]))
              && exists places :: PlacedApart(before, edits, places)
  {
    hide EditLocated, DominantNewline, EditFits, PlacedApart, RawSize, Bytes;
    RawSizeIsBytes(edits);
    var style := DominantNewline(before);
    if AllLocated(before, style, edits) {
      LocatedArePlaced(before, edits);
      ApartInAnyOrder(RangesOf(before, style, edits), SortByStart(RangesOf(before, style, edits)));
      forall k | 0 <= k < |edits|
        ensures EditFits(edits[k])
      {
        LocatedIsAt(before, edits[k]);
      }
    } else if (forall k :: 0 <= k < |edits| ==> EditFits(edits[k])) {
      if places :| PlacedApart(before, edits, places) {
        PlacedAreLocated(before, edits, places);
        assert false;
      }
    }
  }

  // ----- What one edit does -----

  /** A replacement puts its new text in the place of its old one, both in the file's
      style, and leaves the rest. */
  lemma ReplaceReplaces(before: seq<byte>, p: EditParams)
    requires Acceptable(before, RequestedEdits(Replace, p))
    ensures exists i: nat ::
              && IsAt(before, InStyle(before, p.oldText), i) && i + |InStyle(before, p.oldText)| <= |before|
              && Edited(before, RequestedEdits(Replace, p))
                 == before[..i] + InStyle(before, p.newText) + before[i + |InStyle(before, p.oldText)|..]
  {
    hide DominantNewline, Acceptable, EditLocated, RangeOf, IsAt, Unify, NoneEmpty;
    var edits := RequestedEdits(Replace, p);
    var rs := ChosenRanges(before, edits);
    var k := ChosenRangeHasEdit(before, edits, 0);
    assert edits[k] == TextEdit(p.oldText, p.newText);
    AcceptedIsLocated(before, edits, k);
    LocatedIsAt(before, edits[k]);
    OneSplice(before, rs);
  }

  lemma AcceptedIsLocated(before: seq<byte>, edits: seq<TextEdit>, i: nat)
    requires Acceptable(before, edits) && i < |edits|
    ensures EditLocated(before, DominantNewline(before), edits[i])
  {
    hide EditLocated, RangeOf, DominantNewline;
  }

  lemma OneSplice(before: seq<byte>, rs: seq<EditRange>)
    requires RangesIn(before, rs) && NoOverlap(rs) && |rs| == 1
    ensures Splice(before, rs, 0) == before[..rs[0].start] + rs[0].change.newText + before[rs[0].end..]
  {
    assert rs[1..] == [];
    assert before[0..rs[0].start] == before[..rs[0].start];
  }

  /** A request to make many edits makes those it lists. */
  lemma EditManyEdits(p: EditParams)
    ensures RequestedEdits(EditMany, p) == p.edits
  {
  }
}
