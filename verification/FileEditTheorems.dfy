/** What an accepted multi-edit does to the file, whatever the edits and whatever
    order they come in. */
module FileEditTheorems {
  import opened Utf8
  import opened TextSearch
  import opened FileEdit

  // ----- The edited file is text -----

  lemma {:induction false} SpliceIsText(before: seq<byte>, rs: seq<EditRange>, cursor: nat)
    requires RangesIn(before, rs) && NoOverlap(rs)
    requires cursor <= |before| && (rs != [] ==> cursor <= rs[0].start)
    requires TextOk(before) && Valid(before[..cursor])
    requires forall i :: 0 <= i < |rs| ==>
               && Valid(before[..rs[i].start]) && Valid(before[..rs[i].end]) && TextOk(rs[i].change.newText)
    ensures TextOk(Splice(before, rs, cursor))
    decreases |rs|
  {
    hide Valid, NoNul;
    if rs == [] {
      ValidSplit(before, cursor);
      SliceHasNoNul(before, cursor, |before|);
      assert before[cursor..|before|] == before[cursor..];
    } else {
      var kept := before[cursor..rs[0].start];
      ValidSlice(before, cursor, rs[0].start);
      SliceHasNoNul(before, cursor, rs[0].start);
      SpliceIsText(before, rs[1..], rs[0].end);
      TextAppend(kept, rs[0].change.newText);
      TextAppend(kept + rs[0].change.newText, Splice(before, rs[1..], rs[0].end));
    }
  }

  lemma SliceHasNoNul(s: seq<byte>, lo: nat, hi: nat)
    requires NoNul(s) && lo <= hi <= |s|
    ensures NoNul(s[lo..hi])
  {
  }

  lemma LocatedRangeIsOnBoundaries(before: seq<byte>, e: TextEdit)
    requires TextOk(before) && EditLocated(before, DominantNewline(before), e)
    ensures var r := RangeOf(before, DominantNewline(before), e);
            && Valid(before[..r.start]) && Valid(before[..r.end]) && TextOk(r.change.newText)
  {
    hide Index, Count, NormalizeNewlines;
    var style := DominantNewline(before);
    var r := RangeOf(before, style, e);
    NormalizeKeepsText(e.oldText, style);
    NormalizeKeepsText(e.newText, style);
    MatchOnBoundaries(before, r.change.oldText, r.start);
  }

  /** A range of the sorted list is the range of one of the edits. */
  lemma ChosenRangeHasEdit(before: seq<byte>, edits: seq<TextEdit>, k: nat) returns (i: nat)
    requires Acceptable(before, edits) && k < |edits|
    ensures i < |edits| && ChosenRanges(before, edits)[k] == RangeOf(before, DominantNewline(before), edits[i])
  {
    hide EditLocated, RangeOf;
    var rs := ChosenRanges(before, edits);
    var ranges := RangesOf(before, DominantNewline(before), edits);
    assert rs[k] in multiset(rs);
    assert rs[k] in ranges;
    i :| 0 <= i < |ranges| && ranges[i] == rs[k];
  }

  /** Editing text with text gives text: matches fall on rune boundaries only. */
  lemma EditedIsText(before: seq<byte>, edits: seq<TextEdit>)
    requires TextOk(before) && Acceptable(before, edits)
    ensures TextOk(Edited(before, edits))
  {
    var rs := ChosenRanges(before, edits);
    forall k | 0 <= k < |rs|
      ensures Valid(before[..rs[k].start]) && Valid(before[..rs[k].end]) && TextOk(rs[k].change.newText)
    {
      var i := ChosenRangeHasEdit(before, edits, k);
      LocatedRangeIsOnBoundaries(before, edits[i]);
    }
    SpliceIsText(before, rs, 0);
  }

  // ----- One range at a time, from last to first -----

  /** Replace the last range in the file, then the one before it, and so on: every
      earlier range keeps its offsets. */
  ghost function ReplaceLastFirst(before: seq<byte>, rs: seq<EditRange>): (after: seq<byte>)
    requires RangesIn(before, rs) && NoOverlap(rs)
    decreases |rs|
  {
    if rs == [] then before
    else
      var last := rs[|rs| - 1];
      EarlierRangesEndBefore(before, rs, |rs| - 1);
      ReplaceLastFirst(ReplaceOne(before, last), rs[..|rs| - 1])
  }

  function ReplaceOne(before: seq<byte>, r: EditRange): (after: seq<byte>)
    requires r.start < r.end <= |before|
  {
    before[..r.start] + r.change.newText + before[r.end..]
  }

  lemma {:induction false} EarlierRangesEndBefore(before: seq<byte>, rs: seq<EditRange>, k: nat)
    requires RangesIn(before, rs) && NoOverlap(rs) && k < |rs|
    ensures forall i :: 0 <= i < k ==> rs[i].end <= rs[k].start
  {
    if k > 0 {
      EarlierRangesEndBefore(before, rs, k - 1);
    }
  }

  lemma SliceOfPrefix<T>(s: seq<T>, n: nat, i: nat, j: nat)
    requires i <= j <= n <= |s|
    ensures s[i..j] == s[..n][i..j]
  {
  }

  /** The file with its last range replaced, spliced with the other ranges. */
  lemma {:induction false} SpliceWithoutLast(before: seq<byte>, rs: seq<EditRange>, replaced: seq<byte>, cursor: nat)
    requires rs != [] && RangesIn(before, rs) && NoOverlap(rs) && cursor <= rs[0].start
    requires var last := rs[|rs| - 1];
             && last.start <= |replaced| && replaced[..last.start] == before[..last.start]
             && replaced[last.start..] == last.change.newText + before[last.end..]
    requires RangesIn(replaced, rs[..|rs| - 1])
    ensures cursor <= |replaced|
    ensures Splice(before, rs, cursor) == Splice(replaced, rs[..|rs| - 1], cursor)
    decreases |rs|
  {
    var last := rs[|rs| - 1];
    var init := rs[..|rs| - 1];
    EarlierRangesEndBefore(before, rs, |rs| - 1);
    if |rs| == 1 {
      assert Splice(before, rs[1..], last.end) == before[last.end..];
      assert before[cursor..last.start] == replaced[..last.start][cursor..];
      assert replaced[cursor..] == replaced[..last.start][cursor..] + replaced[last.start..];
    } else {
      assert rs[1..][..|rs| - 2] == init[1..];
      SpliceWithoutLast(before, rs[1..], replaced, rs[0].end);
      SliceOfPrefix(before, last.start, cursor, rs[0].start);
      SliceOfPrefix(replaced, last.start, cursor, rs[0].start);
    }
  }

  /** The one-pass splice means: the chosen ranges replaced one after another,
      from the last to the first. */
  lemma {:induction false} SpliceReplacesLastFirst(before: seq<byte>, rs: seq<EditRange>)
    requires RangesIn(before, rs) && NoOverlap(rs)
    ensures Splice(before, rs, 0) == ReplaceLastFirst(before, rs)
    decreases |rs|
  {
    if rs != [] {
      EarlierRangesEndBefore(before, rs, |rs| - 1);
      var replaced := ReplaceOne(before, rs[|rs| - 1]);
      SpliceWithoutLast(before, rs, replaced, 0);
      SpliceReplacesLastFirst(replaced, rs[..|rs| - 1]);
    }
  }

  lemma EditedReplacesLastFirst(before: seq<byte>, edits: seq<TextEdit>)
    requires Acceptable(before, edits)
    ensures Edited(before, edits) == ReplaceLastFirst(before, ChosenRanges(before, edits))
  {
    SpliceReplacesLastFirst(before, ChosenRanges(before, edits));
  }

  // ----- Length, and where every byte goes -----

  function Growth(r: EditRange): (d: int) {
    |r.change.newText| - (r.end - r.start)
  }

  function TotalGrowth(rs: seq<EditRange>): (d: int) {
    if rs == [] then 0 else Growth(rs[0]) + TotalGrowth(rs[1..])
  }

  /** Where offset i of the old file ends up: moved by every range before it. */
  function Moved(rs: seq<EditRange>, i: int): (j: int) {
    if rs == [] then i
    else (if rs[0].end <= i then Growth(rs[0]) else 0) + Moved(rs[1..], i)
  }

  predicate Outside(rs: seq<EditRange>, i: int) {
    forall k :: 0 <= k < |rs| ==> i < rs[k].start || rs[k].end <= i
  }

  lemma {:induction false} SpliceLength(before: seq<byte>, rs: seq<EditRange>, cursor: nat)
    requires RangesIn(before, rs) && NoOverlap(rs)
    requires cursor <= |before| && (rs != [] ==> cursor <= rs[0].start)
    ensures |Splice(before, rs, cursor)| == |before| - cursor + TotalGrowth(rs)
    decreases |rs|
  {
    if rs != [] {
      SpliceLength(before, rs[1..], rs[0].end);
    }
  }

  lemma {:induction false} NotMovedByLaterRanges(before: seq<byte>, rs: seq<EditRange>, i: int)
    requires RangesIn(before, rs) && NoOverlap(rs) && (rs != [] ==> i <= rs[0].start)
    ensures Moved(rs, i) == i
    decreases |rs|
  {
    if rs != [] {
      NotMovedByLaterRanges(before, rs[1..], i);
    }
  }

  lemma {:induction false} SpliceKeepsOutside(before: seq<byte>, rs: seq<EditRange>, cursor: nat, i: nat)
    requires RangesIn(before, rs) && NoOverlap(rs)
    requires cursor <= i < |before| && (rs != [] ==> cursor <= rs[0].start) && Outside(rs, i)
    ensures var j := Moved(rs, i) - cursor;
            0 <= j < |Splice(before, rs, cursor)| && Splice(before, rs, cursor)[j] == before[i]
    decreases |rs|
  {
    if rs != [] {
      var head := before[cursor..rs[0].start] + rs[0].change.newText;
      var tail := Splice(before, rs[1..], rs[0].end);
      assert Splice(before, rs, cursor) == head + tail;
      hide Splice;
      if i < rs[0].start {
        NotMovedByLaterRanges(before, rs, i);
        assert head[i - cursor] == before[i];
      } else {
        assert rs[0].end <= i;
        SpliceKeepsOutside(before, rs[1..], rs[0].end, i);
        var j := Moved(rs[1..], i) - rs[0].end;
        assert (head + tail)[|head| + j] == tail[j];
      }
    }
  }

  lemma {:induction false} SplicePlacesNewText(before: seq<byte>, rs: seq<EditRange>, cursor: nat, k: nat)
    requires RangesIn(before, rs) && NoOverlap(rs)
    requires k < |rs| && cursor <= rs[0].start
    ensures var j := Moved(rs, rs[k].start) - cursor;
            && 0 <= j && j + |rs[k].change.newText| <= |Splice(before, rs, cursor)|
            && Splice(before, rs, cursor)[j..j + |rs[k].change.newText|] == rs[k].change.newText
    decreases |rs|
  {
    var head := before[cursor..rs[0].start] + rs[0].change.newText;
    var tail := Splice(before, rs[1..], rs[0].end);
    assert Splice(before, rs, cursor) == head + tail;
    if k == 0 {
      NotMovedByLaterRanges(before, rs, rs[0].start);
    } else {
      EarlierRangesEndBefore(before, rs, k);
      assert rs[1..][k - 1] == rs[k];
      SplicePlacesNewText(before, rs[1..], rs[0].end, k - 1);
      var j := Moved(rs[1..], rs[k].start) - rs[0].end;
      var n := |rs[k].change.newText|;
      assert (head + tail)[|head| + j..|head| + j + n] == tail[j..j + n];
    }
  }

  ghost predicate KeepsOutside(before: seq<byte>, rs: seq<EditRange>, after: seq<byte>) {
    forall i :: 0 <= i < |before| && Outside(rs, i) ==>
      0 <= Moved(rs, i) < |after| && after[Moved(rs, i)] == before[i]
  }

  ghost predicate PlacesNewTexts(rs: seq<EditRange>, after: seq<byte>) {
    forall k :: 0 <= k < |rs| ==>
      var j, n := Moved(rs, rs[k].start), |rs[k].change.newText|;
      0 <= j && j + n <= |after| && after[j..j + n] == rs[k].change.newText
  }

  lemma SpliceAccountsForEveryByte(before: seq<byte>, rs: seq<EditRange>)
    requires RangesIn(before, rs) && NoOverlap(rs)
    ensures var after := Splice(before, rs, 0);
            |after| == |before| + TotalGrowth(rs) && KeepsOutside(before, rs, after) && PlacesNewTexts(rs, after)
  {
    hide Splice, Moved;
    SpliceLength(before, rs, 0);
    forall i | 0 <= i < |before| && Outside(rs, i)
      ensures 0 <= Moved(rs, i) < |Splice(before, rs, 0)| && Splice(before, rs, 0)[Moved(rs, i)] == before[i]
    {
      SpliceKeepsOutside(before, rs, 0, i);
    }
    forall k | 0 <= k < |rs|
      ensures var j, n := Moved(rs, rs[k].start), |rs[k].change.newText|;
              && 0 <= j && j + n <= |Splice(before, rs, 0)|
              && Splice(before, rs, 0)[j..j + n] == rs[k].change.newText
    {
      SplicePlacesNewText(before, rs, 0, k);
    }
  }

  /** Length, untouched bytes and new texts of an accepted multi-edit: together
      they account for every byte of the result. */
  lemma EditedAccountsForEveryByte(before: seq<byte>, edits: seq<TextEdit>)
    requires Acceptable(before, edits)
    ensures var rs, after := ChosenRanges(before, edits), Edited(before, edits);
            |after| == |before| + TotalGrowth(rs) && KeepsOutside(before, rs, after) && PlacesNewTexts(rs, after)
  {
    SpliceAccountsForEveryByte(before, ChosenRanges(before, edits));
  }

  // ----- The order of the edits does not matter -----

  lemma SortedHeadsAgree(before: seq<byte>, a: seq<EditRange>, b: seq<EditRange>)
    requires RangesIn(before, a) && NoOverlap(a) && SortedByStart(b) && multiset(a) == multiset(b)
    requires a != [] && b != []
    ensures a[0] == b[0]
  {
    assert a[0] in multiset(b) && b[0] in multiset(a);
    var k :| 0 <= k < |a| && a[k] == b[0];
    var m :| 0 <= m < |b| && b[m] == a[0];
    EarlierRangesEndBefore(before, a, k);
  }

  lemma MultisetWithout<T>(s: seq<T>, k: nat)
    requires k < |s|
    ensures multiset(s[..k] + s[k + 1..]) == multiset(s) - multiset{s[k]}
  {
    assert s == s[..k] + [s[k]] + s[k + 1..];
  }

  lemma SameLength<T>(a: seq<T>, b: seq<T>)
    requires multiset(a) == multiset(b)
    ensures |a| == |b|
  {
    assert |a| == |multiset(a)| && |b| == |multiset(b)|;
  }

  /** Dropping equal elements from equal multisets leaves equal multisets. */
  lemma DropEqual<T>(a: seq<T>, i: nat, b: seq<T>, k: nat)
    requires multiset(a) == multiset(b) && i < |a| && k < |b| && a[i] == b[k]
    ensures multiset(a[..i] + a[i + 1..]) == multiset(b[..k] + b[k + 1..])
  {
    MultisetWithout(a, i);
    MultisetWithout(b, k);
  }

  lemma TailsKeepShape(before: seq<byte>, a: seq<EditRange>, b: seq<EditRange>)
    requires RangesIn(before, a) && NoOverlap(a) && SortedByStart(b) && a != [] && b != []
    ensures RangesIn(before, a[1..]) && NoOverlap(a[1..]) && SortedByStart(b[1..])
  {
  }

  lemma TailsKeepElements<T>(a: seq<T>, b: seq<T>)
    requires multiset(a) == multiset(b) && a != [] && b != [] && a[0] == b[0]
    ensures multiset(a[1..]) == multiset(b[1..])
  {
    assert a == [a[0]] + a[1..];
    assert b == [b[0]] + b[1..];
    assert multiset(a[1..]) == multiset(a) - multiset{a[0]};
    assert multiset(b[1..]) == multiset(b) - multiset{b[0]};
  }

  /** Two sorted lists of the same non-empty ranges, one of them without overlap,
      are the same list: any sort, stable or not, gives the planner one answer. */
  lemma {:induction false} AnySortAgrees(before: seq<byte>, a: seq<EditRange>, b: seq<EditRange>)
    requires RangesIn(before, a) && NoOverlap(a) && SortedByStart(b) && multiset(a) == multiset(b)
    ensures a == b
    decreases |a|
  {
    SameLength(a, b);
    if a != [] {
      SortedHeadsAgree(before, a, b);
      TailsKeepElements(a, b);
      TailsKeepShape(before, a, b);
      AnySortAgrees(before, a[1..], b[1..]);
    }
  }

  lemma {:induction false} RawSizeWithout(edits: seq<TextEdit>, k: nat)
    requires k < |edits|
    ensures RawSize(edits) == RawSize(edits[..k] + edits[k + 1..]) + |edits[k].oldText| + |edits[k].newText|
    decreases |edits|
  {
    var without := edits[..k] + edits[k + 1..];
    var init := edits[..|edits| - 1];
    if k == |edits| - 1 {
      assert without == init;
    } else {
      RawSizeWithout(init, k);
      assert without[..|without| - 1] == init[..k] + init[k + 1..];
    }
  }

  lemma {:induction false} PermutedEdits(before: seq<byte>, style: seq<byte>, a: seq<TextEdit>, b: seq<TextEdit>)
    requires multiset(a) == multiset(b) && AllLocated(before, style, a)
    ensures |a| == |b| && RawSize(a) == RawSize(b) && AllLocated(before, style, b)
    ensures multiset(RangesOf(before, style, a)) == multiset(RangesOf(before, style, b))
    decreases |a|
  {
    hide EditLocated, RangeOf, AllLocated;
    SameLength(a, b);
    if a != [] {
      var n := |a| - 1;
      LocatedPrefix(before, style, a, n);
      assert a[n] in multiset(b);
      var k :| 0 <= k < |b| && b[k] == a[n];
      DropEqual(a, n, b, k);
      assert a[..n] + a[n + 1..] == a[..n];
      PermutedEdits(before, style, a[..n], b[..k] + b[k + 1..]);
      RawSizeWithout(b, k);
      RangesOfInsert(before, style, b, k);
      RangesOfInsert(before, style, a, n);
    }
  }

  lemma LocatedPrefix(before: seq<byte>, style: seq<byte>, a: seq<TextEdit>, n: nat)
    requires AllLocated(before, style, a) && n < |a|
    ensures AllLocated(before, style, a[..n]) && EditLocated(before, style, a[n])
  {
    hide EditLocated;
  }

  lemma RangesOfInsert(before: seq<byte>, style: seq<byte>, b: seq<TextEdit>, k: nat)
    requires k < |b| && AllLocated(before, style, b[..k] + b[k + 1..]) && EditLocated(before, style, b[k])
    ensures AllLocated(before, style, b)
    ensures multiset(RangesOf(before, style, b)) ==
            multiset(RangesOf(before, style, b[..k] + b[k + 1..])) + multiset{RangeOf(before, style, b[k])}
  {
    hide EditLocated, RangeOf;
    var rest := b[..k] + b[k + 1..];
    forall i | 0 <= i < |b|
      ensures EditLocated(before, style, b[i])
    {
      assert i < k ==> rest[i] == b[i];
      assert i > k ==> rest[i - 1] == b[i];
    }
    var rb, rr := RangesOf(before, style, b), RangesOf(before, style, rest);
    assert rb == rr[..k] + [RangeOf(before, style, b[k])] + rr[k..];
    assert rr == rr[..k] + rr[k..];
  }

  /** Every ordering of the edits is accepted alike and gives the same file. */
  lemma OrderDoesNotMatter(before: seq<byte>, a: seq<TextEdit>, b: seq<TextEdit>)
    requires multiset(a) == multiset(b)
    ensures Acceptable(before, a) <==> Acceptable(before, b)
    ensures Acceptable(before, a) ==> Edited(before, a) == Edited(before, b)
    ensures Acceptable(before, a) ==> ChosenRanges(before, a) == ChosenRanges(before, b)
  {
    if Acceptable(before, a) {
      AcceptedInAnyOrder(before, a, b);
    } else if Acceptable(before, b) {
      AcceptedInAnyOrder(before, b, a);
    }
  }

  lemma AcceptedInAnyOrder(before: seq<byte>, a: seq<TextEdit>, b: seq<TextEdit>)
    requires multiset(a) == multiset(b) && Acceptable(before, a)
    ensures Acceptable(before, b) && ChosenRanges(before, a) == ChosenRanges(before, b)
  {
    hide EditLocated, RangeOf;
    var style := DominantNewline(before);
    PermutedEdits(before, style, a, b);
    var ra, rb := RangesOf(before, style, a), RangesOf(before, style, b);
    AnySortAgrees(before, ChosenRanges(before, a), SortByStart(rb));
  }
}
