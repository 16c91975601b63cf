/** The multi-edit planner: every edit is located in the unchanged file, the
    located ranges are sorted, checked for overlap and spliced in one pass. */
module FileEdit {
  import opened Utf8
  import opened TextSearch

  const MAX_EDITABLE_FILE_BYTES := 0x20_0000
  const MAX_EDIT_TEXT_BYTES := 0x1_0000
  const MAX_EDIT_TOTAL_BYTES := 0x8_0000
  const MAX_FILE_EDITS := 64

  datatype TextEdit = TextEdit(oldText: seq<byte>, newText: seq<byte>)

  datatype EditRange = EditRange(start: nat, end: nat, change: TextEdit)

  datatype Action = Replace | EditMany

  datatype EditParams = EditParams(oldText: seq<byte>, newText: seq<byte>, edits: seq<TextEdit>, expectedSha: string)

  datatype PlanError =
    | RevisionRequired | BinaryOrInvalidUtf8 | RevisionConflict | BadShape | TooManyEdits
    | BadEditText | EditNotUnique | EditOverlap | ReadLimit

  datatype Result<T> = Ok(value: T) | Err(error: PlanError)

  datatype Plan = Plan(after: seq<byte>, changes: seq<TextEdit>)

  // ----- What one edit means -----

  /** Size and content limits on the two texts of one edit. */
  predicate EditIsText(e: TextEdit) {
    && e.oldText != [] && |e.oldText| <= MAX_EDIT_TEXT_BYTES && |e.newText| <= MAX_EDIT_TEXT_BYTES
    && TextOk(e.oldText) && TextOk(e.newText)
  }

  function Normalized(e: TextEdit, style: seq<byte>): (n: TextEdit) {
    TextEdit(NormalizeNewlines(e.oldText, style), NormalizeNewlines(e.newText, style))
  }

  predicate FoundOnce(before: seq<byte>, oldText: seq<byte>) {
    oldText != [] && Count(before, oldText) == 1
  }

  predicate EditLocated(before: seq<byte>, style: seq<byte>, e: TextEdit) {
    EditIsText(e) && FoundOnce(before, Normalized(e, style).oldText)
  }

  function RangeOf(before: seq<byte>, style: seq<byte>, e: TextEdit): (r: EditRange)
    requires EditLocated(before, style, e)
    ensures r.start < r.end <= |before| && before[r.start..r.end] == r.change.oldText
  {
    var change := Normalized(e, style);
    var start := Index(before, change.oldText);
    EditRange(start, start + |change.oldText|, change)
  }

  predicate AllLocated(before: seq<byte>, style: seq<byte>, edits: seq<TextEdit>) {
    forall i :: 0 <= i < |edits| ==> EditLocated(before, style, edits[i])
  }

  function RangesOf(before: seq<byte>, style: seq<byte>, edits: seq<TextEdit>): (rs: seq<EditRange>)
    requires AllLocated(before, style, edits)
    ensures |rs| == |edits|
    ensures forall i :: 0 <= i < |rs| ==> rs[i] == RangeOf(before, style, edits[i])
  {
    seq(|edits|, i requires 0 <= i < |edits| => RangeOf(before, style, edits[i]))
  }

  function RawSize(edits: seq<TextEdit>): (n: nat) {
    if edits == [] then 0
    else RawSize(edits[..|edits| - 1]) + |edits[|edits| - 1].oldText| + |edits[|edits| - 1].newText|
  }

  // ----- Sorted, disjoint ranges and the splice -----

  predicate SortedByStart(rs: seq<EditRange>) {
    forall i, j :: 0 <= i < j < |rs| ==> rs[i].start <= rs[j].start
  }

  /** Neighbours do not overlap: what the planner checks after sorting. */
  predicate NoOverlap(rs: seq<EditRange>) {
    forall i :: 0 < i < |rs| ==> rs[i - 1].end <= rs[i].start
  }

  predicate RangesIn(before: seq<byte>, rs: seq<EditRange>) {
    forall i :: 0 <= i < |rs| ==> rs[i].start < rs[i].end <= |before|
  }

  /** How many leading ranges start no later than the given offset. */
  function PlaceFor(rs: seq<EditRange>, start: nat): (k: nat)
    requires SortedByStart(rs)
    ensures k <= |rs|
    ensures forall i :: 0 <= i < k ==> rs[i].start <= start
    ensures forall i :: k <= i < |rs| ==> start < rs[i].start
  {
    if rs == [] then 0
    else if rs[|rs| - 1].start <= start then |rs|
    else PlaceFor(rs[..|rs| - 1], start)
  }

  function InsertByStart(rs: seq<EditRange>, r: EditRange): (out: seq<EditRange>)
    requires SortedByStart(rs)
    ensures SortedByStart(out) && |out| == |rs| + 1
    ensures multiset(out) == multiset(rs) + multiset{r}
  {
    var k := PlaceFor(rs, r.start);
    SplitAround(rs, r, k);
    InsertedIsSorted(rs, r, k);
    rs[..k] + [r] + rs[k..]
  }

  lemma SplitAround(rs: seq<EditRange>, r: EditRange, k: nat)
    requires k <= |rs|
    ensures multiset(rs[..k] + [r] + rs[k..]) == multiset(rs) + multiset{r}
  {
    assert rs == rs[..k] + rs[k..];
  }

  lemma InsertedIsSorted(rs: seq<EditRange>, r: EditRange, k: nat)
    requires SortedByStart(rs) && k <= |rs|
    requires (forall i :: 0 <= i < k ==> rs[i].start <= r.start) && (forall i :: k <= i < |rs| ==> r.start < rs[i].start)
    ensures SortedByStart(rs[..k] + [r] + rs[k..])
  {
    var out := rs[..k] + [r] + rs[k..];
    forall i, j | 0 <= i < j < |out|
      ensures out[i].start <= out[j].start
    {
      assert out[i] == if i < k then rs[i] else if i == k then r else rs[i - 1];
      assert out[j] == if j < k then rs[j] else if j == k then r else rs[j - 1];
    }
  }

  /** sort.Slice by start. Which sort is used does not matter: see AnySortAgrees. */
  function SortByStart(rs: seq<EditRange>): (out: seq<EditRange>)
    ensures SortedByStart(out) && multiset(out) == multiset(rs) && |out| == |rs|
  {
    if rs == [] then []
    else
      assert rs == rs[..|rs| - 1] + [rs[|rs| - 1]];
      InsertByStart(SortByStart(rs[..|rs| - 1]), rs[|rs| - 1])
  }

  /** The single pass over sorted ranges, from cursor to the end of the file. */
  function Splice(before: seq<byte>, rs: seq<EditRange>, cursor: nat): (after: seq<byte>)
    requires RangesIn(before, rs) && NoOverlap(rs)
    requires cursor <= |before| && (rs != [] ==> cursor <= rs[0].start)
  {
    if rs == [] then before[cursor..]
    else before[cursor..rs[0].start] + rs[0].change.newText + Splice(before, rs[1..], rs[0].end)
  }

  // ----- When a request is accepted, and with which file -----

  predicate Acceptable(before: seq<byte>, edits: seq<TextEdit>) {
    var style := DominantNewline(before);
    && |edits| <= MAX_FILE_EDITS
    && RawSize(edits) <= MAX_EDIT_TOTAL_BYTES
    && AllLocated(before, style, edits)
    && NoOverlap(SortByStart(RangesOf(before, style, edits)))
  }

  function ChosenRanges(before: seq<byte>, edits: seq<TextEdit>): (rs: seq<EditRange>)
    requires Acceptable(before, edits)
    ensures RangesIn(before, rs) && NoOverlap(rs) && SortedByStart(rs) && |rs| == |edits|
    ensures multiset(rs) == multiset(RangesOf(before, DominantNewline(before), edits))
  {
    var ranges := RangesOf(before, DominantNewline(before), edits);
    PermutedRangesIn(before, ranges, SortByStart(ranges));
    SortByStart(ranges)
  }

  lemma PermutedRangesIn(before: seq<byte>, rs: seq<EditRange>, permuted: seq<EditRange>)
    requires RangesIn(before, rs) && multiset(permuted) == multiset(rs)
    ensures RangesIn(before, permuted)
  {
    forall i | 0 <= i < |permuted|
      ensures permuted[i].start < permuted[i].end <= |before|
    {
      assert permuted[i] in multiset(permuted);
      assert permuted[i] in rs;
    }
  }

  /** The file an accepted list of edits produces. */
  function Edited(before: seq<byte>, edits: seq<TextEdit>): (after: seq<byte>)
    requires Acceptable(before, edits)
  {
    Splice(before, ChosenRanges(before, edits), 0)
  }

  /** The list of edits a request asks for. */
  function RequestedEdits(action: Action, p: EditParams): (edits: seq<TextEdit>) {
    match action
    case Replace => [TextEdit(p.oldText, p.newText)]
    case EditMany => p.edits
  }

  predicate ChangesOf(changes: seq<TextEdit>, rs: seq<EditRange>) {
    |changes| == |rs| && forall i :: 0 <= i < |rs| ==> changes[i] == rs[i].change
  }

  /** The edits before this one are located and within the limit, and this one is not:
      its texts are not text or exceed the limit, or it is not found once. */
  ghost predicate RefusedAt(before: seq<byte>, style: seq<byte>, edits: seq<TextEdit>, i: int, error: PlanError) {
    && 0 <= i < |edits| && (forall k :: 0 <= k < i ==> EditLocated(before, style, edits[k]))
    && RawSize(edits[..i]) <= 524288
    && if EditIsText(edits[i]) && RawSize(edits[..i]) + |edits[i].oldText| + |edits[i].newText| <= 524288
       then error == EditNotUnique && !EditLocated(before, style, edits[i])
       else error == BadEditText
  }

  /** Which of its reasons a refused list of edits is given: the first that holds. */
  ghost predicate EditsRefused(before: seq<byte>, edits: seq<TextEdit>, error: PlanError) {
    var style := DominantNewline(before);
    if |edits| > 64 then error == TooManyEdits
    else if !AllLocated(before, style, edits) || RawSize(edits) > 524288 then
      exists i :: RefusedAt(before, style, edits, i, error)
    else if !Acceptable(before, edits) then error == EditOverlap
    else error == ReadLimit && |Edited(before, edits)| > 2097152
  }

  /** planFileEdit, from the bytes read to the planned file. The revision of the
      file is the uninterpreted digest `sha` of the bytes read. */
  method PlanFileEdit(action: Action, p: EditParams, before: seq<byte>, sha: string)
    returns (result: Result<Plan>)
    ensures result.Ok? <==>
              && p.expectedSha != "" && |before| <= 2097152 && TextOk(before)
              && p.expectedSha == sha
              && (action == Replace ==> p.edits == [] && p.oldText != [])
              && (action == EditMany ==> p.edits != [] && p.oldText == [] && p.newText == [])
              && Acceptable(before, RequestedEdits(action, p))
              && |Edited(before, RequestedEdits(action, p))| <= 2097152
    ensures result.Ok? ==>
              && result.value.after == Edited(before, RequestedEdits(action, p))
              && ChangesOf(result.value.changes, ChosenRanges(before, RequestedEdits(action, p)))
    ensures result == Err(RevisionConflict) <==>
              p.expectedSha != "" && |before| <= 2097152 && TextOk(before) && p.expectedSha != sha
    ensures result.Err? ==>
              var edits := RequestedEdits(action, p);
              if p.expectedSha == "" then result.error == RevisionRequired
              else if |before| > 2097152 then result.error == ReadLimit
              else if !TextOk(before) then result.error == BinaryOrInvalidUtf8
              else if p.expectedSha != sha then result.error == RevisionConflict
              else if action == Replace && (p.edits != [] || p.oldText == []) then result.error == BadShape
              else if action == EditMany && (p.edits == [] || p.oldText != [] || p.newText != []) then result.error == BadShape
              else EditsRefused(before, edits, result.error)
  {
    if p.expectedSha == "" {
      return Err(RevisionRequired);
    }
    if |before| > MAX_EDITABLE_FILE_BYTES {
      return Err(ReadLimit);
    }
    if !TextOk(before) {
      return Err(BinaryOrInvalidUtf8);
    }
    if p.expectedSha != sha {
      return Err(RevisionConflict);
    }
    var edits := p.edits;
    if action == Replace {
      if |p.edits| != 0 || p.oldText == [] {
        return Err(BadShape);
      }
      edits := [TextEdit(p.oldText, p.newText)];
    } else if |edits| == 0 || p.oldText != [] || p.newText != [] {
      return Err(BadShape);
    }
    result := PlanEdits(before, edits);
  }

  /** The part of the plan that depends only on the file and the list of edits. */
  method PlanEdits(before: seq<byte>, edits: seq<TextEdit>) returns (result: Result<Plan>)
    ensures result.Ok? <==> Acceptable(before, edits) && |Edited(before, edits)| <= MAX_EDITABLE_FILE_BYTES
    ensures result.Ok? ==>
              && result.value.after == Edited(before, edits)
              && ChangesOf(result.value.changes, ChosenRanges(before, edits))
    ensures result.Err? ==> EditsRefused(before, edits, result.error)
  {
    if |edits| > MAX_FILE_EDITS {
      return Err(TooManyEdits);
    }
    var style := DominantNewline(before);
    var located := LocateEdits(before, style, edits);
    if located.Err? {
      return Err(located.error);
    }
    var ranges := SortByStart(located.value);
    var overlap := Overlaps(ranges);
    if overlap {
      return Err(EditOverlap);
    }
    assert ranges == ChosenRanges(before, edits);
    var after, changes := SpliceRanges(before, ranges);
    if |after| > MAX_EDITABLE_FILE_BYTES {
      return Err(ReadLimit);
    }
    return Ok(Plan(after, changes));
  }

  /** The loop that checks, normalises and finds each edit. */
  method LocateEdits(before: seq<byte>, style: seq<byte>, edits: seq<TextEdit>)
    returns (result: Result<seq<EditRange>>)
    requires style == NEWLINE_LF || style == NEWLINE_CRLF
    ensures result.Ok? <==> AllLocated(before, style, edits) && RawSize(edits) <= MAX_EDIT_TOTAL_BYTES
    ensures result.Ok? ==> result.value == RangesOf(before, style, edits)
    ensures result.Err? ==> exists i :: RefusedAt(before, style, edits, i, result.error)
  {
    hide EditLocated, RangeOf, EditIsText, RawSize, RefusedAt;
    var ranges: seq<EditRange> := [];
    var total := 0;
    NoSize();
    for i := 0 to |edits|
      invariant forall k :: 0 <= k < i ==> EditLocated(before, style, edits[k])
      invariant total == RawSize(edits[..i]) <= MAX_EDIT_TOTAL_BYTES
      invariant |ranges| == i && forall k :: 0 <= k < i ==> ranges[k] == RangeOf(before, style, edits[k])
    {
      var edit := edits[i];
      SizeGrows(edits, i);
      var located := LocateEdit(before, style, edit, total);
      if located.Err? {
        RefusedHere(before, style, edits, i, located.error);
        return Err(located.error);
      }
      total := total + |edit.oldText| + |edit.newText|;
      ranges := ranges + [located.value];
    }
    assert edits[..|edits|] == edits;
    return Ok(ranges);
  }

  lemma NoSize()
    ensures forall edits: seq<TextEdit> :: RawSize(edits[..0]) == 0
  {
    assert forall edits: seq<TextEdit> :: edits[..0] == [];
  }

  lemma SizeGrows(edits: seq<TextEdit>, i: nat)
    requires i < |edits|
    ensures RawSize(edits[..i + 1]) == RawSize(edits[..i]) + |edits[i].oldText| + |edits[i].newText| <= RawSize(edits)
  {
    assert edits[..i + 1] == edits[..i] + [edits[i]];
    RawSizeOfPrefix(edits, i + 1);
  }

  lemma RefusedHere(before: seq<byte>, style: seq<byte>, edits: seq<TextEdit>, i: nat, error: PlanError)
    requires i < |edits| && (forall k :: 0 <= k < i ==> EditLocated(before, style, edits[k]))
    requires RawSize(edits[..i]) <= MAX_EDIT_TOTAL_BYTES
    requires !(EditLocated(before, style, edits[i])
               && RawSize(edits[..i]) + |edits[i].oldText| + |edits[i].newText| <= MAX_EDIT_TOTAL_BYTES)
    requires if EditIsText(edits[i]) && RawSize(edits[..i]) + |edits[i].oldText| + |edits[i].newText| <= MAX_EDIT_TOTAL_BYTES
             then error == EditNotUnique && !EditLocated(before, style, edits[i])
             else error == BadEditText
    ensures RefusedAt(before, style, edits, i, error)
    ensures !(AllLocated(before, style, edits) && RawSize(edits) <= MAX_EDIT_TOTAL_BYTES)
  {
    hide EditLocated, EditIsText, RawSize;
    SizeGrows(edits, i);
  }

  /** The body of that loop; total is the size of the edits before this one. */
  method LocateEdit(before: seq<byte>, style: seq<byte>, edit: TextEdit, total: nat)
    returns (result: Result<EditRange>)
    requires style == NEWLINE_LF || style == NEWLINE_CRLF
    ensures result.Ok? <==>
              EditLocated(before, style, edit) && total + |edit.oldText| + |edit.newText| <= MAX_EDIT_TOTAL_BYTES
    ensures result.Ok? ==> result.value == RangeOf(before, style, edit)
    ensures result.Err? ==>
              if EditIsText(edit) && total + |edit.oldText| + |edit.newText| <= MAX_EDIT_TOTAL_BYTES
              then result.error == EditNotUnique && !EditLocated(before, style, edit)
              else result.error == BadEditText
  {
    if edit.oldText == [] || |edit.oldText| > MAX_EDIT_TEXT_BYTES || |edit.newText| > MAX_EDIT_TEXT_BYTES {
      return Err(BadEditText);
    }
    if total + |edit.oldText| + |edit.newText| > MAX_EDIT_TOTAL_BYTES || !TextOk(edit.oldText) || !TextOk(edit.newText) {
      return Err(BadEditText);
    }
    var oldText := NormalizeNewlines(edit.oldText, style);
    var newText := NormalizeNewlines(edit.newText, style);
    NormalizeKeepsText(edit.oldText, style);
    if Count(before, oldText) != 1 {
      return Err(EditNotUnique);
    }
    var start := Index(before, oldText);
    return Ok(EditRange(start, start + |oldText|, TextEdit(oldText, newText)));
  }

  lemma {:induction false} RawSizeOfPrefix(edits: seq<TextEdit>, i: nat)
    requires i <= |edits|
    ensures RawSize(edits[..i]) <= RawSize(edits)
    decreases |edits|
  {
    if i < |edits| {
      RawSizeOfPrefix(edits[..|edits| - 1], i);
      assert edits[..|edits| - 1][..i] == edits[..i];
    } else {
      assert edits[..i] == edits;
    }
  }

  /** Some two ranges share a byte. */
  ghost predicate SomeTwoOverlap(ranges: seq<EditRange>) {
    exists i, j :: 0 <= i < j < |ranges| && ranges[i].start < ranges[j].end && ranges[j].start < ranges[i].end
  }

  predicate NoneEmpty(ranges: seq<EditRange>) {
    forall i :: 0 <= i < |ranges| ==> ranges[i].start < ranges[i].end
  }

  /** Among sorted ranges, those apart from their neighbours are apart from all. */
  lemma {:induction false} ApartFromAll(ranges: seq<EditRange>, i: nat, j: nat)
    requires NoneEmpty(ranges) && NoOverlap(ranges) && i < j < |ranges|
    ensures ranges[i].end <= ranges[j].start
    decreases j
  {
    if i < j - 1 {
      ApartFromAll(ranges, i, j - 1);
    }
  }

  lemma NeighboursDecide(ranges: seq<EditRange>)
    ensures SortedByStart(ranges) && NoneEmpty(ranges) ==> (NoOverlap(ranges) <==> !SomeTwoOverlap(ranges))
  {
    if !SortedByStart(ranges) || !NoneEmpty(ranges) {
      return;
    }
    if NoOverlap(ranges) {
      forall i, j | 0 <= i < j < |ranges|
        ensures ranges[i].end <= ranges[j].start
      {
        ApartFromAll(ranges, i, j);
      }
    } else {
      var i :| 0 < i < |ranges| && ranges[i].start < ranges[i - 1].end;
      assert ranges[i - 1].start <= ranges[i].start < ranges[i].end;
    }
  }

  /** The check of each range against its neighbour. */
  method Overlaps(ranges: seq<EditRange>) returns (overlap: bool)
    ensures overlap <==> !NoOverlap(ranges)
    ensures SortedByStart(ranges) && NoneEmpty(ranges) ==> (overlap <==> SomeTwoOverlap(ranges))
  {
    NeighboursDecide(ranges);
    var i := 1;
    while i < |ranges|
      invariant 1 <= i
      invariant forall k :: 0 < k < i && k < |ranges| ==> ranges[k - 1].end <= ranges[k].start
    {
      if ranges[i].start < ranges[i - 1].end {
        return true;
      }
      i := i + 1;
    }
    return false;
  }

  method SpliceRanges(before: seq<byte>, ranges: seq<EditRange>)
    returns (after: seq<byte>, changes: seq<TextEdit>)
    requires RangesIn(before, ranges) && NoOverlap(ranges)
    ensures after == Splice(before, ranges, 0)
    ensures ChangesOf(changes, ranges)
  {
    after, changes := [], [];
    var cursor: nat := 0;
    for i := 0 to |ranges|
      invariant cursor <= |before| && (i < |ranges| ==> cursor <= ranges[i].start)
      invariant after + Splice(before, ranges[i..], cursor) == Splice(before, ranges, 0)
      invariant |changes| == i && forall k :: 0 <= k < i ==> changes[k] == ranges[k].change
    {
      assert ranges[i..][0] == ranges[i] && ranges[i..][1..] == ranges[i + 1..];
      after := after + before[cursor..ranges[i].start];
      after := after + ranges[i].change.newText;
      cursor := ranges[i].end;
      changes := changes + [ranges[i].change];
    }
    after := after + before[cursor..];
  }
}
