/** The single pass over a file that validates it and selects bytes or lines,
    whatever sizes the reads return. */
module FileScan {
  import opened Utf8
  import opened TextSearch
  import opened Lines

  const MAX_FILE_READ_BYTES := 0x2_0000
  const FILE_READ_SCAN_BUFFER_SIZE := 0x1_0000

  datatype Selection =
    | Bytes(offset: nat, limit: nat)
    | LineRange(lineStart: nat, lineCount: nat)
    | TailLines(lineCount: nat)
    | Stat

  datatype Scan = Scan(content: seq<byte>, startOffset: int, endOffset: int, lineStart: int, bounded: bool)

  datatype Outcome = Scanned(scan: Scan) | BinaryOrInvalidUtf8 | ReadFailed

  function Min(a: int, b: int): (m: int) {
    if a < b then a else b
  }

  function Max(a: int, b: int): (m: int) {
    if a > b then a else b
  }

  /** A newline-delimited request is never empty. */
  predicate WellFormed(sel: Selection) {
    match sel
    case LineRange(s, c) => s >= 1 && c >= 1
    case TailLines(c) => c >= 1
    case _ => true
  }

  // ----- Validation across reads -----

  /** splitValidUTF8Chunk: hold back at most three bytes that may begin a rune. */
  method SplitValidUtf8Chunk(input: seq<byte>, last: bool) returns (prefix: seq<byte>, suffix: seq<byte>, ok: bool)
    ensures ok <==> |input| - Floor(input, |input|) <= if last then 0 else 3
    ensures ok ==> prefix == input[..Floor(input, |input|)] && suffix == input[Floor(input, |input|)..]
  {
    assert input[..|input|] == input;
    if Valid(input) {
      return input, [], true;
    }
    if last {
      return [], [], false;
    }
    var suffixLength := 1;
    while suffixLength < UTF_MAX && suffixLength <= |input|
      invariant 1 <= suffixLength <= UTF_MAX
      invariant suffixLength <= |input| + 1
      invariant Floor(input, |input|) <= |input| - suffixLength || suffixLength > |input|
      invariant forall k :: |input| - suffixLength < k <= |input| && k >= 0 ==> !Valid(input[..k])
    {
      prefix := input[..|input| - suffixLength];
      if Valid(prefix) {
        return prefix, input[|input| - suffixLength..], true;
      }
      suffixLength := suffixLength + 1;
    }
    return [], [], false;
  }

  /** The pending bytes after reading p: the part of a rune the reads have cut. */
  ghost predicate Pending(p: seq<byte>, pending: seq<byte>) {
    && |pending| <= 3 && |pending| <= |p|
    && p[|p| - |pending|..] == pending && Valid(p[..|p| - |pending|])
  }

  lemma PendingExtended(p: seq<byte>, pending: seq<byte>, chunk: seq<byte>, m: nat)
    requires Pending(p, pending) && m <= |pending + chunk| && |pending + chunk| - m <= 3
    requires Valid((pending + chunk)[..m])
    ensures Pending(p + chunk, (pending + chunk)[m..])
  {
    hide Valid;
    var base := |p| - |pending|;
    assert p == p[..base] + pending;
    assert p + chunk == p[..base] + (pending + chunk);
    CutAfter(p[..base], pending + chunk, m);
    ValidAppend(p[..base], (pending + chunk)[..m]);
  }

  lemma CutAfter<T>(a: seq<T>, c: seq<T>, m: nat)
    requires m <= |c|
    ensures (a + c)[..|a| + m] == a + c[..m] && (a + c)[|a| + m..] == c[m..]
  {
  }

  /** No valid file contains a chunk that the split rejects. */
  lemma RejectedChunk(file: seq<byte>, p: seq<byte>, pending: seq<byte>, chunk: seq<byte>, last: bool)
    requires Pending(p, pending) && p + chunk <= file && (last ==> p + chunk == file)
    requires var combined := pending + chunk;
             |combined| - Floor(combined, |combined|) > if last then 0 else 3
    ensures !Valid(file)
  {
    var combined := pending + chunk;
    var n := |combined|;
    assert combined[..n] == combined;
    var base := |p| - |pending|;
    assert file[..base] == p[..base];
    ValidSplit(file, base);
    var rest := file[base..];
    assert rest[..n] == combined;
    FloorOfPrefix(rest, n, n);
    if last {
      assert rest == combined;
    } else if Valid(rest) {
      FloorIsNear(rest, n);
    }
  }

  // ----- Reading -----

  /** What one file.ReadAt of the loop brings, with the context check before it: some
      number of bytes, or an error. */
  datatype Read = Got(n: nat) | Failed

  /** What the system answers to a read at each offset; it decides how the file is
      divided. */
  type Disk = nat -> Read

  /** One read: never more than asked for, and no bytes are an error. */
  function ReadSome(disk: Disk, offset: nat, wanted: nat): (r: Read)
    requires wanted > 0
    ensures r.Got? ==> 0 < r.n <= wanted
  {
    match disk(offset)
    case Failed => Failed
    case Got(n) => if n == 0 then Failed else Got(Min(n, wanted))
  }

  /** Every read of the file brings something. */
  ghost predicate ReadsSucceed(disk: Disk, size: nat) {
    forall offset :: 0 <= offset < size ==> disk(offset).Got? && disk(offset).n > 0
  }

  // ----- Byte selection -----

  ghost function BytesSelected(file: seq<byte>, lo: nat, hi: nat): (s: seq<byte>)
    requires lo <= hi
  {
    if hi <= |file| then file[lo..hi] else if lo <= |file| then file[lo..] else []
  }

  method SelectBytes(selected: seq<byte>, chunk: seq<byte>, offset: nat, lo: nat, hi: nat, ghost p: seq<byte>)
    returns (more: seq<byte>)
    requires lo <= hi && |p| == offset && selected == BytesSelected(p, lo, hi)
    ensures more == BytesSelected(p + chunk, lo, hi)
  {
    hide BytesSelected;
    var start, end := Max(offset, lo), Min(offset + |chunk|, hi);
    BytesExtended(p, chunk, lo, hi);
    more := selected;
    if start < end {
      more := more + chunk[start - offset..end - offset];
    }
  }

  lemma BytesExtended(p: seq<byte>, chunk: seq<byte>, lo: nat, hi: nat)
    requires lo <= hi
    ensures var start, end := Max(|p|, lo), Min(|p| + |chunk|, hi);
            BytesSelected(p + chunk, lo, hi) ==
              if start < end then BytesSelected(p, lo, hi) + chunk[start - |p|..end - |p|] else BytesSelected(p, lo, hi)
  {
    var start, end := Max(|p|, lo), Min(|p| + |chunk|, hi);
    var q := p + chunk;
    if start < end {
      assert q[start..end] == chunk[start - |p|..end - |p|];
      assert lo <= |p| ==> q[lo..end] == p[lo..] + q[|p|..end];
    } else if hi <= |p| {
      assert q[lo..hi] == p[lo..hi];
    } else if chunk == [] {
      assert q == p;
    }
  }

  // ----- Line selection -----

  /** The progress of a line-range scan. */
  datatype LineScan = LineScan(selected: seq<byte>, currentLine: nat, startOffset: int, endOffset: int, lineStart: int)

  function Cut(s: seq<byte>, n: nat): (r: seq<byte>)
    ensures |r| <= n && |r| <= |s|
  {
    if |s| <= n then s else s[..n]
  }

  /** The lines ls .. ls + lc - 1 of p. */
  function LinesOf(p: seq<byte>, ls: nat, lc: nat): (r: seq<byte>)
  {
    LineStartsOrdered(p, ls, ls + lc);
    p[LineStart(p, ls)..LineStart(p, ls + lc)]
  }

  lemma {:induction false} LineStartsOrdered(p: seq<byte>, j: nat, k: nat)
    requires j <= k
    ensures LineStart(p, j) <= LineStart(p, k)
    decreases |p|
  {
    if p != [] {
      LineStartsOrdered(p[..|p| - 1], j, k);
    }
  }

  /** The lines ls .. ls + lc - 1 are lc lines that begin after ls - 1, or as many of them
      as there are. */
  lemma LinesAreCounted(p: seq<byte>, ls: nat, lc: nat)
    requires ls >= 1 && lc >= 1 && ls <= TotalLines(p)
    ensures LinesOf(p, ls, lc) <= p[LineStart(p, ls)..]
    ensures TotalLines(p[LineStart(p, ls)..]) == TotalLines(p) - ls + 1
    ensures TotalLines(LinesOf(p, ls, lc)) == Min(lc, TotalLines(p) - ls + 1)
  {
    hide LineStart, Newlines;
    LineExists(p, ls);
    LinesFrom(p, ls);
    LineStartsOrdered(p, ls, ls + lc);
    var (i, j) := (LineStart(p, ls), LineStart(p, ls + lc));
    LineExists(p, ls + lc);
    if j < |p| {
      LineStartFollowsNewline(p, ls + lc);
      WholeLines(p, ls, ls + lc);
    } else {
      assert p[i..j] == p[i..];
    }
  }

  /** Two line starts enclose the lines between them, all of them ended. */
  lemma WholeLines(p: seq<byte>, j: nat, k: nat)
    requires 1 <= j < k && LineStart(p, j) <= LineStart(p, k) < |p|
    ensures TotalLines(p[LineStart(p, j)..LineStart(p, k)]) == k - j
  {
    hide LineStart;
    var (a, b) := (LineStart(p, j), LineStart(p, k));
    LineStartFollowsNewline(p, k);
    if j > 1 {
      LineStartFollowsNewline(p, j);
    } else {
      FirstLineStart(p);
    }
    assert p[..b] == p[..a] + p[a..b];
    NewlinesConcat(p[..a], p[a..b]);
    if a < b {
      assert p[a..b][b - a - 1] == p[b - 1];
    }
  }

  /** What the scan knows after the bytes p of a file of the given size. */
  ghost predicate LineScanOf(st: LineScan, p: seq<byte>, size: nat, ls: nat, lc: nat) {
    && st.selected == Cut(LinesOf(p, ls, lc), MAX_FILE_READ_BYTES + 1)
    && st.currentLine == 1 + Newlines(p)
    && st.endOffset == (if Newlines(p) + 1 >= ls + lc then LineStart(p, ls + lc) else size)
    && st.startOffset == (if Newlines(p) + 1 >= ls && LineStart(p, ls) < size then LineStart(p, ls) else -1)
    && st.lineStart == (if st.startOffset >= 0 then ls else 0)
  }

  /** The inner loop over the bytes of one chunk. */
  method SelectLines(st0: LineScan, chunk: seq<byte>, offset: nat, size: nat, ls: nat, lc: nat, ghost p: seq<byte>)
    returns (st: LineScan)
    requires ls >= 1 && lc >= 1 && |p| == offset && offset + |chunk| <= size
    requires LineScanOf(st0, p, size, ls, lc)
    ensures LineScanOf(st, p + chunk, size, ls, lc)
  {
    st := st0;
    assert p + chunk[..0] == p;
    for index := 0 to |chunk|
      invariant LineScanOf(st, p + chunk[..index], size, ls, lc)
    {
      st := SelectLineByte(st, chunk[index], offset + index, size, ls, lc, p + chunk[..index]);
      assert p + chunk[..index + 1] == p + chunk[..index] + [chunk[index]];
    }
    assert chunk[..|chunk|] == chunk;
  }

  method SelectLineByte(st0: LineScan, value: byte, absolute: nat, size: nat, ls: nat, lc: nat, ghost p: seq<byte>)
    returns (st: LineScan)
    requires ls >= 1 && lc >= 1 && |p| == absolute < size
    requires LineScanOf(st0, p, size, ls, lc)
    ensures LineScanOf(st, p + [value], size, ls, lc)
  {
    st := st0;
    LineByteAppended(p, value, ls, lc);
    var lastRequested := ls + lc - 1;
    if st.currentLine >= ls && st.currentLine <= lastRequested {
      if |st.selected| <= MAX_FILE_READ_BYTES {
        st := st.(selected := st.selected + [value]);
      }
    }
    if value != LF {
      return;
    }
    if st.currentLine == lastRequested {
      st := st.(endOffset := absolute + 1);
    }
    st := st.(currentLine := st.currentLine + 1);
    if st.currentLine == ls && absolute + 1 < size {
      st := st.(startOffset := absolute + 1, lineStart := ls);
    }
  }

  /** One more byte extends the requested lines exactly while the current line is requested. */
  lemma LineByteAppended(p: seq<byte>, b: byte, ls: nat, lc: nat)
    requires ls >= 1 && lc >= 1
    ensures Newlines(p + [b]) == Newlines(p) + if b == LF then 1 else 0
    ensures LineStart(p + [b], ls) == if ls == 1 then 0 else if Newlines(p) + 1 >= ls then LineStart(p, ls) else |p| + 1
    ensures LineStart(p + [b], ls + lc) == if Newlines(p) + 1 >= ls + lc then LineStart(p, ls + lc) else |p| + 1
    ensures LinesOf(p + [b], ls, lc) ==
            if ls <= Newlines(p) + 1 < ls + lc then LinesOf(p, ls, lc) + [b] else LinesOf(p, ls, lc)
  {
    hide LineStart, Newlines;
    NewlinesAppend(p, b);
    LineStartAppend(p, b, ls);
    LineStartAppend(p, b, ls + lc);
    LineStartsOrdered(p, ls, ls + lc);
    LineStartWithin(p, ls);
    LineStartWithin(p, ls + lc);
    FirstLineStart(p);
    var start, end := LineStart(p, ls), LineStart(p, ls + lc);
    assert (p + [b])[start..end] == p[start..end];
    assert (p + [b])[start..|p| + 1] == p[start..] + [b];
  }

  // ----- Tail window -----

  datatype TailScan = TailScan(window: seq<byte>, bounded: bool, currentLine: nat, lastWasNewline: bool)

  function LastBytes(p: seq<byte>, n: nat): (r: seq<byte>) {
    if |p| <= n then p else p[|p| - n..]
  }

  ghost predicate TailScanOf(st: TailScan, p: seq<byte>) {
    && st.window == LastBytes(p, MAX_FILE_READ_BYTES + 1)
    && (st.bounded <==> |p| > MAX_FILE_READ_BYTES + 1)
    && st.currentLine == 1 + Newlines(p)
    && (st.lastWasNewline <==> p != [] && p[|p| - 1] == LF)
  }

  method SelectTail(st0: TailScan, chunk: seq<byte>, ghost p: seq<byte>) returns (st: TailScan)
    requires TailScanOf(st0, p) && chunk != []
    ensures TailScanOf(st, p + chunk)
  {
    hide Newlines;
    st := st0.(window := st0.window + chunk);
    if |st.window| > MAX_FILE_READ_BYTES + 1 {
      st := st.(window := st.window[|st.window| - (MAX_FILE_READ_BYTES + 1)..], bounded := true);
    }
    NewlinesConcat(p, chunk);
    st := st.(currentLine := st.currentLine + Newlines(chunk), lastWasNewline := chunk[|chunk| - 1] == LF);
  }

  /** In valid text the first byte that does not continue a rune is near. */
  lemma RuneStartNear(file: seq<byte>, i: nat) returns (k: nat)
    requires Valid(file) && i + 3 < |file|
    ensures k <= 3 && !Tail(file[i + k])
  {
    FloorIsNear(file, i + 3);
    var m := Floor(file, i + 3);
    Boundary(file, m);
    k := m - i;
  }

  /** Drop the continuation bytes a bounded window may begin with. */
  method TrimContinuation(window: seq<byte>) returns (trimmed: nat)
    ensures trimmed <= UTF_MAX && trimmed <= |window|
    ensures forall j :: 0 <= j < trimmed ==> Tail(window[j])
    ensures trimmed < |window| && trimmed < UTF_MAX ==> !Tail(window[trimmed])
  {
    trimmed := 0;
    while trimmed < |window| && trimmed < UTF_MAX && Tail(window[trimmed])
      invariant trimmed <= UTF_MAX && trimmed <= |window|
      invariant forall j :: 0 <= j < trimmed ==> Tail(window[j])
    {
      trimmed := trimmed + 1;
    }
  }

  /** The offsets in window[..i] at which a line begins, including 0 only if the
      window begins the file. */
  function StartsIn(window: seq<byte>, atFileStart: bool, i: nat): (starts: seq<nat>)
    requires i <= |window|
    ensures forall j :: 0 <= j < |starts| ==> starts[j] <= i
    ensures forall j :: 0 <= j < |starts| ==> starts[j] < |window| || window == []
  {
    if i == 0 then (if atFileStart then [0] else [])
    else
      var before := StartsIn(window, atFileStart, i - 1);
      if window[i - 1] == LF && i < |window| then before + [i] else before
  }

  /** The two passes that collect line starts, the second skipping what the first added. */
  method CollectStarts(window: seq<byte>, windowStart: nat) returns (starts: seq<nat>)
    requires window != []
    ensures starts == StartsIn(window, windowStart == 0, |window|)
  {
    hide Index, MatchesAt, StartsIn;
    NothingCollected(window);
    starts := [0];
    ghost var ahead := 0;
    if windowStart > 0 {
      starts := [];
      var newline := Index(window, NEWLINE_LF);
      FirstNewline(window);
      if newline >= 0 && newline + 1 < |window| {
        starts := starts + [newline + 1];
        ahead := newline + 1;
      }
    }
    for index := 0 to |window|
      invariant starts == StartsIn(window, windowStart == 0, Max(index, ahead))
      invariant ahead > 0 ==> ahead < |window| && forall j :: 0 <= j < ahead - 1 ==> window[j] != LF
      invariant index < ahead ==> starts == [ahead]
    {
      CollectStep(window, windowStart == 0, index, ahead, starts);
      if window[index] == LF && index + 1 < |window| && (|starts| == 0 || starts[|starts| - 1] != index + 1) {
        starts := starts + [index + 1];
      }
    }
  }

  lemma NothingCollected(window: seq<byte>)
    ensures StartsIn(window, true, 0) == [0] && StartsIn(window, false, 0) == []
  {
  }

  /** The second pass adds what the first has not added already. */
  lemma CollectStep(window: seq<byte>, atFileStart: bool, index: nat, ahead: nat, starts: seq<nat>)
    requires index < |window| && (ahead > 0 ==> ahead < |window|)
    requires forall j :: 0 <= j < ahead - 1 ==> window[j] != LF
    requires starts == StartsIn(window, atFileStart, Max(index, ahead))
    requires index < ahead ==> starts == [ahead]
    ensures StartsIn(window, atFileStart, Max(index + 1, ahead)) ==
            if window[index] == LF && index + 1 < |window| && (|starts| == 0 || starts[|starts| - 1] != index + 1)
            then starts + [index + 1] else starts
  {
  }

  /** The leftmost newline. */
  lemma LeftmostNewline(window: seq<byte>)
    ensures var i := Index(window, NEWLINE_LF);
            && (i < 0 ==> forall j :: 0 <= j < |window| ==> window[j] != LF)
            && (i >= 0 ==> i < |window| && window[i] == LF && forall j :: 0 <= j < i ==> window[j] != LF)
  {
    hide Index;
    var i := Index(window, NEWLINE_LF);
    forall j | 0 <= j < |window| && window[j] == LF
      ensures MatchesAt(window, NEWLINE_LF, j)
    {
      assert window[j..j + 1] == NEWLINE_LF;
    }
    if i >= 0 {
      assert window[i] == window[i..i + 1][0];
    }
  }

  /** The first line to begin after the start of the window. */
  lemma FirstNewline(window: seq<byte>)
    ensures var i := Index(window, NEWLINE_LF);
            i >= 0 && i + 1 < |window| ==>
              (forall j :: 0 <= j < i ==> window[j] != LF) && StartsIn(window, false, i + 1) == [i + 1]
  {
    hide Index, MatchesAt;
    LeftmostNewline(window);
    var i := Index(window, NEWLINE_LF);
    if i >= 0 {
      NoStartsBefore(window, i);
    }
  }

  lemma {:induction false} NoStartsBefore(window: seq<byte>, i: nat)
    requires i <= |window| && forall j :: 0 <= j < i ==> window[j] != LF
    ensures StartsIn(window, false, i) == []
  {
    if i > 0 {
      NoStartsBefore(window, i - 1);
    }
  }

  // ----- finishTailScan -----

  /** Number of the first line that begins in the window. */
  ghost function FirstLineIn(file: seq<byte>, windowStart: nat): (k: nat)
    requires windowStart <= |file|
  {
    Newlines(file[..windowStart]) + if windowStart == 0 then 1 else 2
  }

  ghost predicate AreLineStarts(file: seq<byte>, windowStart: nat, starts: seq<nat>)
    requires windowStart <= |file|
  {
    forall j :: 0 <= j < |starts| ==>
      windowStart + starts[j] == LineStart(file, FirstLineIn(file, windowStart) + j)
  }

  lemma {:induction false} StartsAreLineStarts(file: seq<byte>, windowStart: nat, i: nat)
    requires windowStart < |file| && i <= |file| - windowStart
    ensures var starts := StartsIn(file[windowStart..], windowStart == 0, i);
            && AreLineStarts(file, windowStart, starts)
            && FirstLineIn(file, windowStart) + |starts| == Newlines(file[..windowStart + i]) + 2
                 - (if i > 0 && windowStart + i == |file| && file[windowStart + i - 1] == LF then 1 else 0)
  {
    var window := file[windowStart..];
    hide LineStart, Newlines, AreLineStarts;
    if i > 0 {
      StartsAreLineStarts(file, windowStart, i - 1);
      assert window[i - 1] == file[windowStart + i - 1];
      NextLineStart(file, windowStart + i - 1);
      assert file[..windowStart + i - 1 + 1] == file[..windowStart + i];
      var before := StartsIn(window, windowStart == 0, i - 1);
      if window[i - 1] == LF && i < |window| {
        ExtendLineStarts(file, windowStart, before, i);
      }
    }
  }

  lemma ExtendLineStarts(file: seq<byte>, windowStart: nat, starts: seq<nat>, i: nat)
    requires windowStart <= |file| && AreLineStarts(file, windowStart, starts)
    requires windowStart + i == LineStart(file, FirstLineIn(file, windowStart) + |starts|)
    ensures AreLineStarts(file, windowStart, starts + [i])
  {
    hide LineStart, FirstLineIn;
    var more := starts + [i];
    forall j | 0 <= j < |more|
      ensures windowStart + more[j] == LineStart(file, FirstLineIn(file, windowStart) + j)
    {
      assert j < |starts| ==> more[j] == starts[j];
    }
  }

  /** A newline at offset i begins the next line right after it. */
  lemma NextLineStart(file: seq<byte>, i: nat)
    requires i < |file|
    ensures Newlines(file[..i + 1]) == Newlines(file[..i]) + if file[i] == LF then 1 else 0
    ensures file[i] == LF ==> LineStart(file, Newlines(file[..i]) + 2) == i + 1
  {
    hide Newlines, LineStart;
    var p := file[..i];
    assert file[..i + 1] == p + [file[i]];
    NewlinesAppend(p, file[i]);
    if file[i] == LF {
      LineStartAppend(p, LF, Newlines(p) + 2);
      LineStartOfPrefix(file, i + 1, Newlines(p) + 2);
    }
  }

  lemma NewlinesTotal(file: seq<byte>)
    requires file != []
    ensures TotalLines(file) == Newlines(file) + (if file[|file| - 1] == LF then 0 else 1) >= 1
  {
  }

  /** The collected starts are the starts of the last lines of the file. */
  lemma CollectedStarts(file: seq<byte>, windowStart: nat, starts: seq<nat>)
    requires windowStart < |file|
    requires starts == StartsIn(file[windowStart..], windowStart == 0, |file| - windowStart)
    ensures FirstLineIn(file, windowStart) + |starts| == TotalLines(file) + 1
    ensures AreLineStarts(file, windowStart, starts)
  {
    StartsAreLineStarts(file, windowStart, |file| - windowStart);
    assert file[..|file|] == file;
    NewlinesTotal(file);
  }

  /** Which collected start the request selects, when its lines begin in the window. */
  lemma SelectedStart(file: seq<byte>, windowStart: nat, starts: seq<nat>, n: nat)
    requires n >= 1 && windowStart < |file|
    requires starts == StartsIn(file[windowStart..], windowStart == 0, |file| - windowStart)
    requires windowStart == 0 || LineStart(file, FirstOfLast(file, n)) > windowStart
    ensures var index := if |starts| > n then |starts| - n else 0;
            && |starts| > 0
            && FirstLineIn(file, windowStart) + index == FirstOfLast(file, n)
            && windowStart + starts[index] == LineStart(file, FirstOfLast(file, n))
  {
    CollectedStarts(file, windowStart, starts);
    NewlinesTotal(file);
    var f := FirstOfLast(file, n);
    if windowStart > 0 {
      LineBegun(file, windowStart, f);
    }
  }

  /** A line that fits the budget begins after the trimmed window does. */
  lemma FittingLineInWindow(file: seq<byte>, k: nat, w0: nat, trimmed: nat)
    requires Valid(file) && w0 + trimmed < |file| && w0 > 0
    requires forall j :: w0 <= j < w0 + trimmed ==> Tail(file[j])
    requires k >= 1 && w0 < LineStart(file, k) < |file|
    ensures w0 + trimmed < LineStart(file, k)
  {
    var s := LineStart(file, k);
    assert k > 1;
    LineStartFollowsNewline(file, k);
    assert !Tail(file[s - 1]);
  }
}
