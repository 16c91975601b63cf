/** The end of a tail scan: the last lines of a file, or as much of its end as the
    budget admits. */
module FileTail {
  import opened Utf8
  import opened TextSearch
  import opened Lines
  import opened FileScan

  /** Where the last n lines begin. */
  ghost function Wanted(file: seq<byte>, n: nat): (i: nat)
    ensures i <= |file|
  {
    LineStart(file, FirstOfLast(file, n))
  }

  predicate Fits(file: seq<byte>, start: nat) {
    |file| - start <= MAX_FILE_READ_BYTES
  }

  /** Line k is the first line from which on the file fits the budget. */
  ghost predicate FirstToFit(file: seq<byte>, k: nat) {
    k > 1 && LineStart(file, k) < |file| && Fits(file, LineStart(file, k)) && !Fits(file, LineStart(file, k - 1))
  }

  /** The first rune boundary from which on the file fits the budget. */
  ghost predicate CutToBudget(file: seq<byte>, start: nat) {
    && |file| > MAX_FILE_READ_BYTES && start < |file|
    && |file| - MAX_FILE_READ_BYTES <= start <= |file| - MAX_FILE_READ_BYTES + 3
    && Valid(file[..start])
    && forall j :: |file| - MAX_FILE_READ_BYTES <= j < start ==> !Valid(file[..j])
  }

  /** Where a tail read of n lines must begin, and in which line. */
  ghost predicate TailBegins(file: seq<byte>, n: nat, start: nat, line: int) {
    if Fits(file, Wanted(file, n)) then start == Wanted(file, n) && line == FirstOfLast(file, n)
    else if |file| > MAX_FILE_READ_BYTES + 1 && Fits(file, LineStart(file, TotalLines(file))) then
      line >= 0 && FirstToFit(file, line) && start == LineStart(file, line)
    else CutToBudget(file, start) && line == if |file| > MAX_FILE_READ_BYTES + 1 then TotalLines(file) else 1
  }

  /** What a tail read of n lines must return. */
  ghost predicate TailResult(file: seq<byte>, n: nat, scan: Scan) {
    if file == [] then scan == Scan([], 0, 0, 0, false)
    else
      && 0 <= scan.startOffset < |file| && scan.endOffset == |file|
      && scan.content == file[scan.startOffset..] && |scan.content| <= MAX_FILE_READ_BYTES
      && Valid(file[..scan.startOffset])
      && TailBegins(file, n, scan.startOffset, scan.lineStart)
      && (scan.bounded <==> |file| > MAX_FILE_READ_BYTES + 1 || !Fits(file, Wanted(file, n)))
  }

  lemma FirstToFitIsUnique(file: seq<byte>, j: nat, k: nat)
    requires FirstToFit(file, j) && FirstToFit(file, k)
    ensures j == k
  {
    hide LineStart;
    if j < k {
      LineStartsOrdered(file, j, k - 1);
    } else if k < j {
      LineStartsOrdered(file, k, j - 1);
    }
  }

  /** There is only one right answer to a tail read. */
  lemma TailIsDetermined(file: seq<byte>, n: nat, a: Scan, b: Scan)
    requires TailResult(file, n, a) && TailResult(file, n, b)
    ensures a == b
  {
    hide Valid, FirstToFit, FirstOfLast, TotalLines, LineStart;
    if file != [] && FirstToFit(file, a.lineStart) && FirstToFit(file, b.lineStart) {
      FirstToFitIsUnique(file, a.lineStart, b.lineStart);
    }
  }

  /** The window of a file, without the continuation bytes it may begin with. */
  ghost predicate Window(file: seq<byte>, windowStart: nat) {
    var w0 := |file| - (MAX_FILE_READ_BYTES + 1);
    && windowStart < |file| && Valid(file[..windowStart])
    && (w0 <= 0 ==> windowStart == 0)
    && (w0 > 0 ==> w0 <= windowStart <= w0 + 3 && forall j :: w0 <= j < windowStart ==> Tail(file[j]))
  }

  /** finishTailScan: from the bounded window at the end of a validated file. */
  method FinishTailScan(window0: seq<byte>, bounded0: bool, size: nat, lines: nat, lastWasNewline: bool, n: nat,
                        ghost file: seq<byte>)
    returns (scan: Scan)
    requires Valid(file) && n >= 1 && size == |file|
    requires TailScanOf(TailScan(window0, bounded0, lines, lastWasNewline), file)
    ensures TailResult(file, n, scan)
  {
    hide Valid, TailBegins;
    if size == 0 {
      return Scan([], 0, 0, 0, bounded0);
    }
    var totalLines := if lastWasNewline then lines - 1 else lines;
    NewlinesTotal(file);
    var window, windowStart, bounded := TrimWindow(window0, size - |window0|, bounded0, file);
    var starts := CollectStarts(window, windowStart);
    scan := SelectTailStart(file, window, windowStart, bounded, totalLines, n, starts);
  }

  /** A window that does not begin the file may begin inside a rune. */
  method TrimWindow(window0: seq<byte>, windowStart0: nat, bounded0: bool, ghost file: seq<byte>)
    returns (window: seq<byte>, windowStart: nat, bounded: bool)
    requires Valid(file) && file != []
    requires windowStart0 == Max(0, |file| - (MAX_FILE_READ_BYTES + 1)) && window0 == file[windowStart0..]
    requires bounded0 <==> windowStart0 > 0
    ensures Window(file, windowStart) && window == file[windowStart..]
    ensures bounded == bounded0
  {
    window, windowStart, bounded := window0, windowStart0, bounded0;
    if windowStart > 0 {
      var trimmed := TrimContinuation(window);
      TrimIsShort(file, windowStart, window, trimmed);
      if trimmed > 0 {
        window := window[trimmed..];
        windowStart := windowStart + trimmed;
        bounded := true;
      }
    } else {
      assert file[..0] == [];
    }
  }

  /** The trim stops at a rune start inside the window. */
  lemma TrimIsShort(file: seq<byte>, windowStart: nat, window: seq<byte>, trimmed: nat)
    requires Valid(file) && windowStart + 4 < |file| && window == file[windowStart..]
    requires trimmed <= UTF_MAX && forall j :: 0 <= j < trimmed ==> Tail(window[j])
    requires trimmed < UTF_MAX ==> !Tail(window[trimmed])
    ensures trimmed <= 3 && Valid(file[..windowStart + trimmed])
    ensures forall j :: windowStart <= j < windowStart + trimmed ==> Tail(file[j])
  {
    hide Valid;
    var k := RuneStartNear(file, windowStart);
    assert file[windowStart + k] == window[k];
    forall j | windowStart <= j < windowStart + trimmed
      ensures Tail(file[j])
    {
      assert file[j] == window[j - windowStart];
    }
    Boundary(file, windowStart + trimmed);
  }

  /** Choose the line to start from, then cut the front if the lines exceed the budget. */
  method SelectTailStart(ghost file: seq<byte>, window: seq<byte>, windowStart: nat, bounded0: bool, totalLines: nat,
                         n: nat, starts0: seq<nat>)
    returns (scan: Scan)
    requires Valid(file) && n >= 1 && totalLines == TotalLines(file)
    requires Window(file, windowStart) && window == file[windowStart..]
    requires bounded0 <==> |file| > MAX_FILE_READ_BYTES + 1
    requires starts0 == StartsIn(window, windowStart == 0, |window|)
    ensures TailResult(file, n, scan)
  {
    hide Valid, StartsIn, Chosen, TailBegins, CutToBudget, FirstOfLast, LineStart, TotalLines;
    var starts, bounded := starts0, bounded0;
    if |starts| == 0 {
      starts := [0];
      bounded := bounded || windowStart > 0;
    }
    var startIndex := if |starts| > n then |starts| - n else 0;
    var contentStart := starts[startIndex];
    var startOffset := windowStart + contentStart;
    var lineStart: int := totalLines - (|starts| - startIndex) + 1;
    RightStart(file, windowStart, starts0, n);
    if lineStart < 1 {
      lineStart := 1;
    }
    var content := window[contentStart..];
    assert content == file[startOffset..];
    scan := CutTail(file, startOffset, content, lineStart, bounded, |window| + windowStart);
    RightTail(file, windowStart, n, startOffset, lineStart, scan.startOffset);
  }

  /** Drop the prefix of content that exceeds the budget. */
  method CutTail(ghost file: seq<byte>, startOffset: nat, content: seq<byte>, lineStart: int, bounded: bool, size: nat)
    returns (scan: Scan)
    requires Valid(file) && size == |file| && startOffset < size && content == file[startOffset..]
    requires Valid(file[..startOffset])
    ensures 0 <= scan.startOffset < |file| && scan.endOffset == size && scan.lineStart == lineStart
    ensures scan.content == file[scan.startOffset..] && Fits(file, scan.startOffset)
    ensures Valid(file[..scan.startOffset])
    ensures if Fits(file, startOffset) then scan.startOffset == startOffset && scan.bounded == bounded
            else CutToBudget(file, scan.startOffset) && scan.bounded
  {
    if |content| > MAX_FILE_READ_BYTES {
      var trimmed := CutFront(file, startOffset, content);
      return Scan(content[trimmed..], startOffset + trimmed, size, lineStart, true);
    }
    return Scan(content, startOffset, size, lineStart, bounded);
  }

  /** Keep the end of the content: advance to the first rune start within budget. */
  method CutFront(ghost file: seq<byte>, startOffset: nat, content: seq<byte>) returns (trimmed: nat)
    requires startOffset <= |file| && content == file[startOffset..] && Valid(file)
    requires |content| > MAX_FILE_READ_BYTES
    ensures trimmed < |content| && CutToBudget(file, startOffset + trimmed)
  {
    hide Valid;
    trimmed := |content| - MAX_FILE_READ_BYTES;
    while trimmed < |content| && Tail(content[trimmed])
      invariant |content| - MAX_FILE_READ_BYTES <= trimmed <= |content|
      invariant forall j :: |file| - MAX_FILE_READ_BYTES <= j < startOffset + trimmed ==> Tail(file[j])
    {
      assert file[startOffset + trimmed] == content[trimmed];
      trimmed := trimmed + 1;
    }
    assert trimmed < |content| ==> file[startOffset + trimmed] == content[trimmed];
    FirstBoundary(file, |file| - MAX_FILE_READ_BYTES, startOffset + trimmed);
  }

  /** In valid text the first byte that continues no rune is near, and is the first
      boundary. */
  lemma FirstBoundary(file: seq<byte>, lo: nat, i: nat)
    requires Valid(file) && lo + 3 < |file| && lo <= i <= |file|
    requires forall j :: lo <= j < i ==> Tail(file[j])
    requires i < |file| ==> !Tail(file[i])
    ensures i <= lo + 3 && Valid(file[..i])
    ensures forall j :: lo <= j < i ==> !Valid(file[..j])
  {
    hide Valid;
    var k := RuneStartNear(file, lo);
    assert i <= lo + k;
    Boundary(file, i);
    forall j | lo <= j < i
      ensures !Valid(file[..j])
    {
      Boundary(file, j);
    }
  }

  /** What the choice among the collected starts comes to: the wanted line; the first
      line to fit; or the window, inside the last line. */
  ghost predicate Chosen(file: seq<byte>, windowStart: nat, n: nat, start: nat, line: int) {
    || (start == Wanted(file, n) && line == FirstOfLast(file, n)
        && (Fits(file, start) || (windowStart == 0 && |file| == MAX_FILE_READ_BYTES + 1 && line == 1)))
    || (|file| > MAX_FILE_READ_BYTES + 1 && !Fits(file, Wanted(file, n)) &&
        if Fits(file, LineStart(file, TotalLines(file))) then
          line >= 0 && FirstToFit(file, line) && start == LineStart(file, line)
        else start == windowStart && line == TotalLines(file))
  }

  lemma RightTail(file: seq<byte>, windowStart: nat, n: nat, start: nat, line: int, end: nat)
    requires Valid(file) && Window(file, windowStart) && Chosen(file, windowStart, n, start, line)
    requires if Fits(file, start) then end == start else CutToBudget(file, end)
    ensures TailBegins(file, n, end, line)
    ensures |file| > MAX_FILE_READ_BYTES + 1 || (Fits(file, Wanted(file, n)) <==> Fits(file, start))
  {
    hide Valid, FirstOfLast, LineStart, TotalLines;
    if start == windowStart && Fits(file, start) && |file| > MAX_FILE_READ_BYTES + 1 {
      WindowIsCut(file, windowStart);
    }
  }

  /** A window that is short enough was trimmed, to the first boundary that fits. */
  lemma WindowIsCut(file: seq<byte>, windowStart: nat)
    requires Valid(file) && Window(file, windowStart) && windowStart > 0 && Fits(file, windowStart)
    ensures CutToBudget(file, windowStart)
  {
    hide Valid;
    forall j | |file| - MAX_FILE_READ_BYTES <= j < windowStart
      ensures !Valid(file[..j])
    {
      Boundary(file, j);
    }
  }

  /** There is always a last line to want. */
  lemma WantedInFile(file: seq<byte>, n: nat)
    requires file != [] && n >= 1
    ensures Wanted(file, n) < |file|
  {
    NewlinesTotal(file);
    var i := |file| - 1;
    assert file[..i + 1] == file;
    NextLineStart(file, i);
    LineBegun(file, i, FirstOfLast(file, n));
  }

  /** A line that begins in the window as it was before the trim fits the budget, and
      begins in the trimmed window. */
  lemma LineInWindow(file: seq<byte>, windowStart: nat, k: nat)
    requires Valid(file) && Window(file, windowStart) && windowStart > 0 && k >= 1 && LineStart(file, k) < |file|
    ensures Fits(file, LineStart(file, k)) <==> LineStart(file, k) > windowStart
  {
    hide Valid, LineStart;
    var w0 := |file| - (MAX_FILE_READ_BYTES + 1);
    if LineStart(file, k) > w0 {
      FittingLineInWindow(file, k, w0, windowStart - w0);
    }
  }

  /** The choice is right. */
  lemma RightStart(file: seq<byte>, windowStart: nat, starts0: seq<nat>, n: nat)
    requires Valid(file) && n >= 1 && Window(file, windowStart)
    requires starts0 == StartsIn(file[windowStart..], windowStart == 0, |file| - windowStart)
    ensures var starts := if |starts0| == 0 then [0] else starts0;
            var index := if |starts| > n then |starts| - n else 0;
            var start := windowStart + starts[index];
            var line := TotalLines(file) - (|starts| - index) + 1;
            && start < |file| && Valid(file[..start]) && line >= 1
            && Chosen(file, windowStart, n, start, line)
  {
    hide StartsIn, LineStart, FirstLineIn, Newlines, Valid, TotalLines, FirstOfLast, Chosen;
    WantedInFile(file, n);
    if windowStart == 0 || Wanted(file, n) > windowStart {
      WantedStart(file, windowStart, starts0, n);
    } else if starts0 != [] {
      FirstStart(file, windowStart, starts0, n);
    } else {
      NoStart(file, windowStart, starts0, n);
    }
  }

  lemma WantedStart(file: seq<byte>, windowStart: nat, starts0: seq<nat>, n: nat)
    requires Valid(file) && n >= 1 && Window(file, windowStart)
    requires starts0 == StartsIn(file[windowStart..], windowStart == 0, |file| - windowStart)
    requires windowStart == 0 || Wanted(file, n) > windowStart
    ensures starts0 != []
    ensures var index := if |starts0| > n then |starts0| - n else 0;
            var start := windowStart + starts0[index];
            && start < |file| && Valid(file[..start])
            && TotalLines(file) - (|starts0| - index) + 1 >= 1
            && Chosen(file, windowStart, n, start, TotalLines(file) - (|starts0| - index) + 1)
  {
    hide StartsIn, LineStart, FirstLineIn, Newlines, Valid, TotalLines;
    WantedInFile(file, n);
    CollectedStarts(file, windowStart, starts0);
    SelectedStart(file, windowStart, starts0, n);
    LineStartOnBoundary(file, FirstOfLast(file, n));
    if windowStart > 0 {
      LineInWindow(file, windowStart, FirstOfLast(file, n));
    } else if !Fits(file, Wanted(file, n)) {
      AtFileStart(file, FirstOfLast(file, n));
    }
  }

  lemma AtFileStart(file: seq<byte>, k: nat)
    requires file != [] && k >= 1 && LineStart(file, k) == 0
    ensures k == 1
  {
    hide LineStart, Newlines;
    if k > 1 {
      LineStartFollowsNewline(file, k);
    }
  }

  /** The wanted line begins before the window, and some line in it. */
  lemma FirstStart(file: seq<byte>, windowStart: nat, starts0: seq<nat>, n: nat)
    requires Valid(file) && n >= 1 && Window(file, windowStart) && windowStart > 0 && Wanted(file, n) <= windowStart
    requires starts0 == StartsIn(file[windowStart..], false, |file| - windowStart) && starts0 != []
    ensures |starts0| <= n
    ensures var start := windowStart + starts0[0];
            && start < |file| && Valid(file[..start])
            && TotalLines(file) - |starts0| + 1 >= 1
            && Chosen(file, windowStart, n, start, TotalLines(file) - |starts0| + 1)
  {
    hide StartsIn, LineStart, Newlines, Valid, TotalLines, FirstOfLast;
    var k := FirstLineIn(file, windowStart);
    CollectedStarts(file, windowStart, starts0);
    assert windowStart + starts0[0] == LineStart(file, k + 0);
    LineStartOnBoundary(file, k);
    LineBegun(file, windowStart, k);
    LineBegun(file, windowStart, k - 1);
    LineInWindow(file, windowStart, k);
    LineInWindow(file, windowStart, k - 1);
    WantedBefore(file, windowStart, n);
    LineStartsOrdered(file, k, TotalLines(file));
  }

  /** No line begins in the window. */
  lemma NoStart(file: seq<byte>, windowStart: nat, starts0: seq<nat>, n: nat)
    requires Valid(file) && n >= 1 && Window(file, windowStart) && windowStart > 0 && Wanted(file, n) <= windowStart
    requires starts0 == StartsIn(file[windowStart..], false, |file| - windowStart) && starts0 == []
    ensures TotalLines(file) >= 1 && Chosen(file, windowStart, n, windowStart, TotalLines(file))
  {
    hide StartsIn, LineStart, Newlines, Valid, FirstOfLast, FirstToFit;
    CollectedStarts(file, windowStart, starts0);
    NewlinesTotal(file);
    LineBegun(file, windowStart, TotalLines(file));
    LineInWindow(file, windowStart, TotalLines(file));
    WantedBefore(file, windowStart, n);
  }

  lemma WantedBefore(file: seq<byte>, windowStart: nat, n: nat)
    requires Valid(file) && n >= 1 && Window(file, windowStart) && windowStart > 0 && Wanted(file, n) <= windowStart
    ensures !Fits(file, Wanted(file, n)) && FirstOfLast(file, n) < FirstLineIn(file, windowStart)
    ensures TotalLines(file) < FirstOfLast(file, n) + n
  {
    hide LineStart, Newlines, Valid;
    LineInWindow(file, windowStart, FirstOfLast(file, n));
    LineBegun(file, windowStart, FirstOfLast(file, n));
  }

  // ----- The line number of the answer -----

  /** The file is one byte over the budget, begins with a newline and is wanted whole:
      the cut then drops a line that the line number does not account for. */
  predicate DropsFirstLine(file: seq<byte>, n: nat) {
    |file| == MAX_FILE_READ_BYTES + 1 && file[0] == LF && TotalLines(file) <= n
  }

  /** The line number is that of the line in which the content begins, but for that one
      kind of file. */
  lemma TailLineIsRight(file: seq<byte>, n: nat, scan: Scan)
    requires Valid(file) && file != [] && n >= 1 && TailResult(file, n, scan)
    ensures scan.lineStart == Newlines(file[..scan.startOffset]) + 1 <==> !DropsFirstLine(file, n)
  {
    hide Valid, Newlines, LineStart, TotalLines, CutToBudget;
    WantedInFile(file, n);
    if Fits(file, Wanted(file, n)) {
      LineOfItsStart(file, FirstOfLast(file, n));
      FirstLineStart(file);
    } else if |file| > MAX_FILE_READ_BYTES + 1 {
      if Fits(file, LineStart(file, TotalLines(file))) {
        LineOfItsStart(file, scan.lineStart);
      } else {
        InLastLine(file, scan.startOffset);
      }
    } else {
      AtFileStart(file, FirstOfLast(file, n));
      InFirstLine(file, scan.startOffset);
    }
  }

  lemma LineOfItsStart(file: seq<byte>, k: nat)
    requires k >= 1 && LineStart(file, k) < |file|
    ensures Newlines(file[..LineStart(file, k)]) + 1 == k
  {
    hide LineStart, Newlines;
    if k > 1 {
      LineStartFollowsNewline(file, k);
    } else {
      FirstLineStart(file);
      NoNewlines([]);
    }
  }

  /** No newline but a final one follows the start of the last line. */
  lemma InLastLine(file: seq<byte>, start: nat)
    requires file != [] && LineStart(file, TotalLines(file)) <= start < |file|
    ensures Newlines(file[..start]) + 1 == TotalLines(file)
  {
    hide LineStart, Newlines;
    NewlinesTotal(file);
    LineBegun(file, start, TotalLines(file));
    LineBegun(file, start, TotalLines(file) + 1);
    NoLineAfterLast(file);
  }

  lemma NoLineAfterLast(file: seq<byte>)
    requires file != []
    ensures LineStart(file, TotalLines(file) + 1) == |file|
  {
    NewlinesTotal(file);
  }

  /** The bytes up to the second boundary are one rune. */
  lemma InFirstLine(file: seq<byte>, start: nat)
    requires Valid(file) && |file| == MAX_FILE_READ_BYTES + 1 && CutToBudget(file, start)
    ensures Newlines(file[..start]) == 0 <==> file[0] != LF
  {
    hide Valid, Newlines;
    forall j | 1 <= j < start
      ensures file[j] != LF
    {
      Boundary(file, j);
    }
    var p := file[..start];
    if file[0] == LF {
      assert p == p[..1] + p[1..] && p[..1] == [] + [LF];
      NewlinesConcat(p[..1], p[1..]);
      NewlinesAppend([], LF);
    } else {
      NoNewlines(p);
    }
  }

  lemma {:induction false} NoNewlines(p: seq<byte>)
    requires forall j :: 0 <= j < |p| ==> p[j] != LF
    ensures Newlines(p) == 0
  {
    if p != [] {
      NoNewlines(p[..|p| - 1]);
    }
  }

  function Letters(n: nat): (s: seq<byte>) {
    if n == 0 then [] else [0x61] + Letters(n - 1)
  }

  lemma {:induction false} LettersAreOneLine(n: nat)
    ensures |Letters(n)| == n && Valid(Letters(n)) && forall i :: 0 <= i < n ==> Letters(n)[i] == 0x61
  {
    if n > 0 {
      LettersAreOneLine(n - 1);
      assert Letters(n)[1..] == Letters(n - 1);
    }
  }

  /** An empty line and a line of exactly the budget: the answer to a request for the
      last two lines or more is the second line, and calls it the first. */
  lemma ATailNamesTheWrongLine(n: nat)
    requires n >= 2
    ensures var line := Letters(MAX_FILE_READ_BYTES);
            var file := [LF] + line;
            && Valid(file) && DropsFirstLine(file, n)
            && LineStart(file, 2) == 1
            && TailResult(file, n, Scan(line, 1, |file|, 1, true))
  {
    hide Valid, Newlines, LineStart, Letters;
    var line := Letters(MAX_FILE_READ_BYTES);
    LettersAreOneLine(MAX_FILE_READ_BYTES);
    TwoLines(line);
    FirstLineStart([LF] + line);
    assert ([LF] + line)[1..] == line;
  }

  /** A newline before text without one. */
  lemma TwoLines(line: seq<byte>)
    requires Valid(line) && line != [] && forall i :: 0 <= i < |line| ==> line[i] != LF
    ensures var file := [LF] + line;
            Valid(file) && Valid(file[..1]) && TotalLines(file) == 2 && LineStart(file, 2) == 1
  {
    hide Valid, Newlines, LineStart;
    var file := [LF] + line;
    assert file[..1] == [LF];
    OneNewline();
    ValidAppend([LF], line);
    NewlinesConcat([LF], line);
    NoNewlines(line);
    NewlinesTotal(file);
    assert file[..0] == [];
    NextLineStart(file, 0);
    NoNewlines([]);
  }

  lemma OneNewline()
    ensures Valid([LF]) && Newlines([LF]) == 1
  {
    assert [LF][1..] == [] && [LF][..0] == [];
  }
}
