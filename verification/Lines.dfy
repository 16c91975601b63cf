/** Line numbers and line offsets of a byte sequence. */
module Lines {
  import opened Utf8
  import opened TextSearch

  /** Newline bytes in s. */
  function Newlines(s: seq<byte>): (n: nat)
    ensures n <= |s|
  {
    if s == [] then 0 else Newlines(s[..|s| - 1]) + if s[|s| - 1] == LF then 1 else 0
  }

  /** Where line k begins, counting from 1; |s| if s has no line k. */
  function LineStart(s: seq<byte>, k: nat): (i: nat)
    ensures i <= |s|
  {
    if k <= 1 || s == [] then 0
    else if Newlines(s[..|s| - 1]) + 1 >= k then LineStart(s[..|s| - 1], k)
    else |s|
  }

  /** An unterminated last line counts; the empty text after a final newline does not. */
  function TotalLines(s: seq<byte>): (n: nat) {
    Newlines(s) + if s != [] && s[|s| - 1] != LF then 1 else 0
  }

  /** The first of the last n lines. */
  function FirstOfLast(s: seq<byte>, n: nat): (k: nat)
    ensures k >= 1
  {
    if TotalLines(s) > n then TotalLines(s) - n + 1 else 1
  }

  lemma NewlinesAppend(p: seq<byte>, b: byte)
    ensures Newlines(p + [b]) == Newlines(p) + if b == LF then 1 else 0
  {
    assert (p + [b])[..|p|] == p;
  }

  lemma {:induction false} NewlinesConcat(a: seq<byte>, b: seq<byte>)
    ensures Newlines(a + b) == Newlines(a) + Newlines(b)
    decreases |b|
  {
    if b == [] {
      assert a + b == a;
    } else {
      var n := |b| - 1;
      NewlinesConcat(a, b[..n]);
      NewlinesAppend(a + b[..n], b[n]);
      assert a + b == (a + b[..n]) + [b[n]];
    }
  }

  lemma LineStartAppend(p: seq<byte>, b: byte, k: nat)
    ensures LineStart(p + [b], k) ==
            if k <= 1 then 0 else if Newlines(p) + 1 >= k then LineStart(p, k) else |p| + 1
  {
    assert (p + [b])[..|p|] == p;
  }

  lemma FirstLineStart(s: seq<byte>)
    ensures LineStart(s, 1) == 0
  {
  }

  /** A line that has begun before offset i begins at the same place in the whole. */
  lemma {:induction false} LineStartOfPrefix(s: seq<byte>, i: nat, k: nat)
    requires i <= |s|
    ensures k <= 1 || Newlines(s[..i]) + 1 >= k ==> LineStart(s, k) == LineStart(s[..i], k)
    ensures k > 1 && Newlines(s[..i]) + 1 < k ==> LineStart(s[..i], k) == i && LineStart(s, k) >= i
    ensures Newlines(s[..i]) <= Newlines(s)
    decreases |s|
  {
    if i == |s| {
      assert s[..i] == s;
      if k > 1 && s != [] {
        LineStartWithin(s, k);
      }
    } else {
      var init := s[..|s| - 1];
      assert init[..i] == s[..i];
      LineStartOfPrefix(init, i, k);
    }
  }

  lemma {:induction false} LineStartWithin(s: seq<byte>, k: nat)
    ensures k > 1 && Newlines(s) + 1 < k ==> LineStart(s, k) == |s|
  {
  }

  /** Byte i of s lies in line k exactly when i is between the starts of lines k and k + 1. */
  lemma ByteInLine(s: seq<byte>, i: nat, k: nat)
    requires i < |s| && k >= 1
    ensures Newlines(s[..i]) + 1 == k <==> LineStart(s, k) <= i < LineStart(s, k + 1)
  {
    LineBegun(s, i, k);
    LineBegun(s, i, k + 1);
  }

  /** Line k has begun at offset i exactly when k - 1 newlines precede i. */
  lemma LineBegun(s: seq<byte>, i: nat, k: nat)
    requires i < |s| && k >= 1
    ensures LineStart(s, k) <= i <==> Newlines(s[..i]) + 1 >= k
  {
    LineStartOfPrefix(s, i, k);
    if k > 1 && Newlines(s[..i]) + 1 < k {
      assert s[..i + 1][..i] == s[..i];
      LineStartOfPrefix(s, i + 1, k);
      if Newlines(s[..i + 1]) + 1 >= k {
        assert LineStart(s[..i + 1], k) == i + 1;
      }
    }
  }

  /** A line after the first begins just after a newline. */
  lemma {:induction false} LineStartFollowsNewline(s: seq<byte>, k: nat)
    requires k > 1 && LineStart(s, k) < |s|
    ensures LineStart(s, k) > 0 && s[LineStart(s, k) - 1] == LF
    ensures Newlines(s[..LineStart(s, k)]) + 1 == k
    decreases |s|
  {
    var init := s[..|s| - 1];
    if LineStart(init, k) < |init| {
      LineStartFollowsNewline(init, k);
      assert init[..LineStart(s, k)] == s[..LineStart(s, k)];
    } else {
      var n := |init|;
      assert LineStart(s, k) == n && s[..n] == init;
      assert init != [] by {
        assert Newlines(init) + 1 >= k;
      }
      assert Newlines(init[..n - 1]) + 1 < k;
    }
  }

  /** In valid text every line begins on a rune boundary. */
  lemma LineStartOnBoundary(s: seq<byte>, k: nat)
    requires Valid(s)
    ensures Valid(s[..LineStart(s, k)])
  {
    var i := LineStart(s, k);
    if k > 1 && i < |s| {
      LineStartFollowsNewline(s, k);
      Boundary(s, i - 1);
      ValidSplit(s, i - 1);
      assert RuneLength(s[i - 1..]) == 1;
      assert s[i - 1..][1..] == s[i..];
      Boundary(s, i);
    } else if i == |s| {
      assert s[..i] == s;
    }
  }

  // ----- How many lines a part of a text has -----

  /** After the start of line k there are the lines from k on. */
  lemma LinesFrom(s: seq<byte>, k: nat)
    requires k >= 1 && LineStart(s, k) < |s|
    ensures TotalLines(s[LineStart(s, k)..]) == TotalLines(s) - (k - 1)
  {
    hide LineStart, Newlines;
    var i := LineStart(s, k);
    assert s == s[..i] + s[i..];
    NewlinesConcat(s[..i], s[i..]);
    assert s[i..][|s[i..]| - 1] == s[|s| - 1];
    if k > 1 {
      LineStartFollowsNewline(s, k);
    } else {
      FirstLineStart(s);
      NoNewlineInNothing();
    }
  }

  lemma NoNewlineInNothing()
    ensures Newlines([]) == 0
  {
  }

  /** A line that is there begins in the text, and the one after the last at its end. */
  lemma LineExists(s: seq<byte>, k: nat)
    requires k >= 1 && s != []
    ensures LineStart(s, k) < |s| <==> k <= TotalLines(s)
  {
    hide LineStart, Newlines;
    var i := |s| - 1;
    assert s == s[..i] + [s[i]];
    NewlinesAppend(s[..i], s[i]);
    LineBegun(s, i, k);
  }

  /** The last n lines are n lines, or all there are. */
  lemma LastLines(s: seq<byte>, n: nat)
    requires s != [] && n >= 1
    ensures LineStart(s, FirstOfLast(s, n)) < |s|
    ensures TotalLines(s[LineStart(s, FirstOfLast(s, n))..]) == if TotalLines(s) < n then TotalLines(s) else n
  {
    hide LineStart, Newlines;
    LinesAreSome(s);
    LineExists(s, FirstOfLast(s, n));
    LinesFrom(s, FirstOfLast(s, n));
  }

  lemma LinesAreSome(s: seq<byte>)
    requires s != []
    ensures TotalLines(s) >= 1
  {
  }
}
