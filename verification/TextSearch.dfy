/** The byte searches the editor uses from the standard library of Go, and the
    newline normalisation it builds on them. */
module TextSearch {
  import opened Utf8

  const LF: byte := 10
  const CR: byte := 13
  const NEWLINE_LF: seq<byte> := [LF]
  const NEWLINE_CRLF: seq<byte> := [CR, LF]

  predicate MatchesAt(s: seq<byte>, p: seq<byte>, i: nat) {
    i + |p| <= |s| && s[i..i + |p|] == p
  }

  /** bytes.Index: the leftmost match, or -1. */
  function Index(s: seq<byte>, p: seq<byte>): (i: int)
    requires p != []
    ensures i >= -1
    ensures i >= 0 ==> i + |p| <= |s| && MatchesAt(s, p, i)
    ensures forall j: nat :: MatchesAt(s, p, j) ==> 0 <= i <= j
  {
    if |s| < |p| then -1
    else if s[..|p|] == p then 0
    else
      MatchesShift(s, p);
      var rest := Index(s[1..], p);
      if rest < 0 then -1 else rest + 1
  }

  /** Matches after the first byte are the matches of the rest. */
  lemma MatchesShift(s: seq<byte>, p: seq<byte>)
    requires p != [] && s != []
    ensures forall j: nat :: j > 0 && MatchesAt(s, p, j) ==> MatchesAt(s[1..], p, j - 1)
    ensures forall j: nat :: MatchesAt(s[1..], p, j) ==> MatchesAt(s, p, j + 1)
    ensures MatchesAt(s, p, 0) <==> |p| <= |s| && s[..|p|] == p
  {
    forall j: nat | j > 0 && MatchesAt(s, p, j)
      ensures MatchesAt(s[1..], p, j - 1)
    {
      assert s[1..][j - 1..j - 1 + |p|] == s[j..j + |p|];
    }
    forall j: nat | MatchesAt(s[1..], p, j)
      ensures MatchesAt(s, p, j + 1)
    {
      assert s[1..][j..j + |p|] == s[j + 1..j + 1 + |p|];
    }
    assert |p| <= |s| ==> s[0..0 + |p|] == s[..|p|];
  }

  /** bytes.Count: matches taken from the left, none overlapping the one before. */
  function Count(s: seq<byte>, p: seq<byte>): (n: nat)
    requires p != []
    decreases |s|
  {
    var i := Index(s, p);
    if i < 0 then 0 else 1 + Count(s[i + |p|..], p)
  }

  /** Matches from offset k on are the matches of the rest. */
  lemma MatchesAfter(s: seq<byte>, p: seq<byte>, k: nat)
    requires p != [] && k <= |s|
    ensures Index(s[k..], p) < 0 <==> forall j: nat :: MatchesAt(s, p, j) ==> j < k
  {
    var r := Index(s[k..], p);
    if r >= 0 {
      assert s[k + r..k + r + |p|] == s[k..][r..r + |p|];
      assert MatchesAt(s, p, k + r);
    }
    forall j: nat | j >= k && MatchesAt(s, p, j)
      ensures MatchesAt(s[k..], p, j - k)
    {
      assert s[k..][j - k..j - k + |p|] == s[j..j + |p|];
    }
  }

  /** What "exactly one" means to the editor: a leftmost match with no match that
      starts at or after its end. A match overlapping it goes unnoticed. */
  lemma CountIsOne(s: seq<byte>, p: seq<byte>)
    requires p != []
    ensures Count(s, p) == 1 <==>
            var i := Index(s, p);
            i >= 0 && forall j: nat :: MatchesAt(s, p, j) ==> i <= j < i + |p|
  {
    hide Index;
    var i := Index(s, p);
    if i >= 0 {
      MatchesAfter(s, p, i + |p|);
    }
  }

  /** An overlapping second match does not count: "aa" occurs twice in "aaa". */
  lemma OverlappingMatchIsUnique()
    ensures var a: byte := 97;
            var s, p := [a, a, a], [a, a];
            Count(s, p) == 1 && MatchesAt(s, p, 0) && MatchesAt(s, p, 1)
  {
    var a: byte := 97;
    var s, p := [a, a, a], [a, a];
    assert s[0..2] == p && s[1..3] == p && s[2..] == [a];
    assert Index(s, p) == 0;
    assert Index(s[2..], p) == -1;
  }

  /** strings.ReplaceAll. */
  function ReplaceAll(s: seq<byte>, p: seq<byte>, repl: seq<byte>): (r: seq<byte>)
    requires p != []
    decreases |s|
  {
    var i := Index(s, p);
    if i < 0 then s else s[..i] + repl + ReplaceAll(s[i + |p|..], p, repl)
  }

  /** Index read from the front, one byte at a time. */
  lemma IndexStep(s: seq<byte>, p: seq<byte>)
    requires p != [] && s != []
    ensures MatchesAt(s, p, 0) ==> Index(s, p) == 0
    ensures !MatchesAt(s, p, 0) ==>
              Index(s, p) == if Index(s[1..], p) < 0 then -1 else Index(s[1..], p) + 1
  {
    if MatchesAt(s, p, 0) {
      assert s[..|p|] == s[0..0 + |p|];
    } else if |s| >= |p| {
      assert s[..|p|] == s[0..0 + |p|];
    } else {
      assert |s[1..]| < |p|;
    }
  }

  lemma ReplaceAllStep(s: seq<byte>, p: seq<byte>, repl: seq<byte>)
    requires p != []
    ensures s == [] ==> ReplaceAll(s, p, repl) == []
    ensures MatchesAt(s, p, 0) ==> ReplaceAll(s, p, repl) == repl + ReplaceAll(s[|p|..], p, repl)
    ensures s != [] && !MatchesAt(s, p, 0) ==> ReplaceAll(s, p, repl) == [s[0]] + ReplaceAll(s[1..], p, repl)
  {
    if s != [] {
      IndexStep(s, p);
      if MatchesAt(s, p, 0) {
        assert s[..0] + repl == repl;
      } else {
        ReplaceAllPastFirst(s, p, repl);
      }
    }
  }

  lemma SplitShift(s: seq<byte>, i: nat, j: nat)
    requires 0 < i <= j <= |s|
    ensures s[1..][j - 1..] == s[j..] && s[..i] == [s[0]] + s[1..][..i - 1]
  {
  }

  lemma PrependTwice(x: byte, a: seq<byte>, b: seq<byte>, c: seq<byte>)
    ensures ([x] + a) + b + c == [x] + (a + b + c)
  {
  }

  lemma ReplaceAllPastFirst(s: seq<byte>, p: seq<byte>, repl: seq<byte>)
    requires p != [] && s != []
    requires Index(s, p) == if Index(s[1..], p) < 0 then -1 else Index(s[1..], p) + 1
    ensures ReplaceAll(s, p, repl) == [s[0]] + ReplaceAll(s[1..], p, repl)
  {
    hide MatchesAt, Index;
    var i := Index(s, p);
    if i >= 0 {
      var tail := ReplaceAll(s[i + |p|..], p, repl);
      SplitShift(s, i, i + |p|);
      PrependTwice(s[0], s[1..][..i - 1], repl, tail);
      assert ReplaceAll(s[1..], p, repl) == s[1..][..i - 1] + repl + tail;
    } else {
      assert s == [s[0]] + s[1..];
    }
  }

  lemma TextAppend(a: seq<byte>, b: seq<byte>)
    requires TextOk(a) && TextOk(b)
    ensures TextOk(a + b)
  {
    ValidAppend(a, b);
  }

  /** Text around a match of a text is text. */
  lemma TextAroundMatch(s: seq<byte>, p: seq<byte>, i: nat)
    requires TextOk(s) && Valid(p) && p != [] && MatchesAt(s, p, i)
    ensures TextOk(s[..i]) && TextOk(s[i + |p|..])
  {
    MatchOnBoundaries(s, p, i);
    assert NoNul(s[..i]);
  }

  lemma {:induction false} ReplaceAllKeepsText(s: seq<byte>, p: seq<byte>, repl: seq<byte>)
    requires p != [] && TextOk(s) && Valid(p) && TextOk(repl)
    ensures TextOk(ReplaceAll(s, p, repl))
    decreases |s|
  {
    hide TextOk, MatchesAt;
    var i := Index(s, p);
    if i >= 0 {
      TextAroundMatch(s, p, i);
      ReplaceAllKeepsText(s[i + |p|..], p, repl);
      TextAppend(s[..i], repl);
      TextAppend(s[..i] + repl, ReplaceAll(s[i + |p|..], p, repl));
    }
  }

  /** normalizeNewlines: three replacement passes. */
  function NormalizeNewlines(value: seq<byte>, newline: seq<byte>): (r: seq<byte>) {
    var lf := ReplaceAll(ReplaceAll(value, NEWLINE_CRLF, NEWLINE_LF), [CR], NEWLINE_LF);
    if newline == NEWLINE_CRLF then ReplaceAll(lf, NEWLINE_LF, NEWLINE_CRLF) else lf
  }

  /** dominantNewline: CRLF only if strictly more lines end in CRLF than in a bare LF. */
  function DominantNewline(data: seq<byte>): (r: seq<byte>)
    ensures r == NEWLINE_LF || r == NEWLINE_CRLF
  {
    var crlf := Count(data, NEWLINE_CRLF);
    var lf := Count(data, NEWLINE_LF) - crlf;
    if crlf > lf then NEWLINE_CRLF else NEWLINE_LF
  }

  /** The same normalisation read in one pass: CRLF, a lone CR and a lone LF are
      each one line break. */
  function Unify(value: seq<byte>, newline: seq<byte>): (r: seq<byte>) {
    if value == [] then []
    else if |value| >= 2 && value[0] == CR && value[1] == LF then newline + Unify(value[2..], newline)
    else if value[0] == CR || value[0] == LF then newline + Unify(value[1..], newline)
    else [value[0]] + Unify(value[1..], newline)
  }

  lemma {:induction false} PassesUnifyToLf(value: seq<byte>)
    ensures ReplaceAll(ReplaceAll(value, NEWLINE_CRLF, NEWLINE_LF), [CR], NEWLINE_LF) == Unify(value, NEWLINE_LF)
    decreases |value|
  {
    var first := ReplaceAll(value, NEWLINE_CRLF, NEWLINE_LF);
    ReplaceAllStep(value, NEWLINE_CRLF, NEWLINE_LF);
    ReplaceAllStep(first, [CR], NEWLINE_LF);
    if value != [] {
      var crlf := |value| >= 2 && value[0] == CR && value[1] == LF;
      assert MatchesAt(value, NEWLINE_CRLF, 0) <==> crlf by {
        if |value| >= 2 {
          assert value[0..2] == [value[0], value[1]];
        }
      }
      var rest := if crlf then value[2..] else value[1..];
      PassesUnifyToLf(rest);
      var tail := ReplaceAll(rest, NEWLINE_CRLF, NEWLINE_LF);
      assert first == (if crlf then NEWLINE_LF else [value[0]]) + tail;
      assert first[0..1] == [first[0]];
      assert first[1..] == tail;
    }
  }

  lemma {:induction false} LfPassUnifies(value: seq<byte>)
    ensures ReplaceAll(Unify(value, NEWLINE_LF), NEWLINE_LF, NEWLINE_CRLF) == Unify(value, NEWLINE_CRLF)
    decreases |value|
  {
    var lf := Unify(value, NEWLINE_LF);
    ReplaceAllStep(lf, NEWLINE_LF, NEWLINE_CRLF);
    if value != [] {
      var crlf := |value| >= 2 && value[0] == CR && value[1] == LF;
      var rest := if crlf then value[2..] else value[1..];
      LfPassUnifies(rest);
      assert lf[0..1] == [lf[0]];
      assert lf[1..] == Unify(rest, NEWLINE_LF);
    }
  }

  /** The three passes never interfere: they equal the one-pass reading. */
  lemma NormalizeIsOnePass(value: seq<byte>, newline: seq<byte>)
    requires newline == NEWLINE_LF || newline == NEWLINE_CRLF
    ensures NormalizeNewlines(value, newline) == Unify(value, newline)
  {
    PassesUnifyToLf(value);
    LfPassUnifies(value);
  }

  lemma {:induction false} UnifyIdempotent(value: seq<byte>, newline: seq<byte>)
    requires newline == NEWLINE_LF || newline == NEWLINE_CRLF
    ensures Unify(Unify(value, newline), newline) == Unify(value, newline)
    decreases |value|
  {
    if value != [] {
      var crlf := |value| >= 2 && value[0] == CR && value[1] == LF;
      var rest := if crlf then value[2..] else value[1..];
      UnifyIdempotent(rest, newline);
      var u := Unify(value, newline);
      var head := if value[0] == CR || value[0] == LF then newline else [value[0]];
      assert u == head + Unify(rest, newline);
      assert u[|head|..] == Unify(rest, newline);
    }
  }

  lemma NormalizeTwiceIsOnce(value: seq<byte>, newline: seq<byte>)
    requires newline == NEWLINE_LF || newline == NEWLINE_CRLF
    ensures NormalizeNewlines(NormalizeNewlines(value, newline), newline) == NormalizeNewlines(value, newline)
  {
    NormalizeIsOnePass(value, newline);
    NormalizeIsOnePass(Unify(value, newline), newline);
    UnifyIdempotent(value, newline);
  }

  /** Normalised text is text, and it is empty only if the text was. */
  lemma NormalizeKeepsText(value: seq<byte>, newline: seq<byte>)
    requires TextOk(value) && (newline == NEWLINE_LF || newline == NEWLINE_CRLF)
    ensures TextOk(NormalizeNewlines(value, newline))
    ensures NormalizeNewlines(value, newline) == [] <==> value == []
  {
    AsciiIsText();
    var first := ReplaceAll(value, NEWLINE_CRLF, NEWLINE_LF);
    ReplaceAllKeepsText(value, NEWLINE_CRLF, NEWLINE_LF);
    ReplaceAllKeepsText(first, [CR], NEWLINE_LF);
    var lf := ReplaceAll(first, [CR], NEWLINE_LF);
    ReplaceAllKeepsText(lf, NEWLINE_LF, NEWLINE_CRLF);
    NormalizeIsOnePass(value, newline);
  }

  lemma AsciiIsText()
    ensures TextOk(NEWLINE_LF) && TextOk(NEWLINE_CRLF) && Valid([CR])
  {
    assert NEWLINE_CRLF[1..] == [LF] && NEWLINE_LF[1..] == [] && [CR][1..] == [];
  }
}
