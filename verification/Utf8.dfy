/** UTF-8 as section 4 of RFC 3629 defines it, and the three facts every loop of
    the text engine rests on: validity splits at rune boundaries, a boundary is
    any byte that is not a continuation byte, and some boundary lies within three
    bytes before every position. */
module Utf8 {
  type byte = b: int | 0 <= b < 256

  const UTF_MAX := 4

  // UTF8-tail = %x80-BF
  predicate Tail(b: byte) {
    0x80 <= b <= 0xBF
  }

  /** The second-byte ranges of UTF8-2, UTF8-3 and UTF8-4. */
  predicate SecondByte(lead: byte, b: byte) {
    if lead == 0xE0 then 0xA0 <= b <= 0xBF
    else if lead == 0xED then 0x80 <= b <= 0x9F
    else if lead == 0xF0 then 0x90 <= b <= 0xBF
    else if lead == 0xF4 then 0x80 <= b <= 0x8F
    else Tail(b)
  }

  /** How long a rune starting with this byte is; 0 if none starts with it. */
  function LeadLength(b: byte): (n: nat) {
    if b <= 0x7F then 1
    else if 0xC2 <= b <= 0xDF then 2
    else if 0xE0 <= b <= 0xEF then 3
    else if 0xF0 <= b <= 0xF4 then 4
    else 0
  }

  /** The length of the UTF8-char at the front of s, or 0 if there is none. */
  function RuneLength(s: seq<byte>): (n: nat)
    ensures n <= |s| && n <= UTF_MAX
    ensures n > 0 ==> !Tail(s[0]) && forall i :: 0 < i < n ==> Tail(s[i])
  {
    if s == [] then 0
    else
      var n := LeadLength(s[0]);
      if |s| < n then 0
      else if n >= 2 && !SecondByte(s[0], s[1]) then 0
      else if n >= 3 && !Tail(s[2]) then 0
      else if n == 4 && !Tail(s[3]) then 0
      else n
  }

  /** UTF8-octets = *( UTF8-char ) */
  predicate Valid(s: seq<byte>) {
    s == [] || (RuneLength(s) > 0 && Valid(s[RuneLength(s)..]))
  }

  predicate NoNul(s: seq<byte>) {
    forall i :: 0 <= i < |s| ==> s[i] != 0
  }

  /** Text the node is willing to read or edit. */
  predicate TextOk(s: seq<byte>) {
    NoNul(s) && Valid(s)
  }

  lemma RuneLengthOfPrefix(s: seq<byte>, i: nat)
    requires i <= |s|
    ensures RuneLength(s[..i]) == if RuneLength(s) <= i then RuneLength(s) else 0
  {
  }

  /** After a valid prefix, the whole is valid exactly when the rest is. */
  lemma {:induction false} ValidAppend(a: seq<byte>, b: seq<byte>)
    requires Valid(a)
    ensures Valid(a + b) <==> Valid(b)
  {
    if a == [] {
      assert a + b == b;
    } else {
      var n := RuneLength(a);
      RuneLengthOfPrefix(a + b, |a|);
      assert (a + b)[..|a|] == a;
      assert (a + b)[n..] == a[n..] + b;
      ValidAppend(a[n..], b);
    }
  }

  lemma ValidSplit(s: seq<byte>, i: nat)
    requires i <= |s| && Valid(s[..i])
    ensures Valid(s) <==> Valid(s[i..])
  {
    assert s[..i] + s[i..] == s;
    ValidAppend(s[..i], s[i..]);
  }

  /** Self-synchronisation: in valid text the valid prefixes are exactly those
      that end at a byte which does not continue a rune. */
  lemma {:induction false} Boundary(s: seq<byte>, i: nat)
    requires Valid(s) && i <= |s|
    ensures Valid(s[..i]) <==> (i == |s| || !Tail(s[i]))
  {
    if s == [] {
    } else {
      var n := RuneLength(s);
      RuneLengthOfPrefix(s, i);
      if 0 < i < n {
        assert RuneLength(s[..i]) == 0;
      } else if n <= i {
        assert s[..i][n..] == s[n..][..i - n];
        Boundary(s[n..], i - n);
      }
    }
  }

  /** The longest valid prefix that is no longer than n. */
  function Floor(s: seq<byte>, n: nat): (m: nat)
    requires n <= |s|
    ensures m <= n && Valid(s[..m])
    ensures forall j :: m < j <= n ==> !Valid(s[..j])
  {
    if Valid(s[..n]) then n else Floor(s, n - 1)
  }

  /** In valid text that prefix is at most three bytes shorter than n. */
  lemma FloorIsNear(s: seq<byte>, n: nat)
    requires Valid(s) && n <= |s|
    ensures n - Floor(s, n) <= 3
  {
    var m := Floor(s, n);
    if n - m > 3 {
      ValidSplit(s, m);
      var rest := s[m..];
      var r := RuneLength(rest);
      RuneLengthOfPrefix(rest, r);
      assert Valid(rest[..r]) by {
        assert rest[..r][r..] == [];
      }
      assert s[..m + r] == s[..m] + rest[..r];
      ValidAppend(s[..m], rest[..r]);
      assert false;
    }
  }

  /** Floor only looks at the bytes before n. */
  lemma FloorOfPrefix(s: seq<byte>, hi: nat, n: nat)
    requires n <= hi <= |s|
    ensures Floor(s[..hi], n) == Floor(s, n)
  {
    var m := Floor(s, n);
    assert s[..hi][..m] == s[..m];
    forall j | m < j <= n
      ensures !Valid(s[..hi][..j])
    {
      assert s[..hi][..j] == s[..j];
    }
    var m' := Floor(s[..hi], n);
    assert s[..hi][..m'] == s[..m'];
  }

  /** Text in the middle of a valid file, cut at two boundaries, is valid. */
  lemma ValidSlice(s: seq<byte>, lo: nat, hi: nat)
    requires lo <= hi <= |s| && Valid(s[..lo]) && Valid(s[..hi])
    ensures Valid(s[lo..hi])
  {
    assert s[..hi] == s[..lo] + s[lo..hi];
    ValidAppend(s[..lo], s[lo..hi]);
  }

  /** A valid pattern can only match valid text from boundary to boundary. */
  lemma MatchOnBoundaries(s: seq<byte>, p: seq<byte>, i: nat)
    requires Valid(s) && Valid(p) && p != []
    requires i + |p| <= |s| && s[i..i + |p|] == p
    ensures Valid(s[..i]) && Valid(s[..i + |p|]) && Valid(s[i + |p|..])
  {
    assert Valid(s[..i]) by {
      assert s[i] == p[0];
      Boundary(s, i);
    }
    assert Valid(s[..i + |p|]) by {
      assert s[..i + |p|] == s[..i] + p;
      ValidAppend(s[..i], p);
    }
    ValidSplit(s, i + |p|);
  }
}
