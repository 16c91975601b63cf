/** The text file.read returns for each selection, and a client that pages through
    a file by asking again at offset + bytesRead. */
module FilePaging {
  import opened Options
  import opened Utf8
  import opened TextSearch
  import opened Lines
  import opened FileScan
  import opened FileTail
  import opened FileRead

  datatype Returned =
    | Text(content: seq<byte>, offset: int, lineStart: int, truncated: bool)
    | StatOnly
    | NotText
    | LimitTooLarge
    | Failure

  /** trimIncompleteUTF8Suffix: give up at most three bytes. */
  method TrimIncompleteUtf8Suffix(input: seq<byte>) returns (trimmed: seq<byte>, ok: bool)
    ensures ok <==> |input| - Floor(input, |input|) <= 3
    ensures ok ==> trimmed == input[..Floor(input, |input|)]
  {
    hide Valid, Floor;
    assert input[..|input|] == input;
    if Valid(input) {
      return input, true;
    }
    var trim := 1;
    while trim <= 3 && trim <= |input|
      invariant 1 <= trim <= 4 && trim <= |input| + 1
      invariant forall k :: |input| - trim < k <= |input| && k >= 0 ==> !Valid(input[..k])
    {
      var candidate := input[..|input| - trim];
      if Valid(candidate) {
        return candidate, true;
      }
      trim := trim + 1;
    }
    return [], false;
  }

  /** validateReturnedUTF8: only a selection that may end inside a rune is trimmed. */
  method ValidateReturnedUtf8(input: seq<byte>, mayEndMidRune: bool) returns (r: Option<seq<byte>>)
    ensures r == ReturnedText(input, mayEndMidRune)
  {
    assert input[..|input|] == input;
    if Valid(input) {
      return Some(input);
    }
    if mayEndMidRune {
      var trimmed, ok := TrimIncompleteUtf8Suffix(input);
      if ok {
        return Some(trimmed);
      }
    }
    return None;
  }

  function ReturnedText(input: seq<byte>, mayEndMidRune: bool): (r: Option<seq<byte>>) {
    if |input| - Floor(input, |input|) <= (if mayEndMidRune then 3 else 0) then Some(input[..Floor(input, |input|)])
    else None
  }

  /** The bytes from offset on, at most limit of them, as the text returned. */
  function BytePiece(file: seq<byte>, offset: nat, limit: nat): (r: Option<seq<byte>>) {
    var lo := Min(offset, |file|);
    var hi := Min(lo + limit, |file|);
    ReturnedText(file[lo..hi], hi < |file|)
  }

  /** The lines requested, cut to the budget and then to a rune boundary. */
  function LinesPiece(file: seq<byte>, ls: nat, lc: nat): (r: seq<byte>) {
    var lines := LinesOf(file, ls, lc);
    lines[..Floor(lines, Min(|lines|, MAX_FILE_READ_BYTES))]
  }

  /** fileReadV2 without line numbering. A limit of 0 asks for the largest page. */
  method FileReadV2(file: seq<byte>, sel0: Selection, disk: Disk) returns (r: Returned)
    requires WellFormed(sel0)
    ensures r.LimitTooLarge? <==> sel0.Bytes? && sel0.limit > 131072
    ensures r.Failure? ==> !ReadsSucceed(disk, |file|)
    ensures r.StatOnly? ==> sel0.Stat? && TextOk(file)
    ensures sel0.Stat? ==> !r.Text?
    ensures r.Text? ==> TextOk(file)
    ensures r.NotText? ==>
              !TextOk(file) || (sel0.Bytes? && BytePiece(file, sel0.offset, EffectiveLimit(sel0.limit)).None?)
    ensures r.Text? && sel0.Bytes? ==>
              && BytePiece(file, sel0.offset, EffectiveLimit(sel0.limit)) == Some(r.content)
              && r.offset == Min(sel0.offset, |file|)
    ensures r.Text? && sel0.LineRange? ==>
              && r.content == LinesPiece(file, sel0.lineStart, sel0.lineCount)
              && r.offset == LineStart(file, sel0.lineStart)
              && r.lineStart == (if r.offset < |file| then sel0.lineStart else 0)
    ensures r.Text? && sel0.TailLines? ==>
              exists scan: Scan :: TailResult(file, sel0.lineCount, scan)
                && r.content == scan.content && r.offset == scan.startOffset && r.lineStart == scan.lineStart
    ensures r.Text? ==> (r.truncated <==> r.content != file)
  {
    hide Valid, NoNul, ScanResult, TailResult, LineStart, BytePiece, ReturnedText, LinesPiece;
    var sel := sel0;
    if sel.Bytes? {
      if sel.limit == 0 {
        sel := sel.(limit := MAX_FILE_READ_BYTES);
      }
      if sel.limit > MAX_FILE_READ_BYTES {
        return LimitTooLarge;
      }
    }
    var outcome := ScanFile(file, sel, disk);
    if outcome.ReadFailed? {
      return Failure;
    }
    if outcome.BinaryOrInvalidUtf8? {
      return NotText;
    }
    if sel.Stat? {
      return StatOnly;
    }
    var scan := outcome.scan;
    ReturnedScan(file, sel, scan);
    var raw := ValidateReturnedUtf8(scan.content, scan.bounded || scan.endOffset < |file|
                                                    || scan.startOffset + |scan.content| < scan.endOffset);
    if raw.None? {
      return NotText;
    }
    return Text(raw.value, scan.startOffset, scan.lineStart,
                scan.startOffset > 0 || scan.endOffset < |file| || scan.bounded);
  }

  function EffectiveLimit(limit: nat): (n: nat) {
    if limit == 0 then MAX_FILE_READ_BYTES else limit
  }

  ghost predicate MayEndMidRune(file: seq<byte>, scan: Scan) {
    scan.bounded || scan.endOffset < |file| || scan.startOffset + |scan.content| < scan.endOffset
  }

  /** What the final check makes of each kind of scan of a text file. */
  ghost predicate ReturnedAs(file: seq<byte>, sel: Selection, scan: Scan, out: Option<seq<byte>>) {
    match sel
    case Bytes(offset, limit) => out == BytePiece(file, offset, limit) && scan.startOffset == Min(offset, |file|)
    case LineRange(ls, lc) =>
      && out == Some(LinesPiece(file, ls, lc)) && scan.startOffset == LineStart(file, ls)
      && scan.lineStart == (if scan.startOffset < |file| then ls else 0)
    case TailLines(n) => out == Some(scan.content) && TailResult(file, n, scan)
    case Stat => true
  }

  ghost predicate Whole(file: seq<byte>, scan: Scan, out: Option<seq<byte>>) {
    && scan.startOffset >= 0 && scan.endOffset <= |file|
    && (out.Some? ==> (scan.startOffset == 0 && scan.endOffset == |file| && !scan.bounded <==> out.value == file))
  }

  lemma ReturnedScan(file: seq<byte>, sel: Selection, scan: Scan)
    requires WellFormed(sel) && TextOk(file) && ScanResult(file, sel, scan) && !sel.Stat?
    ensures var out := ReturnedText(scan.content, MayEndMidRune(file, scan));
            ReturnedAs(file, sel, scan, out) && Whole(file, scan, out)
  {
    hide Valid, NoNul, ScanResult, ReturnedAs, Whole, ReturnedText;
    match sel
    case Bytes(offset, limit) => ReturnedBytes(file, offset, limit, scan);
    case LineRange(ls, lc) => ReturnedLines(file, ls, lc, scan);
    case TailLines(n) => ReturnedTail(file, n, scan);
  }

  lemma ReturnedBytes(file: seq<byte>, offset: nat, limit: nat, scan: Scan)
    requires Valid(file) && ScanResult(file, Bytes(offset, limit), scan)
    ensures var out := ReturnedText(scan.content, MayEndMidRune(file, scan));
            ReturnedAs(file, Bytes(offset, limit), scan, out) && Whole(file, scan, out)
  {
    hide Valid, Floor;
    if scan.startOffset == 0 && scan.endOffset == |file| {
      assert scan.content == file;
      CutTextReturned(file, |file|, false);
      assert file[..|file|] == file;
    }
  }

  lemma ReturnedTail(file: seq<byte>, n: nat, scan: Scan)
    requires Valid(file) && ScanResult(file, TailLines(n), scan)
    ensures var out := ReturnedText(scan.content, MayEndMidRune(file, scan));
            ReturnedAs(file, TailLines(n), scan, out) && Whole(file, scan, out)
  {
    hide Valid, Floor, TailBegins;
    var mayEnd := MayEndMidRune(file, scan);
    if file != [] {
      ValidSplit(file, scan.startOffset);
    }
    CutTextReturned(scan.content, |scan.content|, mayEnd);
    assert scan.content[..|scan.content|] == scan.content;
  }

  lemma ReturnedLines(file: seq<byte>, ls: nat, lc: nat, scan: Scan)
    requires ls >= 1 && lc >= 1 && Valid(file) && ScanResult(file, LineRange(ls, lc), scan)
    ensures var out := ReturnedText(scan.content, MayEndMidRune(file, scan));
            ReturnedAs(file, LineRange(ls, lc), scan, out) && Whole(file, scan, out)
  {
    hide Valid, Floor, LineStart, ReturnedText;
    var lines := LinesOf(file, ls, lc);
    LinesAreText(file, ls, lc);
    var n := Min(|lines|, MAX_FILE_READ_BYTES);
    assert scan.content == lines[..n];
    CutTextReturned(lines, n, MayEndMidRune(file, scan));
    assert file[0..|file|] == file;
    LineStartsOrdered(file, ls, ls + lc);
    assert |LinesPiece(file, ls, lc)| <= n <= |lines| == LineStart(file, ls + lc) - LineStart(file, ls);
  }

  /** A cut text is returned up to the last rune boundary. */
  lemma CutTextReturned(s: seq<byte>, n: nat, mayEndMidRune: bool)
    requires Valid(s) && n <= |s| && (n < |s| ==> mayEndMidRune)
    ensures ReturnedText(s[..n], mayEndMidRune) == Some(s[..Floor(s, n)])
    ensures n == |s| ==> s[..Floor(s, n)] == s
  {
    hide Valid;
    FloorIsNear(s, n);
    FloorOfPrefix(s, n, n);
    assert s[..n][..Floor(s, n)] == s[..Floor(s, n)];
    assert s[..|s|] == s;
  }

  lemma LinesAreText(file: seq<byte>, ls: nat, lc: nat)
    requires Valid(file)
    ensures Valid(LinesOf(file, ls, lc))
  {
    LineStartsOrdered(file, ls, ls + lc);
    LineStartOnBoundary(file, ls);
    LineStartOnBoundary(file, ls + lc);
    ValidSlice(file, LineStart(file, ls), LineStart(file, ls + lc));
  }

  // ----- Paging -----

  /** One read of a text file by bytes: refused above the largest page. */
  function BytesRead(file: seq<byte>, offset: nat, limit: nat): (piece: Option<seq<byte>>) {
    if limit > MAX_FILE_READ_BYTES then None else BytePiece(file, offset, EffectiveLimit(limit))
  }

  /** A client reads at 0 and then at offset + bytesRead until the end of the file.
      None: some read failed or brought nothing. */
  function Paging(file: seq<byte>, offset: nat, limit: nat): (pages: Option<seq<seq<byte>>>)
    decreases |file| - offset
  {
    if offset >= |file| then Some([])
    else
      var piece := BytesRead(file, offset, limit);
      if piece.None? || piece.value == [] then None
      else
        var rest := Paging(file, offset + |piece.value|, limit);
        if rest.None? then None else Some([piece.value] + rest.value)
  }

  function Concat(pages: seq<seq<byte>>): (s: seq<byte>) {
    if pages == [] then [] else pages[0] + Concat(pages[1..])
  }

  /** No rune of the text is longer than the limit. */
  predicate RunesFit(s: seq<byte>, limit: nat) {
    s == [] || RuneLength(s) == 0 || (RuneLength(s) <= limit && RunesFit(s[RuneLength(s)..], limit))
  }

  lemma {:induction false} RunesFitAppend(a: seq<byte>, b: seq<byte>, limit: nat)
    requires Valid(a) && |a| <= limit
    ensures RunesFit(a + b, limit) <==> RunesFit(b, limit)
    decreases |a|
  {
    if a == [] {
      assert a + b == b;
    } else {
      var n := RuneLength(a);
      RuneLengthOfPrefix(a + b, |a|);
      assert (a + b)[..|a|] == a;
      assert (a + b)[n..] == a[n..] + b;
      RunesFitAppend(a[n..], b, limit);
    }
  }

  /** One page from a rune boundary of valid text: empty only if the next rune is
      longer than the limit. */
  lemma PageFromBoundary(file: seq<byte>, offset: nat, limit: nat)
    requires Valid(file) && offset < |file| && Valid(file[..offset]) && limit >= 1
    ensures var piece := BytePiece(file, offset, limit);
            && piece.Some? && |piece.value| <= limit && offset + |piece.value| <= |file|
            && Valid(piece.value) && piece.value == file[offset..offset + |piece.value|]
            && Valid(file[..offset + |piece.value|])
            && (piece.value == [] <==> RuneLength(file[offset..]) > limit)
  {
    hide Valid, Floor, ReturnedText;
    var rest := file[offset..];
    var n := Min(limit, |rest|);
    ValidSplit(file, offset);
    assert file[offset..offset + n] == rest[..n];
    CutTextReturned(rest, n, offset + n < |file|);
    FirstRuneDecides(rest, n);
    var m := Floor(rest, n);
    assert file[..offset + m] == file[..offset] + rest[..m];
    ValidAppend(file[..offset], rest[..m]);
  }

  /** The longest valid prefix within n bytes is empty only if the first rune is longer. */
  lemma FirstRuneDecides(rest: seq<byte>, n: nat)
    requires Valid(rest) && rest != [] && n <= |rest|
    ensures Floor(rest, n) == 0 <==> RuneLength(rest) > n
    ensures n == |rest| ==> Floor(rest, n) == n
  {
    var r := RuneLength(rest);
    RuneLengthOfPrefix(rest, r);
    RuneLengthOfPrefix(rest, Floor(rest, n));
    assert rest[..r][r..] == [];
    assert rest[..|rest|] == rest;
  }

  lemma NextRuneFits(s: seq<byte>, limit: nat)
    requires Valid(s) && s != [] && RuneLength(s) > limit
    ensures !RunesFit(s, limit)
  {
  }

  /** No read is refused, and no rune of the text is longer than a page. */
  predicate PagesFit(s: seq<byte>, limit: nat) {
    s == [] || (limit <= MAX_FILE_READ_BYTES && RunesFit(s, EffectiveLimit(limit)))
  }

  /** Paging a valid file completes exactly when its pages fit; they are then valid text
      and concatenate to the file. */
  lemma {:induction false} PagingFrom(file: seq<byte>, offset: nat, limit: nat)
    requires Valid(file) && offset <= |file| && Valid(file[..offset])
    ensures Paging(file, offset, limit).Some? <==> PagesFit(file[offset..], limit)
    ensures Paging(file, offset, limit).Some? ==>
              var pages := Paging(file, offset, limit).value;
              && Concat(pages) == file[offset..]
              && forall i :: 0 <= i < |pages| ==> 0 < |pages[i]| <= EffectiveLimit(limit) && Valid(pages[i])
    decreases |file| - offset
  {
    hide Valid, BytePiece, RunesFit;
    if offset < |file| && limit <= MAX_FILE_READ_BYTES {
      var size := EffectiveLimit(limit);
      PageFromBoundary(file, offset, size);
      ValidSplit(file, offset);
      var piece := BytePiece(file, offset, size).value;
      if piece != [] {
        var next := offset + |piece|;
        assert file[offset..] == piece + file[next..];
        RunesFitAppend(piece, file[next..], size);
        NothingFits(size);
        PagingFrom(file, next, limit);
      } else {
        NextRuneFits(file[offset..], size);
      }
    }
  }

  lemma NothingFits(limit: nat)
    ensures RunesFit([], limit)
  {
  }

  lemma PagingCompletes(file: seq<byte>, limit: nat)
    requires Valid(file)
    ensures Paging(file, 0, limit).Some? <==> PagesFit(file, limit)
    ensures Paging(file, 0, limit).Some? ==>
              && Concat(Paging(file, 0, limit).value) == file
              && forall page :: page in Paging(file, 0, limit).value ==> 0 < |page| <= EffectiveLimit(limit) && Valid(page)
  {
    assert file[..0] == [];
    assert file[0..] == file;
    PagingFrom(file, 0, limit);
  }

  /** A limit of four bytes always suffices. */
  lemma {:induction false} FourBytesSuffice(s: seq<byte>, limit: nat)
    requires limit >= 4
    ensures RunesFit(s, limit)
    decreases |s|
  {
    if s != [] && RuneLength(s) > 0 {
      FourBytesSuffice(s[RuneLength(s)..], limit);
    }
  }

  /** So does the default, which is the largest page. */
  lemma PagingWithFourBytes(file: seq<byte>, limit: nat)
    requires Valid(file) && (limit == 0 || 4 <= limit <= 131072)
    ensures Paging(file, 0, limit).Some? && Concat(Paging(file, 0, limit).value) == file
    ensures forall offset :: BytesRead(file, offset, 0) == BytePiece(file, offset, 131072)
  {
    FourBytesSuffice(file, EffectiveLimit(limit));
    PagingCompletes(file, limit);
  }

  /** With three bytes it does not: a single four-byte rune is never delivered. */
  lemma ThreeBytesGetStuck()
    ensures var file: seq<byte> := [0xF0, 0x9F, 0x95, 0xB7];
            Valid(file) && Paging(file, 0, 3).None?
  {
    var file: seq<byte> := [0xF0, 0x9F, 0x95, 0xB7];
    assert RuneLength(file) == 4 && file[4..] == [];
    PagingCompletes(file, 3);
  }
}
