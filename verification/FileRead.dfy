/** The scan loop of file.read. */
module FileRead {
  import opened Utf8
  import opened TextSearch
  import opened Lines
  import opened FileScan
  import opened FileTail

  /** What a scan of a text file returns. */
  ghost predicate ScanResult(file: seq<byte>, sel: Selection, scan: Scan) {
    match sel
    case Bytes(offset, limit) =>
      var lo := Min(offset, |file|);
      var hi := Min(lo + limit, |file|);
      scan == Scan(file[lo..hi], lo, hi, 0, false)
    case LineRange(ls, lc) =>
      var lines := LinesOf(file, ls, lc);
      && scan.content == Cut(lines, MAX_FILE_READ_BYTES)
      && scan.startOffset == LineStart(file, ls) && scan.endOffset == LineStart(file, ls + lc)
      && scan.lineStart == (if LineStart(file, ls) < |file| then ls else 0)
      && (scan.bounded <==> |lines| > MAX_FILE_READ_BYTES)
    case TailLines(n) => TailResult(file, n, scan)
    case Stat => scan.content == []
  }

  /** What the loop has selected after the bytes p. */
  ghost predicate Selecting(p: seq<byte>, size: nat, sel: Selection, bytes: seq<byte>, lines: LineScan, tail: TailScan) {
    match sel
    case Bytes(offset, limit) =>
      var lo := Min(offset, size);
      bytes == BytesSelected(p, lo, Min(lo + limit, size))
    case LineRange(ls, lc) => LineScanOf(lines, p, size, ls, lc)
    case TailLines(_) => TailScanOf(tail, p)
    case Stat => true
  }

  /** scanFileRead. The file is accepted exactly when it is text, however the reads
      divide it. */
  method ScanFile(file: seq<byte>, sel: Selection, disk: Disk) returns (outcome: Outcome)
    requires WellFormed(sel)
    ensures outcome.Scanned? ==> TextOk(file) && ScanResult(file, sel, outcome.scan)
    ensures outcome.BinaryOrInvalidUtf8? ==> !TextOk(file)
    ensures ReadsSucceed(disk, |file|) ==> if TextOk(file) then outcome.Scanned? else outcome.BinaryOrInvalidUtf8?
  {
    hide Selecting, ScanResult, Valid, NoNul, Floor;
    var size := |file|;
    var pending: seq<byte> := [];
    var bytes: seq<byte> := [];
    var lines := LineScan([], 1, -1, size, 0);
    if sel.LineRange? && sel.lineStart == 1 && size > 0 {
      lines := lines.(startOffset := 0, lineStart := 1);
    }
    var tail := TailScan([], false, 1, false);
    var offset := 0;
    InitialSelection(size, sel, lines);
    assert file[..0] == [];
    NothingRead();
    while offset < size
      invariant offset <= size && NoNul(file[..offset])
      invariant Pending(file[..offset], pending)
      invariant Selecting(file[..offset], size, sel, bytes, lines, tail)
      invariant offset == size ==> pending == []
    {
      var r := ReadSome(disk, offset, Min(FILE_READ_SCAN_BUFFER_SIZE, size - offset));
      if r.Failed? {
        return ReadFailed;
      }
      var n := r.n;
      var chunk := file[offset..offset + n];
      assert file[..offset] + chunk == file[..offset + n];
      NulInChunk(file, offset, n);
      if !NoNul(chunk) {
        return BinaryOrInvalidUtf8;
      }
      var last := offset + n >= size;
      var ok;
      ok, pending := ValidateChunk(file, offset, pending, chunk, last);
      if !ok {
        return BinaryOrInvalidUtf8;
      }
      bytes, lines, tail := SelectChunk(sel, bytes, lines, tail, chunk, offset, size, file[..offset]);
      offset := offset + n;
    }
    assert file[..offset] == file;
    PendingNothing(file);
    if |pending| != 0 {
      return BinaryOrInvalidUtf8;
    }
    outcome := FinishScan(file, size, sel, bytes, lines, tail);
  }

  lemma InitialSelection(size: nat, sel: Selection, lines: LineScan)
    requires WellFormed(sel)
    requires sel.LineRange? ==>
               lines == if sel.lineStart == 1 && size > 0 then LineScan([], 1, 0, size, 1) else LineScan([], 1, -1, size, 0)
    ensures Selecting([], size, sel, [], lines, TailScan([], false, 1, false))
  {
  }

  lemma PendingNothing(file: seq<byte>)
    requires Pending(file, [])
    ensures Valid(file)
  {
    assert file[..|file|] == file;
  }

  lemma NothingRead()
    ensures NoNul([]) && Pending([], [])
  {
  }

  /** A NUL in a chunk is a NUL in the file. */
  lemma NulInChunk(file: seq<byte>, offset: nat, n: nat)
    requires offset + n <= |file| && NoNul(file[..offset])
    ensures NoNul(file[..offset + n]) <==> NoNul(file[offset..offset + n])
    ensures NoNul(file) ==> NoNul(file[..offset + n])
  {
    var p, chunk := file[..offset], file[offset..offset + n];
    assert file[..offset + n] == p + chunk;
    forall i | 0 <= i < n
      ensures (p + chunk)[offset + i] == chunk[i]
    {
    }
    if !NoNul(chunk) {
      var i :| 0 <= i < n && chunk[i] == 0;
      assert (p + chunk)[offset + i] == 0;
    }
  }

  /** One step of the validation: the chunk is taken after the bytes still pending. */
  method ValidateChunk(ghost file: seq<byte>, ghost offset: nat, pending: seq<byte>, chunk: seq<byte>, last: bool)
    returns (ok: bool, rest: seq<byte>)
    requires offset + |chunk| <= |file| && chunk == file[offset..offset + |chunk|]
    requires last <==> offset + |chunk| == |file|
    requires Pending(file[..offset], pending)
    ensures !ok ==> !Valid(file)
    ensures ok ==> Pending(file[..offset + |chunk|], rest) && (last ==> rest == [])
  {
    var combined := pending + chunk;
    var prefix, suffix, split := SplitValidUtf8Chunk(combined, last);
    var p := file[..offset];
    assert p + chunk == file[..offset + |chunk|];
    if !split || !Valid(prefix) {
      assert last ==> p + chunk == file;
      RejectedChunk(file, p, pending, chunk, last);
      return false, [];
    }
    PendingExtended(p, pending, chunk, |prefix|);
    return true, suffix;
  }

  /** The switch over the selection. */
  method SelectChunk(sel: Selection, bytes0: seq<byte>, lines0: LineScan, tail0: TailScan, chunk: seq<byte>,
                     offset: nat, size: nat, ghost p: seq<byte>)
    returns (bytes: seq<byte>, lines: LineScan, tail: TailScan)
    requires WellFormed(sel) && |p| == offset && offset + |chunk| <= size && chunk != []
    requires Selecting(p, size, sel, bytes0, lines0, tail0)
    ensures Selecting(p + chunk, size, sel, bytes, lines, tail)
  {
    bytes, lines, tail := bytes0, lines0, tail0;
    match sel
    case Bytes(o, limit) =>
      var lo := Min(o, size);
      bytes := SelectBytes(bytes0, chunk, offset, lo, Min(lo + limit, size), p);
    case LineRange(ls, lc) =>
      lines := SelectLines(lines0, chunk, offset, size, ls, lc, p);
    case TailLines(_) =>
      tail := SelectTail(tail0, chunk, p);
    case Stat =>
  }

  method FinishScan(ghost file: seq<byte>, size: nat, sel: Selection, bytes: seq<byte>, lines: LineScan, tail: TailScan)
    returns (outcome: Outcome)
    requires WellFormed(sel) && TextOk(file) && size == |file|
    requires Selecting(file, size, sel, bytes, lines, tail)
    ensures outcome.Scanned? && ScanResult(file, sel, outcome.scan)
  {
    match sel
    case Stat => return Scanned(Scan([], 0, size, 0, false));
    case TailLines(n) =>
      var scan := FinishTailScan(tail.window, tail.bounded, size, tail.currentLine, tail.lastWasNewline, n, file);
      return Scanned(scan);
    case Bytes(offset, limit) =>
      var lo := Min(offset, size);
      return Scanned(Scan(bytes, lo, Min(lo + limit, size), 0, false));
    case LineRange(ls, lc) =>
      var selected, start, end, bounded := lines.selected, lines.startOffset, lines.endOffset, false;
      LineStartWithin(file, ls);
      LineStartWithin(file, ls + lc);
      if start < 0 || lines.lineStart == 0 {
        LineStartsOrdered(file, ls, ls + lc);
        selected, start, end := [], size, size;
      }
      if |selected| > MAX_FILE_READ_BYTES {
        selected, bounded := selected[..MAX_FILE_READ_BYTES], true;
      }
      return Scanned(Scan(selected, start, end, lines.lineStart, bounded));
  }
}
