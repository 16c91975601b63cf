/** Splitting a result into pages for upload. */
module CloudResult {
  import opened Utf8
  import opened FilePaging

  const MAX_CLOUD_RESULT_PAGE := 0x10_0000

  /** Where a page of long data ends: after the longest valid prefix that fits,
      but at most three bytes before the page is full. */
  function PageEnd(data: seq<byte>): (cut: nat)
    requires data != []
    ensures 0 < cut <= |data| && cut <= MAX_CLOUD_RESULT_PAGE
  {
    if |data| <= MAX_CLOUD_RESULT_PAGE then |data|
    else
      var m := Floor(data, MAX_CLOUD_RESULT_PAGE);
      if m < MAX_CLOUD_RESULT_PAGE - 3 then MAX_CLOUD_RESULT_PAGE - 3 else m
  }

  function Pages(data: seq<byte>): (pages: seq<seq<byte>>)
    decreases |data|
  {
    if data == [] then [] else [data[..PageEnd(data)]] + Pages(data[PageEnd(data)..])
  }

  /** cloudResultPages. */
  method CloudResultPages(data0: seq<byte>) returns (pages: seq<seq<byte>>)
    ensures pages == Pages(data0)
  {
    hide PageEnd;
    pages := [];
    var data := data0;
    while |data| > 0
      invariant pages + Pages(data) == Pages(data0)
      decreases |data|
    {
      var cut := |data|;
      if cut > MAX_CLOUD_RESULT_PAGE {
        cut := LowerCut(data);
      } else {
        WholePage(data);
      }
      pages := pages + [data[..cut]];
      data := data[cut..];
    }
  }

  lemma WholePage(data: seq<byte>)
    requires 0 < |data| <= MAX_CLOUD_RESULT_PAGE
    ensures PageEnd(data) == |data|
  {
  }

  /** The inner loop: lower the cut while the page is not valid, three times at most. */
  method LowerCut(data: seq<byte>) returns (cut: nat)
    requires |data| > MAX_CLOUD_RESULT_PAGE
    ensures cut == PageEnd(data)
  {
    hide Valid, Floor;
    cut := MAX_CLOUD_RESULT_PAGE;
    while cut > 0 && cut > MAX_CLOUD_RESULT_PAGE - 3 && !Valid(data[..cut])
      invariant MAX_CLOUD_RESULT_PAGE - 3 <= cut <= MAX_CLOUD_RESULT_PAGE
      invariant Floor(data, MAX_CLOUD_RESULT_PAGE) <= cut
    {
      cut := cut - 1;
    }
  }

  method CloudResultPageCount(data: seq<byte>) returns (n: nat)
    ensures n == |Pages(data)|
  {
    var pages := CloudResultPages(data);
    n := |pages|;
  }

  /** On any bytes: nothing is lost, no page is empty or too long, and every page
      but the last is full up to three bytes. */
  lemma {:induction false} PagesPartition(data: seq<byte>)
    ensures Concat(Pages(data)) == data
    ensures forall i :: 0 <= i < |Pages(data)| ==> 0 < |Pages(data)[i]| <= 1048576
    ensures forall i :: 0 <= i < |Pages(data)| - 1 ==> |Pages(data)[i]| >= 1048573
    decreases |data|
  {
    if data != [] {
      var cut := PageEnd(data);
      PagesPartition(data[cut..]);
      assert data == data[..cut] + data[cut..];
    }
  }

  /** Valid text is split into valid pages, each the longest that fits. */
  lemma {:induction false} PagesOfTextAreText(data: seq<byte>)
    requires Valid(data)
    ensures forall i :: 0 <= i < |Pages(data)| ==> Valid(Pages(data)[i])
    ensures |data| > MAX_CLOUD_RESULT_PAGE ==> PageEnd(data) == Floor(data, MAX_CLOUD_RESULT_PAGE)
    decreases |data|
  {
    if data != [] {
      var cut := PageEnd(data);
      assert data[..|data|] == data;
      if |data| > MAX_CLOUD_RESULT_PAGE {
        FloorIsNear(data, MAX_CLOUD_RESULT_PAGE);
      }
      ValidSplit(data, cut);
      PagesOfTextAreText(data[cut..]);
    }
  }
}
