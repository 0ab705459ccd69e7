/**
 * The width column the latency plots use as their x axis: the part of an
 * `image_size` label before the first `x`, read as an integer, or nothing
 * when that part is not a number.
 */
module PlotLatency {
  import opened Wrappers
  import opened Decimal
  import opened Probe
  import opened ResultSet
  import opened Sweep
  import LatencyBreakdown

  /** `s.split('x')[0]`: the text before the first `x`, or all of `s` when it has none. */
  function BeforeFirstX(s: string): (p: string)
    ensures p <= s && 'x' !in p
    ensures |p| < |s| ==> s[|p|] == 'x'
    ensures 'x' !in s ==> p == s
    decreases |s|
  {
    if s == [] || s[0] == 'x' then [] else [s[0]] + BeforeFirstX(s[1..])
  }

  /** `extract_width`: `int(...)` of the text before the first `x`, `None` where that raises. */
  function ExtractWidth(sizeStr: string): (r: Option<nat>)
    ensures r.Some? <==> && BeforeFirstX(sizeStr) != [] && |BeforeFirstX(sizeStr)| <= MaxStrDigits
                         && IsDigits(BeforeFirstX(sizeStr))
  {
    ParseNat(BeforeFirstX(sizeStr))
  }

  /** Whatever follows the first `x` plays no part: the split stops there. */
  lemma {:induction false} BeforeFirstXStops(p: string, rest: string)
    requires 'x' !in p
    ensures BeforeFirstX(p + "x" + rest) == p
    decreases |p|
  {
    if p != [] {
      assert (p + "x" + rest)[1..] == p[1..] + "x" + rest;
      BeforeFirstXStops(p[1..], rest);
    }
  }

  /** Only the text before the first `x` is parsed. */
  lemma ExtractWidthIgnoresRest(p: string, rest: string)
    requires 'x' !in p
    ensures ExtractWidth(p + "x" + rest) == ExtractWidth(p)
  {
    BeforeFirstXStops(p, rest);
  }

  /** A string without `x` is parsed whole. */
  lemma ExtractWidthWholeString(s: string)
    requires 'x' !in s
    ensures ExtractWidth(s) == ParseNat(s)
  {
  }

  /**
   * A number written out and followed by `x` and anything at all is read
   * back as that number, unless its digits exceed what `int` converts.
   */
  lemma ExtractWidthRoundTrip(w: nat, h: string)
    ensures ExtractWidth(Show(w) + "x" + h) == if |Show(w)| <= MaxStrDigits then Some(w) else None
  {
    var digits := Show(w);
    assert 'x' !in digits;
    BeforeFirstXStops(digits, h);
    ParseShow(w);
  }

  /**
   * The width read from a label the sweep writes is the width of that size,
   * as long as `int` converts that many digits.
   */
  lemma ExtractWidthOfLabel(size: LatencyBreakdown.Size)
    ensures ExtractWidth(LatencyBreakdown.Label(size))
         == if |Show(size.width)| <= MaxStrDigits then Some(size.width) else None
  {
    ExtractWidthRoundTrip(size.width, Show(size.height));
  }

  /**
   * Conversely, a width read from a label whose leading part has no leading
   * zero is written back as exactly that leading part.
   */
  lemma ExtractWidthCanonical(s: string)
    requires ExtractWidth(s).Some?
    requires BeforeFirstX(s)[0] != '0' || |BeforeFirstX(s)| == 1
    ensures Show(ExtractWidth(s).value) == BeforeFirstX(s)
  {
    ShowParse(BeforeFirstX(s));
  }

  /** A leading part longer than `int` converts gives no width, and never an error. */
  lemma ExtractWidthDigitLimit(p: string, rest: string)
    requires 'x' !in p && |p| > MaxStrDigits
    ensures ExtractWidth(p + "x" + rest) == None
  {
    BeforeFirstXStops(p, rest);
  }

  /** A label that does not start with digits gives no width, and never an error. */
  lemma ExtractWidthRejects(s: string)
    requires s == [] || !IsDigit(s[0])
    ensures ExtractWidth(s) == None
  {
  }

  /**
   * Two entries of a sweep over sizes of ascending width, each width short
   * enough for `int` to read back, are in (width, platform) order.
   */
  lemma EntriesInWidthOrder<V>(sizes: seq<LatencyBreakdown.Size>, outcomes: seq<Outcome<V>>, i: nat, j: nat)
    requires |outcomes| == 2 * |sizes|
    requires forall a, b :: 0 <= a < b < |sizes| ==> sizes[a].width < sizes[b].width
    requires forall a :: 0 <= a < |sizes| ==> |Show(sizes[a].width)| <= MaxStrDigits
    requires i < j < |Kept(Attempts(LatencyBreakdown.Attempt, sizes, outcomes))|
    ensures var results := Kept(Attempts(LatencyBreakdown.Attempt, sizes, outcomes));
      && ExtractWidth(results[i].imageSize).Some? && ExtractWidth(results[j].imageSize).Some?
      && (|| ExtractWidth(results[i].imageSize).value < ExtractWidth(results[j].imageSize).value
          || (&& results[i].imageSize == results[j].imageSize
              && results[i].platform == Azure && results[j].platform == OpenFaaS))
  {
    var idx := KeptIndices(Attempts(LatencyBreakdown.Attempt, sizes, outcomes));
    LatencyBreakdown.EntryOrigin(sizes, outcomes, i);
    LatencyBreakdown.EntryOrigin(sizes, outcomes, j);
    ExtractWidthOfLabel(sizes[idx[i] / 2]);
    ExtractWidthOfLabel(sizes[idx[j] / 2]);
    assert idx[i] < idx[j];
    if idx[i] / 2 == idx[j] / 2 {
      assert idx[i] % 2 == 0 && idx[j] % 2 == 1;
    }
  }

  /**
   * Every label the sweep writes yields a width, and the rows come in
   * ascending width, Azure before OpenFaaS for the same size: the order in
   * which the plots draw their points.
   */
  lemma ResultsOrderedByWidth<V>(sizes: seq<LatencyBreakdown.Size>, outcomes: seq<Outcome<V>>)
    requires |outcomes| == 2 * |sizes|
    requires forall a, b :: 0 <= a < b < |sizes| ==> sizes[a].width < sizes[b].width
    requires forall a :: 0 <= a < |sizes| ==> |Show(sizes[a].width)| <= MaxStrDigits
    ensures var results := Kept(Attempts(LatencyBreakdown.Attempt, sizes, outcomes));
      && (forall j :: 0 <= j < |results| ==> ExtractWidth(results[j].imageSize).Some?)
      && forall i, j :: 0 <= i < j < |results| ==>
           || ExtractWidth(results[i].imageSize).value < ExtractWidth(results[j].imageSize).value
           || (&& results[i].imageSize == results[j].imageSize
               && results[i].platform == Azure && results[j].platform == OpenFaaS)
  {
    var results := Kept(Attempts(LatencyBreakdown.Attempt, sizes, outcomes));
    forall j | 0 <= j < |results| ensures ExtractWidth(results[j].imageSize).Some? {
      var idx := KeptIndices(Attempts(LatencyBreakdown.Attempt, sizes, outcomes));
      LatencyBreakdown.EntryOrigin(sizes, outcomes, j);
      ExtractWidthOfLabel(sizes[idx[j] / 2]);
    }
    forall i, j | 0 <= i < j < |results|
      ensures || ExtractWidth(results[i].imageSize).value < ExtractWidth(results[j].imageSize).value
              || (&& results[i].imageSize == results[j].imageSize
                  && results[i].platform == Azure && results[j].platform == OpenFaaS)
    {
      EntriesInWidthOrder(sizes, outcomes, i, j);
    }
  }

  /** The script's own sweep over its nine sizes: its rows come in non-decreasing width. */
  lemma DefaultSweepOrdered<V>(outcomes: seq<Outcome<V>>)
    requires |outcomes| == 18
    ensures var results := Kept(Attempts(LatencyBreakdown.Attempt, LatencyBreakdown.ImageSizes, outcomes));
      forall i, j :: 0 <= i < j < |results| ==>
        && ExtractWidth(results[i].imageSize).Some? && ExtractWidth(results[j].imageSize).Some?
        && ExtractWidth(results[i].imageSize).value <= ExtractWidth(results[j].imageSize).value
  {
    var sizes := LatencyBreakdown.ImageSizes;
    LatencyBreakdown.ImageSizesShape();
    forall a | 0 <= a < |sizes| ensures |Show(sizes[a].width)| <= MaxStrDigits {
      assert sizes[a].width <= 3200 < Pow10(4);
      ShowLength(sizes[a].width, 4);
    }
    ResultsOrderedByWidth(LatencyBreakdown.ImageSizes, outcomes);
  }
}
