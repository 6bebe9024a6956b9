/** The quality chart (src/components/QualityChart.tsx): one point per
    review, the latest score, and its change from the one before. */
module QualityChart {
  import opened JsValues
  import opened JsStrings
  import opened Types
  import opened Utils

  datatype ChartPoint = ChartPoint(name: string, value: int)

  function PointName(idx: nat): string {
    "Review " + NatToString(idx + 1)
  }

  /** `CHART_DATA`: the reviews in order, each labelled with its 1-based
      position and valued at its score. */
  function ChartData(reviews: seq<ReviewItem>): (pts: seq<ChartPoint>)
    ensures |pts| == |reviews|
    ensures forall i :: 0 <= i < |reviews| ==> pts[i] == ChartPoint(PointName(i), GetReviewScore(reviews[i]))
  {
    seq(|reviews|, i requires 0 <= i < |reviews| => ChartPoint(PointName(i), GetReviewScore(reviews[i])))
  }

  /** No two points share a label. */
  lemma PointNamesDistinct(i: nat, j: nat)
    requires i != j
    ensures PointName(i) != PointName(j)
  {
    var p := "Review ";
    if PointName(i) == PointName(j) {
      assert NatToString(i + 1) == PointName(i)[|p|..];
      assert NatToString(j + 1) == PointName(j)[|p|..];
      NatToStringInjective(i + 1, j + 1);
    }
  }

  /** `latestValue`: the last point's value, 0 with no points. */
  function Latest(pts: seq<ChartPoint>): (v: int)
    ensures |pts| == 0 ==> v == 0
    ensures |pts| > 0 ==> v == pts[|pts| - 1].value
  {
    if |pts| > 0 then pts[|pts| - 1].value else 0
  }

  /** `prevValue`: the second-to-last value, or the latest one when there
      are fewer than two points. */
  function Prev(pts: seq<ChartPoint>): (v: int)
    ensures |pts| > 1 ==> v == pts[|pts| - 2].value
    ensures |pts| <= 1 ==> v == Latest(pts)
  {
    if |pts| > 1 then pts[|pts| - 2].value else Latest(pts)
  }

  /** `diff`: the change between the last two points; none with fewer than two. */
  function Diff(pts: seq<ChartPoint>): (d: int)
    ensures |pts| <= 1 ==> d == 0
    ensures |pts| > 1 ==> d == pts[|pts| - 1].value - pts[|pts| - 2].value
  {
    Latest(pts) - Prev(pts)
  }

  /** Adding a review to a non-empty list makes the trend its score minus the
      score that was latest before. */
  lemma DiffAfterAppend(reviews: seq<ReviewItem>, r: ReviewItem)
    requires |reviews| > 0
    ensures Diff(ChartData(reviews + [r])) == GetReviewScore(r) - Latest(ChartData(reviews))
  {
    var all := reviews + [r];
    assert all[|all| - 1] == r;
    assert all[|all| - 2] == reviews[|reviews| - 1];
  }

  /** The trend text: `+{diff}` when diff >= 0, the number itself otherwise. */
  function DiffLabel(d: int): (s: string)
    ensures |s| >= 2
    ensures s[0] == '+' <==> d >= 0
    ensures s[0] == '-' <==> d < 0
    ensures d >= 0 ==> s[1..] == NatToString(d)
    ensures d < 0 ==> s[1..] == NatToString(-d)
  {
    if d >= 0 then "+" + IntToString(d) else IntToString(d)
  }

  /** `Last {n} Reviews`, n the number of reviews. */
  function CountLabel(reviews: seq<ReviewItem>): (s: string)
    ensures |s| > 13 && s[..5] == "Last " && s[|s| - 8..] == " Reviews"
    ensures AllDigits(s[5..|s| - 8]) && ParseNat(s[5..|s| - 8]) == |reviews|
  {
    var n := NatToString(|reviews|);
    ParseNatToString(|reviews|);
    var s := "Last " + n + " Reviews";
    assert s[5..|s| - 8] == n;
    s
  }

  /** Scores 70 then 85 chart as a rise of 15; a single review shows +0. */
  lemma TrendExamples()
    ensures var a := ScoredItem(70);
      var b := ScoredItem(85);
      Diff(ChartData([a, b])) == 15 && Latest(ChartData([a, b])) == 85 && Diff(ChartData([a])) == 0
      && DiffLabel(Diff(ChartData([a]))) == "+0"
  {
    assert NatToString(0) == "0";
  }
}
