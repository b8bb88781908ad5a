/** The score histogram: five score ranges, how many consumers fall in each,
    their share of all consumers, and the bar colour of each range. */
module AnomalyDistributionChart {

  /** A range of scores; the label is what the axis shows. */
  datatype ScoreRange = ScoreRange(name: string, lo: real, hi: real)

  const Ranges: seq<ScoreRange> := [
    ScoreRange("0.0-0.2", 0.0, 0.2),
    ScoreRange("0.2-0.4", 0.2, 0.4),
    ScoreRange("0.4-0.6", 0.4, 0.6),
    ScoreRange("0.6-0.8", 0.6, 0.8),
    ScoreRange("0.8-1.0", 0.8, 1.0)
  ]

  const RangeNames: seq<string> := ["0.0-0.2", "0.2-0.4", "0.4-0.6", "0.6-0.8", "0.8-1.0"]

  /** The exclusive upper bound a range counts with: the top range is widened
      to 1.01 so that a score of exactly 1 is counted. */
  function UpperBound(r: ScoreRange): real {
    if r.hi == 1.0 then 1.01 else r.hi
  }

  predicate InRange(score: real, r: ScoreRange) {
    score >= r.lo && score < UpperBound(r)
  }

  /** The scores some range counts. */
  predicate Covered(score: real) {
    0.0 <= score < 1.01
  }

  /** The length of the filter of `scores` by `r`. */
  function CountIn(scores: seq<real>, r: ScoreRange): (n: nat)
    ensures n <= |scores|
  {
    if |scores| == 0 then 0
    else CountIn(scores[..|scores| - 1], r) + (if InRange(scores[|scores| - 1], r) then 1 else 0)
  }

  /** How many scores some range counts. */
  function CountCovered(scores: seq<real>): (n: nat)
    ensures n <= |scores|
  {
    if |scores| == 0 then 0
    else CountCovered(scores[..|scores| - 1]) + (if Covered(scores[|scores| - 1]) then 1 else 0)
  }

  datatype Bucket = Bucket(range: string, count: nat, percentage: real)

  /** A range's share of all consumers, in percent; 0 when there are none. */
  function Percentage(count: nat, total: nat): (p: real)
    ensures total == 0 ==> p == 0.0
    ensures total > 0 ==> p == (count as real / total as real) * 100.0
  {
    if total > 0 then (count as real / total as real) * 100.0 else 0.0
  }

  /** The histogram, one bucket per range, in the ranges' order. */
  function Distribution(scores: seq<real>): (d: seq<Bucket>)
    ensures |d| == |Ranges| == 5
    ensures forall i :: 0 <= i < |d| ==> d[i].range == Ranges[i].name
    ensures forall i :: 0 <= i < |d| ==> d[i].count == CountIn(scores, Ranges[i])
    ensures forall i :: 0 <= i < |d| ==> d[i].percentage == Percentage(d[i].count, |scores|)
    ensures |scores| == 0 ==> forall i :: 0 <= i < |d| ==> d[i].count == 0 && d[i].percentage == 0.0
  {
    seq(|Ranges|, i requires 0 <= i < |Ranges| =>
      Bucket(Ranges[i].name, CountIn(scores, Ranges[i]), Percentage(CountIn(scores, Ranges[i]), |scores|)))
  }

  /** No score lies in two ranges. */
  lemma RangesDisjoint(score: real, i: int, j: int)
    requires 0 <= i < |Ranges| && 0 <= j < |Ranges|
    requires InRange(score, Ranges[i]) && InRange(score, Ranges[j])
    ensures i == j
  {
  }

  /** A score lies in some range exactly when it is covered. */
  lemma RangesCover(score: real)
    ensures Covered(score) <==> exists i :: 0 <= i < |Ranges| && InRange(score, Ranges[i])
  {
    if Covered(score) {
      var i := if score < 0.2 then 0 else if score < 0.4 then 1 else if score < 0.6 then 2 else if score < 0.8 then 3 else 4;
      assert InRange(score, Ranges[i]);
    }
  }

  /** The five counts of the histogram. */
  function BucketSum(scores: seq<real>): nat {
    CountIn(scores, Ranges[0]) + CountIn(scores, Ranges[1]) + CountIn(scores, Ranges[2])
      + CountIn(scores, Ranges[3]) + CountIn(scores, Ranges[4])
  }

  /** Each covered score is counted exactly once, so the counts add up to the
      number of covered scores. */
  lemma {:induction false} CountsSum(scores: seq<real>)
    ensures BucketSum(scores) == CountCovered(scores)
  {
    if |scores| > 0 {
      var init := scores[..|scores| - 1];
      CountsSum(init);
      var s := scores[|scores| - 1];
      assert Covered(s) ==> (InRange(s, Ranges[0]) || InRange(s, Ranges[1]) || InRange(s, Ranges[2])
        || InRange(s, Ranges[3]) || InRange(s, Ranges[4]));
    }
  }

  /** Shares of one total add up to the share of the sum. */
  lemma ShareSum(c0: real, c1: real, c2: real, c3: real, c4: real, t: real)
    requires t > 0.0
    ensures (c0 / t) * 100.0 + (c1 / t) * 100.0 + (c2 / t) * 100.0 + (c3 / t) * 100.0 + (c4 / t) * 100.0
      == ((c0 + c1 + c2 + c3 + c4) / t) * 100.0
  {
  }

  /** A part's share of a whole is at most 100 percent. */
  lemma ShareBound(part: real, t: real)
    requires 0.0 <= part <= t && t > 0.0
    ensures (part / t) * 100.0 <= 100.0
    ensures part == t ==> (part / t) * 100.0 == 100.0
  {
    assert part / t <= 1.0;
  }

  /** The percentages of a histogram added up. */
  function PercentTotal(d: seq<Bucket>): real
    requires |d| == 5
  {
    d[0].percentage + d[1].percentage + d[2].percentage + d[3].percentage + d[4].percentage
  }

  /** The percentages add up to at most 100, and to exactly 100 when every score is covered. */
  lemma PercentagesSum(scores: seq<real>)
    ensures PercentTotal(Distribution(scores)) <= 100.0
    ensures |scores| > 0 && CountCovered(scores) == |scores| ==> PercentTotal(Distribution(scores)) == 100.0
  {
    var d := Distribution(scores);
    CountsSum(scores);
    if |scores| == 0 {
      assert d[0].percentage == 0.0 && d[1].percentage == 0.0 && d[2].percentage == 0.0;
      assert d[3].percentage == 0.0 && d[4].percentage == 0.0;
      assert PercentTotal(d) == 0.0;
    } else {
      var t := |scores| as real;
      var c0, c1, c2, c3, c4 := d[0].count as real, d[1].count as real, d[2].count as real, d[3].count as real, d[4].count as real;
      assert d[0].percentage == (c0 / t) * 100.0;
      assert d[1].percentage == (c1 / t) * 100.0;
      assert d[2].percentage == (c2 / t) * 100.0;
      assert d[3].percentage == (c3 / t) * 100.0;
      assert d[4].percentage == (c4 / t) * 100.0;
      ShareSum(c0, c1, c2, c3, c4, t);
      assert c0 + c1 + c2 + c3 + c4 == CountCovered(scores) as real;
      ShareBound(CountCovered(scores) as real, t);
    }
  }

  /** The grey of an unknown range label. */
  const FallbackColor: string := "#6b7280"

  /** `getBarColor` */
  function BarColor(range: string): (c: string)
    ensures range == "0.0-0.2" ==> c == "#10b981"
    ensures range == "0.2-0.4" ==> c == "#22c55e"
    ensures range == "0.4-0.6" ==> c == "#fbbf24"
    ensures range == "0.6-0.8" ==> c == "#f97316"
    ensures range == "0.8-1.0" ==> c == "#ef4444"
    ensures range !in RangeNames ==> c == FallbackColor
  {
    match range
    case "0.0-0.2" => "#10b981"
    case "0.2-0.4" => "#22c55e"
    case "0.4-0.6" => "#fbbf24"
    case "0.6-0.8" => "#f97316"
    case "0.8-1.0" => "#ef4444"
    case _ => FallbackColor
  }

  /** Every range has a colour of its own, none of them the fallback grey. */
  lemma BarColorsDistinct(i: int, j: int)
    requires 0 <= i < |Ranges| && 0 <= j < |Ranges|
    ensures BarColor(Ranges[i].name) != FallbackColor
    ensures i != j ==> BarColor(Ranges[i].name) != BarColor(Ranges[j].name)
  {
    var a, b := BarColor(Ranges[i].name), BarColor(Ranges[j].name);
    assert a[1] != FallbackColor[1];
    assert i != j ==> a[1] != b[1] || a[2] != b[2];
  }
}
