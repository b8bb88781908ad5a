/** The zone grid: three styles per zone chosen by its anomaly rate, the
    largest rate the intensity bars are scaled to, and the legend. */
module RegionMap {
  import opened Common
  import opened Tiers
  import opened ApiTypes

  /** Rate thresholds, from the highest down. */
  const RateThresholds: seq<real> := [0.1, 0.05, 0.02]

  /** The styles of the rate tiers, bottom tier first. */
  const GradientPalette: seq<string> :=
    ["from-emerald-500 to-emerald-600", "from-yellow-400 to-yellow-500", "from-amber-500 to-amber-600", "from-red-500 to-red-600"]
  const BgPalette: seq<string> := [BgClass("emerald"), BgClass("yellow"), BgClass("amber"), BgClass("red")]
  const TextPalette: seq<string> := ["text-emerald-700", "text-yellow-700", "text-amber-700", "text-red-700"]

  /** `getZoneGradient` */
  function ZoneGradient(rate: real): (c: string)
    ensures c == GradientPalette[Reached(rate, RateThresholds)]
  {
    ReachedCons(rate, 0.1, [0.05, 0.02]);
    ReachedCons(rate, 0.05, [0.02]);
    ReachedCons(rate, 0.02, []);
    if rate >= 0.1 then "from-red-500 to-red-600"
    else if rate >= 0.05 then "from-amber-500 to-amber-600"
    else if rate >= 0.02 then "from-yellow-400 to-yellow-500"
    else "from-emerald-500 to-emerald-600"
  }

  /** The card background of a colour family: a light fill, its border, and a
      darker border on hover. */
  function BgClass(hue: string): (c: string)
    ensures |c| > 3 + |hue| && c[3..3 + |hue|] == hue
  {
    assert |"bg-"| == 3;
    "bg-" + hue + "-50 border-" + hue + "-200 hover:border-" + hue + "-300"
  }

  /** `getZoneBg` */
  function ZoneBg(rate: real): (c: string)
    ensures c == BgPalette[Reached(rate, RateThresholds)]
  {
    ReachedCons(rate, 0.1, [0.05, 0.02]);
    ReachedCons(rate, 0.05, [0.02]);
    ReachedCons(rate, 0.02, []);
    if rate >= 0.1 then BgClass("red")
    else if rate >= 0.05 then BgClass("amber")
    else if rate >= 0.02 then BgClass("yellow")
    else BgClass("emerald")
  }

  /** `getZoneTextColor` */
  function ZoneTextColor(rate: real): (c: string)
    ensures c == TextPalette[Reached(rate, RateThresholds)]
  {
    ReachedCons(rate, 0.1, [0.05, 0.02]);
    ReachedCons(rate, 0.05, [0.02]);
    ReachedCons(rate, 0.02, []);
    if rate >= 0.1 then "text-red-700"
    else if rate >= 0.05 then "text-amber-700"
    else if rate >= 0.02 then "text-yellow-700"
    else "text-emerald-700"
  }

  /** The three styles of two zones agree with one another on whether the zones share a tier. */
  lemma ZoneStylesAgree(a: real, b: real)
    ensures ZoneGradient(a) == ZoneGradient(b) <==> Reached(a, RateThresholds) == Reached(b, RateThresholds)
    ensures ZoneBg(a) == ZoneBg(b) <==> Reached(a, RateThresholds) == Reached(b, RateThresholds)
    ensures ZoneTextColor(a) == ZoneTextColor(b) <==> Reached(a, RateThresholds) == Reached(b, RateThresholds)
  {
    var i, j := Reached(a, RateThresholds), Reached(b, RateThresholds);
    assert BgPalette[0][3] == 'e' && BgPalette[1][3] == 'y' && BgPalette[2][3] == 'a' && BgPalette[3][3] == 'r' by {
      assert BgPalette[0][3..10][0] == 'e' && BgPalette[1][3..9][0] == 'y';
      assert BgPalette[2][3..8][0] == 'a' && BgPalette[3][3..6][0] == 'r';
    }
    if i != j {
      assert GradientPalette[i][5] != GradientPalette[j][5];
      assert BgPalette[i][3] != BgPalette[j][3];
      assert TextPalette[i][5] != TextPalette[j][5];
    }
  }

  /** A higher rate is never drawn in a lower tier. */
  lemma ZoneTierMonotone(a: real, b: real)
    requires a <= b
    ensures Reached(a, RateThresholds) <= Reached(b, RateThresholds)
  {
    ReachedMonotone(a, b, RateThresholds);
  }

  /** The legend's swatches, in display order, with their captions. */
  const Legend: seq<(string, string)> := [
    ("from-emerald-500 to-emerald-600", "Low (<2%)"),
    ("from-yellow-400 to-yellow-500", "Medium (2-5%)"),
    ("from-amber-500 to-amber-600", "High (5-10%)"),
    ("from-red-500 to-red-600", "Critical (>10%)")]

  /** The legend lists the zone gradients bottom tier first, one swatch per tier. */
  lemma LegendMatchesTiers()
    ensures |Legend| == |RateThresholds| + 1
    ensures forall k :: 0 <= k < |Legend| ==> Legend[k].0 == GradientPalette[k]
    ensures ZoneGradient(0.0) == Legend[0].0 && ZoneGradient(0.02) == Legend[1].0
    ensures ZoneGradient(0.05) == Legend[2].0 && ZoneGradient(0.1) == Legend[3].0
  {
    ReachedCons(0.0, 0.1, [0.05, 0.02]);
    ReachedCons(0.0, 0.05, [0.02]);
    ReachedCons(0.0, 0.02, []);
  }

  /** `Math.max(...zones.map((z) => z.anomaly_rate), 0.1)` */
  function MaxAnomalyRate(zones: seq<ZoneStats>): (m: real)
    ensures m >= 0.1
    ensures forall i :: 0 <= i < |zones| ==> zones[i].anomaly_rate <= m
    ensures m == 0.1 || exists i :: 0 <= i < |zones| && zones[i].anomaly_rate == m
  {
    if |zones| == 0 then 0.1
    else
      var init := zones[..|zones| - 1];
      var rest := MaxAnomalyRate(init);
      assert forall i :: 0 <= i < |init| ==> init[i] == zones[i];
      var last := zones[|zones| - 1].anomaly_rate;
      if last > rest then last else rest
  }

  /** The width of a zone's intensity bar, in percent. */
  function IntensityPercent(rate: real, maxRate: real): (p: real)
    requires maxRate != 0.0
    ensures p * maxRate == rate * 100.0
  {
    (rate / maxRate) * 100.0
  }

  /** Every zone's bar lies within the track for a non-negative rate, and
      the zone with the largest rate at or above 0.1 fills it. */
  lemma IntensityBounds(zones: seq<ZoneStats>, i: int)
    requires 0 <= i < |zones| && zones[i].anomaly_rate >= 0.0
    ensures 0.0 <= IntensityPercent(zones[i].anomaly_rate, MaxAnomalyRate(zones)) <= 100.0
    ensures zones[i].anomaly_rate == MaxAnomalyRate(zones) ==>
      IntensityPercent(zones[i].anomaly_rate, MaxAnomalyRate(zones)) == 100.0
  {
    FractionBounds(zones[i].anomaly_rate, MaxAnomalyRate(zones));
  }

  /** What the grid area shows. */
  datatype GridView = NoZoneData | ZoneGrid(count: nat)

  function ShownGrid(zones: seq<ZoneStats>): (v: GridView)
    ensures v == NoZoneData <==> zones == []
    ensures v.ZoneGrid? ==> v.count == |zones|
  {
    if |zones| == 0 then NoZoneData else ZoneGrid(|zones|)
  }

  /** With no zones the placeholder is shown and the scale is 0.1. */
  lemma NoZones()
    ensures ShownGrid([]) == NoZoneData && MaxAnomalyRate([]) == 0.1
  {
  }
}
