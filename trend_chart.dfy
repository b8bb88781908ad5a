/** The consumption trend chart: one chart entry per reading, each flagged
    anomalous by the backend or, failing that, by two thresholds around the
    consumer's average, and the anomalous entries picked out for the scatter
    overlay and the count badge. */
module ConsumptionTrendChart {
  import opened Common
  import opened ApiTypes

  /** A chart entry; time and date labels are display formatting and left out. */
  datatype ChartPoint = ChartPoint(
    index: nat,
    consumption: real,
    isAnomaly: bool,
    anomalyReason: Option<string>,
    anomalyPoint: Option<real>)

  /** The readings above this are anomalous when the backend says nothing. */
  function HighThreshold(avg: real): real { avg * 2.0 }
  /** The readings below this are anomalous when the backend says nothing. */
  function LowThreshold(avg: real): real { avg * 0.1 }

  /** `point.is_anomalous ?? (consumption > threshold || consumption < lowThreshold)` */
  function IsAnomaly(point: TimeseriesPoint, avg: real): (b: bool)
    ensures point.is_anomalous.Some? ==> b == point.is_anomalous.value
    ensures point.is_anomalous.None? ==> (b <==> point.consumption > 2.0 * avg || point.consumption < 0.1 * avg)
  {
    match point.is_anomalous
    case Some(flag) => flag
    case None => point.consumption > HighThreshold(avg) || point.consumption < LowThreshold(avg)
  }

  /** The entry drawn for the reading at position `index`. */
  function ToChartPoint(point: TimeseriesPoint, index: nat, avg: real): (c: ChartPoint)
    ensures c.index == index && c.consumption == point.consumption
    ensures c.isAnomaly == IsAnomaly(point, avg)
    ensures c.anomalyReason.Some? <==> Truthy(point.anomaly_reason)
    ensures c.anomalyReason.Some? ==> c.anomalyReason == point.anomaly_reason
    ensures c.anomalyPoint.Some? <==> c.isAnomaly
    ensures c.anomalyPoint.Some? ==> c.anomalyPoint.value == point.consumption
  {
    var flag := IsAnomaly(point, avg);
    ChartPoint(index, point.consumption, flag,
      if Truthy(point.anomaly_reason) then point.anomaly_reason else None,
      if flag then Some(point.consumption) else None)
  }

  /** `chartData`: one entry per reading, in order, indexed by position. */
  function ChartData(timeseries: seq<TimeseriesPoint>, avg: real): (d: seq<ChartPoint>)
    ensures |d| == |timeseries|
    ensures forall i :: 0 <= i < |d| ==> d[i] == ToChartPoint(timeseries[i], i, avg)
    ensures forall i :: 0 <= i < |d| ==> d[i].index == i && d[i].consumption == timeseries[i].consumption
  {
    seq(|timeseries|, i requires 0 <= i < |timeseries| => ToChartPoint(timeseries[i], i, avg))
  }

  /** `chartData.filter(d => d.isAnomaly)` */
  function Anomalous(data: seq<ChartPoint>): (r: seq<ChartPoint>)
    ensures |r| <= |data|
    ensures forall k :: 0 <= k < |r| ==> r[k].isAnomaly && r[k] in data
    ensures forall x :: x in data && x.isAnomaly ==> x in r
  {
    if |data| == 0 then []
    else
      var init := Anomalous(data[..|data| - 1]);
      assert forall x :: x in data[..|data| - 1] ==> x in data;
      assert forall x :: x in data ==> x in data[..|data| - 1] || x == data[|data| - 1];
      if data[|data| - 1].isAnomaly then init + [data[|data| - 1]] else init
  }

  /** Entries whose indexes strictly increase. */
  predicate IndexesIncrease(data: seq<ChartPoint>) {
    forall j, k :: 0 <= j < k < |data| ==> data[j].index < data[k].index
  }

  /** The filter keeps the order of the entries it keeps. */
  lemma {:induction false} AnomalousKeepsOrder(data: seq<ChartPoint>)
    requires IndexesIncrease(data)
    ensures IndexesIncrease(Anomalous(data))
  {
    if |data| > 0 {
      var init := data[..|data| - 1];
      var last := data[|data| - 1];
      AnomalousKeepsOrder(init);
      var r := Anomalous(init);
      assert forall k :: 0 <= k < |r| ==> r[k].index < last.index by {
        forall k | 0 <= k < |r|
          ensures r[k].index < last.index
        {
          assert r[k] in init;
          var j :| 0 <= j < |init| && init[j] == r[k];
          assert data[j] == r[k];
        }
      }
    }
  }

  /** A reading is in the overlay exactly when its entry is flagged, and the
      overlay is in reading order. */
  lemma AnomalyDataExact(timeseries: seq<TimeseriesPoint>, avg: real)
    ensures forall i :: 0 <= i < |timeseries| ==>
      (ChartData(timeseries, avg)[i] in Anomalous(ChartData(timeseries, avg)) <==> IsAnomaly(timeseries[i], avg))
    ensures IndexesIncrease(Anomalous(ChartData(timeseries, avg)))
  {
    var d := ChartData(timeseries, avg);
    assert IndexesIncrease(d);
    AnomalousKeepsOrder(d);
  }

  /** The count badge is shown only when some entry is anomalous. */
  function BadgeShown(anomalyData: seq<ChartPoint>): bool {
    |anomalyData| > 0
  }

  lemma BadgeShownExactly(timeseries: seq<TimeseriesPoint>, avg: real)
    ensures BadgeShown(Anomalous(ChartData(timeseries, avg))) <==>
      exists i :: 0 <= i < |timeseries| && IsAnomaly(timeseries[i], avg)
  {
    var d := ChartData(timeseries, avg);
    if exists i :: 0 <= i < |timeseries| && IsAnomaly(timeseries[i], avg) {
      var i :| 0 <= i < |timeseries| && IsAnomaly(timeseries[i], avg);
      assert d[i] in d;
    }
    if BadgeShown(Anomalous(d)) {
      var x := Anomalous(d)[0];
      assert x in d;
      var i :| 0 <= i < |d| && d[i] == x;
    }
  }
}
