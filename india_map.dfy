/** The state heat map: a colour per anomaly rate, an opacity per consumer
    count, the lookup table from upper-cased state codes to their data, the
    style of each map feature and when a click on a state is reported. */
module IndiaMap {
  import opened Common
  import opened Tiers

  datatype StateData = StateData(
    stateCode: string,
    stateName: Option<string>,
    anomalyRate: real,
    anomalyCount: int,
    consumerCount: int,
    avgScore: Option<real>)

  /** Rate thresholds, from the highest down. */
  const RateThresholds: seq<real> := [0.15, 0.10, 0.07, 0.05, 0.03, 0.01]
  /** The fill colours of the rate tiers, bottom tier first. */
  const FillPalette: seq<string> := ["#22C55E", "#84CC16", "#FBBF24", "#F59E0B", "#EA580C", "#DC2626", "#991B1B"]

  /** `getColor` */
  function FillColor(rate: real): (c: string)
    ensures c == FillPalette[Reached(rate, RateThresholds)]
  {
    ReachedCons(rate, 0.15, [0.10, 0.07, 0.05, 0.03, 0.01]);
    ReachedCons(rate, 0.10, [0.07, 0.05, 0.03, 0.01]);
    ReachedCons(rate, 0.07, [0.05, 0.03, 0.01]);
    ReachedCons(rate, 0.05, [0.03, 0.01]);
    ReachedCons(rate, 0.03, [0.01]);
    ReachedCons(rate, 0.01, []);
    if rate >= 0.15 then "#991B1B"
    else if rate >= 0.10 then "#DC2626"
    else if rate >= 0.07 then "#EA580C"
    else if rate >= 0.05 then "#F59E0B"
    else if rate >= 0.03 then "#FBBF24"
    else if rate >= 0.01 then "#84CC16"
    else "#22C55E"
  }

  /** Seven tiers, seven different colours, and a higher rate never lands in a lower tier. */
  lemma FillColorTiers(a: real, b: real)
    ensures |FillPalette| == |RateThresholds| + 1 == 7
    ensures FillColor(a) == FillColor(b) <==> Reached(a, RateThresholds) == Reached(b, RateThresholds)
    ensures a <= b ==> Reached(a, RateThresholds) <= Reached(b, RateThresholds)
  {
    var i, j := Reached(a, RateThresholds), Reached(b, RateThresholds);
    if i != j {
      assert FillPalette[i][1] != FillPalette[j][1] || FillPalette[i][2] != FillPalette[j][2];
    }
    if a <= b {
      ReachedMonotone(a, b, RateThresholds);
    }
  }

  const MinOpacity: real := 0.5
  const MaxOpacity: real := 0.9

  /** `getOpacity`: from 0.5 for no consumers up to 0.9 for the most. */
  function Opacity(consumerCount: real, maxConsumers: real): (o: real)
    requires maxConsumers != 0.0
    ensures (o - MinOpacity) * maxConsumers == consumerCount * (MaxOpacity - MinOpacity)
  {
    MinOpacity + (consumerCount / maxConsumers) * (MaxOpacity - MinOpacity)
  }

  /** The opacity stays within [0.5, 0.9] and reaches its ends at 0 and at the maximum. */
  lemma OpacityBounds(consumerCount: real, maxConsumers: real)
    requires 0.0 <= consumerCount <= maxConsumers && maxConsumers > 0.0
    ensures MinOpacity <= Opacity(consumerCount, maxConsumers) <= MaxOpacity
    ensures Opacity(consumerCount, maxConsumers) == MinOpacity <==> consumerCount == 0.0
    ensures Opacity(consumerCount, maxConsumers) == MaxOpacity <==> consumerCount == maxConsumers
  {
    FractionBounds(consumerCount, maxConsumers);
  }

  /** `stateDataMap`: each entry under its upper-cased code, later entries
      overwriting earlier ones. */
  function StateDataMapOf(states: seq<StateData>): (m: map<string, StateData>)
    ensures forall k :: k in m <==> exists i :: 0 <= i < |states| && Upper(states[i].stateCode) == k
  {
    if |states| == 0 then map[]
    else
      var init := states[..|states| - 1];
      var last := states[|states| - 1];
      assert forall i :: 0 <= i < |init| ==> init[i] == states[i];
      StateDataMapOf(init)[Upper(last.stateCode) := last]
  }

  /** The `forEach` that fills the table. */
  method BuildStateDataMap(states: seq<StateData>) returns (m: map<string, StateData>)
    ensures m == StateDataMapOf(states)
  {
    m := map[];
    var i := 0;
    while i < |states|
      invariant 0 <= i <= |states|
      invariant m == StateDataMapOf(states[..i])
    {
      assert states[..i + 1][..i] == states[..i];
      m := m[Upper(states[i].stateCode) := states[i]];
      i := i + 1;
    }
    assert states[..|states|] == states;
  }

  /** An entry is what the table holds for its code unless a later entry has the same code. */
  lemma {:induction false} StateDataMapLastWins(states: seq<StateData>, i: int)
    requires 0 <= i < |states|
    requires forall j :: i < j < |states| ==> Upper(states[j].stateCode) != Upper(states[i].stateCode)
    ensures StateDataMapOf(states)[Upper(states[i].stateCode)] == states[i]
  {
    if i < |states| - 1 {
      var init := states[..|states| - 1];
      assert forall j :: 0 <= j < |init| ==> init[j] == states[j];
      StateDataMapLastWins(init, i);
    }
  }

  /** Every key of the table is upper case, so it is never the key `undefined`. */
  lemma {:induction false} StateDataMapKeysUpper(states: seq<StateData>)
    ensures "undefined" !in StateDataMapOf(states)
  {
    forall i | 0 <= i < |states|
      ensures Upper(states[i].stateCode) != "undefined"
    {
      if |states[i].stateCode| > 0 {
        assert Upper(states[i].stateCode)[0] != 'u';
      }
    }
  }

  /** `Math.max(...stateData.map(d => d.consumerCount), 1)` */
  function MaxConsumers(states: seq<StateData>): (m: int)
    ensures m >= 1
    ensures forall i :: 0 <= i < |states| ==> states[i].consumerCount <= m
    ensures m == 1 || exists i :: 0 <= i < |states| && states[i].consumerCount == m
  {
    if |states| == 0 then 1
    else
      var init := states[..|states| - 1];
      var rest := MaxConsumers(init);
      assert forall i :: 0 <= i < |init| ==> init[i] == states[i];
      var last := states[|states| - 1].consumerCount;
      if last > rest then last else rest
  }

  /** The leaflet path style of a map feature. */
  datatype Style = Style(fillColor: string, weight: int, opacity: real, color: string, fillOpacity: real)

  /** The fill of a state without data. */
  const NoDataFill: string := "#E5E7EB"

  /** `getStyle` for a feature with the given code. */
  function FeatureStyle(code: Option<string>, states: seq<StateData>): (s: Style)
    ensures !Truthy(code) ==> s == Style(NoDataFill, 1, 1.0, "#9CA3AF", 0.3)
    ensures Truthy(code) && Upper(code.value) !in StateDataMapOf(states) ==> s == Style(NoDataFill, 1, 1.0, "#6B7280", 0.3)
    ensures Truthy(code) && Upper(code.value) in StateDataMapOf(states) ==>
      var d := StateDataMapOf(states)[Upper(code.value)];
      s == Style(FillColor(d.anomalyRate), 2, 1.0, "#374151", Opacity(d.consumerCount as real, MaxConsumers(states) as real))
  {
    if !Truthy(code) then Style(NoDataFill, 1, 1.0, "#9CA3AF", 0.3)
    else
      var m := StateDataMapOf(states);
      var key := Upper(code.value);
      if key !in m then Style(NoDataFill, 1, 1.0, "#6B7280", 0.3)
      else
        var d := m[key];
        Style(FillColor(d.anomalyRate), 2, 1.0, "#374151", Opacity(d.consumerCount as real, MaxConsumers(states) as real))
  }

  /** A state with data and a non-negative consumer count is filled with an
      opacity between 0.5 and 0.9: the scale never divides by zero and never
      leaves its range. */
  lemma FeatureOpacityBounds(code: string, states: seq<StateData>)
    requires code != "" && Upper(code) in StateDataMapOf(states)
    requires StateDataMapOf(states)[Upper(code)].consumerCount >= 0
    ensures MinOpacity <= FeatureStyle(Some(code), states).fillOpacity <= MaxOpacity
  {
    var d := StateDataMapOf(states)[Upper(code)];
    StateDataMapValues(states, Upper(code));
    OpacityBounds(d.consumerCount as real, MaxConsumers(states) as real);
  }

  /** What the table holds is one of the entries. */
  lemma {:induction false} StateDataMapValues(states: seq<StateData>, k: string)
    requires k in StateDataMapOf(states)
    ensures exists i :: 0 <= i < |states| && states[i] == StateDataMapOf(states)[k]
  {
    var init := states[..|states| - 1];
    if k != Upper(states[|states| - 1].stateCode) {
      StateDataMapValues(init, k);
      var i :| 0 <= i < |init| && init[i] == StateDataMapOf(init)[k];
      assert states[i] == init[i];
    }
  }

  /** The key a feature is looked up under: its upper-cased code, or the
      string `undefined` that an absent code becomes as a property name. */
  function LookupKey(code: Option<string>): (k: string)
    ensures code.Some? ==> k == Upper(code.value) && Upper(k) == k
    ensures code.None? ==> k == "undefined"
  {
    if code.Some? then UpperIdempotent(code.value); Upper(code.value) else "undefined"
  }

  /** The click handler: the state's own code is reported when there is a
      callback and the lookup found data. */
  function ClickTarget(hasCallback: bool, code: Option<string>, states: seq<StateData>): (r: Option<string>)
    ensures r.Some? <==> hasCallback && code.Some? && Upper(code.value) in StateDataMapOf(states)
    ensures r.Some? ==> r.value == code.value
  {
    StateDataMapKeysUpper(states);
    if hasCallback && LookupKey(code) in StateDataMapOf(states) then
      (if code.Some? then Some(code.value) else None)
    else None
  }
}
