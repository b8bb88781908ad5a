/** The four summary cards above the results: what each shows and the
    subtexts of the anomaly and high-risk-zone cards. */
module DashboardSummary {
  import opened Common
  import opened ApiTypes

  /** A card's main figure: a count shown as a decimal numeral, a count in the
      locale's grouping, or a score shown to three places (both formats are
      left to the display). */
  datatype CardValue = Numeral(text: string) | Grouped(count: int) | Score(score: real)

  /** A card's second line: none, a share of the consumers, or plain text. */
  datatype Subtext = NoSubtext | ShareOfTotal(part: int, whole: int) | Text(text: string)

  datatype Card = Card(caption: string, value: CardValue, hue: string, subtext: Subtext)

  /** The second line of the zone card: at most the first two zones joined
      by a comma, or "None" when that is empty. */
  function ZoneSubtext(zones: seq<string>): (r: string)
    ensures zones == [] || zones == [""] ==> r == "None"
    ensures |zones| == 1 && zones[0] != "" ==> r == zones[0]
    ensures |zones| >= 2 ==> r == zones[0] + ", " + zones[1]
  {
    var shown := zones[..if |zones| < 2 then |zones| else 2];
    JoinEmpty(shown, ", ");
    assert |zones| >= 2 ==> Join(shown, ", ") == shown[0] + ", " + Join(shown[1..], ", ");
    var joined := Join(shown, ", ");
    if joined != "" then joined else "None"
  }

  /** `summary.anomalies_detected / summary.total_consumers * 100`; the
      source divides without a guard, and no value is claimed for zero consumers. */
  function AnomalyPercent(anomalies: int, total: int): (p: real)
    requires total != 0
    ensures p * total as real == anomalies as real * 100.0
  {
    (anomalies as real / total as real) * 100.0
  }

  /** With at most as many anomalies as consumers the share is a percentage. */
  lemma AnomalyPercentBounds(anomalies: int, total: int)
    requires 0 <= anomalies <= total && total > 0
    ensures 0.0 <= AnomalyPercent(anomalies, total) <= 100.0
    ensures AnomalyPercent(anomalies, total) == 100.0 <==> anomalies == total
  {
    FractionBounds(anomalies as real, total as real);
  }

  /** The cards, in display order. */
  function Cards(summary: Summary): (cards: seq<Card>)
    ensures |cards| == 4
    ensures cards[0].caption == "Total Consumers" && cards[1].caption == "Anomalies Detected"
    ensures cards[2].caption == "Avg Anomaly Score" && cards[3].caption == "High-Risk Zones"
    ensures cards[0].value == Grouped(summary.total_consumers) && cards[0].subtext == NoSubtext
    ensures cards[1].value == Numeral(IntToString(summary.anomalies_detected))
    ensures cards[1].subtext == ShareOfTotal(summary.anomalies_detected, summary.total_consumers)
    ensures cards[2].value == Score(summary.avg_anomaly_score) && cards[2].subtext == NoSubtext
    ensures cards[3].value == Numeral(IntToString(|summary.high_risk_zones|))
    ensures cards[3].subtext == Text(ZoneSubtext(summary.high_risk_zones))
  {
    [ Card("Total Consumers", Grouped(summary.total_consumers), "blue", NoSubtext),
      Card("Anomalies Detected", Numeral(IntToString(summary.anomalies_detected)), "red",
           ShareOfTotal(summary.anomalies_detected, summary.total_consumers)),
      Card("Avg Anomaly Score", Score(summary.avg_anomaly_score), "amber", NoSubtext),
      Card("High-Risk Zones", Numeral(IntToString(|summary.high_risk_zones|)), "emerald",
           Text(ZoneSubtext(summary.high_risk_zones))) ]
  }

  /** The anomaly card's subtext is the share `AnomalyPercent` gives of its
      own two counts: a percentage, at 100 iff every consumer is anomalous. */
  lemma AnomalyCardShare(summary: Summary)
    requires 0 <= summary.anomalies_detected <= summary.total_consumers && summary.total_consumers > 0
    ensures Cards(summary)[1].subtext.ShareOfTotal?
    ensures var s := Cards(summary)[1].subtext;
      s.part == summary.anomalies_detected && s.whole == summary.total_consumers &&
      0.0 <= AnomalyPercent(s.part, s.whole) <= 100.0 &&
      (AnomalyPercent(s.part, s.whole) == 100.0 <==> summary.anomalies_detected == summary.total_consumers)
  {
    AnomalyPercentBounds(summary.anomalies_detected, summary.total_consumers);
  }

  /** The zone card's figure reads back as the number of high-risk zones. */
  lemma ZoneCountReadsBack(summary: Summary)
    ensures ParseInt(Cards(summary)[3].value.text) == |summary.high_risk_zones|
  {
    ParseIntToString(|summary.high_risk_zones|);
  }
}
