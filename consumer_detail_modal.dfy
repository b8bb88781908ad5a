/** The consumer detail modal: the status style, the anomaly-score card colour,
    the collapsed or expanded list of anomalous records, the show-more toggle
    and the position of the average on the consumption-range bar. */
module ConsumerDetailModal {
  import opened Common
  import opened ApiTypes

  /** The styles of the three risk statuses and of every other status. */
  const HighRiskStyle: string := "text-red-600 bg-red-50 border-red-200"
  const SuspiciousStyle: string := "text-amber-600 bg-amber-50 border-amber-200"
  const ReviewStyle: string := "text-blue-600 bg-blue-50 border-blue-200"
  const DefaultStatusStyle: string := "text-emerald-600 bg-emerald-50 border-emerald-200"

  /** `getStatusColor` */
  function StatusColor(status: string): (c: string)
    ensures status == "High Risk" ==> c == HighRiskStyle
    ensures status == "Suspicious" ==> c == SuspiciousStyle
    ensures status == "Review Needed" ==> c == ReviewStyle
    ensures status != "High Risk" && status != "Suspicious" && status != "Review Needed" ==> c == DefaultStatusStyle
  {
    if status == "High Risk" then HighRiskStyle
    else if status == "Suspicious" then SuspiciousStyle
    else if status == "Review Needed" then ReviewStyle
    else DefaultStatusStyle
  }

  /** The three risk statuses have three different styles, none of them the default. */
  lemma StatusColorsDistinct(a: string, b: string)
    requires a in ["High Risk", "Suspicious", "Review Needed"] && b in ["High Risk", "Suspicious", "Review Needed"]
    ensures StatusColor(a) != DefaultStatusStyle
    ensures a != b ==> StatusColor(a) != StatusColor(b)
  {
    assert HighRiskStyle[5] == 'r' && SuspiciousStyle[5] == 'a';
    assert ReviewStyle[5] == 'b' && DefaultStatusStyle[5] == 'e';
  }

  /** The anomaly-score card: red from 0.75 up, amber below. */
  function ScoreCardColor(score: real): (c: string)
    ensures c == "from-red-500 to-red-600" <==> score >= 0.75
    ensures c == "from-amber-500 to-amber-600" <==> score < 0.75
  {
    if score >= 0.75 then "from-red-500 to-red-600" else "from-amber-500 to-amber-600"
  }

  /** How many records the collapsed list shows. */
  const CollapsedCount: nat := 10

  /** `displayedAnomalousRecords`: all records when expanded, the first ten otherwise. */
  function DisplayedRecords(records: seq<AnomalousRecord>, showAll: bool): (r: seq<AnomalousRecord>)
    ensures showAll ==> r == records
    ensures !showAll ==> |r| == if |records| < CollapsedCount then |records| else CollapsedCount
    ensures r <= records
  {
    if showAll || |records| <= CollapsedCount then records else records[..CollapsedCount]
  }

  /** The show-more button is there exactly when collapsing hides something. */
  function ShowMoreVisible(records: seq<AnomalousRecord>): (v: bool)
    ensures v <==> |records| > CollapsedCount
    ensures v <==> DisplayedRecords(records, false) != DisplayedRecords(records, true)
  {
    |records| > CollapsedCount
  }

  /** The records table is drawn only when there are records. */
  function RecordsSectionShown(consumer: ConsumerDetail): (b: bool)
    ensures b <==> DisplayedRecords(consumer.anomalous_records, false) != []
    ensures b <==> DisplayedRecords(consumer.anomalous_records, true) != []
  {
    |consumer.anomalous_records| > 0
  }

  /** The trend chart is drawn only when there are readings. */
  function TrendChartShown(consumer: ConsumerDetail): (b: bool)
    ensures !b <==> consumer.timeseries == []
  {
    |consumer.timeseries| > 0
  }

  /** The width of the average's bar, in percent of the range bar: the
      denominator `max - min` falls back to 1 when it is zero. */
  function RangePercent(avg: real, min: real, max: real): (p: real)
    ensures max != min ==> p == ((avg - min) / (max - min)) * 100.0
    ensures max == min ==> p == (avg - min) * 100.0
  {
    var span := if max - min != 0.0 then max - min else 1.0;
    ((avg - min) / span) * 100.0
  }

  /** An average within a non-empty range puts the marker on the bar, at the
      ends exactly for the minimum and the maximum. */
  lemma RangePercentBounds(avg: real, min: real, max: real)
    requires min <= avg <= max && min < max
    ensures 0.0 <= RangePercent(avg, min, max) <= 100.0
    ensures RangePercent(avg, min, max) == 0.0 <==> avg == min
    ensures RangePercent(avg, min, max) == 100.0 <==> avg == max
  {
    var d := max - min;
    var x := avg - min;
    FractionBounds(x, d);
    assert RangePercent(avg, min, max) == (x / d) * 100.0;
  }

  /** A reading equal to the minimum and maximum of a flat range sits at the start. */
  lemma RangePercentFlat(v: real)
    ensures RangePercent(v, v, v) == 0.0
  {
  }

  /** What the modal draws. */
  datatype Rendered = Nothing | ClosedShell | Open(consumer: ConsumerDetail)

  /** Nothing without a consumer; the content only while open. */
  function Render(consumer: Option<ConsumerDetail>, isOpen: bool): (r: Rendered)
    ensures consumer.None? <==> r == Nothing
    ensures r.Open? <==> consumer.Some? && isOpen
    ensures r.Open? ==> r.consumer == consumer.value
  {
    if consumer.None? then Nothing else if isOpen then Open(consumer.value) else ClosedShell
  }

  /** The expanded/collapsed state of the records list. */
  class RecordsToggle {
    var showAllRecords: bool

    constructor ()
      ensures !showAllRecords
    {
      showAllRecords := false;
    }

    function Displayed(records: seq<AnomalousRecord>): seq<AnomalousRecord>
      reads this
    {
      DisplayedRecords(records, showAllRecords)
    }

    /** The show-more button's click. */
    method Toggle()
      modifies this
      ensures showAllRecords == !old(showAllRecords)
    {
      showAllRecords := !showAllRecords;
    }
  }

  /** Clicking the button twice leaves the list as it was. */
  method ToggleTwice(t: RecordsToggle, records: seq<AnomalousRecord>)
    modifies t
    ensures t.showAllRecords == old(t.showAllRecords)
    ensures t.Displayed(records) == old(t.Displayed(records))
  {
    t.Toggle();
    t.Toggle();
  }
}
