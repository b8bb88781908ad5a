/** The flagged-consumers table: its page-number window, the Previous/Next
    buttons, when the pagination bar shows, and the score and status styling. */
module AnomalyTable {
  import opened Common
  import opened Tiers
  import opened ApiTypes

  /** How many page buttons are drawn: `Math.min(5, total_pages)`, which
      `Array.from` clamps at zero. */
  function WindowLength(totalPages: int): (n: nat)
    ensures n <= 5
    ensures totalPages >= 0 ==> n == if totalPages < 5 then totalPages else 5
  {
    if totalPages <= 0 then 0 else if totalPages < 5 then totalPages else 5
  }

  /** The page number of the i-th button (the `Array.from` callback). */
  function PageNumber(totalPages: int, currentPage: int, i: int): (n: int)
    ensures 0 <= i < WindowLength(totalPages) ==> 1 <= n <= totalPages
  {
    if totalPages <= 5 then i + 1
    else if currentPage <= 3 then i + 1
    else if currentPage >= totalPages - 2 then totalPages - 4 + i
    else currentPage - 2 + i
  }

  /** The page numbers shown between Previous and Next. */
  function PageWindow(totalPages: int, currentPage: int): (w: seq<int>)
    ensures |w| == WindowLength(totalPages)
    ensures forall k :: 0 <= k < |w| ==> 1 <= w[k] <= totalPages
    ensures forall k :: 0 <= k < |w| - 1 ==> w[k + 1] == w[k] + 1
    ensures 1 <= currentPage <= totalPages ==> currentPage in w
  {
    var w := seq(WindowLength(totalPages), i => PageNumber(totalPages, currentPage, i));
    assert 1 <= currentPage <= totalPages ==> w[PositionOf(totalPages, currentPage)] == currentPage;
    w
  }

  /** Where the current page sits in the window. */
  function PositionOf(totalPages: int, currentPage: int): (k: nat)
    requires 1 <= currentPage <= totalPages
    ensures k < WindowLength(totalPages)
    ensures PageNumber(totalPages, currentPage, k) == currentPage
  {
    if totalPages <= 5 || currentPage <= 3 then currentPage - 1
    else if currentPage >= totalPages - 2 then currentPage - totalPages + 4
    else 2
  }

  /** The numbers in the window strictly increase. */
  lemma {:induction false} PageWindowIncreasing(totalPages: int, currentPage: int, j: int, k: int)
    requires 0 <= j < k < |PageWindow(totalPages, currentPage)|
    ensures PageWindow(totalPages, currentPage)[j] < PageWindow(totalPages, currentPage)[k]
    decreases k - j
  {
    if j + 1 < k {
      PageWindowIncreasing(totalPages, currentPage, j + 1, k);
    }
  }

  /** With more than five pages the window is the first five, the last five,
      or the five centred on the current page. */
  lemma PageWindowCases(totalPages: int, currentPage: int)
    requires totalPages > 5
    ensures currentPage <= 3 ==> PageWindow(totalPages, currentPage) == [1, 2, 3, 4, 5]
    ensures 3 < currentPage && currentPage >= totalPages - 2 ==>
      PageWindow(totalPages, currentPage) == [totalPages - 4, totalPages - 3, totalPages - 2, totalPages - 1, totalPages]
    ensures 3 < currentPage < totalPages - 2 ==>
      PageWindow(totalPages, currentPage) == [currentPage - 2, currentPage - 1, currentPage, currentPage + 1, currentPage + 2]
  {
  }

  /** With at most five pages the window lists every page. */
  lemma PageWindowSmall(totalPages: int, currentPage: int)
    requires 0 <= totalPages <= 5
    ensures PageWindow(totalPages, currentPage) == seq(totalPages, i => i + 1)
  {
  }

  /** The page Previous asks for, or None when the button is disabled (`currentPage <= 1`). */
  function PreviousTarget(currentPage: int): (p: Option<int>)
    ensures p.None? <==> currentPage <= 1
    ensures p.Some? ==> p.value >= 1 && p.value == currentPage - 1
  {
    if currentPage <= 1 then None else Some(currentPage - 1)
  }

  /** The page Next asks for, or None when the button is disabled (`currentPage >= total_pages`). */
  function NextTarget(currentPage: int, totalPages: int): (p: Option<int>)
    ensures p.None? <==> currentPage >= totalPages
    ensures p.Some? ==> p.value <= totalPages && p.value == currentPage + 1
  {
    if currentPage >= totalPages then None else Some(currentPage + 1)
  }

  /** The pagination bar is drawn only when the listing has pagination and more than one page. */
  function PaginationVisible(pagination: Option<Pagination>): (v: bool)
    ensures v <==> pagination.Some? && pagination.value.total_pages > 1
    ensures v ==> 2 <= |PageWindow(pagination.value.total_pages, 1)| <= 5
  {
    pagination.Some? && pagination.value.total_pages > 1
  }

  /** Score thresholds of the score column, from the highest down. */
  const ScoreThresholds: seq<real> := [0.9, 0.75, 0.5]
  /** Text classes of the score tiers, bottom tier first. */
  const ScoreTextPalette: seq<string> := ["text-emerald-600", "text-blue-600", "text-amber-600", "text-red-600"]
  /** Bar classes of the score tiers, bottom tier first. */
  const ScoreBarPalette: seq<string> := ["bg-emerald-500", "bg-blue-500", "bg-amber-500", "bg-red-500"]

  /** `getScoreColor`: the class of a score is the one of the tier it reaches. */
  function ScoreColor(score: real): (c: string)
    ensures c == ScoreTextPalette[Reached(score, ScoreThresholds)]
  {
    ReachedCons(score, 0.9, [0.75, 0.5]);
    ReachedCons(score, 0.75, [0.5]);
    ReachedCons(score, 0.5, []);
    if score >= 0.9 then "text-red-600"
    else if score >= 0.75 then "text-amber-600"
    else if score >= 0.5 then "text-blue-600"
    else "text-emerald-600"
  }

  /** `getScoreBarColor`: the bar class of a score is the one of the tier it reaches. */
  function ScoreBarColor(score: real): (c: string)
    ensures c == ScoreBarPalette[Reached(score, ScoreThresholds)]
  {
    ReachedCons(score, 0.9, [0.75, 0.5]);
    ReachedCons(score, 0.75, [0.5]);
    ReachedCons(score, 0.5, []);
    if score >= 0.9 then "bg-red-500"
    else if score >= 0.75 then "bg-amber-500"
    else if score >= 0.5 then "bg-blue-500"
    else "bg-emerald-500"
  }

  /** The text colour and the bar colour of two scores agree on whether the scores share a tier. */
  lemma ScoreColorsAgree(a: real, b: real)
    ensures ScoreColor(a) == ScoreColor(b) <==> ScoreBarColor(a) == ScoreBarColor(b)
    ensures ScoreColor(a) == ScoreColor(b) <==> Reached(a, ScoreThresholds) == Reached(b, ScoreThresholds)
  {
    var i, j := Reached(a, ScoreThresholds), Reached(b, ScoreThresholds);
    assert i != j ==> ScoreTextPalette[i] != ScoreTextPalette[j] && ScoreBarPalette[i] != ScoreBarPalette[j] by {
      if i != j {
        assert ScoreTextPalette[i][5] != ScoreTextPalette[j][5] || |ScoreTextPalette[i]| != |ScoreTextPalette[j]|;
        assert ScoreBarPalette[i][3] != ScoreBarPalette[j][3] || |ScoreBarPalette[i]| != |ScoreBarPalette[j]|;
      }
    }
  }

  /** A higher score is never drawn in a lower tier. */
  lemma ScoreTierMonotone(a: real, b: real)
    requires a <= b
    ensures Reached(a, ScoreThresholds) <= Reached(b, ScoreThresholds)
  {
    ReachedMonotone(a, b, ScoreThresholds);
  }

  /** The statuses that have a badge of their own. */
  const RiskStatuses: seq<string> := ["High Risk", "Suspicious", "Review Needed"]

  /** A status badge: the word shown and its colour family. */
  datatype Badge = Badge(text: string, hue: string)

  /** `getStatusBadge` */
  function StatusBadge(status: string): (b: Badge)
    ensures status in RiskStatuses ==> b.text == status
    ensures status !in RiskStatuses ==> b == Badge("Normal", "emerald")
    ensures status == "High Risk" ==> b.hue == "red"
    ensures status == "Suspicious" ==> b.hue == "amber"
    ensures status == "Review Needed" ==> b.hue == "blue"
  {
    match status
    case "High Risk" => Badge("High Risk", "red")
    case "Suspicious" => Badge("Suspicious", "amber")
    case "Review Needed" => Badge("Review Needed", "blue")
    case _ => Badge("Normal", "emerald")
  }
}
