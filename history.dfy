/** The history page: the list of past analyses, its three totals, the model
    tag of each entry, and the loading and error state of its fetch. */
module HistoryPage {
  import opened Common
  import opened ApiTypes

  /** `history.reduce((sum, h) => sum + h.total_consumers, 0)` */
  function TotalConsumers(history: seq<HistoryEntry>): (n: int)
    ensures (forall i :: 0 <= i < |history| ==> history[i].total_consumers >= 0) ==> n >= 0
    ensures |history| == 1 ==> n == history[0].total_consumers
  {
    if |history| == 0 then 0
    else TotalConsumers(history[..|history| - 1]) + history[|history| - 1].total_consumers
  }

  /** `history.reduce((sum, h) => sum + h.anomalies_detected, 0)` */
  function TotalAnomalies(history: seq<HistoryEntry>): (n: int)
    ensures (forall i :: 0 <= i < |history| ==> history[i].anomalies_detected >= 0) ==> n >= 0
    ensures |history| == 1 ==> n == history[0].anomalies_detected
  {
    if |history| == 0 then 0
    else TotalAnomalies(history[..|history| - 1]) + history[|history| - 1].anomalies_detected
  }

  /** `history.filter((h) => h.used_autoencoder).length` */
  function AutoencoderCount(history: seq<HistoryEntry>): (n: nat)
    ensures n <= |history|
    ensures n == |history| <==> forall i :: 0 <= i < |history| ==> history[i].used_autoencoder
    ensures n == 0 <==> forall i :: 0 <= i < |history| ==> !history[i].used_autoencoder
  {
    if |history| == 0 then 0
    else
      var init := history[..|history| - 1];
      assert forall i :: 0 <= i < |init| ==> init[i] == history[i];
      AutoencoderCount(init) + (if history[|history| - 1].used_autoencoder then 1 else 0)
  }

  /** With no analyses every total is zero. */
  lemma EmptyTotals()
    ensures TotalConsumers([]) == 0 && TotalAnomalies([]) == 0 && AutoencoderCount([]) == 0
  {
  }

  /** Appending an entry raises each total by exactly that entry's part. */
  lemma AppendEntry(history: seq<HistoryEntry>, e: HistoryEntry)
    ensures TotalConsumers(history + [e]) == TotalConsumers(history) + e.total_consumers
    ensures TotalAnomalies(history + [e]) == TotalAnomalies(history) + e.anomalies_detected
    ensures AutoencoderCount(history + [e]) == AutoencoderCount(history) + (if e.used_autoencoder then 1 else 0)
  {
    assert (history + [e])[..|history|] == history;
  }

  /** The totals of two lists joined are the sums of their totals. */
  lemma {:induction false} ConcatTotals(a: seq<HistoryEntry>, b: seq<HistoryEntry>)
    ensures TotalConsumers(a + b) == TotalConsumers(a) + TotalConsumers(b)
    ensures TotalAnomalies(a + b) == TotalAnomalies(a) + TotalAnomalies(b)
    ensures AutoencoderCount(a + b) == AutoencoderCount(a) + AutoencoderCount(b)
  {
    if |b| == 0 {
      assert a + b == a;
    } else {
      var init := b[..|b| - 1];
      ConcatTotals(a, init);
      assert (a + b)[..|a + b| - 1] == a + init;
      assert (a + b)[|a + b| - 1] == b[|b| - 1];
    }
  }

  /** With no negative counts, the anomalies of all analyses are at most the consumers of all analyses. */
  lemma {:induction false} AnomaliesWithinConsumers(history: seq<HistoryEntry>)
    requires forall i :: 0 <= i < |history| ==> 0 <= history[i].anomalies_detected <= history[i].total_consumers
    ensures 0 <= TotalAnomalies(history) <= TotalConsumers(history)
  {
    if |history| > 0 {
      AnomaliesWithinConsumers(history[..|history| - 1]);
    }
  }

  /** The tag shown on an entry: its model name and the colour family of the tag. */
  function ModelTag(entry: HistoryEntry): (tag: (string, string))
    ensures entry.used_autoencoder ==> tag == ("Autoencoder", "purple")
    ensures !entry.used_autoencoder ==> tag == ("Isolation Forest", "emerald")
  {
    if entry.used_autoencoder then ("Autoencoder", "purple") else ("Isolation Forest", "emerald")
  }

  /** The message shown when the fetch fails. */
  const LoadError: string := "Failed to load analysis history"

  /** What the list area shows. */
  datatype ListView = Spinner | EmptyList | Cards

  class History {
    var history: seq<HistoryEntry>
    var loading: bool
    var error: Option<string>

    /** An error message is only ever the load error. */
    ghost predicate Valid()
      reads this
    {
      error.Some? ==> error.value == LoadError
    }

    /** The page as first rendered. */
    constructor ()
      ensures Valid() && history == [] && loading && error.None?
    {
      history := [];
      loading := true;
      error := None;
    }

    function ShownList(): (v: ListView)
      reads this
      ensures v == Spinner <==> loading
      ensures v == EmptyList <==> !loading && history == []
      ensures v == Cards <==> !loading && |history| > 0
    {
      if loading then Spinner else if |history| == 0 then EmptyList else Cards
    }

    /** The start of `fetchHistory`, on mount or on Refresh. */
    method StartFetch()
      requires Valid()
      modifies this
      ensures Valid() && loading && error.None? && history == old(history)
    {
      loading := true;
      error := None;
    }

    /** The end of `fetchHistory`: a success replaces the list (an empty one
        when the response has none); a failure keeps the list and sets the
        error; loading ends either way. */
    method FinishFetch(outcome: Outcome<Option<seq<HistoryEntry>>>)
      requires Valid()
      modifies this
      ensures Valid() && !loading
      ensures outcome.Success? && outcome.value.Some? ==> history == outcome.value.value
      ensures outcome.Success? && outcome.value.None? ==> history == []
      ensures outcome.Success? ==> error == old(error)
      ensures outcome.Failure? ==> history == old(history) && error == Some(LoadError)
    {
      if outcome.Success? {
        history := if outcome.value.Some? then outcome.value.value else [];
      } else {
        error := Some(LoadError);
      }
      loading := false;
    }
  }

  /** A fetch that starts and succeeds leaves no error. */
  method FetchSucceeds(page: History, entries: seq<HistoryEntry>)
    requires page.Valid()
    modifies page
    ensures page.Valid() && !page.loading && page.error.None? && page.history == entries
  {
    page.StartFetch();
    page.FinishFetch(Success(Some(entries)));
  }
}
