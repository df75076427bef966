/** The list component: which of its four panels it renders for the store's
    state, and its fetch on mount and on "Try Again". */
module TalentList {
  import opened Seqs
  import opened Talents
  import opened Thunks
  import TalentsSlice

  /** The four panels: the spinner, the error panel with the store's
      message, the empty panel with its heading, and the list with its
      count badge. */
  datatype ListView =
    | Spinner
    | ErrorPanel(message: string)
    | EmptyPanel(heading: string)
    | ListPanel(count: string, shown: seq<Talent>)

  /** An error message the page treats as present: set and not empty. */
  predicate ErrorShown(error: Option<string>) {
    error.Some? && error.value != ""
  }

  /** The spinner while loading with nothing to show; then the error panel;
      then the empty panel ("No Talents Found" under a search text, "No
      Talents Yet" otherwise); else the filtered records. */
  function SelectListView(s: TalentsSlice.State): (v: ListView)
    ensures v.Spinner? <==> s.loading && s.filteredTalents == []
    ensures v.ErrorPanel? <==> !(s.loading && s.filteredTalents == []) && ErrorShown(s.error)
    ensures v.ErrorPanel? ==> s.error == Some(v.message)
    ensures v.EmptyPanel? <==>
      !(s.loading && s.filteredTalents == []) && !ErrorShown(s.error) && s.filteredTalents == []
    ensures v.EmptyPanel? ==> (v.heading == "No Talents Found" <==> s.currentFilter != "")
    ensures v.EmptyPanel? ==> (v.heading == "No Talents Yet" <==> s.currentFilter == "")
    ensures v.ListPanel? ==> v.shown == s.filteredTalents && v.shown != []
    ensures v.ListPanel? ==> v.count == CountLabel(|s.filteredTalents|)
  {
    if s.loading && |s.filteredTalents| == 0 then Spinner
    else if s.error.Some? && s.error.value != "" then ErrorPanel(s.error.value)
    else if |s.filteredTalents| == 0 then
      EmptyPanel(if s.currentFilter != "" then "No Talents Found" else "No Talents Yet")
    else ListPanel(CountLabel(|s.filteredTalents|), s.filteredTalents)
  }

  /** While a fetch is pending the list keeps showing what it had (its error
      is cleared), and once it settles: a rejection shows the error panel
      with the operation's message, and a fulfilment shows neither the
      spinner nor the error panel. */
  lemma FetchViews(s: TalentsSlice.State, outcome: Outcome<seq<Talent>>)
    ensures var p := TalentsSlice.Reduce(s, TalentsSlice.OperationPending(Fetch));
      && (s.filteredTalents != [] ==> SelectListView(p) == ListPanel(CountLabel(|s.filteredTalents|), s.filteredTalents))
      && (s.filteredTalents == [] ==> SelectListView(p) == Spinner)
    ensures var s' := TalentsSlice.Reduce(
        TalentsSlice.Reduce(s, TalentsSlice.OperationPending(Fetch)), TalentsSlice.FetchSettled(outcome));
      && (outcome.Rejected? && outcome.message != "" ==> SelectListView(s') == ErrorPanel(outcome.message))
      && (outcome.Fulfilled? ==> !SelectListView(s').Spinner? && !SelectListView(s').ErrorPanel?)
      && (outcome.Fulfilled? && outcome.value != [] ==> SelectListView(s').shown == outcome.value)
  {
  }

  /** The mount effect and the "Try Again" button: wait for a fetch to settle. */
  method FetchAgain(store: TalentsSlice.Store, outcome: Outcome<seq<Talent>>)
    requires store.Valid()
    modifies store
    ensures store.Valid()
    ensures store.Snapshot() == TalentsSlice.Reduce(
      TalentsSlice.Reduce(old(store.Snapshot()), TalentsSlice.OperationPending(Fetch)),
      TalentsSlice.FetchSettled(outcome))
    ensures outcome.Rejected? && outcome.message != "" ==> SelectListView(store.Snapshot()) == ErrorPanel(outcome.message)
  {
    FetchViews(old(store.Snapshot()), outcome);
    store.AwaitFetch(outcome);
  }
}
