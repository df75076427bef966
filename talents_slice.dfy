/** The `talents` slice of the Redux store: its state, the two plain reducers
    (`clearMessages`, `setFilter`) and the pending / fulfilled / rejected cases
    of the fetch, add, update and delete operations.

    `Reduce` states each transition on a `State` value; the class `Store` holds
    the same fields and performs the transitions by assigning them, one method
    per reducer case, each proved to agree with `Reduce`. */
module TalentsSlice {
  import opened Seqs
  import opened Talents
  import opened Thunks

  const AddedMessage := "Talent added successfully!"
  const UpdatedMessage := "Talent updated successfully!"
  const DeletedMessage := "Talent deleted successfully!"

  /** `error` and `successMessage` are `null` (None) or a string. */
  datatype State = State(
    talents: seq<Talent>,
    filteredTalents: seq<Talent>,
    loading: bool,
    error: Option<string>,
    successMessage: Option<string>,
    currentFilter: string)

  const InitialState := State([], [], false, None, None, "")

  /** The actions the slice handles. The four operations' `pending` cases are
      the same code, and so are their `rejected` cases, so each pair of four is
      one constructor carrying the operation. */
  datatype Action =
    | ClearMessages
    | SetFilter(filter: string)
    | OperationPending(op: Operation)
    | OperationRejected(op: Operation, message: string)
    | FetchFulfilled(records: seq<Talent>)
    | AddFulfilled(record: Talent)
    | UpdateFulfilled(record: Talent)
    | DeleteFulfilled(id: string)

  function Reduce(s: State, a: Action): State {
    match a
    case ClearMessages =>
      s.(error := None, successMessage := None)
    case SetFilter(f) =>
      s.(currentFilter := f, filteredTalents := FilterView(s.talents, f))
    case OperationPending(_) =>
      s.(loading := true, error := None)
    case OperationRejected(_, m) =>
      s.(loading := false, error := Some(m))
    case FetchFulfilled(records) =>
      s.(loading := false, talents := records, filteredTalents := records, error := None)
    case AddFulfilled(t) =>
      var ts := [t] + s.talents;
      s.(loading := false, talents := ts, filteredTalents := FilterView(ts, s.currentFilter),
         successMessage := Some(AddedMessage), error := None)
    case UpdateFulfilled(t) =>
      var ts := ReplaceFirstById(s.talents, t);
      s.(loading := false, talents := ts, filteredTalents := FilterView(ts, s.currentFilter),
         successMessage := Some(UpdatedMessage), error := None)
    case DeleteFulfilled(id) =>
      s.(loading := false, talents := WithoutId(s.talents, id),
         filteredTalents := WithoutId(s.filteredTalents, id),
         successMessage := Some(DeletedMessage), error := None)
  }

  /** The action an add or an update settles with: the server's record, or
      the rejection message. */
  function Settled(op: Operation, outcome: Outcome<Talent>): (a: Action)
    requires op == Add || op == Update
    ensures outcome.Rejected? ==> a == OperationRejected(op, outcome.message)
    ensures outcome.Fulfilled? && op == Add ==> a == AddFulfilled(outcome.value)
    ensures outcome.Fulfilled? && op == Update ==> a == UpdateFulfilled(outcome.value)
  {
    match outcome
    case Fulfilled(t) => if op == Add then AddFulfilled(t) else UpdateFulfilled(t)
    case Rejected(m) => OperationRejected(op, m)
  }

  /** The action a delete of `id` settles with: the thunk fulfils with the id it was given. */
  function DeleteSettled(id: string, outcome: Outcome<()>): (a: Action)
    ensures outcome.Rejected? ==> a == OperationRejected(Delete, outcome.message)
    ensures outcome.Fulfilled? ==> a == DeleteFulfilled(id)
  {
    match outcome
    case Fulfilled(_) => DeleteFulfilled(id)
    case Rejected(m) => OperationRejected(Delete, m)
  }

  /** The action a fetch settles with: the server's list, or the rejection message. */
  function FetchSettled(outcome: Outcome<seq<Talent>>): (a: Action)
    ensures outcome.Rejected? ==> a == OperationRejected(Fetch, outcome.message)
    ensures outcome.Fulfilled? ==> a == FetchFulfilled(outcome.value)
  {
    match outcome
    case Fulfilled(ts) => FetchFulfilled(ts)
    case Rejected(m) => OperationRejected(Fetch, m)
  }

  /** The derived list agrees with the filter: `filteredTalents == filter(talents, currentFilter)`. */
  predicate Consistent(s: State) {
    s.filteredTalents == FilterView(s.talents, s.currentFilter)
  }

  /** The weaker invariant every transition keeps: the shown list is drawn from `talents`, in order. */
  predicate ShowsSubsequence(s: State) {
    IsSubsequence(s.filteredTalents, s.talents)
  }

  // ---------------------------------------------------------------------------
  // One transition

  /** `setFilter` sets the filter, recomputes the shown list and touches nothing else;
      applying it twice is the same as applying it once. */
  lemma SetFilterSpec(s: State, f: string)
    ensures var r := Reduce(s, SetFilter(f));
      && r.currentFilter == f && r.talents == s.talents && r.loading == s.loading
      && r.error == s.error && r.successMessage == s.successMessage
      && (f == "" ==> r.filteredTalents == s.talents)
      && (f != "" ==> forall t :: t in r.filteredTalents <==> t in s.talents && HasMatchingSkill(t, f))
      && IsSubsequence(r.filteredTalents, s.talents)
      && Reduce(r, SetFilter(f)) == r
  {
  }

  /** Adding puts the new record first and grows the list by one. */
  lemma AddFulfilledSpec(s: State, t: Talent)
    ensures var r := Reduce(s, AddFulfilled(t));
      && |r.talents| == |s.talents| + 1 && r.talents[0] == t && r.talents[1..] == s.talents
      && Consistent(r) && r.successMessage == Some(AddedMessage) && r.error == None && !r.loading
  {
    var r := Reduce(s, AddFulfilled(t));
    assert r.talents[1..] == s.talents;
  }

  /** Updating keeps the length; it replaces exactly the first record with the
      payload's id, or nothing when no record has it, and still reports success. */
  lemma UpdateFulfilledSpec(s: State, t: Talent)
    ensures var r := Reduce(s, UpdateFulfilled(t));
      && |r.talents| == |s.talents|
      && ((forall k :: 0 <= k < |s.talents| ==> s.talents[k].id != t.id) ==> r.talents == s.talents)
      && (forall k :: 0 <= k < |s.talents| && s.talents[k].id == t.id ==>
            r.talents[IndexOfId(s.talents, t.id)] == t
            && forall j :: 0 <= j < |s.talents| && j != IndexOfId(s.talents, t.id) ==> r.talents[j] == s.talents[j])
      && Consistent(r) && r.successMessage == Some(UpdatedMessage) && r.error == None && !r.loading
  {
  }

  /** Deleting removes every record with the id from both lists, keeps the
      other records in order, and with unique ids shrinks the list by exactly one
      when the id was present. */
  lemma {:induction false} DeleteFulfilledSpec(s: State, id: string)
    requires UniqueIds(s.talents)
    ensures var r := Reduce(s, DeleteFulfilled(id));
      && (forall t :: t in r.talents <==> t in s.talents && t.id != id)
      && (forall t :: t in r.filteredTalents <==> t in s.filteredTalents && t.id != id)
      && IsSubsequence(r.talents, s.talents)
      && |r.talents| == |s.talents| - (if exists k :: 0 <= k < |s.talents| && s.talents[k].id == id then 1 else 0)
      && r.successMessage == Some(DeletedMessage) && r.error == None && !r.loading
  {
    WithoutIdSpec(s.talents, id);
    WithoutIdSpec(s.filteredTalents, id);
    WithoutIdRemovesOne(s.talents, id);
  }

  /** Every `pending` case sets `loading` and clears `error`; every `rejected`
      case clears `loading` and stores the message; neither touches the lists,
      the filter or the success message. */
  lemma PendingRejectedSpec(s: State, op: Operation, m: string)
    ensures Reduce(s, OperationPending(op)) ==
      State(s.talents, s.filteredTalents, true, None, s.successMessage, s.currentFilter)
    ensures Reduce(s, OperationRejected(op, m)) ==
      State(s.talents, s.filteredTalents, false, Some(m), s.successMessage, s.currentFilter)
  {
  }

  /** Every transition keeps the shown list a subsequence of `talents`. */
  lemma {:induction false} ReduceKeepsSubsequence(s: State, a: Action)
    requires ShowsSubsequence(s)
    ensures ShowsSubsequence(Reduce(s, a))
  {
    match a
    case FetchFulfilled(records) =>
      SubsequenceReflexive(records);
    case DeleteFulfilled(id) =>
      FilterKeepsSubsequence(s.filteredTalents, s.talents, IdIsNot(id));
    case _ =>
  }

  /** Every transition except a fulfilled fetch keeps `filteredTalents` equal to
      the filter applied to `talents`. */
  lemma {:induction false} ReduceKeepsConsistent(s: State, a: Action)
    requires Consistent(s) && !a.FetchFulfilled?
    ensures Consistent(Reduce(s, a))
  {
    if a.DeleteFulfilled? {
      WithoutIdCommutes(s.talents, a.id, s.currentFilter);
    }
  }

  /** A fulfilled fetch shows the whole payload whatever the filter, so the
      derived list agrees with the filter only when the filter keeps every record. */
  lemma FetchFulfilledConsistency(s: State, records: seq<Talent>)
    ensures Consistent(Reduce(s, FetchFulfilled(records))) <==> FilterView(records, s.currentFilter) == records
    ensures s.currentFilter == "" ==> Consistent(Reduce(s, FetchFulfilled(records)))
  {
  }

  /** An active filter followed by a refetch leaves the filter in place and the
      list unfiltered: filter "go", then a fetch returning one talent whose only
      skill is "Rust". */
  lemma StaleListAfterRefetch()
    ensures var t := Talent("1", "Ann", "ann@x.io", ["Rust"], 3, 0);
      var s := Reduce(Reduce(InitialState, SetFilter("go")), FetchFulfilled([t]));
      s.currentFilter == "go" && s.filteredTalents == [t] && !Consistent(s)
  {
    var t := Talent("1", "Ann", "ann@x.io", ["Rust"], 3, 0);
    RustDoesNotMatchGo();
    assert !HasMatchingSkill(t, "go");
    assert t !in FilterView([t], "go");
  }

  /** The search text "go" is not part of the skill "Rust", in either case. */
  lemma RustDoesNotMatchGo()
    ensures !Text.Contains(Text.Lower("Rust"), Text.Lower("go"))
  {
    assert Text.Lower("Rust") == "rust";
    assert Text.Lower("go") == "go";
    assert !Text.Contains("", "go");
    assert !Text.Contains("t", "go");
    assert "go"[0] != "st"[0] && "go"[0] != "ust"[0] && "go"[0] != "rust"[0];
    assert !Text.Contains("st", "go");
    assert !Text.Contains("ust", "go");
  }

  // ---------------------------------------------------------------------------
  // Runs of transitions

  function Run(s: State, actions: seq<Action>): State
    decreases |actions|
  {
    if actions == [] then s else Run(Reduce(s, actions[0]), actions[1..])
  }

  /** No fulfilled fetch arrives while a non-empty filter is set. */
  predicate NoFetchUnderFilter(s: State, actions: seq<Action>)
    decreases |actions|
  {
    actions == [] ||
    ((!actions[0].FetchFulfilled? || s.currentFilter == "") &&
      NoFetchUnderFilter(Reduce(s, actions[0]), actions[1..]))
  }

  /** From the initial state the shown list is always a subsequence of `talents`. */
  lemma {:induction false} RunKeepsSubsequence(s: State, actions: seq<Action>)
    requires ShowsSubsequence(s)
    ensures ShowsSubsequence(Run(s, actions))
    decreases |actions|
  {
    if actions != [] {
      ReduceKeepsSubsequence(s, actions[0]);
      RunKeepsSubsequence(Reduce(s, actions[0]), actions[1..]);
    }
  }

  /** From the initial state, `filteredTalents == filter(talents, currentFilter)`
      holds after any run in which no fetch is fulfilled under a non-empty filter. */
  lemma {:induction false} RunKeepsConsistent(s: State, actions: seq<Action>)
    requires Consistent(s) && NoFetchUnderFilter(s, actions)
    ensures Consistent(Run(s, actions))
    decreases |actions|
  {
    if actions != [] {
      if actions[0].FetchFulfilled? {
        FetchFulfilledConsistency(s, actions[0].records);
      } else {
        ReduceKeepsConsistent(s, actions[0]);
      }
      RunKeepsConsistent(Reduce(s, actions[0]), actions[1..]);
    }
  }

  lemma InitialStateInvariants()
    ensures Consistent(InitialState) && ShowsSubsequence(InitialState)
  {
  }

  /** A rejected fetch from the initial state leaves the list empty, stops
      loading and reports the message. */
  lemma RejectedFetchScenario()
    ensures var s := Run(InitialState, [OperationPending(Fetch), OperationRejected(Fetch, "Network Error")]);
      && !s.loading && s.error == Some("Network Error") && s.talents == [] && s.filteredTalents == []
  {
    var s1 := Reduce(InitialState, OperationPending(Fetch));
    assert Run(InitialState, [OperationPending(Fetch), OperationRejected(Fetch, "Network Error")])
        == Run(s1, [OperationRejected(Fetch, "Network Error")]);
  }

  // ---------------------------------------------------------------------------
  // The store

  class Store {
    var talents: seq<Talent>
    var filteredTalents: seq<Talent>
    var loading: bool
    var error: Option<string>
    var successMessage: Option<string>
    var currentFilter: string

    function Snapshot(): State
      reads this
    {
      State(talents, filteredTalents, loading, error, successMessage, currentFilter)
    }

    ghost predicate Valid()
      reads this
    {
      ShowsSubsequence(Snapshot())
    }

    /** `initialState`. */
    constructor ()
      ensures Valid() && Snapshot() == InitialState
    {
      talents, filteredTalents := [], [];
      loading := false;
      error, successMessage := None, None;
      currentFilter := "";
    }

    method ClearMessages()
      requires Valid()
      modifies this
      ensures Valid()
      ensures error == None && successMessage == None
      ensures talents == old(talents) && filteredTalents == old(filteredTalents)
      ensures loading == old(loading) && currentFilter == old(currentFilter)
    {
      error := None;
      successMessage := None;
    }

    method SetFilter(payload: string)
      requires Valid()
      modifies this
      ensures Valid() && Consistent(Snapshot())
      ensures currentFilter == payload
      ensures filteredTalents == FilterView(talents, payload)
      ensures talents == old(talents) && loading == old(loading)
      ensures error == old(error) && successMessage == old(successMessage)
    {
      currentFilter := payload;
      if payload == "" {
        filteredTalents := talents;
      } else {
        filteredTalents := MatchingSkill(talents, payload);
      }
      assert filteredTalents == FilterView(talents, payload);
    }

    /** The `pending` case of each of the four operations. */
    method Pending(op: Operation)
      requires Valid()
      modifies this
      ensures Valid()
      ensures loading && error == None
      ensures talents == old(talents) && filteredTalents == old(filteredTalents)
      ensures successMessage == old(successMessage) && currentFilter == old(currentFilter)
    {
      loading := true;
      error := None;
    }

    /** The `rejected` case of each of the four operations. */
    method Rejected(op: Operation, message: string)
      requires Valid()
      modifies this
      ensures Valid()
      ensures !loading && error == Some(message)
      ensures talents == old(talents) && filteredTalents == old(filteredTalents)
      ensures successMessage == old(successMessage) && currentFilter == old(currentFilter)
    {
      loading := false;
      error := Some(message);
    }

    method FetchFulfilled(payload: seq<Talent>)
      requires Valid()
      modifies this
      ensures Valid()
      ensures !loading && error == None
      ensures talents == payload && filteredTalents == payload
      ensures successMessage == old(successMessage) && currentFilter == old(currentFilter)
    {
      loading := false;
      talents := payload;
      filteredTalents := payload;
      error := None;
      SubsequenceReflexive(payload);
    }

    method AddFulfilled(payload: Talent)
      requires Valid()
      modifies this
      ensures Valid() && Consistent(Snapshot())
      ensures !loading && error == None && successMessage == Some(AddedMessage)
      ensures talents == [payload] + old(talents)
      ensures filteredTalents == FilterView(talents, currentFilter)
      ensures currentFilter == old(currentFilter)
    {
      loading := false;
      talents := [payload] + talents;
      filteredTalents := if currentFilter != "" then MatchingSkill(talents, currentFilter) else talents;
      assert filteredTalents == FilterView(talents, currentFilter);
      successMessage := Some(AddedMessage);
      error := None;
    }

    method UpdateFulfilled(payload: Talent)
      requires Valid()
      modifies this
      ensures Valid() && Consistent(Snapshot())
      ensures !loading && error == None && successMessage == Some(UpdatedMessage)
      ensures talents == ReplaceFirstById(old(talents), payload)
      ensures filteredTalents == FilterView(talents, currentFilter)
      ensures currentFilter == old(currentFilter)
    {
      loading := false;
      var index := IndexOfId(talents, payload.id);
      if index != -1 {
        talents := talents[index := payload];
      }
      filteredTalents := if currentFilter != "" then MatchingSkill(talents, currentFilter) else talents;
      assert filteredTalents == FilterView(talents, currentFilter);
      successMessage := Some(UpdatedMessage);
      error := None;
    }

    method DeleteFulfilled(id: string)
      requires Valid()
      modifies this
      ensures Valid()
      ensures old(Consistent(Snapshot())) ==> Consistent(Snapshot())
      ensures !loading && error == None && successMessage == Some(DeletedMessage)
      ensures talents == WithoutId(old(talents), id)
      ensures filteredTalents == WithoutId(old(filteredTalents), id)
      ensures currentFilter == old(currentFilter)
    {
      ghost var after := Reduce(Snapshot(), Action.DeleteFulfilled(id));
      ReduceKeepsSubsequence(Snapshot(), Action.DeleteFulfilled(id));
      if Consistent(Snapshot()) {
        ReduceKeepsConsistent(Snapshot(), Action.DeleteFulfilled(id));
      }
      loading := false;
      talents := WithoutId(talents, id);
      filteredTalents := WithoutId(filteredTalents, id);
      successMessage := Some(DeletedMessage);
      error := None;
      assert Snapshot() == after;
    }

    /** `dispatch(action)`: the reducer case for the action. */
    method Dispatch(a: Action)
      requires Valid()
      modifies this
      ensures Valid()
      ensures Snapshot() == Reduce(old(Snapshot()), a)
    {
      match a
      case ClearMessages => ClearMessages();
      case SetFilter(f) => SetFilter(f);
      case OperationPending(op) => Pending(op);
      case OperationRejected(op, m) => Rejected(op, m);
      case FetchFulfilled(records) => FetchFulfilled(records);
      case AddFulfilled(t) => AddFulfilled(t);
      case UpdateFulfilled(t) => UpdateFulfilled(t);
      case DeleteFulfilled(id) => DeleteFulfilled(id);
    }

    /** `await dispatch(addTalent(...))` or `await dispatch(updateTalent(...))`:
        the pending case, then the case for the server's answer. Every field
        the pending case sets is set again when the operation settles, so the
        result is the settling case applied to the state before the call. */
    method Await(op: Operation, outcome: Outcome<Talent>)
      requires Valid() && (op == Add || op == Update)
      modifies this
      ensures Valid()
      ensures Snapshot() == Reduce(Reduce(old(Snapshot()), OperationPending(op)), Settled(op, outcome))
      ensures outcome.Rejected? ==> Snapshot() == Reduce(old(Snapshot()), Action.OperationRejected(op, outcome.message))
      ensures outcome.Fulfilled? && op == Add ==> Snapshot() == Reduce(old(Snapshot()), Action.AddFulfilled(outcome.value))
      ensures outcome.Fulfilled? && op == Update ==> Snapshot() == Reduce(old(Snapshot()), Action.UpdateFulfilled(outcome.value))
    {
      Dispatch(OperationPending(op));
      Dispatch(Settled(op, outcome));
    }

    /** `await dispatch(deleteTalent(id))`: as for `Await`, only the settling case shows. */
    method AwaitDelete(id: string, outcome: Outcome<()>)
      requires Valid()
      modifies this
      ensures Valid()
      ensures Snapshot() == Reduce(Reduce(old(Snapshot()), OperationPending(Delete)), DeleteSettled(id, outcome))
      ensures outcome.Rejected? ==> Snapshot() == Reduce(old(Snapshot()), Action.OperationRejected(Delete, outcome.message))
      ensures outcome.Fulfilled? ==> Snapshot() == Reduce(old(Snapshot()), Action.DeleteFulfilled(id))
    {
      Dispatch(OperationPending(Delete));
      Dispatch(DeleteSettled(id, outcome));
    }

    /** `await dispatch(fetchTalents())`: as for `Await`, only the settling case shows. */
    method AwaitFetch(outcome: Outcome<seq<Talent>>)
      requires Valid()
      modifies this
      ensures Valid()
      ensures Snapshot() == Reduce(Reduce(old(Snapshot()), OperationPending(Fetch)), FetchSettled(outcome))
      ensures outcome.Rejected? ==> Snapshot() == Reduce(old(Snapshot()), Action.OperationRejected(Fetch, outcome.message))
      ensures outcome.Fulfilled? ==> Snapshot() == Reduce(old(Snapshot()), Action.FetchFulfilled(outcome.value))
    {
      Dispatch(OperationPending(Fetch));
      Dispatch(FetchSettled(outcome));
    }
  }
}
