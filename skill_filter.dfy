/** The skill filter panel: a text input mirrored in the store's search text,
    a clear button, and up to ten chips for the distinct skills of all
    records in sorted order. */
module SkillFilter {
  import opened Seqs
  import opened Text
  import opened Talents
  import TalentsSlice

  /** The default `sort()` order on strings. */
  function SkillOrder(): (string, string) -> bool {
    (a: string, b: string) => LexLe(a, b)
  }

  lemma SkillOrderIsPreorder()
    ensures TotalPreorder(SkillOrder())
  {
    var le := SkillOrder();
    forall a: string, b: string ensures le(a, b) || le(b, a) {
      LexLeTotal(a, b);
    }
    forall a: string, b: string, c: string | le(a, b) && le(b, c) ensures le(a, c) {
      LexLeTransitive(a, b, c);
    }
  }

  /** `[...new Set(talents.flatMap(t => t.skills))].sort()`: every skill of
      every record, once each, in sorted order. */
  function SortedSkills(ts: seq<Talent>): (r: seq<string>)
    ensures NoDuplicates(r)
    ensures forall s :: s in r <==> exists k :: 0 <= k < |ts| && s in ts[k].skills
    ensures forall i, j :: 0 <= i < j < |r| ==> LexLe(r[i], r[j])
    ensures multiset(r) == multiset(AllSkills(ts))
  {
    SortedCopy(AllSkills(ts));
    Sort(AllSkills(ts), SkillOrder())
  }

  /** Sorting a list of distinct skills keeps them distinct and keeps each. */
  lemma SortedCopy(all: seq<string>)
    requires NoDuplicates(all)
    ensures var r := Sort(all, SkillOrder());
      && NoDuplicates(r)
      && (forall s :: s in r <==> s in all)
      && forall i, j :: 0 <= i < j < |r| ==> LexLe(r[i], r[j])
  {
    var r := Sort(all, SkillOrder());
    SkillOrderIsPreorder();
    SortIsSorted(all, SkillOrder());
    PermutationKeepsNoDuplicates(all, r);
    forall s ensures s in r <==> s in all {
      assert s in r <==> s in multiset(r);
      assert s in all <==> s in multiset(all);
    }
  }

  /** The chips: the first ten sorted skills. */
  function Chips(ts: seq<Talent>): (r: seq<string>)
    ensures |r| == if |SortedSkills(ts)| < 10 then |SortedSkills(ts)| else 10
    ensures r == SortedSkills(ts)[..|r|]
  {
    var all := SortedSkills(ts);
    all[..if |all| < 10 then |all| else 10]
  }

  /** The chip row is shown exactly when some record has a skill. */
  lemma ChipsShown(ts: seq<Talent>)
    ensures Chips(ts) != [] <==> exists k :: 0 <= k < |ts| && ts[k].skills != []
  {
    var all := SortedSkills(ts);
    if exists k :: 0 <= k < |ts| && ts[k].skills != [] {
      var k :| 0 <= k < |ts| && ts[k].skills != [];
      assert ts[k].skills[0] in all;
    }
    if all != [] {
      assert all[0] in all;
    }
  }

  /** Picking any listed skill as the search text keeps every record that has
      that skill in the store's view, so a chip never leads to an empty list. */
  lemma ChipFindsItsRecords(ts: seq<Talent>, skill: string)
    requires skill in SortedSkills(ts)
    ensures forall t :: t in ts && skill in t.skills ==> t in FilterView(ts, skill)
    ensures FilterView(ts, skill) != []
  {
    forall t | t in ts && skill in t.skills ensures t in FilterView(ts, skill) {
      if skill != "" {
        var k :| 0 <= k < |t.skills| && t.skills[k] == skill;
        assert SkillMatches(t.skills[k], skill);
      }
    }
    var k :| 0 <= k < |ts| && skill in ts[k].skills;
    assert ts[k] in FilterView(ts, skill);
  }

  class FilterPanel {
    var inputValue: string

    /** The input starts from the store's search text. */
    constructor (store: TalentsSlice.Store)
      ensures inputValue == store.currentFilter
    {
      inputValue := store.currentFilter;
    }

    /** The input and the store's search text agree. */
    predicate InSync(store: TalentsSlice.Store)
      reads this, store
    {
      inputValue == store.currentFilter
    }

    /** The clear button shows while the input holds text. */
    function ShowsClear(): (r: bool)
      reads this
      ensures r <==> |inputValue| > 0
    {
      inputValue != ""
    }

    /** `handleFilterChange`: the input takes the typed text and the store filters by it. */
    method HandleFilterChange(store: TalentsSlice.Store, value: string)
      requires store.Valid()
      modifies this, store
      ensures store.Valid() && InSync(store)
      ensures inputValue == value
      ensures store.Snapshot() == TalentsSlice.Reduce(old(store.Snapshot()), TalentsSlice.SetFilter(value))
    {
      inputValue := value;
      store.Dispatch(TalentsSlice.SetFilter(value));
    }

    /** `handleClear`: the input empties and the store shows every record again. */
    method HandleClear(store: TalentsSlice.Store)
      requires store.Valid()
      modifies this, store
      ensures store.Valid() && InSync(store)
      ensures inputValue == "" && !ShowsClear()
      ensures store.Snapshot() == TalentsSlice.Reduce(old(store.Snapshot()), TalentsSlice.SetFilter(""))
      ensures store.filteredTalents == store.talents == old(store.talents)
    {
      inputValue := "";
      store.Dispatch(TalentsSlice.SetFilter(""));
    }

    /** A chip's click: search for exactly that skill. */
    method PickChip(store: TalentsSlice.Store, skill: string)
      requires store.Valid()
      modifies this, store
      ensures store.Valid() && InSync(store)
      ensures inputValue == skill
      ensures store.Snapshot() == TalentsSlice.Reduce(old(store.Snapshot()), TalentsSlice.SetFilter(skill))
      ensures skill in Chips(old(store.talents)) ==> store.filteredTalents != []
    {
      if skill in Chips(store.talents) {
        ChipFindsItsRecords(store.talents, skill);
      }
      inputValue := skill;
      store.Dispatch(TalentsSlice.SetFilter(skill));
    }
  }
}
