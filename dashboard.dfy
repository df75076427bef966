/** The dashboard's derived views: the experience-range filter and the sort
    applied to the store's filtered list, the popular skills, the CSV export
    text, the card's experience label and the choice between the loading
    skeleton, the empty card and the grid. All of them are functions of the
    store's state and the page's two selects. */
module Dashboard {
  import opened Seqs
  import opened Text
  import opened Talents
  import TalentsSlice

  // ---------------------------------------------------------------------------
  // Experience range

  /** The range select: "all" (the default, and every value the switch does
      not name), "0-2", "3-5", "6-10" and "10+". */
  datatype ExperienceRange = AllLevels | UpTo2 | From3To5 | From6To10 | Over10

  predicate InRange(range: ExperienceRange, experience: int) {
    match range
    case AllLevels => true
    case UpTo2 => 0 <= experience <= 2
    case From3To5 => 3 <= experience <= 5
    case From6To10 => 6 <= experience <= 10
    case Over10 => experience > 10
  }

  /** The callback given to `filter` for a range. */
  function RangeFilter(range: ExperienceRange): Talent -> bool {
    (t: Talent) => InRange(range, t.experience)
  }

  /** `filterByExperience`: the records whose experience is in the range, in
      their order; "all" keeps the list as it is. */
  function FilterByExperience(ts: seq<Talent>, range: ExperienceRange): (r: seq<Talent>)
    ensures range == AllLevels ==> r == ts
    ensures forall t :: t in r <==> t in ts && InRange(range, t.experience)
    ensures |r| <= |ts|
    ensures IsSubsequence(r, ts)
  {
    if range == AllLevels then
      SubsequenceReflexive(ts);
      ts
    else
      FilterIsSubsequence(ts, RangeFilter(range));
      Filter(ts, RangeFilter(range))
  }

  /** The range that goes with a card's level. */
  function RangeOf(l: Level): ExperienceRange {
    match l
    case Junior => UpTo2
    case MidLevel => From3To5
    case Senior => From6To10
    case Expert => Over10
  }

  /** The four ranges split the non-negative experiences between them: each
      falls in exactly the range of its card level, so 10 is in "6-10". A
      negative experience is in none of them. */
  lemma RangesPartition(experience: int)
    ensures experience >= 0 ==> forall range :: range != AllLevels ==>
      (InRange(range, experience) <==> range == RangeOf(LevelOf(experience)))
    ensures experience < 0 ==> forall range :: range != AllLevels ==> !InRange(range, experience)
  {
  }

  // ---------------------------------------------------------------------------
  // Sorting

  /** The sort select: "newest" (the default), "oldest", "name",
      "experience-high", "experience-low", and any other value, which leaves
      the copy unsorted. */
  datatype SortKey = Newest | Oldest | ByName | ExperienceHigh | ExperienceLow | Unknown

  /** "`a` may come before `b`" for each key: the comparator's result is not positive. */
  function Order(key: SortKey): (Talent, Talent) -> bool {
    match key
    case Newest => (a: Talent, b: Talent) => a.createdAt >= b.createdAt
    case Oldest => (a: Talent, b: Talent) => a.createdAt <= b.createdAt
    case ByName => (a: Talent, b: Talent) => LexLe(a.name, b.name)
    case ExperienceHigh => (a: Talent, b: Talent) => a.experience >= b.experience
    case ExperienceLow => (a: Talent, b: Talent) => a.experience <= b.experience
    case Unknown => (a: Talent, b: Talent) => true
  }

  /** `sortTalents`: a sorted copy; the list it is given is a value and is not changed. */
  function SortTalents(ts: seq<Talent>, key: SortKey): (r: seq<Talent>)
    ensures multiset(r) == multiset(ts)
    ensures key == Unknown ==> r == ts
  {
    if key == Unknown then ts else Sort(ts, Order(key))
  }

  /** Every key's order is total and transitive. */
  lemma OrdersArePreorders(key: SortKey)
    ensures TotalPreorder(Order(key))
  {
    if key == ByName {
      var le := Order(key);
      forall a: Talent, b: Talent ensures le(a, b) || le(b, a) {
        LexLeTotal(a.name, b.name);
      }
      forall a: Talent, b: Talent, c: Talent | le(a, b) && le(b, c) ensures le(a, c) {
        LexLeTransitive(a.name, b.name, c.name);
      }
    }
  }

  /** The sorted copy is in the key's order. */
  lemma SortTalentsOrdered(ts: seq<Talent>, key: SortKey)
    ensures var r := SortTalents(ts, key);
      && (key == Newest ==> forall i, j :: 0 <= i < j < |r| ==> r[i].createdAt >= r[j].createdAt)
      && (key == Oldest ==> forall i, j :: 0 <= i < j < |r| ==> r[i].createdAt <= r[j].createdAt)
      && (key == ByName ==> forall i, j :: 0 <= i < j < |r| ==> LexLe(r[i].name, r[j].name))
      && (key == ExperienceHigh ==> forall i, j :: 0 <= i < j < |r| ==> r[i].experience >= r[j].experience)
      && (key == ExperienceLow ==> forall i, j :: 0 <= i < j < |r| ==> r[i].experience <= r[j].experience)
  {
    if key != Unknown {
      OrdersArePreorders(key);
      SortIsSorted(ts, Order(key));
    }
  }

  /** `Array.prototype.sort` is stable: records the key ranks level with `t`
      (the same date, name or experience) keep the order they had in the list. */
  lemma SortTalentsStable(ts: seq<Talent>, key: SortKey, t: Talent)
    ensures Filter(SortTalents(ts, key), Ties(Order(key), t)) == Filter(ts, Ties(Order(key), t))
  {
    if key != Unknown {
      OrdersArePreorders(key);
      SortIsStable(ts, Order(key), t);
    }
  }

  /** `displayedTalents`: the store's filtered list, narrowed to the range and sorted. */
  function DisplayedTalents(filtered: seq<Talent>, range: ExperienceRange, key: SortKey): seq<Talent> {
    SortTalents(FilterByExperience(filtered, range), key)
  }

  /** The displayed records are a reordering of a subsequence of the store's
      filtered list: exactly its records in the range. */
  lemma DisplayedTalentsSpec(filtered: seq<Talent>, range: ExperienceRange, key: SortKey)
    ensures var r := DisplayedTalents(filtered, range, key);
      && |r| <= |filtered|
      && (forall t :: t in r <==> t in filtered && InRange(range, t.experience))
      && exists sub :: IsSubsequence(sub, filtered) && multiset(r) == multiset(sub)
  {
    var sub := FilterByExperience(filtered, range);
    var r := DisplayedTalents(filtered, range, key);
    assert |r| == |multiset(r)| == |multiset(sub)| == |sub|;
    forall t ensures t in r <==> t in sub {
      assert t in r <==> t in multiset(r);
      assert t in sub <==> t in multiset(sub);
    }
  }

  // ---------------------------------------------------------------------------
  // Popular skills

  /** `topSkills`: the first five distinct skills, or all of them when there are fewer. */
  function TopSkills(ts: seq<Talent>): (r: seq<string>)
    ensures |r| == if |AllSkills(ts)| < 5 then |AllSkills(ts)| else 5
    ensures r == AllSkills(ts)[..|r|]
    ensures NoDuplicates(r)
  {
    var all := AllSkills(ts);
    all[..if |all| < 5 then |all| else 5]
  }

  /** The popular-skills row shows exactly when some record has a skill. */
  lemma TopSkillsShown(ts: seq<Talent>)
    ensures TopSkills(ts) != [] <==> exists k :: 0 <= k < |ts| && ts[k].skills != []
  {
    var all := AllSkills(ts);
    if exists k :: 0 <= k < |ts| && ts[k].skills != [] {
      var k :| 0 <= k < |ts| && ts[k].skills != [];
      assert ts[k].skills[0] in all;
    }
    if all != [] {
      assert all[0] in all;
    }
  }

  // ---------------------------------------------------------------------------
  // CSV export

  const CsvHeader := "Name,Email,Skills,Experience,Date Added"

  /** `"${cell}"`: no escaping of quotes inside the cell. */
  function Quote(cell: string): (r: string)
    ensures |r| == |cell| + 2 && r[0] == '"' && r[|r| - 1] == '"' && r[1..|r| - 1] == cell
  {
    "\"" + cell + "\""
  }

  function QuoteAll(cells: seq<string>): (r: seq<string>)
    ensures |r| == |cells|
    ensures forall k :: 0 <= k < |cells| ==> r[k] == Quote(cells[k])
  {
    seq(|cells|, k requires 0 <= k < |cells| => Quote(cells[k]))
  }

  /** A record's cells; the date text is the locale formatting of `createdAt`,
      a parameter here. */
  function CsvCells(t: Talent, formatDate: int -> string): seq<string> {
    [t.name, t.email, Join(t.skills, "; "), IntToString(t.experience), formatDate(t.createdAt)]
  }

  function CsvRow(t: Talent, formatDate: int -> string): string {
    Join(QuoteAll(CsvCells(t, formatDate)), ",")
  }

  /** The header line, then one line per displayed record, in order. */
  function CsvLines(ts: seq<Talent>, formatDate: int -> string): (r: seq<string>)
    ensures |r| == |ts| + 1 && r[0] == CsvHeader
    ensures forall k :: 0 <= k < |ts| ==> r[k + 1] == CsvRow(ts[k], formatDate)
  {
    [CsvHeader] + seq(|ts|, k requires 0 <= k < |ts| => CsvRow(ts[k], formatDate))
  }

  /** `csvContent`: the lines joined with "\n". */
  function CsvText(ts: seq<Talent>, formatDate: int -> string): string {
    Join(CsvLines(ts, formatDate), "\n")
  }

  /** No field of the record that reaches its line holds a line break. */
  predicate OnOneLine(t: Talent, formatDate: int -> string) {
    && '\n' !in t.name && '\n' !in t.email && '\n' !in formatDate(t.createdAt)
    && forall k :: 0 <= k < |t.skills| ==> '\n' !in t.skills[k]
  }

  lemma RowOnOneLine(t: Talent, formatDate: int -> string)
    requires OnOneLine(t, formatDate)
    ensures '\n' !in CsvRow(t, formatDate)
  {
    JoinAvoids(t.skills, "; ", '\n');
    var cells := CsvCells(t, formatDate);
    assert '\n' !in IntToString(t.experience);
    var quoted := QuoteAll(cells);
    forall k | 0 <= k < |quoted| ensures '\n' !in quoted[k] {
      assert quoted[k] == "\"" + cells[k] + "\"";
    }
    JoinAvoids(quoted, ",", '\n');
  }

  /** When no record's fields hold a line break, splitting the CSV text at
      line breaks gives the header and then one row per record. */
  lemma CsvTextLines(ts: seq<Talent>, formatDate: int -> string)
    requires forall k :: 0 <= k < |ts| ==> OnOneLine(ts[k], formatDate)
    ensures Split(CsvText(ts, formatDate), '\n') == CsvLines(ts, formatDate)
    ensures |Split(CsvText(ts, formatDate), '\n')| == |ts| + 1
  {
    var lines := CsvLines(ts, formatDate);
    forall k | 0 <= k < |lines| ensures '\n' !in lines[k] {
      if k > 0 {
        RowOnOneLine(ts[k - 1], formatDate);
      }
    }
    SplitJoin(lines, '\n');
  }

  // ---------------------------------------------------------------------------
  // Card label and page body

  /** The card's `getExperienceLevel` label. */
  function CardLabel(experience: int): (r: string)
    ensures r == "Junior" <==> experience <= 2
    ensures r == "Mid-level" <==> 2 < experience <= 5
    ensures r == "Senior" <==> 5 < experience <= 10
    ensures r == "Expert" <==> experience > 10
  {
    match LevelOf(experience)
    case Junior => "Junior"
    case MidLevel => "Mid-level"
    case Senior => "Senior"
    case Expert => "Expert"
  }

  /** The card's experience badge: the number, then "yr", with an "s" unless it is 1. */
  function YearsBadge(experience: int): (r: string)
    ensures |r| >= |IntToString(experience)| + 3
    ensures r[..|IntToString(experience)|] == IntToString(experience)
    ensures r[|r| - 1] == 's' <==> experience != 1
  {
    IntToString(experience) + " yr" + (if experience != 1 then "s" else "")
  }

  /** The skills the card lists: the first four. */
  function CardSkills(skills: seq<string>): (r: seq<string>)
    ensures |r| == if |skills| < 4 then |skills| else 4
    ensures r == skills[..|r|]
  {
    skills[..if |skills| < 4 then |skills| else 4]
  }

  /** The "+n more" badge: shown when more than four skills exist, counting
      the ones the card does not list. */
  function MoreSkills(skills: seq<string>): (r: Option<nat>)
    ensures r.Some? <==> |skills| > 4
    ensures r.Some? ==> |CardSkills(skills)| + r.value == |skills| && r.value > 0
  {
    if |skills| > 4 then Some(|skills| - 4) else None
  }

  const NoMatchingHeading := "No Matching Talents"
  const NoTalentsHeading := "No Talents Yet"

  /** A search text or a range other than "all" is in force. */
  predicate FiltersActive(currentFilter: string, range: ExperienceRange) {
    currentFilter != "" || range != AllLevels
  }

  /** The card shown when nothing is displayed: its heading, and whether it
      offers the "Add Your First Talent" button. */
  datatype EmptyCard = EmptyCard(heading: string, offersAddFirst: bool)

  function EmptyState(currentFilter: string, range: ExperienceRange): (c: EmptyCard)
    ensures c.heading == NoMatchingHeading <==> FiltersActive(currentFilter, range)
    ensures c.offersAddFirst <==> !FiltersActive(currentFilter, range)
    ensures c.offersAddFirst <==> c.heading == NoTalentsHeading
  {
    if FiltersActive(currentFilter, range) then EmptyCard(NoMatchingHeading, false)
    else EmptyCard(NoTalentsHeading, true)
  }

  /** What the page body shows. */
  datatype Body = Skeleton | Empty(card: EmptyCard) | Grid(shown: seq<Talent>)

  /** The skeleton while the first load runs (loading with no records yet);
      otherwise the empty card when nothing is displayed, else the grid of
      displayed records. */
  function SelectBody(s: TalentsSlice.State, range: ExperienceRange, key: SortKey): (b: Body)
    ensures b.Skeleton? <==> s.loading && s.talents == []
    ensures b.Empty? <==> !(s.loading && s.talents == []) && DisplayedTalents(s.filteredTalents, range, key) == []
    ensures b.Empty? ==> b.card == EmptyState(s.currentFilter, range)
    ensures b.Grid? ==> b.shown == DisplayedTalents(s.filteredTalents, range, key) && b.shown != []
  {
    if s.loading && |s.talents| == 0 then Skeleton
    else
      var shown := DisplayedTalents(s.filteredTalents, range, key);
      if |shown| == 0 then Empty(EmptyState(s.currentFilter, range)) else Grid(shown)
  }
}
