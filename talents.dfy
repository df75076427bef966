/** The talent record as the store holds it, and the list operations the
    reducer and the pages perform on `talents`: the case-insensitive skill
    search, removal by `_id`, lookup by `_id` and replacement of the first
    record with a given `_id`. */
module Talents {
  import opened Seqs
  import opened Text

  /** A record as the server returns it. `id` is the server's `_id`;
      `createdAt` is the creation time as an integer timestamp. */
  datatype Talent = Talent(
    id: string,
    name: string,
    email: string,
    skills: seq<string>,
    experience: int,
    createdAt: int)

  /** `skill.toLowerCase().includes(filter.toLowerCase())`. */
  predicate SkillMatches(skill: string, filter: string) {
    Contains(Lower(skill), Lower(filter))
  }

  /** `talent.skills.some(skill => ...)`: some skill of the talent matches the filter. */
  predicate HasMatchingSkill(t: Talent, filter: string) {
    exists k | 0 <= k < |t.skills| :: SkillMatches(t.skills[k], filter)
  }

  /** The callback given to `filter` by the skill search. */
  function Matches(filter: string): Talent -> bool {
    (t: Talent) => HasMatchingSkill(t, filter)
  }

  /** The callback given to `filter` by removal: keep records whose `_id` differs. */
  function IdIsNot(id: string): Talent -> bool {
    (t: Talent) => t.id != id
  }

  /** The talents with a matching skill, in list order. */
  function MatchingSkill(ts: seq<Talent>, filter: string): seq<Talent> {
    Filter(ts, Matches(filter))
  }

  /** The list the store shows for a filter: everything when the filter is
      empty (falsy), otherwise the talents with a matching skill. */
  function FilterView(ts: seq<Talent>, filter: string): (r: seq<Talent>)
    ensures filter == "" ==> r == ts
    ensures filter != "" ==> forall t :: t in r <==> t in ts && HasMatchingSkill(t, filter)
    ensures IsSubsequence(r, ts)
  {
    if filter == "" then
      SubsequenceReflexive(ts);
      ts
    else
      FilterIsSubsequence(ts, Matches(filter));
      MatchingSkill(ts, filter)
  }

  /** With a non-empty filter, a talent without skills is never shown. */
  lemma NoSkillsNeverMatches(t: Talent, filter: string)
    requires t.skills == [] && filter != ""
    ensures t !in FilterView([t], filter)
  {
  }

  /** Applying the same non-empty filter to the filtered list changes nothing. */
  lemma FilterViewIdempotent(ts: seq<Talent>, filter: string)
    ensures FilterView(FilterView(ts, filter), filter) == FilterView(ts, filter)
  {
    if filter != "" {
      FilterIdempotent(ts, Matches(filter));
    }
  }

  /** `ts.filter(t => t._id !== id)`. */
  function WithoutId(ts: seq<Talent>, id: string): seq<Talent> {
    Filter(ts, IdIsNot(id))
  }

  /** Removal by id keeps every other record, in order, and none with that id. */
  lemma WithoutIdSpec(ts: seq<Talent>, id: string)
    ensures forall t :: t in WithoutId(ts, id) <==> t in ts && t.id != id
    ensures IsSubsequence(WithoutId(ts, id), ts)
    ensures (forall k :: 0 <= k < |ts| ==> ts[k].id != id) ==> WithoutId(ts, id) == ts
  {
    FilterIsSubsequence(ts, IdIsNot(id));
    if forall k :: 0 <= k < |ts| ==> ts[k].id != id {
      FilterAll(ts, IdIsNot(id));
    }
  }

  /** Removing by id and filtering by skill can be done in either order. */
  lemma WithoutIdCommutes(ts: seq<Talent>, id: string, filter: string)
    ensures WithoutId(FilterView(ts, filter), id) == FilterView(WithoutId(ts, id), filter)
  {
    if filter != "" {
      FilterCommutes(ts, Matches(filter), IdIsNot(id));
    }
  }

  predicate UniqueIds(ts: seq<Talent>) {
    forall i, j :: 0 <= i < j < |ts| ==> ts[i].id != ts[j].id
  }

  /** When ids are unique, removing an id that is present removes exactly one record. */
  lemma {:induction false} WithoutIdRemovesOne(ts: seq<Talent>, id: string)
    requires UniqueIds(ts)
    ensures |WithoutId(ts, id)| == |ts| - (if exists k :: 0 <= k < |ts| && ts[k].id == id then 1 else 0)
  {
    if ts != [] {
      WithoutIdRemovesOne(ts[1..], id);
      if ts[0].id == id {
        assert forall k :: 0 <= k < |ts[1..]| ==> ts[1..][k].id != id by {
          forall k | 0 <= k < |ts[1..]| ensures ts[1..][k].id != id {
            assert ts[1..][k] == ts[k + 1];
          }
        }
      } else {
        assert (exists k :: 0 <= k < |ts| && ts[k].id == id) <==> (exists k :: 0 <= k < |ts[1..]| && ts[1..][k].id == id) by {
          if exists k :: 0 <= k < |ts| && ts[k].id == id {
            var k :| 0 <= k < |ts| && ts[k].id == id;
            assert ts[1..][k - 1].id == id;
          }
          if exists k :: 0 <= k < |ts[1..]| && ts[1..][k].id == id {
            var k :| 0 <= k < |ts[1..]| && ts[1..][k].id == id;
            assert ts[k + 1].id == id;
          }
        }
      }
    }
  }

  /** `ts.findIndex(t => t._id === id)`: the position of the first record with
      that id, or -1 when there is none. */
  function IndexOfId(ts: seq<Talent>, id: string): (r: int)
    ensures -1 <= r < |ts|
    ensures r == -1 <==> forall k :: 0 <= k < |ts| ==> ts[k].id != id
    ensures 0 <= r ==> ts[r].id == id && forall k :: 0 <= k < r ==> ts[k].id != id
  {
    if ts == [] then -1
    else if ts[0].id == id then 0
    else
      var r := IndexOfId(ts[1..], id);
      assert forall k :: 0 < k < |ts| ==> ts[k] == ts[1..][k - 1];
      if r == -1 then -1 else r + 1
  }

  /** `ts.find(t => t._id === id)`: the first record with that id, if any. */
  function FindById(ts: seq<Talent>, id: string): (r: Option<Talent>)
    ensures r.None? <==> forall k :: 0 <= k < |ts| ==> ts[k].id != id
    ensures r.Some? ==> r.value in ts && r.value.id == id
    ensures r.Some? ==> exists k :: 0 <= k < |ts| && ts[k] == r.value && forall j :: 0 <= j < k ==> ts[j].id != id
  {
    var i := IndexOfId(ts, id);
    if i < 0 then None else Some(ts[i])
  }

  /** `talents[findIndex(_id === t._id)] = t` when such an index exists. */
  function ReplaceFirstById(ts: seq<Talent>, t: Talent): (r: seq<Talent>)
    ensures |r| == |ts|
    ensures IndexOfId(ts, t.id) == -1 ==> r == ts
    ensures 0 <= IndexOfId(ts, t.id) ==>
      && r[IndexOfId(ts, t.id)] == t
      && forall k :: 0 <= k < |ts| && k != IndexOfId(ts, t.id) ==> r[k] == ts[k]
  {
    var i := IndexOfId(ts, t.id);
    if i == -1 then ts else ts[i := t]
  }

  /** With unique ids, the replacement is the only record carrying its id, and ids stay unique. */
  lemma ReplaceKeepsUniqueIds(ts: seq<Talent>, t: Talent)
    requires UniqueIds(ts)
    ensures UniqueIds(ReplaceFirstById(ts, t))
  {
  }

  /** Prepending a record whose id is new keeps ids unique. */
  lemma PrependKeepsUniqueIds(ts: seq<Talent>, t: Talent)
    requires UniqueIds(ts) && IndexOfId(ts, t.id) == -1
    ensures UniqueIds([t] + ts)
  {
  }

  /** `talents.map(t => t.skills)`. */
  function SkillLists(ts: seq<Talent>): (r: seq<seq<string>>)
    ensures |r| == |ts|
    ensures forall k :: 0 <= k < |ts| ==> r[k] == ts[k].skills
  {
    seq(|ts|, k requires 0 <= k < |ts| => ts[k].skills)
  }

  /** `[...new Set(talents.flatMap(t => t.skills))]`: every skill of every
      record once, in the order of its first occurrence. */
  function AllSkills(ts: seq<Talent>): (r: seq<string>)
    ensures NoDuplicates(r)
    ensures forall s :: s in r <==> exists k :: 0 <= k < |ts| && s in ts[k].skills
    ensures forall i, j :: 0 <= i < j < |r| ==>
      FirstIndex(Flatten(SkillLists(ts)), r[i]) < FirstIndex(Flatten(SkillLists(ts)), r[j])
  {
    Dedupe(Flatten(SkillLists(ts)))
  }

  /** The count badge: `${n} ${n === 1 ? 'Talent' : 'Talents'}`. */
  function CountLabel(n: nat): (r: string)
    ensures |r| > |NatToString(n)| && r[..|NatToString(n)|] == NatToString(n)
    ensures r[|r| - 1] == 's' <==> n != 1
  {
    NatToString(n) + " " + (if n == 1 then "Talent" else "Talents")
  }

  /** The experience tiers both the dashboard card and the details page use:
      up to 2 years, up to 5, up to 10, and more. */
  datatype Level = Junior | MidLevel | Senior | Expert

  function LevelOf(experience: int): (l: Level)
    ensures l == Junior <==> experience <= 2
    ensures l == MidLevel <==> 2 < experience <= 5
    ensures l == Senior <==> 5 < experience <= 10
    ensures l == Expert <==> 10 < experience
  {
    if experience <= 2 then Junior
    else if experience <= 5 then MidLevel
    else if experience <= 10 then Senior
    else Expert
  }

  function Rank(l: Level): nat {
    match l
    case Junior => 0
    case MidLevel => 1
    case Senior => 2
    case Expert => 3
  }

  /** More experience never gives a lower tier. */
  lemma LevelMonotonic(a: int, b: int)
    requires a <= b
    ensures Rank(LevelOf(a)) <= Rank(LevelOf(b))
  {
  }
}
