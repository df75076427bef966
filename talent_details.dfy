/** The details page for the talent whose id is in the route: the lookup in
    the store's records, the redirect home when the record is gone and
    nothing is loading, the avatar's initials, the level badge and the
    labels, and the delete button's handler. */
module TalentDetails {
  import opened Seqs
  import opened Text
  import opened Talents
  import opened Thunks
  import TalentsSlice
  import Dashboard

  /** What the page renders: the loading placeholder while no record has the
      id, or the profile of the first record that has it. */
  datatype Page = Placeholder | Profile(talent: Talent)

  function SelectPage(talents: seq<Talent>, id: string): (p: Page)
    ensures p.Placeholder? <==> forall k :: 0 <= k < |talents| ==> talents[k].id != id
    ensures p.Profile? ==> p.talent in talents && p.talent.id == id
    ensures p.Profile? ==> 0 <= IndexOfId(talents, id) && p.talent == talents[IndexOfId(talents, id)]
  {
    match FindById(talents, id)
    case None => Placeholder
    case Some(t) => Profile(t)
  }

  /** The effect sends the reader home when no record has the id and nothing is loading. */
  predicate ShouldRedirect(talents: seq<Talent>, loading: bool, id: string) {
    SelectPage(talents, id).Placeholder? && !loading
  }

  /** A redirect happens only from the placeholder, and while a request is
      pending the placeholder stays without a redirect. */
  lemma RedirectOnlyFromPlaceholder(talents: seq<Talent>, loading: bool, id: string)
    ensures ShouldRedirect(talents, loading, id) ==> SelectPage(talents, id) == Placeholder
    ensures loading ==> !ShouldRedirect(talents, loading, id)
    ensures ShouldRedirect(talents, loading, id) <==> !loading && forall k :: 0 <= k < |talents| ==> talents[k].id != id
  {
  }

  /** Once a delete of the page's record is fulfilled, the store holds no
      record with that id and is not loading, so the page redirects. */
  lemma DeletedTalentRedirects(s: TalentsSlice.State, id: string)
    ensures var s' := TalentsSlice.Reduce(
        TalentsSlice.Reduce(s, TalentsSlice.OperationPending(Delete)),
        TalentsSlice.DeleteSettled(id, Fulfilled(())));
      ShouldRedirect(s'.talents, s'.loading, id)
  {
    var s' := TalentsSlice.Reduce(
        TalentsSlice.Reduce(s, TalentsSlice.OperationPending(Delete)),
        TalentsSlice.DeleteSettled(id, Fulfilled(())));
    WithoutIdSpec(s.talents, id);
    forall k | 0 <= k < |s'.talents| ensures s'.talents[k].id != id {
      assert s'.talents[k] in WithoutId(s.talents, id);
    }
  }

  /** A rejected delete leaves the records alone: a page that showed the
      profile still shows it and does not redirect. */
  lemma RejectedDeleteKeepsProfile(s: TalentsSlice.State, id: string, message: string)
    ensures var s' := TalentsSlice.Reduce(
        TalentsSlice.Reduce(s, TalentsSlice.OperationPending(Delete)),
        TalentsSlice.DeleteSettled(id, Rejected(message)));
      && SelectPage(s'.talents, id) == SelectPage(s.talents, id)
      && (SelectPage(s.talents, id).Profile? ==> !ShouldRedirect(s'.talents, s'.loading, id))
      && s'.error == Some(message)
  {
  }

  /** `handleDelete`: wait for the delete operation to settle, whatever its
      outcome, then go home. */
  method HandleDelete(store: TalentsSlice.Store, id: string, outcome: Outcome<()>) returns (route: string)
    requires store.Valid()
    modifies store
    ensures store.Valid()
    ensures store.Snapshot() == TalentsSlice.Reduce(
      TalentsSlice.Reduce(old(store.Snapshot()), TalentsSlice.OperationPending(Delete)),
      TalentsSlice.DeleteSettled(id, outcome))
    ensures route == "/"
  {
    store.AwaitDelete(id, outcome);
    route := "/";
  }

  // ---------------------------------------------------------------------------
  // Initials

  /** `n[0]` of each piece, joined: an empty piece gives `undefined`, which
      the join writes as nothing. */
  function FirstChars(words: seq<string>): (r: string)
    ensures |r| <= |words|
    ensures (forall k :: 0 <= k < |words| ==> words[k] != []) ==>
      |r| == |words| && forall k :: 0 <= k < |words| ==> r[k] == words[k][0]
  {
    if words == [] then ""
    else (if words[0] == [] then "" else [words[0][0]]) + FirstChars(words[1..])
  }

  /** `getInitials`: the first characters of the name's space-separated
      pieces, upper-cased, at most two. */
  function Initials(name: string): (r: string)
    ensures |r| <= 2
    ensures |r| == |FirstChars(Split(name, ' '))| || |r| == 2 < |FirstChars(Split(name, ' '))|
    ensures r == Upper(FirstChars(Split(name, ' ')))[..|r|]
  {
    var all := Upper(FirstChars(Split(name, ' ')));
    all[..if |all| < 2 then |all| else 2]
  }

  /** A name made of words separated by single spaces gets the upper-cased
      first letters of its first two words (of its one word when it has one). */
  lemma InitialsOfWords(words: seq<string>)
    requires |words| >= 1
    requires forall k :: 0 <= k < |words| ==> words[k] != [] && ' ' !in words[k]
    ensures |Initials(Join(words, " "))| == if |words| == 1 then 1 else 2
    ensures Initials(Join(words, " "))[0] == UpperChar(words[0][0])
    ensures |words| >= 2 ==> Initials(Join(words, " "))[1] == UpperChar(words[1][0])
  {
    SplitJoin(words, ' ');
    assert Split(Join(words, " "), ' ') == words;
  }

  // ---------------------------------------------------------------------------
  // Labels

  /** The page's `getExperienceLevel` label. */
  function DetailsLabel(experience: int): (r: string)
    ensures r == "Junior Developer" <==> experience <= 2
    ensures r == "Mid-level Developer" <==> 2 < experience <= 5
    ensures r == "Senior Developer" <==> 5 < experience <= 10
    ensures r == "Expert/Lead" <==> experience > 10
  {
    match LevelOf(experience)
    case Junior => "Junior Developer"
    case MidLevel => "Mid-level Developer"
    case Senior => "Senior Developer"
    case Expert => "Expert/Lead"
  }

  /** The page and the dashboard's card put a record in the same level: up to
      10 years the page's label is the card's with " Developer" after it. */
  lemma LabelsAgree(experience: int)
    ensures experience <= 10 ==> DetailsLabel(experience) == Dashboard.CardLabel(experience) + " Developer"
    ensures experience > 10 <==> Dashboard.CardLabel(experience) == "Expert"
  {
  }

  /** "Year" for exactly one year, "Years" otherwise (0 included). */
  function YearsWord(experience: int): (r: string)
    ensures r == "Year" <==> experience == 1
    ensures r == "Years" <==> experience != 1
  {
    if experience == 1 then "Year" else "Years"
  }

  /** "skill" for exactly one skill, "skills" otherwise. */
  function SkillsWord(count: nat): (r: string)
    ensures r == "skill" <==> count == 1
    ensures r == "skills" <==> count != 1
  {
    if count == 1 then "skill" else "skills"
  }
}
