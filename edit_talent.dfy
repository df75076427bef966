/** The edit page for the talent whose id is in the route. The draft is seeded
    from the store's record with that id, edited with the same handlers as the
    add page, and sent through the store's update operation; the server's
    answer is a parameter. The page keeps no skills text: the draft's `skills`
    is left empty and the skills live in the tag list alone. */
module EditTalent {
  import opened Seqs
  import opened Text
  import opened Talents
  import opened Thunks
  import opened Validation
  import opened SkillTags
  import TalentsSlice

  /** The draft the seeding effect writes for a record: its name and email,
      and its experience as the stored number. */
  function SeededDraft(t: Talent): (d: Draft)
    ensures d.name == t.name && d.email == t.email && d.skills == ""
    ensures d.experience == Stored(t.experience) && NumberOf(d.experience) == t.experience
  {
    Draft(t.name, t.email, "", Stored(t.experience))
  }

  /** An unedited record passes the page's checks exactly when its trimmed
      name has 2 characters or more, its email passes the test, it has a
      skill and its experience is from 1 to 50: a stored 0 is reported as
      missing. */
  lemma SeededDraftPasses(t: Talent)
    ensures Errors(SeededDraft(t), t.skills == [], InvalidEmailAddress) == map[] <==>
      |Trim(t.name)| >= 2 && IsEmail(t.email) && t.skills != [] && 1 <= t.experience <= 50
  {
    var d := SeededDraft(t);
    PassingDraft(d, t.skills == [], InvalidEmailAddress);
    assert ExperienceError(d.experience) == None <==> 1 <= t.experience <= 50;
  }

  /** Saving an unedited record whose name and email carry no surrounding
      white space sends the record's own fields back. */
  lemma SeededPayloadRoundTrip(t: Talent)
    requires !HasSpace(t.email)
    requires t.name == [] || (!IsSpace(t.name[0]) && !IsSpace(t.name[|t.name| - 1]))
    ensures Payload(SeededDraft(t), t.skills) == TalentInput(t.name, t.email, t.skills, t.experience)
  {
    TrimNoSpace(t.email);
    TrimKeepsTrimmed(t.name);
    PayloadOfTrimmed(SeededDraft(t), t.skills, t.name, t.email);
  }

  /** The record sent for a draft whose name and email trim to the given texts. */
  lemma PayloadOfTrimmed(d: Draft, skills: seq<string>, name: string, email: string)
    requires Trim(d.name) == name && Trim(d.email) == email
    ensures Payload(d, skills) == TalentInput(name, email, skills, NumberOf(d.experience))
  {
  }

  /** `updateTalent({ id, talentData })`'s argument: the route's id and the record to store under it. */
  datatype UpdateRequest = UpdateRequest(id: string, talentData: TalentInput)

  class EditTalentForm {
    const id: string
    var formData: Draft
    var skillTags: seq<string>
    var skillInput: string
    var formErrors: map<Field, Message>

    /** The page for route `/edit/:id`: an empty draft, no tags, no errors. */
    constructor (id: string)
      ensures this.id == id
      ensures formData == EmptyDraft && skillTags == [] && skillInput == "" && formErrors == map[]
    {
      this.id := id;
      formData := EmptyDraft;
      skillTags := [];
      skillInput := "";
      formErrors := map[];
    }

    /** `talents.find(t => t._id === id)`. */
    function Found(talents: seq<Talent>): (r: Option<Talent>)
      ensures r.None? <==> forall k :: 0 <= k < |talents| ==> talents[k].id != id
      ensures r.Some? ==> r.value in talents && r.value.id == id
      ensures r.Some? ==> 0 <= IndexOfId(talents, id) && r.value == talents[IndexOfId(talents, id)]
    {
      FindById(talents, id)
    }

    /** "Talent not found" is shown when no record has the id and nothing is loading. */
    function ShowsNotFound(talents: seq<Talent>, loading: bool): (r: bool)
      ensures r <==> !loading && forall k :: 0 <= k < |talents| ==> talents[k].id != id
    {
      Found(talents).None? && !loading
    }

    /** The seeding effect: when the record is found, the draft takes its
        name, email and experience and the tags its skills; otherwise nothing
        changes. Typed edits are overwritten whenever the effect runs. */
    method Seed(talents: seq<Talent>)
      modifies this
      ensures Found(talents).Some? ==>
        formData == SeededDraft(Found(talents).value) && skillTags == Found(talents).value.skills
      ensures Found(talents).None? ==> formData == old(formData) && skillTags == old(skillTags)
      ensures skillInput == old(skillInput) && formErrors == old(formErrors)
    {
      var talent := Found(talents);
      if talent.Some? {
        formData := SeededDraft(talent.value);
        skillTags := talent.value.skills;
      }
    }

    /** `handleChange`: store the field's new value and blank its message if it
        has one. Only the name, email and experience inputs call it; the skill
        input has its own handler (`TypeSkill`). */
    method HandleChange(e: Edit)
      requires !e.SkillsEdit?
      modifies this
      ensures formData == Apply(old(formData), e)
      ensures formErrors == ClearFieldError(old(formErrors), e.Target())
      ensures skillTags == old(skillTags) && skillInput == old(skillInput)
    {
      formData := Apply(formData, e);
      if HasError(formErrors, e.Target()) {
        formErrors := formErrors[e.Target() := Blank];
      }
    }

    /** The skill input's `onChange`. */
    method TypeSkill(text: string)
      modifies this
      ensures skillInput == text
      ensures formData == old(formData) && skillTags == old(skillTags) && formErrors == old(formErrors)
    {
      skillInput := text;
    }

    /** `handleAddSkill`. The seeded tags are the server's, so the tags are
        well formed afterwards only if they were before. */
    method HandleAddSkill(key: string)
      modifies this
      ensures skillTags == if IsCommitKey(key) then AddTag(old(skillTags), old(skillInput)) else old(skillTags)
      ensures WellFormedTags(old(skillTags)) ==> WellFormedTags(skillTags)
      ensures skillTags != old(skillTags) ==> skillInput == "" && formErrors == ClearFieldError(old(formErrors), Skills)
      ensures skillTags == old(skillTags) ==> skillInput == old(skillInput) && formErrors == old(formErrors)
      ensures formData == old(formData)
    {
      if IsCommitKey(key) {
        var skill := Trim(skillInput);
        if skill != "" && skill !in skillTags {
          if WellFormedTags(skillTags) {
            AddTagKeepsWellFormed(skillTags, skillInput);
          }
          skillTags := skillTags + [skill];
          skillInput := "";
          if HasError(formErrors, Skills) {
            formErrors := formErrors[Skills := Blank];
          }
        }
      }
    }

    /** `handleRemoveSkill`. */
    method HandleRemoveSkill(skill: string)
      modifies this
      ensures skillTags == RemoveTag(old(skillTags), skill)
      ensures WellFormedTags(old(skillTags)) ==> WellFormedTags(skillTags)
      ensures formData == old(formData) && skillInput == old(skillInput) && formErrors == old(formErrors)
    {
      if WellFormedTags(skillTags) {
        RemoveTagKeepsWellFormed(skillTags, skill);
      }
      skillTags := RemoveTag(skillTags, skill);
    }

    /** `validateForm`, with the edit page's own wording for a malformed email. */
    method ValidateForm() returns (ok: bool)
      modifies this`formErrors
      ensures unchanged(this`formData, this`skillTags, this`skillInput)
      ensures formErrors == Errors(formData, skillTags == [], InvalidEmailAddress)
      ensures ok <==> formErrors == map[]
    {
      formErrors, ok := Validate(formData, skillTags == [], InvalidEmailAddress);
    }

    /** `handleSubmit`. An invalid draft only shows its errors. A valid one is
        sent as the trimmed record under the route's id: the store goes through the
        update operation's pending case and then the case for the server's
        answer. The form itself is left as it is. */
    method HandleSubmit(store: TalentsSlice.Store, outcome: Outcome<Talent>) returns (sent: Option<UpdateRequest>)
      requires store.Valid()
      modifies this, store
      ensures store.Valid()
      ensures sent.Some? <==> Errors(old(formData), old(skillTags) == [], InvalidEmailAddress) == map[]
      ensures formErrors == Errors(old(formData), old(skillTags) == [], InvalidEmailAddress)
      ensures formData == old(formData) && skillTags == old(skillTags) && skillInput == old(skillInput)
      ensures sent.None? ==> store.Snapshot() == old(store.Snapshot())
      ensures sent.Some? ==>
        && sent.value.id == id
        && sent.value.talentData == Payload(old(formData), old(skillTags))
        && AcceptableInput(sent.value.talentData)
        && store.Snapshot() == TalentsSlice.Reduce(
             TalentsSlice.Reduce(old(store.Snapshot()), TalentsSlice.OperationPending(Update)),
             TalentsSlice.Settled(Update, outcome))
    {
      var ok := ValidateForm();
      if !ok {
        return None;
      }
      PassingDraftGivesAcceptableInput(formData, skillTags, InvalidEmailAddress);
      sent := Some(UpdateRequest(id, Payload(formData, skillTags)));
      store.Await(Update, outcome);
    }

    /** The page's timer after a success message: clear the messages and go
        to this talent's details page. With no success message nothing happens. */
    method SuccessTimerFires(store: TalentsSlice.Store) returns (route: Option<string>)
      requires store.Valid()
      modifies store
      ensures store.Valid()
      ensures old(store.successMessage).Some? ==>
        route == Some("/talent/" + id) && store.Snapshot() == TalentsSlice.Reduce(old(store.Snapshot()), TalentsSlice.ClearMessages)
      ensures old(store.successMessage).None? ==> route == None && store.Snapshot() == old(store.Snapshot())
    {
      route := None;
      if store.successMessage.Some? {
        store.Dispatch(TalentsSlice.ClearMessages);
        route := Some("/talent/" + id);
      }
    }
  }
}
