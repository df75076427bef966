/** The add page: the draft being typed, the skill tags built from the skill
    input, and the message shown under each field. Submitting validates the
    draft and, when it passes, sends the record through the store's add
    operation; the server's answer is a parameter. */
module AddTalent {
  import opened Seqs
  import opened Text
  import opened Talents
  import opened Thunks
  import opened Validation
  import opened SkillTags
  import TalentsSlice

  class AddTalentForm {
    var formData: Draft
    var skillTags: seq<string>
    var skillInput: string
    var formErrors: map<Field, Message>

    /** The tags are built only by the commit key and removal, so they stay
        non-empty, trimmed and distinct. */
    ghost predicate Valid()
      reads this
    {
      WellFormedTags(skillTags)
    }

    /** An empty draft, no tags, no errors. */
    constructor ()
      ensures Valid()
      ensures formData == EmptyDraft && skillTags == [] && skillInput == "" && formErrors == map[]
    {
      formData := EmptyDraft;
      skillTags := [];
      skillInput := "";
      formErrors := map[];
    }

    /** `handleChange`: store the field's new value and blank its message if it
        has one. Only the name, email and experience inputs call it; the skill
        input has its own handler (`TypeSkill`). */
    method HandleChange(e: Edit)
      requires !e.SkillsEdit?
      modifies this
      ensures formData == Apply(old(formData), e)
      ensures formErrors == ClearFieldError(old(formErrors), e.Target())
      ensures skillTags == old(skillTags) && skillInput == old(skillInput)
    {
      formData := Apply(formData, e);
      if HasError(formErrors, e.Target()) {
        formErrors := formErrors[e.Target() := Blank];
      }
    }

    /** The skill input's `onChange`. */
    method TypeSkill(text: string)
      modifies this
      ensures skillInput == text
      ensures formData == old(formData) && skillTags == old(skillTags) && formErrors == old(formErrors)
    {
      skillInput := text;
    }

    /** `handleAddSkill`: on Enter or comma, append the trimmed input when it is
        new and non-empty, then empty the input and blank the skills message. */
    method HandleAddSkill(key: string)
      requires Valid()
      modifies this
      ensures Valid()
      ensures skillTags == if IsCommitKey(key) then AddTag(old(skillTags), old(skillInput)) else old(skillTags)
      ensures skillTags != old(skillTags) ==> skillInput == "" && formErrors == ClearFieldError(old(formErrors), Skills)
      ensures skillTags == old(skillTags) ==> skillInput == old(skillInput) && formErrors == old(formErrors)
      ensures formData == old(formData)
    {
      if IsCommitKey(key) {
        var skill := Trim(skillInput);
        if skill != "" && skill !in skillTags {
          AddTagKeepsWellFormed(skillTags, skillInput);
          skillTags := skillTags + [skill];
          skillInput := "";
          if HasError(formErrors, Skills) {
            formErrors := formErrors[Skills := Blank];
          }
        }
      }
    }

    /** `handleRemoveSkill`. */
    method HandleRemoveSkill(skill: string)
      requires Valid()
      modifies this
      ensures Valid()
      ensures skillTags == RemoveTag(old(skillTags), skill)
      ensures formData == old(formData) && skillInput == old(skillInput) && formErrors == old(formErrors)
    {
      RemoveTagKeepsWellFormed(skillTags, skill);
      skillTags := RemoveTag(skillTags, skill);
    }

    /** `validateForm`: record the draft's errors; the draft passes when there are none. */
    method ValidateForm() returns (ok: bool)
      modifies this`formErrors
      ensures unchanged(this`formData, this`skillTags, this`skillInput)
      ensures formErrors == Errors(formData, skillTags == [], InvalidEmailFormat)
      ensures ok <==> formErrors == map[]
    {
      formErrors, ok := Validate(formData, skillTags == [], InvalidEmailFormat);
    }

    /** `handleSubmit`. An invalid draft only shows its errors. A valid one is
        sent as the trimmed record: the store goes through the add operation's
        pending case and then the case for the server's answer, and a
        fulfilled add empties the form. */
    method HandleSubmit(store: TalentsSlice.Store, outcome: Outcome<Talent>) returns (sent: Option<TalentInput>)
      requires Valid() && store.Valid()
      modifies this, store
      ensures Valid() && store.Valid()
      ensures sent.Some? <==> Errors(old(formData), old(skillTags) == [], InvalidEmailFormat) == map[]
      ensures sent.None? ==>
        && store.Snapshot() == old(store.Snapshot())
        && formErrors == Errors(old(formData), old(skillTags) == [], InvalidEmailFormat)
        && formData == old(formData) && skillTags == old(skillTags) && skillInput == old(skillInput)
      ensures sent.Some? ==>
        && sent.value == Payload(old(formData), old(skillTags))
        && AcceptableInput(sent.value)
        && store.Snapshot() == TalentsSlice.Reduce(
             TalentsSlice.Reduce(old(store.Snapshot()), TalentsSlice.OperationPending(Add)),
             TalentsSlice.Settled(Add, outcome))
        && formErrors == map[]
      ensures sent.Some? && outcome.Fulfilled? ==> formData == EmptyDraft && skillTags == [] && skillInput == ""
      ensures sent.Some? && outcome.Rejected? ==>
        formData == old(formData) && skillTags == old(skillTags) && skillInput == old(skillInput)
    {
      var ok := ValidateForm();
      if !ok {
        return None;
      }
      PassingDraftGivesAcceptableInput(formData, skillTags, InvalidEmailFormat);
      sent := Some(Payload(formData, skillTags));
      AwaitAdd(store, outcome);
    }

    /** `await dispatch(addTalent(...))`: the store takes the pending case and
        then the case for the server's answer; on success the form is emptied. */
    method AwaitAdd(store: TalentsSlice.Store, outcome: Outcome<Talent>)
      requires Valid() && store.Valid()
      modifies this, store
      ensures Valid() && store.Valid()
      ensures store.Snapshot() == TalentsSlice.Reduce(
        TalentsSlice.Reduce(old(store.Snapshot()), TalentsSlice.OperationPending(Add)),
        TalentsSlice.Settled(Add, outcome))
      ensures outcome.Fulfilled? ==> formData == EmptyDraft && skillTags == [] && skillInput == "" && formErrors == map[]
      ensures outcome.Rejected? ==>
        formData == old(formData) && skillTags == old(skillTags) && skillInput == old(skillInput) && formErrors == old(formErrors)
    {
      store.Await(Add, outcome);
      if outcome.Fulfilled? {
        formData := EmptyDraft;
        skillTags := [];
        skillInput := "";
        formErrors := map[];
      }
    }
  }

  /** The page's timer after a success message: clear the messages and go to
      the dashboard. With no success message nothing happens. */
  method SuccessTimerFires(store: TalentsSlice.Store) returns (route: Option<string>)
    requires store.Valid()
    modifies store
    ensures store.Valid()
    ensures old(store.successMessage).Some? ==>
      route == Some("/") && store.Snapshot() == TalentsSlice.Reduce(old(store.Snapshot()), TalentsSlice.ClearMessages)
    ensures old(store.successMessage).None? ==> route == None && store.Snapshot() == old(store.Snapshot())
  {
    route := None;
    if store.successMessage.Some? {
      store.Dispatch(TalentsSlice.ClearMessages);
      route := Some("/");
    }
  }
}
