/** The stand-alone add form: the skills are one comma-separated text field,
    parsed into a list only when the record is sent. Its skills check as
    written tests the trimmed text, so a text of commas alone passes and sends
    no skill; the form below uses the check the message promises ("At least
    one skill is required"), on the parsed list. */
module TalentForm {
  import opened Seqs
  import opened Text
  import opened Talents
  import opened Thunks
  import opened Validation
  import opened SkillTags
  import TalentsSlice

  /** The skills check as written: the text is required after trimming. */
  function WrittenSkillsMissing(text: string): (r: bool)
    ensures r <==> AllSpace(text)
  {
    Trim(text) == ""
  }

  /** The skills check the form means: the parsed list is empty. */
  function SkillsMissing(text: string): bool {
    SplitSkills(text) == []
  }

  /** As written, a draft whose skills text is ", ," passes whenever its other
      fields do, yet the record it sends has no skill. */
  lemma WrittenCheckAdmitsNoSkills(d: Draft)
    requires d.skills == ", ,"
    requires NameError(d.name) == None && EmailError(d.email, InvalidEmailFormat) == None
    requires ExperienceError(d.experience) == None
    ensures Errors(d, WrittenSkillsMissing(d.skills), InvalidEmailFormat) == map[]
    ensures Payload(d, SplitSkills(d.skills)).skills == []
    ensures !AcceptableInput(Payload(d, SplitSkills(d.skills)))
  {
    CommasOnlyParseToNothing();
    PassingDraft(d, false, InvalidEmailFormat);
  }

  /** Every text the written check rejects, the intended check rejects too
      (and ", ," is rejected by the intended check only). */
  lemma IntendedCheckIsStricter(text: string)
    ensures WrittenSkillsMissing(text) ==> SkillsMissing(text)
  {
    if WrittenSkillsMissing(text) {
      forall k | 0 <= k < |text| ensures text[k] != ',' {
        assert IsSpace(text[k]);
      }
      assert Split(text, ',') == [text] by {
        assert FirstIndex(text, ',') == -1;
      }
      BlankParsesToNothing(text);
    }
  }

  /** The two checks disagree exactly on a text that is not blank yet parses
      to no skill, such as ", ,". */
  lemma CorrectionOnlyForEmptyParse(text: string)
    ensures SkillsMissing(text) != WrittenSkillsMissing(text) <==> SplitSkills(text) == [] && !AllSpace(text)
  {
    IntendedCheckIsStricter(text);
  }

  /** A single blank piece parses to no skill. */
  lemma BlankParsesToNothing(text: string)
    requires AllSpace(text) && Split(text, ',') == [text]
    ensures SplitSkills(text) == []
  {
    assert TrimAll([text]) == [""];
    var p := NonEmpty();
    assert Filter([""], p) == [] by {
      assert !p("");
    }
  }

  /** With the intended check, a draft that passes sends an acceptable record. */
  lemma IntendedCheckGivesAcceptableInput(d: Draft)
    requires Errors(d, SkillsMissing(d.skills), InvalidEmailFormat) == map[]
    ensures AcceptableInput(Payload(d, SplitSkills(d.skills)))
  {
    PassingDraftGivesAcceptableInput(d, SplitSkills(d.skills), InvalidEmailFormat);
  }

  class TalentFormState {
    var formData: Draft
    var formErrors: map<Field, Message>

    /** An empty draft and no errors. */
    constructor ()
      ensures formData == EmptyDraft && formErrors == map[]
    {
      formData := EmptyDraft;
      formErrors := map[];
    }

    /** `handleChange`: store the field's new value and blank its message if it has one. */
    method HandleChange(e: Edit)
      modifies this
      ensures formData == Apply(old(formData), e)
      ensures formErrors == ClearFieldError(old(formErrors), e.Target())
    {
      formData := Apply(formData, e);
      if HasError(formErrors, e.Target()) {
        formErrors := formErrors[e.Target() := Blank];
      }
    }

    /** `validateForm`, with the skills check on the parsed list: the
        corrected check, which differs from the written one only as
        `CorrectionOnlyForEmptyParse` states. */
    method ValidateForm() returns (ok: bool)
      modifies this`formErrors
      ensures formErrors == Errors(formData, SkillsMissing(formData.skills), InvalidEmailFormat)
      ensures ok <==> formErrors == map[]
      ensures unchanged(this`formData)
    {
      formErrors, ok := Validate(formData, SkillsMissing(formData.skills), InvalidEmailFormat);
    }

    /** `handleSubmit`. An invalid draft only shows its errors. A valid one is
        sent with its skills text parsed: the store goes through the add
        operation's pending case and then the case for the server's answer,
        and a fulfilled add empties the form. */
    method HandleSubmit(store: TalentsSlice.Store, outcome: Outcome<Talent>) returns (sent: Option<TalentInput>)
      requires store.Valid()
      modifies this, store
      ensures store.Valid()
      ensures sent.Some? <==> Errors(old(formData), SkillsMissing(old(formData).skills), InvalidEmailFormat) == map[]
      ensures sent.None? ==>
        && store.Snapshot() == old(store.Snapshot())
        && formErrors == Errors(old(formData), SkillsMissing(old(formData).skills), InvalidEmailFormat)
        && formData == old(formData)
      ensures sent.Some? ==>
        && sent.value == Payload(old(formData), SplitSkills(old(formData).skills))
        && AcceptableInput(sent.value)
        && store.Snapshot() == TalentsSlice.Reduce(
             TalentsSlice.Reduce(old(store.Snapshot()), TalentsSlice.OperationPending(Add)),
             TalentsSlice.Settled(Add, outcome))
        && formErrors == map[]
      ensures sent.Some? && outcome.Fulfilled? ==> formData == EmptyDraft
      ensures sent.Some? && outcome.Rejected? ==> formData == old(formData)
    {
      var ok := ValidateForm();
      if !ok {
        return None;
      }
      IntendedCheckGivesAcceptableInput(formData);
      sent := Some(Payload(formData, SplitSkills(formData.skills)));
      AwaitAdd(store, outcome);
    }

    /** `await dispatch(addTalent(...))` and, when it is fulfilled, the reset. */
    method AwaitAdd(store: TalentsSlice.Store, outcome: Outcome<Talent>)
      requires store.Valid()
      modifies this, store
      ensures store.Valid()
      ensures store.Snapshot() == TalentsSlice.Reduce(
        TalentsSlice.Reduce(old(store.Snapshot()), TalentsSlice.OperationPending(Add)),
        TalentsSlice.Settled(Add, outcome))
      ensures outcome.Fulfilled? ==> formData == EmptyDraft && formErrors == map[]
      ensures outcome.Rejected? ==> formData == old(formData) && formErrors == old(formErrors)
    {
      store.Await(Add, outcome);
      if outcome.Fulfilled? {
        formData := EmptyDraft;
        formErrors := map[];
      }
    }
  }

  /** The timer a fulfilled add starts: it clears the store's messages. */
  method ClearTimerFires(store: TalentsSlice.Store)
    requires store.Valid()
    modifies store
    ensures store.Valid()
    ensures store.Snapshot() == TalentsSlice.Reduce(old(store.Snapshot()), TalentsSlice.ClearMessages)
  {
    store.Dispatch(TalentsSlice.ClearMessages);
  }
}
