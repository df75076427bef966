/** The form drafts and their field-by-field validation, shared by the add
    page, the edit page and the stand-alone talent form. Each check yields at
    most one message per field; the first failing test for a field wins. */
module Validation {
  import opened Seqs
  import opened Text

  datatype Field = Name | Email | Skills | Experience

  /** The experience field of a draft. A number input holds the empty string
      or the decimal text of a number: `Empty` is the empty string (falsy) and
      `Typed(n)` the non-empty text of the integer `n` (truthy, even "0"). The
      edit page seeds the field with the stored record's number itself:
      `Stored(n)`, falsy exactly when `n` is 0. */
  datatype ExperienceValue = Empty | Typed(years: int) | Stored(years: int)

  /** `!!value` in JavaScript. */
  predicate Truthy(v: ExperienceValue) {
    match v
    case Empty => false
    case Typed(_) => true
    case Stored(n) => n != 0
  }

  /** `Number(value)`; `Number("")` is 0. */
  function NumberOf(v: ExperienceValue): int {
    match v
    case Empty => 0
    case Typed(n) => n
    case Stored(n) => n
  }

  /** `formData`: what the user has typed so far. */
  datatype Draft = Draft(name: string, email: string, skills: string, experience: ExperienceValue)

  const EmptyDraft := Draft("", "", "", Empty)

  /** A field's value in the draft: text for the three text inputs, the
      experience value for the number input. */
  datatype FieldValue = TextValue(text: string) | NumberValue(value: ExperienceValue)

  /** `formData[field]`. */
  function Get(d: Draft, f: Field): FieldValue {
    match f
    case Name => TextValue(d.name)
    case Email => TextValue(d.email)
    case Skills => TextValue(d.skills)
    case Experience => NumberValue(d.experience)
  }

  /** Two drafts that agree on every field are the same draft. */
  lemma DraftDeterminedByFields(a: Draft, b: Draft)
    requires forall f :: Get(a, f) == Get(b, f)
    ensures a == b
  {
    assert Get(a, Name) == Get(b, Name) && Get(a, Email) == Get(b, Email);
    assert Get(a, Skills) == Get(b, Skills) && Get(a, Experience) == Get(b, Experience);
  }

  /** A change event: the input's `name` attribute and its new `value`. */
  datatype Edit =
    | NameEdit(text: string)
    | EmailEdit(text: string)
    | SkillsEdit(text: string)
    | ExperienceEdit(value: ExperienceValue)
  {
    function Target(): Field {
      match this
      case NameEdit(_) => Name
      case EmailEdit(_) => Email
      case SkillsEdit(_) => Skills
      case ExperienceEdit(_) => Experience
    }

    function NewValue(): FieldValue {
      match this
      case NameEdit(t) => TextValue(t)
      case EmailEdit(t) => TextValue(t)
      case SkillsEdit(t) => TextValue(t)
      case ExperienceEdit(v) => NumberValue(v)
    }
  }

  /** `{ ...prev, [name]: value }`: the edited field takes the new value, the others keep theirs. */
  function Apply(d: Draft, e: Edit): (r: Draft)
    ensures Get(r, e.Target()) == e.NewValue()
    ensures forall f :: f != e.Target() ==> Get(r, f) == Get(d, f)
  {
    match e
    case NameEdit(t) => d.(name := t)
    case EmailEdit(t) => d.(email := t)
    case SkillsEdit(t) => d.(skills := t)
    case ExperienceEdit(v) => d.(experience := v)
  }

  /** Those two facts pin the result down: any draft that holds the edit's
      value in the edited field and agrees with the old draft elsewhere is
      `Apply`'s result. */
  lemma ApplyDetermined(d: Draft, e: Edit, r: Draft)
    requires Get(r, e.Target()) == e.NewValue()
    requires forall f :: f != e.Target() ==> Get(r, f) == Get(d, f)
    ensures r == Apply(d, e)
  {
    var a := Apply(d, e);
    forall f ensures Get(r, f) == Get(a, f) {
      if f == e.Target() {
        assert Get(r, f) == e.NewValue() == Get(a, f);
      }
    }
    DraftDeterminedByFields(r, a);
  }

  /** The messages shown under the fields. `Blank` is the empty text written
      over a field's message when that field is edited. */
  datatype Message =
    | Blank
    | NameRequired
    | NameTooShort
    | EmailRequired
    | InvalidEmailFormat    // the add page and the talent form
    | InvalidEmailAddress   // the edit page
    | SkillsRequired
    | ExperienceRequired
    | ExperienceNegative
    | ExperienceTooHigh
  {
    function Text(): (s: string)
      ensures s == "" <==> this == Blank
    {
      match this
      case Blank => ""
      case NameRequired => "Name is required"
      case NameTooShort => "Name must be at least 2 characters"
      case EmailRequired => "Email is required"
      case InvalidEmailFormat => "Invalid email format"
      case InvalidEmailAddress => "Please enter a valid email address"
      case SkillsRequired => "At least one skill is required"
      case ExperienceRequired => "Experience is required"
      case ExperienceNegative => "Experience cannot be negative"
      case ExperienceTooHigh => "Experience cannot exceed 50 years"
    }
  }

  /** The name check: required after trimming, then at least 2 characters. */
  function NameError(name: string): (r: Option<Message>)
    ensures Trim(name) == "" ==> r == Some(NameRequired)
    ensures |Trim(name)| == 1 ==> r == Some(NameTooShort)
    ensures r == None <==> |Trim(name)| >= 2
  {
    var trimmed := Trim(name);
    if trimmed == "" then Some(NameRequired)
    else if |trimmed| < 2 then Some(NameTooShort)
    else None
  }

  // ---------------------------------------------------------------------------
  // The email pattern /^[^\s@]+@[^\s@]+\.[^\s@]+$/

  /** A character of the class `[^\s@]`. */
  predicate PlainChar(c: char) {
    c != '@' && !IsSpace(c)
  }

  /** A match of `[^\s@]+`. */
  predicate Plain(s: string) {
    |s| >= 1 && forall k :: 0 <= k < |s| ==> PlainChar(s[k])
  }

  /** The whole text is `A@B.C` with `A`, `B` and `C` matches of `[^\s@]+`. */
  ghost predicate EmailPattern(s: string) {
    exists i, j :: 0 < i < j < |s| - 1 && s[i] == '@' && s[j] == '.' &&
      Plain(s[..i]) && Plain(s[i + 1..j]) && Plain(s[j + 1..])
  }

  /** No character of the text is white space. */
  predicate SpaceFree(s: string) {
    s == [] || (!IsSpace(s[0]) && SpaceFree(s[1..]))
  }

  lemma {:induction false} SpaceFreeMeansNoSpace(s: string)
    ensures SpaceFree(s) <==> !HasSpace(s)
  {
    if s != [] {
      SpaceFreeMeansNoSpace(s[1..]);
      if HasSpace(s[1..]) {
        var k :| 0 <= k < |s[1..]| && IsSpace(s[1..][k]);
        assert IsSpace(s[k + 1]);
      }
      if HasSpace(s) && !IsSpace(s[0]) {
        var k :| 0 <= k < |s| && IsSpace(s[k]);
        assert IsSpace(s[1..][k - 1]);
      }
    }
  }

  /** The test the pages run: no white space, one `@` with something before it,
      and after it a `.` with something on both sides. */
  predicate IsEmail(s: string) {
    var i := FirstIndex(s, '@');
    && 0 < i && i + 3 <= |s|
    && SpaceFree(s)
    && '@' !in s[i + 1..]
    && '.' in s[i + 2..|s| - 1]
  }

  /** Every text the pages' test accepts matches the regular expression. */
  lemma IsEmailToPattern(s: string)
    requires IsEmail(s)
    ensures EmailPattern(s)
  {
    var i := FirstIndex(s, '@');
    var middle := s[i + 2..|s| - 1];
    var m :| 0 <= m < |middle| && middle[m] == '.';
    var j := i + 2 + m;
    assert s[j] == '.';
    SpaceFreeMeansNoSpace(s);
    var tail := s[i + 1..];
    var b, c := s[i + 1..j], s[j + 1..];
    assert Plain(s[..i]);
    assert Plain(b) by {
      forall k | 0 <= k < |b| ensures PlainChar(b[k]) {
        assert b[k] == tail[k];
      }
    }
    assert Plain(c) by {
      forall k | 0 <= k < |c| ensures PlainChar(c[k]) {
        assert c[k] == tail[k + j - i];
      }
    }
  }

  /** A match of `[^\s@]+` holds neither `@` nor white space. */
  lemma PlainHasNoAt(p: string)
    requires Plain(p)
    ensures '@' !in p && !HasSpace(p)
  {
  }

  /** `A@B.C` split at the given `@` and `.` passes the pages' test. */
  lemma PartsPassIsEmail(s: string, i: int, j: int)
    requires 0 < i < j < |s| - 1 && s[i] == '@' && s[j] == '.'
    requires Plain(s[..i]) && Plain(s[i + 1..j]) && Plain(s[j + 1..])
    ensures IsEmail(s)
  {
    var a, b, c := s[..i], s[i + 1..j], s[j + 1..];
    PlainHasNoAt(a);
    PlainHasNoAt(b);
    PlainHasNoAt(c);
    FirstIndexUnique(s, '@', i);
    forall k | 0 <= k < |s| ensures !IsSpace(s[k]) {
      if k < i {
        assert s[k] == a[k];
      } else if i < k < j {
        assert s[k] == b[k - i - 1];
      } else if j < k {
        assert s[k] == c[k - j - 1];
      }
    }
    SpaceFreeMeansNoSpace(s);
    assert s[i + 1..] == b + ['.'] + c;
    assert s[i + 2..|s| - 1][j - i - 2] == '.';
  }

  /** Every text the regular expression matches passes the pages' test. */
  lemma PatternToIsEmail(s: string)
    requires EmailPattern(s)
    ensures IsEmail(s)
  {
    var i, j :| 0 < i < j < |s| - 1 && s[i] == '@' && s[j] == '.' &&
      Plain(s[..i]) && Plain(s[i + 1..j]) && Plain(s[j + 1..]);
    PartsPassIsEmail(s, i, j);
  }

  /** The test the pages run accepts exactly the texts the regular expression matches. */
  lemma IsEmailMatchesPattern(s: string)
    ensures IsEmail(s) <==> EmailPattern(s)
  {
    if IsEmail(s) {
      IsEmailToPattern(s);
    }
    if EmailPattern(s) {
      PatternToIsEmail(s);
    }
  }

  /** The email check: required after trimming; then the untrimmed text must
      match the pattern, so surrounding white space is a format error. */
  function EmailError(email: string, invalidMessage: Message): (r: Option<Message>)
    ensures Trim(email) == "" ==> r == Some(EmailRequired)
    ensures Trim(email) != "" && !IsEmail(email) ==> r == Some(invalidMessage)
    ensures r == None <==> IsEmail(email)
  {
    if Trim(email) == "" then Some(EmailRequired)
    else if !IsEmail(email) then Some(invalidMessage)
    else None
  }

  /** The email check passes exactly on the texts the regular expression
      matches, so text with white space anywhere, including around it, fails. */
  lemma EmailErrorMatchesPattern(email: string, invalidMessage: Message)
    ensures EmailError(email, invalidMessage) == None <==> EmailPattern(email)
    ensures HasSpace(email) ==> EmailError(email, invalidMessage).Some?
  {
    IsEmailMatchesPattern(email);
    SpaceFreeMeansNoSpace(email);
  }

  /** The experience check: required (truthy), then not negative, then at most 50. */
  function ExperienceError(v: ExperienceValue): (r: Option<Message>)
    ensures !Truthy(v) ==> r == Some(ExperienceRequired)
    ensures Truthy(v) && NumberOf(v) < 0 ==> r == Some(ExperienceNegative)
    ensures Truthy(v) && NumberOf(v) > 50 ==> r == Some(ExperienceTooHigh)
    ensures r == None <==> Truthy(v) && 0 <= NumberOf(v) <= 50
  {
    if !Truthy(v) then Some(ExperienceRequired)
    else if NumberOf(v) < 0 then Some(ExperienceNegative)
    else if NumberOf(v) > 50 then Some(ExperienceTooHigh)
    else None
  }

  /** The `errors` object `validateForm` builds from the four checks' results:
      one entry per failing field. */
  function ErrorMap(name: Option<Message>, email: Option<Message>, skills: Option<Message>, experience: Option<Message>): (m: map<Field, Message>)
    ensures Name in m <==> name.Some?
    ensures Email in m <==> email.Some?
    ensures Skills in m <==> skills.Some?
    ensures Experience in m <==> experience.Some?
    ensures Name in m ==> m[Name] == name.value
    ensures Email in m ==> m[Email] == email.value
    ensures Skills in m ==> m[Skills] == skills.value
    ensures Experience in m ==> m[Experience] == experience.value
    ensures m == map[] <==> name.None? && email.None? && skills.None? && experience.None?
  {
    Put(Put(Put(Put(map[], Name, name), Email, email), Skills, skills), Experience, experience)
  }

  /** The errors of a draft; `skillsMissing` is the page's own skills test. */
  function Errors(d: Draft, skillsMissing: bool, invalidEmailMessage: Message): map<Field, Message> {
    ErrorMap(NameError(d.name), EmailError(d.email, invalidEmailMessage),
      if skillsMissing then Some(SkillsRequired) else None, ExperienceError(d.experience))
  }

  /** Record the field's message, if it has one. */
  function Put(m: map<Field, Message>, f: Field, message: Option<Message>): (r: map<Field, Message>)
    ensures r.Keys == if message.Some? then m.Keys + {f} else m.Keys
    ensures message.Some? ==> r[f] == message.value
    ensures forall g :: g in m && g != f ==> r[g] == m[g]
  {
    if message.Some? then m[f := message.value] else m
  }

  /** The draft passes validation exactly when all four checks pass. */
  lemma PassingDraft(d: Draft, skillsMissing: bool, invalidEmailMessage: Message)
    ensures Errors(d, skillsMissing, invalidEmailMessage) == map[] <==>
      && NameError(d.name) == None && EmailError(d.email, invalidEmailMessage) == None
      && !skillsMissing && ExperienceError(d.experience) == None
  {
    var m := Errors(d, skillsMissing, invalidEmailMessage);
    if m != map[] {
      assert exists f :: f in m;
    }
  }

  /** A draft that passes has a trimmed name of at least 2 characters, an
      email that matches the pattern and that trimming leaves unchanged, and an
      experience from 0 to 50. */
  lemma PassingDraftFields(d: Draft, skillsMissing: bool, invalidEmailMessage: Message)
    requires Errors(d, skillsMissing, invalidEmailMessage) == map[]
    ensures |Trim(d.name)| >= 2 && EmailPattern(d.email) && Trim(d.email) == d.email
    ensures !skillsMissing && 0 <= NumberOf(d.experience) <= 50
  {
    PassingDraft(d, skillsMissing, invalidEmailMessage);
    assert IsEmail(d.email);
    EmailErrorMatchesPattern(d.email, invalidEmailMessage);
    TrimNoSpace(d.email);
  }

  /** "a@b.co" matches the email pattern. */
  lemma SampleEmailMatches()
    ensures EmailPattern("a@b.co")
  {
    var email := "a@b.co";
    assert email[..1] == "a" && email[2..3] == "b" && email[4..] == "co";
    assert Plain("a") && Plain("b") && Plain("co");
    assert email[1] == '@' && email[3] == '.';
  }

  /** An experience of "0" typed into the field passes (the text is truthy),
      while a stored experience of 0 seeded into the edit page is reported as
      missing. */
  lemma ZeroExperience()
    ensures ExperienceError(Typed(0)) == None
    ensures ExperienceError(Stored(0)) == Some(ExperienceRequired)
    ensures forall n :: ExperienceError(Stored(n)) == None <==> 1 <= n <= 50
  {
  }

  /** An experience over 50 years always blocks submission, with the
      "cannot exceed 50 years" message under the field. */
  lemma ExperienceOverFiftyBlocks(d: Draft, skillsMissing: bool, invalidEmailMessage: Message)
    requires Truthy(d.experience) && NumberOf(d.experience) > 50
    ensures Experience in Errors(d, skillsMissing, invalidEmailMessage)
    ensures Errors(d, skillsMissing, invalidEmailMessage)[Experience] == ExperienceTooHigh
    ensures Errors(d, skillsMissing, invalidEmailMessage) != map[]
  {
  }

  /** `validateForm`'s body: each field's checks in turn, each failing check
      recording its message; the draft passes when no key was recorded. */
  method Validate(d: Draft, skillsMissing: bool, invalidEmailMessage: Message) returns (errors: map<Field, Message>, passed: bool)
    ensures errors == Errors(d, skillsMissing, invalidEmailMessage)
    ensures passed <==> errors == map[]
  {
    errors := map[];
    var message := CheckName(d.name);
    errors := Record(errors, Name, message);
    message := CheckEmail(d.email, invalidEmailMessage);
    errors := Record(errors, Email, message);
    if skillsMissing {
      errors := errors[Skills := SkillsRequired];
    }
    message := CheckExperience(d.experience);
    errors := Record(errors, Experience, message);
    passed := |errors.Keys| == 0;
    NoKeys(errors);
  }

  /** `errors.<field> = message` when a check failed. */
  method Record(errors: map<Field, Message>, f: Field, message: Option<Message>) returns (r: map<Field, Message>)
    ensures r == Put(errors, f, message)
  {
    r := errors;
    if message.Some? {
      r := r[f := message.value];
    }
  }

  method CheckName(name: string) returns (message: Option<Message>)
    ensures message == NameError(name)
  {
    message := None;
    var trimmed := Trim(name);
    if trimmed == "" {
      message := Some(NameRequired);
    } else if |trimmed| < 2 {
      message := Some(NameTooShort);
    }
  }

  method CheckEmail(email: string, invalidMessage: Message) returns (message: Option<Message>)
    ensures message == EmailError(email, invalidMessage)
  {
    message := None;
    if Trim(email) == "" {
      message := Some(EmailRequired);
    } else if !IsEmail(email) {
      message := Some(invalidMessage);
    }
  }

  method CheckExperience(v: ExperienceValue) returns (message: Option<Message>)
    ensures message == ExperienceError(v)
  {
    message := None;
    if !Truthy(v) {
      message := Some(ExperienceRequired);
    } else if NumberOf(v) < 0 {
      message := Some(ExperienceNegative);
    } else if NumberOf(v) > 50 {
      message := Some(ExperienceTooHigh);
    }
  }

  /** The record a form sends: trimmed name and email, the skills, and
      `Number(experience)`. */
  datatype TalentInput = TalentInput(name: string, email: string, skills: seq<string>, experience: int)

  function Payload(d: Draft, skills: seq<string>): TalentInput {
    TalentInput(Trim(d.name), Trim(d.email), skills, NumberOf(d.experience))
  }

  /** What the checks are meant to guarantee about a record sent to the server. */
  ghost predicate AcceptableInput(p: TalentInput) {
    && |p.name| >= 2 && !IsSpace(p.name[0]) && !IsSpace(p.name[|p.name| - 1])
    && EmailPattern(p.email)
    && p.skills != []
    && 0 <= p.experience <= 50
  }

  /** A draft that passes validation, with the skills the check saw, yields an
      acceptable record. */
  lemma PassingDraftGivesAcceptableInput(d: Draft, skills: seq<string>, invalidEmailMessage: Message)
    requires Errors(d, skills == [], invalidEmailMessage) == map[]
    ensures AcceptableInput(Payload(d, skills))
  {
    PassingDraft(d, skills == [], invalidEmailMessage);
    AcceptablePayload(d, skills);
  }

  lemma AcceptablePayload(d: Draft, skills: seq<string>)
    requires |Trim(d.name)| >= 2 && IsEmail(d.email)
    requires skills != [] && 0 <= NumberOf(d.experience) <= 50
    ensures AcceptableInput(Payload(d, skills))
  {
    PayloadName(d, skills);
    PayloadEmail(d, skills);
  }

  /** The trimmed name has no white space at either end. */
  lemma PayloadName(d: Draft, skills: seq<string>)
    requires |Trim(d.name)| >= 2
    ensures var name := Payload(d, skills).name;
      |name| >= 2 && !IsSpace(name[0]) && !IsSpace(name[|name| - 1])
  {
  }

  /** Trimming an email that passes the test leaves it unchanged and matching. */
  lemma PayloadEmail(d: Draft, skills: seq<string>)
    requires IsEmail(d.email)
    ensures Payload(d, skills).email == d.email
    ensures EmailPattern(Payload(d, skills).email)
  {
    IsEmailMatchesPattern(d.email);
    assert SpaceFree(d.email);
    SpaceFreeMeansNoSpace(d.email);
    TrimNoSpace(d.email);
  }

  /** `Object.keys(errors).length === 0` holds exactly for the empty object. */
  lemma NoKeys(errors: map<Field, Message>)
    ensures |errors.Keys| == 0 <==> errors == map[]
  {
    if errors != map[] {
      var f :| f in errors;
      assert f in errors.Keys;
    }
  }

  /** `formErrors[name]` is truthy: the field shows a non-empty message. */
  predicate HasError(errors: map<Field, Message>, f: Field) {
    f in errors && errors[f] != Blank
  }

  /** `if (formErrors[name]) setFormErrors({ ...prev, [name]: "" })`: blank the
      field's message when it has one; every other entry is left as it was. */
  function ClearFieldError(errors: map<Field, Message>, f: Field): (r: map<Field, Message>)
    ensures r.Keys == errors.Keys
    ensures !HasError(r, f)
    ensures forall g :: g in errors && g != f ==> r[g] == errors[g]
    ensures !HasError(errors, f) ==> r == errors
  {
    if HasError(errors, f) then errors[f := Blank] else errors
  }
}
