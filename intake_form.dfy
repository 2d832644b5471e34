/**
 * The two-step intake form component (`Home`): the step counter and the
 * field values it edits, the handlers wired to its controls, and the states
 * those controls can reach.
 */
module IntakeForm {
  import opened Wrappers
  import opened Record
  import opened IntakeSchema

  // ---------------------------------------------------------------- inputs from outside

  /** The two items of every yes/no radio group. */
  datatype Answer = Yes | No

  function AnswerText(a: Answer): (s: string)
    ensures IsYesNo(s)
  {
    match a
    case Yes => "yes"
    case No => "no"
  }

  /** What the `fetch` to `/api/submit-form` came to: a response with `ok` set, one without, or a thrown error. */
  datatype Outcome = ResponseOk | ResponseNotOk | RequestThrew

  /** The notification shown by `toast.success` or `toast.error`. */
  datatype Toast = SuccessToast(message: string) | ErrorToast(message: string)

  // ---------------------------------------------------------------- the form's constants

  /** `defaultValues`, which `form.reset()` restores; fields it does not list become undefined. */
  function Defaults(): Submission {
    Submission("", "", "", "", "no", None, None, None, Some([]),
               None, None, None, None, None, Some([]), None, None, None)
  }

  /** The checkbox items of the creation-challenges question. */
  const CreationChallengeOptions: seq<string> := [
    "Lack of technical skills or knowledge",
    "Difficulty choosing the right platform or tools",
    "High development and maintenance costs",
    "Creating visually appealing and user-friendly designs",
    "Writing engaging and SEO-friendly content",
    "Ensuring compatibility across devices and browsers",
    "Setting up hosting and domain management",
    "Managing security and protecting against cyber threats",
    "Limited time to focus on development",
    "Other"]

  // ---------------------------------------------------------------- controls and the fields they write

  /** The fields bound to a text `Input`. */
  predicate IsTextInput(k: Key) {
    || k.Name? || k.CompanyName? || k.Email? || k.Phone?
    || k.WebsiteUseOther? || k.BusinessIndustryOther? || k.TargetAudienceOther?
  }

  /** The fields bound to a yes/no `RadioGroup`. */
  predicate IsRadioKey(k: Key) {
    || k.HasWebsite? || k.ImplementedStrategies? || k.Campaigns?
    || k.DigitalPerformance? || k.JoinWishlist? || k.WantWebsite?
  }

  /** The choice groups that have an "Other" answer with a companion text. */
  predicate IsChoiceKey(k: Key) {
    k.WebsiteUse? || k.BusinessIndustry? || k.TargetAudience?
  }

  function Companion(k: Key): Key
    requires IsChoiceKey(k)
  {
    match k
    case WebsiteUse => WebsiteUseOther
    case BusinessIndustry => BusinessIndustryOther
    case TargetAudience => TargetAudienceOther
  }

  /** A choice group's `onValueChange`: record the answer and, unless it is "Other", blank the companion text. */
  function Choose(v: Submission, k: Key, value: string): (r: Submission)
    requires IsChoiceKey(k)
    ensures View(r, k) == Some(Str(value))
    ensures View(r, Companion(k)) == if value != "Other" then Some(Str("")) else View(v, Companion(k))
    ensures forall j :: j != k && j != Companion(k) ==> View(r, j) == View(v, j)
  {
    var chosen := WithString(v, k, value);
    if value != "Other" then WithString(chosen, Companion(k), "") else chosen
  }

  /** Choosing the same answer twice has the effect of choosing it once. */
  lemma ChooseIdempotent(v: Submission, k: Key, value: string)
    requires IsChoiceKey(k)
    ensures Choose(Choose(v, k, value), k, value) == Choose(v, k, value)
  {
    var once := Choose(v, k, value);
    ViewDetermines(Choose(once, k, value), once);
  }

  /** `current.filter((value) => value !== c)`. */
  function Without(xs: seq<string>, c: string): (r: seq<string>)
    ensures c !in r
    ensures forall d :: d != c ==> multiset(r)[d] == multiset(xs)[d]
  {
    if xs == [] then []
    else
      assert xs == [xs[0]] + xs[1..];
      (if xs[0] == c then [] else [xs[0]]) + Without(xs[1..], c)
  }

  /** Filtering works element by element, so what survives keeps its order. */
  lemma {:induction false} WithoutDistributes(xs: seq<string>, ys: seq<string>, c: string)
    ensures Without(xs + ys, c) == Without(xs, c) + Without(ys, c)
  {
    if xs == [] {
      assert xs + ys == ys;
    } else {
      assert (xs + ys)[0] == xs[0];
      assert (xs + ys)[1..] == xs[1..] + ys;
      WithoutDistributes(xs[1..], ys, c);
      var head := if xs[0] == c then [] else [xs[0]];
      assert Without(xs + ys, c) == head + (Without(xs[1..], c) + Without(ys, c));
      assert head + (Without(xs[1..], c) + Without(ys, c)) == (head + Without(xs[1..], c)) + Without(ys, c);
    }
  }

  lemma {:induction false} WithoutAbsent(xs: seq<string>, c: string)
    requires c !in xs
    ensures Without(xs, c) == xs
  {
    if xs != [] {
      WithoutAbsent(xs[1..], c);
    }
  }

  /** The checkbox's new list: appended at the end when checked, every occurrence filtered out when unchecked. */
  function Toggled(xs: seq<string>, c: string, checked: bool): seq<string> {
    if checked then xs + [c] else Without(xs, c)
  }

  /** Checking an absent item and then unchecking it gives back the list it started from. */
  lemma CheckThenUncheck(xs: seq<string>, c: string)
    requires c !in xs
    ensures Toggled(Toggled(xs, c, true), c, false) == xs
  {
    WithoutDistributes(xs, [c], c);
    WithoutAbsent(xs, c);
  }

  /** `field.value || []`. */
  function Current(o: Option<seq<string>>): seq<string> {
    match o
    case None => []
    case Some(xs) => xs
  }

  /** A checkbox's `onCheckedChange` on the creation-challenges list. */
  function Toggle(v: Submission, c: string, checked: bool): (r: Submission)
    ensures View(r, CreationChallenges) == Some(List(Toggled(Current(v.creationChallenges), c, checked)))
    ensures forall j :: j != CreationChallenges ==> View(r, j) == View(v, j)
  {
    WithList(v, CreationChallenges, Toggled(Current(v.creationChallenges), c, checked))
  }

  // ---------------------------------------------------------------- which controls are on screen

  /** A text input is rendered: the identity inputs on step 1, an `*Other` input on step 2 once its group says "Other". */
  predicate TextOffered(step: int, v: Submission, k: Key)
    requires IsTextInput(k)
  {
    match k
    case WebsiteUseOther => step == 2 && v.hasWebsite == "yes" && v.websiteUse == Some("Other")
    case BusinessIndustryOther => step == 2 && v.hasWebsite == "yes" && v.businessIndustry == Some("Other")
    case TargetAudienceOther => step == 2 && v.hasWebsite == "yes" && v.targetAudience == Some("Other")
    case _ => step == 1
  }

  /** A checkbox is rendered on the "no" branch, and its change event carries the negation of what it shows. */
  predicate ToggleOffered(step: int, v: Submission, c: string, checked: bool) {
    && step == 2 && v.hasWebsite == "no" && c in CreationChallengeOptions
    && checked == (c !in Current(v.creationChallenges))
  }

  /** The "Previous" button is rendered only when `step > 1`. */
  predicate PreviousOffered(step: int) {
    step > 1
  }

  // ---------------------------------------------------------------- the reachable states

  predicate NoRepeats(xs: seq<string>) {
    forall d | d in multiset(xs) :: multiset(xs)[d] == 1
  }

  /** A companion text is blank or undefined unless its group's answer is "Other". */
  predicate OtherConsistent(v: Submission, k: Key)
    requires IsChoiceKey(k)
  {
    View(v, k) != Some(Str("Other")) ==> View(v, Companion(k)) == None || View(v, Companion(k)) == Some(Str(""))
  }

  /** What holds in every state the rendered controls can lead to. */
  predicate Reachable(step: int, v: Submission) {
    && (step == 1 || step == 2)
    && IsYesNo(v.hasWebsite)
    && OptionalYesNo(v.implementedStrategies) && OptionalYesNo(v.campaigns)
    && OptionalYesNo(v.digitalperformance) && OptionalYesNo(v.joinWishlist)
    && OptionalYesNo(v.wantWebsite)
    && OtherConsistent(v, WebsiteUse) && OtherConsistent(v, BusinessIndustry) && OtherConsistent(v, TargetAudience)
    && v.challenges == Some([])
    && v.creationChallenges.Some? && NoRepeats(v.creationChallenges.value)
    && forall i :: 0 <= i < |v.creationChallenges.value| ==> v.creationChallenges.value[i] in CreationChallengeOptions
  }

  /** The form starts, and is reset to, a reachable state that the schema does not accept until the identity fields are filled. */
  lemma DefaultsReachable(isEmail: string -> bool)
    ensures Reachable(1, Defaults())
    ensures !ClientValid(Defaults(), isEmail)
  {
    assert !FieldOk(Defaults(), Name, isEmail);
  }

  /** In a reachable state only the four identity fields can make the schema reject the values. */
  lemma ReachableValidity(step: int, v: Submission, isEmail: string -> bool)
    requires Reachable(step, v)
    ensures ClientValid(v, isEmail) <==>
      AtLeastTwo(v.name) && AtLeastTwo(v.companyName) && isEmail(v.email) && PhoneMatches(v.phone)
  {
    ClientValidRules(v, isEmail);
  }

  lemma TypeTextKeepsReachable(step: int, v: Submission, k: Key, s: string)
    requires IsTextInput(k) && Reachable(step, v) && TextOffered(step, v, k)
    ensures Reachable(step, WithString(v, k, s))
  {
  }

  lemma AnswerKeepsReachable(step: int, v: Submission, k: Key, a: Answer)
    requires IsRadioKey(k) && Reachable(step, v)
    ensures Reachable(step, WithString(v, k, AnswerText(a)))
  {
  }

  lemma ChooseKeepsReachable(step: int, v: Submission, k: Key, value: string)
    requires IsChoiceKey(k) && Reachable(step, v)
    ensures Reachable(step, Choose(v, k, value))
  {
  }

  /** A toggle as the checkbox issues it keeps a list free of repeats and within the given catalogue. */
  lemma ToggledKeepsList(xs: seq<string>, options: seq<string>, c: string, checked: bool)
    requires NoRepeats(xs) && forall i :: 0 <= i < |xs| ==> xs[i] in options
    requires c in options && checked == (c !in xs)
    ensures NoRepeats(Toggled(xs, c, checked))
    ensures forall i :: 0 <= i < |Toggled(xs, c, checked)| ==> Toggled(xs, c, checked)[i] in options
  {
    var ys := Toggled(xs, c, checked);
    if checked {
      assert multiset(ys) == multiset(xs) + multiset{c};
    } else {
      forall i | 0 <= i < |ys| ensures ys[i] in options {
        assert ys[i] in multiset(ys);
        assert ys[i] in multiset(xs);
      }
    }
  }

  /** Toggling a rendered checkbox keeps the list free of repeats and within the catalogue. */
  lemma ToggleKeepsReachable(step: int, v: Submission, c: string, checked: bool)
    requires Reachable(step, v) && ToggleOffered(step, v, c, checked)
    ensures Reachable(step, Toggle(v, c, checked))
  {
    ToggledKeepsList(v.creationChallenges.value, CreationChallengeOptions, c, checked);
    assert Toggle(v, c, checked) == v.(creationChallenges := Some(Toggled(v.creationChallenges.value, c, checked)));
  }

  /** Choosing an answer or toggling a checkbox never changes whether the schema accepts the values. */
  lemma EditsOfFreeFieldsKeepValidity(v: Submission, k: Key, value: string, c: string, checked: bool, isEmail: string -> bool)
    requires IsChoiceKey(k)
    ensures ClientValid(Choose(v, k, value), isEmail) == ClientValid(v, isEmail)
    ensures ClientValid(Toggle(v, c, checked), isEmail) == ClientValid(v, isEmail)
  {
    ClientValidRules(v, isEmail);
    ClientValidRules(Choose(v, k, value), isEmail);
    ClientValidRules(Toggle(v, c, checked), isEmail);
  }

  /** `form.getValues(...)` tested for truthiness: the gate of `nextStep`. */
  predicate IdentityPresent(v: Submission) {
    v.name != "" && v.companyName != "" && v.email != "" && v.phone != ""
  }

  const IdentityKeys: seq<Key> := [Name, CompanyName, Email, Phone]

  // ---------------------------------------------------------------- the component

  class Form {
    /** `useState(1)`. */
    var step: int
    /** The values `useForm` holds. */
    var values: Submission

    constructor ()
      ensures step == 1 && values == Defaults()
    {
      step := 1;
      values := Defaults();
    }

    /**
     * The `type="submit"` button, through `form.handleSubmit(onSubmit)`: the
     * schema runs first and `onSubmit` only on success; on step 1 that moves
     * to step 2, on step 2 the values are posted with `outcome` as the result.
     */
    method PressPrimary(isEmail: string -> bool, outcome: Outcome)
      returns (errors: seq<Issue>, sent: Option<Document>, toast: Option<Toast>)
      modifies this
      ensures errors == Issues(old(values), isEmail)
      ensures sent.Some? ==> errors == [] && old(step) == 2
      ensures errors != [] ==> step == old(step) && values == old(values) && sent == None && toast == None
      ensures errors == [] && old(step) != 2 ==>
                step == 2 && values == old(values) && sent == None && toast == None
      ensures errors == [] && old(step) == 2 ==> sent == Some(Encode(old(values)))
      ensures errors == [] && old(step) == 2 && outcome == ResponseOk ==>
                step == 1 && values == Defaults() && toast == Some(SuccessToast("Form submitted successfully"))
      ensures errors == [] && old(step) == 2 && outcome == ResponseNotOk ==>
                step == old(step) && values == old(values) && toast == Some(ErrorToast("Form submission failed"))
      ensures errors == [] && old(step) == 2 && outcome == RequestThrew ==>
                step == old(step) && values == old(values) && toast == Some(ErrorToast("Error submitting form"))
      ensures old(Reachable(step, values)) ==> Reachable(step, values)
    {
      errors := Issues(values, isEmail);
      sent, toast := None, None;
      if errors != [] {
        return;
      }
      if step != 2 {
        step := 2;
        return;
      }
      sent := Some(Encode(values));
      match outcome
      case ResponseOk =>
        toast := Some(SuccessToast("Form submitted successfully"));
        values := Defaults();
        step := 1;
        DefaultsReachable(isEmail);
      case ResponseNotOk =>
        toast := Some(ErrorToast("Form submission failed"));
      case RequestThrew =>
        toast := Some(ErrorToast("Error submitting form"));
    }

    /**
     * `nextStep`, which no control calls: on step 1 it advances when the four
     * identity fields are non-empty, and otherwise runs `form.trigger` on them.
     */
    method NextStep(isEmail: string -> bool) returns (flagged: seq<Issue>)
      modifies this
      ensures values == old(values)
      ensures old(step) == 1 && IdentityPresent(values) ==> step == 2 && flagged == []
      ensures old(step) == 1 && !IdentityPresent(values) ==>
                step == 1 && flagged == IssuesOver(values, isEmail, IdentityKeys)
      ensures old(step) != 1 ==> step == old(step) && flagged == []
      ensures old(Reachable(step, values)) ==> Reachable(step, values)
    {
      flagged := [];
      if step == 1 {
        if IdentityPresent(values) {
          step := 2;
        } else {
          flagged := IssuesOver(values, isEmail, IdentityKeys);
        }
      }
    }

    /** `prevStep`: `setStep(step - 1)`, with no guard of its own. */
    method PrevStep()
      modifies this
      ensures step == old(step) - 1 && values == old(values)
      ensures old(Reachable(step, values)) && old(PreviousOffered(step)) ==> Reachable(step, values)
    {
      step := step - 1;
    }

    /** Typing into a text input: `field.onChange` with the input's text. */
    method TypeText(k: Key, s: string)
      requires IsTextInput(k)
      modifies this
      ensures step == old(step) && values == WithString(old(values), k, s)
      ensures old(Reachable(step, values)) && old(TextOffered(step, values, k)) ==> Reachable(step, values)
    {
      if Reachable(step, values) && TextOffered(step, values, k) {
        TypeTextKeepsReachable(step, values, k, s);
      }
      values := WithString(values, k, s);
    }

    /** Picking "yes" or "no" in a radio group: `field.onChange` with the item's value. */
    method AnswerRadio(k: Key, a: Answer)
      requires IsRadioKey(k)
      modifies this
      ensures step == old(step) && values == WithString(old(values), k, AnswerText(a))
      ensures old(Reachable(step, values)) ==> Reachable(step, values)
    {
      if Reachable(step, values) {
        AnswerKeepsReachable(step, values, k, a);
      }
      values := WithString(values, k, AnswerText(a));
    }

    /** Picking an answer in a choice group: `field.onChange(value)`, then `form.setValue` on the companion unless "Other". */
    method ChooseOption(k: Key, value: string)
      requires IsChoiceKey(k)
      modifies this
      ensures step == old(step) && values == Choose(old(values), k, value)
      ensures old(Reachable(step, values)) ==> Reachable(step, values)
    {
      if Reachable(step, values) {
        ChooseKeepsReachable(step, values, k, value);
      }
      values := WithString(values, k, value);
      if value != "Other" {
        values := WithString(values, Companion(k), "");
      }
    }

    /** A creation-challenge checkbox's `onCheckedChange(checked)`. */
    method ToggleChallenge(c: string, checked: bool)
      modifies this
      ensures step == old(step) && values == Toggle(old(values), c, checked)
      ensures old(Reachable(step, values)) && old(ToggleOffered(step, values, c, checked)) ==> Reachable(step, values)
    {
      if Reachable(step, values) && ToggleOffered(step, values, c, checked) {
        ToggleKeepsReachable(step, values, c, checked);
      }
      var current := Current(values.creationChallenges);
      var updated := if checked then current + [c] else Without(current, c);
      values := WithList(values, CreationChallenges, updated);
    }
  }

  // ---------------------------------------------------------------- a complete run

  /** The values after step 1 has been filled in. */
  function Entered(name: string, companyName: string, email: string, phone: string): Submission {
    Defaults().(name := name, companyName := companyName, email := email, phone := phone)
  }

  /** Acceptable identity fields over the defaults: reachable on step 1, and the schema reports nothing. */
  lemma EnteredIsAccepted(isEmail: string -> bool, name: string, companyName: string, email: string, phone: string)
    requires AtLeastTwo(name) && AtLeastTwo(companyName) && isEmail(email) && PhoneMatches(phone)
    ensures Reachable(1, Entered(name, companyName, email, phone))
    ensures Issues(Entered(name, companyName, email, phone), isEmail) == []
  {
    var entered := Entered(name, companyName, email, phone);
    DefaultsReachable(isEmail);
    ReachableValidity(1, entered, isEmail);
    NoIssuesIffValid(entered, isEmail);
  }

  /** Typing the four identity fields of step 1 into a fresh form. */
  method TypeIdentity(form: Form, name: string, companyName: string, email: string, phone: string)
    requires form.step == 1 && form.values == Defaults()
    modifies form
    ensures form.step == 1 && form.values == Entered(name, companyName, email, phone)
  {
    form.TypeText(Name, name);
    assert form.values == Defaults().(name := name);
    form.TypeText(CompanyName, companyName);
    assert form.values == Defaults().(name := name, companyName := companyName);
    form.TypeText(Email, email);
    assert form.values == Defaults().(name := name, companyName := companyName, email := email);
    form.TypeText(Phone, phone);
  }

  /** Filling in step 1 with acceptable identity fields and pressing Next reaches step 2 with those values. */
  method FillStepOne(isEmail: string -> bool, name: string, companyName: string, email: string, phone: string)
    returns (form: Form)
    requires AtLeastTwo(name) && AtLeastTwo(companyName) && isEmail(email) && PhoneMatches(phone)
    ensures fresh(form)
    ensures form.step == 2 && form.values == Entered(name, companyName, email, phone)
  {
    form := new Form();
    TypeIdentity(form, name, companyName, email, phone);
    EnteredIsAccepted(isEmail, name, companyName, email, phone);
    var errors, sent, toast := form.PressPrimary(isEmail, ResponseOk);
  }

  /** Answering "yes" to wanting a website and ticking "Other" keeps accepted values accepted, and they survive the trip to the server. */
  lemma CompleteIsAccepted(entered: Submission, isEmail: string -> bool)
    requires Issues(entered, isEmail) == []
    ensures var complete := entered.(wantWebsite := Some("yes"), creationChallenges := Some(["Other"]));
            Issues(complete, isEmail) == [] && Decode(Encode(complete)) == Some(complete)
  {
    var complete := entered.(wantWebsite := Some("yes"), creationChallenges := Some(["Other"]));
    NoIssuesIffValid(entered, isEmail);
    ClientValidRules(entered, isEmail);
    ClientValidRules(complete, isEmail);
    NoIssuesIffValid(complete, isEmail);
    DecodeEncode(complete);
  }

  /** On step 2 of the "no" branch: answer "yes" to wanting a website, tick "Other", press Submit, get an ok response. */
  method FinishWithoutWebsite(form: Form, isEmail: string -> bool, entered: Submission) returns (sent: Option<Document>)
    requires form.step == 2 && form.values == entered && Reachable(2, entered) && Issues(entered, isEmail) == []
    requires entered.hasWebsite == "no" && entered.wantWebsite == None && entered.creationChallenges == Some([])
    modifies form
    ensures sent.Some?
    ensures Decode(sent.value) == Some(entered.(wantWebsite := Some("yes"), creationChallenges := Some(["Other"])))
    ensures form.step == 1 && form.values == Defaults()
  {
    form.AnswerRadio(WantWebsite, Yes);
    var answered := entered.(wantWebsite := Some("yes"));
    assert form.values == answered;
    form.ToggleChallenge("Other", true);
    var complete := answered.(creationChallenges := Some(["Other"]));
    assert Toggled(Current(answered.creationChallenges), "Other", true) == ["Other"];
    assert form.values == complete;
    CompleteIsAccepted(entered, isEmail);
    var errors, toast;
    errors, sent, toast := form.PressPrimary(isEmail, ResponseOk);
  }

  /**
   * A visitor without a website fills in step 1, presses Next, answers that
   * they want a website, ticks "Other" and presses Submit, and the server
   * answers with an ok response. The body posted holds exactly the entered
   * values and the `challenges: []` default, and the form is back at its start.
   */
  method NoWebsiteRun(isEmail: string -> bool, name: string, companyName: string, email: string, phone: string)
    returns (sent: Option<Document>, finalStep: int, finalValues: Submission)
    requires AtLeastTwo(name) && AtLeastTwo(companyName) && isEmail(email) && PhoneMatches(phone)
    ensures sent.Some?
    ensures Decode(sent.value) == Some(Submission(name, companyName, email, phone, "no", None, None, None, Some([]),
                                                  None, None, None, None, Some("yes"), Some(["Other"]), None, None, None))
    ensures finalStep == 1 && finalValues == Defaults()
  {
    var form := FillStepOne(isEmail, name, companyName, email, phone);
    var entered := Entered(name, companyName, email, phone);
    EnteredIsAccepted(isEmail, name, companyName, email, phone);
    assert Reachable(2, entered);
    sent := FinishWithoutWebsite(form, isEmail, entered);
    finalStep, finalValues := form.step, form.values;
  }

  /**
   * Choosing "Other" while its text holds `""` (blanked by an earlier choice,
   * or typed and erased) blocks nothing, and `""` is posted as it is; a text
   * nobody has touched stays undefined and is left out of the body.
   */
  lemma BlankOtherIsPostedAsIs(v: Submission, isEmail: string -> bool)
    requires ClientValid(v, isEmail)
    ensures ClientValid(Choose(v, WebsiteUse, "Other").(websiteUseOther := Some("")), isEmail)
    ensures var body := Encode(Choose(v, WebsiteUse, "Other").(websiteUseOther := Some("")));
            WebsiteUseOther in body && body[WebsiteUseOther] == Str("")
    ensures v.websiteUseOther == None ==> WebsiteUseOther !in Encode(Choose(v, WebsiteUse, "Other"))
  {
    EncodeEntry(Choose(v, WebsiteUse, "Other"), WebsiteUseOther);
    var w := Choose(v, WebsiteUse, "Other").(websiteUseOther := Some(""));
    FreeFieldsIrrelevant(v, isEmail, Some("Other"), Some(""), v.businessIndustryOther, v.targetAudienceOther);
    assert w == v.(websiteUse := Some("Other"), websiteUseOther := Some(""));
    EncodeEntry(w, WebsiteUseOther);
  }
}
