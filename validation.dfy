/** The decision part of `validateStep`: which message, if any, a step
    fails with. The first failing rule of a step wins. */
module Validation {
  import opened Strings
  import opened Form

  /** The messages `validateStep` can leave in `currentValidationError`.
      `UnknownStep` is the `default` branch, which fails without a message. */
  datatype StepError =
    | NameRequired
    | PhoneTooShort
    | ComplaintRequired
    | BleedingRequired
    | RecessionRequired
    | UnknownStep
  {
    /** The text shown to the user. */
    function Message(): (m: string)
      ensures m == [] <==> UnknownStep?
    {
      match this
      case NameRequired => "O campo Nome é obrigatório."
      case PhoneTooShort => "O WhatsApp deve ter pelo menos 10 dígitos."
      case ComplaintRequired => "O campo Queixa Principal é obrigatório."
      case BleedingRequired => "Informe se há sangramento ao escovar."
      case RecessionRequired => "Informe se há retração gengival."
      case UnknownStep => ""
    }
  }

  datatype Verdict = Pass | Fail(error: StepError) {
    /** What `currentValidationError` holds once `validateStep` returns. */
    function ErrorText(): (m: string)
      ensures Pass? ==> m == []
    {
      match this
      case Pass => ""
      case Fail(e) => e.Message()
    }
  }

  /** The least number of digits a WhatsApp number must have. */
  const MinPhoneDigits: nat := 10

  /** `validateStep(currentStep)` over `formData`, without its side effect. */
  function CheckStep(d: FormData, step: int): (r: Verdict)
    ensures r == Pass ==> 1 <= step <= 4
    ensures r.Fail? && 1 <= step <= 4 ==> r.ErrorText() != []
  {
    if step == 1 then
      if Trim(d.name) == [] then Fail(NameRequired)
      else if |Digits(d.phone)| < MinPhoneDigits then Fail(PhoneTooShort)
      else Pass
    else if step == 2 then
      if Trim(d.mainComplaint) == [] then Fail(ComplaintRequired) else Pass
    else if step == 3 then
      if d.bleeding == Blank then Fail(BleedingRequired)
      else if d.gumRecession == Blank then Fail(RecessionRequired)
      else Pass
    else if step == 4 then Pass
    else Fail(UnknownStep)
  }

  /** Step 1 fails with the name message exactly when the name is empty or
      only whitespace, whatever the phone holds. */
  lemma NameCheckedFirst(d: FormData)
    ensures CheckStep(d, 1) == Fail(NameRequired) <==> AllWhitespace(d.name)
  {
  }

  /** With a name given, step 1 fails with the phone message exactly when the
      phone has fewer than ten digits, and passes otherwise. */
  lemma PhoneCheckedSecond(d: FormData)
    requires !AllWhitespace(d.name)
    ensures CheckStep(d, 1) == Fail(PhoneTooShort) <==> |Digits(d.phone)| < MinPhoneDigits
    ensures CheckStep(d, 1) == Pass <==> |Digits(d.phone)| >= MinPhoneDigits
  {
  }

  /** Step 1 passes exactly when the name has a non-whitespace character and
      the phone at least ten digits. */
  lemma StepOnePasses(d: FormData)
    ensures CheckStep(d, 1) == Pass <==> !AllWhitespace(d.name) && |Digits(d.phone)| >= MinPhoneDigits
  {
  }

  /** Step 2 fails, with the main-complaint message, exactly when the main
      complaint is empty or only whitespace. */
  lemma StepTwo(d: FormData)
    ensures CheckStep(d, 2) == Pass || CheckStep(d, 2) == Fail(ComplaintRequired)
    ensures CheckStep(d, 2) == Fail(ComplaintRequired) <==> AllWhitespace(d.mainComplaint)
  {
  }

  /** Step 3 asks for the bleeding answer before the gum-recession answer
      and passes once both are given. */
  lemma StepThree(d: FormData)
    ensures d.bleeding == Blank ==> CheckStep(d, 3) == Fail(BleedingRequired)
    ensures d.bleeding != Blank && d.gumRecession == Blank ==> CheckStep(d, 3) == Fail(RecessionRequired)
    ensures CheckStep(d, 3) == Pass <==> d.bleeding != Blank && d.gumRecession != Blank
  {
  }

  /** Step 4 always passes; a step number outside 1..4 always fails. */
  lemma OtherSteps(d: FormData, step: int)
    ensures step == 4 ==> CheckStep(d, step) == Pass
    ensures !(1 <= step <= 4) ==> CheckStep(d, step) == Fail(UnknownStep)
  {
  }

  /** Every failure names the step that raised it. */
  lemma ErrorBelongsToStep(d: FormData, step: int)
    requires CheckStep(d, step).Fail?
    ensures var e := CheckStep(d, step).error;
      (e == NameRequired || e == PhoneTooShort <==> step == 1) &&
      (e == ComplaintRequired <==> step == 2) &&
      (e == BleedingRequired || e == RecessionRequired <==> step == 3) &&
      (e == UnknownStep <==> !(1 <= step <= 4))
  {
  }

  /** The step whose screen renders a text input. */
  function StepOfField(f: TextField): (s: int)
    ensures 1 <= s <= 4
  {
    match f
    case Name | Email | Phone | Age => 1
    case MainComplaint | PainLevel | PainDuration => 2
    case PreviousTreatments | Medications | AdditionalInfo => 4
  }

  /** Every step before `step` passes its check. */
  predicate PassedBefore(d: FormData, step: int) {
    forall k :: 1 <= k < step ==> CheckStep(d, k) == Pass
  }

  /** Editing a field leaves the checks of the steps before its own step as
      they were. */
  lemma EditKeepsEarlierChecks(d: FormData, f: TextField, v: string, k: int)
    requires k < StepOfField(f)
    ensures CheckStep(d.WithText(f, v), k) == CheckStep(d, k)
  {
    var e := d.WithText(f, v);
    assert e.Text(Name) == d.Text(Name) || StepOfField(f) <= 1;
    assert e.Text(Phone) == d.Text(Phone) || StepOfField(f) <= 1;
    assert e.Text(MainComplaint) == d.Text(MainComplaint) || StepOfField(f) <= 2;
  }

  /** The multi-select lists are checked by no step. */
  lemma ListEditKeepsChecks(d: FormData, f: ListField, l: seq<string>, k: int)
    ensures CheckStep(d.WithList(f, l), k) == CheckStep(d, k)
  {
    var e := d.WithList(f, l);
    assert e.Text(Name) == d.Text(Name) && e.Text(Phone) == d.Text(Phone);
    assert e.Text(MainComplaint) == d.Text(MainComplaint);
    assert e.Radio(Bleeding) == d.Radio(Bleeding) && e.Radio(GumRecession) == d.Radio(GumRecession);
  }

  /** Giving a radio answer never makes a passing step fail. */
  lemma AnswerKeepsPassing(d: FormData, f: RadioField, a: Answer, k: int)
    requires a != Blank && CheckStep(d, k) == Pass
    ensures CheckStep(d.WithRadio(f, a), k) == Pass
  {
    var e := d.WithRadio(f, a);
    assert e.Text(Name) == d.Text(Name) && e.Text(Phone) == d.Text(Phone);
    assert e.Text(MainComplaint) == d.Text(MainComplaint);
    assert e.Radio(Bleeding) == d.Radio(Bleeding) || f == Bleeding;
    assert e.Radio(GumRecession) == d.Radio(GumRecession) || f == GumRecession;
  }
}
