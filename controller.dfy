/** The state of the pre-assessment component and its event handlers.
    Each handler runs as one atomic update of the state. */
module Controller {
  import opened Strings
  import opened PhoneFormat
  import opened Form
  import opened Validation
  import opened Serialize

  /** What the handlers keep true of the record: the phone is held in its
      formatted form, and each list holds declared options, none twice. */
  predicate WellFormed(d: FormData) {
    FormatPhone(d.phone) == d.phone &&
    NoDuplicates(d.toothRegion) && NoDuplicates(d.sensitivity) && NoDuplicates(d.habits) &&
    OnlyDeclared(ToothRegion, d.toothRegion) &&
    OnlyDeclared(Sensitivity, d.sensitivity) &&
    OnlyDeclared(Habits, d.habits)
  }

  class PreAssessment {
    var formData: FormData
    var step: int
    var validationAttempted: bool
    var currentValidationError: string

    /** What every handler keeps: the step is one of the four screens and the
        record is well formed. */
    ghost predicate Valid()
      reads this
    {
      1 <= step <= 4 && WellFormed(formData)
    }

    /** Every step before the current one passes its check. */
    ghost predicate EarlierStepsPass()
      reads this
    {
      PassedBefore(formData, step)
    }

    constructor ()
      ensures Valid() && EarlierStepsPass()
      ensures formData == InitialForm() && step == 1
      ensures !validationAttempted && currentValidationError == ""
    {
      formData := InitialForm();
      step := 1;
      validationAttempted := false;
      currentValidationError := "";
    }

    /** The error shown under the current step: only once the user has tried
        to move on. */
    function DisplayedError(): string
      reads this
    {
      if validationAttempted then currentValidationError else ""
    }

    /** `handleInputChange`: stores the typed value (the phone through the
        mask) and clears a displayed error. Editing a field of the current
        screen keeps the earlier steps passing. */
    method InputChange(field: TextField, value: string)
      requires Valid()
      modifies this
      ensures Valid()
      ensures formData == old(formData).WithText(field, if field == Phone then FormatPhone(value) else value)
      ensures currentValidationError == if old(validationAttempted) then "" else old(currentValidationError)
      ensures step == old(step) && validationAttempted == old(validationAttempted)
      ensures DisplayedError() == ""
      ensures old(EarlierStepsPass()) && StepOfField(field) >= step ==> EarlierStepsPass()
    {
      if validationAttempted {
        currentValidationError := "";
      }
      ghost var before := formData;
      if field == Phone {
        FormatPhoneIdempotent(value);
        formData := formData.WithText(field, FormatPhone(value));
      } else {
        assert formData.Text(Phone) == before.Text(Phone);
        formData := formData.WithText(field, value);
      }
      forall k | 1 <= k < step && StepOfField(field) >= step
        ensures CheckStep(formData, k) == CheckStep(before, k)
      {
        EditKeepsEarlierChecks(before, field, formData.Text(field), k);
      }
    }

    /** `handleToggle`: selects `value` in a multi-select list when absent and
        deselects it when present. The error is left as it is. */
    method Toggle(field: ListField, value: string)
      requires Valid() && Declared(field, value)
      modifies this
      ensures Valid()
      ensures formData == old(formData).WithList(field, Toggled(old(formData).List(field), value))
      ensures step == old(step) && validationAttempted == old(validationAttempted)
      ensures currentValidationError == old(currentValidationError)
      ensures old(EarlierStepsPass()) ==> EarlierStepsPass()
    {
      ghost var before := formData;
      var list := formData.List(field);
      ToggleNoDuplicates(list, value);
      ToggleKeepsDeclared(field, list, value);
      var updated := Toggled(list, value);
      formData := formData.WithList(field, updated);
      assert formData.Text(Phone) == before.Text(Phone);
      forall k | 1 <= k < step ensures CheckStep(formData, k) == CheckStep(before, k) {
        ListEditKeepsChecks(before, field, updated, k);
      }
    }

    /** `handleRadioChange`: records a yes/no answer. */
    method RadioChange(field: RadioField, value: Answer)
      requires Valid()
      requires value != Blank
      modifies this
      ensures Valid()
      ensures formData == old(formData).WithRadio(field, value)
      ensures step == old(step) && validationAttempted == old(validationAttempted)
      ensures currentValidationError == old(currentValidationError)
      ensures old(EarlierStepsPass()) ==> EarlierStepsPass()
    {
      ghost var before := formData;
      formData := formData.WithRadio(field, value);
      assert formData.Text(Phone) == before.Text(Phone);
      assert forall g :: formData.List(g) == before.List(g);
      assert formData.toothRegion == formData.List(ToothRegion);
      assert formData.sensitivity == formData.List(Sensitivity);
      assert formData.habits == formData.List(Habits);
      if old(EarlierStepsPass()) {
        forall k | 1 <= k < step ensures CheckStep(formData, k) == Pass {
          AnswerKeepsPassing(before, field, value, k);
        }
      }
    }

    /** `validateStep`: decides the step and leaves its message, or nothing,
        in `currentValidationError`. */
    method ValidateStep(currentStep: int) returns (ok: bool)
      modifies this`currentValidationError
      ensures ok <==> CheckStep(formData, currentStep) == Pass
      ensures currentValidationError == CheckStep(formData, currentStep).ErrorText()
    {
      currentValidationError := "";
      if currentStep == 1 {
        if Trim(formData.name) == [] {
          currentValidationError := NameRequired.Message();
          return false;
        }
        if |Digits(formData.phone)| < MinPhoneDigits {
          currentValidationError := PhoneTooShort.Message();
          return false;
        }
        return true;
      } else if currentStep == 2 {
        if Trim(formData.mainComplaint) == [] {
          currentValidationError := ComplaintRequired.Message();
          return false;
        }
        return true;
      } else if currentStep == 3 {
        if formData.bleeding == Blank {
          currentValidationError := BleedingRequired.Message();
          return false;
        }
        if formData.gumRecession == Blank {
          currentValidationError := RecessionRequired.Message();
          return false;
        }
        return true;
      } else if currentStep == 4 {
        return true;
      } else {
        return false;
      }
    }

    /** `handleNext`: moves one step forward when the current step passes;
        otherwise stays and shows that step's message. */
    method Next()
      requires Valid() && step < 4
      modifies this
      ensures Valid()
      ensures formData == old(formData)
      ensures CheckStep(formData, old(step)) == Pass ==>
        step == old(step) + 1 && !validationAttempted && currentValidationError == ""
      ensures CheckStep(formData, old(step)) != Pass ==>
        step == old(step) && validationAttempted &&
        currentValidationError == CheckStep(formData, old(step)).error.Message() &&
        currentValidationError != ""
      ensures CheckStep(formData, old(step)) != Pass ==>
        DisplayedError() == CheckStep(formData, old(step)).error.Message()
      ensures old(EarlierStepsPass()) ==> EarlierStepsPass()
    {
      validationAttempted := true;
      var ok := ValidateStep(step);
      if ok {
        step := step + 1;
        validationAttempted := false;
        currentValidationError := "";
      } else {
        ErrorBelongsToStep(formData, step);
      }
    }

    /** `handleBack`: moves one step back without validating. The stored
        message stays but is no longer shown. */
    method Back()
      requires Valid() && step > 1
      modifies this
      ensures Valid()
      ensures step == old(step) - 1 && !validationAttempted
      ensures formData == old(formData) && currentValidationError == old(currentValidationError)
      ensures DisplayedError() == ""
      ensures old(EarlierStepsPass()) ==> EarlierStepsPass()
    {
      step := step - 1;
      validationAttempted := false;
    }

    /** The gate of `handleSubmit`: validates the current step only and, when
        it passes, yields the message text that is then percent-encoded and
        opened as a WhatsApp link. */
    method Submit() returns (message: Option<string>)
      requires Valid()
      modifies this
      ensures Valid()
      ensures formData == old(formData) && step == old(step) && validationAttempted
      ensures currentValidationError == CheckStep(formData, step).ErrorText()
      ensures message.Some? <==> CheckStep(formData, step) == Pass
      ensures message.Some? ==> message.value == Message(formData)
      ensures step == 4 ==> message == Some(Message(formData))
      ensures old(EarlierStepsPass()) && message.Some? ==> PassedBefore(formData, step + 1)
    {
      validationAttempted := true;
      var ok := ValidateStep(step);
      if !ok {
        return None;
      }
      message := Some(Message(formData));
    }
  }

  /** A message submitted from the last step after the earlier steps passed
      carries a non-blank name, a phone of at least ten digits, a non-blank
      main complaint and both yes/no answers. */
  lemma SubmittedAnswersComplete(d: FormData)
    requires PassedBefore(d, 4)
    ensures !AllWhitespace(d.name) && |Digits(d.phone)| >= MinPhoneDigits
    ensures !AllWhitespace(d.mainComplaint)
    ensures d.bleeding.Text() != "" && d.gumRecession.Text() != ""
  {
    assert CheckStep(d, 1) == Pass && CheckStep(d, 2) == Pass && CheckStep(d, 3) == Pass;
    StepOnePasses(d);
    StepTwo(d);
  }

  /** The answers a complete intake leaves in the record. */
  function Completed(name: string, phone: string, complaint: string): FormData {
    InitialForm().(name := name, phone := phone, mainComplaint := complaint, bleeding := Sim, gumRecession := Nao)
  }

  /** The first screen: a name and an eleven-digit number typed bare, then
      "next". */
  method FillPersonal(form: PreAssessment, name: string, area: string, first: string, last: string)
    requires form.Valid() && form.step == 1 && form.formData == InitialForm()
    requires !AllWhitespace(name)
    requires AllDigits(area) && AllDigits(first) && AllDigits(last)
    requires |area| == 2 && |first| == 5 && |last| == 4
    modifies form
    ensures form.Valid() && form.step == 2
    ensures form.formData == InitialForm().(name := name, phone := "(" + area + ") " + first + "-" + last)
  {
    var typed := area + first + last;
    form.InputChange(Name, name);
    form.InputChange(Phone, typed);
    FormatGroups(area, first, last);
    assert form.formData == InitialForm().(name := name, phone := "(" + area + ") " + first + "-" + last);
    assert CheckStep(form.formData, 1) == Pass by {
      assert AllDigits(typed);
      DigitsOfDigits(typed);
      FormattedDigitCount(typed);
      StepOnePasses(form.formData);
    }
    form.Next();
  }

  /** The second screen: a main complaint, then "next". */
  method FillSymptoms(form: PreAssessment, complaint: string)
    requires form.Valid() && form.step == 2
    requires !AllWhitespace(complaint)
    modifies form
    ensures form.Valid() && form.step == 3
    ensures form.formData == old(form.formData).(mainComplaint := complaint)
  {
    ghost var before := form.formData;
    form.InputChange(MainComplaint, complaint);
    assert form.formData == before.(mainComplaint := complaint);
    assert CheckStep(form.formData, 2) == Pass by {
      StepTwo(form.formData);
    }
    form.Next();
  }

  /** The third screen: "sim" for bleeding, "nao" for gum recession, then
      "next". */
  method FillOralHealth(form: PreAssessment)
    requires form.Valid() && form.step == 3
    modifies form
    ensures form.Valid() && form.step == 4
    ensures form.formData == old(form.formData).(bleeding := Sim, gumRecession := Nao)
  {
    form.RadioChange(Bleeding, Sim);
    form.RadioChange(GumRecession, Nao);
    form.Next();
  }

  /** An applicant who types a name, an eleven-digit number, a main
      complaint and both yes/no answers, pressing "next" after each screen,
      reaches the last step and sends the message of exactly those answers,
      with the number in its formatted form. */
  method CompleteIntake(name: string, area: string, first: string, last: string, complaint: string)
    returns (sent: Option<string>)
    requires !AllWhitespace(name) && !AllWhitespace(complaint)
    requires AllDigits(area) && AllDigits(first) && AllDigits(last)
    requires |area| == 2 && |first| == 5 && |last| == 4
    ensures sent == Some(Message(Completed(name, "(" + area + ") " + first + "-" + last, complaint)))
  {
    var form := new PreAssessment();
    FillPersonal(form, name, area, first, last);
    FillSymptoms(form, complaint);
    FillOralHealth(form);
    sent := form.Submit();
  }

  /** With a name given but fewer than ten digits typed, "next" keeps the
      form on step 1 and shows the phone message. */
  method ShortPhoneStays(name: string, phone: string) returns (step: int, shown: string)
    requires !AllWhitespace(name) && |Digits(phone)| < MinPhoneDigits
    ensures step == 1 && shown == PhoneTooShort.Message()
  {
    var form := new PreAssessment();
    form.InputChange(Name, name);
    form.InputChange(Phone, phone);
    FormattedDigitCount(phone);
    PhoneCheckedSecond(form.formData);
    form.Next();
    step, shown := form.step, form.DisplayedError();
  }
}
