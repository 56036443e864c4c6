# Dental pre-assessment form — a Dafny model

This project models the logic of the dental pre-assessment page
(`client/src/pages/PreAssessment.tsx`). An applicant fills in a four-step
form:

1. personal data;
2. symptoms;
3. oral health;
4. history.

The page masks the WhatsApp number as it is typed. It checks each step before
moving on, and at the end sends the answers as a WhatsApp message.

The model covers:

- **`formatPhone`** (`PhoneFormat`): the mask that keeps at most eleven digits
  and lays them out as `(DD) DDDDD-DDDD`.
- **The form record and its updates** (`Form`):
  - `FormData` and the fixed option lists;
  - the record updates that `handleInputChange`, `handleToggle` and
    `handleRadioChange` apply.
- **`validateStep`** (`Validation`): a pure decision from the record and a
  step number to `Pass` or the first failing message of that step.
- **The page state** (`Controller.PreAssessment`): a class with the fields
  `formData`, `step`, `validationAttempted` and `currentValidationError`.
  - Its methods are the handlers `InputChange`, `Toggle`, `RadioChange`,
    `ValidateStep`, `Next` and `Back`, and the validation gate of
    `handleSubmit`.
  - Each handler runs as one atomic update of the state.
- **The message text** (`Serialize`): the text `handleSubmit` builds before
  `encodeURIComponent`. It is stated both as the source's string template and
  as a list of lines. The two are proved equal. When no answer contains a
  line break, splitting the text at line breaks gives the lines back.
- **String primitives** (`Strings`):
  - `replace(/[^\d]/g, "")` (ASCII digits);
  - JavaScript `trim` (the ECMAScript WhiteSpace and LineTerminator code
    points);
  - `Array.prototype.join`;
  - a `split("\n")` used to read the message back.

Behaviour worth knowing:

- **Order of selected options.** The tooth regions, sensitivities and habits
  print in the order they were selected (the list order that `handleToggle`
  keeps). They do not print in the order the options are declared.
- **Toggling twice.** Deselecting and then reselecting a value moves it to
  the end of the list. The list keeps the same elements but can change
  order (`Form.ToggleTwiceReorders`).
- **Yes/no answers.** The answers print raw as `sim` / `nao`.
- **Going back.** `handleBack` clears `validationAttempted` but not
  `currentValidationError`. The stale message is hidden by the render rule
  `validationAttempted ? currentValidationError : ""`.
- **Unknown tooth id.** An id that is not in `toothAreas` has no label.
  `find(...)?.label` gives `undefined`, which `join` renders as an empty
  string (`Serialize.ToothLabelOfUnknown`).

## Model

| member | source | states |
|---|---|---|
| Strings.Digits | client/src/pages/PreAssessment.tsx:58 | the digit filter yields only digits and never more characters than its input |
| Strings.DigitsAppend | client/src/pages/PreAssessment.tsx:58 | filtering distributes over concatenation |
| Strings.DigitsOfDigits | client/src/pages/PreAssessment.tsx:58 | a string of digits is left unchanged by the filter |
| Strings.TrimStart | client/src/pages/PreAssessment.tsx:127 | the result is the suffix left after every leading whitespace character is removed, and it does not start with whitespace |
| Strings.TrimEnd | client/src/pages/PreAssessment.tsx:127 | the result is the prefix left after every trailing whitespace character is removed, and it does not end with whitespace |
| Strings.Trim | client/src/pages/PreAssessment.tsx:127 | `s.trim()` is empty exactly when every character of `s` is whitespace, and otherwise neither starts nor ends with whitespace |
| Strings.JoinSnoc | client/src/pages/PreAssessment.tsx:182 | `join` (`Strings.Join`) keeps array order: one more element appended to a non-empty array adds the separator and that element at the end |
| Strings.SplitJoinLines | client/src/pages/PreAssessment.tsx:190-210 | for at least one line, splitting lines that contain no line breaks, joined with line breaks, gives the same lines back |
| PhoneFormat.FormatPhone | client/src/pages/PreAssessment.tsx:56-66 | an empty input is returned as is; any other input formats to text that starts with `(` |
| PhoneFormat.FormatPhoneDigits | client/src/pages/PreAssessment.tsx:58-65 | the digits of the formatted number are the first min(n, 11) digits of the input, in order |
| PhoneFormat.FormatPhoneLength | client/src/pages/PreAssessment.tsx:61-65 | for a non-empty input, the formatted length is n + 1, n + 3 or min(n, 11) + 4 according to the digit count n (the empty input formats to empty text) |
| PhoneFormat.FormatPhoneTruncates | client/src/pages/PreAssessment.tsx:63-65 | with more than eleven digits, the input formats as its first eleven digits alone |
| PhoneFormat.FormatPhoneIdempotent | client/src/pages/PreAssessment.tsx:56-66 | masking a masked number changes nothing |
| PhoneFormat.FormattedDigitCount | client/src/pages/PreAssessment.tsx:131 | the stored number has at least ten digits exactly when the typed input had |
| PhoneFormat.FormatElevenDigits | client/src/pages/PreAssessment.tsx:63-64 | eleven bare digits fill the whole mask `(DD) DDDDD-DDDD` |
| PhoneFormat.FormatGroups | client/src/pages/PreAssessment.tsx:63-64 | an area code, a five-digit group and a four-digit group typed bare come back punctuated |
| PhoneFormat.FormatPhoneExample | client/src/pages/PreAssessment.tsx:63-64 | `22987654321` formats to `(22) 98765-4321` |
| Form.InitialForm | client/src/pages/PreAssessment.tsx:71-87 | a session starts with every text answer empty except the pain level `"5"`, every list empty and both yes/no answers unanswered |
| Form.Answer.Text | client/src/pages/PreAssessment.tsx:22-23 | the stored string is empty exactly for the unanswered state |
| Form.FormData.WithText | client/src/pages/PreAssessment.tsx:101-103 | the named text field takes the new value and every other field is unchanged |
| Form.FormData.WithList | client/src/pages/PreAssessment.tsx:114 | the named list takes the new value and every other field is unchanged |
| Form.FormData.WithRadio | client/src/pages/PreAssessment.tsx:119 | the named answer takes the new value and every other field is unchanged |
| Form.RemoveAll | client/src/pages/PreAssessment.tsx:114 | `filter` removes every occurrence of the value and keeps membership of all others |
| Form.Toggled | client/src/pages/PreAssessment.tsx:111-115 | after a toggle the value is present exactly when it was absent; other values keep their membership |
| Form.RemoveAllAbsent | client/src/pages/PreAssessment.tsx:114 | filtering out an absent value leaves the list unchanged |
| Form.RemoveAllAppend | client/src/pages/PreAssessment.tsx:114 | filtering distributes over concatenation |
| Form.RemoveAllTwice | client/src/pages/PreAssessment.tsx:114 | filtering twice is filtering once |
| Form.ToggleKeepsOthers | client/src/pages/PreAssessment.tsx:111-115 | a toggle leaves the other elements, their multiplicity and their order unchanged |
| Form.ToggleTwiceAbsent | client/src/pages/PreAssessment.tsx:111-115 | toggling an absent value twice restores the list exactly |
| Form.ToggleTwicePresent | client/src/pages/PreAssessment.tsx:111-115 | toggling a present value twice keeps the same elements and moves the value to the end |
| Form.ToggleTwiceReorders | client/src/pages/PreAssessment.tsx:111-115 | `["a", "b"]` toggled twice at `"a"` becomes `["b", "a"]` |
| Form.RemoveAllNoDuplicates | client/src/pages/PreAssessment.tsx:114 | filtering keeps a list free of duplicates |
| Form.ToggleKeepsDeclared | client/src/pages/PreAssessment.tsx:111-115 | toggling a declared option keeps a list that holds only declared options (region ids, sensitivity labels, habit labels) |
| Form.ToggleNoDuplicates | client/src/pages/PreAssessment.tsx:111-115 | a toggle keeps a list free of duplicates |
| Validation.StepError.Message | client/src/pages/PreAssessment.tsx:128-148 | every message of a known step is non-empty; the unknown-step failure has none |
| Validation.Verdict.ErrorText | client/src/pages/PreAssessment.tsx:124 | a passing step leaves an empty message |
| Validation.CheckStep | client/src/pages/PreAssessment.tsx:123-157 | only the steps 1 to 4 can pass, and a failing step among them always leaves a non-empty message |
| Validation.NameCheckedFirst | client/src/pages/PreAssessment.tsx:127-130 | step 1 fails with the name message exactly when the name is blank, whatever the phone |
| Validation.PhoneCheckedSecond | client/src/pages/PreAssessment.tsx:131-134 | with a name given, step 1 fails with the phone message exactly below ten digits, and passes otherwise |
| Validation.StepOnePasses | client/src/pages/PreAssessment.tsx:126-135 | step 1 passes exactly when the name is not blank and the phone has at least ten digits |
| Validation.StepTwo | client/src/pages/PreAssessment.tsx:136-141 | step 2 either passes or fails with the complaint message, which it does exactly when the complaint is blank |
| Validation.StepThree | client/src/pages/PreAssessment.tsx:142-151 | bleeding is asked before gum recession; step 3 passes exactly when both are answered |
| Validation.OtherSteps | client/src/pages/PreAssessment.tsx:152-155 | step 4 always passes; any other number fails without a message |
| Validation.ErrorBelongsToStep | client/src/pages/PreAssessment.tsx:123-157 | each failure message is raised by exactly one step |
| Validation.StepOfField | client/src/pages/PreAssessment.tsx:228-444 | every text input is rendered on one of the four steps |
| Validation.EditKeepsEarlierChecks | client/src/pages/PreAssessment.tsx:94-105 | editing a text field leaves the checks of the steps before its own step unchanged |
| Validation.ListEditKeepsChecks | client/src/pages/PreAssessment.tsx:107-116 | no step checks the multi-select lists |
| Validation.AnswerKeepsPassing | client/src/pages/PreAssessment.tsx:118-120 | giving a yes/no answer never makes a passing step fail |
| Serialize.FindLabel | client/src/pages/PreAssessment.tsx:182 | `find` gives nothing exactly when no area has the id, and otherwise the label of the first area that has it |
| Serialize.OrElse | client/src/pages/PreAssessment.tsx:194 | the fallback to a placeholder keeps a non-empty answer and prints the placeholder for an empty one |
| Serialize.ToothLabel | client/src/pages/PreAssessment.tsx:182 | a tooth id prints either as nothing or as the label of a declared region with that id |
| Serialize.ToothText | client/src/pages/PreAssessment.tsx:180-183 | no region selected prints `Não informado`; one region prints its label alone |
| Serialize.SensitivityText | client/src/pages/PreAssessment.tsx:185-186 | no sensitivity selected prints `Nenhuma`; one selection prints alone |
| Serialize.HabitText | client/src/pages/PreAssessment.tsx:188 | no habit selected prints `Nenhum`; one selection prints alone |
| Serialize.SensitivityInSelectionOrder | client/src/pages/PreAssessment.tsx:185-186 | once something is selected, selecting one more sensitivity appends it after `, ` at the end of the sensitivity text (the first selection replaces the placeholder) |
| Serialize.HabitInSelectionOrder | client/src/pages/PreAssessment.tsx:188 | once something is selected, selecting one more habit appends it after `, ` at the end of the habit text (the first selection replaces the placeholder) |
| Serialize.EmptyAnswersPrintPlaceholders | client/src/pages/PreAssessment.tsx:190-210 | with every optional answer empty, each of those lines prints its placeholder (`Não informado`, `Nenhuma` or `Nenhum`) |
| Serialize.ToothTextInSelectionOrder | client/src/pages/PreAssessment.tsx:180-183 | once a region is selected, selecting one more appends its label after `, ` at the end of the region text (the first selection replaces the placeholder) |
| Serialize.AreaIdsDistinct | client/src/pages/PreAssessment.tsx:31-38 | the region ids are pairwise distinct |
| Serialize.ToothLabelOfArea | client/src/pages/PreAssessment.tsx:182 | every declared region prints its own label |
| Serialize.ToothLabelOfUnknown | client/src/pages/PreAssessment.tsx:182 | an id with no declared region prints as empty text |
| Serialize.AreaLabelsSingleLine | client/src/pages/PreAssessment.tsx:31-38 | no region label contains a line break |
| Serialize.ToothTextSingleLine | client/src/pages/PreAssessment.tsx:180-183 | the region text never contains a line break |
| Serialize.JoinSingleLine | client/src/pages/PreAssessment.tsx:186-188 | `join` (`Strings.Join`) of items without line breaks, with a separator without line breaks, gives text without line breaks |
| Serialize.MessageIsLines | client/src/pages/PreAssessment.tsx:190-210 | the template (`Serialize.Message`) is the title, a blank line, and then each section's header and `Label: value` lines, with a blank line between sections, joined by line breaks |
| Serialize.LinesSingleLine | client/src/pages/PreAssessment.tsx:190-210 | when no answer contains a line break, neither does any line of the message |
| Serialize.MessageRoundTrip | client/src/pages/PreAssessment.tsx:190-210 | when no answer contains a line break, splitting the message at line breaks gives back exactly its lines, so each label line carries the answer it names |
| Controller.PreAssessment.constructor | client/src/pages/PreAssessment.tsx:71-91 | a session starts on step 1 with the initial record, no attempt and no message |
| Controller.PreAssessment.InputChange | client/src/pages/PreAssessment.tsx:94-105 | stores the value (the phone through the mask), clears the stored message after an attempt so that no message is shown (the rule of line 225); keeps the invariant, and keeps the earlier steps passing when the edited field is on the current screen or a later one (editing an earlier screen can make its step fail) |
| Controller.PreAssessment.Toggle | client/src/pages/PreAssessment.tsx:107-116 | stores the toggled list, leaves the message, keeps every list free of duplicates and made only of declared options, and keeps the earlier steps passing |
| Controller.PreAssessment.RadioChange | client/src/pages/PreAssessment.tsx:118-120 | stores the answer and keeps the earlier steps passing |
| Controller.PreAssessment.ValidateStep | client/src/pages/PreAssessment.tsx:123-157 | returns whether the step passes and leaves exactly that step's message, or nothing, in the error field |
| Controller.PreAssessment.Next | client/src/pages/PreAssessment.tsx:159-166 | advances one step with a cleared attempt when the step passes; otherwise stays, and the message shown under the rule of line 225 is that step's non-empty message |
| Controller.PreAssessment.Back | client/src/pages/PreAssessment.tsx:168-171 | goes back one step without validating; the message is kept but no longer shown |
| Controller.PreAssessment.Submit | client/src/pages/PreAssessment.tsx:174-178 | yields the message text exactly when the current step passes; always does so on step 4 |
| Controller.SubmittedAnswersComplete | client/src/pages/PreAssessment.tsx:159-166 | once steps 1 to 3 have passed, the name and complaint are not blank, the phone has ten digits and both answers are given |
| Controller.FillPersonal | client/src/pages/PreAssessment.tsx:94-105 | a name and eleven bare digits, then "next", reach step 2 with the number stored formatted |
| Controller.FillSymptoms | client/src/pages/PreAssessment.tsx:136-141 | a non-blank complaint, then "next", reaches step 3 |
| Controller.FillOralHealth | client/src/pages/PreAssessment.tsx:142-151 | both answers, then "next", reach step 4 |
| Controller.CompleteIntake | client/src/pages/PreAssessment.tsx:159-210 | a complete intake ends with the message of exactly the typed answers, with the phone formatted |
| Controller.ShortPhoneStays | client/src/pages/PreAssessment.tsx:131-134 | with fewer than ten digits, "next" stays on step 1 and shows the phone message |

## Left out

- Rendering (the JSX of `renderStep` and the page, icons, styling) is not modelled. Only the error-display rule at line 225 is modelled, and the button conditions at lines 473 and 481 become the `step > 1` and `step < 4` preconditions of `Back` and `Next`.
- Opening the WhatsApp link (`window.open`, the fixed `wa.me` number), the `submitted` flag, the three-second `setTimeout` and the navigation through `setLocation` are browser effects. `Submit` stops at the message text.
- Answers that contain line breaks are not covered by `Serialize.MessageRoundTrip`. The main complaint, previous treatments, medications and extras are text areas, so they can hold line breaks. Such an answer spreads over several lines of the message, and a typed line such as `Telefone: 0` cannot be told apart from a label line. The model states the template for every answer (`Serialize.MessageIsLines`), but proves the read-back only for single-line answers.
- `encodeURIComponent` is a percent-encoding of the text. The model states the text before encoding.
- React's asynchronous state updates and batching are not modelled. Each handler is one atomic update, and `validateStep` reads the record the handler sees.
- The pain-level slider (`type="range"`, 0 to 10) stores whatever string the input reports. The model does not restrict `painLevel`.
- Submitting the HTML form by pressing Enter on an earlier step reaches `handleSubmit` without the step-4 button. `Submit` therefore requires only the class invariant and validates only the current step, as the code does. Which keys submit a form is browser behaviour and is not modelled.
- `Controller.PreAssessment.Toggle`: requires a declared option, because the checkboxes only ever pass a region id from `toothAreas` or a label from `sensitivityTypes` or `habitTypes` (lines 288, 335 and 406).
- `Controller.PreAssessment.RadioChange`: requires a non-empty answer, because the radio group only ever reports `sim` or `nao`.
