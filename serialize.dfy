/** The text `handleSubmit` sends: the answers laid out in four sections,
    one `Label: value` line per field, before `encodeURIComponent`. */
module Serialize {
  import opened Strings
  import opened Form

  datatype Option<T> = None | Some(value: T)

  /** `areas.find((t) => t.id === id)?.label`: the label of the first area
      with that id, if any. */
  function FindLabel(areas: seq<ToothArea>, id: string): (r: Option<string>)
    ensures r.None? <==> forall i :: 0 <= i < |areas| ==> areas[i].id != id
    ensures r.Some? ==>
      (exists i :: 0 <= i < |areas| && areas[i].id == id && r.value == areas[i].labelText &&
        (forall j :: 0 <= j < i ==> areas[j].id != id))
  {
    if areas == [] then None
    else if areas[0].id == id then Some(areas[0].labelText)
    else
      var r := FindLabel(areas[1..], id);
      assert forall i :: 1 <= i < |areas| ==> areas[i] == areas[1..][i - 1];
      r
  }

  /** What `join` prints for one tooth id: its label, or nothing when the
      lookup gave `undefined`. */
  function ToothLabel(id: string): (r: string)
    ensures r == [] || exists i :: 0 <= i < |ToothAreas| && ToothAreas[i].id == id && r == ToothAreas[i].labelText
  {
    match FindLabel(ToothAreas, id)
    case None => ""
    case Some(l) => l
  }

  function ToothLabels(ids: seq<string>): (r: seq<string>)
    ensures |r| == |ids|
  {
    seq(|ids|, i requires 0 <= i < |ids| => ToothLabel(ids[i]))
  }

  /** `toothText`: the labels in the order the regions were selected, or the
      placeholder when none is. */
  function ToothText(ids: seq<string>): (r: string)
    ensures ids == [] ==> r == NotGiven
    ensures |ids| == 1 ==> r == ToothLabel(ids[0])
  {
    if |ids| > 0 then Join(ToothLabels(ids), ", ") else "Não informado"
  }

  /** `sensitivityText`: the selections in order, or "Nenhuma". */
  function SensitivityText(l: seq<string>): (r: string)
    ensures l == [] ==> r == "Nenhuma"
    ensures |l| == 1 ==> r == l[0]
  {
    if |l| > 0 then Join(l, ", ") else "Nenhuma"
  }

  /** `habitText`: the selections in order, or "Nenhum". */
  function HabitText(l: seq<string>): (r: string)
    ensures l == [] ==> r == "Nenhum"
    ensures |l| == 1 ==> r == l[0]
  {
    if |l| > 0 then Join(l, ", ") else "Nenhum"
  }

  /** `s || placeholder` on a string. */
  function OrElse(s: string, placeholder: string): (r: string)
    ensures s != [] ==> r == s
    ensures s == [] ==> r == placeholder
  {
    if s != [] then s else placeholder
  }

  /** The placeholder of an optional field left empty. */
  const NotGiven := "Não informado"

  const Title := "*PRÉ-AVALIAÇÃO ODONTOLÓGICA*"

  /** The section of step 1, without its closing line break. */
  function PersonalText(d: FormData): string {
    "*1. Dados Pessoais:*\n" +
    "Nome: " + d.name + "\n" +
    "Email: " + OrElse(d.email, NotGiven) + "\n" +
    "Telefone: " + d.phone + "\n" +
    "Idade: " + OrElse(d.age, NotGiven)
  }

  /** The section of step 2, without its closing line break. */
  function SymptomsText(d: FormData): string {
    "*2. Sintomas:*\n" +
    "Queixa Principal: " + d.mainComplaint + "\n" +
    "Região: " + ToothText(d.toothRegion) + "\n" +
    "Dor: " + d.painLevel + "\n" +
    "Duração: " + OrElse(d.painDuration, NotGiven)
  }

  /** The section of step 3, without its closing line break. */
  function OralHealthText(d: FormData): string {
    "*3. Saúde Bucal:*\n" +
    "Sensibilidade: " + SensitivityText(d.sensitivity) + "\n" +
    "Sangramento: " + d.bleeding.Text() + "\n" +
    "Recessão: " + d.gumRecession.Text()
  }

  /** The section of step 4. */
  function HistoryText(d: FormData): string {
    "*4. Histórico:*\n" +
    "Hábitos: " + HabitText(d.habits) + "\n" +
    "Tratamentos: " + OrElse(d.previousTreatments, "Nenhum") + "\n" +
    "Medicações: " + OrElse(d.medications, "Nenhuma") + "\n" +
    "Extras: " + OrElse(d.additionalInfo, "Nenhuma")
  }

  /** The message text `handleSubmit` builds: the title and the four
      sections, each pair separated by a blank line. */
  function Message(d: FormData): string {
    Title + "\n\n" +
    PersonalText(d) + "\n\n" +
    SymptomsText(d) + "\n\n" +
    OralHealthText(d) + "\n\n" +
    HistoryText(d)
  }

  function PersonalLines(d: FormData): seq<string> {
    [ "*1. Dados Pessoais:*",
      "Nome: " + d.name,
      "Email: " + OrElse(d.email, NotGiven),
      "Telefone: " + d.phone,
      "Idade: " + OrElse(d.age, NotGiven) ]
  }

  function SymptomsLines(d: FormData): seq<string> {
    [ "*2. Sintomas:*",
      "Queixa Principal: " + d.mainComplaint,
      "Região: " + ToothText(d.toothRegion),
      "Dor: " + d.painLevel,
      "Duração: " + OrElse(d.painDuration, NotGiven) ]
  }

  function OralHealthLines(d: FormData): seq<string> {
    [ "*3. Saúde Bucal:*",
      "Sensibilidade: " + SensitivityText(d.sensitivity),
      "Sangramento: " + d.bleeding.Text(),
      "Recessão: " + d.gumRecession.Text() ]
  }

  function HistoryLines(d: FormData): seq<string> {
    [ "*4. Histórico:*",
      "Hábitos: " + HabitText(d.habits),
      "Tratamentos: " + OrElse(d.previousTreatments, "Nenhum"),
      "Medicações: " + OrElse(d.medications, "Nenhuma"),
      "Extras: " + OrElse(d.additionalInfo, "Nenhuma") ]
  }

  /** The lines of the message: the title, then each section's header and
      its `Label: value` lines, with a blank line between sections. */
  function Lines(d: FormData): seq<string> {
    [Title] + [""] + PersonalLines(d) + [""] + SymptomsLines(d) + [""] +
    OralHealthLines(d) + [""] + HistoryLines(d)
  }

  lemma JoinCons(x: string, xs: seq<string>, sep: string)
    requires xs != []
    ensures Join([x] + xs, sep) == x + sep + Join(xs, sep)
  {
    assert ([x] + xs)[1..] == xs;
  }

  lemma JoinFive(a: string, b: string, c: string, e: string, f: string, sep: string)
    ensures Join([a, b, c, e, f], sep) == a + sep + b + sep + c + sep + e + sep + f
  {
    JoinCons(e, [f], sep);
    JoinCons(c, [e, f], sep);
    assert [c] + [e, f] == [c, e, f];
    JoinCons(b, [c, e, f], sep);
    assert [b] + [c, e, f] == [b, c, e, f];
    JoinCons(a, [b, c, e, f], sep);
    assert [a] + [b, c, e, f] == [a, b, c, e, f];
  }

  lemma JoinFour(a: string, b: string, c: string, e: string, sep: string)
    ensures Join([a, b, c, e], sep) == a + sep + b + sep + c + sep + e
  {
    JoinCons(c, [e], sep);
    JoinCons(b, [c, e], sep);
    assert [b] + [c, e] == [b, c, e];
    JoinCons(a, [b, c, e], sep);
    assert [a] + [b, c, e] == [a, b, c, e];
  }

  /** Joining two non-empty lists puts one separator between their joins. */
  lemma {:induction false} JoinAppend(a: seq<string>, b: seq<string>, sep: string)
    requires a != [] && b != []
    ensures Join(a + b, sep) == Join(a, sep) + sep + Join(b, sep)
  {
    if |a| == 1 {
      JoinCons(a[0], b, sep);
      assert [a[0]] + b == a + b;
    } else {
      assert (a + b)[1..] == a[1..] + b;
      JoinAppend(a[1..], b, sep);
    }
  }

  /** A section of four fields joined by line breaks. */
  lemma JoinSection4(h: string, k1: string, v1: string, k2: string, v2: string,
                     k3: string, v3: string, k4: string, v4: string)
    ensures Join([h, k1 + v1, k2 + v2, k3 + v3, k4 + v4], "\n") ==
      h + "\n" + k1 + v1 + "\n" + k2 + v2 + "\n" + k3 + v3 + "\n" + k4 + v4
  {
    JoinFive(h, k1 + v1, k2 + v2, k3 + v3, k4 + v4, "\n");
  }

  /** A section of three fields joined by line breaks. */
  lemma JoinSection3(h: string, k1: string, v1: string, k2: string, v2: string, k3: string, v3: string)
    ensures Join([h, k1 + v1, k2 + v2, k3 + v3], "\n") ==
      h + "\n" + k1 + v1 + "\n" + k2 + v2 + "\n" + k3 + v3
  {
    JoinFour(h, k1 + v1, k2 + v2, k3 + v3, "\n");
  }

  lemma PersonalJoin(d: FormData)
    ensures Join(PersonalLines(d), "\n") == PersonalText(d)
  {
    JoinSection4("*1. Dados Pessoais:*", "Nome: ", d.name, "Email: ", OrElse(d.email, NotGiven),
      "Telefone: ", d.phone, "Idade: ", OrElse(d.age, NotGiven));
    assert "*1. Dados Pessoais:*" + "\n" == "*1. Dados Pessoais:*\n";
  }

  lemma SymptomsJoin(d: FormData)
    ensures Join(SymptomsLines(d), "\n") == SymptomsText(d)
  {
    JoinSection4("*2. Sintomas:*", "Queixa Principal: ", d.mainComplaint, "Região: ", ToothText(d.toothRegion),
      "Dor: ", d.painLevel, "Duração: ", OrElse(d.painDuration, NotGiven));
    assert "*2. Sintomas:*" + "\n" == "*2. Sintomas:*\n";
  }

  lemma OralHealthJoin(d: FormData)
    ensures Join(OralHealthLines(d), "\n") == OralHealthText(d)
  {
    JoinSection3("*3. Saúde Bucal:*", "Sensibilidade: ", SensitivityText(d.sensitivity),
      "Sangramento: ", d.bleeding.Text(), "Recessão: ", d.gumRecession.Text());
    assert "*3. Saúde Bucal:*" + "\n" == "*3. Saúde Bucal:*\n";
  }

  lemma HistoryJoin(d: FormData)
    ensures Join(HistoryLines(d), "\n") == HistoryText(d)
  {
    JoinSection4("*4. Histórico:*", "Hábitos: ", HabitText(d.habits),
      "Tratamentos: ", OrElse(d.previousTreatments, "Nenhum"), "Medicações: ", OrElse(d.medications, "Nenhuma"),
      "Extras: ", OrElse(d.additionalInfo, "Nenhuma"));
    assert "*4. Histórico:*" + "\n" == "*4. Histórico:*\n";
  }

  /** Sections separated by blank lines: joining the lines puts an empty
      line, that is two line breaks, between consecutive sections. */
  lemma JoinWithBlank(a: seq<string>, b: seq<string>)
    requires a != [] && b != []
    ensures Join(a + [""] + b, "\n") == Join(a, "\n") + "\n\n" + Join(b, "\n")
  {
    JoinAppend(a, [""], "\n");
    JoinAppend(a + [""], b, "\n");
  }

  /** The concatenated message is its lines joined by line breaks. */
  lemma MessageIsLines(d: FormData)
    ensures Message(d) == Join(Lines(d), "\n")
  {
    var p, s, o, h := PersonalLines(d), SymptomsLines(d), OralHealthLines(d), HistoryLines(d);
    PersonalJoin(d);
    SymptomsJoin(d);
    OralHealthJoin(d);
    HistoryJoin(d);
    var t := [Title];
    assert Join(t, "\n") == Title;
    JoinWithBlank(t, p);
    JoinWithBlank(t + [""] + p, s);
    JoinWithBlank(t + [""] + p + [""] + s, o);
    JoinWithBlank(t + [""] + p + [""] + s + [""] + o, h);
  }

  /** The labels of the regions are printed in the order the regions were
      selected, not in the order of `toothAreas`: selecting one more region
      appends its label at the end. */
  lemma ToothTextInSelectionOrder(ids: seq<string>, id: string)
    requires ids != []
    ensures ToothText(ids + [id]) == ToothText(ids) + ", " + ToothLabel(id)
  {
    assert ToothLabels(ids + [id]) == ToothLabels(ids) + [ToothLabel(id)];
    JoinSnoc(ToothLabels(ids), ToothLabel(id), ", ");
  }

  /** Selecting one more sensitivity appends it at the end of its text. */
  lemma SensitivityInSelectionOrder(l: seq<string>, x: string)
    requires l != []
    ensures SensitivityText(l + [x]) == SensitivityText(l) + ", " + x
  {
    JoinSnoc(l, x, ", ");
  }

  /** Selecting one more habit appends it at the end of its text. */
  lemma HabitInSelectionOrder(l: seq<string>, x: string)
    requires l != []
    ensures HabitText(l + [x]) == HabitText(l) + ", " + x
  {
    JoinSnoc(l, x, ", ");
  }

  /** The region ids are pairwise distinct. */
  lemma AreaIdsDistinct()
    ensures forall i, j :: 0 <= i < j < |ToothAreas| ==> ToothAreas[i].id != ToothAreas[j].id
  {
  }

  /** Every declared region prints its own label. */
  lemma ToothLabelOfArea(i: nat)
    requires i < |ToothAreas|
    ensures ToothLabel(ToothAreas[i].id) == ToothAreas[i].labelText
  {
    AreaIdsDistinct();
    var r := FindLabel(ToothAreas, ToothAreas[i].id);
    var k :| 0 <= k < |ToothAreas| && ToothAreas[k].id == ToothAreas[i].id && r.value == ToothAreas[k].labelText;
  }

  /** An id that is not a declared region prints as nothing: `find` gives
      `undefined`, which `join` renders as the empty string. */
  lemma ToothLabelOfUnknown(id: string)
    requires forall i :: 0 <= i < |ToothAreas| ==> ToothAreas[i].id != id
    ensures ToothLabel(id) == ""
  {
  }

  /** No answer of the record contains a line break. */
  predicate SingleLineAnswers(d: FormData) {
    NoNewline(d.name) && NoNewline(d.email) && NoNewline(d.phone) && NoNewline(d.age) &&
    NoNewline(d.mainComplaint) && NoNewline(d.painLevel) && NoNewline(d.painDuration) &&
    (forall i :: 0 <= i < |d.sensitivity| ==> NoNewline(d.sensitivity[i])) &&
    NoNewline(d.previousTreatments) && NoNewline(d.medications) &&
    (forall i :: 0 <= i < |d.habits| ==> NoNewline(d.habits[i])) &&
    NoNewline(d.additionalInfo)
  }

  predicate AllSingleLine(ls: seq<string>) {
    forall i :: 0 <= i < |ls| ==> NoNewline(ls[i])
  }

  lemma NoNewlineConcat(a: string, b: string)
    requires NoNewline(a) && NoNewline(b)
    ensures NoNewline(a + b)
  {
  }

  lemma {:induction false} JoinSingleLine(xs: seq<string>, sep: string)
    requires AllSingleLine(xs) && NoNewline(sep)
    ensures NoNewline(Join(xs, sep))
  {
    if |xs| > 1 {
      JoinSingleLine(xs[1..], sep);
      NoNewlineConcat(xs[0], sep);
      NoNewlineConcat(xs[0] + sep, Join(xs[1..], sep));
    }
  }

  // One lemma per declared region: proving the six labels free of line
  // breaks in a single proof context is far more costly than one at a time.
  lemma FrontTopSingleLine() ensures NoNewline(ToothAreas[0].labelText) {}
  lemma FrontBottomSingleLine() ensures NoNewline(ToothAreas[1].labelText) {}
  lemma MolarsTopSingleLine() ensures NoNewline(ToothAreas[2].labelText) {}
  lemma MolarsBottomSingleLine() ensures NoNewline(ToothAreas[3].labelText) {}
  lemma CaninesSingleLine() ensures NoNewline(ToothAreas[4].labelText) {}
  lemma GeneralSingleLine() ensures NoNewline(ToothAreas[5].labelText) {}

  /** No region label contains a line break. */
  lemma AreaLabelsSingleLine()
    ensures forall k :: 0 <= k < |ToothAreas| ==> NoNewline(ToothAreas[k].labelText)
  {
    FrontTopSingleLine();
    FrontBottomSingleLine();
    MolarsTopSingleLine();
    MolarsBottomSingleLine();
    CaninesSingleLine();
    GeneralSingleLine();
    forall k | 0 <= k < |ToothAreas| ensures NoNewline(ToothAreas[k].labelText) {
      assert k == 0 || k == 1 || k == 2 || k == 3 || k == 4 || k == 5;
    }
  }

  lemma ToothTextSingleLine(ids: seq<string>)
    ensures NoNewline(ToothText(ids))
  {
    AreaLabelsSingleLine();
    var labels := ToothLabels(ids);
    forall i | 0 <= i < |labels| ensures NoNewline(labels[i]) {
      var r := FindLabel(ToothAreas, ids[i]);
      if r.Some? {
        var k :| 0 <= k < |ToothAreas| && ToothAreas[k].id == ids[i] && r.value == ToothAreas[k].labelText;
      }
    }
    JoinSingleLine(labels, ", ");
  }

  lemma AllSingleLineWithBlank(a: seq<string>, b: seq<string>)
    requires AllSingleLine(a) && AllSingleLine(b)
    ensures AllSingleLine(a + [""] + b)
  {
    assert AllSingleLine([""]);
  }

  lemma PersonalSingleLine(d: FormData)
    requires SingleLineAnswers(d)
    ensures AllSingleLine(PersonalLines(d))
  {
    NoNewlineConcat("Nome: ", d.name);
    NoNewlineConcat("Email: ", OrElse(d.email, NotGiven));
    NoNewlineConcat("Telefone: ", d.phone);
    NoNewlineConcat("Idade: ", OrElse(d.age, NotGiven));
  }

  lemma RegionLineSingleLine(ids: seq<string>)
    ensures NoNewline("Região: " + ToothText(ids))
  {
    assert NoNewline("Região: ");
    ToothTextSingleLine(ids);
    NoNewlineConcat("Região: ", ToothText(ids));
  }

  lemma SymptomsSingleLine(d: FormData)
    requires SingleLineAnswers(d)
    ensures AllSingleLine(SymptomsLines(d))
  {
    RegionLineSingleLine(d.toothRegion);
    NoNewlineConcat("Queixa Principal: ", d.mainComplaint);
    NoNewlineConcat("Dor: ", d.painLevel);
    NoNewlineConcat("Duração: ", OrElse(d.painDuration, NotGiven));
  }

  lemma OralHealthSingleLine(d: FormData)
    requires SingleLineAnswers(d)
    ensures AllSingleLine(OralHealthLines(d))
  {
    JoinSingleLine(d.sensitivity, ", ");
    NoNewlineConcat("Sensibilidade: ", SensitivityText(d.sensitivity));
    NoNewlineConcat("Sangramento: ", d.bleeding.Text());
    NoNewlineConcat("Recessão: ", d.gumRecession.Text());
  }

  lemma HistorySingleLine(d: FormData)
    requires SingleLineAnswers(d)
    ensures AllSingleLine(HistoryLines(d))
  {
    JoinSingleLine(d.habits, ", ");
    NoNewlineConcat("Hábitos: ", HabitText(d.habits));
    NoNewlineConcat("Tratamentos: ", OrElse(d.previousTreatments, "Nenhum"));
    NoNewlineConcat("Medicações: ", OrElse(d.medications, "Nenhuma"));
    NoNewlineConcat("Extras: ", OrElse(d.additionalInfo, "Nenhuma"));
  }

  lemma TitleSingleLine()
    ensures AllSingleLine([Title])
  {
  }

  lemma LinesSingleLine(d: FormData)
    requires SingleLineAnswers(d)
    ensures AllSingleLine(Lines(d))
  {
    TitleSingleLine();
    PersonalSingleLine(d);
    SymptomsSingleLine(d);
    OralHealthSingleLine(d);
    HistorySingleLine(d);
    var x1 := [Title] + [""] + PersonalLines(d);
    AllSingleLineWithBlank([Title], PersonalLines(d));
    var x2 := x1 + [""] + SymptomsLines(d);
    AllSingleLineWithBlank(x1, SymptomsLines(d));
    var x3 := x2 + [""] + OralHealthLines(d);
    AllSingleLineWithBlank(x2, OralHealthLines(d));
    AllSingleLineWithBlank(x3, HistoryLines(d));
  }

  /** Reading the message back line by line gives exactly its lines, in order,
      so each `Label: value` line carries the answer it names, provided no
      answer itself contains a line break. */
  lemma MessageRoundTrip(d: FormData)
    requires SingleLineAnswers(d)
    ensures SplitLines(Message(d)) == Lines(d)
  {
    MessageIsLines(d);
    LinesSingleLine(d);
    SplitJoinLines(Lines(d));
  }

  /** A message sent with every optional answer left empty prints each
      placeholder: "Não informado" for the email, age, region and duration,
      "Nenhuma" for the sensitivities, medications and extras, and "Nenhum"
      for the habits and treatments. */
  lemma EmptyAnswersPrintPlaceholders(d: FormData)
    requires d.email == [] && d.age == [] && d.toothRegion == [] && d.painDuration == []
    requires d.sensitivity == [] && d.habits == []
    requires d.previousTreatments == [] && d.medications == [] && d.additionalInfo == []
    ensures PersonalLines(d)[2] == "Email: " + NotGiven && PersonalLines(d)[4] == "Idade: " + NotGiven
    ensures SymptomsLines(d)[2] == "Região: " + NotGiven && SymptomsLines(d)[4] == "Duração: " + NotGiven
    ensures OralHealthLines(d)[1] == "Sensibilidade: " + "Nenhuma"
    ensures HistoryLines(d)[1] == "Hábitos: " + "Nenhum"
    ensures HistoryLines(d)[2] == "Tratamentos: " + "Nenhum"
    ensures HistoryLines(d)[3] == "Medicações: " + "Nenhuma" && HistoryLines(d)[4] == "Extras: " + "Nenhuma"
  {
  }
}
