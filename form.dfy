/** The answers of the pre-assessment (`FormData`), the fixed option lists
    and the pure updates the input handlers apply to the record. */
module Form {

  /** A radio answer: `"" | "sim" | "nao"`. */
  datatype Answer = Blank | Sim | Nao {
    /** The raw string the source stores and later prints. */
    function Text(): (t: string)
      ensures t == [] <==> Blank?
    {
      match this
      case Blank => ""
      case Sim => "sim"
      case Nao => "nao"
    }
  }

  /** The inputs whose `name` attribute routes them through `handleInputChange`. */
  datatype TextField =
    | Name | Email | Phone | Age
    | MainComplaint | PainLevel | PainDuration
    | PreviousTreatments | Medications | AdditionalInfo

  /** The multi-select lists `handleToggle` updates. */
  datatype ListField = ToothRegion | Sensitivity | Habits

  /** The radio groups `handleRadioChange` sets. */
  datatype RadioField = Bleeding | GumRecession

  datatype FormData = FormData(
    name: string,
    email: string,
    phone: string,
    age: string,
    mainComplaint: string,
    painLevel: string,
    painDuration: string,
    toothRegion: seq<string>,
    sensitivity: seq<string>,
    bleeding: Answer,
    gumRecession: Answer,
    previousTreatments: string,
    medications: string,
    habits: seq<string>,
    additionalInfo: string)
  {
    function Text(f: TextField): string {
      match f
      case Name => name
      case Email => email
      case Phone => phone
      case Age => age
      case MainComplaint => mainComplaint
      case PainLevel => painLevel
      case PainDuration => painDuration
      case PreviousTreatments => previousTreatments
      case Medications => medications
      case AdditionalInfo => additionalInfo
    }

    function List(f: ListField): seq<string> {
      match f
      case ToothRegion => toothRegion
      case Sensitivity => sensitivity
      case Habits => habits
    }

    function Radio(f: RadioField): Answer {
      match f
      case Bleeding => bleeding
      case GumRecession => gumRecession
    }

    /** `{ ...prev, [name]: value }` for a text input. */
    function WithText(f: TextField, v: string): (r: FormData)
      ensures r.Text(f) == v
      ensures forall g :: g != f ==> r.Text(g) == Text(g)
      ensures forall g :: r.List(g) == List(g)
      ensures forall g :: r.Radio(g) == Radio(g)
    {
      match f
      case Name => this.(name := v)
      case Email => this.(email := v)
      case Phone => this.(phone := v)
      case Age => this.(age := v)
      case MainComplaint => this.(mainComplaint := v)
      case PainLevel => this.(painLevel := v)
      case PainDuration => this.(painDuration := v)
      case PreviousTreatments => this.(previousTreatments := v)
      case Medications => this.(medications := v)
      case AdditionalInfo => this.(additionalInfo := v)
    }

    /** `{ ...prev, [field]: l }` for a multi-select list. */
    function WithList(f: ListField, l: seq<string>): (r: FormData)
      ensures r.List(f) == l
      ensures forall g :: g != f ==> r.List(g) == List(g)
      ensures forall g :: r.Text(g) == Text(g)
      ensures forall g :: r.Radio(g) == Radio(g)
    {
      match f
      case ToothRegion => this.(toothRegion := l)
      case Sensitivity => this.(sensitivity := l)
      case Habits => this.(habits := l)
    }

    /** `{ ...prev, [field]: value }` for a radio group. */
    function WithRadio(f: RadioField, a: Answer): (r: FormData)
      ensures r.Radio(f) == a
      ensures forall g :: g != f ==> r.Radio(g) == Radio(g)
      ensures forall g :: r.Text(g) == Text(g)
      ensures forall g :: r.List(g) == List(g)
    {
      match f
      case Bleeding => this.(bleeding := a)
      case GumRecession => this.(gumRecession := a)
    }
  }

  /** The record a new session starts with: everything empty, pain level "5". */
  function InitialForm(): (d: FormData)
    ensures forall f :: f != PainLevel ==> d.Text(f) == []
    ensures d.Text(PainLevel) == "5"
    ensures forall g :: d.List(g) == []
    ensures forall g :: d.Radio(g) == Blank
  {
    FormData("", "", "", "", "", "5", "", [], [], Blank, Blank, "", "", [], "")
  }

  datatype ToothArea = ToothArea(id: string, labelText: string)

  /** `toothAreas`, in declaration order. */
  const ToothAreas: seq<ToothArea> := [
    ToothArea("front_top", "Dentes superiores frontais"),
    ToothArea("front_bottom", "Dentes inferiores frontais"),
    ToothArea("molars_top", "Molares superiores"),
    ToothArea("molars_bottom", "Molares inferiores"),
    ToothArea("canines", "Caninos"),
    ToothArea("general", "Dor difusa / difícil de localizar")
  ]

  /** `sensitivityTypes`: the values are the labels. */
  const SensitivityTypes: seq<string> := [
    "Sensibilidade ao gelado",
    "Sensibilidade ao quente",
    "Sensibilidade ao doce",
    "Sensibilidade ao toque/mordida"
  ]

  /** `habitTypes`: the values are the labels. */
  const HabitTypes: seq<string> := [
    "Ranger os dentes (Bruxismo)",
    "Roer unhas",
    "Morder objetos (tampas, canetas)",
    "Respiração bucal",
    "Consumo frequente de bebidas ácidas"
  ]

  /** The values a checkbox of the list can toggle: the region ids, and the
      sensitivity and habit labels themselves. */
  predicate Declared(f: ListField, v: string) {
    match f
    case ToothRegion => exists i :: 0 <= i < |ToothAreas| && ToothAreas[i].id == v
    case Sensitivity => v in SensitivityTypes
    case Habits => v in HabitTypes
  }

  /** Every selected value is one of the declared options. */
  predicate OnlyDeclared(f: ListField, l: seq<string>) {
    forall i :: 0 <= i < |l| ==> Declared(f, l[i])
  }

  /** Toggling a declared option keeps a list of declared options. */
  lemma ToggleKeepsDeclared(f: ListField, l: seq<string>, v: string)
    requires OnlyDeclared(f, l) && Declared(f, v)
    ensures OnlyDeclared(f, Toggled(l, v))
  {
    var r := Toggled(l, v);
    forall i | 0 <= i < |r| ensures Declared(f, r[i]) {
      assert r[i] in r;
      if r[i] != v {
        assert r[i] in l;
      }
    }
  }

  predicate NoDuplicates(l: seq<string>) {
    forall i, j :: 0 <= i < j < |l| ==> l[i] != l[j]
  }

  /** `list.filter((v) => v !== value)`: every occurrence of `v` removed. */
  function RemoveAll(l: seq<string>, v: string): (r: seq<string>)
    ensures |r| <= |l|
    ensures v !in r
    ensures forall w :: w != v ==> (w in r <==> w in l)
  {
    if l == [] then [] else (if l[0] == v then [] else [l[0]]) + RemoveAll(l[1..], v)
  }

  /** The list `handleToggle` stores: `value` appended when absent, every
      occurrence of it removed when present. */
  function Toggled(l: seq<string>, v: string): (r: seq<string>)
    ensures v in r <==> v !in l
    ensures forall w :: w != v ==> (w in r <==> w in l)
  {
    if v in l then RemoveAll(l, v) else l + [v]
  }

  lemma {:induction false} RemoveAllAbsent(l: seq<string>, v: string)
    requires v !in l
    ensures RemoveAll(l, v) == l
  {
    if l != [] {
      RemoveAllAbsent(l[1..], v);
      assert [l[0]] + l[1..] == l;
    }
  }

  lemma {:induction false} RemoveAllAppend(a: seq<string>, b: seq<string>, v: string)
    ensures RemoveAll(a + b, v) == RemoveAll(a, v) + RemoveAll(b, v)
  {
    if a == [] {
      assert a + b == b;
    } else {
      assert (a + b)[1..] == a[1..] + b;
      RemoveAllAppend(a[1..], b, v);
    }
  }

  lemma RemoveAllTwice(l: seq<string>, v: string)
    ensures RemoveAll(RemoveAll(l, v), v) == RemoveAll(l, v)
  {
    RemoveAllAbsent(RemoveAll(l, v), v);
  }

  /** Toggling changes nothing but `v` itself: the other elements keep their
      multiplicity and relative order. */
  lemma ToggleKeepsOthers(l: seq<string>, v: string)
    ensures RemoveAll(Toggled(l, v), v) == RemoveAll(l, v)
  {
    if v in l {
      RemoveAllTwice(l, v);
    } else {
      RemoveAllAppend(l, [v], v);
      assert RemoveAll([v], v) == [];
    }
  }

  /** Toggling an absent value twice restores the list exactly. */
  lemma ToggleTwiceAbsent(l: seq<string>, v: string)
    requires v !in l
    ensures Toggled(Toggled(l, v), v) == l
  {
    RemoveAllAppend(l, [v], v);
    assert RemoveAll([v], v) == [];
    RemoveAllAbsent(l, v);
  }

  /** Toggling a present value twice restores the same elements, but the
      value moves to the end of the list when it was not already last. */
  lemma ToggleTwicePresent(l: seq<string>, v: string)
    requires v in l
    ensures Toggled(Toggled(l, v), v) == RemoveAll(l, v) + [v]
    ensures forall w :: w in Toggled(Toggled(l, v), v) <==> w in l
  {
  }

  /** Moving a selected value to the end is observable: `["a", "b"]` toggled
      twice at `"a"` becomes `["b", "a"]`. */
  lemma ToggleTwiceReorders()
    ensures Toggled(Toggled(["a", "b"], "a"), "a") == ["b", "a"]
  {
    assert RemoveAll(["a", "b"], "a") == ["b"] by {
      assert ["a", "b"][1..] == ["b"];
      assert RemoveAll(["b"], "a") == ["b"];
    }
  }

  lemma {:induction false} RemoveAllNoDuplicates(l: seq<string>, v: string)
    requires NoDuplicates(l)
    ensures NoDuplicates(RemoveAll(l, v))
  {
    if l != [] {
      var t := RemoveAll(l[1..], v);
      RemoveAllNoDuplicates(l[1..], v);
      assert l[0] !in l[1..];
      var r := RemoveAll(l, v);
      assert r == (if l[0] == v then [] else [l[0]]) + t;
      if l[0] != v {
        forall i, j | 0 <= i < j < |r| ensures r[i] != r[j] {
          if i == 0 {
            assert r[j] == t[j - 1];
          } else {
            assert r[i] == t[i - 1] && r[j] == t[j - 1];
          }
        }
      }
    }
  }

  /** A list without duplicates stays without duplicates when toggled. */
  lemma ToggleNoDuplicates(l: seq<string>, v: string)
    requires NoDuplicates(l)
    ensures NoDuplicates(Toggled(l, v))
  {
    if v in l {
      RemoveAllNoDuplicates(l, v);
    } else {
      var r := l + [v];
      forall i, j | 0 <= i < j < |r| ensures r[i] != r[j] {
        if j == |l| {
          assert r[i] == l[i];
        }
      }
    }
  }
}
