/** The form screen (`AppContent`): five text fields, the "Zapisz" handler
    that validates them and writes the record into the `ListaLudzi` store,
    and the two navigation buttons gated by the session flag `isDataSaved`. */
module Ekran1 {
  import opened Wrappers
  import opened KotlinInt
  import opened SharedPrefs

  /** The five text fields of the form, exactly as typed. */
  datatype Form = Form(name: string, surname: string, age: string, height: string, weight: string)

  datatype ValidationError = EmptyName | EmptySurname | InvalidAge | InvalidHeight | InvalidWeight

  /** The age field parses as a Kotlin `Int` in (0, 130]. */
  predicate AgeAccepted(s: string)
  {
    ToIntOrNull(s).Some? && 0 < ToIntOrNull(s).value <= 130
  }

  /** The height field parses as a Kotlin `Int` in 50..250. */
  predicate HeightAccepted(s: string)
  {
    ToIntOrNull(s).Some? && 50 <= ToIntOrNull(s).value <= 250
  }

  /** The weight field parses as a Kotlin `Int` in 3..200. */
  predicate WeightAccepted(s: string)
  {
    ToIntOrNull(s).Some? && 3 <= ToIntOrNull(s).value <= 200
  }

  /** The `when` of the "Zapisz" handler: the first failing check wins;
      when none fails, the record holds the entered strings and the parsed
      numbers. */
  function Validate(f: Form): (r: Result<Person, ValidationError>)
    ensures r.Ok? ==> ValidPerson(r.value)
    ensures r.Ok? ==> r.value.name == f.name && r.value.surname == f.surname
    ensures r.Ok? ==> Some(r.value.age) == ToIntOrNull(f.age) && Some(r.value.height) == ToIntOrNull(f.height)
                      && Some(r.value.weight) == ToIntOrNull(f.weight)
  {
    var ageInt := ToIntOrNull(f.age);
    var heightInt := ToIntOrNull(f.height);
    var weightInt := ToIntOrNull(f.weight);
    if f.name == "" then Err(EmptyName)
    else if f.surname == "" then Err(EmptySurname)
    else if ageInt.None? || ageInt.value <= 0 || ageInt.value > 130 then Err(InvalidAge)
    else if heightInt.None? || !(50 <= heightInt.value <= 250) then Err(InvalidHeight)
    else if weightInt.None? || !(3 <= weightInt.value <= 200) then Err(InvalidWeight)
    else Ok(Person(f.name, f.surname, ageInt.value, heightInt.value, weightInt.value))
  }

  /** The position of each check in the order the handler tests them. */
  function Rank(e: ValidationError): (k: nat)
    ensures k < 5
  {
    match e
    case EmptyName => 0
    case EmptySurname => 1
    case InvalidAge => 2
    case InvalidHeight => 3
    case InvalidWeight => 4
  }

  /** Check number `k` of the handler, taken on its own. */
  predicate RulePasses(f: Form, k: nat)
  {
    if k == 0 then f.name != ""
    else if k == 1 then f.surname != ""
    else if k == 2 then AgeAccepted(f.age)
    else if k == 3 then HeightAccepted(f.height)
    else if k == 4 then WeightAccepted(f.weight)
    else true
  }

  /** The error reported is that of the first check that fails: `e` is
      reported exactly when its own check fails and every earlier one passes. */
  lemma ValidateReportsFirstFailure(f: Form, e: ValidationError)
    ensures Validate(f) == Err(e) <==>
              !RulePasses(f, Rank(e)) && forall k: nat :: k < Rank(e) ==> RulePasses(f, k)
  {
    EarlierChecksPass(f, Rank(e));
  }

  /** The checks before position `n`, spelt out one by one. */
  lemma EarlierChecksPass(f: Form, n: nat)
    requires n < 5
    ensures (forall k: nat :: k < n ==> RulePasses(f, k)) <==>
              (n > 0 ==> RulePasses(f, 0)) && (n > 1 ==> RulePasses(f, 1)) &&
              (n > 2 ==> RulePasses(f, 2)) && (n > 3 ==> RulePasses(f, 3))
  {
  }

  /** The record is saved exactly when all five checks pass. */
  lemma ValidateAcceptsIffAllPass(f: Form)
    ensures Validate(f).Ok? <==> forall k: nat :: k < 5 ==> RulePasses(f, k)
  {
    if forall k: nat :: k < 5 ==> RulePasses(f, k) {
      assert RulePasses(f, 0) && RulePasses(f, 1) && RulePasses(f, 2) && RulePasses(f, 3) && RulePasses(f, 4);
    }
  }

  /** A valid record typed in with `Int.toString` spellings is accepted and
      saved unchanged. */
  lemma ValidateAcceptsPrintedRecord(p: Person)
    requires ValidPerson(p)
    ensures Validate(Form(p.name, p.surname, IntToString(p.age), IntToString(p.height), IntToString(p.weight))) == Ok(p)
  {
    ToIntOrNullInvertsToString(p.age);
    ToIntOrNullInvertsToString(p.height);
    ToIntOrNullInvertsToString(p.weight);
  }

  datatype FieldId = NameField | SurnameField | AgeField | HeightField | WeightField

  /** The text of one field of the form. */
  function Field(f: Form, id: FieldId): string
  {
    match id
    case NameField => f.name
    case SurnameField => f.surname
    case AgeField => f.age
    case HeightField => f.height
    case WeightField => f.weight
  }

  /** The `enabled` condition of both navigation buttons: no field is empty. */
  predicate Filled(f: Form)
    ensures Filled(f) <==> forall id: FieldId :: Field(f, id) != ""
  {
    EveryField(f);
    f.name != "" && f.surname != "" && f.age != "" && f.height != "" && f.weight != ""
  }

  /** A property of every field is a property of the five named ones. */
  lemma EveryField(f: Form)
    ensures (forall id: FieldId :: Field(f, id) != "") <==>
              f.name != "" && f.surname != "" && f.age != "" && f.height != "" && f.weight != ""
  {
    if f.name != "" && f.surname != "" && f.age != "" && f.height != "" && f.weight != "" {
      forall id: FieldId ensures Field(f, id) != "" {
        match id
        case NameField =>
        case SurnameField =>
        case AgeField =>
        case HeightField =>
        case WeightField =>
      }
    } else {
      assert Field(f, NameField) == "" || Field(f, SurnameField) == "" || Field(f, AgeField) == ""
          || Field(f, HeightField) == "" || Field(f, WeightField) == "";
    }
  }

  /** Every form that validates enables the buttons; the converse fails,
      since `enabled` checks only that the fields are non-empty. */
  lemma EnabledIsWeakerThanValid(f: Form)
    ensures Validate(f).Ok? ==> Filled(f)
    ensures Filled(Form("a", "b", "x", "1", "1")) && Validate(Form("a", "b", "x", "1", "1")) == Err(InvalidAge)
  {
    assert ToIntOrNull("x") == None;
  }

  const SavedToast := "Dane zapisane"
  const SaveFirstToast := "Najpierw zapisz dane"

  /** The toast shown for each failed check. */
  function ErrorToast(e: ValidationError): string
  {
    match e
    case EmptyName => "Imie nie może być puste"
    case EmptySurname => "Nazwisko nie może być puste"
    case InvalidAge => "Wiek musi być w przedziale (0,130]"
    case InvalidHeight => "Wzrost musi być w przedziale [50, 250]"
    case InvalidWeight => "Waga musi być w przedziale [3, 200]"
  }

  /** Each check has its own toast, and none reads like the success or the
      save-first toast. */
  lemma ErrorToastsDistinct(e: ValidationError)
    ensures ErrorToast(e) == "Imie nie może być puste" <==> e == EmptyName
    ensures ErrorToast(e) == "Nazwisko nie może być puste" <==> e == EmptySurname
    ensures ErrorToast(e) == "Wiek musi być w przedziale (0,130]" <==> e == InvalidAge
    ensures ErrorToast(e) == "Wzrost musi być w przedziale [50, 250]" <==> e == InvalidHeight
    ensures ErrorToast(e) == "Waga musi być w przedziale [3, 200]" <==> e == InvalidWeight
    ensures ErrorToast(e) != SavedToast && ErrorToast(e) != SaveFirstToast
  {
  }

  /** The two buttons beside "Zapisz": "Dane" (profile) and "BMI". */
  datatype Destination = Heart | Star

  /** The first segment of each button's route. */
  function ScreenName(d: Destination): string
  {
    if d == Heart then "heartScreen" else "starScreen"
  }

  /** The route the button navigates to, built from the current fields: the
      screen, then the name, then the surname, separated by '/'. */
  function Route(d: Destination, name: string, surname: string): (r: string)
    ensures |r| == |ScreenName(d)| + |name| + |surname| + 2
    ensures r[..|ScreenName(d)|] == ScreenName(d) && r[|ScreenName(d)|] == '/'
    ensures r[|ScreenName(d)| + 1..|ScreenName(d)| + 1 + |name|] == name
    ensures r[|ScreenName(d)| + 1 + |name|] == '/' && r[|ScreenName(d)| + 2 + |name|..] == surname
  {
    ScreenName(d) + "/" + name + "/" + surname
  }

  predicate NoSlash(s: string) { forall i | 0 <= i < |s| :: s[i] != '/' }

  /** When neither name holds a '/', the route string determines the name and
      surname it was built from. */
  lemma RouteDeterminesArguments(d: Destination, n1: string, s1: string, n2: string, s2: string)
    requires NoSlash(n1) && NoSlash(n2)
    requires Route(d, n1, s1) == Route(d, n2, s2)
    ensures n1 == n2 && s1 == s2
  {
  }

  /** What a click on a navigation button does. */
  datatype Click = Disabled | Navigate(route: string) | Toast(message: string)

  /** The gender radio buttons: local UI state that is never saved. */
  datatype GenderChoice = Male | Female | Other

  /** The form after one field callback: that field holds `value`, the
      others are unchanged. */
  function WithField(f: Form, id: FieldId, value: string): (g: Form)
    ensures Field(g, id) == value
    ensures forall other: FieldId :: other != id ==> Field(g, other) == Field(f, other)
  {
    match id
    case NameField => f.(name := value)
    case SurnameField => f.(surname := value)
    case AgeField => f.(age := value)
    case HeightField => f.(height := value)
    case WeightField => f.(weight := value)
  }

  /** The remembered state of the form screen together with the store it
      writes. */
  class AppContent {
    var name: string
    var surname: string
    var age: string
    var height: string
    var weight: string
    var isDataSaved: bool
    var selectedGender: GenderChoice
    var prefs: Prefs

    /** The store is well typed, and once the session has saved, the store
        holds a validated record. */
    ghost predicate Valid()
      reads this
    {
      WellTyped(prefs) && (isDataSaved ==> HoldsValidRecord(prefs))
    }

    function Fields(): Form
      reads this
    {
      Form(name, surname, age, height, weight)
    }

    /** A fresh form over whatever the store already holds. */
    constructor (stored: Prefs)
      requires WellTyped(stored)
      ensures Valid()
      ensures Fields() == Form("", "", "", "", "") && !isDataSaved
      ensures prefs == stored && selectedGender == Male
    {
      name, surname, age, height, weight := "", "", "", "", "";
      isDataSaved := false;
      selectedGender := Male;
      prefs := stored;
    }

    /** `onNameChange` and the other four field callbacks: only that field
        changes, and a save already made stays in force. */
    method Edit(id: FieldId, value: string)
      requires Valid()
      modifies this
      ensures Valid()
      ensures Fields() == WithField(old(Fields()), id, value)
      ensures isDataSaved == old(isDataSaved) && prefs == old(prefs) && selectedGender == old(selectedGender)
    {
      match id
      case NameField => name := value;
      case SurnameField => surname := value;
      case AgeField => age := value;
      case HeightField => height := value;
      case WeightField => weight := value;
    }

    /** A radio button click: neither the store nor the session flag changes. */
    method SelectGender(g: GenderChoice)
      requires Valid()
      modifies this
      ensures Valid()
      ensures selectedGender == g
      ensures Fields() == old(Fields()) && isDataSaved == old(isDataSaved) && prefs == old(prefs)
    {
      selectedGender := g;
    }

    /** The "Zapisz" handler. On success the five keys are overwritten with
        the record and the session flag is set; on failure nothing but the
        toast happens. */
    method Save() returns (toast: string)
      requires Valid()
      modifies this
      ensures Valid()
      ensures Fields() == old(Fields()) && selectedGender == old(selectedGender)
      ensures old(isDataSaved) ==> isDataSaved
      ensures match Validate(old(Fields()))
        case Ok(p) => prefs == PutPerson(old(prefs), p) && isDataSaved && toast == SavedToast
        case Err(e) => prefs == old(prefs) && isDataSaved == old(isDataSaved) && toast == ErrorToast(e)
    {
      var ageInt := ToIntOrNull(age);
      var heightInt := ToIntOrNull(height);
      var weightInt := ToIntOrNull(weight);
      if name == "" {
        toast := ErrorToast(EmptyName);
      } else if surname == "" {
        toast := ErrorToast(EmptySurname);
      } else if ageInt.None? || ageInt.value <= 0 || ageInt.value > 130 {
        toast := ErrorToast(InvalidAge);
      } else if heightInt.None? || !(50 <= heightInt.value <= 250) {
        toast := ErrorToast(InvalidHeight);
      } else if weightInt.None? || !(3 <= weightInt.value <= 200) {
        toast := ErrorToast(InvalidWeight);
      } else {
        var p := Person(name, surname, ageInt.value, heightInt.value, weightInt.value);
        PutPersonKeepsWellTyped(prefs, p);
        prefs := PutPerson(prefs, p);
        toast := SavedToast;
        isDataSaved := true;
      }
    }

    /** The `enabled` flag of both navigation buttons. */
    predicate NavEnabled()
      reads this
    {
      Filled(Fields())
    }

    /** A click on "Dane" or "BMI": a disabled button does nothing; an enabled
        one navigates to the route built from the current fields exactly when
        the session has saved, and otherwise asks for a save. */
    method Click(d: Destination) returns (c: Click)
      requires Valid()
      ensures c.Disabled? <==> !NavEnabled()
      ensures c.Navigate? <==> NavEnabled() && isDataSaved
      ensures c.Navigate? ==> c.route == Route(d, name, surname) && HoldsValidRecord(prefs)
      ensures c.Toast? ==> c.message == SaveFirstToast
    {
      if !NavEnabled() {
        c := Disabled;
      } else if isDataSaved {
        c := Navigate(Route(d, name, surname));
      } else {
        c := Toast(SaveFirstToast);
      }
    }
  }
}
