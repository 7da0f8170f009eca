/** The three screens together: what the navigation gate guarantees to the
    two screens it opens. */
module Flow {
  import opened Wrappers
  import opened KotlinInt
  import opened SharedPrefs
  import opened Ekran1
  import opened Ekran2
  import opened Ekran3

  /** Behind the gate the store holds a validated record, so the BMI screen
      never sees the sentinel and its value lies in [0.48, 800]. */
  lemma GatedBmiIsComputed(m: Prefs)
    requires HoldsValidRecord(m)
    ensures StoredBmi(m) != Sentinel
    ensures 0.48 <= StoredBmi(m) <= 800.0
  {
    BmiRangeOfValidatedInputs(m[KeyHeight].i, m[KeyWeight].i);
  }

  /** Behind the gate no number on the profile card reads "Brak danych", and
      each one parses back to the stored value. */
  lemma GatedProfileShowsNumbers(m: Prefs)
    requires HoldsValidRecord(m)
    ensures var p := ReadProfile(m);
      ShowNumber(p.wiek) != NoData && ShowNumber(p.wzrost) != NoData && ShowNumber(p.waga) != NoData &&
      ToIntOrNull(ShowNumber(p.wiek)) == Some(p.wiek) &&
      ToIntOrNull(ShowNumber(p.wzrost)) == Some(p.wzrost) &&
      ToIntOrNull(ShowNumber(p.waga)) == Some(p.waga)
  {
  }

  /** A session that saves, then edits the name: the save stays in force, the
      route carries the edited name, and the stored 170 cm and 72 kg put the
      BMI in the gap between 24.9 and 25. Returning to the form starts a new
      form over the same store, with the flag cleared. */
  method EditAfterSave()
  {
    var form := new AppContent(map[]);
    form.Edit(NameField, "Anna");
    form.Edit(SurnameField, "Nowak");
    form.Edit(AgeField, IntToString(30));
    form.Edit(HeightField, IntToString(170));
    form.Edit(WeightField, IntToString(72));
    var saved := Person("Anna", "Nowak", 30, 170, 72);
    ValidateAcceptsPrintedRecord(saved);
    assert Validate(form.Fields()) == Ok(saved);
    var toast := form.Save();
    assert toast == SavedToast && form.isDataSaved;
    assert form.prefs == PutPerson(map[], saved);

    form.Edit(NameField, "Ewa");
    var click := form.Click(Heart);
    assert click == Navigate(Route(Heart, "Ewa", "Nowak"));

    GapIsReachable();
    assert Classify(StoredBmi(form.prefs)) == CannotCompute;

    // Coming back from either screen composes the form afresh over the same
    // store: the fields are empty, so both buttons are disabled.
    var back := new AppContent(form.prefs);
    assert !back.isDataSaved && back.prefs == form.prefs;
    var again := back.Click(Heart);
    assert again == Disabled;
  }

  /** The profile screen opened by a route whose name differs from the
      saved one: the lookup is asked about the route's name, while the card
      shows the saved name, not the route's. */
  method ProfileAfterRename(saved: Person, routeName: string)
    requires routeName != saved.name
  {
    var prefs := PutPerson(map[], saved);
    ReadAfterSave(map[], saved);
    var screen := new DaneScreen(routeName, saved.surname, prefs);
    assert screen.View() == Spinner;
    var lookup := (n: string) => if n == routeName then Responded(200, Some("female")) else Responded(404, None);
    screen.Settle(lookup);
    assert screen.State() == FetchState(Some("kobieta"), false, None);
    var card := screen.View();
    assert card.lines[0] == "Imię: " + saved.name;
    assert card.lines[0] != "Imię: " + routeName by {
      PrefixCancels("Imię: ", saved.name, routeName);
    }
    assert card.lines[5] == "Płeć: kobieta";
  }
}
