/** The profile screen (`DaneScreen`): the stored record read back with
    defaults, the gender looked up for the route's name, and the choice
    between spinner, error text and profile card. */
module Ekran2 {
  import opened Wrappers
  import opened KotlinInt
  import opened SharedPrefs

  /** `translateGender`: the service's gender string, or null, to the Polish
      word shown on the card. */
  function TranslateGender(gender: Option<string>): (r: string)
    ensures r == "mężczyzna" <==> gender == Some("male")
    ensures r == "kobieta" <==> gender == Some("female")
    ensures r == "inna" <==> gender != Some("male") && gender != Some("female")
  {
    match gender
    case Some("male") => "mężczyzna"
    case Some("female") => "kobieta"
    case _ => "inna"
  }

  /** The five values the screen reads from the store when it is composed. */
  datatype Profile = Profile(imie: string, nazwisko: string, wiek: int, wzrost: int, waga: int)

  /** Each value is the stored one when its key is present, and the default
      ("Brak danych" or -1) when it is missing. */
  function ReadProfile(m: Prefs): (p: Profile)
    requires WellTyped(m)
    ensures KeyName in m ==> StrVal(p.imie) == m[KeyName]
    ensures KeySurname in m ==> StrVal(p.nazwisko) == m[KeySurname]
    ensures KeyAge in m ==> IntVal(p.wiek) == m[KeyAge]
    ensures KeyHeight in m ==> IntVal(p.wzrost) == m[KeyHeight]
    ensures KeyWeight in m ==> IntVal(p.waga) == m[KeyWeight]
    ensures KeyName !in m ==> p.imie == NoData
    ensures KeySurname !in m ==> p.nazwisko == NoData
    ensures KeyAge !in m ==> p.wiek == NoNumber
    ensures KeyHeight !in m ==> p.wzrost == NoNumber
    ensures KeyWeight !in m ==> p.waga == NoNumber
  {
    Profile(GetString(m, KeyName, NoData), GetString(m, KeySurname, NoData),
            GetInt(m, KeyAge, NoNumber), GetInt(m, KeyHeight, NoNumber), GetInt(m, KeyWeight, NoNumber))
  }

  /** A store that was never written reads as "no data" everywhere. */
  lemma ReadEmptyStore()
    ensures ReadProfile(map[]) == Profile(NoData, NoData, NoNumber, NoNumber, NoNumber)
  {
  }

  /** What the form saved is what the profile screen reads back. */
  lemma ReadAfterSave(m: Prefs, p: Person)
    requires WellTyped(m)
    ensures WellTyped(PutPerson(m, p))
    ensures ReadProfile(PutPerson(m, p)) == Profile(p.name, p.surname, p.age, p.height, p.weight)
  {
    PutPersonKeepsWellTyped(m, p);
  }

  /** How a stored number appears on the card: `-1` means "no data", any
      other value is printed and reads back as itself. */
  function ShowNumber(v: int): (r: string)
    ensures r == NoData <==> v == NoNumber
    ensures v != NoNumber ==> Canonical(r)
    ensures v != NoNumber && IsInt32(v) ==> ToIntOrNull(r) == Some(v)
  {
    if v != NoNumber then
      var s := IntToString(v);
      assert s[0] != NoData[0];
      assert IsInt32(v) ==> ToIntOrNull(s) == Some(v) by {
        if IsInt32(v) { ToIntOrNullInvertsToString(v); }
      }
      s
    else NoData
  }

  /** The remembered state of the lookup: `gender`, `isLoading`, `errorMessage`. */
  datatype FetchState = FetchState(gender: Option<string>, isLoading: bool, errorMessage: Option<string>)

  /** The state the screen starts in. */
  const Loading := FetchState(None, true, None)

  /** How the lookup settles: an HTTP response with its status code and the
      `gender` of its body (`None` when the body or its gender is null), or an
      exception with its possibly null message. */
  datatype FetchOutcome = Responded(code: int, bodyGender: Option<string>) | Thrown(message: Option<string>)

  /** Retrofit's `isSuccessful`: a status code in the 2xx class. */
  predicate IsSuccessful(code: int)
    ensures IsSuccessful(code) <==> code / 100 == 2
  {
    200 <= code < 300
  }

  const FetchFailed := "Failed to fetch gender"

  /** The text of `"Error: ${e.message}"`, where a null message prints as "null". */
  function ErrorText(message: Option<string>): (r: string)
    ensures |r| >= 7 && r[..7] == "Error: "
    ensures message.Some? ==> r[7..] == message.value
    ensures message.None? ==> r == "Error: null"
    ensures r != FetchFailed
  {
    assert FetchFailed[0] == 'F';
    "Error: " + (if message.Some? then message.value else "null")
  }

  /** The try/catch/finally of the launched coroutine, as a function of the
      state before it settles. */
  function Settled(s: FetchState, o: FetchOutcome): (t: FetchState)
    ensures !t.isLoading
  {
    match o
    case Responded(code, g) =>
      if IsSuccessful(code) then s.(gender := Some(TranslateGender(g)), isLoading := false)
      else s.(errorMessage := Some(FetchFailed), isLoading := false)
    case Thrown(m) => s.(errorMessage := Some(ErrorText(m)), isLoading := false)
  }

  /** The three words `translateGender` can produce. */
  predicate IsTranslation(word: string)
  {
    word == "mężczyzna" || word == "kobieta" || word == "inna"
  }

  /** Once loading is over, either a gender or an error has been recorded, and
      a recorded gender is always a translation. */
  predicate Settles(s: FetchState)
  {
    (!s.isLoading ==> s.gender.Some? || s.errorMessage.Some?) &&
    (s.gender.Some? ==> IsTranslation(s.gender.value))
  }

  lemma SettledKeepsSettles(s: FetchState, o: FetchOutcome)
    ensures Settles(Loading)
    ensures Settles(s) ==> Settles(Settled(s, o))
  {
  }

  /** What the screen's column shows. */
  datatype View = Spinner | ErrorView(text: string) | Card(lines: seq<string>)

  const UnknownGender := "Nieznana"

  /** The six lines of the profile card: the stored names as they are, the
      numbers with -1 shown as "Brak danych", and the gender with the
      "Nieznana" fallback for null. */
  function CardLines(p: Profile, gender: Option<string>): (lines: seq<string>)
    ensures |lines| == 6
    ensures lines[0] == "Imię: " + p.imie && lines[1] == "Nazwisko: " + p.nazwisko
    ensures lines[2] == "Wiek: " + ShowNumber(p.wiek) && lines[3] == "Wzrost: " + ShowNumber(p.wzrost)
    ensures lines[4] == "Waga: " + ShowNumber(p.waga)
    ensures lines[2] == "Wiek: " + NoData <==> p.wiek == NoNumber
    ensures lines[3] == "Wzrost: " + NoData <==> p.wzrost == NoNumber
    ensures lines[4] == "Waga: " + NoData <==> p.waga == NoNumber
    ensures gender.Some? ==> lines[5] == "Płeć: " + gender.value
    ensures gender.None? ==> lines[5] == "Płeć: " + UnknownGender
  {
    PrefixCancels("Wiek: ", ShowNumber(p.wiek), NoData);
    PrefixCancels("Wzrost: ", ShowNumber(p.wzrost), NoData);
    PrefixCancels("Waga: ", ShowNumber(p.waga), NoData);
    ["Imię: " + p.imie, "Nazwisko: " + p.nazwisko,
     "Wiek: " + ShowNumber(p.wiek), "Wzrost: " + ShowNumber(p.wzrost), "Waga: " + ShowNumber(p.waga),
     "Płeć: " + (if gender.Some? then gender.value else UnknownGender)]
  }

  /** Two texts behind the same label are equal only if the texts are. */
  lemma PrefixCancels(tag: string, x: string, y: string)
    ensures tag + x == tag + y <==> x == y
  {
    if tag + x == tag + y {
      assert x == (tag + x)[|tag|..];
      assert y == (tag + y)[|tag|..];
    }
  }

  /** Rendering priority: loading first, then a recorded error, then the card. */
  function Render(s: FetchState, p: Profile): (v: View)
    ensures v.Spinner? <==> s.isLoading
    ensures v.ErrorView? <==> !s.isLoading && s.errorMessage.Some?
    ensures v.ErrorView? ==> v.text == s.errorMessage.value
    ensures v.Card? <==> !s.isLoading && s.errorMessage.None?
    ensures v.Card? ==> v.lines == CardLines(p, s.gender)
  {
    if s.isLoading then Spinner
    else if s.errorMessage.Some? then ErrorView(s.errorMessage.value)
    else Card(CardLines(p, s.gender))
  }

  /** From the initial state, one settle shows the card with the translated
      gender after a 2xx response, "Failed to fetch gender" after any other
      response, and "Error: <message>" after an exception. */
  lemma RenderAfterFirstSettle(o: FetchOutcome, p: Profile)
    ensures Render(Loading, p) == Spinner
    ensures Render(Settled(Loading, o), p) ==
      match o
      case Responded(code, g) =>
        if IsSuccessful(code) then Card(CardLines(p, Some(TranslateGender(g)))) else ErrorView(FetchFailed)
      case Thrown(m) => ErrorView(ErrorText(m))
  {
  }

  /** Whenever the card is shown its gender line holds a translation, never
      the "Nieznana" fallback. */
  lemma CardNeverShowsUnknownGender(s: FetchState, p: Profile)
    requires Settles(s)
    ensures Render(s, p).Card? ==> s.gender.Some? && Render(s, p).lines[5] == "Płeć: " + s.gender.value
    ensures Render(s, p).Card? ==> Render(s, p).lines[5] != "Płeć: " + UnknownGender
  {
  }

  /** The screen for route `heartScreen/{name}/{surname}`: the lookup is keyed
      by the route's `name`; the card shows what the store holds. */
  class DaneScreen {
    const name: string
    const surname: string
    const profile: Profile
    var gender: Option<string>
    var isLoading: bool
    var errorMessage: Option<string>

    function State(): FetchState
      reads this
    {
      FetchState(gender, isLoading, errorMessage)
    }

    /** The lookup state keeps `Settles`. */
    ghost predicate Valid()
      reads this
    {
      Settles(State())
    }

    /** Composition: the store is read and the lookup is in flight. */
    constructor (name: string, surname: string, prefs: Prefs)
      requires WellTyped(prefs)
      ensures this.name == name && this.surname == surname
      ensures profile == ReadProfile(prefs)
      ensures Valid() && State() == Loading
    {
      this.name := name;
      this.surname := surname;
      profile := ReadProfile(prefs);
      gender, isLoading, errorMessage := None, true, None;
    }

    /** The coroutine body: the service is asked about the route's `name`,
        and its answer settles the state. */
    method Settle(lookup: string -> FetchOutcome)
      requires Valid()
      modifies this
      ensures Valid()
      ensures State() == Settled(old(State()), lookup(name))
    {
      var o := lookup(name);
      match o {
        case Responded(code, g) =>
          if IsSuccessful(code) {
            gender := Some(TranslateGender(g));
          } else {
            errorMessage := Some(FetchFailed);
          }
        case Thrown(m) =>
          errorMessage := Some(ErrorText(m));
      }
      isLoading := false;
      SettledKeepsSettles(old(State()), o);
    }

    /** What the screen shows in its current state, by the priority of
      `Render`: a card only once the lookup has settled without error, and
      then with a translated gender, never "Nieznana". */
    function View(): (v: View)
      reads this
      requires Valid()
      ensures v == Render(State(), profile)
      ensures v.Card? <==> !isLoading && errorMessage.None?
      ensures v.Card? ==> |v.lines| == 6 && gender.Some?
      ensures v.Card? ==> v.lines[5] == "Płeć: " + gender.value && IsTranslation(gender.value)
      ensures v.Card? ==> v.lines[5] != "Płeć: " + UnknownGender
    {
      CardNeverShowsUnknownGender(State(), profile);
      Render(State(), profile)
    }
  }
}
