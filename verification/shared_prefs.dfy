/** The `ListaLudzi` SharedPreferences file, seen as an immediately updated
    map from key to a typed value, and the person record that the form writes
    into it and the two other screens read back. */
module SharedPrefs {

  /** The name of the preferences file every screen opens. */
  const Namespace := "ListaLudzi"

  const KeyName := "imie"
  const KeySurname := "nazwisko"
  const KeyAge := "wiek"
  const KeyHeight := "wzrost"
  const KeyWeight := "waga"

  /** What `getString(key, default)` and `getInt(key, default)` return for
      a missing text key and a missing number key. */
  const NoData := "Brak danych"
  const NoNumber: int := -1

  datatype PrefValue = StrVal(s: string) | IntVal(i: int)

  type Prefs = map<string, PrefValue>

  /** The record the form saves: validated name, surname, age, height, weight. */
  datatype Person = Person(name: string, surname: string, age: int, height: int, weight: int)

  /** The ranges the form enforces before it saves a record. */
  predicate ValidPerson(p: Person)
  {
    p.name != "" && p.surname != "" &&
    0 < p.age <= 130 && 50 <= p.height <= 250 && 3 <= p.weight <= 200
  }

  /** Every key the app uses holds a value of the type it is read with, so no
      read throws a ClassCastException. */
  predicate WellTyped(m: Prefs)
  {
    (KeyName in m ==> m[KeyName].StrVal?) &&
    (KeySurname in m ==> m[KeySurname].StrVal?) &&
    (KeyAge in m ==> m[KeyAge].IntVal?) &&
    (KeyHeight in m ==> m[KeyHeight].IntVal?) &&
    (KeyWeight in m ==> m[KeyWeight].IntVal?)
  }

  /** `getString(key, default)`, with the `?: "Brak danych"` fallback. */
  function GetString(m: Prefs, key: string, default: string): (r: string)
    requires key in m ==> m[key].StrVal?
    ensures key !in m ==> r == default
    ensures key in m ==> StrVal(r) == m[key]
  {
    if key in m then m[key].s else default
  }

  /** `getInt(key, default)`. */
  function GetInt(m: Prefs, key: string, default: int): (r: int)
    requires key in m ==> m[key].IntVal?
    ensures key !in m ==> r == default
    ensures key in m ==> IntVal(r) == m[key]
  {
    if key in m then m[key].i else default
  }

  /** The editor batch `putString`/`putInt` x5 followed by `apply()`:
      the five keys are overwritten, every other key is kept. */
  function PutPerson(m: Prefs, p: Person): (m': Prefs)
    ensures m'.Keys == m.Keys + {KeyName, KeySurname, KeyAge, KeyHeight, KeyWeight}
    ensures m'[KeyName] == StrVal(p.name) && m'[KeySurname] == StrVal(p.surname)
    ensures m'[KeyAge] == IntVal(p.age) && m'[KeyHeight] == IntVal(p.height) && m'[KeyWeight] == IntVal(p.weight)
    ensures forall k :: k in m && k !in {KeyName, KeySurname, KeyAge, KeyHeight, KeyWeight} ==> m'[k] == m[k]
  {
    m[KeyName := StrVal(p.name)][KeySurname := StrVal(p.surname)]
     [KeyAge := IntVal(p.age)][KeyHeight := IntVal(p.height)][KeyWeight := IntVal(p.weight)]
  }

  /** The store holds a complete record that passed validation. */
  predicate HoldsValidRecord(m: Prefs)
  {
    WellTyped(m) &&
    KeyName in m && KeySurname in m && KeyAge in m && KeyHeight in m && KeyWeight in m &&
    ValidPerson(Person(m[KeyName].s, m[KeySurname].s, m[KeyAge].i, m[KeyHeight].i, m[KeyWeight].i))
  }

  /** Writing a record keeps the store well typed, and writing a valid one
      leaves a valid record behind. */
  lemma PutPersonKeepsWellTyped(m: Prefs, p: Person)
    requires WellTyped(m)
    ensures WellTyped(PutPerson(m, p))
    ensures ValidPerson(p) ==> HoldsValidRecord(PutPerson(m, p))
  {
  }

  /** Saving the same record twice leaves the same store as saving it once. */
  lemma PutPersonIdempotent(m: Prefs, p: Person)
    ensures PutPerson(PutPerson(m, p), p) == PutPerson(m, p)
  {
  }
}
