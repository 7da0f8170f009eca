# Form, profile and BMI screens: a Dafny model

This project models the logic of a three-screen Jetpack Compose form app,
with the widgets stripped away.

- **Form screen** (`AppContent`, `Ekran1.kt`). The user types name, surname,
  age, height and weight. The "Zapisz" handler parses the three numbers with
  Kotlin's `toIntOrNull`. It runs five ordered checks and reports only the
  first one that fails. When all pass, it writes the record into the
  `ListaLudzi` SharedPreferences store and sets the flag `isDataSaved`,
  which lasts while the form screen stays composed. The "Dane" and "BMI" buttons are enabled when all five fields
  are non-empty. They navigate only once the form has saved.
- **Profile screen** (`DaneScreen`, `Ekran2.kt`). It reads the record back,
  with `"Brak danych"` and `-1` as defaults. It looks up a gender for the
  route's name. It then shows a spinner, an error text or the profile card.
- **BMI screen** (`BmiScreen`, `Ekran3.kt`). It computes
  `weight / (height/100)^2` from the stored values, or -1.0 when either value
  is not positive. It picks one of four messages with an ordered `when`.

Modules, one file each:

- `Wrappers`: the Option and Result types.
- `KotlinInt`: `String.toIntOrNull()` and `Int.toString()`.
- `SharedPrefs`: the store as a `map<string, PrefValue>`, typed reads with
  defaults, and the five-key write.
- `Ekran1`: the pure validation and the `AppContent` class. The class holds
  the five fields, the store, `isDataSaved` and the radio-button choice.
- `Ekran2`: the pure derivations, the fetch state machine as a function, and
  the `DaneScreen` class whose `Settle` method runs the try/catch/finally.
- `Ekran3`: the BMI over exact reals and its classification.
- `Flow`: what the navigation gate guarantees to the two screens it opens,
  plus two client methods that walk one session through all three screens.

The HTTP call is a parameter. Its outcome is either a response (a status code
and the body's gender, possibly null) or an exception (a message, possibly
null).

## Model

| member | source | states |
|---|---|---|
| KotlinInt.ToIntOrNull | app/src/main/java/com/example/compose/Ekran1.kt:114-116 | A result is always a 32-bit value. It comes only from a string that, after one optional leading sign, is non-empty and all digits. Any non-empty all-digit string parses to its value when that fits in 32 bits, and to null when it overflows. |
| KotlinInt.SignedDigits | app/src/main/java/com/example/compose/Ekran1.kt:114-116 | For every non-empty digit string `d`, "+d" parses exactly as `d` does. "-d" parses to minus its value iff that value is at most 2^31, and to null otherwise. |
| KotlinInt.ToIntOrNullInvertsToString | app/src/main/java/com/example/compose/Ekran1.kt:114-116 | Every 32-bit integer, printed by `toString`, parses back to itself. This includes negative numbers and `Int.MIN_VALUE`. |
| SharedPrefs.GetString | app/src/main/java/com/example/compose/Ekran2.kt:42-43 | A missing key yields the default. A present key yields its stored string. |
| SharedPrefs.GetInt | app/src/main/java/com/example/compose/Ekran2.kt:44-46 | A missing key yields the default. A present key yields its stored number. |
| SharedPrefs.PutPerson | app/src/main/java/com/example/compose/Ekran1.kt:125-133 | Afterwards `imie`/`nazwisko` hold exactly the record's strings and `wiek`/`wzrost`/`waga` exactly its numbers. Every other key keeps its value. |
| SharedPrefs.PutPersonKeepsWellTyped | app/src/main/java/com/example/compose/Ekran1.kt:125-133 | The write keeps every key at the type it is read with. Writing a valid record leaves a complete valid record in the store. |
| SharedPrefs.PutPersonIdempotent | app/src/main/java/com/example/compose/Ekran1.kt:125-133 | Saving the same record twice leaves the same store as saving it once. |
| Ekran1.Validate | app/src/main/java/com/example/compose/Ekran1.kt:114-124 | An accepted record satisfies every range. It carries the entered strings and exactly the numbers `toIntOrNull` parsed. |
| Ekran1.ValidateReportsFirstFailure | app/src/main/java/com/example/compose/Ekran1.kt:118-123 | Error `e` is reported iff its own check fails and every earlier check passes. The order is name, surname, age, height, weight. |
| Ekran1.ValidateAcceptsIffAllPass | app/src/main/java/com/example/compose/Ekran1.kt:118-124 | A record is produced iff all five checks pass. The checks are: age parses and lies in (0,130]; height parses and lies in [50,250]; weight parses and lies in [3,200]. |
| Ekran1.ValidateAcceptsPrintedRecord | app/src/main/java/com/example/compose/Ekran1.kt:114-131 | Typing in any valid record, with its numbers written the way `toString` writes them, yields exactly that record. |
| Ekran1.Filled | app/src/main/java/com/example/compose/Ekran1.kt:105 | The buttons' `enabled` condition holds iff no field of the form is empty. |
| Ekran1.WithField | app/src/main/java/com/example/compose/Ekran1.kt:86-90 | A field callback sets its own field to the new text and leaves the other four unchanged. |
| Ekran1.EnabledIsWeakerThanValid | app/src/main/java/com/example/compose/Ekran1.kt:105-123 | Every form that validates enables the buttons. A form with a non-numeric age enables them too, and is rejected with the age error. |
| Ekran1.ErrorToastsDistinct | app/src/main/java/com/example/compose/Ekran1.kt:119-123 | Each failed check shows its own text, in both directions: "Imie nie może być puste" iff the name is empty, and so on for the other four. No error text equals "Dane zapisane" or "Najpierw zapisz dane". |
| Ekran1.Route | app/src/main/java/com/example/compose/Ekran1.kt:100 | The route is the screen name ("heartScreen" or "starScreen"), '/', the name, '/', the surname. Each segment is stated at its position. |
| Ekran1.RouteDeterminesArguments | app/src/main/java/com/example/compose/Ekran1.kt:49-57 | When neither name contains '/', equal route strings come from equal names and surnames: the route string determines both arguments. |
| Ekran1.AppContent.constructor | app/src/main/java/com/example/compose/Ekran1.kt:72-77 | All fields start empty and `isDataSaved` starts false. The store is whatever it already held. |
| Ekran1.AppContent.Edit | app/src/main/java/com/example/compose/Ekran1.kt:86-90 | Only the edited field changes. The store and `isDataSaved` are untouched, so a save already made stays in force. |
| Ekran1.AppContent.SelectGender | app/src/main/java/com/example/compose/Ekran1.kt:178-203 | The radio choice changes nothing else: not the fields, not the store, not the flag. |
| Ekran1.AppContent.Save | app/src/main/java/com/example/compose/Ekran1.kt:112-138 | On success the store becomes `PutPerson(old store, record)`, the flag is set and "Dane zapisane" is shown. On a failure only the failing check's toast is shown. The flag never goes from true to false while the form stays composed. The class invariant holds: once the flag is set, the store holds a validated record. |
| Ekran1.AppContent.Click | app/src/main/java/com/example/compose/Ekran1.kt:97-153 | A disabled button does nothing. An enabled one navigates iff `isDataSaved`, to exactly `heartScreen/<name>/<surname>` or `starScreen/<name>/<surname>` built from the current fields. Otherwise it shows "Najpierw zapisz dane". Whenever it navigates, the store holds a validated record. |
| Ekran2.TranslateGender | app/src/main/java/com/example/compose/Ekran2.kt:54-60 | The result is "mężczyzna" iff the input is "male", "kobieta" iff "female", and "inna" for every other string or null. |
| Ekran2.ReadProfile | app/src/main/java/com/example/compose/Ekran2.kt:42-46 | Each of the five values is the stored one when its key is present. A missing key gives "Brak danych" for the names and -1 for the numbers. |
| Ekran2.ReadEmptyStore | app/src/main/java/com/example/compose/Ekran2.kt:42-46 | A store never written reads as "Brak danych" for both names and -1 for all three numbers. |
| Ekran2.ReadAfterSave | app/src/main/java/com/example/compose/Ekran2.kt:42-46 | Reading the store after a save returns exactly the saved record. |
| Ekran2.ShowNumber | app/src/main/java/com/example/compose/Ekran2.kt:135-137 | A number is displayed as "Brak danych" iff it equals -1. Any other number is displayed in `Int.toString`'s spelling: an optional '-', then digits with no leading zero. For a 32-bit number that text parses back to it. |
| Ekran2.IsSuccessful | app/src/main/java/com/example/compose/Ekran2.kt:73 | A response counts as successful iff its status code is in the 2xx class. |
| Ekran2.ErrorText | app/src/main/java/com/example/compose/Ekran2.kt:79 | The exception text is "Error: " followed by the message, or "Error: null" for a null message. It never equals "Failed to fetch gender". |
| Ekran2.CardLines | app/src/main/java/com/example/compose/Ekran2.kt:133-138 | Six lines. The names are shown as stored. Each number line shows its value through `ShowNumber`, so it reads "Brak danych" iff the value is -1 and otherwise text that parses back to the value. The gender line shows the recorded gender, or "Nieznana" when it is null. |
| Ekran2.Settled | app/src/main/java/com/example/compose/Ekran2.kt:71-82 | After any outcome, loading is over. The try/catch/finally is modelled as a function of the prior state. |
| Ekran2.SettledKeepsSettles | app/src/main/java/com/example/compose/Ekran2.kt:48-82 | The initial state and every settle keep this invariant: once loading is over, a gender or an error is recorded, and a recorded gender is one of the three translations. |
| Ekran2.Render | app/src/main/java/com/example/compose/Ekran2.kt:112-138 | While loading, the spinner is shown. Otherwise a recorded error is shown as its text. Otherwise the six-line card is shown. Exactly one applies. |
| Ekran2.RenderAfterFirstSettle | app/src/main/java/com/example/compose/Ekran2.kt:71-116 | Before the lookup settles, the spinner is shown. After a 2xx response, the card shows the translated gender. Any other response shows "Failed to fetch gender". An exception shows "Error: " followed by its message, or "null". |
| Ekran2.CardNeverShowsUnknownGender | app/src/main/java/com/example/compose/Ekran2.kt:112-138 | In any state that keeps the invariant, a shown card's gender line is a translation and never "Płeć: Nieznana". |
| Ekran2.DaneScreen.constructor | app/src/main/java/com/example/compose/Ekran2.kt:39-50 | The screen keeps the route's name and surname, which `Settle` uses as the lookup key. It reads the profile from the store and starts in the loading state, which satisfies the invariant. |
| Ekran2.DaneScreen.Settle | app/src/main/java/com/example/compose/Ekran2.kt:70-83 | The service is asked about the route's `name`: the new state is `Settled(old state, lookup(name))`. The screen's invariant `Settles` is kept. |
| Ekran2.DaneScreen.View | app/src/main/java/com/example/compose/Ekran2.kt:112-138 | The view is `Render` of the current state and profile: the spinner while loading, then the recorded error text, then the card. In any valid state, a card is shown iff loading is over with no error. The card's gender line is then one of the three translations and never "Płeć: Nieznana". |
| Ekran3.Bmi | app/src/main/java/com/example/compose/Ekran3.kt:27-31 | A non-positive height or weight gives exactly -1.0. Otherwise BMI is positive and BMI·height² = 10000·weight. |
| Ekran3.Classify | app/src/main/java/com/example/compose/Ekran3.kt:33-38 | Exactly one branch is selected: below norm iff BMI < 18.5; normal iff 18.5 ≤ BMI ≤ 24.9; above norm iff BMI ≥ 25; cannot compute iff 24.9 < BMI < 25. |
| Ekran3.Message | app/src/main/java/com/example/compose/Ekran3.kt:33-38 | Each branch shows its own text: the "poniżej normy" text for below norm, "w świetnej formie" for normal, "warto zadbać o zdrowie" for above norm. The "cannot compute" text appears iff that branch is taken. Every other message starts with "Hej " and the route's name, taken as plain text (a '%' in the name is listed under Left out). |
| Ekran3.StoredBmi | app/src/main/java/com/example/compose/Ekran3.kt:24-31 | A missing height or weight key gives the -1.0 sentinel. Otherwise the BMI is that of the stored height and weight. |
| Ekran3.ClassifyByCrossMultiplication | app/src/main/java/com/example/compose/Ekran3.kt:33-37 | For positive inputs each branch is an integer comparison. For example, below norm iff 2·10000·w < 37·h². |
| Ekran3.BmiRangeOfValidatedInputs | app/src/main/java/com/example/compose/Ekran3.kt:27-28 | Heights in [50,250] and weights in [3,200] give a BMI in [0.48, 800]. |
| Ekran3.GapIsReachable | app/src/main/java/com/example/compose/Ekran3.kt:35-37 | 170 cm and 72 kg select the "cannot compute" branch. |
| Ekran3.ThresholdsReachedExactly | app/src/main/java/com/example/compose/Ekran3.kt:33-37 | Validated inputs reach thresholds exactly: 200 cm and 74 kg give 18.5 (normal), and 160 cm and 64 kg give 25 (above norm). |
| Ekran3.MissingDataIsBelowNorm | app/src/main/java/com/example/compose/Ekran3.kt:24-34 | With height or weight missing, BMI is -1.0 and the below-norm branch is selected, not "cannot compute". |
| Flow.GatedBmiIsComputed | app/src/main/java/com/example/compose/Ekran3.kt:24-31 | When the store holds a validated record (as it does whenever the gate opens), the BMI is never the sentinel and lies in [0.48, 800]. |
| Flow.GatedProfileShowsNumbers | app/src/main/java/com/example/compose/Ekran2.kt:135-137 | When the store holds a validated record, no number on the card reads "Brak danych". Each parses back to the stored value. |

## Left out

- Compose rendering, colours, icons, `Scaffold`/`TopAppBar`/`Card`, `MainActivity`: UI with no logic.
- `NavHost` wiring, route pattern matching and `popBackStack`: framework navigation. Only the route string a click produces is modelled.
- Ekran1.AppContent: the form's state is plain `remember` state, not `rememberSaveable`, so it lives only while the form screen is composed. Opening either screen, then coming back with `popBackStack`, discards it, and so does a configuration change. The form then comes back as a fresh `AppContent` constructor call over the same store: empty fields, both buttons disabled, the flag false. The user must type and save again before either button navigates. The model shows this return only in the `Flow.EditAfterSave` scenario; the "session flag" means this lifetime.
- Toasts are platform side effects. The model returns the toast text as a value.
- Retrofit, Gson, the genderize.io request, `LaunchedEffect` and the coroutine launch: network I/O and asynchrony. The service is the function parameter `lookup` of `Settle`, which applies it to the screen's `name`. The probability and count fields of the response are unused by the screen and not modelled.
- SharedPreferences durability and the asynchronous `apply()`: the store is a map updated at once.
- KotlinInt.ToIntOrNull: accepts only the ASCII digits '0'..'9'. On the JVM, Kotlin's parser also accepts other Unicode decimal digits, such as Arabic-Indic ones.
- Ekran3.Bmi: models the `Double` arithmetic by exact reals, so the model and the program part at the 25 threshold. The inputs 80 cm/16 kg, 160 cm/64 kg and 220 cm/121 kg have an exact BMI of 25, which the model classifies as above norm (`ThresholdsReachedExactly`). In IEEE-754 double arithmetic the same expression gives 24.999999999999996, so the program shows "Nie można obliczyć BMI" for them. The other exact-25 inputs (for example 100/25, 180/81) evaluate to 25.0 or just above and agree with the model. The only validated input with an exact BMI of 18.5 is 200/74; it evaluates to exactly 18.5 in doubles too, so that threshold agrees. No validated input gives exactly 24.9.
- Ekran3.Message: `"%.2f".format(bmi)` is a parameter, `formatted`. Locale-dependent number formatting is not modelled. The model also copies the route's name into the text as plain characters. In the source the name is spliced into the format string before `.format(bmi)` runs, so `java.util.Formatter` reads a '%' in the name as a format specifier in the below-norm, normal and above-norm branches. Such a name either changes the text ("%%" shows as "%") or throws (for "%s" a `MissingFormatArgumentException`; for a trailing '%' a bad-conversion exception). The model promises the "Hej " + name prefix only as plain text and does not capture either effect.
- Ekran1.RouteDeterminesArguments: proves only that the route string determines the name and surname. What the next screen receives is not modelled. A name or surname holding '/' (for example "Ko/walski") makes a route that matches neither pattern, so `navigate` finds no destination and throws. Navigation also percent-decodes the arguments, so a typed "a%41" arrives as "aA".
- A key stored with the wrong type (a `ClassCastException` on read) is excluded by the `WellTyped` requirement. Only the form's save writes these keys.
- A null string stored under `imie`/`nazwisko` cannot arise, because the form stores non-null strings. The `?: "Brak danych"` fallback therefore reduces to the default of `GetString`.
- The gender radio buttons are modelled only to show that they touch neither the store nor the flag. The choice is never saved or read.
