# Heart-rate screen of the Health Connect codelab, modelled in Dafny

This project models the heart-rate feature of an Android sample app that
records and lists heart-rate readings through Health Connect:

- **`HeartRateViewModel`** holds three observable cells: `permissionsGranted`,
  `heartRateReadings` and `uiState`. Both of its workflows, `initialLoad` and
  `insertHeartRate`, go through `tryWithPermissionsCheck`. That method asks the
  gateway (`HealthConnectManager`) whether the read and write permissions are
  granted and stores the answer. It runs the block only when they are granted.
  It then settles `uiState` on `Done`, or on `Error(e, uuid)` with a fresh id
  when the block throws a `RemoteException`, `SecurityException`, `IOException`
  or `IllegalStateException`. Any other exception escapes and leaves `uiState`
  as it was.
- **`HeartRateScreen`** validates the two text inputs. It enables Save when
  both are valid. The Save handler passes the parsed values to `onInsertClick`
  and then clears both fields. A `LaunchedEffect` calls `onPermissionsResult`
  while the state is `Uninitialized` and reports each `Error` id once. The
  navigation file in this repository does not route to this screen, so which
  host answers `onPermissionsResult` is not in the code. The scenario in
  `scenarios.dfy` assumes it calls `initialLoad`, as the app's other screens
  are wired.

Files and modules:

| file | module | contents |
|---|---|---|
| `wrappers.dfy` | `Wrappers` | `Option` (Kotlin's nullable result) |
| `exceptions.dfy` | `Exceptions` | the JVM exception classes involved, their superclass links, and the catch arms of the workflow |
| `kotlin_text.dfy` | `KotlinText` | `String.toIntOrNull()` on ASCII digits with the 32-bit `Int` range, and `Int.toString()` for the round trip |
| `java_time.dfy` | `JavaTime` | instants as whole seconds, `Instant.minus(n, DAYS)`, `LocalDateTime`, and `toInstant(ZoneOffset.UTC)` via the JDK's epoch-day computation |
| `health_connect.dfy` | `HealthConnect` | `HeartRateRecord`/`Sample` values, permissions, and the gateway class, which records each call and returns the answer it is handed |
| `uuids.dfy` | `Uuids` | `UUID.randomUUID()` as a source that never hands out the same id twice |
| `view_model.dfy` | `ViewModel` | `UiState`, the record the insert builds, and the class `HeartRateViewModel` |
| `screen.dfy` | `Screen` | the validators, error flags, Save handler, effect and a coarse view, plus the class `HeartRateScreen` for the remembered cells |
| `scenarios.dfy` | `Scenarios` | the two classes used together: a caught write failure is reported once |

Inputs of the model:

- The platform's answers are inputs: the permission answer, the read result
  and the write result. Each is a value or a thrown exception.
- `Instant.now()` is the parameter `now`.
- The zone offset that `ZoneOffset.systemDefault()` yields is the parameter
  `zoneOffset`, in seconds.
- `LocalDateTime.parse(s, ofPattern("yyyy-MM-dd HH:mm:ss"))` is a function
  parameter of type `DateTimeParser`. It returns `None` where the library
  throws. The type asks only that the empty string fails and that every
  result is a real date-time.

Notes on the code's behaviour:

- The workflow does not turn every failure into state. An exception from the
  permission query is raised outside the `try`, so it always escapes. So do
  the uncaught classes thrown by the block.
- Date-time validity is whatever `LocalDateTime.parse` accepts with that
  pattern, not an exact textual match. For example, the formatter's default
  SMART resolver accepts `2023-02-30 10:00:00` and clamps it to the 28th.
  The model therefore leaves the parse uninterpreted.
- The heart-rate check accepts a leading `+` and leading zeros, because it is
  `toIntOrNull` followed by a range check.

## Model

| member | source | states |
|---|---|---|
| `Exceptions.Parent` | finished/src/main/java/com/example/healthconnect/codelab/presentation/screen/heartrate/HeartRateViewModel.kt:81-89 | Every class except `Throwable` has a direct superclass, and that superclass is one level higher in the tree (this is how the catch arms see subclasses) |
| `Exceptions.IsATransitive` | finished/src/main/java/com/example/healthconnect/codelab/presentation/screen/heartrate/HeartRateViewModel.kt:81-89 | The subclass relation the catch arms test is transitive |
| `Exceptions.IsAChain` | finished/src/main/java/com/example/healthconnect/codelab/presentation/screen/heartrate/HeartRateViewModel.kt:81-89 | Any two superclasses of one class are related: one is a subclass of the other |
| `Exceptions.FirstCatchingArm` | finished/src/main/java/com/example/healthconnect/codelab/presentation/screen/heartrate/HeartRateViewModel.kt:81-89 | The arm chosen is the first one, in source order, whose class the thrown class is a subclass of. No earlier arm matches. `None` means that no arm matches |
| `Exceptions.CaughtByWorkflow` | finished/src/main/java/com/example/healthconnect/codelab/presentation/screen/heartrate/HeartRateViewModel.kt:81-89 | Definition: a class is caught when it is a subclass of one of the four arm classes. Stated against the arms by `ArmOfIffCaught`, `WorkflowCatches`, `WorkflowLetsEscape` and `CaughtClosedUnderSubclass` |
| `Exceptions.ArmOfIffCaught` | finished/src/main/java/com/example/healthconnect/codelab/presentation/screen/heartrate/HeartRateViewModel.kt:81-89 | Some arm is chosen exactly when the class is a subclass of one of the four caught classes |
| `Exceptions.WorkflowCatches` | finished/src/main/java/com/example/healthconnect/codelab/presentation/screen/heartrate/HeartRateViewModel.kt:81-89 | The caught classes are the four arm classes and their subclasses: remote, dead-object, security, I/O, file-not-found, illegal-state and cancellation |
| `Exceptions.WorkflowLetsEscape` | finished/src/main/java/com/example/healthconnect/codelab/presentation/screen/heartrate/HeartRateViewModel.kt:76-89 | Every other class escapes all four arms. This includes `IllegalArgumentException`, `NumberFormatException`, `DateTimeParseException`, `Exception`, `Error` and `OutOfMemoryError` |
| `Exceptions.CancellationCaughtAsIllegalState` | finished/src/main/java/com/example/healthconnect/codelab/presentation/screen/heartrate/HeartRateViewModel.kt:87-88 | Coroutine cancellation (`CancellationException`) is caught by the fourth arm, the `IllegalStateException` one |
| `Exceptions.CaughtClosedUnderSubclass` | finished/src/main/java/com/example/healthconnect/codelab/presentation/screen/heartrate/HeartRateViewModel.kt:81-89 | A subclass, at any depth, of a caught class is caught too |
| `Exceptions.SubclassSameArm` | finished/src/main/java/com/example/healthconnect/codelab/presentation/screen/heartrate/HeartRateViewModel.kt:81-89 | A subclass of a class that some arm catches is handled by that same arm |
| `Exceptions.ArmsUnrelated` | finished/src/main/java/com/example/healthconnect/codelab/presentation/screen/heartrate/HeartRateViewModel.kt:81-89 | None of the four arm classes is a subclass of another |
| `Exceptions.OneArmCatches` | finished/src/main/java/com/example/healthconnect/codelab/presentation/screen/heartrate/HeartRateViewModel.kt:81-89 | No class matches two arms, so the order of the catch arms does not change which one handles an exception |
| `KotlinText.ParseIntOrNull` | finished/src/main/java/com/example/healthconnect/codelab/presentation/screen/heartrate/HeartRateScreen.kt:49 | `toIntOrNull` yields a value exactly when the text is an optional sign followed by at least one digit and its value fits in `Int`. The value is then the numeral's value |
| `KotlinText.Decimal` | finished/src/main/java/com/example/healthconnect/codelab/presentation/screen/heartrate/HeartRateScreen.kt:49 | Definition: `Int.toString()`, a `-` for negative values and then the digits without leading zeros. Its round trip through `toIntOrNull` is `ParseDecimal` |
| `KotlinText.NatDigitsValue` | finished/src/main/java/com/example/healthconnect/codelab/presentation/screen/heartrate/HeartRateScreen.kt:49 | The decimal digits of `n` are digits, have no leading zero and read back as `n` |
| `KotlinText.ParseDecimal` | finished/src/main/java/com/example/healthconnect/codelab/presentation/screen/heartrate/HeartRateScreen.kt:49 | Round trip: parsing `n.toString()` gives back `n` for every `Int` |
| `KotlinText.LeadingZeroValue` | finished/src/main/java/com/example/healthconnect/codelab/presentation/screen/heartrate/HeartRateScreen.kt:49 | A leading zero does not change the value of a digit string |
| `KotlinText.LeadingZeroParse` | finished/src/main/java/com/example/healthconnect/codelab/presentation/screen/heartrate/HeartRateScreen.kt:49 | A zero after the optional sign does not change what `toIntOrNull` returns |
| `KotlinText.SingleCharacterParse` | finished/src/main/java/com/example/healthconnect/codelab/presentation/screen/heartrate/HeartRateScreen.kt:49 | A one-character text parses, if at all, to a single digit's value 0..9 |
| `KotlinText.NonDigitRejected` | finished/src/main/java/com/example/healthconnect/codelab/presentation/screen/heartrate/HeartRateScreen.kt:49 | Any non-digit character makes the parse fail, unless it is a sign in front. This covers whitespace and letters |
| `JavaTime.EpochDay` | finished/src/main/java/com/example/healthconnect/codelab/presentation/screen/heartrate/HeartRateViewModel.kt:51-58 | Definition: `LocalDate.toEpochDay` as the JDK computes it, from the leap days before the year, the month offset and the day. Its properties are stated by `NextDayInMonth`, `NextMonth`, `NextYear` and the anchors `EpochInstants` and `Instants2024` |
| `JavaTime.ToInstantUtc` | finished/src/main/java/com/example/healthconnect/codelab/presentation/screen/heartrate/HeartRateViewModel.kt:51-58 | A valid local date-time read as UTC falls within its own day: between the start of its epoch day and the start of the next. How the epoch day advances across days, months and years, for all inputs, is stated by `NextDayInMonth`, `NextMonth` and `NextYear` |
| `JavaTime.NextDayInMonth` | finished/src/main/java/com/example/healthconnect/codelab/presentation/screen/heartrate/HeartRateViewModel.kt:51-58 | For every year and month, the next day of the same month is the next epoch day |
| `JavaTime.NextMonth` | finished/src/main/java/com/example/healthconnect/codelab/presentation/screen/heartrate/HeartRateViewModel.kt:51-58 | For every year (leap or not, before year 0 or after) and every month but December, the first of the next month is exactly that month's length later |
| `JavaTime.LeapDaysStepFromZero` | finished/src/main/java/com/example/healthconnect/codelab/presentation/screen/heartrate/HeartRateViewModel.kt:51-58 | From year 0 on, the JDK's leap-day count grows by one exactly after a leap year |
| `JavaTime.LeapDaysStepBeforeZero` | finished/src/main/java/com/example/healthconnect/codelab/presentation/screen/heartrate/HeartRateViewModel.kt:51-58 | Before year 0, where the JDK divides toward zero, the leap-day count also grows by one exactly after a leap year |
| `JavaTime.NextYear` | finished/src/main/java/com/example/healthconnect/codelab/presentation/screen/heartrate/HeartRateViewModel.kt:51-58 | For every year, negative ones included, January 1 of the next year is 366 days later after a leap year and 365 days later otherwise. With the day and month steps and the epoch anchor, this fixes the epoch day of every valid date |
| `JavaTime.EpochInstants` | finished/src/main/java/com/example/healthconnect/codelab/presentation/screen/heartrate/HeartRateViewModel.kt:51 | 1970-01-01 00:00:00 read as UTC is instant 0, and the second before it is -1 |
| `JavaTime.Instants2024` | finished/src/main/java/com/example/healthconnect/codelab/presentation/screen/heartrate/HeartRateViewModel.kt:51 | 2024-01-01 08:00:00 read as UTC is 1704096000. 2024-02-28 and 2024-03-01 are two days apart, so the leap day counts |
| `HealthConnect.HealthConnectGateway.HasAllPermissions` | finished/src/main/java/com/example/healthconnect/codelab/presentation/screen/heartrate/HeartRateViewModel.kt:75 | The permission query is recorded with the permission set asked for, and its answer is passed back |
| `HealthConnect.HealthConnectGateway.ReadHeartRateData` | finished/src/main/java/com/example/healthconnect/codelab/presentation/screen/heartrate/HeartRateViewModel.kt:71 | The read is recorded with its window, and its answer is passed back |
| `HealthConnect.HealthConnectGateway.WriteHeartRateRecord` | finished/src/main/java/com/example/healthconnect/codelab/presentation/screen/heartrate/HeartRateViewModel.kt:62 | The write is recorded with the record written, and its answer is passed back |
| `Uuids.UuidSource.RandomUuid` | finished/src/main/java/com/example/healthconnect/codelab/presentation/screen/heartrate/HeartRateViewModel.kt:95 | Each id handed out differs from every id handed out before, and the set of issued ids grows by exactly that id |
| `ViewModel.ReadWindow` | finished/src/main/java/com/example/healthconnect/codelab/presentation/screen/heartrate/HeartRateViewModel.kt:69-70 | The query window ends at `now` and starts exactly 30 days (30 * 86400 s) earlier |
| `ViewModel.BuildRecord` | finished/src/main/java/com/example/healthconnect/codelab/presentation/screen/heartrate/HeartRateViewModel.kt:50-61 | Definition: the record `insertHeartRate` writes. Its shape is stated by `BuildRecordShape`, and its history row by `Screen.HistoryOfBuiltRecord` |
| `ViewModel.BuildRecordShape` | finished/src/main/java/com/example/healthconnect/codelab/presentation/screen/heartrate/HeartRateViewModel.kt:50-61 | The inserted record is well formed. Its start, end and only sample all sit at `timestamp` read as UTC. The sample carries `heartRate`. Both zone offsets are the local offset |
| `ViewModel.HeartRateViewModel.constructor` | finished/src/main/java/com/example/healthconnect/codelab/presentation/screen/heartrate/HeartRateViewModel.kt:27-34 | A new view-model has no permissions, no readings and `uiState == Uninitialized` |
| `ViewModel.HeartRateViewModel.InitialLoad` | finished/src/main/java/com/example/healthconnect/codelab/presentation/screen/heartrate/HeartRateViewModel.kt:38-44 | The permission query comes first and its answer is stored. The 30-day read runs only when permissions are granted. A successful read replaces the readings and gives `Done`. Not granted gives `Done`, not `Error`. A caught failure gives `Error` with an unissued id. Anything else escapes, and `uiState` is kept |
| `ViewModel.HeartRateViewModel.InsertHeartRate` | finished/src/main/java/com/example/healthconnect/codelab/presentation/screen/heartrate/HeartRateViewModel.kt:46-66 | Same gating as the load. When permitted, exactly the built record is written. The readings are never changed, because the re-read is commented out. Success gives `Done`, a caught failure a fresh `Error`, and any other failure escapes |
| `ViewModel.HeartRateViewModel.ReadHeartRateData` | finished/src/main/java/com/example/healthconnect/codelab/presentation/screen/heartrate/HeartRateViewModel.kt:68-72 | It queries `[now - 30 days, now]`. The readings become the result, or are untouched when the read throws. Nothing else changes |
| `ViewModel.HeartRateViewModel.RunAction` | finished/src/main/java/com/example/healthconnect/codelab/presentation/screen/heartrate/HeartRateViewModel.kt:48-64 | The block makes exactly its one gateway call and throws exactly what that call throws. Only a load changes the readings |
| `ViewModel.HeartRateViewModel.TryWithPermissionsCheck` | finished/src/main/java/com/example/healthconnect/codelab/presentation/screen/heartrate/HeartRateViewModel.kt:74-90 | `permissionsGranted` becomes the gateway's answer before the block runs. The block runs only when permissions are granted. Completion gives `Done`. The four caught classes give `Error(e)` with an id not issued before. Other classes, and failures of the query itself, escape and keep `uiState`. `uiState` never returns to `Uninitialized` |
| `Screen.IsValidHeartRate` | finished/src/main/java/com/example/healthconnect/codelab/presentation/screen/heartrate/HeartRateScreen.kt:48-51 | Definition: `toIntOrNull` succeeds and the value lies in 30..250. Its behaviour is stated by `RejectedHeartRates`, `AcceptedHeartRates`, `InRangeIsValid`, `SignIgnored`, `LeadingZeroIgnored` and `ValidHeartRateShape` |
| `Screen.IsValidDateTime` | finished/src/main/java/com/example/healthconnect/codelab/presentation/screen/heartrate/HeartRateScreen.kt:53-60 | Definition: the supplied parse succeeds. Used by `ErrorShownDisablesSave` and `EnabledSaveInserts` |
| `Screen.RejectedHeartRates` | finished/src/main/java/com/example/healthconnect/codelab/presentation/screen/heartrate/HeartRateScreen.kt:48-51 | These inputs are invalid: `""`, `"+"`, `"abc"`, `" 70"`, `"29"`, `"251"`, `"999"` and `"-70"` |
| `Screen.AcceptedHeartRates` | finished/src/main/java/com/example/healthconnect/codelab/presentation/screen/heartrate/HeartRateScreen.kt:48-51 | These inputs are valid: `"30"`, `"250"`, `"070"` and `"+70"` |
| `Screen.InRangeIsValid` | finished/src/main/java/com/example/healthconnect/codelab/presentation/screen/heartrate/HeartRateScreen.kt:48-51 | Every value in 30..250, written as Kotlin prints it, is valid |
| `Screen.SignIgnored` | finished/src/main/java/com/example/healthconnect/codelab/presentation/screen/heartrate/HeartRateScreen.kt:48-51 | A `+` in front of a digit string does not change validity |
| `Screen.LeadingZeroIgnored` | finished/src/main/java/com/example/healthconnect/codelab/presentation/screen/heartrate/HeartRateScreen.kt:48-51 | A leading zero does not change validity |
| `Screen.ValidHeartRateShape` | finished/src/main/java/com/example/healthconnect/codelab/presentation/screen/heartrate/HeartRateScreen.kt:48-51 | A valid input never starts with `-` and has at least two characters |
| `Screen.HeartRateErrorShown` | finished/src/main/java/com/example/healthconnect/codelab/presentation/screen/heartrate/HeartRateScreen.kt:87-91 | Definition: the heart-rate field is non-empty and invalid. Stated against Save by `ErrorShownDisablesSave` |
| `Screen.DateTimeErrorShown` | finished/src/main/java/com/example/healthconnect/codelab/presentation/screen/heartrate/HeartRateScreen.kt:107-110 | Definition: the date-time field is non-empty and invalid. Stated against Save by `ErrorShownDisablesSave` |
| `Screen.SaveEnabled` | finished/src/main/java/com/example/healthconnect/codelab/presentation/screen/heartrate/HeartRateScreen.kt:126 | Definition: both fields are valid. Characterised by `ErrorShownDisablesSave`, and its consequence for the handler by `EnabledSaveInserts` |
| `Screen.ErrorShownDisablesSave` | finished/src/main/java/com/example/healthconnect/codelab/presentation/screen/heartrate/HeartRateScreen.kt:87-126 | Either error being shown disables Save. Empty fields show no error, and an empty heart-rate field still disables Save. Save is enabled exactly when both fields are non-empty and neither shows an error |
| `Screen.SaveClick` | finished/src/main/java/com/example/healthconnect/codelab/presentation/screen/heartrate/HeartRateScreen.kt:127-132 | Definition: the Save handler's outcome, with the date-time parsed first and then `toInt`. Stated by `EnabledSaveInserts` and by `HeartRateScreen.OnSaveClick` |
| `Screen.EnabledSaveInserts` | finished/src/main/java/com/example/healthconnect/codelab/presentation/screen/heartrate/HeartRateScreen.kt:126-132 | With Save enabled, the handler cannot throw. It passes on the heart-rate input's integer value, which lies in 30..250, together with the parsed date-time |
| `Screen.EffectCallbacks` | finished/src/main/java/com/example/healthconnect/codelab/presentation/screen/heartrate/HeartRateScreen.kt:37-46 | Definition: the callbacks one effect run makes. Stated by `EffectReportsNewErrors`, `EffectReportsOnce`, `EffectAsksPermissionsOnce` and `FreshErrorReported` |
| `Screen.EffectErrorId` | finished/src/main/java/com/example/healthconnect/codelab/presentation/screen/heartrate/HeartRateScreen.kt:42-45 | Definition: the `errorId` after one effect run. Stated by `EffectReportsNewErrors` and `EffectReportsOnce` |
| `Screen.EffectReportsNewErrors` | finished/src/main/java/com/example/healthconnect/codelab/presentation/screen/heartrate/HeartRateScreen.kt:42-45 | `onError(e)` is called exactly when the state is `Error(e, id)` with `id` different from the stored `errorId`. A run makes at most one callback. After an `Error` state, the stored `errorId` is that state's id |
| `Screen.EffectReportsOnce` | finished/src/main/java/com/example/healthconnect/codelab/presentation/screen/heartrate/HeartRateScreen.kt:37-46 | Running the effect again on the same state reports no error and leaves `errorId` as it is |
| `Screen.EffectAsksPermissionsOnce` | finished/src/main/java/com/example/healthconnect/codelab/presentation/screen/heartrate/HeartRateScreen.kt:38-40 | `onPermissionsResult` is called once per run when the state is `Uninitialized`, and never otherwise |
| `Screen.FreshErrorReported` | finished/src/main/java/com/example/healthconnect/codelab/presentation/screen/heartrate/HeartRateScreen.kt:42-45 | An `Error` whose id was not yet issued when the stored `errorId` was is always reported |
| `Screen.History` | finished/src/main/java/com/example/healthconnect/codelab/presentation/screen/heartrate/HeartRateScreen.kt:155-171 | Definition: one row per sample, record by record, in order. Stated by `HistoryAppend` and `HistoryOfBuiltRecord` |
| `Screen.HistoryAppend` | finished/src/main/java/com/example/healthconnect/codelab/presentation/screen/heartrate/HeartRateScreen.kt:155-171 | The history rows of concatenated record lists are the rows of each list, in order |
| `Screen.HistoryOfBuiltRecord` | finished/src/main/java/com/example/healthconnect/codelab/presentation/screen/heartrate/HeartRateScreen.kt:155-163 | An inserted record, once read back, adds exactly one history row, with its heart rate and instant |
| `Screen.Render` | finished/src/main/java/com/example/healthconnect/codelab/presentation/screen/heartrate/HeartRateScreen.kt:62-171 | Definition: what the screen shows for a state and its inputs. Stated by `RenderCases` |
| `Screen.RenderCases` | finished/src/main/java/com/example/healthconnect/codelab/presentation/screen/heartrate/HeartRateScreen.kt:62-76 | Nothing is shown exactly while `Uninitialized`. The permissions button is shown exactly when the state is settled and permissions are missing. In the form, an enabled Save implies that no error is shown and the heart-rate field is not empty |
| `Screen.HeartRateScreen.constructor` | finished/src/main/java/com/example/healthconnect/codelab/presentation/screen/heartrate/HeartRateScreen.kt:33-35 | Both fields start empty, and `errorId` starts as a random id distinct from all ids issued before |
| `Screen.HeartRateScreen.OnHeartRateChange` | finished/src/main/java/com/example/healthconnect/codelab/presentation/screen/heartrate/HeartRateScreen.kt:85 | The heart-rate field takes the typed text, and nothing else changes |
| `Screen.HeartRateScreen.OnDateTimeChange` | finished/src/main/java/com/example/healthconnect/codelab/presentation/screen/heartrate/HeartRateScreen.kt:105 | The date-time field takes the typed text, and nothing else changes |
| `Screen.HeartRateScreen.RunEffect` | finished/src/main/java/com/example/healthconnect/codelab/presentation/screen/heartrate/HeartRateScreen.kt:37-46 | One effect run makes the callbacks and the `errorId` update that the lemmas above describe, and changes nothing else |
| `Screen.HeartRateScreen.OnSaveClick` | finished/src/main/java/com/example/healthconnect/codelab/presentation/screen/heartrate/HeartRateScreen.kt:127-135 | The date-time is parsed first, then the heart rate. When both succeed, `onInsertClick` gets the values and both fields become `""`. When either throws, both fields keep their text. When Save was enabled, the handler succeeds with a heart rate in 30..250 |

## Left out

- `HealthConnectNavigation.kt` is not part of this model. It is navigation wiring, deep-link registration and view-model factory plumbing over library code.
- `HeartRateViewModelFactory` (reflection-based construction of the view-model) is not modelled.
- `isValidDateTime` and the parse in the Save handler are not interpreted. They depend on `java.time` formatter and resolver behaviour, which is outside the repository. Both are one supplied function, so they always agree.
- `ZoneOffset.systemDefault()` and the localized date formatting of history rows depend on platform time-zone and locale data. The offset is a parameter, and a history row is the sample's bpm and instant.
- Coroutine scheduling, suspension and cancellation (`viewModelScope.launch`) are not modelled. Each workflow is one sequential call. Two workflows racing to write the same cell (last write wins) is not modelled. An exception that escapes a workflow is returned to the caller, standing for the coroutine's uncaught-exception path.
- `HealthConnectManager` is a foreign platform API. Its answers are inputs, and its storage, permission model and querying are not modelled.
- The validation that the Health Connect library does inside the `HeartRateRecord` and `Sample` constructors is not modelled. `BuildRecord` never throws.
- `permissionsLauncher` and the permissions button's `onPermissionsLaunch` call are not modelled, because they only forward to the platform's permission prompt. The Load button, which only calls `onPermissionsResult`, is left out for the same reason.
- Compose layout and styling are not modelled: `LazyColumn`, spacing, labels, colours and the student name and ID lines. The view is reduced to blank, the permissions button, or the form's error flags, Save flag and history rows.
- The effect runs whenever the model calls `RunEffect`. Compose's re-launch of `LaunchedEffect` only when its key changes is not modelled. The lemmas cover both a re-run on the same state and a run on a new state.
- `KotlinText.ParseIntOrNull`: it accepts only ASCII digits. Kotlin's `toIntOrNull` and `toInt` also accept other Unicode decimal digits (for example Arabic-Indic or full-width digits), so the model rejects some inputs the app accepts.
- Exception messages are not modelled. A thrown value's `message` field stands for the message and identity of the exception object. For the Save handler's parse failures it holds the rejected text.
- Instants have whole-second resolution. Date-times parsed with the pattern have no sub-second part, but `Instant.now()` does, and the model drops it from `now`, so the 30-day window is modelled at second precision.
- The exception classes form a closed list of 17, and `WorkflowLetsEscape`'s "every other class" covers only these. A class that is not listed behaves as its nearest listed ancestor. For example, `TransactionTooLargeException` is caught as a `RemoteException`, `SocketTimeoutException` as an `IOException`, and `JobCancellationException` as a `CancellationException`. `CaughtClosedUnderSubclass` and `SubclassSameArm` state this for subclasses of any caught class.
- Which host answers the screen's `onPermissionsResult` is not modelled. The navigation file does not route to this screen, and the scenario's link to `initialLoad` follows how the app's other screens are wired.
- `Exceptions.Parent` flattens the JVM hierarchy above `OutOfMemoryError`: its parent is `Error`, not `VirtualMachineError`. No catch arm names the intermediate class, so what the workflow catches is unchanged.
