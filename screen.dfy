/**
 * `HeartRateScreen`: the input validators, what the screen shows for a given
 * state, the Save button's handler and the effect that reports each error
 * state once.  The remembered cells `heartRateInput`, `dateTimeInput` and
 * `errorId` are the fields of a class.
 */
module Screen {
  import opened Wrappers
  import opened Exceptions
  import opened KotlinText
  import opened JavaTime
  import opened HealthConnect
  import opened Uuids
  import opened ViewModel

  const MinHeartRate: int := 30
  const MaxHeartRate: int := 250

  /** `isValidHeartRate`: the input parses as an `Int` in `30..250`. */
  predicate IsValidHeartRate(s: string)
  {
    match ParseIntOrNull(s)
    case Some(v) => MinHeartRate <= v <= MaxHeartRate
    case None => false
  }

  /**
   * `LocalDateTime.parse` with the pattern `yyyy-MM-dd HH:mm:ss`, supplied to
   * the model: `None` where the library throws.
   */
  type DateTimeParser = p: string -> Option<LocalDateTime>
    | p("") == None && forall s :: p(s).Some? ==> ValidDateTime(p(s).value)
    witness (s: string) => None

  /** `isValidDateTime`: the parse does not throw. */
  predicate IsValidDateTime(parse: DateTimeParser, s: string)
  {
    parse(s).Some?
  }

  /** The heart-rate field is flagged and its error text shown. */
  predicate HeartRateErrorShown(s: string)
  {
    |s| > 0 && !IsValidHeartRate(s)
  }

  /** The date-time field is flagged and its error text shown. */
  predicate DateTimeErrorShown(parse: DateTimeParser, s: string)
  {
    |s| > 0 && !IsValidDateTime(parse, s)
  }

  /** The Save button is enabled. */
  predicate SaveEnabled(parse: DateTimeParser, heartRateInput: string, dateTimeInput: string)
  {
    IsValidHeartRate(heartRateInput) && IsValidDateTime(parse, dateTimeInput)
  }

  /** Out-of-range values and text that is not a numeral are rejected. */
  lemma RejectedHeartRates()
    ensures !IsValidHeartRate("") && !IsValidHeartRate("+") && !IsValidHeartRate("abc") && !IsValidHeartRate(" 70")
    ensures !IsValidHeartRate("29") && !IsValidHeartRate("251") && !IsValidHeartRate("999") && !IsValidHeartRate("-70")
  {
    ParseDecimal(29);
    assert Decimal(29) == "29";
    ParseDecimal(251);
    assert Decimal(251) == "251";
    ParseDecimal(999);
    assert Decimal(999) == "999";
    ParseDecimal(-70);
    assert Decimal(-70) == "-70";
    NonDigitRejected("abc", 0);
    NonDigitRejected(" 70", 0);
  }

  /** Both ends of the range are accepted, and so are a leading zero and a `+` sign. */
  lemma AcceptedHeartRates()
    ensures IsValidHeartRate("30") && IsValidHeartRate("250") && IsValidHeartRate("070") && IsValidHeartRate("+70")
  {
    ParseDecimal(30);
    assert Decimal(30) == "30";
    ParseDecimal(250);
    assert Decimal(250) == "250";
    ParseDecimal(70);
    assert Decimal(70) == "70";
    LeadingZeroIgnored("70");
    assert "0" + "70" == "070";
    SignIgnored("70");
    assert "+" + "70" == "+70";
  }

  /** Every value in range is accepted as `toString` prints it. */
  lemma InRangeIsValid(v: int)
    requires MinHeartRate <= v <= MaxHeartRate
    ensures IsValidHeartRate(Decimal(v))
  {
    ParseDecimal(v);
  }

  /** A `+` sign in front of the digits does not change validity. */
  lemma SignIgnored(digits: string)
    requires |digits| > 0 && AllDigits(digits)
    ensures IsValidHeartRate("+" + digits) == IsValidHeartRate(digits)
  {
    assert ("+" + digits)[1..] == digits;
    assert digits[0] != '+' && digits[0] != '-' by { assert IsDigit(digits[0]); }
  }

  /** A leading zero in front of the digits does not change validity. */
  lemma LeadingZeroIgnored(digits: string)
    requires |digits| > 0 && AllDigits(digits)
    ensures IsValidHeartRate("0" + digits) == IsValidHeartRate(digits)
  {
    LeadingZeroParse("", digits);
    assert "" + "0" + digits == "0" + digits && "" + digits == digits;
  }

  /** A valid heart rate never carries a minus sign and has at least two characters. */
  lemma ValidHeartRateShape(s: string)
    requires IsValidHeartRate(s)
    ensures s[0] != '-' && |s| >= 2
  {
    SingleCharacterParse(s);
  }

  /** Any error shown disables Save, and an empty field shows no error but still disables it. */
  lemma ErrorShownDisablesSave(parse: DateTimeParser, heartRateInput: string, dateTimeInput: string)
    ensures HeartRateErrorShown(heartRateInput) ==> !SaveEnabled(parse, heartRateInput, dateTimeInput)
    ensures DateTimeErrorShown(parse, dateTimeInput) ==> !SaveEnabled(parse, heartRateInput, dateTimeInput)
    ensures !HeartRateErrorShown("") && !DateTimeErrorShown(parse, "")
    ensures !SaveEnabled(parse, "", dateTimeInput)
    ensures SaveEnabled(parse, heartRateInput, dateTimeInput) <==>
      heartRateInput != "" && dateTimeInput != "" &&
      !HeartRateErrorShown(heartRateInput) && !DateTimeErrorShown(parse, dateTimeInput)
  {
    assert ParseIntOrNull("") == None;
  }

  /** The arguments the Save handler hands to `onInsertClick`. */
  datatype InsertArgs = InsertArgs(heartRate: int, dateTime: LocalDateTime)

  /**
   * What the Save handler's body yields for the two inputs: the date-time is
   * parsed first, then `toInt()`; either may throw.
   */
  function SaveClick(parse: DateTimeParser, heartRateInput: string, dateTimeInput: string): Outcome<InsertArgs>
  {
    match parse(dateTimeInput)
    case None => Threw(Thrown(DateTimeParseException, dateTimeInput))
    case Some(t) =>
      match ParseIntOrNull(heartRateInput)
      case None => Threw(Thrown(NumberFormatException, heartRateInput))
      case Some(v) => Completed(InsertArgs(v, t))
  }

  /**
   * When Save is enabled its handler cannot throw, and it passes on a heart
   * rate in `30..250` that is the input's value, with the parsed date-time.
   */
  lemma EnabledSaveInserts(parse: DateTimeParser, heartRateInput: string, dateTimeInput: string)
    requires SaveEnabled(parse, heartRateInput, dateTimeInput)
    ensures var r := SaveClick(parse, heartRateInput, dateTimeInput);
      r.Completed? &&
      MinHeartRate <= r.value.heartRate <= MaxHeartRate &&
      Some(r.value.heartRate) == ParseIntOrNull(heartRateInput) &&
      Some(r.value.dateTime) == parse(dateTimeInput)
  {
  }

  /** What the effect asks the host to do. */
  datatype Callback = PermissionsResult | ErrorReported(exception: Thrown)

  /** The callbacks one run of the `LaunchedEffect` makes, given the stored `errorId`. */
  function EffectCallbacks(errorId: Uuid, s: UiState): seq<Callback>
  {
    (if s.Uninitialized? then [PermissionsResult] else []) +
    (if s.Error? && errorId != s.uuid then [ErrorReported(s.exception)] else [])
  }

  /** The stored `errorId` after one run of the effect. */
  function EffectErrorId(errorId: Uuid, s: UiState): Uuid
  {
    if s.Error? && errorId != s.uuid then s.uuid else errorId
  }

  /** An error is reported exactly when the state is an error whose id is not the stored one. */
  lemma EffectReportsNewErrors(errorId: Uuid, s: UiState, e: Thrown)
    ensures ErrorReported(e) in EffectCallbacks(errorId, s) <==> s.Error? && s.exception == e && s.uuid != errorId
    ensures |EffectCallbacks(errorId, s)| <= 1
    ensures s.Error? ==> EffectErrorId(errorId, s) == s.uuid
    ensures !s.Error? ==> EffectErrorId(errorId, s) == errorId
  {
  }

  /** Running the effect again on the same state reports nothing new and keeps `errorId`. */
  lemma EffectReportsOnce(errorId: Uuid, s: UiState)
    ensures var id := EffectErrorId(errorId, s);
      (forall c :: c in EffectCallbacks(id, s) ==> c == PermissionsResult) &&
      EffectErrorId(id, s) == id
  {
  }

  /** `Uninitialized` asks for the permissions result exactly once per run, and nothing else asks for it. */
  lemma EffectAsksPermissionsOnce(errorId: Uuid, s: UiState)
    ensures multiset(EffectCallbacks(errorId, s))[PermissionsResult] == if s.Uninitialized? then 1 else 0
  {
  }

  /**
   * An error whose id was not handed out when the stored `errorId` was, is
   * always reported: every `Error` the view-model produces is new to the screen.
   */
  lemma FreshErrorReported(errorId: Uuid, s: UiState, before: set<Uuid>)
    requires errorId in before && s.Error? && s.uuid !in before
    ensures EffectCallbacks(errorId, s) == [ErrorReported(s.exception)]
  {
  }

  /** What the screen shows: nothing, the permissions button, or the form and the history. */
  datatype View =
    | Blank
    | PermissionsButton
    | Form(heartRateError: bool, dateTimeError: bool, saveEnabled: bool, history: seq<Sample>)

  /** The samples of the records, in order, one history row each. */
  function History(records: seq<HeartRateRecord>): seq<Sample>
  {
    if records == [] then [] else records[0].samples + History(records[1..])
  }

  /** The history of concatenated record lists is the concatenation of their histories. */
  lemma {:induction false} HistoryAppend(a: seq<HeartRateRecord>, b: seq<HeartRateRecord>)
    ensures History(a + b) == History(a) + History(b)
    decreases |a|
  {
    if a == [] {
      assert a + b == b;
    } else {
      HistoryAppend(a[1..], b);
      assert (a + b)[0] == a[0] && (a + b)[1..] == a[1..] + b;
    }
  }

  /** A record built from one reading adds exactly one history row, carrying its heart rate. */
  lemma HistoryOfBuiltRecord(records: seq<HeartRateRecord>, heartRate: int, timestamp: LocalDateTime, zoneOffset: int)
    ensures History(records + [BuildRecord(heartRate, timestamp, zoneOffset)]) ==
      History(records) + [Sample(heartRate, ToInstantUtc(timestamp))]
  {
    HistoryAppend(records, [BuildRecord(heartRate, timestamp, zoneOffset)]);
    var one := [BuildRecord(heartRate, timestamp, zoneOffset)];
    assert one[1..] == [];
  }

  /** The screen for the given state and inputs. */
  function Render(parse: DateTimeParser, s: UiState, permissionsGranted: bool,
                  readings: seq<HeartRateRecord>, heartRateInput: string, dateTimeInput: string): (v: View)
  {
    if s == Uninitialized then Blank
    else if !permissionsGranted then PermissionsButton
    else Form(HeartRateErrorShown(heartRateInput), DateTimeErrorShown(parse, dateTimeInput),
              SaveEnabled(parse, heartRateInput, dateTimeInput), History(readings))
  }

  /**
   * Nothing is shown before the first workflow settles, the permissions
   * button only while they are missing, and Save is enabled in the form only
   * when neither field shows an error and neither is empty.
   */
  lemma RenderCases(parse: DateTimeParser, s: UiState, permissionsGranted: bool,
                    readings: seq<HeartRateRecord>, heartRateInput: string, dateTimeInput: string)
    ensures var v := Render(parse, s, permissionsGranted, readings, heartRateInput, dateTimeInput);
      (v == Blank <==> s.Uninitialized?) &&
      (v == PermissionsButton <==> !s.Uninitialized? && !permissionsGranted) &&
      (v.Form? ==> (v.saveEnabled ==> !v.heartRateError && !v.dateTimeError && heartRateInput != ""))
  {
    ErrorShownDisablesSave(parse, heartRateInput, dateTimeInput);
  }

  class HeartRateScreen {
    /** The remembered `errorId`, initially a random id of its own. */
    var errorId: Uuid
    var heartRateInput: string
    var dateTimeInput: string

    constructor (uuids: UuidSource)
      requires uuids.Valid()
      modifies uuids
      ensures uuids.Valid()
      ensures errorId !in old(uuids.issued) && uuids.issued == old(uuids.issued) + {errorId}
      ensures heartRateInput == "" && dateTimeInput == ""
    {
      var id := uuids.RandomUuid();
      errorId := id;
      heartRateInput := "";
      dateTimeInput := "";
    }

    /** The heart-rate field's `onValueChange`. */
    method OnHeartRateChange(s: string)
      modifies this`heartRateInput
      ensures heartRateInput == s
    {
      heartRateInput := s;
    }

    /** The date-time field's `onValueChange`. */
    method OnDateTimeChange(s: string)
      modifies this`dateTimeInput
      ensures dateTimeInput == s
    {
      dateTimeInput := s;
    }

    /** One run of the `LaunchedEffect` keyed on the state. */
    method RunEffect(s: UiState) returns (callbacks: seq<Callback>)
      modifies this`errorId
      ensures callbacks == EffectCallbacks(old(errorId), s)
      ensures errorId == EffectErrorId(old(errorId), s)
    {
      callbacks := [];
      if s.Uninitialized? {
        callbacks := callbacks + [PermissionsResult];
      }
      if s.Error? && errorId != s.uuid {
        callbacks := callbacks + [ErrorReported(s.exception)];
        errorId := s.uuid;
      }
    }

    /**
     * The Save button's `onClick`: hands the parsed inputs to `onInsertClick`
     * (the `Completed` result) and clears both fields; a throwing parse leaves
     * both fields as they were.
     */
    method OnSaveClick(parse: DateTimeParser) returns (r: Outcome<InsertArgs>)
      modifies this`heartRateInput, this`dateTimeInput
      ensures r == SaveClick(parse, old(heartRateInput), old(dateTimeInput))
      ensures r.Completed? ==> heartRateInput == "" && dateTimeInput == ""
      ensures r.Threw? ==> heartRateInput == old(heartRateInput) && dateTimeInput == old(dateTimeInput)
      ensures SaveEnabled(parse, old(heartRateInput), old(dateTimeInput)) ==>
        r.Completed? && MinHeartRate <= r.value.heartRate <= MaxHeartRate
    {
      var dateTime := parse(dateTimeInput);
      if dateTime.None? {
        return Threw(Thrown(DateTimeParseException, dateTimeInput));
      }
      var heartRate := ParseIntOrNull(heartRateInput);
      if heartRate.None? {
        return Threw(Thrown(NumberFormatException, heartRateInput));
      }
      r := Completed(InsertArgs(heartRate.value, dateTime.value));
      heartRateInput := "";
      dateTimeInput := "";
    }
  }
}
