/**
 * `HeartRateViewModel`: three observable cells (`permissionsGranted`,
 * `heartRateReadings`, `uiState`) updated by two workflows that are both run
 * through the same permission-gated try-expression.
 */
module ViewModel {
  import opened Wrappers
  import opened Exceptions
  import opened JavaTime
  import opened HealthConnect
  import opened Uuids

  /** The screen's state: not loaded yet, settled, or settled on a caught exception tagged with a fresh id. */
  datatype UiState = Uninitialized | Done | Error(exception: Thrown, uuid: Uuid)

  /** Read and write access to heart-rate records. */
  const Permissions: set<Permission> := {ReadHeartRate, WriteHeartRate}

  /** How far back `readHeartRateData` looks. */
  const HistoryDays: int := 30

  /** The `[start, end]` window `readHeartRateData` queries when the clock reads `now`. */
  function ReadWindow(now: Instant): (w: (Instant, Instant))
    ensures w.1 == now && w.0 < w.1
    ensures w.1 - w.0 == HistoryDays * SecondsPerDay
  {
    (MinusDays(now, HistoryDays), now)
  }

  /** The record `insertHeartRate` writes for one reading entered at local date-time `timestamp`. */
  function BuildRecord(heartRate: int, timestamp: LocalDateTime, zoneOffset: int): HeartRateRecord
  {
    var at := ToInstantUtc(timestamp);
    HeartRateRecord(at, zoneOffset, at, zoneOffset, [Sample(heartRate, at)])
  }

  /**
   * The record is an instant reading: start, end and its single sample all
   * sit at `timestamp` read as UTC, the sample carries `heartRate`, and the
   * record is well formed.
   */
  lemma BuildRecordShape(heartRate: int, timestamp: LocalDateTime, zoneOffset: int)
    ensures var r := BuildRecord(heartRate, timestamp, zoneOffset);
      WellFormedRecord(r) &&
      r.startTime == r.endTime == ToInstantUtc(timestamp) &&
      r.startZoneOffset == r.endZoneOffset == zoneOffset &&
      |r.samples| == 1 &&
      r.samples[0].beatsPerMinute == heartRate && r.samples[0].time == r.startTime
  {
  }

  /**
   * The block handed to the workflow, with the gateway's answer to the one
   * call it makes.
   */
  datatype Action =
    | LoadReadings(now: Instant, readAnswer: Outcome<seq<HeartRateRecord>>)
    | InsertReading(heartRate: int, timestamp: LocalDateTime, zoneOffset: int, writeAnswer: Outcome<()>)

  /** The gateway calls the block makes. */
  function ActionCalls(action: Action): seq<GatewayCall>
  {
    match action
    case LoadReadings(now, _) => [ReadHeartRateDataCall(ReadWindow(now).0, ReadWindow(now).1)]
    case InsertReading(hr, ts, zo, _) => [WriteHeartRateRecordCall(BuildRecord(hr, ts, zo))]
  }

  /** The exception the block throws, if any. */
  function ActionRaised(action: Action): Option<Thrown>
  {
    match action
    case LoadReadings(_, answer) => if answer.Threw? then Some(answer.exception) else None
    case InsertReading(_, _, _, answer) => if answer.Threw? then Some(answer.exception) else None
  }

  class HeartRateViewModel {
    const gateway: HealthConnectGateway
    const uuids: UuidSource

    var permissionsGranted: bool
    var heartRateReadings: seq<HeartRateRecord>
    var uiState: UiState

    /** An error state carries an id the uuid source has handed out. */
    ghost predicate Valid()
      reads this, uuids
    {
      uuids.Valid() && (uiState.Error? ==> uiState.uuid in uuids.issued)
    }

    constructor (gateway: HealthConnectGateway, uuids: UuidSource)
      requires uuids.Valid()
      ensures Valid()
      ensures this.gateway == gateway && this.uuids == uuids
      ensures !permissionsGranted && heartRateReadings == [] && uiState == Uninitialized
    {
      this.gateway := gateway;
      this.uuids := uuids;
      permissionsGranted := false;
      heartRateReadings := [];
      uiState := Uninitialized;
    }

    /** Loads the last 30 days of readings, if permitted. */
    method InitialLoad(permissionAnswer: Outcome<bool>, now: Instant, readAnswer: Outcome<seq<HeartRateRecord>>)
      returns (escaped: Option<Thrown>)
      requires Valid()
      modifies this, gateway, uuids
      ensures Valid() && old(uuids.issued) <= uuids.issued
      ensures uiState.Uninitialized? ==> old(uiState).Uninitialized?
      ensures permissionAnswer.Threw? ==>
        escaped == Some(permissionAnswer.exception) && uiState == old(uiState) &&
        permissionsGranted == old(permissionsGranted) &&
        gateway.calls == old(gateway.calls) + [HasAllPermissionsCall(Permissions)]
      ensures permissionAnswer == Completed(false) ==>
        !permissionsGranted && uiState == Done && escaped == None &&
        gateway.calls == old(gateway.calls) + [HasAllPermissionsCall(Permissions)]
      ensures permissionAnswer == Completed(true) ==>
        permissionsGranted &&
        gateway.calls == old(gateway.calls) + [HasAllPermissionsCall(Permissions), ReadHeartRateDataCall(now - 30 * 86400, now)]
      ensures permissionAnswer == Completed(true) && readAnswer.Completed? ==> uiState == Done && escaped == None
      ensures permissionAnswer == Completed(true) && readAnswer.Threw? ==>
        if CaughtByWorkflow(readAnswer.exception.cls) then
          uiState.Error? && uiState.exception == readAnswer.exception && uiState.uuid !in old(uuids.issued) && escaped == None
        else
          uiState == old(uiState) && escaped == Some(readAnswer.exception)
      ensures heartRateReadings ==
        if permissionAnswer == Completed(true) && readAnswer.Completed? then readAnswer.value else old(heartRateReadings)
    {
      escaped := TryWithPermissionsCheck(permissionAnswer, LoadReadings(now, readAnswer));
    }

    /** Writes one reading taken at local date-time `timestamp`, if permitted; the readings are not re-read. */
    method InsertHeartRate(heartRate: int, timestamp: LocalDateTime, zoneOffset: int,
                           permissionAnswer: Outcome<bool>, writeAnswer: Outcome<()>)
      returns (escaped: Option<Thrown>)
      requires Valid()
      modifies this, gateway, uuids
      ensures Valid() && old(uuids.issued) <= uuids.issued
      ensures heartRateReadings == old(heartRateReadings)
      ensures uiState.Uninitialized? ==> old(uiState).Uninitialized?
      ensures permissionAnswer.Threw? ==>
        escaped == Some(permissionAnswer.exception) && uiState == old(uiState) &&
        permissionsGranted == old(permissionsGranted) &&
        gateway.calls == old(gateway.calls) + [HasAllPermissionsCall(Permissions)]
      ensures permissionAnswer == Completed(false) ==>
        !permissionsGranted && uiState == Done && escaped == None &&
        gateway.calls == old(gateway.calls) + [HasAllPermissionsCall(Permissions)]
      ensures permissionAnswer == Completed(true) ==>
        permissionsGranted &&
        gateway.calls == old(gateway.calls) +
          [HasAllPermissionsCall(Permissions), WriteHeartRateRecordCall(BuildRecord(heartRate, timestamp, zoneOffset))]
      ensures permissionAnswer == Completed(true) && writeAnswer.Completed? ==> uiState == Done && escaped == None
      ensures permissionAnswer == Completed(true) && writeAnswer.Threw? ==>
        if CaughtByWorkflow(writeAnswer.exception.cls) then
          uiState.Error? && uiState.exception == writeAnswer.exception && uiState.uuid !in old(uuids.issued) && escaped == None
        else
          uiState == old(uiState) && escaped == Some(writeAnswer.exception)
    {
      escaped := TryWithPermissionsCheck(permissionAnswer, InsertReading(heartRate, timestamp, zoneOffset, writeAnswer));
    }

    /** Replaces the readings with what the gateway returns for the last 30 days. */
    method ReadHeartRateData(now: Instant, answer: Outcome<seq<HeartRateRecord>>) returns (raised: Option<Thrown>)
      modifies this`heartRateReadings, gateway
      ensures gateway.calls == old(gateway.calls) + [ReadHeartRateDataCall(ReadWindow(now).0, now)]
      ensures raised == if answer.Threw? then Some(answer.exception) else None
      ensures heartRateReadings == if answer.Completed? then answer.value else old(heartRateReadings)
    {
      var window := ReadWindow(now);
      var r := gateway.ReadHeartRateData(window.0, window.1, answer);
      match r
      case Completed(records) =>
        heartRateReadings := records;
        raised := None;
      case Threw(e) =>
        raised := Some(e);
    }

    /** Runs the block: one gateway call, and for a load the readings update. */
    method RunAction(action: Action) returns (raised: Option<Thrown>)
      modifies this`heartRateReadings, gateway
      ensures gateway.calls == old(gateway.calls) + ActionCalls(action)
      ensures raised == ActionRaised(action)
      ensures heartRateReadings ==
        if action.LoadReadings? && action.readAnswer.Completed? then action.readAnswer.value else old(heartRateReadings)
    {
      match action
      case LoadReadings(now, answer) =>
        raised := ReadHeartRateData(now, answer);
      case InsertReading(heartRate, timestamp, zoneOffset, answer) =>
        var record := BuildRecord(heartRate, timestamp, zoneOffset);
        var r := gateway.WriteHeartRateRecord(record, answer);
        raised := if r.Threw? then Some(r.exception) else None;
    }

    /**
     * Asks the gateway for the permissions and stores the answer; runs the
     * block only when they are granted; then settles `uiState` on `Done`, or
     * on `Error` with a fresh id for the four caught classes.  Any other
     * exception, and any exception from the permission query, escapes and
     * leaves `uiState` as it was.
     */
    method TryWithPermissionsCheck(permissionAnswer: Outcome<bool>, action: Action) returns (escaped: Option<Thrown>)
      requires Valid()
      modifies this, gateway, uuids
      ensures Valid()
      ensures uiState.Uninitialized? ==> old(uiState).Uninitialized?
      ensures permissionAnswer.Threw? ==>
        escaped == Some(permissionAnswer.exception) &&
        permissionsGranted == old(permissionsGranted) && uiState == old(uiState) &&
        gateway.calls == old(gateway.calls) + [HasAllPermissionsCall(Permissions)] &&
        uuids.issued == old(uuids.issued)
      ensures permissionAnswer.Completed? ==>
        permissionsGranted == permissionAnswer.value &&
        gateway.calls == old(gateway.calls) + [HasAllPermissionsCall(Permissions)] +
          (if permissionAnswer.value then ActionCalls(action) else [])
      ensures permissionAnswer.Completed? ==>
        match (if permissionAnswer.value then ActionRaised(action) else None)
        case None =>
          uiState == Done && escaped == None && uuids.issued == old(uuids.issued)
        case Some(e) =>
          if CaughtByWorkflow(e.cls) then
            uiState.Error? && uiState.exception == e && uiState.uuid !in old(uuids.issued) &&
            uuids.issued == old(uuids.issued) + {uiState.uuid} && escaped == None
          else
            uiState == old(uiState) && escaped == Some(e) && uuids.issued == old(uuids.issued)
      ensures heartRateReadings ==
        if permissionAnswer == Completed(true) && action.LoadReadings? && action.readAnswer.Completed?
        then action.readAnswer.value else old(heartRateReadings)
    {
      var granted := gateway.HasAllPermissions(Permissions, permissionAnswer);
      if granted.Threw? {
        return Some(granted.exception);
      }
      permissionsGranted := granted.value;
      var raised: Option<Thrown> := None;
      if permissionsGranted {
        raised := RunAction(action);
      }
      match raised
      case None =>
        uiState := Done;
        escaped := None;
      case Some(e) =>
        if CaughtByWorkflow(e.cls) {
          var id := uuids.RandomUuid();
          uiState := UiState.Error(e, id);
          escaped := None;
        } else {
          escaped := Some(e);
        }
    }
  }
}
