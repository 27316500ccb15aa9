/**
 * The Health Connect side of the heart-rate screen: the record values the
 * view-model builds and reads, the permissions it asks for, and the gateway
 * (`HealthConnectManager`) whose answers are inputs of the model.
 */
module HealthConnect {
  import opened JavaTime
  import opened Exceptions

  /** One `HeartRateRecord.Sample`. */
  datatype Sample = Sample(beatsPerMinute: int, time: Instant)

  /** A `HeartRateRecord`; zone offsets are in seconds east of UTC. */
  datatype HeartRateRecord = HeartRateRecord(
    startTime: Instant, startZoneOffset: int,
    endTime: Instant, endZoneOffset: int,
    samples: seq<Sample>)

  /** The interval is not reversed and every sample lies inside it. */
  predicate WellFormedRecord(r: HeartRateRecord)
  {
    r.startTime <= r.endTime &&
    forall i :: 0 <= i < |r.samples| ==> r.startTime <= r.samples[i].time <= r.endTime
  }

  /** `HealthPermission.getReadPermission` / `getWritePermission` of `HeartRateRecord`. */
  datatype Permission = ReadHeartRate | WriteHeartRate

  /** What a gateway call finished with: a value, or a thrown exception. */
  datatype Outcome<+T> = Completed(value: T) | Threw(exception: Thrown)

  /** One call made on the gateway, with its arguments. */
  datatype GatewayCall =
    | HasAllPermissionsCall(permissions: set<Permission>)
    | ReadHeartRateDataCall(start: Instant, end: Instant)
    | WriteHeartRateRecordCall(record: HeartRateRecord)

  /**
   * The platform's health-data client.  What it answers is decided outside
   * this model, so each method is handed the answer and records the call.
   */
  class HealthConnectGateway {
    /** Every call made so far, oldest first. */
    var calls: seq<GatewayCall>

    constructor ()
      ensures calls == []
    {
      calls := [];
    }

    method HasAllPermissions(permissions: set<Permission>, answer: Outcome<bool>) returns (r: Outcome<bool>)
      modifies this
      ensures calls == old(calls) + [HasAllPermissionsCall(permissions)]
      ensures r == answer
    {
      calls := calls + [HasAllPermissionsCall(permissions)];
      r := answer;
    }

    method ReadHeartRateData(start: Instant, end: Instant, answer: Outcome<seq<HeartRateRecord>>)
      returns (r: Outcome<seq<HeartRateRecord>>)
      modifies this
      ensures calls == old(calls) + [ReadHeartRateDataCall(start, end)]
      ensures r == answer
    {
      calls := calls + [ReadHeartRateDataCall(start, end)];
      r := answer;
    }

    method WriteHeartRateRecord(record: HeartRateRecord, answer: Outcome<()>) returns (r: Outcome<()>)
      modifies this
      ensures calls == old(calls) + [WriteHeartRateRecordCall(record)]
      ensures r == answer
    {
      calls := calls + [WriteHeartRateRecordCall(record)];
      r := answer;
    }
  }
}
