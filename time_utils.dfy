/** Clock predicates. The current time is a parameter instead of a clock read. */
module TimeUtils {
  import opened Common

  /** A price is stale when its age (now - last_update) is strictly greater than
      max_age; an age equal to max_age is still fresh. An age that does not fit
      in i64 is reported as InvalidTimestamp. */
  function IsOracleStale(now: I64, lastUpdate: I64, maxAgeSeconds: I64): (r: Result<bool>)
    ensures r.Failure? <==> !InI64(now - lastUpdate)
    ensures r.Failure? ==> r.error == Math(MathError.InvalidTimestamp)
    ensures r.Success? ==> (r.value <==> now - lastUpdate > maxAgeSeconds)
  {
    if !InI64(now - lastUpdate) then Failure(Math(MathError.InvalidTimestamp))
    else Success(now - lastUpdate > maxAgeSeconds)
  }

  /** A price exactly max_age old is fresh; one second older is stale. */
  lemma StalenessBoundary(lastUpdate: I64, maxAgeSeconds: I64)
    requires 0 <= maxAgeSeconds < I64_MAX && lastUpdate + maxAgeSeconds + 1 <= I64_MAX
    ensures IsOracleStale(lastUpdate + maxAgeSeconds, lastUpdate, maxAgeSeconds) == Success(false)
    ensures IsOracleStale(lastUpdate + maxAgeSeconds + 1, lastUpdate, maxAgeSeconds) == Success(true)
  {
  }

  /** Once stale, a price stays stale as time goes on (until it is refreshed). */
  lemma StalenessPersists(now1: I64, now2: I64, lastUpdate: I64, maxAgeSeconds: I64)
    requires now1 <= now2 && InI64(now2 - lastUpdate)
    requires IsOracleStale(now1, lastUpdate, maxAgeSeconds) == Success(true)
    ensures IsOracleStale(now2, lastUpdate, maxAgeSeconds) == Success(true)
  {
  }

  /** Vesting is complete once now reaches start + duration. An end time that
      does not fit in i64 is reported as InvalidTimestamp. */
  function IsVestingComplete(now: I64, startTime: I64, durationSeconds: I64): (r: Result<bool>)
    ensures r.Failure? <==> !InI64(startTime + durationSeconds)
    ensures r.Failure? ==> r.error == Math(MathError.InvalidTimestamp)
    ensures r.Success? ==> (r.value <==> now >= startTime + durationSeconds)
  {
    if !InI64(startTime + durationSeconds) then Failure(Math(MathError.InvalidTimestamp))
    else Success(now >= startTime + durationSeconds)
  }

  /** Once complete, vesting stays complete. */
  lemma VestingCompletionPersists(now1: I64, now2: I64, startTime: I64, durationSeconds: I64)
    requires now1 <= now2
    requires IsVestingComplete(now1, startTime, durationSeconds) == Success(true)
    ensures IsVestingComplete(now2, startTime, durationSeconds) == Success(true)
  {
  }
}
