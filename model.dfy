/** The sensor record stored in and fetched from the external store. */
module Model {

  /** One gas-concentration sample: when it was taken (milliseconds since the
      Unix epoch, UTC) and the measured concentration in ppm. */
  datatype Reading = Reading(timestampMillis: int, value: real)

  /** Whole seconds since the epoch of a millisecond timestamp, rounded toward
      negative infinity, as a calendar date-time reports them. */
  function EpochSeconds(millis: int): (s: int)
    ensures s * 1000 <= millis < s * 1000 + 1000
  {
    millis / 1000
  }
}
