/** The clock that translates between the engine's milliseconds and the system's instants.

    An instant is a number of nanoseconds since some fixed moment. */
module Time {
  import opened Prelude

  const NANOS_PER_MILLI := 1_000_000
  const NANOS_PER_SEC := 1_000_000_000
  const I64_LIMIT := 0x8000_0000_0000_0000
  const U64_SIZE := 0x1_0000_0000_0000_0000

  /** The cast `as i64` of an unsigned value. */
  function AsI64(x: nat): (r: int)
    ensures x < I64_LIMIT ==> r == x
  {
    var low := x % U64_SIZE;
    if low < I64_LIMIT then low else low - U64_SIZE
  }

  /** The cast `as u64` of a 64-bit signed value. */
  function AsU64(x: i64): (r: nat)
    ensures x >= 0 ==> r == x
    ensures x < 0 ==> r >= I64_LIMIT
  {
    if x < 0 then x + U64_SIZE else x
  }

  datatype Clock = Clock(start: nat) {

    function Origin(): nat { start }

    /** Whole milliseconds since the start, the seconds and the rest cast separately. */
    function Timestamp(now: nat): int
      requires start <= now
    {
      var elapsed := now - start;
      AsI64(elapsed / NANOS_PER_SEC * 1_000) + AsI64(elapsed % NANOS_PER_SEC / NANOS_PER_MILLI)
    }

    function Resolve(millis: i64): nat
    {
      start + AsU64(millis) * NANOS_PER_MILLI
    }
  }

  /** The timestamp is the elapsed time in milliseconds, rounded down. */
  lemma TimestampRoundsDown(clock: Clock, now: nat)
    requires clock.start <= now
    requires now - clock.start < I64_LIMIT * NANOS_PER_MILLI
    ensures var t := clock.Timestamp(now);
            t * NANOS_PER_MILLI <= now - clock.start < (t + 1) * NANOS_PER_MILLI
  {
  }

  /** A timer has run out for the engine exactly when its deadline has passed for the delay queue,
      if and only if it was not set to a negative time: the cast of a negative time gives a deadline
      that no representable clock reaches. */
  lemma TimerFidelity(clock: Clock, now: nat, millis: i64)
    requires clock.start <= now
    requires now - clock.start < I64_LIMIT * NANOS_PER_MILLI
    ensures (millis <= clock.Timestamp(now) <==> clock.Resolve(millis) <= now) <==> 0 <= millis
  {
    TimestampRoundsDown(clock, now);
  }

  /** A timer set to any time is due no earlier than one set to now. */
  lemma OriginIsEarliest(clock: Clock, millis: i64)
    ensures clock.Origin() <= clock.Resolve(millis)
  {
  }
}
