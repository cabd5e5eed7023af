/**
  Conversion of a capture time into the protobuf `Timestamp` carried by
  every frame: whole seconds as `i64` and the sub-second remainder in
  nanoseconds as `i32`.
 */
module Timestamp {

  const NanosPerSecond: nat := 1_000_000_000

  /** A `std::time::Duration` holds `u64` seconds and fewer than 10^9 nanoseconds,
      so its total nanosecond count stays below this bound. */
  const DurationNanosBound: nat := 0x1_0000_0000_0000_0000 * NanosPerSecond

  const I64Bound: int := 0x8000_0000_0000_0000
  const I32Bound: int := 0x8000_0000

  datatype ProtoTime = ProtoTime(seconds: int, nanos: int)

  /** The `as i64` cast of a `u64`: two's-complement reinterpretation. */
  function U64AsI64(u: nat): (i: int)
    requires u < 2 * I64Bound
    ensures -I64Bound <= i < I64Bound
    ensures i % (2 * I64Bound) == u
  {
    if u < I64Bound then u else u - 2 * I64Bound
  }

  /** Seconds and nanoseconds a proto timestamp denotes, as one count. */
  function TotalNanos(t: ProtoTime): int
  {
    t.seconds * NanosPerSecond + t.nanos
  }

  /** `system_time_to_proto_time` applied to the duration since the Unix
      epoch, given as `elapsed` nanoseconds: `as_secs() as i64` and
      `subsec_nanos() as i32`. */
  function ToProtoTime(elapsed: nat): (t: ProtoTime)
    requires elapsed < DurationNanosBound
    ensures 0 <= t.nanos < NanosPerSecond && t.nanos < I32Bound
    ensures -I64Bound <= t.seconds < I64Bound
    ensures elapsed < I64Bound * NanosPerSecond ==> t.seconds >= 0 && TotalNanos(t) == elapsed
  {
    var secs := elapsed / NanosPerSecond;
    var nanos := elapsed % NanosPerSecond;
    ProtoTime(U64AsI64(secs), nanos)
  }

  /** Splitting is the inverse of counting: a well-formed non-negative
      timestamp is split back into itself. */
  lemma {:induction false} ToProtoTimeOfTotal(t: ProtoTime)
    requires 0 <= t.seconds < I64Bound && 0 <= t.nanos < NanosPerSecond
    ensures TotalNanos(t) >= 0 && TotalNanos(t) < DurationNanosBound
    ensures ToProtoTime(TotalNanos(t)) == t
  {
    var total := TotalNanos(t);
    var q, r := total / NanosPerSecond, total % NanosPerSecond;
    assert total == q * NanosPerSecond + r;
    assert (t.seconds - q) * NanosPerSecond == r - t.nanos;
  }
}
