/**
 Instants as whole nanoseconds since Go's zero time, 0001-01-01T00:00:00Z; protobuf timestamps; and
 the whole milliseconds to which a BSON datetime (UTC datetime element of BSON 1.1) rounds down.
 */
module GoTime {
  import opened Wrappers

  type Instant = int

  const ZERO_INSTANT: Instant := 0
  const NANOS_PER_SECOND := 1_000_000_000
  const NANOS_PER_MILLI := 1_000_000
  const UNIX_EPOCH: Instant := 62_135_596_800 * NANOS_PER_SECOND

  datatype Timestamp = Timestamp(seconds: int, nanos: int)

  /** `AsTime`, which reads a nil timestamp as the Unix epoch. */
  function AsTime(ts: Option<Timestamp>): Instant {
    match ts
    case None => UNIX_EPOCH
    case Some(t) => UNIX_EPOCH + t.seconds * NANOS_PER_SECOND + t.nanos
  }

  /** `timestamppb.New`. */
  function NewTimestamp(t: Instant): Timestamp {
    Timestamp((t - UNIX_EPOCH) / NANOS_PER_SECOND, (t - UNIX_EPOCH) % NANOS_PER_SECOND)
  }

  /** A timestamp whose nanosecond part is in the range its definition asks for. */
  predicate Normalized(ts: Timestamp) {
    0 <= ts.nanos < NANOS_PER_SECOND
  }

  predicate WholeMillis(t: Instant) {
    t % NANOS_PER_MILLI == 0
  }

  /** What is left of an instant after it has been stored and read back. */
  function Stored(t: Instant): Instant {
    t - t % NANOS_PER_MILLI
  }

  lemma TimestampRoundTrip(t: Instant, ts: Timestamp)
    ensures AsTime(Some(NewTimestamp(t))) == t
    ensures NewTimestamp(AsTime(Some(ts))) == ts <==> Normalized(ts)
    ensures Normalized(NewTimestamp(t))
  {
  }

  /** A timestamp names a whole millisecond exactly when its nanoseconds do. */
  lemma WholeMillisOfTimestamp(ts: Timestamp)
    ensures WholeMillis(AsTime(Some(ts))) <==> ts.nanos % NANOS_PER_MILLI == 0
  {
    var millis := 1000 * (62_135_596_800 + ts.seconds);
    assert AsTime(Some(ts)) == NANOS_PER_MILLI * millis + ts.nanos;
  }

  lemma StoredKeepsExactlyWholeMillis(t: Instant)
    ensures Stored(Stored(t)) == Stored(t)
    ensures Stored(t) == t <==> WholeMillis(t)
    ensures 0 <= t - Stored(t) < 1_000_000 && WholeMillis(Stored(t))
  {
  }

  /** The epoch is where a nil timestamp reads to, 62135596800 seconds after the zero instant. */
  lemma TimestampOrigins()
    ensures AsTime(None) == AsTime(Some(Timestamp(0, 0)))
    ensures AsTime(Some(Timestamp(-62135596800, 0))) == ZERO_INSTANT
  {
  }
}
