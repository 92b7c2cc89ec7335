/** Canonical points in time, as produced by the timestamp normaliser of the pipeline. */
module Timestamps {
  import opened Results

  /** A point in time with the wall clock it was written in. `micros` counts microseconds since
      1970-01-01T00:00:00 UTC (Python's datetime has microsecond resolution; a naive datetime is
      read as UTC); `offset` is the UTC offset of its wall clock in microseconds, 0 for a naive
      datetime. Ordering looks at the instant, hour and weekday at the wall clock, as Python does
      for aware datetimes. */
  datatype Timestamp = Timestamp(micros: int, offset: int)

  const MicrosPerHour: int := 3_600_000_000
  const MicrosPerDay: int := 86_400_000_000

  /** The timestamp normaliser: a partial map from export strings to timestamps. */
  type Parser = string -> Option<Timestamp>

  /** Strict chronological order (Python's `<` on datetimes). */
  predicate Before(a: Timestamp, b: Timestamp) {
    a.micros < b.micros
  }

  /** Microseconds since 1970-01-01T00:00:00 on the timestamp's own wall clock. */
  function WallMicros(t: Timestamp): int {
    t.micros + t.offset
  }

  /** Hour of the day on the wall clock, 0..23 (`datetime.hour`). Dafny's `/` floors, as
      Python's does here. */
  function Hour(t: Timestamp): (h: int)
    ensures 0 <= h < 24
    ensures h * MicrosPerHour <= WallMicros(t) % MicrosPerDay < (h + 1) * MicrosPerHour
  {
    (WallMicros(t) / MicrosPerHour) % 24
  }

  /** Day of the week on the wall clock, Monday = 0 .. Sunday = 6 (`datetime.weekday()`);
      1970-01-01 was a Thursday. */
  function Weekday(t: Timestamp): (d: int)
    ensures 0 <= d < 7
    ensures (WallMicros(t) / MicrosPerDay + 3 - d) % 7 == 0
  {
    (WallMicros(t) / MicrosPerDay + 3) % 7
  }

  /** 2024-01-01T23:30:00+05:00, 18:30 UTC: a Monday at 23 on its own wall clock. */
  lemma WallClockExample()
    ensures var t := Timestamp(19723 * MicrosPerDay + 18 * MicrosPerHour + 1_800_000_000, 5 * MicrosPerHour);
      Hour(t) == 23 && Weekday(t) == 0
  {
    var t := Timestamp(19723 * MicrosPerDay + 18 * MicrosPerHour + 1_800_000_000, 5 * MicrosPerHour);
    assert WallMicros(t) == 19723 * MicrosPerDay + 23 * MicrosPerHour + 1_800_000_000;
  }
}
