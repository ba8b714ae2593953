/** Wall-clock instants as Python `datetime` values (naive, local time):
    the fields `strftime` formats and the arithmetic `now - start_time`
    performs. The clock is never read here: every instant is a parameter. */
module Clock {
  import opened Strings

  datatype DateTime = DateTime(year: int, month: int, day: int,
                               hour: int, minute: int, second: int, microsecond: int)

  predicate IsLeapYear(y: int) {
    (y % 4 == 0 && y % 100 != 0) || y % 400 == 0
  }

  function DaysInMonth(y: int, m: int): int
    requires 1 <= m <= 12
  {
    if m == 2 then (if IsLeapYear(y) then 29 else 28)
    else if m == 4 || m == 6 || m == 9 || m == 11 then 30
    else 31
  }

  /** The ranges `datetime` enforces on its fields. */
  predicate ValidDateTime(t: DateTime) {
    && 1 <= t.year <= 9999
    && 1 <= t.month <= 12
    && 1 <= t.day <= DaysInMonth(t.year, t.month)
    && 0 <= t.hour < 24 && 0 <= t.minute < 60 && 0 <= t.second < 60
    && 0 <= t.microsecond < 1000000
  }

  /** A value `datetime.now()` can return. */
  type Instant = t: DateTime | ValidDateTime(t) witness DateTime(1970, 1, 1, 0, 0, 0, 0)

  /** Days from 1970-01-01 to the given proleptic Gregorian date. */
  function DaysFromCivil(y: int, m: int, d: int): int
    requires 1 <= m <= 12
  {
    var y' := if m <= 2 then y - 1 else y;
    var era := y' / 400;
    var yoe := y' - era * 400;
    var mp := if m > 2 then m - 3 else m + 9;
    var doy := (153 * mp + 2) / 5 + d - 1;
    var doe := yoe * 365 + yoe / 4 - yoe / 100 + doy;
    era * 146097 + doe - 719468
  }

  /** Microseconds since 1970-01-01 00:00:00 of the same clock. */
  function EpochMicros(t: Instant): int {
    var days := DaysFromCivil(t.year, t.month, t.day);
    var secs := ((days * 24 + t.hour) * 60 + t.minute) * 60 + t.second;
    secs * 1000000 + t.microsecond
  }

  /** `(later - earlier)` as a `timedelta`, in microseconds. */
  function ElapsedMicros(earlier: Instant, later: Instant): int {
    EpochMicros(later) - EpochMicros(earlier)
  }

  const MICROS_PER_MINUTE: int := 60000000

  /** `timedelta(minutes=10)`. */
  const TEN_MINUTES: int := 10 * MICROS_PER_MINUTE

  /** `(later - earlier).total_seconds() / 60`. */
  function ElapsedMinutes(earlier: Instant, later: Instant): real {
    ElapsedMicros(earlier, later) as real / MICROS_PER_MINUTE as real
  }

  /** `t.strftime('%Y%m%d_%H%M%S')`. */
  function Stamp(t: Instant): string {
    PadDecimal(t.year, 4) + PadDecimal(t.month, 2) + PadDecimal(t.day, 2) + "_"
    + PadDecimal(t.hour, 2) + PadDecimal(t.minute, 2) + PadDecimal(t.second, 2)
  }

  /** The stamp is fifteen characters: eight digits, `_`, six digits. */
  lemma StampShape(t: Instant)
    ensures |Stamp(t)| == 15 && Stamp(t)[8] == '_'
    ensures forall i :: 0 <= i < 15 && i != 8 ==> IsDigit(Stamp(t)[i])
  {
    PadDecimalExact(t.year, 4);
    PadDecimalExact(t.month, 2);
    PadDecimalExact(t.day, 2);
    PadDecimalExact(t.hour, 2);
    PadDecimalExact(t.minute, 2);
    PadDecimalExact(t.second, 2);
  }
}
