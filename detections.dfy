/**
  The stored snapshot record (`Detection`), the three decoding helpers that turn a
  malformed blob into an empty map, the `yyyy-MM-dd HH:mm:ss` date parser, and the Java
  integer operations the analytics rely on (truncating division and remainder, the
  `long` to `int` narrowing of `intValue()`, and decimal rendering of numbers).
*/
module Detections {
  import opened Wrappers

  /** A decoded `objectsTotal` blob: vehicle type to count. */
  type Counts = map<string, int>
  /** A decoded `objectsByLane` blob: lane to (vehicle type to count). */
  type LaneCounts = map<string, map<string, int>>
  /** A decoded `avgSpeedByLane` blob: lane to average speed in km/h. */
  type LaneSpeeds = map<string, real>

  /**
    One stored snapshot. Each blob is given already decoded: `None` stands for the
    blob on which the JSON decoder throws.
  */
  datatype Detection = Detection(
    id: int,
    timestampMs: int,
    date: string,
    objectsTotal: Option<Counts>,
    objectsByLane: Option<LaneCounts>,
    avgSpeedByLane: Option<LaneSpeeds>)

  /** `parseObjectsTotal`: the decoded map, or the empty map when decoding fails. */
  function ParseObjectsTotal(d: Detection): Counts {
    d.objectsTotal.GetOr(map[])
  }

  /** `parseObjectsByLane`: the decoded map, or the empty map when decoding fails. */
  function ParseObjectsByLane(d: Detection): LaneCounts {
    d.objectsByLane.GetOr(map[])
  }

  /** `parseAvgSpeedByLane`: the decoded map, or the empty map when decoding fails. */
  function ParseAvgSpeedByLane(d: Detection): LaneSpeeds {
    d.avgSpeedByLane.GetOr(map[])
  }

  // ---------------------------------------------------------------------------
  // Java integer arithmetic

  /** Java `int` division: truncates toward zero. */
  function JavaDiv(a: int, b: int): int
    requires b > 0
  {
    if a >= 0 then a / b else -((-a) / b)
  }

  /** Java `%`: the remainder takes the sign of the dividend. */
  function JavaRem(a: int, b: int): int
    requires b > 0
  {
    if a >= 0 then a % b else -((-a) % b)
  }

  /**
    Java's `%` leaves a remainder smaller than the divisor, with the dividend's sign,
    and `(a / b) * b + a % b == a` holds as the Java language requires.
  */
  lemma JavaRemFacts(a: int, b: int)
    requires b > 0
    ensures -b < JavaRem(a, b) < b
    ensures a >= 0 ==> JavaRem(a, b) >= 0
    ensures a < 0 ==> JavaRem(a, b) <= 0
    ensures JavaDiv(a, b) * b + JavaRem(a, b) == a
  {
    if a < 0 {
      var q := (-a) / b;
      assert -a == q * b + (-a) % b;
      assert JavaDiv(a, b) * b == -(q * b);
    }
  }

  const TWO_POW_31: int := 0x8000_0000
  const TWO_POW_32: int := 0x1_0000_0000

  /** `Long.intValue()`: keeps the low 32 bits, read as two's complement. */
  function IntValue(x: int): int {
    (x + TWO_POW_31) % TWO_POW_32 - TWO_POW_31
  }

  /** The narrowed value is a Java `int` congruent to the original, and equal to it when it fits. */
  lemma IntValueFacts(x: int)
    ensures -TWO_POW_31 <= IntValue(x) < TWO_POW_31
    ensures x - IntValue(x) == ((x + TWO_POW_31) / TWO_POW_32) * TWO_POW_32
    ensures -TWO_POW_31 <= x < TWO_POW_31 ==> IntValue(x) == x
  {
    var q := (x + TWO_POW_31) / TWO_POW_32;
    assert x + TWO_POW_31 == q * TWO_POW_32 + (x + TWO_POW_31) % TWO_POW_32;
  }

  // ---------------------------------------------------------------------------
  // Decimal rendering

  /** The character of decimal digit `d`. */
  function DigitChar(d: int): (c: char)
    requires 0 <= d < 10
    ensures IsDigit(c) && DigitValue(c) == d
  {
    (d + '0' as int) as char
  }

  predicate IsDigit(c: char) {
    '0' <= c <= '9'
  }

  function DigitValue(c: char): int
    requires IsDigit(c)
  {
    c as int - '0' as int
  }

  /** `Integer.toString` of a non-negative number, without leading zeros. */
  function NatToString(n: nat): string
    decreases n
  {
    if n < 10 then [DigitChar(n)] else NatToString(n / 10) + [DigitChar(n % 10)]
  }

  /** Below 100 a number has one digit, or two: its tens and its units. */
  lemma NatToStringBelow100(n: nat)
    requires n < 100
    ensures NatToString(n) == if n < 10 then [DigitChar(n)] else [DigitChar(n / 10), DigitChar(n % 10)]
  {
    if n >= 10 {
      assert NatToString(n / 10) == [DigitChar(n / 10)];
    }
  }

  /** `Integer.toString` / string concatenation of an `int` or `long`. */
  function IntToString(i: int): string {
    if i < 0 then "-" + NatToString(-i) else NatToString(i)
  }

  /** A number below 100 as exactly two digits, as `%02d` renders it. */
  function TwoDigits(n: nat): string
    requires n < 100
  {
    [DigitChar(n / 10), DigitChar(n % 10)]
  }

  /** A year below 10000 as exactly four digits, as `LocalDate.toString()` renders it. */
  function FourDigits(n: nat): string
    requires n < 10000
  {
    TwoDigits(n / 100) + TwoDigits(n % 100)
  }

  // ---------------------------------------------------------------------------
  // `LocalDateTime.parse(date, ofPattern("yyyy-MM-dd HH:mm:ss"))`

  datatype DateTime = DateTime(year: int, month: int, day: int, hour: int, minute: int, second: int)

  predicate IsLeapYear(y: int) {
    y % 4 == 0 && (y % 100 != 0 || y % 400 == 0)
  }

  function DaysInMonth(year: int, month: int): int
    requires 1 <= month <= 12
  {
    if month == 2 then (if IsLeapYear(year) then 29 else 28)
    else if month == 4 || month == 6 || month == 9 || month == 11 then 30
    else 31
  }

  /** The number written by the digits `s[i..j]`. */
  function DigitsValue(s: string, i: nat, j: nat): nat
    requires i <= j <= |s|
    requires forall k :: i <= k < j ==> IsDigit(s[k])
    decreases j - i
  {
    if i == j then 0 else DigitsValue(s, i, j - 1) * 10 + DigitValue(s[j - 1])
  }

  /** The positions of `yyyy-MM-dd HH:mm:ss` that hold digits. */
  predicate IsDigitPosition(k: int) {
    k != 4 && k != 7 && k != 10 && k != 13 && k != 16
  }

  /** `s` has the shape `dddd-dd-dd dd:dd:dd`. */
  predicate HasDateTimeLayout(s: string) {
    && |s| == 19
    && s[4] == '-' && s[7] == '-' && s[10] == ' ' && s[13] == ':' && s[16] == ':'
    && forall k :: 0 <= k < 19 && IsDigitPosition(k) ==> IsDigit(s[k])
  }

  /**
    The parse with the formatter's default (smart) resolution: year-of-era from 1,
    month 1..12, day-of-month 1..31 moved back to the last day of a shorter month,
    hour 0..23, minute and second 0..59. `None` is the `DateTimeParseException`.
  */
  function ParseDateTime(s: string): (r: Option<DateTime>)
    ensures r.Some? ==> 0 <= r.value.hour < 24 && 1 <= r.value.year < 10000
    ensures r.Some? ==> 1 <= r.value.month <= 12 && 1 <= r.value.day <= DaysInMonth(r.value.year, r.value.month)
  {
    if !HasDateTimeLayout(s) then None
    else
      var year := DigitsValue(s, 0, 4);
      var month := DigitsValue(s, 5, 7);
      var day := DigitsValue(s, 8, 10);
      var hour := DigitsValue(s, 11, 13);
      var minute := DigitsValue(s, 14, 16);
      var second := DigitsValue(s, 17, 19);
      if year < 1 || month < 1 || month > 12 || day < 1 || day > 31
         || hour > 23 || minute > 59 || second > 59
      then None
      else
        var lastDay := DaysInMonth(year, month);
        Some(DateTime(year, month, if day <= lastDay then day else lastDay, hour, minute, second))
  }

  /** `LocalDate.toString()`: `yyyy-MM-dd`. */
  function LocalDateString(dt: DateTime): (r: string)
    requires 1 <= dt.year < 10000 && 1 <= dt.month <= 12 && 1 <= dt.day <= 31
    ensures |r| == 10
  {
    FourDigits(dt.year) + "-" + TwoDigits(dt.month) + "-" + TwoDigits(dt.day)
  }

  /** The hour of a record's date, when the date parses. */
  function HourOf(d: Detection): (r: Option<int>)
    ensures r.Some? ==> 0 <= r.value < 24
  {
    match ParseDateTime(d.date)
    case None => None
    case Some(dt) => Some(dt.hour)
  }
}
