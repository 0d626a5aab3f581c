/** Calendar conversion of market end dates: the closed form used by the rotation manager against the plain
    year-by-year count, and the text it is read from. Times of day are the written ones; offsets are ignored. */
module Calendar {
  import opened Arithmetic
  import opened Common

  datatype DateTime = DateTime(year: nat, month: nat, day: nat, hour: nat, minute: nat, second: nat)

  predicate IsLeap(y: nat) {
    (y % 4 == 0 && y % 100 != 0) || y % 400 == 0
  }

  const MONTH_DAYS := [0, 31, 28, 31, 30, 31, 30, 31, 31, 30, 31, 30, 31]

  function MonthDays(y: nat, m: nat): nat
    requires 1 <= m <= 12
  {
    MONTH_DAYS[m] + if m == 2 && IsLeap(y) then 1 else 0
  }

  /** A date-time of RFC 3339 section 5.6, without leap seconds. */
  predicate Valid(t: DateTime) {
    && 1 <= t.month <= 12 && 1 <= t.day <= MonthDays(t.year, t.month)
    && t.hour < 24 && t.minute < 60 && t.second < 60
  }

  // ── The plain count ──

  function DaysBeforeYear(y: nat): nat {
    if y <= 1970 then 0 else DaysBeforeYear(y - 1) + if IsLeap(y - 1) then 366 else 365
  }

  function DaysBeforeMonth(y: nat, m: nat): nat
    requires m <= 13
  {
    if m <= 1 then 0 else DaysBeforeMonth(y, m - 1) + MonthDays(y, m - 1)
  }

  function SecondOfDay(t: DateTime): nat {
    t.hour * 3600 + t.minute * 60 + t.second
  }

  function Epoch(t: DateTime): nat
    requires 1 <= t.month <= 12 && 1 <= t.day
  {
    (DaysBeforeYear(t.year) + DaysBeforeMonth(t.year, t.month) + t.day - 1) * 86400 + SecondOfDay(t)
  }

  /** Seconds since 1970, one year and one month at a time. */
  method LoopEpoch(t: DateTime) returns (seconds: nat)
    requires 1 <= t.month <= 12 && 1 <= t.day
    ensures seconds == Epoch(t)
  {
    var days := 0;
    var y := 1970;
    while y < t.year
      invariant 1970 <= y && (y <= t.year || t.year < y == 1970)
      invariant days == DaysBeforeYear(y)
    {
      days := days + if IsLeap(y) then 366 else 365;
      y := y + 1;
    }
    for m := 1 to t.month
      invariant days == DaysBeforeYear(t.year) + DaysBeforeMonth(t.year, m)
    {
      days := days + MONTH_DAYS[m];
      if m == 2 && IsLeap(t.year) {
        days := days + 1;
      }
    }
    days := days + t.day - 1;
    seconds := days * 86400 + t.hour * 3600 + t.minute * 60 + t.second;
  }

  // ── The closed form ──

  const WORD := 0x1_0000_0000_0000_0000

  /** Unsigned 64-bit arithmetic of a release build wraps around. */
  function Wrap(x: int): nat {
    x % WORD
  }

  function LeapsThrough(y: int): int {
    y / 4 - y / 100 + y / 400
  }

  function SumFirst(s: seq<nat>, k: nat): nat {
    if k == 0 || s == [] then 0 else s[0] + SumFirst(s[1..], k - 1)
  }

  function DaysSince1970(t: DateTime): int {
    var y := if t.year == 0 then WORD - 1 else t.year - 1;
    var inYears := (t.year - 1970) * 365 + (LeapsThrough(y) - LeapsThrough(1969));
    var inMonths := SumFirst(MONTH_DAYS[..12], t.month) + if IsLeap(t.year) && t.month > 2 then 1 else 0;
    inYears + inMonths + (t.day - 1)
  }

  function ClosedEpochMs(t: DateTime): nat {
    Wrap((DaysSince1970(t) * 86400 + SecondOfDay(t)) * 1000)
  }

  // ── Both agree exactly from 1970 on ──

  lemma DivStep(n: nat, k: nat)
    requires k == 4 || k == 100 || k == 400
    ensures (n + 1) / k == n / k + if (n + 1) % k == 0 then 1 else 0
  {
    if k == 4 {
    } else if k == 100 {
    } else {
    }
  }

  lemma Divides(n: nat)
    ensures n % 100 == 0 ==> n % 4 == 0
    ensures n % 400 == 0 ==> n % 100 == 0
  {
    if n % 100 == 0 {
      assert n == 4 * (25 * (n / 100));
    }
    if n % 400 == 0 {
      assert n == 100 * (4 * (n / 400));
    }
  }

  lemma LeapsStep(n: nat)
    ensures LeapsThrough(n + 1) == LeapsThrough(n) + if IsLeap(n + 1) then 1 else 0
  {
    DivStep(n, 4);
    DivStep(n, 100);
    DivStep(n, 400);
    Divides(n + 1);
  }

  lemma {:induction false} YearsAgree(y: nat)
    requires y >= 1970
    ensures DaysBeforeYear(y) == (y - 1970) * 365 + LeapsThrough(y - 1) - LeapsThrough(1969)
  {
    if y > 1970 {
      YearsAgree(y - 1);
      LeapsStep(y - 2);
    }
  }

  lemma MonthsAgree(y: nat, m: nat)
    requires 1 <= m <= 12
    ensures DaysBeforeMonth(y, m) == SumFirst(MONTH_DAYS[..12], m) + if IsLeap(y) && m > 2 then 1 else 0
  {
    SumFirstStep(MONTH_DAYS[..12], m - 1);
    if m > 1 {
      MonthsAgree(y, m - 1);
    }
  }

  lemma {:induction false} SumFirstStep(s: seq<nat>, k: nat)
    requires k < |s|
    ensures SumFirst(s, k + 1) == SumFirst(s, k) + s[k]
  {
    if k > 0 {
      SumFirstStep(s[1..], k - 1);
    }
  }

  lemma {:induction false} LeapsMonotone(a: nat, b: nat)
    requires a <= b
    ensures LeapsThrough(a) <= LeapsThrough(b)
    decreases b
  {
    if a < b {
      LeapsMonotone(a, b - 1);
      LeapsStep(b - 1);
    }
  }

  /** The closed form counts what the loops count, plus whole days that it is off before 1970. */
  lemma ClosedIsLoopPlusDays(t: DateTime) returns (days: int)
    requires Valid(t)
    ensures DaysSince1970(t) * 86400 + SecondOfDay(t) == Epoch(t) + days * 86400
    ensures t.year >= 1970 ==> days == 0
    ensures 1 <= t.year < 1970 ==> -1000000 < days < 0
    ensures t.year == 0 ==> days == -1970 * 365 + LeapsThrough(WORD - 1) - LeapsThrough(1969)
  {
    MonthsAgree(t.year, t.month);
    var y := if t.year == 0 then WORD - 1 else t.year - 1;
    days := (t.year - 1970) * 365 + (LeapsThrough(y) - LeapsThrough(1969)) - DaysBeforeYear(t.year);
    if t.year >= 1970 {
      YearsAgree(t.year);
    } else if t.year >= 1 {
      LeapsMonotone(t.year - 1, 1969);
      LeapsMonotone(0, t.year - 1);
    }
  }

  lemma {:induction false} EpochBounds(t: DateTime)
    requires Valid(t) && t.year <= 9999
    ensures Epoch(t) < 400_000_000_000
  {
    MonthsAgree(t.year, t.month);
    if t.year >= 1970 {
      YearsAgree(t.year);
    }
    assert DaysBeforeMonth(t.year, t.month) <= 366 by {
      MonthDaysMonotone(t.year, t.month, 13);
      MonthsTotal(t.year);
    }
  }

  lemma {:induction false} MonthDaysMonotone(y: nat, m: nat, n: nat)
    requires 1 <= m <= n <= 13
    ensures DaysBeforeMonth(y, m) <= DaysBeforeMonth(y, n)
    ensures m < n ==> DaysBeforeMonth(y, m) + MonthDays(y, m) <= DaysBeforeMonth(y, n)
    decreases n
  {
    if m < n {
      MonthDaysMonotone(y, m, n - 1);
    }
  }

  lemma MonthsTotal(y: nat)
    ensures DaysBeforeMonth(y, 13) == if IsLeap(y) then 366 else 365
  {
    assert DaysBeforeMonth(y, 3) == DaysBeforeMonth(y, 2) + MonthDays(y, 2) && DaysBeforeMonth(y, 2) == 31;
    assert DaysBeforeMonth(y, 4) == DaysBeforeMonth(y, 3) + 31;
    assert DaysBeforeMonth(y, 5) == DaysBeforeMonth(y, 4) + 30;
    assert DaysBeforeMonth(y, 6) == DaysBeforeMonth(y, 5) + 31;
    assert DaysBeforeMonth(y, 7) == DaysBeforeMonth(y, 6) + 30;
    assert DaysBeforeMonth(y, 8) == DaysBeforeMonth(y, 7) + 31;
    assert DaysBeforeMonth(y, 9) == DaysBeforeMonth(y, 8) + 31;
    assert DaysBeforeMonth(y, 10) == DaysBeforeMonth(y, 9) + 30;
    assert DaysBeforeMonth(y, 11) == DaysBeforeMonth(y, 10) + 31;
    assert DaysBeforeMonth(y, 12) == DaysBeforeMonth(y, 11) + 30;
    assert DaysBeforeMonth(y, 13) == DaysBeforeMonth(y, 12) + 31;
  }

  lemma WrapShifted(ms: nat, days: int)
    requires ms < 400_000_000_000_000 && -1_000_000 < days < 1_000_000
    ensures Wrap(ms + days * 86_400_000) == ms <==> days == 0
  {
    var off := days * 86_400_000;
    if 0 <= ms + off {
      ModUnique(ms + off, WORD, 0, ms + off);
    } else {
      ModUnique(ms + off, WORD, -1, ms + off + WORD);
    }
  }

  lemma YearZeroWraps(ms: nat)
    requires ms < 400_000_000_000_000
    ensures Wrap(ms + (-1970 * 365 + LeapsThrough(WORD - 1) - LeapsThrough(1969)) * 86_400_000) != ms
  {
    WrapsAs(4473335437873846739 * 86_400_000, 20951999, 18446681906500719616, ms);
  }

  /** A shift by anything but whole words is noticed. */
  lemma WrapsAs(shift: int, whole: int, rest: int, ms: nat)
    requires shift == whole * WORD + rest && 0 < rest < WORD && ms < WORD
    ensures Wrap(ms + shift) != ms
  {
    if ms + rest < WORD {
      ModUnique(ms + shift, WORD, whole, ms + rest);
    } else {
      ModUnique(ms + shift, WORD, whole + 1, ms + rest - WORD);
    }
  }

  /** Four-digit years: the closed form is the loop form, in milliseconds, exactly from 1970 on. */
  lemma ClosedFormIsLoopFormExactlyFrom1970(t: DateTime)
    requires Valid(t) && t.year <= 9999
    ensures ClosedEpochMs(t) == 1000 * Epoch(t) <==> t.year >= 1970
  {
    var days := ClosedIsLoopPlusDays(t);
    EpochBounds(t);
    var ms := 1000 * Epoch(t);
    assert (DaysSince1970(t) * 86400 + SecondOfDay(t)) * 1000 == ms + days * 86_400_000;
    if t.year == 0 {
      YearZeroWraps(ms);
    } else {
      WrapShifted(ms, days);
    }
  }

  // ── Order ──

  /** Lexicographic order of the fields. */
  predicate Before(a: DateTime, b: DateTime) {
    if a.year != b.year then a.year < b.year
    else if a.month != b.month then a.month < b.month
    else if a.day != b.day then a.day < b.day
    else if a.hour != b.hour then a.hour < b.hour
    else if a.minute != b.minute then a.minute < b.minute
    else a.second < b.second
  }

  lemma {:induction false} YearsMonotone(a: nat, b: nat)
    requires 1970 <= a < b
    ensures DaysBeforeYear(a) + (if IsLeap(a) then 366 else 365) <= DaysBeforeYear(b)
    decreases b
  {
    if a < b - 1 {
      YearsMonotone(a, b - 1);
    }
  }

  lemma EpochIsMonotone(a: DateTime, b: DateTime)
    requires Valid(a) && Valid(b) && a.year >= 1970 && Before(a, b)
    ensures Epoch(a) < Epoch(b)
  {
    MonthDaysMonotone(a.year, a.month, 13);
    MonthsTotal(a.year);
    if a.year < b.year {
      YearsMonotone(a.year, b.year);
    } else if a.month < b.month {
      MonthDaysMonotone(a.year, a.month, b.month);
    }
  }

  /** Later date-times have later timestamps, so different date-times have different ones. */
  lemma ClosedFormOrdersDateTimes(a: DateTime, b: DateTime)
    requires Valid(a) && Valid(b) && 1970 <= a.year <= 9999 && 1970 <= b.year <= 9999
    ensures Before(a, b) <==> ClosedEpochMs(a) < ClosedEpochMs(b)
  {
    ClosedFormIsLoopFormExactlyFrom1970(a);
    ClosedFormIsLoopFormExactlyFrom1970(b);
    if Before(a, b) {
      EpochIsMonotone(a, b);
    } else if Before(b, a) {
      EpochIsMonotone(b, a);
    } else {
      assert Epoch(a) == Epoch(b);
    }
  }

  // ── Text ──

  function DigitOf(c: char): Option<nat> {
    if '0' <= c <= '9' then Some((c as int - '0' as int) as nat) else None
  }

  /** Value of a run of digits, least significant last. */
  function DigitsValue(s: string): Option<nat> {
    if s == "" then Some(0)
    else
      match (DigitsValue(s[..|s| - 1]), DigitOf(s[|s| - 1]))
      case (Some(front), Some(d)) => Some(10 * front + d)
      case _ => None
  }

  /** Parsing an unsigned integer: at least one digit, after at most one plus sign. */
  function ParseUnsigned(s: string): Option<nat> {
    var digits := if s != "" && s[0] == '+' then s[1..] else s;
    if digits == "" then None else DigitsValue(digits)
  }

  function TrimZ(s: string): string {
    if s != "" && s[|s| - 1] == 'Z' then TrimZ(s[..|s| - 1]) else s
  }

  function LastPlus(s: string): (pos: Option<nat>)
    ensures pos.Some? ==> pos.value < |s| && s[pos.value] == '+'
    ensures forall i :: 0 <= i < |s| && s[i] == '+' ==> pos.Some? && i <= pos.value
  {
    if s == "" then None
    else if s[|s| - 1] == '+' then Some(|s| - 1)
    else LastPlus(s[..|s| - 1])
  }

  const ZERO_OFFSET := "-00:00"

  /** The text without its zone. */
  function LocalPart(s: string): string {
    var t := TrimZ(s);
    if LastPlus(t).Some? then t[..LastPlus(t).value]
    else if |t| > 19 && t[19..] == ZERO_OFFSET then t[..19]
    else t
  }

  function ParseFields(s: string): Option<DateTime>
    requires |s| >= 19
  {
    match (ParseUnsigned(s[0..4]), ParseUnsigned(s[5..7]), ParseUnsigned(s[8..10]),
           ParseUnsigned(s[11..13]), ParseUnsigned(s[14..16]), ParseUnsigned(s[17..19]))
    case (Some(y), Some(mo), Some(d), Some(h), Some(mi), Some(sec)) => Some(DateTime(y, mo, d, h, mi, sec))
    case _ => None
  }

  /** Milliseconds since 1970 of an end date; `None` stands for the parser's errors. */
  function ParseIso8601(s: string): Option<nat> {
    var t := LocalPart(s);
    if |t| < 19 || ParseFields(t).None? then None else Some(ClosedEpochMs(ParseFields(t).value))
  }

  function DigitChar(d: nat): char
    requires d < 10
  {
    ('0' as int + d) as char
  }

  function TwoDigits(n: nat): string
    requires n < 100
  {
    [DigitChar(n / 10), DigitChar(n % 10)]
  }

  function FormatDate(t: DateTime): (s: string)
    requires t.year <= 9999 && t.month < 100 && t.day < 100
    ensures |s| == 10
  {
    TwoDigits(t.year / 100) + TwoDigits(t.year % 100) + "-" + TwoDigits(t.month) + "-" + TwoDigits(t.day)
  }

  function FormatTime(t: DateTime): (s: string)
    requires t.hour < 100 && t.minute < 100 && t.second < 100
    ensures |s| == 8
  {
    TwoDigits(t.hour) + ":" + TwoDigits(t.minute) + ":" + TwoDigits(t.second)
  }

  /** `YYYY-MM-DDTHH:MM:SS`, RFC 3339 section 5.6. */
  function Format(t: DateTime): (s: string)
    requires Valid(t) && t.year <= 9999
    ensures |s| == 19
  {
    FormatDate(t) + "T" + FormatTime(t)
  }

  lemma DigitsOfTwo(n: nat)
    requires n < 100
    ensures ParseUnsigned(TwoDigits(n)) == Some(n)
  {
    var s := TwoDigits(n);
    assert s[..1] == [DigitChar(n / 10)] && s[..1][..0] == "";
    assert DigitsValue(s[..1]) == Some(n / 10);
  }

  lemma DigitsOfFour(n: nat)
    requires n <= 9999
    ensures ParseUnsigned(TwoDigits(n / 100) + TwoDigits(n % 100)) == Some(n)
  {
    var hi, lo := n / 100, n % 100;
    var s := TwoDigits(hi) + TwoDigits(lo);
    DigitsOfTwo(hi);
    assert s[..3] == TwoDigits(hi) + [DigitChar(lo / 10)];
    assert s[..3][..2] == TwoDigits(hi);
    assert DigitsValue(s[..3]) == Some(10 * hi + lo / 10);
  }

  /** Trimming leaves a prefix that ends before the zone. */
  lemma {:induction false} TrimKeepsTheFront(front: string, w: string)
    requires |front| > 0 && front[|front| - 1] != 'Z'
    ensures |TrimZ(front + w)| >= |front| && TrimZ(front + w)[..|front|] == front
  {
    var s := front + w;
    if |w| > 0 && w[|w| - 1] == 'Z' {
      assert s[..|s| - 1] == front + w[..|w| - 1];
      TrimKeepsTheFront(front, w[..|w| - 1]);
    }
  }

  predicate NoZone(s: string) {
    forall i :: 0 <= i < |s| ==> s[i] != '+' && s[i] != 'Z'
  }

  lemma DateFields(t: DateTime)
    requires t.year <= 9999 && t.month < 100 && t.day < 100
    ensures var s := FormatDate(t);
            && NoZone(s) && s[0..4] == TwoDigits(t.year / 100) + TwoDigits(t.year % 100)
            && s[5..7] == TwoDigits(t.month) && s[8..10] == TwoDigits(t.day)
  {
  }

  lemma TimeFields(t: DateTime)
    requires t.hour < 100 && t.minute < 100 && t.second < 100
    ensures var s := FormatTime(t);
            && NoZone(s) && s[0..2] == TwoDigits(t.hour)
            && s[3..5] == TwoDigits(t.minute) && s[6..8] == TwoDigits(t.second)
  {
  }

  /** Fields of a date and a time of day, side by side. */
  lemma JoinedFields(date: string, time: string)
    requires |date| == 10 && |time| == 8 && NoZone(date) && NoZone(time)
    ensures var s := date + "T" + time;
            && NoZone(s)
            && s[0..4] == date[0..4] && s[5..7] == date[5..7] && s[8..10] == date[8..10]
            && s[11..13] == time[0..2] && s[14..16] == time[3..5] && s[17..19] == time[6..8]
  {
  }

  lemma FormatIsDigits(t: DateTime)
    requires Valid(t) && t.year <= 9999
    ensures NoZone(Format(t)) && ParseFields(Format(t)) == Some(t)
  {
    DateFields(t);
    TimeFields(t);
    JoinedFields(FormatDate(t), FormatTime(t));
    DigitsOfFour(t.year);
    DigitsOfTwo(t.month);
    DigitsOfTwo(t.day);
    DigitsOfTwo(t.hour);
    DigitsOfTwo(t.minute);
    DigitsOfTwo(t.second);
  }

  /** The zone is cut off without touching the date-time, whatever it says. */
  lemma LocalPartKeepsTheFront(front: string, w: string)
    requires |front| == 19 && NoZone(front)
    ensures |LocalPart(front + w)| >= 19 && LocalPart(front + w)[..19] == front
  {
    TrimKeepsTheFront(front, w);
    var s := TrimZ(front + w);
    assert forall i :: 0 <= i < 19 ==> s[i] == s[..19][i];
  }

  lemma FieldsOfFront(s: string)
    requires |s| >= 19
    ensures ParseFields(s) == ParseFields(s[..19])
  {
    assert s[0..4] == s[..19][0..4] && s[5..7] == s[..19][5..7] && s[8..10] == s[..19][8..10];
    assert s[11..13] == s[..19][11..13] && s[14..16] == s[..19][14..16] && s[17..19] == s[..19][17..19];
  }

  /** Parsing a formatted date-time gives its timestamp, with any zone text behind it. */
  lemma ParseFormatRoundTrip(t: DateTime, zone: string)
    requires Valid(t) && t.year <= 9999
    ensures ParseIso8601(Format(t) + zone) == Some(ClosedEpochMs(t))
  {
    FormatIsDigits(t);
    LocalPartKeepsTheFront(Format(t), zone);
    FieldsOfFront(LocalPart(Format(t) + zone));
  }

  // ── Offsets ──

  /** A time offset of RFC 3339 section 5.6, in minutes ahead of UTC: `Z`, `+hh:mm` or `-hh:mm`. */
  function OffsetOf(zone: string): Option<int> {
    if zone == "Z" then Some(0)
    else if |zone| != 6 || (zone[0] != '+' && zone[0] != '-') || zone[3] != ':' then None
    else
      match (DigitsValue(zone[1..3]), DigitsValue(zone[4..6]))
      case (Some(h), Some(m)) =>
        if h > 23 || m > 59 then None
        else
          var minutes: int := 60 * h + m;
          Some(if zone[0] == '+' then minutes else -minutes)
      case _ => None
  }

  /** The offset's text. */
  function ZoneText(offset: int): string
    requires -1440 < offset < 1440
  {
    var minutes := if offset < 0 then -offset else offset;
    (if offset < 0 then "-" else "+") + TwoDigits(minutes / 60) + ":" + TwoDigits(minutes % 60)
  }

  lemma ZoneTextReadsBack(offset: int)
    requires -1440 < offset < 1440
    ensures OffsetOf(ZoneText(offset)) == Some(offset)
  {
    var minutes := if offset < 0 then -offset else offset;
    var h, m := minutes / 60, minutes % 60;
    DigitsOfTwo(h);
    DigitsOfTwo(m);
    assert ZoneText(offset)[1..3] == TwoDigits(h) && ZoneText(offset)[4..6] == TwoDigits(m);
    assert TwoDigits(h)[0] != '+' && TwoDigits(m)[0] != '+';
  }

  /** The instant that RFC 3339 section 4.2 gives a local time with an offset. */
  function InstantMs(t: DateTime, offset: int): int
    requires Valid(t)
  {
    1000 * (Epoch(t) - 60 * offset)
  }

  /** Reading a date-time with its zone gives the instant the text means exactly when the zone is zero. */
  lemma ParsedInstantIsRightExactlyForZeroOffsets(t: DateTime, zone: string)
    requires Valid(t) && 1970 <= t.year <= 9999 && OffsetOf(zone).Some?
    ensures ParseIso8601(Format(t) + zone).Some?
    ensures ParseIso8601(Format(t) + zone).value == InstantMs(t, OffsetOf(zone).value) <==> OffsetOf(zone).value == 0
  {
    ParseFormatRoundTrip(t, zone);
    ClosedFormIsLoopFormExactlyFrom1970(t);
  }

  /** So of all offsets only the zero ones are read correctly, and every one is off by exactly itself. */
  lemma ParsedInstantIsOffByTheOffset(t: DateTime, offset: int)
    requires Valid(t) && 1970 <= t.year <= 9999 && -1440 < offset < 1440
    ensures OffsetOf(ZoneText(offset)) == Some(offset)
    ensures ParseIso8601(Format(t) + ZoneText(offset)).Some?
    ensures ParseIso8601(Format(t) + ZoneText(offset)).value - InstantMs(t, offset) == 60_000 * offset
  {
    ZoneTextReadsBack(offset);
    ParseFormatRoundTrip(t, ZoneText(offset));
    ClosedFormIsLoopFormExactlyFrom1970(t);
  }

  /** Anything shorter than nineteen characters is refused. */
  lemma ShortTextsAreRefused(s: string)
    requires |s| < 19
    ensures ParseIso8601(s).None?
  {
    TrimShortens(s);
  }

  lemma {:induction false} TrimShortens(s: string)
    ensures |TrimZ(s)| <= |s|
  {
    if s != "" && s[|s| - 1] == 'Z' {
      TrimShortens(s[..|s| - 1]);
    }
  }
}
