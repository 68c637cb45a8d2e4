/** Times as text: `format_time` of src/util.c and `sched_parse_time` of src/scheduler.c. */
module Calendar {
  import opened Options

  /** struct tm: years since 1900, months from 0. */
  datatype Tm = Tm(year: int, mon: int, mday: int, hour: int, min: int, sec: int)

  const MAX_TIME: int := 253402300799  // 9999-12-31T23:59:59Z

  //
  // Seconds since the Epoch, section 4.16 of the POSIX.1-2017 Base Definitions.
  //

  /** Years divisible by 4, except centuries not divisible by 400; `year` counts from 1900. */
  predicate Leap(year: int) {
    year % 4 == 0 && (year % 100 != 0 || (year + 300) % 400 == 0)
  }

  function YearDays(year: int): int {
    (year - 70) * 365 + (year - 69) / 4 - (year - 1) / 100 + (year + 299) / 400
  }

  /** Days of the year before month `mon`; month 12 stands for the end of the year. */
  function MonthDays(mon: int, leap: bool): int
    requires 0 <= mon <= 12
  {
    [0, 31, 59, 90, 120, 151, 181, 212, 243, 273, 304, 334, 365][mon] + (if leap && mon >= 2 then 1 else 0)
  }

  function Timegm(tm: Tm): int
    requires 0 <= tm.mon <= 11
  {
    var yday := MonthDays(tm.mon, Leap(tm.year)) + tm.mday - 1;
    tm.sec + tm.min * 60 + tm.hour * 3600 + yday * 86400 + YearDays(tm.year) * 86400
  }

  lemma Div4(x: int, q: int, r: int)
    requires x == 4 * q + r && 0 <= r < 4
    ensures x / 4 == q && x % 4 == r
  {
  }

  lemma Div100(x: int, q: int, r: int)
    requires x == 100 * q + r && 0 <= r < 100
    ensures x / 100 == q && x % 100 == r
  {
  }

  lemma Div400(x: int, q: int, r: int)
    requires x == 400 * q + r && 0 <= r < 400
    ensures x / 400 == q && x % 400 == r
  {
  }

  /** When the three terms of the formula that count leap days grow. */
  lemma LeapTerms(year: int)
    ensures (year - 68) / 4 == (year - 69) / 4 + if year % 4 == 0 then 1 else 0
    ensures year / 100 == (year - 1) / 100 + if year % 100 == 0 then 1 else 0
    ensures (year + 300) / 400 == (year + 299) / 400 + if (year + 300) % 400 == 0 then 1 else 0
    ensures (year + 300) % 400 == 0 ==> year % 100 == 0
    ensures year % 100 == 0 ==> year % 4 == 0
  {
    var k, r := (year + 299) / 400, (year + 299) % 400;
    Div400(year + 300, if r == 399 then k + 1 else k, if r == 399 then 0 else r + 1);
    // everything in terms of k and r
    var c, s := r / 100, r % 100;  // year - 1 == 400 k + r - 300
    Div100(year - 1, 4 * k + c - 3, s);
    Div100(year, if s == 99 then 4 * k + c - 2 else 4 * k + c - 3, if s == 99 then 0 else s + 1);
    var f, g := r / 4, r % 4;
    Div4(year - 69, 100 * k + f - 92, g);
    Div4(year - 68, if g == 3 then 100 * k + f - 91 else 100 * k + f - 92, if g == 3 then 0 else g + 1);
    Div4(year, if g == 3 then 100 * k + f - 74 else 100 * k + f - 75, if g == 3 then 0 else g + 1);
    Div4(r, 25 * c + s / 4, s % 4);
  }

  lemma YearLength(year: int)
    ensures YearDays(year + 1) == YearDays(year) + MonthDays(12, Leap(year))
  {
    LeapTerms(year);
  }

  //
  // gmtime_r: the calendar fields of a time.
  //

  /** The year that holds day `days`, searched from `year` on. */
  function YearOf(days: int, year: int): (y: int)
    requires YearDays(year) <= days
    ensures year <= y && YearDays(y) <= days < YearDays(y + 1)
    decreases days - YearDays(year)
  {
    YearLength(year);
    if days < YearDays(year + 1) then year else YearOf(days, year + 1)
  }

  function MonthOf(yday: int, leap: bool, mon: int): (m: int)
    requires 0 <= mon <= 11 && MonthDays(mon, leap) <= yday < MonthDays(12, leap)
    ensures mon <= m <= 11 && MonthDays(m, leap) <= yday < MonthDays(m + 1, leap)
    decreases 12 - mon
  {
    if yday < MonthDays(mon + 1, leap) then mon else MonthOf(yday, leap, mon + 1)
  }

  function Fields(days: int, secs: int): Tm
    requires days >= 0
  {
    var year := YearOf(days, 70);
    YearLength(year);
    var yday := days - YearDays(year);
    var mon := MonthOf(yday, Leap(year), 0);
    Tm(year, mon, yday - MonthDays(mon, Leap(year)) + 1, secs / 3600, secs / 60 % 60, secs % 60)
  }

  function Gmtime(t: int): Tm
    requires t >= 0
  {
    Fields(t / 86400, t % 86400)
  }

  /** A real calendar date and time of day. */
  predicate Normal(tm: Tm) {
    && 0 <= tm.mon <= 11
    && 1 <= tm.mday <= MonthDays(tm.mon + 1, Leap(tm.year)) - MonthDays(tm.mon, Leap(tm.year))
    && 0 <= tm.hour <= 23 && 0 <= tm.min <= 59 && 0 <= tm.sec <= 59
  }

  lemma GmtimeIsNormal(t: int)
    requires t >= 0
    ensures Normal(Gmtime(t)) && Gmtime(t).year >= 70
  {
  }

  lemma TimegmOfGmtime(t: int)
    requires t >= 0
    ensures Timegm(Gmtime(t)) == t
  {
    var secs := t % 86400;
    assert secs == secs / 3600 * 3600 + secs / 60 % 60 * 60 + secs % 60;
  }

  lemma YearsGrow(a: int, b: int)
    requires a <= b
    ensures YearDays(a) <= YearDays(b)
    decreases b - a
  {
    if a < b {
      YearLength(a);
      YearsGrow(a + 1, b);
    }
  }

  lemma MonthsGrow(a: int, b: int, leap: bool)
    requires 0 <= a <= b <= 12
    ensures MonthDays(a, leap) <= MonthDays(b, leap)
    decreases b - a
  {
    if a < b {
      MonthsGrow(a + 1, b, leap);
    }
  }

  lemma YearOfUnique(days: int, year: int)
    requires 70 <= year && YearDays(year) <= days < YearDays(year + 1)
    ensures YearDays(70) <= days && YearOf(days, 70) == year
  {
    YearsGrow(70, year);
    var y := YearOf(days, 70);
    if y < year {
      YearsGrow(y + 1, year);
    } else if y > year {
      YearsGrow(year + 1, y);
    }
  }

  lemma MonthOfUnique(yday: int, leap: bool, mon: int)
    requires 0 <= mon <= 11 && MonthDays(mon, leap) <= yday < MonthDays(mon + 1, leap)
    ensures 0 <= yday < MonthDays(12, leap) && MonthOf(yday, leap, 0) == mon
  {
    MonthsGrow(0, mon, leap);
    MonthsGrow(mon + 1, 12, leap);
    var m := MonthOf(yday, leap, 0);
    if m < mon {
      MonthsGrow(m + 1, mon, leap);
    } else if m > mon {
      MonthsGrow(mon + 1, m, leap);
    }
  }

  lemma SplitSeconds(hour: int, min: int, sec: int, secs: int)
    requires 0 <= min <= 59 && 0 <= sec <= 59 && secs == sec + min * 60 + hour * 3600
    ensures secs / 3600 == hour && secs / 60 % 60 == min && secs % 60 == sec
  {
    assert secs / 60 == hour * 60 + min;
  }

  lemma SplitTime(t: int, days: int, secs: int)
    requires t == days * 86400 + secs && 0 <= secs < 86400
    ensures t / 86400 == days && t % 86400 == secs
  {
  }

  lemma DateUnique(year: int, mon: int, yday: int, days: int)
    requires year >= 70 && 0 <= mon <= 11 && days == YearDays(year) + yday
    requires MonthDays(mon, Leap(year)) <= yday < MonthDays(mon + 1, Leap(year))
    ensures days >= 0 && YearOf(days, 70) == year
    ensures 0 <= yday < MonthDays(12, Leap(year)) && MonthOf(yday, Leap(year), 0) == mon
  {
    MonthOfUnique(yday, Leap(year), mon);
    YearLength(year);
    YearOfUnique(days, year);
  }

  lemma FieldsAre(tm: Tm, days: int, secs: int)
    requires days >= 0 && YearOf(days, 70) == tm.year
    requires 0 <= days - YearDays(tm.year) < MonthDays(12, Leap(tm.year))
    requires MonthOf(days - YearDays(tm.year), Leap(tm.year), 0) == tm.mon
    requires tm.mday == days - YearDays(tm.year) - MonthDays(tm.mon, Leap(tm.year)) + 1
    requires secs / 3600 == tm.hour && secs / 60 % 60 == tm.min && secs % 60 == tm.sec
    ensures Fields(days, secs) == tm
  {
  }

  lemma FieldsUnique(tm: Tm, yday: int, days: int, secs: int)
    requires Normal(tm) && tm.year >= 70
    requires yday == MonthDays(tm.mon, Leap(tm.year)) + tm.mday - 1 && days == YearDays(tm.year) + yday
    requires secs == tm.sec + tm.min * 60 + tm.hour * 3600
    ensures days >= 0 && Fields(days, secs) == tm
  {
    DateUnique(tm.year, tm.mon, yday, days);
    SplitSeconds(tm.hour, tm.min, tm.sec, secs);
    FieldsAre(tm, days, secs);
  }

  /** The fields are the only real date and time that the formula takes to `t`. */
  lemma GmtimeOfTimegm(tm: Tm)
    requires Normal(tm) && tm.year >= 70
    ensures Timegm(tm) >= 0 && Gmtime(Timegm(tm)) == tm
  {
    var yday := MonthDays(tm.mon, Leap(tm.year)) + tm.mday - 1;
    var days := YearDays(tm.year) + yday;
    var secs := tm.sec + tm.min * 60 + tm.hour * 3600;
    FieldsUnique(tm, yday, days, secs);
    SplitTime(Timegm(tm), days, secs);
  }

  //
  // Printing.
  //

  function Digit(d: int): (c: char)
    requires 0 <= d <= 9
    ensures '0' <= c <= '9' && c as int - '0' as int == d
  {
    ('0' as int + d) as char
  }

  predicate IsDigit(c: char) {
    '0' <= c <= '9'
  }

  function Decimal(n: nat): string {
    if n < 10 then [Digit(n)] else Decimal(n / 10) + [Digit(n % 10)]
  }

  /** "%04d" of a year. */
  function YearText(y: nat): string {
    if y < 10000 then [Digit(y / 10 / 10 / 10), Digit(y / 10 / 10 % 10), Digit(y / 10 % 10), Digit(y % 10)]
    else Decimal(y)
  }

  /** "-MM-DDTHH:MM:SS" */
  function AfterYear(tm: Tm): string
    requires Normal(tm)
  {
    ['-', Digit((tm.mon + 1) / 10), Digit((tm.mon + 1) % 10), '-', Digit(tm.mday / 10), Digit(tm.mday % 10), 'T',
     Digit(tm.hour / 10), Digit(tm.hour % 10), ':', Digit(tm.min / 10), Digit(tm.min % 10), ':',
     Digit(tm.sec / 10), Digit(tm.sec % 10)]
  }

  /** The fields of a time, with the given zone suffix. */
  function FormatZone(t: int, zone: string): string
    requires t >= 0
  {
    GmtimeIsNormal(t);
    TimegmOfGmtime(t);
    var tm := Gmtime(t);
    YearText(tm.year + 1900) + AfterYear(tm) + zone
  }

  /** format_time(t, 0, ...) */
  function FormatUtc(t: int): string
    requires t >= 0
  {
    FormatZone(t, "Z")
  }

  //
  // Parsing. The index of every access is within the C string, terminator included.
  //

  function At(s: string, i: nat): char
    requires i <= |s|
  {
    if i < |s| then s[i] else '\0'
  }

  function TwoDigits(s: string, i: nat): (n: int)
    requires i <= |s|
    ensures -1 <= n <= 99
    ensures n >= 0 ==> i + 2 <= |s|
  {
    if IsDigit(At(s, i)) && IsDigit(At(s, i + 1)) then
      (At(s, i) as int - '0' as int) * 10 + (At(s, i + 1) as int - '0' as int)
    else -1
  }

  function Value(digits: string): int
    requires forall i | 0 <= i < |digits| :: IsDigit(digits[i])
  {
    if digits == [] then 0
    else Value(digits[..|digits| - 1]) * 10 + (digits[|digits| - 1] as int - '0' as int)
  }

  /** The first four characters as a number, -1 when they are not digits. */
  function FourDigits(s: string): (n: int)
    ensures n >= 0 ==> 4 <= |s|
  {
    if |s| < 4 || !IsDigit(s[0]) || !IsDigit(s[1]) || !IsDigit(s[2]) || !IsDigit(s[3]) then -1
    else Value(s[..4])
  }

  function SkipDigits(s: string, i: nat): (j: nat)
    requires i <= |s|
    ensures i <= j <= |s|
    decreases |s| - i
  {
    if IsDigit(At(s, i)) then SkipDigits(s, i + 1) else i
  }

  /** The date and minutes, up to index 16. */
  function ParseDate(s: string): (r: Option<Tm>)
    ensures r.Some? ==> 16 <= |s|
  {
    var year := FourDigits(s);
    if year < 0 || At(s, 4) != '-' || TwoDigits(s, 5) < 0 || At(s, 7) != '-' || TwoDigits(s, 8) < 0 ||
       (At(s, 10) != 'T' && At(s, 10) != ' ') || TwoDigits(s, 11) < 0 || At(s, 13) != ':' || TwoDigits(s, 14) < 0
    then None
    else Some(Tm(year, TwoDigits(s, 5), TwoDigits(s, 8), TwoDigits(s, 11), TwoDigits(s, 14), 0))
  }

  /** The seconds, with a fraction that is dropped: their value, -1 when malformed, and the index behind them. */
  function ParseSeconds(s: string): (r: (int, nat))
    requires 16 <= |s|
    ensures r.1 <= |s|
  {
    if At(s, 16) != ':' then (0, 16)
    else if TwoDigits(s, 17) < 0 then (-1, 16)
    else (TwoDigits(s, 17), if At(s, 19) == '.' then SkipDigits(s, 20) else 19)
  }

  predicate InRange(tm: Tm) {
    && 1 <= tm.mon <= 12 && 1 <= tm.mday <= 31
    && tm.hour <= 23 && tm.min <= 59 && tm.sec <= 60
  }

  /** The zone at index `p`. `local` stands for mktime, the rules of the local time zone. */
  function ParseZone(s: string, p: nat, tm: Tm, local: Tm -> int): int
    requires p <= |s| && 0 <= tm.mon <= 11
  {
    var z := At(s, p);
    if z == 'Z' || z == 'z' then Timegm(tm)
    else if z == '+' || z == '-' then
      var oh := TwoDigits(s, p + 1);
      if oh < 0 then 0
      else
        var q := if At(s, p + 3) == ':' then p + 4 else p + 3;
        var om := if TwoDigits(s, q) >= 0 then TwoDigits(s, q) else 0;
        Timegm(tm) - (if z == '-' then -1 else 1) * (oh * 3600 + om * 60)
    else local(tm)
  }

  /** sched_parse_time: 0 when invalid. */
  function ParseTime(s: string, local: Tm -> int): int {
    match ParseDate(s)
    case None => 0
    case Some(date) =>
      var (sec, p) := ParseSeconds(s);
      var tm := date.(sec := sec);
      if sec < 0 || !InRange(tm) then 0
      else ParseZone(s, p, tm.(year := tm.year - 1900, mon := tm.mon - 1), local)
  }

  /** The scan of the year. */
  method ScanYear(s: string) returns (year: int)
    ensures year == FourDigits(s)
  {
    year := 0;
    var i := 0;
    while i < 4
      invariant 0 <= i <= 4 && i <= |s|
      invariant forall j | 0 <= j < i :: IsDigit(s[j])
      invariant year == Value(s[..i])
    {
      if !IsDigit(At(s, i)) {
        return -1;
      }
      assert s[..i + 1][..i] == s[..i];
      year := year * 10 + (At(s, i) as int - '0' as int);
      i := i + 1;
    }
  }

  /** The scan of the fraction. */
  method ScanFraction(s: string, i: nat) returns (p: nat)
    requires i <= |s|
    ensures p == SkipDigits(s, i)
  {
    p := i;
    while IsDigit(At(s, p))
      invariant p <= |s| && SkipDigits(s, p) == SkipDigits(s, i)
      decreases |s| - p
    {
      p := p + 1;
    }
  }

  method SchedParseTime(s: string, local: Tm -> int) returns (t: int)
    ensures t == ParseTime(s, local)
  {
    var year := ScanYear(s);
    if year < 0 || At(s, 4) != '-' || TwoDigits(s, 5) < 0 || At(s, 7) != '-' || TwoDigits(s, 8) < 0 ||
       (At(s, 10) != 'T' && At(s, 10) != ' ') || TwoDigits(s, 11) < 0 || At(s, 13) != ':' || TwoDigits(s, 14) < 0
    {
      return 0;
    }
    var tm := Tm(year, TwoDigits(s, 5), TwoDigits(s, 8), TwoDigits(s, 11), TwoDigits(s, 14), 0);
    var p := 16;
    if At(s, 16) == ':' {
      tm := tm.(sec := TwoDigits(s, 17));
      if tm.sec < 0 {
        return 0;
      }
      p := 19;
      if At(s, 19) == '.' {
        p := ScanFraction(s, 20);
      }
    }
    if !InRange(tm) {
      return 0;
    }
    return ParseZone(s, p, tm.(year := tm.year - 1900, mon := tm.mon - 1), local);
  }

  //
  // Round trip.
  //

  lemma TwoDigitsOf(s: string, i: nat, n: int)
    requires i + 2 <= |s| && 0 <= n <= 99
    requires s[i] == Digit(n / 10) && s[i + 1] == Digit(n % 10)
    ensures TwoDigits(s, i) == n
  {
  }

  /** The last second of year 9999 and what it means for the year. */
  lemma FourDigitYears(t: int)
    requires t >= 0
    ensures Gmtime(t).year + 1900 <= 9999 <==> t <= MAX_TIME
  {
    GmtimeIsNormal(t);
    TimegmOfGmtime(t);
    var tm := Gmtime(t);
    assert YearDays(8100) * 86400 == MAX_TIME + 1;
    if tm.year >= 8100 {
      YearsGrow(8100, tm.year);
    } else {
      YearsGrow(tm.year + 1, 8100);
    }
    assert YearDays(tm.year) <= t / 86400 < YearDays(tm.year + 1);
  }

  /** Every character of a printed date and time. */
  lemma Characters(tm: Tm, zone: string, s: string)
    requires Normal(tm) && 0 <= tm.year + 1900 <= 9999
    requires s == YearText(tm.year + 1900) + AfterYear(tm) + zone
    ensures |s| == 19 + |zone| && s[19..] == zone
    ensures s[..4] == YearText(tm.year + 1900)
    ensures s[4] == '-' && s[7] == '-' && s[10] == 'T' && s[13] == ':' && s[16] == ':'
    ensures TwoDigits(s, 5) == tm.mon + 1 && TwoDigits(s, 8) == tm.mday && TwoDigits(s, 11) == tm.hour
    ensures TwoDigits(s, 14) == tm.min && TwoDigits(s, 17) == tm.sec
  {
    assert forall i | 4 <= i < 19 :: s[i] == AfterYear(tm)[i - 4];
    TwoDigitsOf(s, 5, tm.mon + 1);
    TwoDigitsOf(s, 8, tm.mday);
    TwoDigitsOf(s, 11, tm.hour);
    TwoDigitsOf(s, 14, tm.min);
    TwoDigitsOf(s, 17, tm.sec);
  }

  lemma ValuePush(digits: string, d: int)
    requires (forall i | 0 <= i < |digits| :: IsDigit(digits[i])) && 0 <= d <= 9
    ensures Value(digits + [Digit(d)]) == Value(digits) * 10 + d
  {
    assert (digits + [Digit(d)])[..|digits|] == digits;
  }

  lemma YearValue(y: int)
    requires 0 <= y <= 9999
    ensures FourDigits(YearText(y)) == y
  {
    var a, b, c := y / 10 / 10 / 10, y / 10 / 10, y / 10;
    var s := YearText(y);
    ValuePush([], a);
    ValuePush(s[..1], b % 10);
    ValuePush(s[..2], c % 10);
    ValuePush(s[..3], y % 10);
    assert s[..1] == [] + [Digit(a)] && s[..2] == s[..1] + [Digit(b % 10)];
    assert s[..3] == s[..2] + [Digit(c % 10)] && s[..4] == s[..3] + [Digit(y % 10)];
  }

  lemma FourDigitsPrefix(s: string)
    requires |s| >= 4
    ensures FourDigits(s) == FourDigits(s[..4])
  {
    assert s[..4][..4] == s[..4];
  }

  /** The parser gets back to the zone with the printed fields. */
  lemma ParseFieldsOf(tm: Tm, zone: string, s: string, local: Tm -> int)
    requires Normal(tm) && 0 <= tm.year + 1900 <= 9999
    requires zone != [] && zone[0] != '.'
    requires s == YearText(tm.year + 1900) + AfterYear(tm) + zone
    ensures |s| == 19 + |zone| && s[19..] == zone
    ensures ParseTime(s, local) == ParseZone(s, 19, tm, local)
  {
    Characters(tm, zone, s);
    FourDigitsPrefix(s);
    YearValue(tm.year + 1900);
    assert At(s, 19) == s[19..][0];
    assert MonthDays(tm.mon + 1, Leap(tm.year)) - MonthDays(tm.mon, Leap(tm.year)) <= 31;
    assert ParseSeconds(s) == (tm.sec, 19);
    assert ParseDate(s) == Some(Tm(tm.year + 1900, tm.mon + 1, tm.mday, tm.hour, tm.min, 0));
  }

  lemma ParseFields(t: int, zone: string, local: Tm -> int)
    requires 0 <= t <= MAX_TIME && zone != [] && zone[0] != '.'
    ensures var s := FormatZone(t, zone);
            && |s| == 19 + |zone| && s[19..] == zone
            && Normal(Gmtime(t))
            && ParseTime(s, local) == ParseZone(s, 19, Gmtime(t), local)
  {
    GmtimeIsNormal(t);
    TimegmOfGmtime(t);
    FourDigitYears(t);
    ParseFieldsOf(Gmtime(t), zone, FormatZone(t, zone), local);
  }

  lemma {:induction false} DecimalLength(n: nat, width: nat, bound: nat)
    requires n >= bound && bound == Pow10(width)
    ensures |Decimal(n)| > width && forall i | 0 <= i < |Decimal(n)| :: IsDigit(Decimal(n)[i])
    decreases n, width
  {
    if n >= 10 {
      if width > 0 {
        DecimalLength(n / 10, width - 1, Pow10(width - 1));
      } else {
        DecimalLength(n / 10, 0, 1);
      }
    }
  }

  function Pow10(k: nat): (p: nat)
    ensures p >= 1
  {
    if k == 0 then 1 else 10 * Pow10(k - 1)
  }

  /** Printing a positive time in UTC and parsing it back is the identity exactly up to the end of year 9999. */
  lemma RoundTrip(t: int, local: Tm -> int)
    requires t > 0
    ensures ParseTime(FormatUtc(t), local) == t <==> t <= MAX_TIME
    ensures t > MAX_TIME ==> ParseTime(FormatUtc(t), local) == 0
  {
    GmtimeIsNormal(t);
    TimegmOfGmtime(t);
    if t <= MAX_TIME {
      ParseFields(t, "Z", local);
      assert At(FormatUtc(t), 19) == FormatUtc(t)[19..][0];
    } else {
      FourDigitYears(t);
      var y := Gmtime(t).year + 1900;
      DecimalLength(y, 4, 10000);
      assert FormatUtc(t)[4] == Decimal(y)[4];
    }
  }

  /** "+hh:mm" or "-hh:mm" */
  function ZoneText(east: bool, hh: int, mm: int): string
    requires 0 <= hh <= 99 && 0 <= mm <= 99
  {
    [if east then '+' else '-', Digit(hh / 10), Digit(hh % 10), ':', Digit(mm / 10), Digit(mm % 10)]
  }

  lemma ParseZoneText(s: string, tm: Tm, east: bool, hh: int, mm: int, local: Tm -> int)
    requires 0 <= hh <= 99 && 0 <= mm <= 99 && 0 <= tm.mon <= 11
    requires |s| == 25 && s[19..] == ZoneText(east, hh, mm)
    ensures ParseZone(s, 19, tm, local) == Timegm(tm) - (if east then 1 else -1) * (hh * 3600 + mm * 60)
  {
    assert forall i | 19 <= i < 25 :: s[i] == s[19..][i - 19];
    TwoDigitsOf(s, 20, hh);
    TwoDigitsOf(s, 23, mm);
  }

  /** An offset of hh:mm east of UTC is subtracted, west of UTC added. */
  lemma OffsetRoundTrip(t: int, east: bool, hh: int, mm: int, local: Tm -> int)
    requires 0 <= t <= MAX_TIME && 0 <= hh <= 99 && 0 <= mm <= 99
    ensures ParseTime(FormatZone(t, ZoneText(east, hh, mm)), local)
            == t - (if east then 1 else -1) * (hh * 3600 + mm * 60)
  {
    GmtimeIsNormal(t);
    TimegmOfGmtime(t);
    ParseFields(t, ZoneText(east, hh, mm), local);
    ParseZoneText(FormatZone(t, ZoneText(east, hh, mm)), Gmtime(t), east, hh, mm, local);
  }

  //
  // Every text of the form "YYYY-MM-DDThh:mm:ssZ", right or wrong.
  //

  /** Two digits each, whatever they say. */
  predicate TwoEach(tm: Tm) {
    && 0 <= tm.mon <= 99 && 0 <= tm.mday <= 99
    && 0 <= tm.hour <= 99 && 0 <= tm.min <= 99 && 0 <= tm.sec <= 99
  }

  /** The month and the year are written as they are: 1 is January, 1970 is 1970. */
  function Written(tm: Tm): string
    requires 0 <= tm.year <= 9999 && TwoEach(tm)
  {
    YearText(tm.year)
    + ['-', Digit(tm.mon / 10), Digit(tm.mon % 10), '-', Digit(tm.mday / 10), Digit(tm.mday % 10), 'T',
       Digit(tm.hour / 10), Digit(tm.hour % 10), ':', Digit(tm.min / 10), Digit(tm.min % 10), ':',
       Digit(tm.sec / 10), Digit(tm.sec % 10), 'Z']
  }

  lemma WrittenFields(tm: Tm)
    requires 0 <= tm.year <= 9999 && TwoEach(tm)
    ensures var s := Written(tm);
            && |s| == 20 && s[..4] == YearText(tm.year)
            && s[4] == '-' && s[7] == '-' && s[10] == 'T' && s[13] == ':' && s[16] == ':' && s[19] == 'Z'
            && TwoDigits(s, 5) == tm.mon && TwoDigits(s, 8) == tm.mday && TwoDigits(s, 11) == tm.hour
            && TwoDigits(s, 14) == tm.min && TwoDigits(s, 17) == tm.sec
  {
    var s := Written(tm);
    TwoDigitsOf(s, 5, tm.mon);
    TwoDigitsOf(s, 8, tm.mday);
    TwoDigitsOf(s, 11, tm.hour);
    TwoDigitsOf(s, 14, tm.min);
    TwoDigitsOf(s, 17, tm.sec);
  }

  /**
   * It is the time of these fields if they are in range, the day up to 31 in every month and the second up to 60, and
   * no time otherwise.
   */
  lemma WrittenParses(tm: Tm, local: Tm -> int)
    requires 0 <= tm.year <= 9999 && TwoEach(tm)
    ensures ParseTime(Written(tm), local)
         == if 1 <= tm.mon <= 12 && 1 <= tm.mday <= 31 && tm.hour <= 23 && tm.min <= 59 && tm.sec <= 60
            then Timegm(Tm(tm.year - 1900, tm.mon - 1, tm.mday, tm.hour, tm.min, tm.sec))
            else 0
  {
    var s := Written(tm);
    WrittenFields(tm);
    FourDigitsPrefix(s);
    YearValue(tm.year);
    assert ParseSeconds(s) == (tm.sec, 19);
    assert ParseDate(s) == Some(tm.(sec := 0));
  }
}
