/**
 The RFC 3339 (section 5.6) timestamp every line carries, printed with
 millisecond precision, and a parser of that layout as its partner.
 */
module Timestamp {
  import opened Common
  import opened Calendar

  const NS_PER_SECOND := 1_000_000_000
  const NS_PER_MS := 1_000_000
  const SECONDS_PER_DAY := 86_400

  // Days from 1970-01-01 to 10000-01-01, where the year needs a fifth digit.
  const FIVE_DIGIT_YEAR_DAY := 2_932_897

  // -------------------------------------------------------------------------
  // Zero-padded decimals
  // -------------------------------------------------------------------------

  function DigitChar(d: nat): char
    requires d < 10
  {
    "0123456789"[d]
  }

  predicate IsDigit(c: char) { '0' <= c <= '9' }

  function DigitValue(c: char): nat
    requires IsDigit(c)
  {
    (c as int) - ('0' as int)
  }

  function Decimal(n: nat): string {
    if n < 10 then [DigitChar(n)] else Decimal(n / 10) + [DigitChar(n % 10)]
  }

  // `{n:0width}`: at least `width` characters, more when the number needs them.
  function Padded(n: nat, width: nat): string
    decreases width
  {
    var s := Decimal(n);
    if |s| >= width then s else Zeros(width - |s|) + s
  }

  function Zeros(k: nat): string { if k == 0 then "" else "0" + Zeros(k - 1) }

  predicate AllDigits(s: string) { forall i :: 0 <= i < |s| ==> IsDigit(s[i]) }

  function Value(s: string): nat
    requires AllDigits(s)
  {
    if |s| == 0 then 0 else 10 * Value(s[..|s| - 1]) + DigitValue(s[|s| - 1])
  }

  function Pow10(k: nat): nat { if k == 0 then 1 else 10 * Pow10(k - 1) }

  lemma {:induction false} DecimalValue(n: nat)
    ensures AllDigits(Decimal(n)) && Value(Decimal(n)) == n
    ensures |Decimal(n)| >= 1
  {
    if n >= 10 {
      DecimalValue(n / 10);
      var s := Decimal(n);
      assert s[..|s| - 1] == Decimal(n / 10);
    } else {
      var s := Decimal(n);
      assert s[..|s| - 1] == "";
      assert Value("") == 0;
    }
  }

  lemma {:induction false} DecimalLength(n: nat, width: nat)
    requires width >= 1
    ensures |Decimal(n)| <= width <==> n < Pow10(width)
    decreases width
  {
    assert Pow10(width) == 10 * Pow10(width - 1);
    if width == 1 {
      assert Pow10(1) == 10 * Pow10(0);
      if n >= 10 { DecimalValue(n / 10); }
    } else if n >= 10 {
      DecimalLength(n / 10, width - 1);
    } else {
      PowGrows(width);
    }
  }

  lemma {:induction false} PowGrows(width: nat)
    requires width >= 1
    ensures Pow10(width) >= 10
  {
    if width > 1 { PowGrows(width - 1); }
  }

  lemma {:induction false} ZerosAreDigits(k: nat, s: string)
    requires AllDigits(s)
    ensures |Zeros(k)| == k && AllDigits(Zeros(k) + s) && Value(Zeros(k) + s) == Value(s)
    decreases k, |s|
  {
    if |s| == 0 {
      assert Zeros(k) + s == Zeros(k);
      if k > 0 {
        ZerosAreDigits(k - 1, s);
        assert Zeros(k - 1) + s == Zeros(k - 1);
        ZerosEnd(k);
      }
    } else {
      var front := s[..|s| - 1];
      ZerosAreDigits(k, front);
      var all := Zeros(k) + s;
      assert all[..|all| - 1] == Zeros(k) + front;
      assert all[|all| - 1] == s[|s| - 1];
    }
  }

  lemma {:induction false} ZerosEnd(k: nat)
    requires k > 0
    ensures |Zeros(k)| == k && Zeros(k)[..k - 1] == Zeros(k - 1) && Zeros(k)[k - 1] == '0'
  {
    if k > 1 {
      ZerosEnd(k - 1);
      assert Zeros(k)[..k - 1] == "0" + Zeros(k - 1)[..k - 2];
    } else {
      assert Zeros(0) == "";
    }
  }

  lemma PaddedValue(n: nat, width: nat)
    requires width >= 1
    ensures AllDigits(Padded(n, width)) && Value(Padded(n, width)) == n
    ensures |Padded(n, width)| >= width
    ensures |Padded(n, width)| == width <==> n < Pow10(width)
  {
    var s := Decimal(n);
    DecimalValue(n);
    DecimalLength(n, width);
    if |s| < width {
      ZerosAreDigits(width - |s|, s);
      assert Padded(n, width) == Zeros(width - |s|) + s;
    } else {
      assert Padded(n, width) == s;
    }
  }

  // -------------------------------------------------------------------------
  // Print and parse
  // -------------------------------------------------------------------------

  datatype Stamp = Stamp(date: Civil, hour: nat, minute: nat, second: nat, millis: nat)

  function StampOf(at: int): Stamp {
    // An instant before 1970 is printed as 1970 itself.
    var sinceEpoch := if at < 0 then 0 else at;
    var secs := sinceEpoch / NS_PER_SECOND;
    var secondOfDay := secs % SECONDS_PER_DAY;
    Stamp(CivilFromDays(secs / SECONDS_PER_DAY),
          secondOfDay / 3600, (secondOfDay % 3600) / 60, secondOfDay % 60,
          (sinceEpoch % NS_PER_SECOND) / NS_PER_MS)
  }

  function Layout(y: string, mo: string, d: string, h: string, mi: string, s: string, ms: string): string {
    y + "-" + mo + "-" + d + "T" + h + ":" + mi + ":" + s + "." + ms + "Z"
  }

  predicate ValidStamp(t: Stamp) {
    && ValidDate(t.date) && 0 <= t.date.year
    && t.hour <= 23 && t.minute <= 59 && t.second <= 59 && t.millis <= 999
  }

  function Print(t: Stamp): string
    requires ValidStamp(t)
  {
    Layout(Padded(t.date.year, 4), Padded(t.date.month, 2), Padded(t.date.day, 2),
           Padded(t.hour, 2), Padded(t.minute, 2), Padded(t.second, 2), Padded(t.millis, 3))
  }

  // Instants are nanoseconds since 1970-01-01T00:00:00Z.
  function Rfc3339Utc(at: int): string {
    StampIsValid(at);
    Print(StampOf(at))
  }

  predicate HasLayout(s: string) {
    && |s| == 24
    && s[4] == '-' && s[7] == '-' && s[10] == 'T' && s[13] == ':' && s[16] == ':' && s[19] == '.' && s[23] == 'Z'
    && AllDigits(s[0..4]) && AllDigits(s[5..7]) && AllDigits(s[8..10])
    && AllDigits(s[11..13]) && AllDigits(s[14..16]) && AllDigits(s[17..19]) && AllDigits(s[20..23])
  }

  // The milliseconds since 1970 a four-digit-year timestamp denotes, by the
  // rule-based day count.
  function Parse(s: string): Option<int> {
    if !HasLayout(s) then None
    else ParseFields(s[0..4], s[5..7], s[8..10], s[11..13], s[14..16], s[17..19], s[20..23])
  }

  function ParseFields(y: string, mo: string, d: string, h: string, mi: string, sec: string, ms: string): Option<int>
    requires AllDigits(y) && AllDigits(mo) && AllDigits(d) && AllDigits(h) && AllDigits(mi)
    requires AllDigits(sec) && AllDigits(ms)
  {
    Denoted(Stamp(Civil(Value(y), Value(mo), Value(d)), Value(h), Value(mi), Value(sec), Value(ms)))
  }

  function Denoted(t: Stamp): Option<int> {
    if ValidStamp(t) then Some(MillisOf(t)) else None
  }

  function MillisOf(t: Stamp): int
    requires ValidStamp(t)
  {
    ((DaysFromCivil(t.date) * 24 + t.hour) * 60 + t.minute) * 60_000 + t.second * 1000 + t.millis
  }

  lemma LayoutLength(y: string, mo: string, d: string, h: string, mi: string, s: string, ms: string)
    ensures |Layout(y, mo, d, h, mi, s, ms)| == |y| + |mo| + |d| + |h| + |mi| + |s| + |ms| + 7
  {
  }

  lemma LayoutFields(y: string, mo: string, d: string, h: string, mi: string, s: string, ms: string)
    requires |y| == 4 && |mo| == |d| == |h| == |mi| == |s| == 2 && |ms| == 3
    ensures var t := Layout(y, mo, d, h, mi, s, ms);
            && |t| == 24
            && t[4] == '-' && t[7] == '-' && t[10] == 'T' && t[13] == ':' && t[16] == ':' && t[19] == '.' && t[23] == 'Z'
            && t[0..4] == y && t[5..7] == mo && t[8..10] == d
            && t[11..13] == h && t[14..16] == mi && t[17..19] == s && t[20..23] == ms
  {
    var date := y + "-" + mo + "-" + d;
    var time := h + ":" + mi + ":" + s + "." + ms;
    var t := Layout(y, mo, d, h, mi, s, ms);
    assert t == date + ("T" + time + "Z");
    assert |date| == 10 && date[4] == '-' && date[7] == '-'
        && date[0..4] == y && date[5..7] == mo && date[8..10] == d;
    assert |time| == 12 && time[2] == ':' && time[5] == ':' && time[8] == '.'
        && time[0..2] == h && time[3..5] == mi && time[6..8] == s && time[9..12] == ms;
    forall i | 0 <= i < 10 ensures t[i] == date[i] {}
    forall i | 0 <= i < 12 ensures t[11 + i] == time[i] {}
    assert t[0..4] == date[0..4] && t[5..7] == date[5..7] && t[8..10] == date[8..10];
    assert t[11..13] == time[0..2] && t[14..16] == time[3..5] && t[17..19] == time[6..8] && t[20..23] == time[9..12];
  }

  // -------------------------------------------------------------------------
  // The round trip
  // -------------------------------------------------------------------------

  lemma FourDigitYears(days: int)
    requires 0 <= days
    ensures 1970 <= CivilFromDays(days).year
    ensures CivilFromDays(days).year <= 9999 <==> days < FIVE_DIGIT_YEAR_DAY
  {
    CivilFromDaysInverse(days);
    YearOfDay(CivilFromDays(days));
  }

  lemma YearOfDay(c: Civil)
    requires ValidDate(c)
    ensures 0 <= DaysFromCivil(c) ==> 1970 <= c.year
    ensures c.year <= 9999 <==> DaysFromCivil(c) < FIVE_DIGIT_YEAR_DAY
  {
    assert DaysFromCivil(Civil(1970, 1, 1)) == 0;
    assert DaysFromCivil(Civil(10000, 1, 1)) == FIVE_DIGIT_YEAR_DAY by { YearStartClosedForm(10000); }
    if c.year < 1970 { EarlierYearCountsLess(c, Civil(1970, 1, 1)); }
    if c.year < 10000 {
      EarlierYearCountsLess(c, Civil(10000, 1, 1));
    } else if c.year > 10000 {
      EarlierYearCountsLess(Civil(10000, 1, 1), c);
    } else {
      DayOfYearBound(c);
    }
  }

  lemma ClockParts(secondOfDay: int)
    requires 0 <= secondOfDay < SECONDS_PER_DAY
    ensures var h, mi, s := secondOfDay / 3600, (secondOfDay % 3600) / 60, secondOfDay % 60;
            && 0 <= h <= 23 && 0 <= mi <= 59 && 0 <= s <= 59
            && (h * 60 + mi) * 60 + s == secondOfDay
  {
    var h, ofHour := secondOfDay / 3600, secondOfDay % 3600;
    DivModUnique(secondOfDay, 60, 60 * h + ofHour / 60, ofHour % 60);
  }

  lemma Pow10Small()
    ensures Pow10(2) == 100 && Pow10(3) == 1000 && Pow10(4) == 10000
  {
    assert Pow10(1) == 10;
    assert Pow10(2) == 10 * Pow10(1);
    assert Pow10(3) == 10 * Pow10(2);
  }

  lemma PrintedFields(t: Stamp)
    requires ValidStamp(t)
    ensures |Padded(t.date.year, 4)| >= 4
    ensures |Padded(t.date.year, 4)| == 4 <==> t.date.year <= 9999
    ensures |Padded(t.date.month, 2)| == |Padded(t.date.day, 2)| == |Padded(t.hour, 2)| == 2
    ensures |Padded(t.minute, 2)| == |Padded(t.second, 2)| == 2 && |Padded(t.millis, 3)| == 3
  {
    Pow10Small();
    PaddedValue(t.date.year, 4);
    PaddedValue(t.date.month, 2);
    PaddedValue(t.date.day, 2);
    PaddedValue(t.hour, 2);
    PaddedValue(t.minute, 2);
    PaddedValue(t.second, 2);
    PaddedValue(t.millis, 3);
  }

  lemma ParseLayout(y: string, mo: string, d: string, h: string, mi: string, sec: string, ms: string)
    requires |y| == 4 && |mo| == |d| == |h| == |mi| == |sec| == 2 && |ms| == 3
    requires AllDigits(y) && AllDigits(mo) && AllDigits(d) && AllDigits(h) && AllDigits(mi)
    requires AllDigits(sec) && AllDigits(ms)
    ensures Parse(Layout(y, mo, d, h, mi, sec, ms)) == ParseFields(y, mo, d, h, mi, sec, ms)
  {
    LayoutFields(y, mo, d, h, mi, sec, ms);
  }

  lemma ParsePrintFourDigits(t: Stamp)
    requires ValidStamp(t) && t.date.year <= 9999
    ensures Parse(Print(t)) == Some(MillisOf(t))
  {
    var y, mo, d := Padded(t.date.year, 4), Padded(t.date.month, 2), Padded(t.date.day, 2);
    var h, mi, sec, ms := Padded(t.hour, 2), Padded(t.minute, 2), Padded(t.second, 2), Padded(t.millis, 3);
    assert Print(t) == Layout(y, mo, d, h, mi, sec, ms);
    PrintedFields(t);
    PaddedValue(t.date.year, 4);
    PaddedValue(t.date.month, 2);
    PaddedValue(t.date.day, 2);
    PaddedValue(t.hour, 2);
    PaddedValue(t.minute, 2);
    PaddedValue(t.second, 2);
    PaddedValue(t.millis, 3);
    ParseLayout(y, mo, d, h, mi, sec, ms);
    assert Stamp(Civil(Value(y), Value(mo), Value(d)), Value(h), Value(mi), Value(sec), Value(ms)) == t;
  }

  lemma ParsePrint(t: Stamp)
    requires ValidStamp(t)
    ensures Parse(Print(t)) == if t.date.year <= 9999 then Some(MillisOf(t)) else None
  {
    if t.date.year <= 9999 {
      ParsePrintFourDigits(t);
    } else {
      PrintedFields(t);
      LayoutLength(Padded(t.date.year, 4), Padded(t.date.month, 2), Padded(t.date.day, 2),
                   Padded(t.hour, 2), Padded(t.minute, 2), Padded(t.second, 2), Padded(t.millis, 3));
    }
  }

  lemma StampIsValid(at: int)
    ensures ValidStamp(StampOf(at))
    ensures var secs := Max(at, 0) / NS_PER_SECOND;
            && (StampOf(at).date.year <= 9999 <==> secs / SECONDS_PER_DAY < FIVE_DIGIT_YEAR_DAY)
            && DaysFromCivil(StampOf(at).date) == secs / SECONDS_PER_DAY
  {
    var secs := Max(at, 0) / NS_PER_SECOND;
    CivilFromDaysInverse(secs / SECONDS_PER_DAY);
    FourDigitYears(secs / SECONDS_PER_DAY);
    ClockParts(secs % SECONDS_PER_DAY);
  }

  lemma StampMillis(at: int)
    ensures ValidStamp(StampOf(at))
    ensures MillisOf(StampOf(at)) == Max(at, 0) / NS_PER_MS
  {
    StampIsValid(at);
    ClockParts(Max(at, 0) / NS_PER_SECOND % SECONDS_PER_DAY);
    MillisOfParts(Max(at, 0));
  }

  // The printed timestamp denotes the instant to the millisecond exactly for
  // the years 1970 to 9999; an earlier instant reads back as 1970 itself and
  // a later one is no four-digit-year timestamp at all.
  lemma Rfc3339RoundTrip(at: int)
    ensures var since := Max(at, 0);
            Parse(Rfc3339Utc(at))
              == if since < FIVE_DIGIT_YEAR_DAY * SECONDS_PER_DAY * NS_PER_SECOND
                 then Some(since / NS_PER_MS)
                 else None
  {
    StampIsValid(at);
    ParsePrint(StampOf(at));
    LastFourDigitDay(Max(at, 0));
    StampMillis(at);
  }

  lemma LastFourDigitDay(since: int)
    requires 0 <= since
    ensures since / NS_PER_SECOND / SECONDS_PER_DAY < FIVE_DIGIT_YEAR_DAY
       <==> since < FIVE_DIGIT_YEAR_DAY * SECONDS_PER_DAY * NS_PER_SECOND
  {
  }

  lemma MillisOfParts(since: int)
    requires 0 <= since
    ensures var secs := since / NS_PER_SECOND;
            since / NS_PER_MS
              == ((secs / SECONDS_PER_DAY) * SECONDS_PER_DAY + secs % SECONDS_PER_DAY) * 1000
                 + (since % NS_PER_SECOND) / NS_PER_MS
  {
  }

  // Later instants never print an earlier timestamp.
  lemma TimestampsAreMonotone(a: int, b: int)
    requires a <= b && Parse(Rfc3339Utc(a)).Some? && Parse(Rfc3339Utc(b)).Some?
    ensures Parse(Rfc3339Utc(a)).value <= Parse(Rfc3339Utc(b)).value
  {
    Rfc3339RoundTrip(a);
    Rfc3339RoundTrip(b);
  }
}
