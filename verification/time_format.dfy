/** The clock labels of the control bar: `formatTime` in index.js.

    The source builds a `Date` from the elapsed seconds, asks for its ISO 8601
    string, keeps the "HH:mm:ss" time of day (`substr(11, 8)`) and then cuts the
    minutes and the seconds out of that. This module follows the same route:
    the time of day of an instant is computed from milliseconds since the epoch,
    written with two-digit fields, and the two fields are cut out by position.
    The lemmas then say what comes out in plain arithmetic: the minutes of the
    hour and the seconds of the minute, with the hours thrown away. */
module TimeFormat {

  /** The two fields `formatTime` returns, `{ minutes, seconds }`. */
  datatype Clock = Clock(minutes: string, seconds: string)

  const MsPerSecond := 1000
  const MsPerMinute := 60000
  const MsPerHour := 3600000
  const MsPerDay := 86400000

  predicate IsDigit(c: char) {
    '0' <= c <= '9'
  }

  /** The decimal digit character for `d`. */
  function Digit(d: int): (c: char)
    requires 0 <= d < 10
    ensures IsDigit(c) && DigitValue(c) == d
  {
    ('0' as int + d) as char
  }

  function DigitValue(c: char): int
    requires IsDigit(c)
  {
    c as int - '0' as int
  }

  predicate IsTwoDigits(s: string) {
    |s| == 2 && IsDigit(s[0]) && IsDigit(s[1])
  }

  /** The number a two-digit decimal field denotes ("05" is 5). */
  function TwoDigitValue(s: string): int
    requires IsTwoDigits(s)
  {
    10 * DigitValue(s[0]) + DigitValue(s[1])
  }

  /** A number below 100 written with two decimal digits, padded with a
      leading zero, as toISOString writes hours, minutes and seconds. */
  function Pad2(n: int): (s: string)
    requires 0 <= n < 100
    ensures IsTwoDigits(s)
    ensures TwoDigitValue(s) == n
  {
    [Digit(n / 10), Digit(n % 10)]
  }

  /** `new Date(ms).toISOString().substr(11, 8)`: the UTC time of day, as
      "HH:mm:ss", of the instant `ms` milliseconds after the epoch. Dafny's
      `%` and `/` are Euclidean, so an instant before the epoch gets the time
      of day of the previous day, as the ISO string gives it. */
  function IsoTimeOfDay(ms: int): (hms: string)
    ensures |hms| == 8 && hms[2] == ':' && hms[5] == ':'
    ensures IsTwoDigits(hms[0..2]) && IsTwoDigits(hms[3..5]) && IsTwoDigits(hms[6..8])
    ensures TwoDigitValue(hms[0..2]) < 24
    ensures TwoDigitValue(hms[3..5]) < 60 && TwoDigitValue(hms[6..8]) < 60
  {
    var sinceMidnight := ms % MsPerDay;
    var hh := Pad2(sinceMidnight / MsPerHour);
    var mm := Pad2(sinceMidnight / MsPerMinute % 60);
    var ss := Pad2(sinceMidnight / MsPerSecond % 60);
    assert (hh + ":" + mm + ":" + ss)[0..2] == hh;
    assert (hh + ":" + mm + ":" + ss)[3..5] == mm;
    assert (hh + ":" + mm + ":" + ss)[6..8] == ss;
    hh + ":" + mm + ":" + ss
  }

  /** formatTime: the minutes (`substr(3, 2)`) and the seconds
      (`substr(6, 2)`) of the time of day `t` seconds after the epoch. */
  function FormatTime(t: int): (c: Clock)
    ensures IsTwoDigits(c.minutes) && IsTwoDigits(c.seconds)
    ensures TwoDigitValue(c.minutes) < 60 && TwoDigitValue(c.seconds) < 60
  {
    var hms := IsoTimeOfDay(t * MsPerSecond);
    Clock(hms[3..5], hms[6..8])
  }

  /** The "mm:ss" text the control bar shows for a clock. */
  function ClockText(c: Clock): (text: string)
    requires IsTwoDigits(c.minutes) && IsTwoDigits(c.seconds)
    ensures |text| == 5 && text[2] == ':'
    ensures text[0..2] == c.minutes && text[3..5] == c.seconds
  {
    c.minutes + ":" + c.seconds
  }

  /** The number of seconds a clock reads, minutes and seconds together. */
  function ClockSeconds(c: Clock): int
    requires IsTwoDigits(c.minutes) && IsTwoDigits(c.seconds)
  {
    60 * TwoDigitValue(c.minutes) + TwoDigitValue(c.seconds)
  }

  /** Division with remainder has one answer: if `a == d * q + r` with the
      remainder in range, then `q` and `r` are Dafny's `a / d` and `a % d`. */
  lemma DivModUnique(a: int, d: int, q: int, r: int)
    requires 0 < d && 0 <= r < d && a == d * q + r
    ensures a / d == q && a % d == r
  {
    var q', r' := a / d, a % d;
    assert d * (q - q') == r' - r;
    if q > q' {
      MulAtLeast(d, q - q');
    } else if q < q' {
      MulAtLeast(d, q' - q);
    }
  }

  lemma MulAtLeast(d: int, k: int)
    requires 0 < d && 1 <= k
    ensures d * k >= d
  {
  }

  /** The minutes field is the minute of the hour, the seconds field the
      second of the minute: `(t div 60) mod 60` and `t mod 60`. */
  lemma FormatTimeFields(t: int)
    ensures FormatTime(t).minutes == Pad2(t / 60 % 60)
    ensures FormatTime(t).seconds == Pad2(t % 60)
  {
    var q, u := t / 86400, t % 86400;
    // the time of day in milliseconds is the time of day in seconds, scaled
    DivModUnique(t * MsPerSecond, MsPerDay, q, 1000 * u);
    var sinceMidnight := t * MsPerSecond % MsPerDay;
    assert sinceMidnight == 1000 * u;
    // the minute and the second of that time of day
    DivModUnique(1000 * u, MsPerMinute, u / 60, 1000 * (u % 60));
    DivModUnique(1000 * u, MsPerSecond, u, 0);
    // a whole day is a whole number of minutes and of hours
    DivModUnique(t, 60, 1440 * q + u / 60, u % 60);
    DivModUnique(t / 60, 60, 24 * q + u / 60 / 60, u / 60 % 60);
    assert sinceMidnight / MsPerMinute % 60 == t / 60 % 60;
    assert sinceMidnight / MsPerSecond % 60 == t % 60;
  }

  /** Hours are dropped: a time and the same time within its hour show the
      same clock, so 3725 s shows "02", "05" just like 125 s. */
  lemma FormatTimeDropsHours(t: int)
    ensures FormatTime(t) == FormatTime(t % 3600)
  {
    var h, u := t / 3600, t % 3600;
    var m, s := u / 60, u % 60;
    assert t / 60 % 60 == m && t % 60 == s by {
      DivModUnique(t, 60, 60 * h + m, s);
      DivModUnique(60 * h + m, 60, h, m);
    }
    assert u / 60 % 60 == m by {
      DivModUnique(m, 60, 0, m);
    }
    FormatTimeFields(t);
    FormatTimeFields(u);
  }

  /** Reading the clock back gives the seconds within the hour: the label
      is exact below one hour and loses whole hours above it. */
  lemma FormatTimeReadsBack(t: int)
    ensures ClockSeconds(FormatTime(t)) == t % 3600
  {
    FormatTimeFields(t);
    var h, u := t / 3600, t % 3600;
    DivModUnique(t, 60, 60 * h + u / 60, u % 60);
    DivModUnique(t / 60, 60, h, u / 60);
  }

  /** Below one hour two different times never show the same clock. */
  lemma FormatTimeInjectiveWithinHour(s: int, t: int)
    requires 0 <= s < 3600 && 0 <= t < 3600 && s != t
    ensures FormatTime(s) != FormatTime(t)
  {
    FormatTimeReadsBack(s);
    FormatTimeReadsBack(t);
    DivModUnique(s, 3600, 0, s);
    DivModUnique(t, 3600, 0, t);
  }

  /** 125 s reads "02:05". */
  lemma FormatTimeExamples()
    ensures FormatTime(125) == Clock("02", "05")
    ensures ClockText(FormatTime(125)) == "02:05"
  {
    FormatTimeFields(125);
    assert 125 / 60 % 60 == 2 && 125 % 60 == 5;
    assert Pad2(2) == "02" && Pad2(5) == "05";
  }

  /** An hour more, 3725 s, reads "02:05" too. */
  lemma FormatTimeExampleOverAnHour()
    ensures FormatTime(3725) == Clock("02", "05")
  {
    FormatTimeDropsHours(3725);
    assert 3725 % 3600 == 125;
    FormatTimeExamples();
  }
}
