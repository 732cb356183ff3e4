/** Local time as the components see it through `Date` and moment: instants are integer
    milliseconds since 1970-01-01 00:00 local time, days are numbered from that date, and the
    locale's first day of the week is a parameter (0 = Sunday ... 6 = Saturday). */
module Clock {

  const SecondMs: int := 1000
  const MinuteMs: int := 60_000
  const HourMs: int := 3_600_000
  const DayMs: int := 86_400_000

  /** The day number of an instant (floor division, so instants before 1970 work too). */
  function DayOf(t: int): int
  {
    t / DayMs
  }

  /** moment's `startOf('day')`: local midnight of the instant's day. */
  function StartOfDay(t: int): (r: int)
    ensures r <= t < r + DayMs
    ensures r == DayOf(t) * DayMs
  {
    DayOf(t) * DayMs
  }

  /** moment's `endOf('day')`: the last millisecond of the instant's day. */
  function EndOfDay(t: int): (r: int)
    ensures t <= r < t + DayMs
    ensures DayOf(r) == DayOf(t) && DayOf(r + 1) == DayOf(t) + 1
  {
    StartOfDay(t) + DayMs - 1
  }

  /** Milliseconds since local midnight. */
  function MsOfDay(t: int): (r: nat)
    ensures r < DayMs && t == DayOf(t) * DayMs + r
  {
    t % DayMs
  }

  /** `getHours()`: the local hour of an instant. */
  function HourOf(t: int): (h: nat)
    ensures h < 24
  {
    MsOfDay(t) / HourMs
  }

  /** `getMinutes()`: the local minute of an instant. */
  function MinuteOf(t: int): (m: nat)
    ensures m < 60
  {
    (t % HourMs) / MinuteMs
  }

  /** The seconds and milliseconds part of an instant, which setting hour and minute keeps. */
  function SubMinuteMs(t: int): (r: nat)
    ensures r < MinuteMs
  {
    t % MinuteMs
  }

  /** An instant is its day, its hour and what lies below the hour. */
  lemma HourSplit(t: int)
    ensures t == DayOf(t) * DayMs + HourOf(t) * HourMs + t % HourMs
  {
    var ms := t % DayMs;
    var k := DayOf(t) * 24 + ms / HourMs;
    assert t == k * HourMs + ms % HourMs;
    assert t % HourMs == ms % HourMs;
  }

  /** Below the hour, an instant is its minute and what lies below the minute. */
  lemma MinuteSplit(t: int)
    ensures t == (t / HourMs) * HourMs + MinuteOf(t) * MinuteMs + SubMinuteMs(t)
  {
    var r := t % HourMs;
    var k := (t / HourMs) * 60 + r / MinuteMs;
    assert t == k * MinuteMs + r % MinuteMs;
    assert t % MinuteMs == r % MinuteMs;
  }

  /** `setHours(h)` on a local date: the same day at hour `h` (a later day when h >= 24), with
      minutes, seconds and milliseconds kept. */
  function SetHour(t: int, h: int): int
  {
    DayOf(t) * DayMs + h * HourMs + t % HourMs
  }

  /** `setMinutes(m)`: the same hour at minute `m`, seconds and milliseconds kept. */
  function SetMinute(t: int, m: int): int
  {
    (t / HourMs) * HourMs + m * MinuteMs + t % MinuteMs
  }

  /** Setting hour then minute moves the instant to that hour and minute of its own day. */
  lemma SetHourThenMinute(t: int, h: int, m: int)
    ensures SetMinute(SetHour(t, h), m) == DayOf(t) * DayMs + h * HourMs + m * MinuteMs + SubMinuteMs(t)
  {
    var t1 := SetHour(t, h);
    var r := t % HourMs;
    assert t1 == (DayOf(t) * 24 + h) * HourMs + r;
    assert t1 / HourMs == DayOf(t) * 24 + h;
    assert t1 % HourMs == r;
    assert r == (r / MinuteMs) * MinuteMs + r % MinuteMs;
    assert t == ((t / HourMs) * 60 + r / MinuteMs) * MinuteMs + r % MinuteMs;
    assert t % MinuteMs == r % MinuteMs;
    assert t1 == ((DayOf(t) * 24 + h) * 60 + r / MinuteMs) * MinuteMs + r % MinuteMs;
    assert t1 % MinuteMs == r % MinuteMs;
  }

  /** Setting an instant's own hour and minute leaves it unchanged. */
  lemma SetOwnHourAndMinute(t: int)
    ensures SetMinute(SetHour(t, HourOf(t)), MinuteOf(t)) == t
  {
    SetHourThenMinute(t, HourOf(t), MinuteOf(t));
    HourSplit(t);
    MinuteSplit(t);
    assert t / HourMs == DayOf(t) * 24 + HourOf(t) by {
      assert t == (DayOf(t) * 24 + HourOf(t)) * HourMs + t % HourMs;
    }
  }

  // ---------------------------------------------------------------------------
  // Weeks

  /** Day of the week of a day number, 0 = Sunday; 1970-01-01 was a Thursday. */
  function Weekday(day: int): (w: nat)
    ensures w < 7
  {
    (day + 4) % 7
  }

  /** The first day of the week containing `day`, for a locale whose weeks begin on `weekStart`
      (moment's `startOf('week')`). */
  function WeekStartDay(day: int, weekStart: nat): (r: int)
    requires weekStart < 7
    ensures r <= day < r + 7
    ensures Weekday(r) == weekStart
  {
    var back := (Weekday(day) - weekStart) % 7;
    WeekdayBack(day, weekStart, back);
    day - back
  }

  lemma WeekdayBack(day: int, weekStart: nat, back: int)
    requires weekStart < 7 && back == (Weekday(day) - weekStart) % 7
    ensures 0 <= back < 7 && Weekday(day - back) == weekStart
  {
    var w := Weekday(day);
    var q := (day + 4) / 7;
    assert day + 4 == 7 * q + w;
    if w >= weekStart {
      assert back == w - weekStart;
      assert day - back + 4 == 7 * q + weekStart;
    } else {
      assert back == w - weekStart + 7;
      assert day - back + 4 == 7 * (q - 1) + weekStart;
    }
  }

  // ---------------------------------------------------------------------------
  // Civil (proleptic Gregorian) dates

  predicate IsLeapYear(y: int)
  {
    y % 4 == 0 && (y % 100 != 0 || y % 400 == 0)
  }

  function DaysInMonth(y: int, m: int): (n: int)
    requires 1 <= m <= 12
    ensures 28 <= n <= 31
  {
    if m == 2 then (if IsLeapYear(y) then 29 else 28)
    else if m == 4 || m == 6 || m == 9 || m == 11 then 30
    else 31
  }

  /** Days from 1 March to the first of the month `mp` months later (0 = March ... 11 = February). */
  function DaysSinceMarch(mp: int): int
    requires 0 <= mp < 12
  {
    [0, 31, 61, 92, 122, 153, 184, 214, 245, 275, 306, 337][mp]
  }

  /** The day number of the first day of month `m` of year `y`; the count runs in years that
      begin in March, so a leap day is the last day of its counting year. */
  function MonthStartDay(y: int, m: int): int
    requires 1 <= m <= 12
  {
    var y' := if m <= 2 then y - 1 else y;
    var mp := (m + 9) % 12;
    y' * 365 + y' / 4 - y' / 100 + y' / 400 + DaysSinceMarch(mp) - 719468
  }

  datatype Date = Date(year: int, month: int, day: int)

  predicate ValidDate(d: Date)
  {
    1 <= d.month <= 12 && 1 <= d.day <= DaysInMonth(d.year, d.month)
  }

  /** `new Date(year, month - 1, day)`: a day past the end of the month runs on into the next. */
  function DayNumber(d: Date): int
    requires 1 <= d.month <= 12
  {
    MonthStartDay(d.year, d.month) + d.day - 1
  }

  lemma EpochIsThursday()
    ensures DayNumber(Date(1970, 1, 1)) == 0 && Weekday(0) == 4
  {
  }

  /** Floor division by 4, 100 or 400 steps up by one exactly at a multiple. */
  lemma FloorStep(y: int, k: int)
    requires k == 4 || k == 100 || k == 400
    ensures y / k - (y - 1) / k == if y % k == 0 then 1 else 0
  {
    var q, r := y / k, y % k;
    var q', r' := (y - 1) / k, (y - 1) % k;
    assert y == k * q + r && 0 <= r < k;
    assert y - 1 == k * q' + r' && 0 <= r' < k;
    if r == 0 {
      assert k * (q - q') == r' + 1;
      assert q - q' == 1;
    } else {
      assert k * (q - q') == r' + 1 - r;
      assert q - q' == 0;
    }
  }

  /** Each month ends the day before the next one begins, so months tile the day line. */
  lemma MonthsAreContiguous(y: int, m: int)
    requires 1 <= m <= 12
    ensures MonthStartDay(y, m) + DaysInMonth(y, m)
            == if m == 12 then MonthStartDay(y + 1, 1) else MonthStartDay(y, m + 1)
  {
    if m == 2 {
      FebruaryLength(y);
    } else if m == 12 {
      var base := y * 365 + y / 4 - y / 100 + y / 400 - 719468;
      assert MonthStartDay(y, 12) == base + 275;
      assert MonthStartDay(y + 1, 1) == base + 306;
    } else {
      var y' := if m <= 2 then y - 1 else y;
      var base := y' * 365 + y' / 4 - y' / 100 + y' / 400 - 719468;
      assert MonthStartDay(y, m) == base + DaysSinceMarch((m + 9) % 12);
      assert MonthStartDay(y, m + 1) == base + DaysSinceMarch((m + 10) % 12);
    }
  }

  /** February has 29 days exactly in a leap year: the count of leap days steps at year `y`. */
  lemma FebruaryLength(y: int)
    ensures MonthStartDay(y, 2) + DaysInMonth(y, 2) == MonthStartDay(y, 3)
  {
    FloorStep(y, 4);
    FloorStep(y, 100);
    FloorStep(y, 400);
    assert MonthStartDay(y, 3) - MonthStartDay(y, 2)
           == 365 + (y / 4 - (y - 1) / 4) - (y / 100 - (y - 1) / 100) + (y / 400 - (y - 1) / 400) - 337;
    assert y % 100 == 0 ==> y % 4 == 0;
    assert y % 400 == 0 ==> y % 100 == 0;
  }
}
