/** Recurring cadences in fixed-offset zones: `normalize_cadence` and `next_occurrence_utc`. */
module Cadence {
  import opened Numbers
  import opened Wrappers

  /******* Input *******/

  datatype Kind = Daily | Weekly(weekday: nat)

  /** Minutes after local midnight, and the zone's offset from UTC in microseconds. */
  datatype Cadence = Cadence(kind: Kind, minuteOfDay: nat, offset: int)

  predicate Valid(c: Cadence) {
    c.minuteOfDay < 1440 && (c.kind.Weekly? ==> c.kind.weekday <= 6)
  }

  predicate IsDigit(c: char) {
    '0' <= c <= '9'
  }

  function DigitValue(c: char): nat
    requires IsDigit(c)
  {
    (c - '0') as nat
  }

  /** Strict HH:MM, already stripped; the result counts minutes. */
  function ParseLocalTime(text: string): (r: Option<nat>)
    ensures r.Some? ==> r.value < 1440
  {
    if |text| != 5 || text[2] != ':' then None
    else if !IsDigit(text[0]) || !IsDigit(text[1]) || !IsDigit(text[3]) || !IsDigit(text[4]) then None
    else
      var h, m := 10 * DigitValue(text[0]) + DigitValue(text[1]), 10 * DigitValue(text[3]) + DigitValue(text[4]);
      if h < 24 && m < 60 then Some(60 * h + m) else None
  }

  function DigitChar(d: nat): (c: char)
    requires d < 10
    ensures IsDigit(c) && DigitValue(c) == d
  {
    '0' + d as char
  }

  function FormatLocalTime(minuteOfDay: nat): (text: string)
    requires minuteOfDay < 1440
    ensures |text| == 5
  {
    var h, m := minuteOfDay / 60, minuteOfDay % 60;
    [DigitChar(h / 10), DigitChar(h % 10), ':', DigitChar(m / 10), DigitChar(m % 10)]
  }

  /** Parsing inverts formatting. */
  lemma ParseInvertsFormat(minuteOfDay: nat)
    requires minuteOfDay < 1440
    ensures ParseLocalTime(FormatLocalTime(minuteOfDay)) == Some(minuteOfDay)
  {
    var h, m := minuteOfDay / 60, minuteOfDay % 60;
    assert 10 * (h / 10) + h % 10 == h && 10 * (m / 10) + m % 10 == m;
  }

  /** Parsing accepts nothing but what formatting produces. */
  lemma ParsedIsFormatted(text: string)
    requires ParseLocalTime(text).Some?
    ensures FormatLocalTime(ParseLocalTime(text).value) == text
  {
    var h, m := 10 * DigitValue(text[0]) + DigitValue(text[1]), 10 * DigitValue(text[3]) + DigitValue(text[4]);
    TwoDigits(60 * h + m, h, m);
    assert h / 10 == DigitValue(text[0]) && h % 10 == DigitValue(text[1]);
    assert m / 10 == DigitValue(text[3]) && m % 10 == DigitValue(text[4]);
    SameDigit(text[0]);
    SameDigit(text[1]);
    SameDigit(text[3]);
    SameDigit(text[4]);
  }

  lemma TwoDigits(x: nat, h: nat, m: nat)
    requires x == 60 * h + m && m < 60
    ensures x / 60 == h && x % 60 == m
  {
  }

  lemma SameDigit(c: char)
    requires IsDigit(c)
    ensures DigitChar(DigitValue(c)) == c
  {
  }

  /** The text is some minute of the day, written out. */
  ghost predicate IsLocalTime(text: string) {
    exists minute: nat :: minute < 1440 && FormatLocalTime(minute) == text
  }

  lemma ParsesIff(text: string)
    ensures ParseLocalTime(text).Some? <==> IsLocalTime(text)
    ensures ParseLocalTime(text).Some? ==> FormatLocalTime(ParseLocalTime(text).value) == text
  {
    if ParseLocalTime(text).Some? {
      ParsedIsFormatted(text);
    }
    if minute: nat :| minute < 1440 && FormatLocalTime(minute) == text {
      ParseInvertsFormat(minute);
    }
  }

  /** The two kinds of cadence and the weekday each of them needs. */
  predicate KindFits(kind: string, weekday: Option<int>) {
    (kind == "daily" && weekday.None?) || (kind == "weekly" && weekday.Some? && 0 <= weekday.value <= 6)
  }

  /**
   `normalize_cadence`, after the stripping of its two texts: accepts exactly a daily or weekly kind
   with its weekday and a time of day in its strict form, and keeps all of them.
   */
  function Normalize(kind: string, localTime: string, weekday: Option<int>, offset: int): (r: Option<Cadence>)
    ensures r.Some? <==> KindFits(kind, weekday) && IsLocalTime(localTime)
    ensures r.Some? ==>
      && Valid(r.value) && FormatLocalTime(r.value.minuteOfDay) == localTime && r.value.offset == offset
      && (r.value.kind.Daily? <==> kind == "daily")
      && (r.value.kind.Weekly? ==> weekday == Some(r.value.kind.weekday))
  {
    ParsesIff(localTime);
    var minute := ParseLocalTime(localTime);
    if minute.None? then None
    else if kind == "daily" then
      if weekday.Some? then None else Some(Cadence(Daily, minute.value, offset))
    else if kind == "weekly" then
      if weekday.Some? && 0 <= weekday.value <= 6 then Some(Cadence(Weekly(weekday.value), minute.value, offset))
      else None
    else None
  }

  /******* Occurrences *******/

  const MINUTE: int := 60_000_000

  /** Day 0 is 1970-01-01, a Thursday; Monday is 0. */
  function Weekday(day: int): (w: nat)
    ensures w < 7
  {
    (day + 3) % 7
  }

  /** The instant at which the local clock shows the cadence's time on a local day. */
  function At(c: Cadence, day: int): int {
    day * DAY + c.minuteOfDay * MINUTE - c.offset
  }

  /** `next_occurrence_utc` with the zone at a fixed offset. */
  function NextOccurrence(c: Cadence, after: int): int {
    var today := (after + c.offset) / DAY;
    match c.kind
    case Daily =>
      var candidate := At(c, today);
      if candidate <= after then At(c, today + 1) else candidate
    case Weekly(weekday) =>
      var day := today + (weekday - Weekday(today)) % 7;
      var candidate := At(c, day);
      if candidate <= after then At(c, day + 7) else candidate
  }

  /**
   The local clock shows the cadence's time, and the local day is as many days after a Monday as the
   weekday says; day 4, 1970-01-05, was a Monday.
   */
  predicate IsOccurrence(c: Cadence, t: int) {
    && (t + c.offset) % 86_400_000_000 == c.minuteOfDay * 60_000_000
    && (c.kind.Weekly? ==> ((t + c.offset) / 86_400_000_000 - 4) % 7 == c.kind.weekday)
  }

  lemma AtIsLocal(c: Cadence, day: int)
    requires Valid(c)
    ensures (At(c, day) + c.offset) / DAY == day && (At(c, day) + c.offset) % DAY == c.minuteOfDay * MINUTE
  {
    DivModOf(day, c.minuteOfDay * MINUTE);
  }

  lemma DivModOf(day: int, rest: int)
    requires 0 <= rest < DAY
    ensures (day * DAY + rest) / DAY == day && (day * DAY + rest) % DAY == rest
  {
  }

  /** Every occurrence is the cadence's time on its own local day. */
  lemma OccurrenceIsAt(c: Cadence, t: int)
    requires IsOccurrence(c, t)
    ensures t == At(c, (t + c.offset) / DAY)
  {
  }

  lemma CountedFromMonday(day: int)
    ensures Weekday(day) == (day - 4) % 7
  {
  }

  lemma WeekdayStep(day: int, weekday: nat)
    requires weekday <= 6
    ensures var d := (weekday - Weekday(day)) % 7;
      0 <= d < 7 && Weekday(day + d) == weekday && (forall k: int :: day <= k < day + d ==> Weekday(k) != weekday)
  {
  }

  lemma WeekdayGap(a: int, b: int)
    requires Weekday(a) == Weekday(b) && a < b
    ensures b >= a + 7
  {
  }

  /** An occurrence after an instant falls on the same local day or on a later one. */
  lemma NotBeforeToday(c: Cadence, after: int, t: int)
    requires IsOccurrence(c, t) && t > after
    ensures (t + c.offset) / DAY >= (after + c.offset) / DAY && t == At(c, (t + c.offset) / DAY)
  {
    OccurrenceIsAt(c, t);
  }

  lemma AtGrows(c: Cadence, a: int, b: int)
    requires a <= b
    ensures At(c, a) <= At(c, b)
  {
  }

  lemma DailyIsLeast(c: Cadence, after: int, t: int)
    requires Valid(c) && c.kind.Daily?
    ensures IsOccurrence(c, NextOccurrence(c, after)) && NextOccurrence(c, after) > after
    ensures IsOccurrence(c, t) && t > after ==> t >= NextOccurrence(c, after)
  {
    var today := (after + c.offset) / DAY;
    AtIsLocal(c, today);
    AtIsLocal(c, today + 1);
    if IsOccurrence(c, t) && t > after {
      NotBeforeToday(c, after, t);
    }
  }

  lemma WeeklyIsLeast(c: Cadence, after: int, t: int)
    requires Valid(c) && c.kind.Weekly?
    ensures IsOccurrence(c, NextOccurrence(c, after)) && NextOccurrence(c, after) > after
    ensures IsOccurrence(c, t) && t > after ==> t >= NextOccurrence(c, after)
  {
    hide Weekday, At;
    var today := (after + c.offset) / DAY;
    WeekdayStep(today, c.kind.weekday);
    var first := today + (c.kind.weekday - Weekday(today)) % 7;
    WeekLater(c, today, first, after);
    if IsOccurrence(c, t) && t > after {
      NotBeforeToday(c, after, t);
      var day := (t + c.offset) / DAY;
      CountedFromMonday(day);
      if day > first {
        WeekdayGap(first, day);
        AtGrows(c, first + 7, day);
        AtGrows(c, first, day);
      }
    }
  }

  /** The first matching day and the same weekday a week later. */
  lemma WeekLater(c: Cadence, today: int, first: int, after: int)
    requires Valid(c) && c.kind.Weekly? && today == (after + c.offset) / DAY && today <= first
    requires Weekday(first) == c.kind.weekday
    ensures IsOccurrence(c, At(c, first)) && IsOccurrence(c, At(c, first + 7)) && At(c, first + 7) > after
  {
    AtIsLocal(c, first);
    AtIsLocal(c, first + 7);
  }

  /** The result is the least occurrence strictly after `after`. */
  lemma NextIsLeast(c: Cadence, after: int, t: int)
    requires Valid(c)
    ensures IsOccurrence(c, NextOccurrence(c, after)) && NextOccurrence(c, after) > after
    ensures IsOccurrence(c, t) && t > after ==> t >= NextOccurrence(c, after)
  {
    hide NextOccurrence, IsOccurrence;
    if c.kind.Daily? {
      DailyIsLeast(c, after, t);
    } else {
      WeeklyIsLeast(c, after, t);
    }
  }

  /** A later start never gives an earlier occurrence. */
  lemma NextIsMonotone(c: Cadence, a: int, b: int)
    requires Valid(c) && a <= b
    ensures NextOccurrence(c, a) <= NextOccurrence(c, b)
  {
    hide NextOccurrence, IsOccurrence;
    NextIsLeast(c, a, NextOccurrence(c, b));
    NextIsLeast(c, b, 0);
  }

  /** From one occurrence to the next is exactly one period. */
  lemma NextAfterOccurrence(c: Cadence, t: int)
    requires Valid(c) && IsOccurrence(c, t)
    ensures NextOccurrence(c, t) == t + (if c.kind.Daily? then DAY else 7 * DAY)
  {
    OccurrenceIsAt(c, t);
    if c.kind.Weekly? {
      var today := (t + c.offset) / DAY;
      assert (c.kind.weekday - Weekday(today)) % 7 == 0;
    }
  }
}
