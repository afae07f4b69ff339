/**
  Calendar time in the application's single timezone, as the reminder
  command uses it through Carbon.  An instant is a day number (days since
  1970-01-01) and a second within that day; timezones, daylight saving and
  sub-second precision are not modelled.
 */
module Calendar {
  const SecondsPerDay: int := 86400
  const SecondsPerHour: int := 3600

  type SecondOfDay = s: int | 0 <= s < 86400

  datatype Instant = At(day: int, second: SecondOfDay)

  /** Seconds since 1970-01-01 00:00:00. */
  function Seconds(t: Instant): int
  {
    t.day * SecondsPerDay + t.second
  }

  /** Carbon's dayOfWeek numbering: 0 is Sunday, 6 is Saturday; 1970-01-01 was a Thursday. */
  function DayOfWeek(day: int): (w: int)
    ensures 0 <= w < 7
  {
    (day + 4) % 7
  }

  /**
    1970-01-01 is a Thursday (4) and each day is the weekday after the one
    before, wrapping from Saturday (6) to Sunday (0); together these fix
    the weekday of every day number.
   */
  lemma WeekdaysCycle(day: int)
    ensures DayOfWeek(0) == 4
    ensures DayOfWeek(day + 1) == (DayOfWeek(day) + 1) % 7
    ensures DayOfWeek(day + 7) == DayOfWeek(day)
  {
  }

  predicate IsSaturday(day: int) { DayOfWeek(day) == 6 }
  predicate IsSunday(day: int) { DayOfWeek(day) == 0 }
  predicate IsWeekend(day: int) { IsSaturday(day) || IsSunday(day) }

  /** Every run of seven consecutive days holds exactly two weekend days, Saturday then Sunday. */
  lemma WeekendFollowsFriday(day: int)
    requires DayOfWeek(day) == 5
    ensures !IsWeekend(day) && IsSaturday(day + 1) && IsSunday(day + 2)
    ensures !IsWeekend(day + 3) && !IsWeekend(day - 1)
  {
  }

  function StartOfDay(t: Instant): Instant
  {
    At(t.day, 0)
  }

  /** Carbon's subDays: the same time of day, n days earlier. */
  function SubDays(t: Instant, n: int): (r: Instant)
    ensures Seconds(r) == Seconds(t) - n * SecondsPerDay
  {
    At(t.day - n, t.second)
  }

  /** Carbon's subHours: h hours earlier, crossing into earlier days as needed. */
  function SubHours(t: Instant, h: nat): (r: Instant)
    ensures Seconds(r) == Seconds(t) - h * SecondsPerHour
  {
    var s := t.second - h * SecondsPerHour;
    At(t.day + s / SecondsPerDay, s % SecondsPerDay)
  }

  /** Carbon's isPast: strictly before the (injected) current instant. */
  predicate IsPast(t: Instant, now: Instant)
  {
    Seconds(t) < Seconds(now)
  }

  predicate IsSameDay(a: Instant, b: Instant)
  {
    a.day == b.day
  }

  predicate IsTomorrow(t: Instant, now: Instant)
  {
    t.day == now.day + 1
  }

  /** PHP's (int) cast of a quotient: truncation toward zero. */
  function TruncDiv(x: int, d: int): (q: int)
    requires d > 0
    ensures x >= 0 ==> q * d <= x < q * d + d
    ensures x < 0 ==> q * d - d < x <= q * d
  {
    if x >= 0 then x / d else -((-x) / d)
  }

  /** (int) $from->diffInHours($to, false): signed whole hours from one instant to the other. */
  function DiffInHours(from: Instant, to: Instant): (h: int)
    ensures Seconds(from) <= Seconds(to) ==>
      h * SecondsPerHour <= Seconds(to) - Seconds(from) < h * SecondsPerHour + SecondsPerHour
    ensures Seconds(to) < Seconds(from) ==>
      h * SecondsPerHour - SecondsPerHour < Seconds(to) - Seconds(from) <= h * SecondsPerHour
  {
    TruncDiv(Seconds(to) - Seconds(from), SecondsPerHour)
  }

  /** (int) $from->diffInDays($to, false): signed whole days from one instant to the other. */
  function DiffInDays(from: Instant, to: Instant): (d: int)
    ensures from.second == 0 && to.second == 0 ==> d == to.day - from.day
  {
    TruncDiv(Seconds(to) - Seconds(from), SecondsPerDay)
  }

  /**
    Moves an instant off the weekend: Saturday goes back one day, Sunday
    two, any other day stays.  The result is the latest working day not
    after the given one, at the same time of day.
   */
  function ShiftOffWeekend(t: Instant): (r: Instant)
    ensures r.second == t.second && t.day - 2 <= r.day <= t.day
    ensures !IsWeekend(r.day)
    ensures forall d :: r.day < d <= t.day ==> IsWeekend(d)
    ensures !IsWeekend(t.day) ==> r == t
  {
    if IsSaturday(t.day) then
      WeekendFollowsFriday(t.day - 1);
      SubDays(t, 1)
    else if IsSunday(t.day) then
      WeekendFollowsFriday(t.day - 2);
      SubDays(t, 2)
    else
      t
  }
}
