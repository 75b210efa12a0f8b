/**
 * Python's `date` and `datetime` on one integer clock: a date is a day number
 * counted from 1970-01-01 (a Thursday), a date-time is seconds since
 * 1970-01-01 00:00 (naive, no time zone), as `datetime.combine(day, t)` gives.
 */
module Clock {
  const DaySeconds: int := 86400
  const DayMinutes: int := 1440

  /** `datetime.combine(day, t)` for a clock time t given as minutes after midnight. */
  function Combine(day: int, minuteOfDay: int): int {
    day * DaySeconds + minuteOfDay * 60
  }

  const WeekdayNames: seq<string> := ["Monday", "Tuesday", "Wednesday", "Thursday", "Friday", "Saturday", "Sunday"]

  /** `day.weekday()`: Monday is 0.  Day 0 is a Thursday. */
  function Weekday(day: int): (w: nat)
    ensures w < 7
  {
    (day + 3) % 7
  }

  /** `day.strftime("%A")` in the C locale. */
  function WeekdayName(day: int): string {
    WeekdayNames[Weekday(day)]
  }

  /** The weekday name repeats every seven days and names differ within a week. */
  lemma WeekdayNamePeriodic(day: int, k: int)
    ensures WeekdayName(day + 7 * k) == WeekdayName(day)
    ensures WeekdayName(day) == WeekdayName(day + k) <==> k % 7 == 0
  {
    assert (day + 7 * k + 3) % 7 == (day + 3) % 7;
    if k % 7 != 0 {
      assert Weekday(day) != Weekday(day + k);
      NamesDistinct(Weekday(day), Weekday(day + k));
    } else {
      assert Weekday(day) == Weekday(day + k);
    }
  }

  /** No two weekdays share a name (their first two letters already differ). */
  lemma NamesDistinct(i: nat, j: nat)
    requires i < 7 && j < 7 && i != j
    ensures WeekdayNames[i] != WeekdayNames[j]
  {
    assert WeekdayNames[i][0] != WeekdayNames[j][0] || WeekdayNames[i][1] != WeekdayNames[j][1];
  }
}
