/**
 * `get_available_slots(entity, day)`: the availability entries of a judge (or
 * any entity) for the weekday of `day`, turned into (start, end) date-times on
 * that day.  An availability entry is a JSON object such as
 * `{"day": "Monday", "start": "10:00", "end": "17:00"}`; its values are
 * modelled as strings.
 */
module CalendarUtils {
  import opened Wrappers
  import opened Text
  import opened Clock
  import Seqs

  type Entry = map<string, string>

  /**
   * An entity as `getattr(entity, "availability", [])` sees it: `None` when it
   * has no `availability` attribute (a Lawyer, which has `busy_slots`).
   */
  datatype Entity = Entity(availability: Option<seq<Entry>>)

  /** Why the computation raised: `KeyError` on a missing key, `ValueError` from `strptime`. */
  datatype SlotError = MissingKey(key: string) | BadTime(text: string)

  /** The comprehension's test `s.get("day") == weekday`: a missing `day` never matches. */
  predicate OnDay(e: Entry, weekday: string) {
    "day" in e && e["day"] == weekday
  }

  /** The test of the comprehension for the date `day`, as one value. */
  function OnWeekdayOf(day: int): Entry -> bool {
    e => OnDay(e, WeekdayName(day))
  }

  /** The entries kept by the comprehension, in their original order. */
  function Matching(entity: Entity, day: int): seq<Entry> {
    Seqs.Filter(entity.availability.GetOr([]), OnWeekdayOf(day))
  }

  /** One or two ASCII digits, the field syntax of `%H` and `%M`. */
  predicate ClockField(s: string) {
    1 <= |s| <= 2 && AllDigits(s)
  }

  /**
   * `strptime(s, "%H:%M")` as minutes after midnight: the whole string must be
   * an hour of one or two digits up to 23, a colon, and a minute of one or two
   * digits up to 59.
   */
  function ParseClock(s: string): (r: Option<nat>)
    ensures r.Some? ==> r.value < DayMinutes
  {
    if ':' !in s then None
    else
      var i := IndexOf(s, ':');
      var h, m := s[..i], s[i + 1..];
      if ClockField(h) && ClockField(m) && DigitsValue(h) <= 23 && DigitsValue(m) <= 59
      then Some(DigitsValue(h) * 60 + DigitsValue(m))
      else None
  }

  /** `s[key]` read as a clock time, or the exception it raises. */
  function ClockOf(e: Entry, key: string): Result<nat, SlotError> {
    if key !in e then Failure(MissingKey(key))
    else match ParseClock(e[key])
      case None => Failure(BadTime(e[key]))
      case Some(t) => Success(t)
  }

  /** The pair appended for one entry: its start is read before its end. */
  function Pair(e: Entry, day: int): Result<(int, int), SlotError> {
    match ClockOf(e, "start")
    case Failure(err) => Failure(err)
    case Success(st) =>
      match ClockOf(e, "end")
      case Failure(err) => Failure(err)
      case Success(en) => Success((Combine(day, st), Combine(day, en)))
  }

  /** The loop over the kept entries: the first entry that raises stops it. */
  function Formatted(ms: seq<Entry>, day: int): Result<seq<(int, int)>, SlotError>
    decreases |ms|
  {
    if ms == [] then Success([])
    else match Formatted(ms[..|ms| - 1], day)
      case Failure(err) => Failure(err)
      case Success(f) =>
        match Pair(ms[|ms| - 1], day)
        case Failure(err) => Failure(err)
        case Success(p) => Success(f + [p])
  }

  /** The outcome of `get_available_slots(entity, day)`. */
  function AvailableSlots(entity: Entity, day: int): Result<seq<(int, int)>, SlotError> {
    Formatted(Matching(entity, day), day)
  }

  /** Once a prefix of the kept entries raises, the whole loop raises the same error. */
  lemma {:induction false} FailureSticks(ms: seq<Entry>, i: nat, day: int)
    requires i <= |ms| && Formatted(ms[..i], day).Failure?
    ensures Formatted(ms, day) == Formatted(ms[..i], day)
    decreases |ms|
  {
    if i < |ms| {
      var init := ms[..|ms| - 1];
      assert init[..i] == ms[..i];
      FailureSticks(init, i, day);
    } else {
      assert ms[..i] == ms;
    }
  }

  /** One more round of the loop: the next entry's pair is appended, or its error raised. */
  lemma FormattedStep(ms: seq<Entry>, i: nat, day: int, f: seq<(int, int)>)
    requires i < |ms| && Formatted(ms[..i], day) == Success(f)
    ensures Formatted(ms[..i + 1], day) == match Pair(ms[i], day)
                                           case Failure(err) => Failure(err)
                                           case Success(p) => Success(f + [p])
  {
    assert ms[..i + 1][..i] == ms[..i];
  }

  /** `get_available_slots`, with the loop that appends to `formatted`. */
  method GetAvailableSlots(entity: Entity, day: int) returns (r: Result<seq<(int, int)>, SlotError>)
    ensures r == AvailableSlots(entity, day)
  {
    var slots := Matching(entity, day);
    var formatted: seq<(int, int)> := [];
    var i := 0;
    while i < |slots|
      invariant 0 <= i <= |slots|
      invariant Formatted(slots[..i], day) == Success(formatted)
    {
      var s := slots[i];
      FormattedStep(slots, i, day, formatted);
      if "start" !in s {
        FailureSticks(slots, i + 1, day);
        return Failure(MissingKey("start"));
      }
      var start := ParseClock(s["start"]);
      if start.None? {
        FailureSticks(slots, i + 1, day);
        return Failure(BadTime(s["start"]));
      }
      if "end" !in s {
        FailureSticks(slots, i + 1, day);
        return Failure(MissingKey("end"));
      }
      var end := ParseClock(s["end"]);
      if end.None? {
        FailureSticks(slots, i + 1, day);
        return Failure(BadTime(s["end"]));
      }
      assert Pair(s, day) == Success((Combine(day, start.value), Combine(day, end.value)));
      formatted := formatted + [(Combine(day, start.value), Combine(day, end.value))];
      i := i + 1;
    }
    assert slots[..i] == slots;
    r := Success(formatted);
  }

  // ---------------------------------------------------------------------------
  // Properties

  /** On success there is one pair per kept entry, in order, each read from that entry. */
  lemma {:induction false} FormattedShape(ms: seq<Entry>, day: int)
    requires Formatted(ms, day).Success?
    ensures |Formatted(ms, day).value| == |ms|
    ensures forall k :: 0 <= k < |ms| ==> Pair(ms[k], day) == Success(Formatted(ms, day).value[k])
    decreases |ms|
  {
    if ms != [] {
      var init := ms[..|ms| - 1];
      FormattedShape(init, day);
      var f := Formatted(init, day).value;
      var g := Formatted(ms, day).value;
      assert g == f + [Pair(ms[|ms| - 1], day).value];
      forall k | 0 <= k < |ms| - 1
        ensures Pair(ms[k], day) == Success(g[k])
      {
        assert ms[k] == init[k] && g[k] == f[k];
      }
    }
  }

  /** Each pair is the entry's start and end clock times on the given date. */
  lemma PairOnDay(e: Entry, day: int)
    requires Pair(e, day).Success?
    ensures "start" in e && "end" in e
    ensures ParseClock(e["start"]).Some? && ParseClock(e["end"]).Some?
    ensures Pair(e, day).value == (Combine(day, ParseClock(e["start"]).value), Combine(day, ParseClock(e["end"]).value))
    ensures day * DaySeconds <= Pair(e, day).value.0 < (day + 1) * DaySeconds
    ensures day * DaySeconds <= Pair(e, day).value.1 < (day + 1) * DaySeconds
  {
  }

  /**
   * The slots returned: one per entry for the weekday of `day`, in order, each
   * at that entry's clock times on `day`.
   */
  lemma SlotsOfEntries(entity: Entity, day: int)
    requires AvailableSlots(entity, day).Success?
    ensures var f, ms := AvailableSlots(entity, day).value, Matching(entity, day);
            && |f| == |ms|
            && forall k :: 0 <= k < |ms| ==>
                 && OnDay(ms[k], WeekdayName(day))
                 && "start" in ms[k] && "end" in ms[k]
                 && ParseClock(ms[k]["start"]).Some? && ParseClock(ms[k]["end"]).Some?
                 && f[k] == (Combine(day, ParseClock(ms[k]["start"]).value), Combine(day, ParseClock(ms[k]["end"]).value))
                 && day * DaySeconds <= f[k].0 < (day + 1) * DaySeconds
                 && day * DaySeconds <= f[k].1 < (day + 1) * DaySeconds
  {
    var ms := Matching(entity, day);
    FormattedShape(ms, day);
    forall k | 0 <= k < |ms| {
      PairOnDay(ms[k], day);
    }
  }

  /** An entity without an `availability` attribute has no slots (its `busy_slots` are not read). */
  lemma NoAvailabilityNoSlots(day: int)
    ensures AvailableSlots(Entity(None), day) == Success([])
  {
  }

  /** An entry for another weekday changes nothing, wherever it stands in the list. */
  lemma OtherDaysIgnored(a: seq<Entry>, e: Entry, b: seq<Entry>, day: int)
    requires !OnDay(e, WeekdayName(day))
    ensures AvailableSlots(Entity(Some(a + [e] + b)), day) == AvailableSlots(Entity(Some(a + b)), day)
  {
    Seqs.FilterSkip(a, e, b, OnWeekdayOf(day));
    assert Matching(Entity(Some(a + [e] + b)), day) == Matching(Entity(Some(a + b)), day);
  }

  /** Two-digit rendering, as in "09". */
  function Pad2(n: nat): (r: string)
    requires n < 100
    ensures ClockField(r) && DigitsValue(r) == n
  {
    var r := [DigitChar(n / 10), DigitChar(n % 10)];
    assert r[..1][..0] == [];
    assert DigitsValue(r[..1]) == n / 10;
    r
  }

  /** An hour field and a minute field joined by a colon parse to their time. */
  lemma ParseFields(h: string, m: string)
    requires ClockField(h) && ClockField(m) && DigitsValue(h) <= 23 && DigitsValue(m) <= 59
    ensures ParseClock(h + ":" + m) == Some(DigitsValue(h) * 60 + DigitsValue(m))
  {
    var s := h + ":" + m;
    assert s[|h|] == ':';
    assert ':' !in h;
    assert IndexOf(s, ':') == |h|;
    assert s[..|h|] == h && s[|h| + 1..] == m;
  }

  /** "HH:MM" round trip: every time of day rendered with two-digit fields parses back to itself. */
  lemma ClockRoundTrip(t: nat)
    requires t < DayMinutes
    ensures ParseClock(Pad2(t / 60) + ":" + Pad2(t % 60)) == Some(t)
  {
    ParseFields(Pad2(t / 60), Pad2(t % 60));
  }

  /** Hour 24 and minute 60 are out of range. */
  lemma ClockRejectsRange()
    ensures ParseClock("24:00") == None
    ensures ParseClock("10:60") == None
  {
    assert IndexOf("24:00", ':') == 2;
    assert DigitsValue("24") == 24 by { assert "24"[..1] == "2"; }
    assert IndexOf("10:60", ':') == 2;
    assert DigitsValue("60") == 60 by { assert "60"[..1] == "6"; }
  }

  /** Trailing seconds and a missing colon are rejected. */
  lemma ClockRejectsShape()
    ensures ParseClock("10:00:00") == None
    ensures ParseClock("1000") == None
  {
    assert IndexOf("10:00:00", ':') == 2;
    assert "10:00:00"[3..][2] == ':';
  }
}
