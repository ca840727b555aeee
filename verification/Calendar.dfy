/** Daily schedules in a calendar with a constant offset from UTC. Times are in milliseconds. */
module Calendar {
  import opened Wrappers

  const DAY_MS: int := 24 * 60 * 60_000
  const MINUTE_MS: int := 60_000
  const ALL_DAYS: set<int> := {0, 1, 2, 3, 4, 5, 6}

  type Minutes = m: int | 0 <= m < 24 * 60

  datatype Schedule =
    | Once(at: int)
    | Daily(time: Minutes, weekdays: Option<seq<int>>)

  /** The saved weekdays that name a day at all. */
  function Kept(days: seq<int>): (r: set<int>)
    ensures forall d :: d in r <==> d in days && 0 <= d <= 6
  {
    set d | d in days && 0 <= d <= 6
  }

  /** A list of weekdays as it may have been saved: absent, with strays, or empty. */
  function CleanDays(days: Option<seq<int>>): (r: set<int>)
    ensures r != {} && r <= ALL_DAYS
    ensures days.Some? && Kept(days.value) != {} ==> r == Kept(days.value)
    ensures days.None? || Kept(days.value) == {} ==> r == ALL_DAYS
  {
    if days.None? || Kept(days.value) == {} then ALL_DAYS else Kept(days.value)
  }

  /** Days since 1970-01-01 on the local calendar; that day was a Thursday. */
  function DayOf(t: int, offset: int): int {
    (t + offset) / DAY_MS
  }

  function Weekday(day: int): int {
    (day + 4) % 7
  }

  function At(day: int, time: Minutes, offset: int): int {
    day * DAY_MS + time * MINUTE_MS - offset
  }

  /** The local clock at `t`, in milliseconds since midnight. */
  function ClockAt(t: int, offset: int): int {
    (t + offset) % DAY_MS
  }

  /** `t` shows `time` on the local clock, on one of `days`. */
  predicate Matches(t: int, time: Minutes, days: set<int>, offset: int) {
    ClockAt(t, offset) == time * MINUTE_MS && Weekday(DayOf(t, offset)) in days
  }

  /** The one instant of a day at which the local clock shows `time`. */
  lemma AtShowsTime(t: int, time: Minutes, offset: int)
    ensures ClockAt(t, offset) == time * MINUTE_MS <==> t == At(DayOf(t, offset), time, offset)
  {
    assert t + offset == DAY_MS * DayOf(t, offset) + ClockAt(t, offset);
  }

  /** Among eight days in a row some day after the first is one of `days`. */
  lemma SomeDayMatches(day: int, days: set<int>) returns (step: int)
    requires days != {} && days <= ALL_DAYS
    ensures 1 <= step <= 7 && Weekday(day + step) in days
  {
    var d :| d in days;
    step := (d - Weekday(day) - 1) % 7 + 1;
  }

  /** `t` is the first qualifying instant strictly after `after`. */
  ghost predicate FirstAfter(t: int, time: Minutes, days: set<int>, offset: int, after: int) {
    && t > after && Matches(t, time, days, offset)
    && forall u :: u > after && Matches(u, time, days, offset) ==> t <= u
  }

  predicate Qualifies(day: int, time: Minutes, days: set<int>, offset: int, after: int) {
    At(day, time, offset) > after && Weekday(day) in days
  }

  lemma FirstIsLeast(day: int, time: Minutes, days: set<int>, offset: int, after: int)
    requires Qualifies(day, time, days, offset, after)
    requires forall d :: DayOf(after, offset) <= d < day ==> !Qualifies(d, time, days, offset, after)
    ensures FirstAfter(At(day, time, offset), time, days, offset, after)
  {
    AtShowsTime(At(day, time, offset), time, offset);
    forall u | u > after && Matches(u, time, days, offset) ensures At(day, time, offset) <= u {
      var other := DayOf(u, offset);
      AtShowsTime(u, time, offset);
      assert Qualifies(other, time, days, offset, after);
    }
  }

  /** The first qualifying instant on one of the `left` days from `day` on. */
  function Scan(day: int, left: nat, time: Minutes, days: set<int>, offset: int, after: int): Option<int>
    decreases left
  {
    if left == 0 then None
    else if Qualifies(day, time, days, offset, after) then Some(At(day, time, offset))
    else Scan(day + 1, left - 1, time, days, offset, after)
  }

  function Next(schedule: Schedule, after: int, offset: int): Option<int> {
    match schedule
    case Once(at) => if at > after then Some(at) else None
    case Daily(time, weekdays) => Scan(DayOf(after, offset), 9, time, CleanDays(weekdays), offset, after)
  }

  method NextOccurrence(schedule: Schedule, after: int, offset: int) returns (next: Option<int>)
    ensures next == Next(schedule, after, offset)
  {
    if schedule.Once? {
      return if schedule.at > after then Some(schedule.at) else None;
    }
    var time, days := schedule.time, CleanDays(schedule.weekdays);
    var today := DayOf(after, offset);
    for i := 0 to 9
      invariant Scan(today, 9, time, days, offset, after) == Scan(today + i, 9 - i, time, days, offset, after)
    {
      var d := At(today + i, time, offset);
      if d > after && Weekday(today + i) in days {
        return Some(d);
      }
    }
    return None;
  }

  lemma {:induction false} ScanFinds(day: int, left: nat, target: int, time: Minutes, days: set<int>,
                                     offset: int, after: int)
    requires DayOf(after, offset) <= day <= target < day + left
    requires Qualifies(target, time, days, offset, after)
    requires forall d :: DayOf(after, offset) <= d < day ==> !Qualifies(d, time, days, offset, after)
    ensures Scan(day, left, time, days, offset, after).Some?
    ensures FirstAfter(Scan(day, left, time, days, offset, after).value, time, days, offset, after)
    decreases left
  {
    if Qualifies(day, time, days, offset, after) {
      FirstIsLeast(day, time, days, offset, after);
    } else {
      ScanFinds(day + 1, left - 1, target, time, days, offset, after);
    }
  }

  /** A daily schedule always has a next occurrence, and it is the first one strictly after `after`. */
  lemma NextIsFirst(schedule: Schedule, after: int, offset: int)
    requires schedule.Daily?
    ensures Next(schedule, after, offset).Some?
    ensures FirstAfter(Next(schedule, after, offset).value,
                       schedule.time, CleanDays(schedule.weekdays), offset, after)
  {
    var time, days, today := schedule.time, CleanDays(schedule.weekdays), DayOf(after, offset);
    var step := SomeDayMatches(today, days);
    ScanFinds(today, 9, today + step, time, days, offset, after);
  }
}
