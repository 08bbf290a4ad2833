/** Splitting an inclusive range of days, in either order. */
module Window {
  import opened Wrappers
  import opened Planner

  /** An inclusive one-day window; days are counted from some fixed day. */
  datatype DayWindow = DayWindow(start: int, end: int)

  /** Every day from `start` through `end`, oldest first. */
  function Days(start: int, end: int): (days: seq<DayWindow>)
    decreases end - start + 1
    ensures |days| == if start > end then 0 else end - start + 1
    ensures forall i :: 0 <= i < |days| ==> days[i] == DayWindow(start + i, start + i)
  {
    if start > end then [] else [DayWindow(start, start)] + Days(start + 1, end)
  }

  /** The newest-first walk is the oldest-first one reversed; an unknown order is refused. */
  method SplitRangeIntoDays(start: int, end: int, order: string) returns (r: Option<seq<DayWindow>>)
    ensures r.None? <==> order != "oldest_first" && order != "newest_first"
    ensures order == "oldest_first" ==> r == Some(Days(start, end))
    ensures order == "newest_first" ==> r == Some(Reversed(Days(start, end)))
  {
    if order != "oldest_first" && order != "newest_first" {
      return None;
    }
    if start > end {
      return Some([]);
    }
    var days: seq<DayWindow> := [];
    if order == "newest_first" {
      var current := end;
      while current >= start
        invariant start - 1 <= current <= end && |days| == end - current
        invariant forall i :: 0 <= i < |days| ==> days[i] == DayWindow(end - i, end - i)
      {
        days := days + [DayWindow(current, current)];
        current := current - 1;
      }
      assert days == Reversed(Days(start, end));
      return Some(days);
    }
    var current := start;
    while current <= end
      invariant start <= current <= end + 1 && |days| == current - start
      invariant forall i :: 0 <= i < |days| ==> days[i] == DayWindow(start + i, start + i)
    {
      days := days + [DayWindow(current, current)];
      current := current + 1;
    }
    assert days == Days(start, end);
    return Some(days);
  }

  /** The days of the range, each exactly once. */
  lemma DaysExact(start: int, end: int, order: string, day: int)
    requires order == "oldest_first" || order == "newest_first"
    ensures var days := if order == "newest_first" then Reversed(Days(start, end)) else Days(start, end);
      && (start <= day <= end <==> DayWindow(day, day) in days)
      && forall i, j :: 0 <= i < j < |days| ==> days[i] != days[j]
  {
    var days := Days(start, end);
    if start <= day <= end {
      assert days[day - start] == DayWindow(day, day);
      assert Reversed(days)[|days| - 1 - (day - start)] == DayWindow(day, day);
    }
  }

  /** The units of a planner that walks the days, by name. */
  function Units(days: seq<DayWindow>, name: DayWindow -> string): seq<string> {
    seq(|days|, i requires 0 <= i < |days| => name(days[i]))
  }

  /** A planner over the oldest-first days in reverse order walks what one over the newest-first days walks forward. */
  lemma OrdersMeet(start: int, end: int, name: DayWindow -> string)
    ensures Reversed(Units(Days(start, end), name)) == Units(Reversed(Days(start, end)), name)
  {
    ReversedUnits(Days(start, end), name);
  }

  lemma ReversedUnits(days: seq<DayWindow>, name: DayWindow -> string)
    ensures Reversed(Units(days, name)) == Units(Reversed(days), name)
  {
    var a, b := Reversed(Units(days, name)), Units(Reversed(days), name);
    forall i | 0 <= i < |days|
      ensures a[i] == b[i]
    {
      assert b[i] == name(Reversed(days)[i]) == name(days[|days| - 1 - i]);
      assert a[i] == Units(days, name)[|days| - 1 - i];
    }
  }
}
