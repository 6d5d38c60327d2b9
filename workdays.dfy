/** DateTimeExtensions.AddWorkDays: adding business days to a date, skipping
    Saturdays, Sundays and holidays (of which the plugin knows none).

    A date is a day number: day 0 is Monday, 1 January 0001 (DateTime.MinValue),
    so the day of the week is a fixed offset of the day number modulo 7. */
module WorkDays {
  import opened Common

  /** DayOfWeek numbering: Sunday = 0, Monday = 1, ..., Saturday = 6. */
  const Sunday: nat := 0
  const Friday: nat := 5
  const Saturday: nat := 6

  function DayOfWeek(d: int): (r: nat)
    ensures r < 7
  {
    (d + 1) % 7
  }

  /** IsHoliday: no calendar is consulted, every date answers false. */
  predicate IsHoliday(d: int) {
    false
  }

  /** The filter AddWorkDays applies to the generated dates. */
  predicate IsWorkDay(d: int) {
    DayOfWeek(d) != Saturday && DayOfWeek(d) != Sunday && !IsHoliday(d)
  }

  /** GetDates steps one day back when its flag (named isForward, and passed
      workingDays < 0) is set, and one day ahead otherwise. */
  function Step(backwards: bool): int {
    if backwards then -1 else 1
  }

  /** The first work day that GetDates yields from `d`: at most three steps away,
      since no more than two days in a row are weekend days. */
  function NextWorkDay(d: int, backwards: bool): (r: int)
    ensures IsWorkDay(r)
    ensures backwards ==> d - 3 <= r < d && forall e :: r < e < d ==> !IsWorkDay(e)
    ensures !backwards ==> d < r <= d + 3 && forall e :: d < e < r ==> !IsWorkDay(e)
  {
    var s := Step(backwards);
    if IsWorkDay(d + s) then d + s
    else if IsWorkDay(d + 2 * s) then d + 2 * s
    else d + 3 * s
  }

  /** The k-th element of the date sequence filtered to work days (Take(k).Last()). */
  function WalkWorkDays(d: int, k: nat, backwards: bool): (r: int)
    ensures k == 0 ==> r == d
    ensures k > 0 ==> IsWorkDay(r)
    ensures k > 0 && backwards ==> r < d
    ensures k > 0 && !backwards ==> r > d
    decreases k
  {
    if k == 0 then d else WalkWorkDays(NextWorkDay(d, backwards), k - 1, backwards)
  }

  /** AddWorkDays(date, workingDays). With workingDays == 0 the filtered sequence is
      cut to nothing and Last() throws. */
  function AddWorkDays(date: int, workingDays: int): (r: Result<int, Exception>)
    ensures r.Err? <==> workingDays == 0
    ensures r.Err? ==> r.error == InvalidOperationException
    ensures workingDays > 0 ==> r.Ok? && r.value > date && IsWorkDay(r.value)
    ensures workingDays < 0 ==> r.Ok? && r.value < date && IsWorkDay(r.value)
  {
    if workingDays == 0 then Err(InvalidOperationException)
    else Ok(WalkWorkDays(date, if workingDays < 0 then -workingDays else workingDays, workingDays < 0))
  }

  /** The number of work days in the interval (lo, hi]. */
  function CountWorkDays(lo: int, hi: int): nat
    decreases hi - lo
  {
    if hi <= lo then 0 else CountWorkDays(lo, hi - 1) + (if IsWorkDay(hi) then 1 else 0)
  }

  lemma {:induction false} CountWorkDaysSplit(a: int, b: int, c: int)
    requires a <= b <= c
    ensures CountWorkDays(a, c) == CountWorkDays(a, b) + CountWorkDays(b, c)
    decreases c - b
  {
    if c > b {
      CountWorkDaysSplit(a, b, c - 1);
    }
  }

  lemma {:induction false} CountWorkDaysNone(lo: int, hi: int)
    requires forall e :: lo < e <= hi ==> !IsWorkDay(e)
    ensures CountWorkDays(lo, hi) == 0
    decreases hi - lo
  {
    if hi > lo {
      CountWorkDaysNone(lo, hi - 1);
    }
  }

  /** Walking forward k work days passes exactly k work days. */
  lemma {:induction false} WalkForwardCounts(d: int, k: nat)
    ensures CountWorkDays(d, WalkWorkDays(d, k, false)) == k
    decreases k
  {
    if k > 0 {
      var n := NextWorkDay(d, false);
      CountWorkDaysNone(d, n - 1);
      assert CountWorkDays(d, n) == 1;
      WalkForwardCounts(n, k - 1);
      CountWorkDaysSplit(d, n, WalkWorkDays(n, k - 1, false));
    }
  }

  /** Walking backward k work days passes exactly k work days in [result, d). */
  lemma {:induction false} WalkBackwardCounts(d: int, k: nat)
    ensures CountWorkDays(WalkWorkDays(d, k, true) - 1, d - 1) == k
    decreases k
  {
    if k > 0 {
      var n := NextWorkDay(d, true);
      CountWorkDaysNone(n, d - 1);
      assert CountWorkDays(n - 1, n) == 1;
      CountWorkDaysSplit(n - 1, n, d - 1);
      WalkBackwardCounts(n, k - 1);
      CountWorkDaysSplit(WalkWorkDays(n, k - 1, true) - 1, n - 1, d - 1);
    }
  }

  /** For n > 0 exactly n work days lie in (date, AddWorkDays(date, n)]; for n < 0
      exactly -n work days lie in [AddWorkDays(date, n), date). Together with the
      result being a work day, this fixes the result. */
  lemma AddWorkDaysCountsExactly(date: int, n: int)
    ensures n > 0 ==> CountWorkDays(date, AddWorkDays(date, n).value) == n
    ensures n < 0 ==> CountWorkDays(AddWorkDays(date, n).value - 1, date - 1) == -n
  {
    if n > 0 {
      WalkForwardCounts(date, n);
    } else if n < 0 {
      WalkBackwardCounts(date, -n);
    }
  }

  /** Moving k days ahead moves the day of the week k places, modulo 7. */
  lemma DayOfWeekAhead(d: int, k: nat)
    ensures DayOfWeek(d + k) == (DayOfWeek(d) + k) % 7
  {
    var q := (d + 1) / 7;
    assert d + 1 == 7 * q + DayOfWeek(d);
    assert d + k + 1 == 7 * q + (DayOfWeek(d) + k);
  }

  /** Three work days after a Friday is the following Wednesday. */
  lemma FridayPlusThreeIsWednesday(d: int)
    requires DayOfWeek(d) == Friday
    ensures AddWorkDays(d, 3) == Ok(d + 5)
    ensures DayOfWeek(d + 5) == 3
  {
    DayOfWeekAhead(d, 1);
    DayOfWeekAhead(d, 2);
    DayOfWeekAhead(d, 3);
    DayOfWeekAhead(d, 4);
    DayOfWeekAhead(d, 5);
    assert NextWorkDay(d, false) == d + 3;
    assert NextWorkDay(d + 3, false) == d + 4;
    assert NextWorkDay(d + 4, false) == d + 5;
  }
}
