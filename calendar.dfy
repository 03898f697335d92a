/**
 Calendar months and the inclusive walk from a start month to an end month
 that gives the plan periods. A month is the first day of a (year, month)
 pair; the day of the window's start and end dates is dropped before the
 walk, so both end months are always included.
 */
module Calendar {

  datatype YearMonth = YearMonth(year: int, month: int)

  predicate ValidMonth(ym: YearMonth) {
    1 <= ym.month <= 12
  }

  /** Months counted from January of year 0; it orders months as dates order them. */
  function MonthIndex(ym: YearMonth): int {
    12 * ym.year + ym.month - 1
  }

  /** The next month, as the walk computes it: December rolls into January of the next year. */
  function NextMonth(ym: YearMonth): YearMonth {
    YearMonth(ym.year + ym.month / 12, ym.month % 12 + 1)
  }

  /** Comparing the first days of two months, `cur <= end_month`. */
  predicate NotAfter(a: YearMonth, b: YearMonth) {
    a.year < b.year || (a.year == b.year && a.month <= b.month)
  }

  /** The number of months from `start` to `end`, both included (none when `end` is earlier). */
  function MonthCount(start: YearMonth, end: YearMonth): nat {
    var d := 12 * (end.year - start.year) + (end.month - start.month) + 1;
    if d < 0 then 0 else d
  }

  /** The successor of a month is a month, exactly one index later. */
  lemma NextMonthStep(ym: YearMonth)
    requires ValidMonth(ym)
    ensures ValidMonth(NextMonth(ym))
    ensures MonthIndex(NextMonth(ym)) == MonthIndex(ym) + 1
    ensures ym.month < 12 ==> NextMonth(ym) == YearMonth(ym.year, ym.month + 1)
    ensures ym.month == 12 ==> NextMonth(ym) == YearMonth(ym.year + 1, 1)
  {
  }

  /** Comparing valid months as dates is comparing their indices. */
  lemma NotAfterIndex(a: YearMonth, b: YearMonth)
    requires ValidMonth(a) && ValidMonth(b)
    ensures NotAfter(a, b) <==> MonthIndex(a) <= MonthIndex(b)
  {
  }

  /** A valid month is determined by its index. */
  lemma MonthIndexInjective(a: YearMonth, b: YearMonth)
    requires ValidMonth(a) && ValidMonth(b) && MonthIndex(a) == MonthIndex(b)
    ensures a == b
  {
  }

  /**
   The loop over `cur` from the start month while `cur <= end_month`. The
   result has no gaps: it starts at `start`, every element is the calendar
   successor of the one before, the last is `end`, and there are
   `12*(ey-sy)+(em-sm)+1` of them (none when `end` comes before `start`).
   */
  method MonthWalk(start: YearMonth, end: YearMonth) returns (months: seq<YearMonth>)
    requires ValidMonth(start) && ValidMonth(end)
    ensures |months| == MonthCount(start, end)
    ensures forall i :: 0 <= i < |months| ==>
      ValidMonth(months[i]) && MonthIndex(months[i]) == MonthIndex(start) + i
    ensures |months| > 0 ==> months[0] == start && months[|months| - 1] == end
    ensures forall i :: 0 < i < |months| ==> months[i] == NextMonth(months[i - 1])
  {
    months := [];
    var cur := start;
    NotAfterIndex(cur, end);
    while NotAfter(cur, end)
      invariant ValidMonth(cur)
      invariant MonthIndex(cur) == MonthIndex(start) + |months|
      invariant |months| <= MonthCount(start, end)
      invariant |months| < MonthCount(start, end) <==> NotAfter(cur, end)
      invariant forall i :: 0 <= i < |months| ==>
        ValidMonth(months[i]) && MonthIndex(months[i]) == MonthIndex(start) + i
      invariant |months| > 0 ==> months[0] == start && cur == NextMonth(months[|months| - 1])
      invariant forall i :: 0 < i < |months| ==> months[i] == NextMonth(months[i - 1])
      decreases MonthIndex(end) - MonthIndex(cur)
    {
      months := months + [cur];
      NextMonthStep(cur);
      cur := NextMonth(cur);
      NotAfterIndex(cur, end);
    }
    if |months| > 0 {
      MonthIndexInjective(months[|months| - 1], end);
    }
  }
}
