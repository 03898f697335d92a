/**
 Monthly plans: one row per manager and month, managers in the outer loop
 and months in the inner one. The revenue is drawn from
 `np.random.randint(150000, 450000)` (upper bound excluded) and the margin
 is `int(revenue * share)` for a share drawn from `random.uniform(0.12, 0.28)`.
 */
module Plans {
  import opened Ratios
  import opened Calendar
  import opened Tables

  const RevenueLow := 150000
  const RevenueBound := 450000
  const ShareLow := Ratio(12, 100)
  const ShareHigh := Ratio(28, 100)

  /** The two draws made for one plan row. */
  datatype PlanDraw = PlanDraw(revenue: int, marginShare: Ratio)

  predicate ValidPlanDraw(d: PlanDraw) {
    && RevenueLow <= d.revenue < RevenueBound
    && Valid(d.marginShare) && InBand(d.marginShare, ShareLow, ShareHigh)
  }

  /** One row of draws per manager, one draw per month in each row. */
  predicate PlanShape(nManagers: nat, nMonths: nat, draws: seq<seq<PlanDraw>>) {
    |draws| == nManagers && forall i :: 0 <= i < |draws| ==> |draws[i]| == nMonths
  }

  predicate RowValid(row: seq<PlanDraw>) {
    forall j :: 0 <= j < |row| ==> ValidPlanDraw(row[j])
  }

  predicate PlanDraws(nManagers: nat, nMonths: nat, draws: seq<seq<PlanDraw>>) {
    PlanShape(nManagers, nMonths, draws) && forall i :: 0 <= i < |draws| ==> RowValid(draws[i])
  }

  function MakePlan(manager: string, period: YearMonth, d: PlanDraw): Plan
    requires Valid(d.marginShare)
  {
    Plan(manager, period, d.revenue, TruncTimes(d.revenue, d.marginShare))
  }

  predicate SharesValid(row: seq<PlanDraw>) {
    forall j :: 0 <= j < |row| ==> Valid(row[j].marginShare)
  }

  /** The plans of one manager, in month order. */
  function PlanRow(manager: string, months: seq<YearMonth>, row: seq<PlanDraw>): (ps: seq<Plan>)
    requires |row| == |months| && SharesValid(row)
    ensures |ps| == |months|
  {
    seq(|months|, j requires 0 <= j < |months| => MakePlan(manager, months[j], row[j]))
  }

  predicate AllSharesValid(draws: seq<seq<PlanDraw>>) {
    forall i :: 0 <= i < |draws| ==> SharesValid(draws[i])
  }

  /** The `plans` table: the plan rows of the managers one after the other, manager-major. */
  function PlanTable(managers: seq<string>, months: seq<YearMonth>, draws: seq<seq<PlanDraw>>): (ps: seq<Plan>)
    requires PlanShape(|managers|, |months|, draws) && AllSharesValid(draws)
    decreases |managers|
  {
    if |managers| == 0 then []
    else
      var n := |managers| - 1;
      PlanTable(managers[..n], months, draws[..n]) + PlanRow(managers[n], months, draws[n])
  }

  /** There is one plan per manager and month. */
  lemma {:induction false} PlanTableLength(managers: seq<string>, months: seq<YearMonth>, draws: seq<seq<PlanDraw>>)
    requires PlanShape(|managers|, |months|, draws) && AllSharesValid(draws)
    ensures |PlanTable(managers, months, draws)| == |managers| * |months|
    decreases |managers|
  {
    if |managers| > 0 {
      var n := |managers| - 1;
      PlanTableLength(managers[..n], months, draws[..n]);
      assert n * |months| + |months| == |managers| * |months|;
    }
  }

  /** Extending the managers by one appends that manager's row. */
  lemma PlanTableSnoc(managers: seq<string>, months: seq<YearMonth>, draws: seq<seq<PlanDraw>>, i: nat)
    requires PlanShape(|managers|, |months|, draws) && AllSharesValid(draws) && i < |managers|
    ensures PlanTable(managers[..i + 1], months, draws[..i + 1])
         == PlanTable(managers[..i], months, draws[..i]) + PlanRow(managers[i], months, draws[i])
  {
    var ms, ds := managers[..i + 1], draws[..i + 1];
    PlanPrefixFits(managers, months, draws, i + 1);
    PlanPrefixFits(managers, months, draws, i);
    assert ms[..i] == managers[..i] && ds[..i] == draws[..i];
    assert ms[i] == managers[i] && ds[i] == draws[i];
    assert PlanTable(ms, months, ds) == PlanTable(ms[..i], months, ds[..i]) + PlanRow(ms[i], months, ds[i]);
  }

  lemma PlanPrefixFits(managers: seq<string>, months: seq<YearMonth>, draws: seq<seq<PlanDraw>>, k: nat)
    requires PlanShape(|managers|, |months|, draws) && AllSharesValid(draws) && k <= |managers|
    ensures PlanShape(|managers[..k]|, |months|, draws[..k]) && AllSharesValid(draws[..k])
  {
    assert forall a :: 0 <= a < k ==> draws[..k][a] == draws[a];
  }

  /** The loop appends one month's plan to a manager's row at a time. */
  lemma PlanRowSnoc(manager: string, months: seq<YearMonth>, row: seq<PlanDraw>, j: nat)
    requires |row| == |months| && SharesValid(row) && j < |months|
    ensures PlanRow(manager, months[..j + 1], row[..j + 1])
         == PlanRow(manager, months[..j], row[..j]) + [MakePlan(manager, months[j], row[j])]
  {
  }

  /**
   The nested `for` loops over managers and months, appending one plan per
   pair: the result is the plan table.
   */
  method BuildPlans(managers: seq<string>, months: seq<YearMonth>, draws: seq<seq<PlanDraw>>) returns (plans: seq<Plan>)
    requires PlanDraws(|managers|, |months|, draws)
    ensures plans == PlanTable(managers, months, draws)
  {
    assert AllSharesValid(draws) by {
      forall i | 0 <= i < |draws| ensures SharesValid(draws[i]) {
        assert RowValid(draws[i]);
      }
    }
    plans := [];
    for i := 0 to |managers|
      invariant plans == PlanTable(managers[..i], months, draws[..i])
    {
      var before := plans;
      for j := 0 to |months|
        invariant plans == before + PlanRow(managers[i], months[..j], draws[i][..j])
      {
        PlanRowSnoc(managers[i], months, draws[i], j);
        plans := plans + [MakePlan(managers[i], months[j], draws[i][j])];
      }
      assert months[..|months|] == months && draws[i][..|months|] == draws[i];
      PlanTableSnoc(managers, months, draws, i);
    }
    assert managers[..|managers|] == managers && draws[..|managers|] == draws;
  }

  lemma RowBeforeLast(i: nat, j: nat, m: nat, n: nat)
    requires i < n && j < m
    ensures i * m + j < n * m
    ensures i + 1 < n ==> i * m + j < (n - 1) * m
  {
    MulMonotone(i + 1, n, m);
    if i + 1 < n {
      MulMonotone(i + 1, n - 1, m);
    }
  }

  /**
   The plan of manager `i` for month `j` sits at position `i * |months| + j`
   and carries that manager, that month and the draws made for them.
   */
  lemma {:induction false} PlanAt(managers: seq<string>, months: seq<YearMonth>, draws: seq<seq<PlanDraw>>, i: nat, j: nat)
    requires PlanShape(|managers|, |months|, draws) && AllSharesValid(draws)
    requires i < |managers| && j < |months|
    ensures |PlanTable(managers, months, draws)| == |managers| * |months|
    ensures i * |months| + j < |PlanTable(managers, months, draws)|
    ensures PlanTable(managers, months, draws)[i * |months| + j] == MakePlan(managers[i], months[j], draws[i][j])
    decreases |managers|
  {
    var n := |managers| - 1;
    var m := |months|;
    RowBeforeLast(i, j, m, n + 1);
    PlanTableLength(managers, months, draws);
    PlanTableLength(managers[..n], months, draws[..n]);
    if i < n {
      RowBeforeLast(i, j, m, n);
      PlanAt(managers[..n], months, draws[..n], i, j);
    }
  }

  /** Position `q` of an `n`-by-`m` row-major table is column `j` of row `i`. */
  lemma RowAndColumn(q: nat, m: nat, n: nat) returns (i: nat, j: nat)
    requires q < n * m
    ensures i < n && j < m && q == i * m + j
  {
    assert m > 0;
    i, j := q / m, q % m;
    assert i * m <= q;
    MulOrder(i, n, m);
  }

  /** Every plan row is the plan of exactly one (manager, month) pair. */
  lemma PlanSource(managers: seq<string>, months: seq<YearMonth>, draws: seq<seq<PlanDraw>>, q: nat) returns (i: nat, j: nat)
    requires PlanShape(|managers|, |months|, draws) && AllSharesValid(draws)
    requires q < |PlanTable(managers, months, draws)|
    ensures i < |managers| && j < |months| && q == i * |months| + j
    ensures PlanTable(managers, months, draws)[q] == MakePlan(managers[i], months[j], draws[i][j])
  {
    PlanTableLength(managers, months, draws);
    i, j := RowAndColumn(q, |months|, |managers|);
    PlanAt(managers, months, draws, i, j);
  }

  /**
   With distinct managers and distinct months, no two plan rows share a
   (manager, month) key.
   */
  lemma PlanKeysUnique(managers: seq<string>, months: seq<YearMonth>, draws: seq<seq<PlanDraw>>, q: nat, r: nat)
    requires PlanShape(|managers|, |months|, draws) && AllSharesValid(draws)
    requires Distinct(managers) && forall a, b :: 0 <= a < b < |months| ==> months[a] != months[b]
    requires q < r < |PlanTable(managers, months, draws)|
    ensures var ps := PlanTable(managers, months, draws);
      ps[q].managerId != ps[r].managerId || ps[q].periodMonth != ps[r].periodMonth
  {
    var i, j := PlanSource(managers, months, draws, q);
    var i', j' := PlanSource(managers, months, draws, r);
    if i == i' {
      assert months[j] != months[j'];
    }
  }

  /**
   A plan built from in-range draws has a revenue in `[150000, 450000)` and
   a margin between 12% and 28% of it, rounded down: so the margin is never
   negative and never above the revenue.
   */
  lemma PlanMarginBand(manager: string, period: YearMonth, d: PlanDraw)
    requires ValidPlanDraw(d)
    ensures var p := MakePlan(manager, period, d);
      && p.managerId == manager && p.periodMonth == period
      && RevenueLow <= p.planRevenue < RevenueBound
      && 100 * p.planMargin <= 28 * p.planRevenue
      && 12 * p.planRevenue < 100 * (p.planMargin + 1)
      && 0 <= p.planMargin <= p.planRevenue
  {
    var rev, s := d.revenue, d.marginShare;
    var m := TruncTimes(rev, s);
    assert 12 * s.den <= s.num * 100 && s.num * 100 <= 28 * s.den;
    MulMonotone(0, s.num, rev);
    TruncFloor(rev * s.num, s.den);
    assert m * s.den <= rev * s.num < (m + 1) * s.den;
    // Upper: 100 m den <= 100 rev num <= 28 rev den.
    MulMonotone(s.num * 100, 28 * s.den, rev);
    assert (100 * m) * s.den <= (28 * rev) * s.den;
    MulOrder(100 * m, 28 * rev, s.den);
    // Lower: 12 rev den <= 100 rev num < 100 (m + 1) den.
    MulMonotone(12 * s.den, s.num * 100, rev);
    assert (12 * rev) * s.den < (100 * (m + 1)) * s.den;
    MulOrder(12 * rev, 100 * (m + 1), s.den);
  }
}
