/**
 The generator's run from top to bottom with its own parameters: 30
 products, 40 clients, 6 managers, 400 orders of 1 to 4 lines, and the
 window from 2025-01-01 to 2025-10-01. Every random draw of the run is a
 field of `Draws`; the tables follow from them. The lemmas here connect the
 tables to one another: sales point at real orders and products, returns
 never exceed what was sold, and plans cover every manager and month.
 */
module Pipeline {
  import opened Ratios
  import opened Calendar
  import opened Tables
  import opened Dimensions
  import opened Orders
  import opened OrderProperties
  import opened Facts
  import opened Plans

  const NProducts := 30
  const NClients := 40
  const NManagers := 6
  const NOrders := 400
  const MaxLinesPerOrder := 4
  const StartMonth := YearMonth(2025, 1)
  const EndMonth := YearMonth(2025, 10)
  /** `(DATE_END - DATE_START).days`: the days of January to September 2025. */
  const DateRangeDays := 31 + 28 + 31 + 30 + 31 + 30 + 31 + 31 + 30

  /** Every random draw of one run, grouped by the table it feeds. */
  datatype Draws = Draws(
    categories: seq<nat>, costs: seq<int>,
    leaders: seq<nat>, clientManagers: seq<nat>,
    orders: seq<OrderDraw>,
    soldMask: seq<bool>, returnMask: seq<bool>, returnQuantities: seq<int>,
    plans: seq<seq<PlanDraw>>)

  /** All the generated tables, plus the month list the plans are built from. */
  datatype Dataset = Dataset(
    products: seq<Product>, teams: seq<Team>, clients: seq<Client>,
    orders: seq<Order>, lines: seq<OrderLine>, sales: seq<Sale>, returnRows: seq<Return>,
    months: seq<YearMonth>, plans: seq<Plan>)

  /** The draws up to the order lines are in the ranges the generator draws them from. */
  predicate UpstreamValid(d: Draws) {
    && ProductDraws(NProducts, d.categories, d.costs)
    && |d.leaders| == NManagers
    && (forall i :: 0 <= i < |d.leaders| ==> d.leaders[i] < |TeamLeaders(NManagers)|)
    && ClientDraws(NClients, Managers(NManagers), d.clientManagers)
    && |d.orders| == NOrders
    && DrawsFit(d.orders, NClients, NProducts)
    && DrawsInRange(d.orders, DateRangeDays, MaxLinesPerOrder)
    && |d.soldMask| == LineCount(d.orders)
  }

  function ProductsOf(d: Draws): seq<Product>
    requires UpstreamValid(d)
  {
    BuildProducts(NProducts, d.categories, d.costs)
  }

  function ClientsOf(d: Draws): seq<Client>
    requires UpstreamValid(d)
  {
    BuildClients(NClients, Managers(NManagers), d.clientManagers)
  }

  function LinesOf(d: Draws): (lines: seq<OrderLine>)
    requires UpstreamValid(d)
    ensures |lines| == |d.soldMask|
  {
    LineTable(ProductsOf(d), d.orders)
  }

  function SalesOf(d: Draws): seq<Sale>
    requires UpstreamValid(d)
  {
    SalesTable(LinesOf(d), d.soldMask)
  }

  /** Every draw of the run is in the range the generator draws it from. */
  predicate DrawsValid(d: Draws) {
    && UpstreamValid(d)
    && ReturnDraws(SalesOf(d), d.returnMask, d.returnQuantities)
    && PlanDraws(NManagers, MonthCount(StartMonth, EndMonth), d.plans)
  }

  function ReturnsOf(d: Draws): seq<Return>
    requires DrawsValid(d)
  {
    ReturnsTable(SalesOf(d), d.returnMask, d.returnQuantities)
  }

  /**
   The script's sections 1) to 3): products, then one team row per manager (six of them,
   each exactly once, in order), then clients.
   */
  method GenerateDimensions(d: Draws) returns (products: seq<Product>, teams: seq<Team>, clients: seq<Client>)
    requires UpstreamValid(d)
    ensures products == ProductsOf(d) && clients == ClientsOf(d)
    ensures |teams| == NManagers
    ensures forall i :: 0 <= i < NManagers ==>
      teams[i] == Team(ManagerId(i + 1), LeaderId(d.leaders[i] + 1), ManagerRole)
    ensures forall i, j :: 0 <= i < j < |teams| ==> teams[i].managerId != teams[j].managerId
  {
    products := BuildProducts(NProducts, d.categories, d.costs);
    var managers := Managers(NManagers);
    var leaders := TeamLeaders(NManagers);
    teams := BuildTeams(managers, leaders, d.leaders);
    clients := BuildClients(NClients, managers, d.clientManagers);
    IdsDistinct("M", 2);
  }

  /** The script's sections 4) to 6): orders with their lines, then sales, then returns. */
  method GenerateFacts(d: Draws, products: seq<Product>, clients: seq<Client>)
    returns (orders: seq<Order>, lines: seq<OrderLine>, sales: seq<Sale>, returnRows: seq<Return>)
    requires DrawsValid(d) && products == ProductsOf(d) && clients == ClientsOf(d)
    ensures orders == OrderTable(clients, products, d.orders) && lines == LinesOf(d)
    ensures sales == SalesOf(d) && returnRows == ReturnsOf(d)
  {
    orders, lines := BuildOrders(clients, products, d.orders);
    sales := SalesTable(lines, d.soldMask);
    returnRows := ReturnsTable(sales, d.returnMask, d.returnQuantities);
  }

  /** The script's section 7): the ten months of the window and a plan per manager and month. */
  method GeneratePlans(d: Draws) returns (months: seq<YearMonth>, plans: seq<Plan>)
    requires PlanDraws(NManagers, MonthCount(StartMonth, EndMonth), d.plans)
    ensures |months| == 10 && months[0] == StartMonth && months[9] == EndMonth
    ensures forall m :: 0 <= m < |months| ==>
      ValidMonth(months[m]) && MonthIndex(months[m]) == MonthIndex(StartMonth) + m
    ensures forall m :: 0 <= m < |months| ==> months[m] == YearMonth(2025, m + 1)
    ensures plans == PlanTable(Managers(NManagers), months, d.plans)
    ensures |plans| == NManagers * 10
    ensures forall q, r :: 0 <= q < r < |plans| ==>
      plans[q].managerId != plans[r].managerId || plans[q].periodMonth != plans[r].periodMonth
  {
    months := MonthWalk(StartMonth, EndMonth);
    forall m | 0 <= m < |months| ensures months[m] == YearMonth(2025, m + 1) {
      MonthIndexInjective(months[m], YearMonth(2025, m + 1));
    }
    plans := BuildPlans(Managers(NManagers), months, d.plans);
    PlanTableLength(Managers(NManagers), months, d.plans);
    forall q, r | 0 <= q < r < |plans|
      ensures plans[q].managerId != plans[r].managerId || plans[q].periodMonth != plans[r].periodMonth
    {
      PlanKeysOfWindowUnique(d.plans, months, q, r);
    }
  }

  /** The script's sections in order. */
  method Generate(d: Draws) returns (t: Dataset)
    requires DrawsValid(d)
    ensures t.products == ProductsOf(d) && t.clients == ClientsOf(d)
    ensures |t.teams| == NManagers
    ensures forall i :: 0 <= i < NManagers ==>
      t.teams[i] == Team(ManagerId(i + 1), LeaderId(d.leaders[i] + 1), ManagerRole)
    ensures t.orders == OrderTable(t.clients, t.products, d.orders) && t.lines == LinesOf(d)
    ensures t.sales == SalesOf(d) && t.returnRows == ReturnsOf(d)
    ensures |t.months| == 10 && t.months[0] == StartMonth && t.months[9] == EndMonth
    ensures forall m :: 0 <= m < |t.months| ==>
      ValidMonth(t.months[m]) && MonthIndex(t.months[m]) == MonthIndex(StartMonth) + m
    ensures forall m :: 0 <= m < |t.months| ==> t.months[m] == YearMonth(2025, m + 1)
    ensures t.plans == PlanTable(Managers(NManagers), t.months, d.plans)
    ensures |t.plans| == NManagers * 10
    ensures forall q, r :: 0 <= q < r < |t.plans| ==>
      t.plans[q].managerId != t.plans[r].managerId || t.plans[q].periodMonth != t.plans[r].periodMonth
  {
    var products, teams, clients := GenerateDimensions(d);
    var orders, lines, sales, returnRows := GenerateFacts(d, products, clients);
    var months, plans := GeneratePlans(d);
    t := Dataset(products, teams, clients, orders, lines, sales, returnRows, months, plans);
  }

  /**
   Sale `i` was sold from a line of order `k` (an existing order) for
   product `a` (an existing product): between 1 and 5 units at no less
   than the product's cost each, so the sale amount is positive.
   */
  lemma SaleFacts(d: Draws, i: nat) returns (k: nat, a: nat)
    requires UpstreamValid(d) && i < |SalesOf(d)|
    ensures k < NOrders && a < NProducts
    ensures var s := SalesOf(d)[i];
      && s.orderId == OrderTable(ClientsOf(d), ProductsOf(d), d.orders)[k].orderId
      && s.article == ProductsOf(d)[a].article
      && 1 <= s.quantity <= MaxQuantity
      && ProductsOf(d)[a].cost * s.quantity <= s.saleAmount
      && MinCost <= s.saleAmount
  {
    var products := ProductsOf(d);
    var lines := LinesOf(d);
    var p := SaleSource(lines, d.soldMask, i);
    k := LinesReferenceOrders(ClientsOf(d), products, d.orders, p);
    a := LineFacts(products, d.orders, p);
    var line := lines[p];
    MulMonotone(products[a].cost, line.price, line.quantity);
    MulMonotone(1, line.quantity, products[a].cost);
  }

  /** Every order of the run has a total of at least 300, the least a product can cost. */
  lemma OrderTotalFacts(d: Draws, k: nat)
    requires UpstreamValid(d) && k < NOrders
    ensures 0 < MinCost <= OrderTable(ClientsOf(d), ProductsOf(d), d.orders)[k].orderTotal
  {
    OrderTotalAtLeastMinCost(ClientsOf(d), ProductsOf(d), d.orders, DateRangeDays, MaxLinesPerOrder, k, MinCost);
  }

  /**
   Return `i` refers to sale `p` (an existing sale) and its article; it
   gives back between 1 and the sold quantity, and its amount is a positive
   share of the sale amount that equals the whole amount exactly when the
   whole quantity comes back.
   */
  lemma ReturnFacts(d: Draws, i: nat) returns (p: nat)
    requires DrawsValid(d) && i < |ReturnsOf(d)|
    ensures p < |SalesOf(d)|
    ensures var r := ReturnsOf(d)[i];
      var s := SalesOf(d)[p];
      && r.saleId == s.saleId && r.article == s.article
      && 1 <= r.returnQuantity <= s.quantity
      && Valid(r.returnAmount)
      && r.returnAmount.num * s.quantity == s.saleAmount * r.returnQuantity * r.returnAmount.den
      && 0 < r.returnAmount.num <= s.saleAmount * r.returnAmount.den
      && (r.returnQuantity == s.quantity <==> r.returnAmount.num == s.saleAmount * r.returnAmount.den)
  {
    var sales := SalesOf(d);
    p := ReturnSource(sales, d.returnMask, d.returnQuantities, i);
    var j, a := SaleFacts(d, p);
    var s := sales[p];
    var rq := d.returnQuantities[i];
    ProratedBounds(s.saleAmount, s.quantity, rq);
    MulOrder(0, s.saleAmount, rq);
  }

  /** The months the walk gives are pairwise different. */
  lemma WindowMonthsDistinct(months: seq<YearMonth>)
    requires forall m :: 0 <= m < |months| ==> MonthIndex(months[m]) == MonthIndex(StartMonth) + m
    ensures forall a, b :: 0 <= a < b < |months| ==> months[a] != months[b]
  {
    forall a, b | 0 <= a < b < |months| ensures months[a] != months[b] {
      assert MonthIndex(months[a]) < MonthIndex(months[b]);
    }
  }

  lemma PlanSharesValid(draws: seq<seq<PlanDraw>>)
    requires PlanDraws(NManagers, MonthCount(StartMonth, EndMonth), draws)
    ensures PlanShape(NManagers, 10, draws) && AllSharesValid(draws)
  {
    forall a | 0 <= a < |draws| ensures SharesValid(draws[a]) {
      assert RowValid(draws[a]);
    }
  }

  /** Manager `M{i+1:02d}` has a plan for every month `j` of the window, at position `i * 10 + j`. */
  lemma PlanOfManagerAndMonth(draws: seq<seq<PlanDraw>>, months: seq<YearMonth>, i: nat, j: nat)
    requires PlanDraws(NManagers, MonthCount(StartMonth, EndMonth), draws)
    requires |months| == MonthCount(StartMonth, EndMonth)
    requires i < NManagers && j < |months|
    ensures var ps := PlanTable(Managers(NManagers), months, draws);
      && |ps| == NManagers * 10 && i * 10 + j < |ps|
      && ps[i * 10 + j].managerId == ManagerId(i + 1) && ps[i * 10 + j].periodMonth == months[j]
  {
    var managers := Managers(NManagers);
    PlanSharesValid(draws);
    assert |months| == 10 && managers[i] == ManagerId(i + 1);
    PlanAt(managers, months, draws, i, j);
  }

  /** No (manager, month) pair of the window has two plans. */
  lemma PlanKeysOfWindowUnique(draws: seq<seq<PlanDraw>>, months: seq<YearMonth>, q: nat, r: nat)
    requires PlanDraws(NManagers, MonthCount(StartMonth, EndMonth), draws)
    requires |months| == MonthCount(StartMonth, EndMonth)
    requires forall m :: 0 <= m < |months| ==> MonthIndex(months[m]) == MonthIndex(StartMonth) + m
    requires q < r < NManagers * 10
    ensures var ps := PlanTable(Managers(NManagers), months, draws);
      r < |ps| && (ps[q].managerId != ps[r].managerId || ps[q].periodMonth != ps[r].periodMonth)
  {
    PlanSharesValid(draws);
    WindowMonthsDistinct(months);
    PlanTableLength(Managers(NManagers), months, draws);
    PlanKeysUnique(Managers(NManagers), months, draws, q, r);
  }
}
