/**
 What the `orders` and `order_lines` tables promise: consecutive unique
 identifiers, every line inside the block of its own order, order totals
 that add up the order's own lines, quantities and prices in range, and
 foreign keys that land in the client and product tables.
 */
module OrderProperties {
  import opened Ids
  import opened Ratios
  import opened Tables
  import opened Orders

  /** A markup of at least 1.1 never prices a line below cost. */
  lemma PriceNotBelowCost(cost: int, markup: Ratio)
    requires cost >= 0 && Valid(markup) && InBand(markup, MarkupLow, MarkupHigh)
    ensures cost <= Price(cost, markup)
  {
    MulMonotone(markup.den, markup.num, cost);
    TruncBetween(cost * markup.num, markup.den, cost);
  }

  /** A markup of at most 2.5 prices a line at no more than two and a half times its cost. */
  lemma PriceAtMostMarkupCap(cost: int, markup: Ratio)
    requires cost >= 0 && Valid(markup) && InBand(markup, MarkupLow, MarkupHigh)
    ensures 2 * Price(cost, markup) <= 5 * cost
  {
    var num, den := markup.num, markup.den;
    MulMonotone(2 * num, 5 * den, cost);
    TruncFloor(cost * num, den);
    var p := Price(cost, markup);
    assert (2 * p) * den <= (5 * cost) * den;
    MulOrder(2 * p, 5 * cost, den);
  }

  /** A line margin lies between 5% and 35% of a non-negative line sum. */
  lemma MarginInBand(lineSum: int, share: Ratio)
    requires lineSum >= 0 && Valid(share) && InBand(share, MarginLow, MarginHigh)
    ensures 5 * lineSum <= MarginCents(lineSum, share) <= 35 * lineSum
  {
    var num, den := share.num, share.den;
    assert 5 * den <= 100 * num && 100 * num <= 35 * den;
    assert (5 * lineSum) * den <= 100 * lineSum * num by {
      assert lineSum * (5 * den) <= lineSum * (100 * num);
    }
    assert 100 * lineSum * num <= (35 * lineSum) * den by {
      assert lineSum * (100 * num) <= lineSum * (35 * den);
    }
    RoundBetween(100 * lineSum * num, den, 5 * lineSum);
    RoundBetween(100 * lineSum * num, den, 35 * lineSum);
  }

  /** Orders that come later start their lines later. */
  lemma {:induction false} LineCountMonotone(draws: seq<OrderDraw>, k: nat, m: nat)
    requires k <= m <= |draws|
    ensures LineCount(draws[..k]) <= LineCount(draws[..m])
  {
    if k < m {
      LineCountMonotone(draws, k, m - 1);
      assert draws[..m][..m - 1] == draws[..m - 1];
    }
  }

  /** The line table of the first `k` orders is the beginning of the whole line table. */
  lemma {:induction false} LineTablePrefix(products: seq<Product>, draws: seq<OrderDraw>, k: nat)
    requires LinesFit(draws, |products|) && k <= |draws|
    ensures LinesFit(draws[..k], |products|)
    ensures LineCount(draws[..k]) <= LineCount(draws)
    ensures LineTable(products, draws)[..LineCount(draws[..k])] == LineTable(products, draws[..k])
  {
    LinesFitPrefix(draws, |products|, k);
    var n := |draws|;
    if k == n {
      assert draws[..k] == draws;
    } else {
      var front := draws[..n - 1];
      LinesFitPrefix(draws, |products|, n - 1);
      LineTablePrefix(products, front, k);
      assert front[..k] == draws[..k];
      assert LineTable(products, draws) == LineTable(products, front) + LinesOfOrder(products, draws, n - 1);
    }
  }

  /** The lines of order `k` are the block of the line table from `LineCount(draws[..k])` on. */
  lemma OrderBlock(products: seq<Product>, draws: seq<OrderDraw>, k: nat)
    requires LinesFit(draws, |products|) && k < |draws|
    ensures LineCount(draws[..k + 1]) == LineCount(draws[..k]) + |draws[k].lines| <= LineCount(draws)
    ensures LineTable(products, draws)[LineCount(draws[..k])..LineCount(draws[..k + 1])]
         == LinesOfOrder(products, draws, k)
  {
    LineTablePrefix(products, draws, k + 1);
    LineTableSnoc(products, draws, k);
    var lo, hi := LineCount(draws[..k]), LineCount(draws[..k + 1]);
    var t := LineTable(products, draws);
    assert t[lo..hi] == t[..hi][lo..];
  }

  lemma LineTableLast(products: seq<Product>, draws: seq<OrderDraw>)
    requires LinesFit(draws, |products|) && |draws| > 0
    ensures LinesFit(draws[..|draws| - 1], |products|)
    ensures LineTable(products, draws)
         == LineTable(products, draws[..|draws| - 1]) + LinesOfOrder(products, draws, |draws| - 1)
  {
    LinesFitPrefix(draws, |products|, |draws| - 1);
  }

  lemma LinesOfOrderAt(products: seq<Product>, draws: seq<OrderDraw>, k: nat, l: nat)
    requires LinesFit(draws, |products|) && k < |draws| && l < |draws[k].lines|
    ensures LinesOfOrder(products, draws, k)[l]
         == MakeLine(LineCount(draws[..k]) + l + 1, OrderId(k + 1), products, draws[k].lines[l])
  {
  }

  lemma MakeLineFields(olSeq: nat, orderId: string, products: seq<Product>, d: LineDraw)
    requires ValidLineDraw(d, |products|)
    ensures var line := MakeLine(olSeq, orderId, products, d);
      && line.orderLineId == LineId(olSeq) && line.orderId == orderId && line.quantity == d.quantity
      && 1 <= line.quantity <= MaxQuantity && line.lineSum == line.price * line.quantity
  {
  }

  lemma OrderIdAt(clients: seq<Client>, products: seq<Product>, draws: seq<OrderDraw>, k: nat)
    requires DrawsFit(draws, |clients|, |products|) && k < |draws|
    ensures OrderTable(clients, products, draws)[k].orderId == OrderId(k + 1)
  {
  }

  /** Position `q` of order `k`'s block holds that order's line `q - LineCount(draws[..k])`, numbered `q + 1`. */
  lemma BlockLineAt(products: seq<Product>, draws: seq<OrderDraw>, k: nat, q: nat)
    requires LinesFit(draws, |products|) && k < |draws|
    requires LineCount(draws[..k]) <= q < LineCount(draws[..k + 1])
    ensures q < LineCount(draws) && q - LineCount(draws[..k]) < |draws[k].lines|
    ensures LineTable(products, draws)[q]
         == MakeLine(q + 1, OrderId(k + 1), products, draws[k].lines[q - LineCount(draws[..k])])
  {
    OrderBlock(products, draws, k);
    var lo := LineCount(draws[..k]);
    assert LineTable(products, draws)[q] == LinesOfOrder(products, draws, k)[q - lo];
    LinesOfOrderAt(products, draws, k, q - lo);
  }

  /** Every line is line `l` of some order `k`, built from that order's `l`-th line draw and numbered `q + 1`. */
  lemma {:induction false} LineTableAt(products: seq<Product>, draws: seq<OrderDraw>, q: nat) returns (k: nat, l: nat)
    requires LinesFit(draws, |products|) && q < LineCount(draws)
    ensures k < |draws| && l < |draws[k].lines| && q == LineCount(draws[..k]) + l
    ensures LineTable(products, draws)[q] == MakeLine(q + 1, OrderId(k + 1), products, draws[k].lines[l])
  {
    var n := |draws|;
    var front := draws[..n - 1];
    LineTableLast(products, draws);
    if q < LineCount(front) {
      k, l := LineTableAt(products, front, q);
      assert front[..k] == draws[..k] && front[k] == draws[k];
    } else {
      k, l := n - 1, q - LineCount(front);
      assert draws[..n] == draws;
      BlockLineAt(products, draws, k, q);
    }
  }

  /** Order-line ids `OL000001…` are consecutive, hence unique. */
  lemma LineIdsConsecutive(products: seq<Product>, draws: seq<OrderDraw>)
    requires LinesFit(draws, |products|)
    ensures forall q :: 0 <= q < |LineTable(products, draws)| ==>
      ParseId("OL", LineTable(products, draws)[q].orderLineId) == Some(q + 1)
  {
    forall q | 0 <= q < |LineTable(products, draws)|
      ensures ParseId("OL", LineTable(products, draws)[q].orderLineId) == Some(q + 1)
    {
      var k, l := LineTableAt(products, draws, q);
      assert OrderLinesFit(draws[k], |products|);
      MakeLineFields(q + 1, OrderId(k + 1), products, draws[k].lines[l]);
      ParseFormatId("OL", q + 1, 6);
    }
  }

  /** Order ids `O00001…` are consecutive, hence unique. */
  lemma OrderIdsConsecutive(clients: seq<Client>, products: seq<Product>, draws: seq<OrderDraw>)
    requires DrawsFit(draws, |clients|, |products|)
    ensures forall k :: 0 <= k < |draws| ==>
      ParseId("O", OrderTable(clients, products, draws)[k].orderId) == Some(k + 1)
  {
    IdsParse("O", 5);
  }

  /** Each order has between 1 and `maxLines` lines, and its total is the sum of their line sums. */
  lemma OrderTotalIsSumOfItsLines(clients: seq<Client>, products: seq<Product>, draws: seq<OrderDraw>,
                                  days: int, maxLines: nat, k: nat)
    requires DrawsFit(draws, |clients|, |products|) && DrawsInRange(draws, days, maxLines) && k < |draws|
    ensures LineCount(draws[..k]) < LineCount(draws[..k + 1]) <= LineCount(draws)
    ensures LineCount(draws[..k + 1]) - LineCount(draws[..k]) <= maxLines
    ensures OrderTable(clients, products, draws)[k].orderTotal
         == SumLineSums(LineTable(products, draws)[LineCount(draws[..k])..LineCount(draws[..k + 1])])
  {
    OrderBlock(products, draws, k);
  }

  /**
   The lines in order `k`'s block carry the order's id, have quantities in
   [1, 5] and `line_sum = price * quantity`.
   */
  lemma OrderBlockLines(clients: seq<Client>, products: seq<Product>, draws: seq<OrderDraw>, k: nat, q: nat)
    requires DrawsFit(draws, |clients|, |products|) && k < |draws|
    requires LineCount(draws[..k]) <= q < LineCount(draws[..k + 1])
    ensures q < LineCount(draws)
    ensures var line := LineTable(products, draws)[q];
      && line.orderId == OrderTable(clients, products, draws)[k].orderId
      && 1 <= line.quantity <= MaxQuantity
      && line.lineSum == line.price * line.quantity
  {
    BlockLineAt(products, draws, k, q);
    var d := draws[k].lines[q - LineCount(draws[..k])];
    assert ValidLineDraw(d, |products|) by {
      assert OrderLinesFit(draws[k], |products|);
    }
    MakeLineFields(q + 1, OrderId(k + 1), products, d);
    OrderIdAt(clients, products, draws, k);
  }

  /** A line carries the id of order `k` exactly when it lies in order `k`'s block. */
  lemma LineBelongsToOrder(clients: seq<Client>, products: seq<Product>, draws: seq<OrderDraw>, k: nat, q: nat)
    requires DrawsFit(draws, |clients|, |products|) && k < |draws| && q < LineCount(draws)
    ensures LineTable(products, draws)[q].orderId == OrderTable(clients, products, draws)[k].orderId
        <==> LineCount(draws[..k]) <= q < LineCount(draws[..k + 1])
  {
    var k', l := LineTableAt(products, draws, q);
    FormatIdInjective("O", k + 1, k' + 1, 5);
    OrderBlock(products, draws, k');
    if k' < k {
      LineCountMonotone(draws, k' + 1, k);
    } else if k < k' {
      LineCountMonotone(draws, k + 1, k');
    }
  }

  /** Every line references an existing order. */
  lemma LinesReferenceOrders(clients: seq<Client>, products: seq<Product>, draws: seq<OrderDraw>, q: nat)
    returns (k: nat)
    requires DrawsFit(draws, |clients|, |products|) && q < LineCount(draws)
    ensures k < |draws| && LineTable(products, draws)[q].orderId == OrderTable(clients, products, draws)[k].orderId
  {
    var l;
    k, l := LineTableAt(products, draws, q);
  }

  /**
   Every line references an existing product, and is priced at no less
   than that product's cost; its quantity is in [1, 5], its sum is
   `price * quantity` and its margin is between 5% and 35% of that sum.
   */
  lemma LineFacts(products: seq<Product>, draws: seq<OrderDraw>, q: nat) returns (i: nat)
    requires LinesFit(draws, |products|) && q < LineCount(draws)
    requires forall j :: 0 <= j < |products| ==> products[j].cost >= 0
    ensures i < |products| && products[i].article == LineTable(products, draws)[q].article
    ensures products[i].cost <= LineTable(products, draws)[q].price
    ensures var line := LineTable(products, draws)[q];
      && 1 <= line.quantity <= MaxQuantity
      && line.lineSum == line.price * line.quantity
      && 0 <= products[i].cost <= line.lineSum
      && 5 * line.lineSum <= line.lineMarginCents <= 35 * line.lineSum
  {
    var k, l := LineTableAt(products, draws, q);
    var d := draws[k].lines[l];
    i := d.product;
    var cost := products[i].cost;
    PriceNotBelowCost(cost, d.markup);
    var price := Price(cost, d.markup);
    MulMonotone(1, d.quantity, price);
    MarginInBand(price * d.quantity, d.marginShare);
  }

  /** A line sums to at least its product's cost: its price is at least the cost and it has at least one unit. */
  lemma LineSumAtLeastCost(olSeq: nat, orderId: string, products: seq<Product>, d: LineDraw)
    requires ValidLineDraw(d, |products|) && products[d.product].cost >= 0
    ensures products[d.product].cost <= MakeLine(olSeq, orderId, products, d).lineSum
  {
    var cost := products[d.product].cost;
    PriceNotBelowCost(cost, d.markup);
    MulMonotone(1, d.quantity, Price(cost, d.markup));
  }

  /** Line sums of at least `m >= 0` add up to a non-negative total, and to at least `m` when there is a line. */
  lemma {:induction false} SumLineSumsAtLeast(lines: seq<OrderLine>, m: int)
    requires 0 <= m && forall i :: 0 <= i < |lines| ==> m <= lines[i].lineSum
    ensures 0 <= SumLineSums(lines)
    ensures |lines| > 0 ==> m <= SumLineSums(lines)
    decreases |lines|
  {
    if |lines| > 0 {
      var n := |lines| - 1;
      assert forall i :: 0 <= i < n ==> lines[..n][i] == lines[i];
      SumLineSumsAtLeast(lines[..n], m);
    }
  }

  /**
   `order_total` is never negative: with every product cost at least
   `minCost >= 0`, and every order having at least one line, each order's
   total is at least `minCost`.
   */
  lemma OrderTotalAtLeastMinCost(clients: seq<Client>, products: seq<Product>, draws: seq<OrderDraw>,
                                 days: int, maxLines: nat, k: nat, minCost: int)
    requires DrawsFit(draws, |clients|, |products|) && DrawsInRange(draws, days, maxLines) && k < |draws|
    requires 0 <= minCost && forall j :: 0 <= j < |products| ==> minCost <= products[j].cost
    ensures 0 <= minCost <= OrderTable(clients, products, draws)[k].orderTotal
  {
    var lines := LinesOfOrder(products, draws, k);
    var ds := draws[k].lines;
    assert OrderLinesFit(draws[k], |products|);
    forall l | 0 <= l < |lines| ensures minCost <= lines[l].lineSum {
      LineSumAtLeastCost(LineCount(draws[..k]) + 1 + l, OrderId(k + 1), products, ds[l]);
    }
    SumLineSumsAtLeast(lines, minCost);
  }

  /** Every order references an existing client and carries that client's manager. */
  lemma OrdersReferenceClients(clients: seq<Client>, products: seq<Product>, draws: seq<OrderDraw>, k: nat)
    returns (c: nat)
    requires DrawsFit(draws, |clients|, |products|) && k < |draws|
    ensures c < |clients|
    ensures clients[c].clientId == OrderTable(clients, products, draws)[k].clientId
    ensures clients[c].managerId == OrderTable(clients, products, draws)[k].managerId
  {
    c := draws[k].client;
  }

  /**
   Order dates fall in the half-open window `[start, start + days)`, or on
   the start day itself when the window is empty.
   */
  lemma OrderDatesInWindow(clients: seq<Client>, products: seq<Product>, draws: seq<OrderDraw>,
                           days: int, maxLines: nat, k: nat)
    requires DrawsFit(draws, |clients|, |products|) && DrawsInRange(draws, days, maxLines) && k < |draws|
    ensures var day := OrderTable(clients, products, draws)[k].orderDay;
      0 <= day && (days >= 1 ==> day < days) && (days <= 1 ==> day == 0)
  {
  }
}
