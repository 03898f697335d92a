/**
 Orders and order lines. The builder walks the order draws with two running
 identifier counters (`O00001…` for orders, `OL000001…` for lines, the
 second one continuing across orders) and a running order total. Each line
 prices its product at `int(cost * markup)`, its sum at `price * quantity`
 and its margin at `round(line_sum * share, 2)`.

 `OrderTable` and `LineTable` state what the loop produces; the lemmas
 below them state what those tables promise.
 */
module Orders {
  import opened Ratios
  import opened Tables
  import opened Dimensions

  const MaxQuantity := 5
  const MarkupLow := Ratio(11, 10)
  const MarkupHigh := Ratio(25, 10)
  const MarginLow := Ratio(5, 100)
  const MarginHigh := Ratio(35, 100)

  /** The draws of one line: a product index, `randint(1, 5)`, `uniform(1.1, 2.5)`, `uniform(0.05, 0.35)`. */
  datatype LineDraw = LineDraw(product: nat, quantity: int, markup: Ratio, marginShare: Ratio)

  /** The draws of one order: the day offset, a client index and the draws of its lines. */
  datatype OrderDraw = OrderDraw(dayOffset: int, client: nat, lines: seq<LineDraw>)

  predicate ValidLineDraw(d: LineDraw, nProducts: nat) {
    && d.product < nProducts
    && 1 <= d.quantity <= MaxQuantity
    && Valid(d.markup) && InBand(d.markup, MarkupLow, MarkupHigh)
    && Valid(d.marginShare) && InBand(d.marginShare, MarginLow, MarginHigh)
  }

  /** Every line draw picks an existing product and is in range. */
  predicate OrderLinesFit(d: OrderDraw, nProducts: nat) {
    forall l :: 0 <= l < |d.lines| ==> ValidLineDraw(d.lines[l], nProducts)
  }

  predicate LinesFit(draws: seq<OrderDraw>, nProducts: nat) {
    forall k :: 0 <= k < |draws| ==> OrderLinesFit(draws[k], nProducts)
  }

  /** Every order draw picks an existing client and every line draw fits. */
  predicate DrawsFit(draws: seq<OrderDraw>, nClients: nat, nProducts: nat) {
    (forall k :: 0 <= k < |draws| ==> draws[k].client < nClients) && LinesFit(draws, nProducts)
  }

  /** The largest offset `randint(0, max(0, days - 1))` can give. */
  function LastDay(days: int): nat {
    if days - 1 > 0 then days - 1 else 0
  }

  /** Day offsets as `randint(0, max(0, days - 1))` draws them and line counts as `randint(1, maxLines)`. */
  predicate DrawsInRange(draws: seq<OrderDraw>, days: int, maxLines: nat) {
    forall k :: 0 <= k < |draws| ==>
      0 <= draws[k].dayOffset <= LastDay(days) && 1 <= |draws[k].lines| <= maxLines
  }

  /** `price = int(cost * markup)`. */
  function Price(cost: int, markup: Ratio): int
    requires Valid(markup)
  {
    TruncTimes(cost, markup)
  }

  /** `line_margin = round(line_sum * share, 2)`, in hundredths. */
  function MarginCents(lineSum: int, share: Ratio): int
    requires Valid(share)
  {
    RoundHalfEven(100 * lineSum * share.num, share.den)
  }

  /** The line numbered `olSeq` of order `orderId`, built from its draws. */
  function MakeLine(olSeq: nat, orderId: string, products: seq<Product>, d: LineDraw): OrderLine
    requires ValidLineDraw(d, |products|)
  {
    var product := products[d.product];
    var price := Price(product.cost, d.markup);
    var lineSum := price * d.quantity;
    OrderLine(LineId(olSeq), orderId, product.article, d.quantity, price, lineSum, MarginCents(lineSum, d.marginShare))
  }

  /** The lines of one order, numbered from `firstSeq` on. */
  function OrderLines(orderId: string, firstSeq: nat, products: seq<Product>, ds: seq<LineDraw>): (r: seq<OrderLine>)
    requires forall l :: 0 <= l < |ds| ==> ValidLineDraw(ds[l], |products|)
    ensures |r| == |ds|
  {
    seq(|ds|, l requires 0 <= l < |ds| => MakeLine(firstSeq + l, orderId, products, ds[l]))
  }

  /** The total of the `line_sum` column. */
  function SumLineSums(lines: seq<OrderLine>): int {
    if |lines| == 0 then 0 else SumLineSums(lines[..|lines| - 1]) + lines[|lines| - 1].lineSum
  }

  /** The number of lines the draws ask for. */
  function LineCount(draws: seq<OrderDraw>): nat {
    if |draws| == 0 then 0 else LineCount(draws[..|draws| - 1]) + |draws[|draws| - 1].lines|
  }

  /** The lines of order number `k + 1`; the lines of the earlier orders take the numbers before them. */
  function LinesOfOrder(products: seq<Product>, draws: seq<OrderDraw>, k: nat): (r: seq<OrderLine>)
    requires LinesFit(draws, |products|) && k < |draws|
    ensures |r| == |draws[k].lines|
  {
    OrderLines(OrderId(k + 1), LineCount(draws[..k]) + 1, products, draws[k].lines)
  }

  /**
   The order row number `k + 1`: the drawn client and that client's manager,
   the drawn day and the total of the order's own lines.
   */
  function MakeOrder(clients: seq<Client>, products: seq<Product>, draws: seq<OrderDraw>, k: nat): Order
    requires DrawsFit(draws, |clients|, |products|) && k < |draws|
  {
    var client := clients[draws[k].client];
    Order(OrderId(k + 1), client.clientId, draws[k].dayOffset,
          SumLineSums(LinesOfOrder(products, draws, k)), client.managerId)
  }

  /** The `orders` table: one row per order draw, in draw order. */
  function OrderTable(clients: seq<Client>, products: seq<Product>, draws: seq<OrderDraw>): (r: seq<Order>)
    requires DrawsFit(draws, |clients|, |products|)
    ensures |r| == |draws|
  {
    seq(|draws|, k requires 0 <= k < |draws| => MakeOrder(clients, products, draws, k))
  }

  /**
   The `order_lines` table: the lines of every order, order by order. It
   has as many rows as the orders have lines together.
   */
  function LineTable(products: seq<Product>, draws: seq<OrderDraw>): (r: seq<OrderLine>)
    requires LinesFit(draws, |products|)
    ensures |r| == LineCount(draws)
  {
    if |draws| == 0 then []
    else LineTable(products, draws[..|draws| - 1]) + LinesOfOrder(products, draws, |draws| - 1)
  }

  /** One more line draw adds one more line at the end of an order. */
  lemma OrderLinesSnoc(orderId: string, firstSeq: nat, products: seq<Product>, ds: seq<LineDraw>, l: nat)
    requires forall i :: 0 <= i < |ds| ==> ValidLineDraw(ds[i], |products|)
    requires l < |ds|
    ensures OrderLines(orderId, firstSeq, products, ds[..l + 1])
         == OrderLines(orderId, firstSeq, products, ds[..l]) + [MakeLine(firstSeq + l, orderId, products, ds[l])]
  {
  }

  lemma LinesFitPrefix(draws: seq<OrderDraw>, nProducts: nat, m: nat)
    requires LinesFit(draws, nProducts) && m <= |draws|
    ensures LinesFit(draws[..m], nProducts)
  {
  }

  lemma DrawsFitPrefix(draws: seq<OrderDraw>, nClients: nat, nProducts: nat, m: nat)
    requires DrawsFit(draws, nClients, nProducts) && m <= |draws|
    ensures DrawsFit(draws[..m], nClients, nProducts)
  {
    LinesFitPrefix(draws, nProducts, m);
  }

  /** The lines of an order do not depend on the draws of the later orders. */
  lemma LinesOfOrderPrefix(products: seq<Product>, draws: seq<OrderDraw>, m: nat, j: nat)
    requires LinesFit(draws, |products|) && j < m <= |draws|
    ensures LinesFit(draws[..m], |products|)
    ensures LinesOfOrder(products, draws[..m], j) == LinesOfOrder(products, draws, j)
  {
    LinesFitPrefix(draws, |products|, m);
    assert draws[..m][..j] == draws[..j];
  }

  lemma LineTableUnfold(products: seq<Product>, draws: seq<OrderDraw>, k: nat)
    requires LinesFit(draws, |products|) && k < |draws|
    ensures LinesFit(draws[..k + 1], |products|) && LinesFit(draws[..k + 1][..k], |products|)
    ensures LineTable(products, draws[..k + 1])
         == LineTable(products, draws[..k + 1][..k]) + LinesOfOrder(products, draws[..k + 1], k)
  {
    LinesFitPrefix(draws, |products|, k + 1);
    LinesFitPrefix(draws[..k + 1], |products|, k);
  }

  /** One more order draw adds that order's lines at the end of the line table. */
  lemma LineTableSnoc(products: seq<Product>, draws: seq<OrderDraw>, k: nat)
    requires LinesFit(draws, |products|) && k < |draws|
    ensures LinesFit(draws[..k], |products|) && LinesFit(draws[..k + 1], |products|)
    ensures LineCount(draws[..k + 1]) == LineCount(draws[..k]) + |draws[k].lines|
    ensures LineTable(products, draws[..k + 1]) == LineTable(products, draws[..k]) + LinesOfOrder(products, draws, k)
  {
    LinesFitPrefix(draws, |products|, k);
    LineTableUnfold(products, draws, k);
    LinesOfOrderPrefix(products, draws, k + 1, k);
    assert draws[..k + 1][..k] == draws[..k];
  }

  lemma MakeOrderPrefix(clients: seq<Client>, products: seq<Product>, draws: seq<OrderDraw>, m: nat, j: nat)
    requires DrawsFit(draws, |clients|, |products|) && j < m <= |draws|
    ensures DrawsFit(draws[..m], |clients|, |products|)
    ensures MakeOrder(clients, products, draws[..m], j) == MakeOrder(clients, products, draws, j)
  {
    DrawsFitPrefix(draws, |clients|, |products|, m);
    LinesOfOrderPrefix(products, draws, m, j);
  }

  /** One more order draw adds one order row at the end of the order table. */
  lemma OrderTableSnoc(clients: seq<Client>, products: seq<Product>, draws: seq<OrderDraw>, k: nat)
    requires DrawsFit(draws, |clients|, |products|) && k < |draws|
    ensures DrawsFit(draws[..k], |clients|, |products|) && DrawsFit(draws[..k + 1], |clients|, |products|)
    ensures OrderTable(clients, products, draws[..k + 1])
         == OrderTable(clients, products, draws[..k]) + [MakeOrder(clients, products, draws, k)]
  {
    DrawsFitPrefix(draws, |clients|, |products|, k);
    DrawsFitPrefix(draws, |clients|, |products|, k + 1);
    var longer := OrderTable(clients, products, draws[..k + 1]);
    var shorter := OrderTable(clients, products, draws[..k]);
    forall j | 0 <= j <= k
      ensures longer[j] == (shorter + [MakeOrder(clients, products, draws, k)])[j]
    {
      OrderTableSnocAt(clients, products, draws, k, j);
    }
  }

  lemma OrderTableSnocAt(clients: seq<Client>, products: seq<Product>, draws: seq<OrderDraw>, k: nat, j: nat)
    requires DrawsFit(draws, |clients|, |products|) && j <= k < |draws|
    ensures DrawsFit(draws[..k], |clients|, |products|) && DrawsFit(draws[..k + 1], |clients|, |products|)
    ensures OrderTable(clients, products, draws[..k + 1])[j]
         == (OrderTable(clients, products, draws[..k]) + [MakeOrder(clients, products, draws, k)])[j]
  {
    DrawsFitPrefix(draws, |clients|, |products|, k);
    MakeOrderPrefix(clients, products, draws, k + 1, j);
    if j < k {
      MakeOrderPrefix(clients, products, draws, k, j);
    }
  }

  /**
   The inner loop over the line draws of one order: it appends the order's
   lines to `lines`, numbering them on from `olIdSeq`, and adds up their
   line sums into the order total.
   */
  method AppendOrderLines(lines: seq<OrderLine>, olIdSeq: nat, orderId: string, products: seq<Product>, ds: seq<LineDraw>)
    returns (lines': seq<OrderLine>, olIdSeq': nat, orderTotal: int)
    requires forall l :: 0 <= l < |ds| ==> ValidLineDraw(ds[l], |products|)
    ensures lines' == lines + OrderLines(orderId, olIdSeq, products, ds)
    ensures olIdSeq' == olIdSeq + |ds|
    ensures orderTotal == SumLineSums(OrderLines(orderId, olIdSeq, products, ds))
  {
    lines', olIdSeq', orderTotal := lines, olIdSeq, 0;
    for l := 0 to |ds|
      invariant olIdSeq' == olIdSeq + l
      invariant lines' == lines + OrderLines(orderId, olIdSeq, products, ds[..l])
      invariant orderTotal == SumLineSums(OrderLines(orderId, olIdSeq, products, ds[..l]))
    {
      var product := products[ds[l].product];
      var qty := ds[l].quantity;
      var price := Price(product.cost, ds[l].markup);
      var lineSum := price * qty;
      var lineMargin := MarginCents(lineSum, ds[l].marginShare);
      var row := OrderLine(LineId(olIdSeq'), orderId, product.article, qty, price, lineSum, lineMargin);
      assert row == MakeLine(olIdSeq + l, orderId, products, ds[l]);
      OrderLinesSnoc(orderId, olIdSeq, products, ds, l);
      lines' := lines' + [row];
      olIdSeq' := olIdSeq' + 1;
      orderTotal := orderTotal + lineSum;
    }
    assert ds[..|ds|] == ds;
  }

  /**
   The loop over the order draws. `orderIdSeq` and `olIdSeq` are the next
   order and line numbers; the result is exactly the two tables above.
   */
  method BuildOrders(clients: seq<Client>, products: seq<Product>, draws: seq<OrderDraw>)
    returns (orders: seq<Order>, lines: seq<OrderLine>)
    requires DrawsFit(draws, |clients|, |products|)
    ensures orders == OrderTable(clients, products, draws)
    ensures lines == LineTable(products, draws)
  {
    orders, lines := [], [];
    var orderIdSeq: nat := 1;
    var olIdSeq: nat := 1;
    for k := 0 to |draws|
      invariant orderIdSeq == k + 1
      invariant olIdSeq == LineCount(draws[..k]) + 1
      invariant orders == OrderTable(clients, products, draws[..k])
      invariant lines == LineTable(products, draws[..k])
    {
      var d := draws[k];
      var orderId := OrderId(orderIdSeq);
      var orderDay := d.dayOffset;
      var client := clients[d.client];
      var orderTotal;
      lines, olIdSeq, orderTotal := AppendOrderLines(lines, olIdSeq, orderId, products, d.lines);
      LineTableSnoc(products, draws, k);
      OrderTableSnoc(clients, products, draws, k);
      orders := orders + [Order(orderId, client.clientId, orderDay, orderTotal, client.managerId)];
      orderIdSeq := orderIdSeq + 1;
    }
    assert draws[..|draws|] == draws;
  }
}
