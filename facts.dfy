/**
 Sales and returns. Sales are the order lines a boolean mask keeps, in
 their original order, renumbered `S000001…`, with `sale_amount =
 line_sum`. Returns are the sales a second mask keeps, renumbered
 `R000001…`, each with a drawn returned quantity and the amount prorated
 by `sale_amount / quantity * return_quantity`.
 */
module Facts {
  import opened Ids
  import opened Ratios
  import opened Tables
  import opened Masks

  /** The `sales` table: the kept lines, renumbered, with the sale amount copied from the line sum. */
  function SalesTable(lines: seq<OrderLine>, soldMask: seq<bool>): (sales: seq<Sale>)
    requires |soldMask| == |lines|
    ensures |sales| == TrueCount(soldMask)
  {
    var sold := Filter(lines, soldMask);
    seq(|sold|, i requires 0 <= i < |sold| =>
      Sale(SaleId(i + 1), sold[i].orderId, sold[i].article, sold[i].quantity, sold[i].lineSum))
  }

  /**
   Sale `i` comes from the `i`-th kept line `p`: it has id `S{i+1:06d}` and
   copies that line's order, article and quantity, with the line sum as
   its amount.
   */
  lemma SaleSource(lines: seq<OrderLine>, soldMask: seq<bool>, i: nat) returns (p: nat)
    requires |soldMask| == |lines| && i < TrueCount(soldMask)
    ensures p == Selected(soldMask)[i] && p < |lines| && soldMask[p]
    ensures var s := SalesTable(lines, soldMask)[i];
      && ParseId("S", s.saleId) == Some(i + 1)
      && s.orderId == lines[p].orderId && s.article == lines[p].article
      && s.quantity == lines[p].quantity && s.saleAmount == lines[p].lineSum
  {
    p := Selected(soldMask)[i];
    FilterAt(lines, soldMask, i);
    ParseFormatId("S", i + 1, 6);
  }

  /**
   Sales keep the order of the lines they come from: an earlier sale `i`
   was sold from an earlier line `p` than a later sale `j` (line `p'`), and
   each copies its own line.
   */
  lemma SalesKeepLineOrder(lines: seq<OrderLine>, soldMask: seq<bool>, i: nat, j: nat) returns (p: nat, p': nat)
    requires |soldMask| == |lines| && i < j < TrueCount(soldMask)
    ensures p == Selected(soldMask)[i] && p' == Selected(soldMask)[j]
    ensures p < p' < |lines| && soldMask[p] && soldMask[p']
    ensures var sales := SalesTable(lines, soldMask);
      && sales[i].orderId == lines[p].orderId && sales[i].article == lines[p].article
      && sales[i].saleAmount == lines[p].lineSum
      && sales[j].orderId == lines[p'].orderId && sales[j].article == lines[p'].article
      && sales[j].saleAmount == lines[p'].lineSum
  {
    p := SaleSource(lines, soldMask, i);
    p' := SaleSource(lines, soldMask, j);
    SelectedIncreasing(soldMask);
  }

  /** Every line the mask keeps becomes a sale; `SaleSource` gives the converse. */
  lemma KeptLineIsSold(lines: seq<OrderLine>, soldMask: seq<bool>, p: nat) returns (i: nat)
    requires |soldMask| == |lines| && p < |lines| && soldMask[p]
    ensures i < |SalesTable(lines, soldMask)| && Selected(soldMask)[i] == p
    ensures var s := SalesTable(lines, soldMask)[i];
      s.orderId == lines[p].orderId && s.article == lines[p].article && s.saleAmount == lines[p].lineSum
  {
    SelectedComplete(soldMask, p);
    var idx := Selected(soldMask);
    i :| 0 <= i < |idx| && idx[i] == p;
    FilterAt(lines, soldMask, i);
  }

  /** `random.randint(1, max(1, int(q)))`: the largest quantity a return may draw. */
  function ReturnCap(quantity: int): int {
    if quantity > 1 then quantity else 1
  }

  /** One returned-quantity draw per kept sale, each in `[1, max(1, quantity)]`. */
  predicate ReturnDraws(sales: seq<Sale>, returnMask: seq<bool>, quantityDraws: seq<int>) {
    && |returnMask| == |sales|
    && |quantityDraws| == TrueCount(returnMask)
    && forall i :: 0 <= i < |quantityDraws| ==>
         1 <= quantityDraws[i] <= ReturnCap(Filter(sales, returnMask)[i].quantity)
  }

  /** `amount / quantity * part`, the prorated amount, as an exact quotient. */
  function Prorated(amount: int, quantity: int, part: int): Ratio {
    Ratio(amount * part, quantity)
  }

  /**
   Prorating a non-negative amount by `part` of `quantity` units gives a
   quotient whose value times the quantity is the amount times the part;
   it never exceeds the amount, and for a positive amount it equals the
   amount exactly when the whole quantity is taken.
   */
  lemma ProratedBounds(amount: int, quantity: int, part: int)
    requires amount >= 0 && 1 <= part <= quantity
    ensures var r := Prorated(amount, quantity, part);
      && Valid(r)
      && r.num * quantity == amount * part * r.den
      && 0 <= r.num <= amount * r.den
      && (amount > 0 ==> (part == quantity <==> r.num == amount * r.den))
  {
    MulMonotone(part, quantity, amount);
    MulMonotone(0, part, amount);
    if amount > 0 {
      MulOrder(part, quantity, amount);
    }
  }

  /**
   The `returns` table: the kept sales, renumbered, each with its drawn
   quantity and the amount `sale_amount * return_quantity / quantity`.
   */
  function ReturnsTable(sales: seq<Sale>, returnMask: seq<bool>, quantityDraws: seq<int>): (rs: seq<Return>)
    requires ReturnDraws(sales, returnMask, quantityDraws)
    ensures |rs| == TrueCount(returnMask)
  {
    var picked := Filter(sales, returnMask);
    seq(|picked|, i requires 0 <= i < |picked| =>
      Return(ReturnId(i + 1), picked[i].saleId, picked[i].article, quantityDraws[i],
             Prorated(picked[i].saleAmount, picked[i].quantity, quantityDraws[i])))
  }

  /**
   Return `i` comes from the `i`-th kept sale `p`: it has id `R{i+1:06d}`,
   that sale's id and article, a quantity between 1 and the sold quantity
   (sold quantities being at least 1), and the sale amount prorated by
   returned over sold quantity.
   */
  lemma ReturnSource(sales: seq<Sale>, returnMask: seq<bool>, quantityDraws: seq<int>, i: nat) returns (p: nat)
    requires ReturnDraws(sales, returnMask, quantityDraws) && i < TrueCount(returnMask)
    ensures p == Selected(returnMask)[i] && p < |sales| && returnMask[p]
    ensures var r := ReturnsTable(sales, returnMask, quantityDraws)[i];
      && ParseId("R", r.returnId) == Some(i + 1)
      && r.saleId == sales[p].saleId && r.article == sales[p].article
      && 1 <= r.returnQuantity <= ReturnCap(sales[p].quantity)
      && (sales[p].quantity >= 1 ==> r.returnQuantity <= sales[p].quantity)
      && r.returnAmount == Prorated(sales[p].saleAmount, sales[p].quantity, r.returnQuantity)
  {
    p := Selected(returnMask)[i];
    FilterAt(sales, returnMask, i);
    ParseFormatId("R", i + 1, 6);
  }

  /** Every sale the mask keeps becomes a return. */
  lemma KeptSaleIsReturned(sales: seq<Sale>, returnMask: seq<bool>, quantityDraws: seq<int>, p: nat) returns (i: nat)
    requires ReturnDraws(sales, returnMask, quantityDraws) && p < |sales| && returnMask[p]
    ensures i < |ReturnsTable(sales, returnMask, quantityDraws)| && Selected(returnMask)[i] == p
    ensures ReturnsTable(sales, returnMask, quantityDraws)[i].saleId == sales[p].saleId
  {
    SelectedComplete(returnMask, p);
    var idx := Selected(returnMask);
    i :| 0 <= i < |idx| && idx[i] == p;
    FilterAt(sales, returnMask, i);
  }
}
