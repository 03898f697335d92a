/**
 The rows of the eight generated tables and the identifier scheme of each
 table's key. Money is in whole currency units except the line margin,
 which is kept in hundredths (it is rounded to two decimals), and the
 return amount, which is kept as the exact quotient the source computes
 in floating point.
 */
module Tables {
  import opened Ids
  import opened Ratios
  import opened Calendar

  datatype Product = Product(article: string, productName: string, category: string, cost: int)

  datatype Team = Team(managerId: string, teamLeaderId: string, role: string)

  datatype Client = Client(clientId: string, clientName: string, inn: string, managerId: string)

  /** `orderDay` is the order date as a number of days after the window's start. */
  datatype Order = Order(orderId: string, clientId: string, orderDay: int, orderTotal: int, managerId: string)

  /** `lineMarginCents` is `line_margin` times 100. */
  datatype OrderLine = OrderLine(
    orderLineId: string, orderId: string, article: string,
    quantity: int, price: int, lineSum: int, lineMarginCents: int)

  datatype Sale = Sale(saleId: string, orderId: string, article: string, quantity: int, saleAmount: int)

  datatype Return = Return(returnId: string, saleId: string, article: string, returnQuantity: int, returnAmount: Ratio)

  datatype Plan = Plan(managerId: string, periodMonth: YearMonth, planRevenue: int, planMargin: int)

  function ArticleId(i: nat): string { FormatId("ART", i, 4) }
  function ManagerId(i: nat): string { FormatId("M", i, 2) }
  function LeaderId(i: nat): string { FormatId("TL", i, 2) }
  function ClientId(i: nat): string { FormatId("C", i, 4) }
  function OrderId(i: nat): string { FormatId("O", i, 5) }
  function LineId(i: nat): string { FormatId("OL", i, 6) }
  function SaleId(i: nat): string { FormatId("S", i, 6) }
  function ReturnId(i: nat): string { FormatId("R", i, 6) }

  /** Every identifier of a scheme reads back as its own number. */
  lemma IdsParse(prefix: string, width: nat)
    ensures forall n: nat {:trigger FormatId(prefix, n, width)} ::
      ParseId(prefix, FormatId(prefix, n, width)) == Some(n)
  {
    forall n: nat ensures ParseId(prefix, FormatId(prefix, n, width)) == Some(n) {
      ParseFormatId(prefix, n, width);
    }
  }

  /** Within one scheme, different numbers give different identifiers. */
  lemma IdsDistinct(prefix: string, width: nat)
    ensures forall a: nat, b: nat {:trigger FormatId(prefix, a, width), FormatId(prefix, b, width)} ::
      a != b ==> FormatId(prefix, a, width) != FormatId(prefix, b, width)
  {
    forall a: nat, b: nat | a != b ensures FormatId(prefix, a, width) != FormatId(prefix, b, width) {
      FormatIdInjective(prefix, a, b, width);
    }
  }

  predicate Distinct(xs: seq<string>) {
    forall i, j :: 0 <= i < |xs| && 0 <= j < |xs| && xs[i] == xs[j] ==> i == j
  }

  /** The consecutive identifiers `prefix`+`{1:0wd}` … `prefix`+`{n:0wd}`. */
  function IdRange(prefix: string, width: nat, n: nat): (ids: seq<string>)
    ensures |ids| == n && Distinct(ids)
    ensures forall i :: 0 <= i < n ==> ParseId(prefix, ids[i]) == Some(i + 1)
  {
    IdsParse(prefix, width);
    IdsDistinct(prefix, width);
    seq(n, i requires 0 <= i < n => FormatId(prefix, i + 1, width))
  }
}
