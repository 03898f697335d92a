/**
 The dimension tables: products with their costs, the manager and team
 leader pools with one team row per manager, and clients each assigned to a
 manager. Every random choice is an input: an index into the pool it picks
 from, or the drawn number itself.
 */
module Dimensions {
  import opened Ids
  import opened Tables

  const Categories: seq<string> := ["Одежда", "Обувь", "Аксессуары", "Товары для дома", "Электроника"]

  /** `np.random.randint(300, 8000)`: the upper bound is excluded. */
  const MinCost := 300
  const CostBound := 8000

  const InnBase := 7700000000

  const ManagerRole := "manager"

  predicate ProductDraws(n: nat, categoryDraws: seq<nat>, costDraws: seq<int>) {
    && |categoryDraws| == n && |costDraws| == n
    && (forall i :: 0 <= i < n ==> categoryDraws[i] < |Categories|)
    && (forall i :: 0 <= i < n ==> MinCost <= costDraws[i] < CostBound)
  }

  /**
   Products `ART0001…` named `Товар 1…`, each with a drawn category and cost.
   Articles are unique and consecutive, and every cost is a positive amount
   in the cost band.
   */
  function BuildProducts(n: nat, categoryDraws: seq<nat>, costDraws: seq<int>): (ps: seq<Product>)
    requires ProductDraws(n, categoryDraws, costDraws)
    ensures |ps| == n
    ensures Distinct(Articles(ps))
    ensures forall i :: 0 <= i < n ==> ParseId("ART", ps[i].article) == Some(i + 1)
    ensures forall i :: 0 <= i < n ==> ps[i].category in Categories && MinCost <= ps[i].cost < CostBound
  {
    var articles := IdRange("ART", 4, n);
    seq(n, i requires 0 <= i < n =>
      Product(articles[i], "Товар " + Decimal(i + 1), Categories[categoryDraws[i]], costDraws[i]))
  }

  function Articles(ps: seq<Product>): (r: seq<string>)
    ensures |r| == |ps|
  {
    seq(|ps|, i requires 0 <= i < |ps| => ps[i].article)
  }

  /** Managers `M01…`. */
  function Managers(n: nat): (ms: seq<string>)
    ensures |ms| == n && Distinct(ms)
    ensures forall i :: 0 <= i < n ==> ParseId("M", ms[i]) == Some(i + 1)
  {
    IdRange("M", 2, n)
  }

  /** Team leaders `TL01…`: half as many as managers, rounded down, but never fewer than two. */
  function TeamLeaders(nManagers: nat): (ls: seq<string>)
    ensures 2 <= |ls| && Distinct(ls)
    ensures nManagers < 4 ==> |ls| == 2
    ensures nManagers >= 4 ==> |ls| == nManagers / 2
    ensures forall i :: 0 <= i < |ls| ==> ParseId("TL", ls[i]) == Some(i + 1)
  {
    var k := if nManagers / 2 > 2 then nManagers / 2 else 2;
    IdRange("TL", 2, k)
  }

  /**
   The `for` loop over the managers: each manager gets exactly one team row,
   in manager order, whose leader is the one drawn from the leader pool.
   */
  method BuildTeams(managers: seq<string>, leaders: seq<string>, leaderDraws: seq<nat>) returns (teams: seq<Team>)
    requires |leaderDraws| == |managers|
    requires forall i :: 0 <= i < |leaderDraws| ==> leaderDraws[i] < |leaders|
    ensures |teams| == |managers|
    ensures forall i :: 0 <= i < |teams| ==>
      teams[i].managerId == managers[i] && teams[i].teamLeaderId in leaders && teams[i].role == ManagerRole
    ensures forall i :: 0 <= i < |teams| ==> teams[i].teamLeaderId == leaders[leaderDraws[i]]
  {
    teams := [];
    for i := 0 to |managers|
      invariant |teams| == i
      invariant forall k :: 0 <= k < i ==>
        teams[k] == Team(managers[k], leaders[leaderDraws[k]], ManagerRole)
    {
      var tl := leaders[leaderDraws[i]];
      teams := teams + [Team(managers[i], tl, ManagerRole)];
    }
  }

  predicate ClientDraws(n: nat, managers: seq<string>, managerDraws: seq<nat>) {
    |managerDraws| == n && forall i :: 0 <= i < n ==> managerDraws[i] < |managers|
  }

  /**
   Clients `C0001…` named `ООО Клиент 1…` with tax number `7700000000 + i`,
   each assigned the drawn manager. Client ids are unique and consecutive,
   and every client's manager is in the manager pool.
   */
  function BuildClients(n: nat, managers: seq<string>, managerDraws: seq<nat>): (cs: seq<Client>)
    requires ClientDraws(n, managers, managerDraws)
    ensures |cs| == n
    ensures Distinct(ClientIds(cs))
    ensures forall i :: 0 <= i < n ==> ParseId("C", cs[i].clientId) == Some(i + 1)
    ensures forall i :: 0 <= i < n ==> cs[i].managerId in managers
    ensures forall i :: 0 <= i < n ==> IsDigits(cs[i].inn) && DecimalValue(cs[i].inn) == InnBase + i + 1
  {
    var ids := IdRange("C", 4, n);
    DecimalsParse();
    seq(n, i requires 0 <= i < n =>
      Client(ids[i], "ООО Клиент " + Decimal(i + 1), TaxNumber(i + 1), managers[managerDraws[i]]))
  }

  /** The client tax number `str(7700000000 + i)`. */
  function TaxNumber(i: nat): (inn: string)
    ensures IsDigits(inn) && DecimalValue(inn) == InnBase + i
  {
    DecimalRoundTrip(InnBase + i);
    Decimal(InnBase + i)
  }

  function ClientIds(cs: seq<Client>): (r: seq<string>)
    ensures |r| == |cs|
  {
    seq(|cs|, i requires 0 <= i < |cs| => cs[i].clientId)
  }
}
