/**
 What the usage dashboard adds up from the rows of a tenant: costs by day, feature and model, and in total.
 */
module Dashboard {
  import opened StreamAssembly
  import opened UsageRows
  import opened Pricing

  /** A usage row as the table keeps it, with the cost stored when it was written. */
  datatype Entry = Entry(tenant: int, createdAt: int, row: Row, cost: int)

  datatype Key = Key(day: int, feature: string, model: string)

  datatype DailyCost = DailyCost(key: Key, cost: int, usage: Usage, calls: nat)

  const DAY_SECONDS := 86400

  function KeyOf(r: Entry): Key {
    Key(r.createdAt / DAY_SECONDS, r.row.feature, r.row.model)
  }

  /** The rows of the tenant with start <= created_at < end. */
  function InRange(rows: seq<Entry>, tenant: int, start: int, end: int): seq<Entry> {
    if rows == [] then []
    else
      var r := rows[0];
      (if r.tenant == tenant && start <= r.createdAt < end then [r] else []) + InRange(rows[1..], tenant, start, end)
  }

  function SumCost(rows: seq<Entry>): int {
    if rows == [] then 0 else rows[0].cost + SumCost(rows[1..])
  }

  function SumUsage(rows: seq<Entry>): Usage {
    if rows == [] then NO_USAGE else Plus(rows[0].row.usage, SumUsage(rows[1..]))
  }

  function OfKey(rows: seq<Entry>, k: Key): seq<Entry> {
    if rows == [] then []
    else (if KeyOf(rows[0]) == k then [rows[0]] else []) + OfKey(rows[1..], k)
  }

  ghost predicate Distinct(ks: seq<Key>) {
    ks == [] || (ks[0] !in ks[1..] && Distinct(ks[1..]))
  }

  /** The groups, each once. */
  function Keys(rows: seq<Entry>): (ks: seq<Key>)
    ensures Distinct(ks)
    ensures forall k :: k in ks <==> OfKey(rows, k) != []
  {
    if rows == [] then []
    else
      var rest := Keys(rows[1..]);
      var k := KeyOf(rows[0]);
      if k in rest then rest else [k] + rest
  }

  function GroupOf(rows: seq<Entry>, k: Key): DailyCost {
    var mine := OfKey(rows, k);
    DailyCost(k, SumCost(mine), SumUsage(mine), |mine|)
  }

  /** `daily_costs`: one entry for each day, feature and model (the order of the entries aside). */
  function DailyCosts(rows: seq<Entry>, tenant: int, start: int, end: int): seq<DailyCost> {
    var mine := InRange(rows, tenant, start, end);
    Groups(mine, Keys(mine))
  }

  function Groups(rows: seq<Entry>, ks: seq<Key>): seq<DailyCost> {
    if ks == [] then [] else [GroupOf(rows, ks[0])] + Groups(rows, ks[1..])
  }

  function TotalCost(rows: seq<Entry>, tenant: int, start: int, end: int): int {
    SumCost(InRange(rows, tenant, start, end))
  }

  datatype Totals = Totals(cost: int, usage: Usage, calls: int)

  function Add(a: Totals, b: Totals): Totals {
    Totals(a.cost + b.cost, Plus(a.usage, b.usage), a.calls + b.calls)
  }

  function SumDaily(ds: seq<DailyCost>): Totals {
    if ds == [] then Totals(0, NO_USAGE, 0) else Add(Totals(ds[0].cost, ds[0].usage, ds[0].calls), SumDaily(ds[1..]))
  }

  function Sums(rows: seq<Entry>): Totals {
    Totals(SumCost(rows), SumUsage(rows), |rows|)
  }

  function SumGroups(rows: seq<Entry>, ks: seq<Key>): Totals {
    if ks == [] then Totals(0, NO_USAGE, 0) else Add(Sums(OfKey(rows, ks[0])), SumGroups(rows, ks[1..]))
  }

  lemma {:induction false} SumDailyOfGroups(rows: seq<Entry>, ks: seq<Key>)
    ensures SumDaily(Groups(rows, ks)) == SumGroups(rows, ks)
  {
    if ks != [] {
      SumDailyOfGroups(rows, ks[1..]);
      assert Groups(rows, ks)[1..] == Groups(rows, ks[1..]);
    }
  }

  function SumsOf(r: Entry): Totals {
    Totals(r.cost, r.row.usage, 1)
  }

  lemma GroupGain(r: Entry, rows: seq<Entry>, k: Key)
    ensures Sums(OfKey([r] + rows, k)) ==
            if KeyOf(r) == k then Add(SumsOf(r), Sums(OfKey(rows, k))) else Sums(OfKey(rows, k))
  {
    assert ([r] + rows)[1..] == rows;
    var mine := OfKey(rows, k);
    assert ([r] + mine)[1..] == mine && [] + mine == mine;
  }

  lemma AddSwaps(a: Totals, b: Totals, c: Totals)
    ensures Add(a, Add(b, c)) == Add(b, Add(a, c)) == Add(Add(a, b), c)
  {
  }

  /** One more row changes the group of its key, and no other. */
  lemma {:induction false} GroupsGain(r: Entry, rows: seq<Entry>, ks: seq<Key>)
    requires Distinct(ks)
    ensures SumGroups([r] + rows, ks) ==
            if KeyOf(r) in ks then Add(SumsOf(r), SumGroups(rows, ks)) else SumGroups(rows, ks)
  {
    if ks != [] {
      GroupsGain(r, rows, ks[1..]);
      GroupGain(r, rows, ks[0]);
      AddSwaps(SumsOf(r), Sums(OfKey(rows, ks[0])), SumGroups(rows, ks[1..]));
      assert KeyOf(r) in ks <==> KeyOf(r) == ks[0] || KeyOf(r) in ks[1..];
    }
  }

  lemma {:induction false} GroupsCover(rows: seq<Entry>, ks: seq<Key>)
    requires Distinct(ks)
    requires forall i :: 0 <= i < |rows| ==> KeyOf(rows[i]) in ks
    ensures SumGroups(rows, ks) == Sums(rows)
  {
    if rows == [] {
      EmptyGroups(ks);
    } else {
      GroupsCover(rows[1..], ks);
      GroupsGain(rows[0], rows[1..], ks);
      assert [rows[0]] + rows[1..] == rows;
    }
  }

  lemma {:induction false} EmptyGroups(ks: seq<Key>)
    ensures SumGroups([], ks) == Totals(0, NO_USAGE, 0)
  {
    if ks != [] {
      EmptyGroups(ks[1..]);
    }
  }

  lemma {:induction false} HasKey(rows: seq<Entry>, i: nat)
    requires i < |rows|
    ensures OfKey(rows, KeyOf(rows[i])) != []
  {
    if i > 0 {
      HasKey(rows[1..], i - 1);
    }
  }

  /** Grouping loses nothing: over any range, the daily entries add up to `total_cost`, and their tokens
      and calls to those of the rows. */
  lemma DailyCostsAddUp(rows: seq<Entry>, tenant: int, start: int, end: int)
    ensures var mine := InRange(rows, tenant, start, end);
            SumDaily(DailyCosts(rows, tenant, start, end)) ==
            Totals(TotalCost(rows, tenant, start, end), SumUsage(mine), |mine|)
  {
    var mine := InRange(rows, tenant, start, end);
    forall i | 0 <= i < |mine| ensures KeyOf(mine[i]) in Keys(mine) {
      HasKey(mine, i);
    }
    GroupsCover(mine, Keys(mine));
    SumDailyOfGroups(mine, Keys(mine));
  }

  // What an entry stands for.

  /** The row is one of the tenant's in the range, of the entry's UTC day, feature and model. */
  predicate Belongs(r: Entry, tenant: int, start: int, end: int, k: Key) {
    && r.tenant == tenant && start <= r.createdAt < end
    && 86_400 * k.day <= r.createdAt < 86_400 * (k.day + 1)
    && r.row.feature == k.feature && r.row.model == k.model
  }

  function Belonging(rows: seq<Entry>, tenant: int, start: int, end: int, k: Key): seq<Entry> {
    if rows == [] then []
    else (if Belongs(rows[0], tenant, start, end, k) then [rows[0]] else []) + Belonging(rows[1..], tenant, start, end, k)
  }

  lemma KeyIffBelongs(r: Entry, tenant: int, start: int, end: int, k: Key)
    requires r.tenant == tenant && start <= r.createdAt < end
    ensures KeyOf(r) == k <==> Belongs(r, tenant, start, end, k)
  {
  }

  lemma {:induction false} OfKeyInRange(rows: seq<Entry>, tenant: int, start: int, end: int, k: Key)
    ensures OfKey(InRange(rows, tenant, start, end), k) == Belonging(rows, tenant, start, end, k)
  {
    if rows != [] {
      OfKeyInRange(rows[1..], tenant, start, end, k);
      var r, rest := rows[0], InRange(rows[1..], tenant, start, end);
      if r.tenant == tenant && start <= r.createdAt < end {
        KeyIffBelongs(r, tenant, start, end, k);
        assert ([r] + rest)[1..] == rest;
      } else {
        assert [] + rest == rest;
      }
    }
  }

  ghost predicate Describes(d: DailyCost, rows: seq<Entry>, tenant: int, start: int, end: int) {
    var mine := Belonging(rows, tenant, start, end, d.key);
    mine != [] && d.calls == |mine| && d.cost == SumCost(mine) && d.usage == SumUsage(mine)
  }

  /** Each entry sums the rows of its day, feature and model; every row in the range has its entry; and no two
      entries are for the same day, feature and model. */
  lemma DailyCostsGroup(rows: seq<Entry>, tenant: int, start: int, end: int)
    ensures var ds := DailyCosts(rows, tenant, start, end);
            && (forall i :: 0 <= i < |ds| ==> Describes(ds[i], rows, tenant, start, end))
            && (forall i, j :: 0 <= i < j < |ds| ==> ds[i].key != ds[j].key)
            && (forall k :: Belonging(rows, tenant, start, end, k) != [] ==> exists i :: 0 <= i < |ds| && ds[i].key == k)
  {
    var mine := InRange(rows, tenant, start, end);
    var ks, ds := Keys(mine), DailyCosts(rows, tenant, start, end);
    GroupsAre(mine, ks);
    DistinctAre(ks);
    forall k ensures OfKey(mine, k) == Belonging(rows, tenant, start, end, k) {
      OfKeyInRange(rows, tenant, start, end, k);
    }
    forall k | Belonging(rows, tenant, start, end, k) != [] ensures exists i :: 0 <= i < |ds| && ds[i].key == k {
      assert OfKey(mine, k) != [];
      var i :| 0 <= i < |ks| && ks[i] == k;
      assert ds[i].key == k;
    }
  }

  lemma {:induction false} GroupsAre(rows: seq<Entry>, ks: seq<Key>)
    ensures var ds := Groups(rows, ks);
            |ds| == |ks| && forall i :: 0 <= i < |ds| ==> ds[i] == GroupOf(rows, ks[i])
  {
    if ks != [] {
      GroupsAre(rows, ks[1..]);
    }
  }

  lemma {:induction false} DistinctAre(ks: seq<Key>)
    requires Distinct(ks)
    ensures forall i, j :: 0 <= i < j < |ks| ==> ks[i] != ks[j]
  {
    if ks != [] {
      DistinctAre(ks[1..]);
      assert forall j :: 0 < j < |ks| ==> ks[j] == ks[1..][j - 1];
    }
  }

  // Against what the providers reported.

  /** Every cost is the one that `cost_for` gives for the row. */
  ghost predicate Priced(rows: seq<Entry>) {
    forall i :: 0 <= i < |rows| ==> rows[i].cost == Cost(rows[i].row)
  }

  function ExactCosts(rows: seq<Entry>): int {
    if rows == [] then 0 else ExactCost(rows[0].row) + ExactCosts(rows[1..])
  }

  function PricedCalls(rows: seq<Entry>): nat {
    if rows == [] then 0 else (if rows[0].row.model in PRICING then 1 else 0) + PricedCalls(rows[1..])
  }

  /** Rounded row by row, the costs are within half a micro-dollar per priced row of the exact price of all usage. */
  lemma {:induction false} SumNearExact(rows: seq<Entry>)
    requires Priced(rows)
    ensures -500 * PricedCalls(rows) <= 1000 * SumCost(rows) - ExactCosts(rows) <= 500 * PricedCalls(rows)
  {
    if rows != [] {
      SumNearExact(rows[1..]);
      CostNearExact(rows[0].row);
    }
  }

  lemma {:induction false} TotalCostAppend(table: seq<Entry>, more: seq<Entry>, tenant: int, start: int, end: int)
    requires forall i :: 0 <= i < |more| ==> more[i].tenant == tenant && start <= more[i].createdAt < end
    ensures TotalCost(table + more, tenant, start, end) == TotalCost(table, tenant, start, end) + SumCost(more)
  {
    if table == [] {
      assert table + more == more;
      AllInRange(more, tenant, start, end);
    } else {
      assert (table + more)[1..] == table[1..] + more;
      TotalCostAppend(table[1..], more, tenant, start, end);
      InRangeHead(table, tenant, start, end);
      InRangeHead(table + more, tenant, start, end);
    }
  }

  lemma InRangeHead(rows: seq<Entry>, tenant: int, start: int, end: int)
    requires rows != []
    ensures var r := rows[0];
            TotalCost(rows, tenant, start, end) ==
            TotalCost(rows[1..], tenant, start, end) + if r.tenant == tenant && start <= r.createdAt < end then r.cost else 0
  {
    var rest := InRange(rows[1..], tenant, start, end);
    assert ([rows[0]] + rest)[1..] == rest && [] + rest == rest;
  }

  lemma {:induction false} AllInRange(rows: seq<Entry>, tenant: int, start: int, end: int)
    requires forall i :: 0 <= i < |rows| ==> rows[i].tenant == tenant && start <= rows[i].createdAt < end
    ensures InRange(rows, tenant, start, end) == rows
  {
    if rows != [] {
      AllInRange(rows[1..], tenant, start, end);
    }
  }
}
