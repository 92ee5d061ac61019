/** KPI engine: joins transactions to products and reports revenue, margin,
    margin percentage and the average ticket (src/logic.py, calculate_kpis). */
module Kpis {
  import opened Tables

  /** One row of the left join: the transaction and the matched product's
      cost, or `None` (pandas' NaN) when no product matched. */
  datatype JoinedRow = JoinedRow(txn: Transaction, cost: Option<real>)

  /** The report; `avgTicket` is `None` where pandas' mean of an empty column
      would be NaN. The total cost is computed but not part of the report. */
  datatype KpiReport = KpiReport(totalSales: real, totalMargin: real, marginPercent: real, avgTicket: Option<real>)

  /** The products whose id is `id`, in table order. */
  function Matches(ps: seq<Product>, id: int): (r: seq<Product>)
    ensures |r| <= |ps|
    ensures forall p :: p in r <==> p in ps && p.productId == id
  {
    if ps == [] then []
    else (if ps[0].productId == id then [ps[0]] else []) + Matches(ps[1..], id)
  }

  /** Every copy of a matching catalog row is joined, as often as it occurs,
      and nothing else is. */
  lemma {:induction false} MatchesKeepsEveryCopy(ps: seq<Product>, id: int)
    ensures forall q :: multiset(Matches(ps, id))[q] == if q.productId == id then multiset(ps)[q] else 0
  {
    if ps != [] {
      assert ps == [ps[0]] + ps[1..];
      MatchesKeepsEveryCopy(ps[1..], id);
    }
  }

  /** The join rows of one transaction: one per matching product, or a
      single row without a cost when nothing matches. */
  function JoinRows(t: Transaction, ms: seq<Product>): (r: seq<JoinedRow>)
    ensures |r| == if ms == [] then 1 else |ms|
    ensures forall k :: 0 <= k < |r| ==> r[k].txn == t
    ensures ms == [] ==> r == [JoinedRow(t, None)]
    ensures forall k :: 0 <= k < |ms| ==> r[k].cost == Some(ms[k].cost)
  {
    if ms == [] then [JoinedRow(t, None)]
    else seq(|ms|, k requires 0 <= k < |ms| => JoinedRow(t, Some(ms[k].cost)))
  }

  /** `df_trans.merge(df_products, on='product_id', how='left')`. */
  function LeftJoin(ts: seq<Transaction>, ps: seq<Product>): (r: seq<JoinedRow>)
    ensures |r| >= |ts|
  {
    if ts == [] then []
    else JoinRows(ts[0], Matches(ps, ts[0].productId)) + LeftJoin(ts[1..], ps)
  }

  /** Every sale appears in the join. */
  lemma {:induction false} LeftJoinKeepsEverySale(ts: seq<Transaction>, ps: seq<Product>)
    ensures forall i :: 0 <= i < |ts| ==> HasRowOf(LeftJoin(ts, ps), ts[i])
  {
    if ts != [] {
      var head := JoinRows(ts[0], Matches(ps, ts[0].productId));
      var rest := LeftJoin(ts[1..], ps);
      var r := LeftJoin(ts, ps);
      assert r == head + rest;
      LeftJoinKeepsEverySale(ts[1..], ps);
      forall i | 0 <= i < |ts| ensures HasRowOf(r, ts[i]) {
        if i == 0 {
          assert r[0] == head[0];
          assert r[0].txn == ts[i];
        } else {
          assert ts[i] == ts[1..][i - 1];
          assert HasRowOf(rest, ts[1..][i - 1]);
          var k :| 0 <= k < |rest| && rest[k].txn == ts[1..][i - 1];
          assert r[|head| + k] == rest[k];
          assert r[|head| + k].txn == ts[i];
        }
      }
    }
  }

  /** Some row of the join belongs to sale `t`. */
  ghost predicate HasRowOf(r: seq<JoinedRow>, t: Transaction)
  {
    exists k :: 0 <= k < |r| && r[k].txn == t
  }

  /** Every join row comes from a sale, and a cost in it is the cost of a
      catalog product with the sale's product id. */
  lemma {:induction false} LeftJoinRowsComeFromSales(ts: seq<Transaction>, ps: seq<Product>)
    ensures forall k :: 0 <= k < |LeftJoin(ts, ps)| ==> LeftJoin(ts, ps)[k].txn in ts
    ensures forall k :: 0 <= k < |LeftJoin(ts, ps)| ==> JoinedFrom(LeftJoin(ts, ps)[k], ps)
  {
    if ts != [] {
      var ms := Matches(ps, ts[0].productId);
      var head := JoinRows(ts[0], ms);
      var rest := LeftJoin(ts[1..], ps);
      var r := LeftJoin(ts, ps);
      assert r == head + rest;
      LeftJoinRowsComeFromSales(ts[1..], ps);
      forall k | 0 <= k < |r| ensures r[k].txn in ts && JoinedFrom(r[k], ps) {
        if k < |head| {
          if r[k].cost.Some? {
            assert ms != [];
            assert ms[k] in ms;
          }
        } else {
          assert r[k] == rest[k - |head|];
          assert rest[k - |head|].txn in ts[1..];
        }
      }
    }
  }

  /** A join row's cost, when present, is that of a catalog product with the
      row's product id. */
  ghost predicate JoinedFrom(row: JoinedRow, ps: seq<Product>)
  {
    row.cost.Some? ==> exists p :: p in ps && p.productId == row.txn.productId && row.cost == Some(p.cost)
  }

  /** Sum of `total_amount` over join rows. */
  function JoinedSales(rows: seq<JoinedRow>): (s: real)
    ensures (forall k :: 0 <= k < |rows| ==> rows[k].txn.totalAmount >= 0.0) ==> s >= 0.0
  {
    if rows == [] then 0.0 else rows[0].txn.totalAmount + JoinedSales(rows[1..])
  }

  /** Sum of `cost * quantity` over join rows; a row without a cost adds
      nothing, as pandas' `sum` skips NaN. */
  function JoinedCost(rows: seq<JoinedRow>): (c: real)
    ensures (forall k :: 0 <= k < |rows| ==> rows[k].cost.None?) ==> c == 0.0
  {
    if rows == [] then 0.0 else LineCost(rows[0]) + JoinedCost(rows[1..])
  }

  /** `cost * quantity` of one join row, 0 for a missing cost. */
  function LineCost(row: JoinedRow): (c: real)
    ensures row.cost.None? ==> c == 0.0
  {
    match row.cost
    case Some(c) => c * row.txn.quantity as real
    case None => 0.0
  }

  /** The margin as a percentage of sales, guarded to 0 when sales are zero
      or negative. */
  function MarginPercent(margin: real, sales: real): (p: real)
    ensures sales > 0.0 ==> p * sales == 100.0 * margin
    ensures sales <= 0.0 ==> p == 0.0
  {
    if sales > 0.0 then
      var q := margin / sales;
      assert q * sales == margin;
      q * 100.0
    else 0.0
  }

  /** calculate_kpis: sales and cost over the left join, the margin between
      them, its guarded percentage, and the mean ticket over the unjoined
      transactions. */
  function CalculateKpis(ts: seq<Transaction>, ps: seq<Product>): (r: KpiReport)
    ensures r.totalSales == JoinedSales(LeftJoin(ts, ps))
    ensures r.totalMargin == r.totalSales - JoinedCost(LeftJoin(ts, ps))
    ensures r.marginPercent == MarginPercent(r.totalMargin, r.totalSales)
    ensures r.avgTicket == Mean(TotalAmount(ts), |ts|)
  {
    var merged := LeftJoin(ts, ps);
    var totalSales := JoinedSales(merged);
    var totalCost := JoinedCost(merged);
    var totalMargin := totalSales - totalCost;
    KpiReport(totalSales, totalMargin, MarginPercent(totalMargin, totalSales), Mean(TotalAmount(ts), |ts|))
  }

  /** Sum of `cost * quantity` computed directly from each transaction's
      catalog entry, without a join; a sale whose product is not in the
      catalog costs nothing. */
  function CatalogCost(ts: seq<Transaction>, ps: seq<Product>): real
  {
    if ts == [] then 0.0 else KnownLineCost(ts[0], ps) + CatalogCost(ts[1..], ps)
  }

  /** The catalog cost of one sale, 0 when its product is unknown. */
  function KnownLineCost(t: Transaction, ps: seq<Product>): real
  {
    match Lookup(ps, t.productId)
    case Some(p) => CatalogLineCost(t, p)
    case None => 0.0
  }

  /** `cost * quantity` of one transaction priced from its product row. */
  function CatalogLineCost(t: Transaction, p: Product): real
  {
    p.cost * t.quantity as real
  }

  /** With a product key, the id of a catalog row matches exactly that row. */
  lemma {:induction false} MatchesUnique(ps: seq<Product>, id: int)
    requires UniqueProductIds(ps)
    requires Lookup(ps, id).Some?
    ensures Matches(ps, id) == [Lookup(ps, id).value]
  {
    var rest := Matches(ps[1..], id);
    if ps[0].productId == id {
      assert forall i :: 0 <= i < |ps[1..]| ==> ps[1..][i] == ps[i + 1];
      MatchesAbsent(ps[1..], id);
      assert Matches(ps, id) == [ps[0]] + rest;
    } else {
      assert forall i, j :: 0 <= i < j < |ps[1..]| ==> ps[1..][i] == ps[i + 1] && ps[1..][j] == ps[j + 1];
      MatchesUnique(ps[1..], id);
    }
  }

  lemma {:induction false} MatchesAbsent(ps: seq<Product>, id: int)
    requires forall i :: 0 <= i < |ps| ==> ps[i].productId != id
    ensures Matches(ps, id) == []
  {
    if ps != [] {
      assert forall i :: 0 <= i < |ps[1..]| ==> ps[1..][i] == ps[i + 1];
      MatchesAbsent(ps[1..], id);
    }
  }

  /** When `product_id` is a key the left join keeps one row per
      transaction, the joined sales are the transactions' amounts and the
      joined cost is the catalog cost, unknown products costing nothing. */
  lemma {:induction false} JoinOneRowPerTransaction(ts: seq<Transaction>, ps: seq<Product>)
    requires UniqueProductIds(ps)
    ensures |LeftJoin(ts, ps)| == |ts|
    ensures JoinedSales(LeftJoin(ts, ps)) == TotalAmount(ts)
    ensures JoinedCost(LeftJoin(ts, ps)) == CatalogCost(ts, ps)
  {
    if ts != [] {
      var head := JoinRows(ts[0], Matches(ps, ts[0].productId));
      JoinOfOneSale(ts[0], ps);
      JoinOneRowPerTransaction(ts[1..], ps);
      JoinedAppend(head, LeftJoin(ts[1..], ps));
    }
  }

  /** In a keyed catalog one sale joins to one row, with the sale's amount
      and the catalog cost of its product (none for an unknown product). */
  lemma JoinOfOneSale(t: Transaction, ps: seq<Product>)
    requires UniqueProductIds(ps)
    ensures var head := JoinRows(t, Matches(ps, t.productId));
      && |head| == 1
      && JoinedSales(head) == t.totalAmount
      && JoinedCost(head) == KnownLineCost(t, ps)
  {
    if Lookup(ps, t.productId).Some? {
      JoinOfKnownProduct(t, ps);
      assert KnownLineCost(t, ps) == CatalogLineCost(t, Lookup(ps, t.productId).value);
    } else {
      JoinOfUnknownProduct(t, ps);
    }
  }

  lemma JoinOfKnownProduct(t: Transaction, ps: seq<Product>)
    requires UniqueProductIds(ps)
    requires Lookup(ps, t.productId).Some?
    ensures var head := JoinRows(t, Matches(ps, t.productId));
      && |head| == 1
      && JoinedSales(head) == t.totalAmount
      && JoinedCost(head) == CatalogLineCost(t, Lookup(ps, t.productId).value)
  {
    var p := Lookup(ps, t.productId).value;
    MatchesUnique(ps, t.productId);
    var head := JoinRows(t, [p]);
    assert head == [JoinedRow(t, Some(p.cost))];
    assert LineCost(head[0]) == CatalogLineCost(t, p);
  }

  lemma JoinOfUnknownProduct(t: Transaction, ps: seq<Product>)
    requires Lookup(ps, t.productId).None?
    ensures var head := JoinRows(t, Matches(ps, t.productId));
      && head == [JoinedRow(t, None)]
      && JoinedSales(head) == t.totalAmount
      && JoinedCost(head) == KnownLineCost(t, ps) == 0.0
  {
    MatchesAbsent(ps, t.productId);
    var head := JoinRows(t, []);
    assert JoinedCost(head) == LineCost(head[0]) + JoinedCost([]);
  }

  lemma {:induction false} JoinedAppend(a: seq<JoinedRow>, b: seq<JoinedRow>)
    ensures JoinedSales(a + b) == JoinedSales(a) + JoinedSales(b)
    ensures JoinedCost(a + b) == JoinedCost(a) + JoinedCost(b)
  {
    if a == [] {
      assert a + b == b;
    } else {
      assert (a + b)[1..] == a[1..] + b;
      JoinedAppend(a[1..], b);
    }
  }

  /** With a product key the report's sales are the transactions' total,
      the margin is sales minus the catalog cost, and the average ticket is
      the sales divided by the number of transactions. */
  lemma KpisWithKeyedCatalog(ts: seq<Transaction>, ps: seq<Product>)
    requires UniqueProductIds(ps)
    ensures CalculateKpis(ts, ps).totalSales == TotalAmount(ts)
    ensures CalculateKpis(ts, ps).totalMargin == TotalAmount(ts) - CatalogCost(ts, ps)
    ensures |ts| > 0 ==> CalculateKpis(ts, ps).avgTicket == Some(CalculateKpis(ts, ps).totalSales / |ts| as real)
  {
    JoinOneRowPerTransaction(ts, ps);
  }

  /** Sales whose products are all missing from the catalog (any catalog,
      keyed or not) stay in the join, one row each, and add no cost, so the
      whole revenue is margin. */
  lemma {:induction false} UnmatchedRowsAddNoCost(ts: seq<Transaction>, ps: seq<Product>)
    requires forall i, j :: 0 <= i < |ts| && 0 <= j < |ps| ==> ps[j].productId != ts[i].productId
    ensures |LeftJoin(ts, ps)| == |ts|
    ensures JoinedSales(LeftJoin(ts, ps)) == TotalAmount(ts)
    ensures JoinedCost(LeftJoin(ts, ps)) == 0.0
    ensures CalculateKpis(ts, ps).totalMargin == CalculateKpis(ts, ps).totalSales
  {
    if ts != [] {
      assert forall i :: 1 <= i < |ts| ==> ts[i] == ts[1..][i - 1];
      UnmatchedRowsAddNoCost(ts[1..], ps);
      MatchesAbsent(ps, ts[0].productId);
      var rows := LeftJoin(ts, ps);
      assert rows == [JoinedRow(ts[0], None)] + LeftJoin(ts[1..], ps);
      assert rows[1..] == LeftJoin(ts[1..], ps);
    }
  }

  /** The catalog of the worked example: cost 6 / price 10 and 3 / 5. */
  function ExampleCatalog(): seq<Product>
  {
    [Product(1, "Item A", Tools, 6.0, 10.0), Product(2, "Item B", Tools, 3.0, 5.0)]
  }

  /** Two units of the first product (amount 20) and one of the second
      (amount 5). */
  function ExampleSales(): seq<Transaction>
  {
    [Transaction(FirstSimulatedDay, Receipt, None, 1, 2, 20.0),
     Transaction(FirstSimulatedDay, Receipt, None, 2, 1, 5.0)]
  }

  lemma ExampleTotals()
    ensures TotalAmount(ExampleSales()) == 25.0
    ensures CatalogCost(ExampleSales(), ExampleCatalog()) == 15.0
  {
    var ps := ExampleCatalog();
    var ts := ExampleSales();
    assert Lookup(ps, 1) == Some(ps[0]);
    assert Lookup(ps, 2) == Some(ps[1]);
    assert KnownLineCost(ts[0], ps) == 12.0 by {
      assert CatalogLineCost(ts[0], ps[0]) == 12.0;
    }
    assert KnownLineCost(ts[1], ps) == 3.0 by {
      assert CatalogLineCost(ts[1], ps[1]) == 3.0;
    }
    assert ts[1..] == [ts[1]] && ts[1..][1..] == [];
    assert CatalogCost(ts[1..], ps) == 3.0;
    assert TotalAmount(ts[1..]) == 5.0;
  }

  /** Sales 25, cost 15, margin 10, margin 40 percent, ticket 12.5. */
  lemma WorkedExample()
    ensures CatalogCost(ExampleSales(), ExampleCatalog()) == 15.0
    ensures CalculateKpis(ExampleSales(), ExampleCatalog()) == KpiReport(25.0, 10.0, 40.0, Some(12.5))
  {
    ExampleTotals();
    assert UniqueProductIds(ExampleCatalog());
    KpisWithKeyedCatalog(ExampleSales(), ExampleCatalog());
    assert MarginPercent(10.0, 25.0) == 40.0;
    assert Mean(25.0, 2) == Some(12.5);
  }
}
