/** Scenario generator (src/etl.py, generate_simulation): the fixed catalog
    with a price shock, 50 B2B customers, `int(5000 * demand_factor)`
    transactions drawn from them, sorted by date.

    Every random draw (Faker's unique 8-digit ids and company data, Python's
    `random` calls) is an explicit input sequence; the tables that the source
    writes to SQLite are returned instead. */
module Etl {
  import opened Tables
  import Sorting

  /** `base_transactions`. */
  const BaseTransactions: int := 5000

  /** Number of generated B2B customers. */
  const CustomerCount: nat := 50

  /** Number of catalog rows. */
  const CatalogSize: nat := 12

  /** Days from 2024-01-01 to 2025-12-31 (`days_range`). */
  const DaysRange: int := 730

  /** `generate_simulation`'s default `demand_factor`. */
  const DefaultDemandFactor: real := 1.0

  /** `generate_simulation`'s default `price_increase`. */
  const DefaultPriceIncrease: real := 0.0

  /** Largest quantity per transaction (`random.randint(1, 20)`). */
  const MaxQuantity: int := 20

  /** Exclusive bound of `random_number(digits=8)`. */
  const ClientIdBound: int := 100000000

  /** The hard-coded catalog, before the price shock. */
  function BaseCatalog(): (r: seq<Product>)
    ensures |r| == CatalogSize
    ensures forall i :: 0 <= i < |r| ==> r[i].productId == 101 + i
    ensures forall i :: 0 <= i < |r| ==> 0.0 < r[i].cost < r[i].price
  {
    [ Product(101, "Portland Cement 50lb", Structural, 5.00, 8.50),
      Product(102, "Red Clay Brick", Structural, 0.50, 0.85),
      Product(103, "Rebar 1/2 inch", Structural, 6.00, 9.50),
      Product(104, "Construction Sand 1 ton", Structural, 25.00, 40.00),
      Product(105, "Hammer Drill 700W", Tools, 45.00, 79.99),
      Product(106, "Angle Grinder 4.5\"", Tools, 30.00, 55.00),
      Product(107, "Screwdriver Set Pro", Tools, 15.00, 24.99),
      Product(108, "Claw Hammer", Tools, 8.00, 14.50),
      Product(109, "White Enamel Paint 1gal", Finishing, 20.00, 35.00),
      Product(110, "Grey Floor Tiles Box", Finishing, 12.00, 19.99),
      Product(111, "Waterproof Grout", Finishing, 4.00, 7.50),
      Product(112, "Paint Brush 2 inch", Finishing, 2.00, 4.50) ]
  }

  /** `df_products['price'] = df_products['price'] * (1 + price_increase)`:
      every price is scaled, every other column is kept. */
  function ApplyPriceShock(ps: seq<Product>, rate: real): (r: seq<Product>)
    ensures |r| == |ps|
    ensures forall i :: 0 <= i < |r| ==>
      && r[i].productId == ps[i].productId && r[i].name == ps[i].name
      && r[i].category == ps[i].category && r[i].cost == ps[i].cost
      && r[i].price == ps[i].price * (1.0 + rate)
  {
    seq(|ps|, i requires 0 <= i < |ps| => ps[i].(price := ps[i].price * (1.0 + rate)))
  }

  /** Python's `int()` on a float: truncation toward zero. */
  function Truncate(x: real): (n: int)
    ensures 0.0 <= x ==> n as real <= x < n as real + 1.0
    ensures x < 0.0 ==> n as real - 1.0 < x <= n as real
  {
    if x >= 0.0 then x.Floor else -((-x).Floor)
  }

  /** `total_transactions = int(base_transactions * demand_factor)`, on
      exact reals: the floor of `5000 * demand_factor` for a non-negative
      factor, and positive exactly from 1/5000 up. */
  function TransactionCount(demandFactor: real): (n: int)
    ensures demandFactor >= 0.0 ==> n == (5000.0 * demandFactor).Floor
    ensures n > 0 <==> demandFactor >= 1.0 / 5000.0
  {
    Truncate(BaseTransactions as real * demandFactor)
  }

  /** Whole cents nearest to `x`, ties to the even neighbour, as Python's
      `round(x, 2)` does on an exact value. */
  function Cents(x: real): (c: int)
    ensures c as real - 0.5 <= x * 100.0 <= c as real + 0.5
    ensures x * 100.0 == c as real - 0.5 || x * 100.0 == c as real + 0.5 ==> c % 2 == 0
  {
    var y := x * 100.0;
    var f := y.Floor;
    var frac := y - f as real;
    if frac > 0.5 then f + 1
    else if frac < 0.5 then f
    else if f % 2 == 0 then f else f + 1
  }

  /** `round(x, 2)`: a whole number of cents within half a cent of `x`. */
  function RoundCents(x: real): (r: real)
    ensures r * 100.0 == Cents(x) as real
    ensures -0.005 <= r - x <= 0.005
  {
    Cents(x) as real / 100.0
  }

  /** The Faker draws for one customer. */
  datatype CustomerDraw = CustomerDraw(clientId: int, name: string, email: string, signupDate: int)

  /** The `random` draws for one transaction: the day offset, the B2B coin
      (`random.random() < 0.3`), the index of the chosen product id, the
      quantity and the index of the chosen client id (used for B2B rows). */
  datatype TransactionDraw = TransactionDraw(dayOffset: int, isB2b: bool, productIndex: int, quantity: int, clientIndex: int)

  datatype Simulation = Simulation(products: seq<Product>, customers: seq<Customer>, transactions: seq<Transaction>)

  /** `pd.DataFrame([]).sort_values('date')` raises a KeyError: the frame of
      zero transactions has no `date` column. */
  datatype SimulationError = NoTransactionRows

  /** What `fake.unique.random_number(digits=8)` guarantees: ids of at most
      eight digits, never repeated within a run. */
  ghost predicate ValidCustomerDraws(ds: seq<CustomerDraw>)
  {
    && |ds| == CustomerCount
    && (forall i :: 0 <= i < |ds| ==> 0 <= ds[i].clientId < ClientIdBound)
    && (forall i, j :: 0 <= i < j < |ds| ==> ds[i].clientId != ds[j].clientId)
  }

  /** The ranges of `randint(0, days_range)`, `choice(product_ids)`,
      `randint(1, 20)` and `choice(client_ids)`. */
  predicate ValidTransactionDraw(d: TransactionDraw)
  {
    && 0 <= d.dayOffset <= DaysRange
    && 0 <= d.productIndex < CatalogSize
    && 1 <= d.quantity <= MaxQuantity
    && 0 <= d.clientIndex < CustomerCount
  }

  function ClientIds(cs: seq<Customer>): (r: seq<int>)
    ensures |r| == |cs|
    ensures forall i :: 0 <= i < |cs| ==> r[i] == cs[i].clientId
  {
    seq(|cs|, i requires 0 <= i < |cs| => cs[i].clientId)
  }

  function ProductIds(ps: seq<Product>): (r: seq<int>)
    ensures |r| == |ps|
    ensures forall i :: 0 <= i < |ps| ==> r[i] == ps[i].productId
  {
    seq(|ps|, i requires 0 <= i < |ps| => ps[i].productId)
  }

  /** The `price` of the first catalog row with this id (`.values[0]`). */
  function UnitPrice(ps: seq<Product>, id: int): (p: real)
    requires exists i :: 0 <= i < |ps| && ps[i].productId == id
    ensures exists i :: 0 <= i < |ps| && ps[i].productId == id && ps[i].price == p
                        && forall j :: 0 <= j < i ==> ps[j].productId != id
  {
    Lookup(ps, id).value.price
  }

  /** The row one iteration of the transaction loop appends. */
  function RowFor(ps: seq<Product>, clientIds: seq<int>, d: TransactionDraw): (t: Transaction)
    requires ValidTransactionDraw(d)
    requires |ps| == CatalogSize && |clientIds| == CustomerCount
    ensures t.date == FirstSimulatedDay + d.dayOffset
    ensures FirstSimulatedDay <= t.date <= LastSimulatedDay
    ensures t.docType == Invoice <==> d.isB2b
    ensures t.clientId.Some? <==> d.isB2b
    ensures d.isB2b ==> t.clientId == Some(clientIds[d.clientIndex])
    ensures t.productId == ps[d.productIndex].productId
    ensures 1 <= t.quantity == d.quantity <= MaxQuantity
  {
    var prodId := ps[d.productIndex].productId;
    assert ps[d.productIndex].productId == prodId;
    Transaction(
      FirstSimulatedDay + d.dayOffset,
      if d.isB2b then Invoice else Receipt,
      if d.isB2b then Some(clientIds[d.clientIndex]) else None,
      prodId,
      d.quantity,
      LineAmount(d.quantity, UnitPrice(ps, prodId)))
  }

  /** `round(quantity * price, 2)`. */
  function LineAmount(quantity: int, price: real): (a: real)
    ensures -0.005 <= a - quantity as real * price <= 0.005
  {
    RoundCents(quantity as real * price)
  }

  /** The rows of the transaction loop, in generation order. */
  function GeneratedRows(ps: seq<Product>, clientIds: seq<int>, ds: seq<TransactionDraw>): (r: seq<Transaction>)
    requires forall i :: 0 <= i < |ds| ==> ValidTransactionDraw(ds[i])
    requires |ps| == CatalogSize && |clientIds| == CustomerCount
    ensures |r| == |ds|
  {
    seq(|ds|, i requires 0 <= i < |ds| => RowFor(ps, clientIds, ds[i]))
  }

  /** What every generated transaction satisfies: a date in the two-year
      window, a catalog product, a quantity in 1..20, an amount that is the
      rounded product of quantity and the current catalog price, and a client
      exactly on Invoices, drawn from the customers. */
  ghost predicate WellFormedRow(t: Transaction, ps: seq<Product>, customers: seq<Customer>)
  {
    && FirstSimulatedDay <= t.date <= LastSimulatedDay
    && (exists i :: 0 <= i < |ps| && ps[i].productId == t.productId)
    && 1 <= t.quantity <= MaxQuantity
    && t.totalAmount == LineAmount(t.quantity, UnitPrice(ps, t.productId))
    && (t.docType == Invoice <==> t.clientId.Some?)
    && (t.clientId.Some? ==> exists j :: 0 <= j < |customers| && customers[j].clientId == t.clientId.value)
  }

  function DateKey(t: Transaction): int
  {
    t.date
  }

  /** The customer loop: one customer per draw, in draw order. */
  method GenerateCustomers(customerDraws: seq<CustomerDraw>) returns (customers: seq<Customer>)
    ensures |customers| == |customerDraws|
    ensures forall i :: 0 <= i < |customers| ==> customers[i] == CustomerOf(customerDraws[i])
  {
    customers := [];
    var c := 0;
    while c < |customerDraws|
      invariant 0 <= c <= |customerDraws|
      invariant |customers| == c
      invariant forall i :: 0 <= i < c ==> customers[i] == CustomerOf(customerDraws[i])
    {
      var d := customerDraws[c];
      customers := customers + [Customer(d.clientId, d.name, d.email, d.signupDate)];
      c := c + 1;
    }
  }

  /** The customer row built from one set of Faker draws. */
  function CustomerOf(d: CustomerDraw): (c: Customer)
    ensures c.clientId == d.clientId && c.name == d.name && c.email == d.email && c.signupDate == d.signupDate
  {
    Customer(d.clientId, d.name, d.email, d.signupDate)
  }

  /** The transaction loop: `total` rows (none when `total <= 0`), row `k`
      built from draw `k`. */
  method GenerateTransactions(products: seq<Product>, clientIds: seq<int>, draws: seq<TransactionDraw>, total: int)
    returns (rows: seq<Transaction>)
    requires |products| == CatalogSize && |clientIds| == CustomerCount
    requires |draws| >= total
    requires forall i :: 0 <= i < |draws| ==> ValidTransactionDraw(draws[i])
    ensures |rows| == if total > 0 then total else 0
    ensures forall k :: 0 <= k < |rows| ==> rows[k] == RowFor(products, clientIds, draws[k])
  {
    var productIds := ProductIds(products);
    rows := [];
    var n := 0;
    while n < total
      invariant 0 <= n <= if total > 0 then total else 0
      invariant |rows| == n
      invariant forall k :: 0 <= k < n ==> rows[k] == RowFor(products, clientIds, draws[k])
    {
      var d := draws[n];
      var date := FirstSimulatedDay + d.dayOffset;
      var isB2b := d.isB2b;
      var prodId := productIds[d.productIndex];
      var qty := d.quantity;
      assert products[d.productIndex].productId == prodId;
      var amount := LineAmount(qty, UnitPrice(products, prodId));
      var client := if isB2b then Some(clientIds[d.clientIndex]) else None;
      var docType := if isB2b then Invoice else Receipt;
      var row := Transaction(date, docType, client, prodId, qty, amount);
      assert row == RowFor(products, clientIds, d);
      rows := rows + [row];
      n := n + 1;
    }
  }

  /** generate_simulation. */
  method GenerateSimulation(
    demandFactor: real,
    priceIncrease: real,
    customerDraws: seq<CustomerDraw>,
    draws: seq<TransactionDraw>)
    returns (r: Result<Simulation, SimulationError>)
    requires ValidCustomerDraws(customerDraws)
    requires |draws| >= TransactionCount(demandFactor)
    requires forall i :: 0 <= i < |draws| ==> ValidTransactionDraw(draws[i])
    ensures r.Failure? <==> TransactionCount(demandFactor) <= 0
    ensures r.Success? ==> r.value.products == ApplyPriceShock(BaseCatalog(), priceIncrease)
    ensures r.Success? ==> |r.value.customers| == CustomerCount
    ensures r.Success? ==> forall i :: 0 <= i < CustomerCount ==> r.value.customers[i] == CustomerOf(customerDraws[i])
    ensures r.Success? ==> |r.value.transactions| == TransactionCount(demandFactor)
    ensures r.Success? ==>
      multiset(r.value.transactions)
      == multiset(GeneratedRows(r.value.products, ClientIds(r.value.customers), draws[..TransactionCount(demandFactor)]))
    ensures r.Success? ==> forall i, j :: 0 <= i < j < |r.value.transactions| ==>
      r.value.transactions[i].date <= r.value.transactions[j].date
    ensures r.Success? ==> forall i, j :: 0 <= i < j < |r.value.customers| ==>
      r.value.customers[i].clientId != r.value.customers[j].clientId
    ensures r.Success? ==> forall t :: t in r.value.transactions ==>
      WellFormedRow(t, r.value.products, r.value.customers)
  {
    var products := ApplyPriceShock(BaseCatalog(), priceIncrease);
    var customers := GenerateCustomers(customerDraws);
    var clientIds := ClientIds(customers);
    var total := TransactionCount(demandFactor);
    var rows := GenerateTransactions(products, clientIds, draws, total);
    if |rows| == 0 {
      return Failure(NoTransactionRows);
    }
    assert rows == GeneratedRows(products, clientIds, draws[..total]);
    var sorted := Sorting.SortBy(rows, DateKey);
    GeneratedRowsWellFormed(products, customers, draws[..total]);
    forall t | t in sorted ensures t in rows {
      Sorting.SortByKeepsElements(rows, DateKey, t);
    }
    assert forall i, j :: 0 <= i < j < |sorted| ==> sorted[i].date <= sorted[j].date by {
      forall i, j | 0 <= i < j < |sorted| ensures sorted[i].date <= sorted[j].date {
        assert DateKey(sorted[i]) <= DateKey(sorted[j]);
      }
    }
    r := Success(Simulation(products, customers, sorted));
  }

  /** Every row the transaction loop can produce from valid draws is well
      formed with respect to the catalog and the customers it was drawn from. */
  lemma GeneratedRowsWellFormed(ps: seq<Product>, customers: seq<Customer>, ds: seq<TransactionDraw>)
    requires |ps| == CatalogSize && |customers| == CustomerCount
    requires forall i :: 0 <= i < |ds| ==> ValidTransactionDraw(ds[i])
    ensures forall t :: t in GeneratedRows(ps, ClientIds(customers), ds) ==> WellFormedRow(t, ps, customers)
  {
    var ids := ClientIds(customers);
    var rows := GeneratedRows(ps, ids, ds);
    forall t | t in rows ensures WellFormedRow(t, ps, customers) {
      var k :| 0 <= k < |rows| && rows[k] == t;
      RowForWellFormed(ps, customers, ds[k]);
    }
  }

  lemma RowForWellFormed(ps: seq<Product>, customers: seq<Customer>, d: TransactionDraw)
    requires |ps| == CatalogSize && |customers| == CustomerCount
    requires ValidTransactionDraw(d)
    ensures WellFormedRow(RowFor(ps, ClientIds(customers), d), ps, customers)
  {
    var t := RowFor(ps, ClientIds(customers), d);
    assert ps[d.productIndex].productId == t.productId;
    if d.isB2b {
      assert customers[d.clientIndex].clientId == t.clientId.value;
    }
  }

  /** The shocked catalog keeps the ids 101..112, so `product_id` stays a
      key, and keeps names, categories and costs. */
  lemma ShockedCatalogIds(rate: real)
    ensures var ps := ApplyPriceShock(BaseCatalog(), rate);
      && |ps| == CatalogSize
      && (forall i :: 0 <= i < |ps| ==> ps[i].productId == 101 + i)
      && UniqueProductIds(ps)
      && (forall i :: 0 <= i < |ps| ==> ps[i].name == BaseCatalog()[i].name)
      && (forall i :: 0 <= i < |ps| ==> ps[i].category == BaseCatalog()[i].category)
      && (forall i :: 0 <= i < |ps| ==> ps[i].cost == BaseCatalog()[i].cost)
  {
  }

  /** A non-negative shock keeps every price above its cost, and any shock
      above -100% keeps prices positive. */
  lemma ShockedCatalogPrices(rate: real)
    ensures var ps := ApplyPriceShock(BaseCatalog(), rate);
      && (rate >= 0.0 ==> forall i :: 0 <= i < |ps| ==> ps[i].price > ps[i].cost)
      && (rate > -1.0 ==> forall i :: 0 <= i < |ps| ==> ps[i].price > 0.0)
  {
    var base := BaseCatalog();
    var ps := ApplyPriceShock(base, rate);
    forall i | 0 <= i < |ps| ensures rate >= 0.0 ==> ps[i].price > ps[i].cost {
      if rate >= 0.0 {
        ScaleUp(base[i].price, rate);
      }
    }
    forall i | 0 <= i < |ps| ensures rate > -1.0 ==> ps[i].price > 0.0 {
      if rate > -1.0 {
        ScalePositive(base[i].price, rate);
      }
    }
  }

  lemma ScaleUp(p: real, rate: real)
    requires p > 0.0 && rate >= 0.0
    ensures p * (1.0 + rate) >= p
  {
    assert p * (1.0 + rate) == p + p * rate;
  }

  lemma ScalePositive(p: real, rate: real)
    requires p > 0.0 && rate > -1.0
    ensures p * (1.0 + rate) > 0.0
  {
  }

  /** A generated amount is the rounded product of the quantity and the
      catalog price after the shock (for the catalog here, whose ids are a
      key by `BaseCatalogKeyed`). */
  lemma AmountUsesShockedPrice(base: seq<Product>, rate: real, clientIds: seq<int>, d: TransactionDraw)
    requires |base| == CatalogSize && UniqueProductIds(base)
    requires ValidTransactionDraw(d) && |clientIds| == CustomerCount
    ensures RowFor(ApplyPriceShock(base, rate), clientIds, d).totalAmount
            == LineAmount(d.quantity, base[d.productIndex].price * (1.0 + rate))
  {
    var ps := ApplyPriceShock(base, rate);
    ShockKeepsKey(base, rate);
    RowForAmount(ps, clientIds, d);
    assert ps[d.productIndex].price == base[d.productIndex].price * (1.0 + rate);
  }

  lemma ShockKeepsKey(base: seq<Product>, rate: real)
    requires UniqueProductIds(base)
    ensures UniqueProductIds(ApplyPriceShock(base, rate))
  {
    var ps := ApplyPriceShock(base, rate);
    forall i, j | 0 <= i < j < |ps| ensures ps[i].productId != ps[j].productId {
      assert ps[i].productId == base[i].productId && ps[j].productId == base[j].productId;
    }
  }

  /** In a keyed catalog a row is priced at the drawn product's own price. */
  lemma RowForAmount(ps: seq<Product>, clientIds: seq<int>, d: TransactionDraw)
    requires |ps| == CatalogSize && UniqueProductIds(ps)
    requires ValidTransactionDraw(d) && |clientIds| == CustomerCount
    ensures RowFor(ps, clientIds, d).totalAmount == LineAmount(d.quantity, ps[d.productIndex].price)
  {
    LookupUnique(ps, d.productIndex);
    var p := ps[d.productIndex];
    assert UnitPrice(ps, p.productId) == p.price;
    var t := RowFor(ps, clientIds, d);
    assert t.productId == p.productId;
    assert t.totalAmount == LineAmount(d.quantity, UnitPrice(ps, p.productId));
  }

  lemma BaseCatalogKeyed()
    ensures UniqueProductIds(BaseCatalog())
  {
  }

  /** How `demand_factor` sizes the run: a non-negative factor gives the floor
      of `5000 * demand_factor`; no row at all below 1/5000; 2500 to 10000
      rows for factors from 0.5 to 2.0. */
  lemma TransactionCountRange(demandFactor: real)
    ensures 0.5 <= demandFactor <= 2.0 ==> 2500 <= TransactionCount(demandFactor) <= 10000
  {
  }

  /** A value already in whole cents is left alone, so rounding is idempotent. */
  lemma RoundCentsIdempotent(x: real)
    ensures RoundCents(RoundCents(x)) == RoundCents(x)
  {
    var c := Cents(x);
    var y := RoundCents(x);
    assert y * 100.0 == c as real;
    assert (y * 100.0).Floor == c;
  }

  /** Halves go to the even cent, as Python's `round` does. */
  lemma RoundCentsTiesToEven()
    ensures RoundCents(0.125) == 0.12
    ensures RoundCents(0.135) == 0.14
    ensures RoundCents(8.504) == 8.50
  {
    assert (0.125 * 100.0).Floor == 12;
    assert (0.135 * 100.0).Floor == 13;
    assert (8.504 * 100.0).Floor == 850;
  }

  /** The default run, `generate_simulation()`: 5000 transactions over the
      catalog at its base prices. */
  lemma DefaultRun()
    ensures TransactionCount(DefaultDemandFactor) == BaseTransactions
    ensures ApplyPriceShock(BaseCatalog(), DefaultPriceIncrease) == BaseCatalog()
  {
    var base := BaseCatalog();
    var ps := ApplyPriceShock(base, DefaultPriceIncrease);
    assert forall i :: 0 <= i < |ps| ==> ps[i] == base[i];
  }
}
