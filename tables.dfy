/** The three tables every scenario produces (products, B2B customers,
    transactions) as record datatypes, and the few queries over them that
    several components share.

    Dates are whole day numbers counted from 1970-01-01 (day 0, a Thursday);
    money is an exact `real`. */
module Tables {

  datatype Option<T> = None | Some(value: T)

  datatype Result<T, E> = Success(value: T) | Failure(error: E)

  datatype Category = Structural | Tools | Finishing

  datatype Product = Product(productId: int, name: string, category: Category, cost: real, price: real)

  datatype Customer = Customer(clientId: int, name: string, email: string, signupDate: int)

  /** Invoice marks a B2B sale, Receipt an anonymous counter sale. */
  datatype DocType = Invoice | Receipt

  /** A null `client_id` is `None`. */
  datatype Transaction = Transaction(
    date: int,
    docType: DocType,
    clientId: Option<int>,
    productId: int,
    quantity: int,
    totalAmount: real)

  /** Day number of 2024-01-01, the first day of the simulated window. */
  const FirstSimulatedDay: int := 19723

  /** Day number of 2025-12-31, the last day of the simulated window. */
  const LastSimulatedDay: int := 20453

  /** The latest date in a non-empty table. */
  function MaxDate(ts: seq<Transaction>): (d: int)
    requires |ts| > 0
    ensures exists i :: 0 <= i < |ts| && ts[i].date == d
    ensures forall i :: 0 <= i < |ts| ==> ts[i].date <= d
  {
    if |ts| == 1 then ts[0].date
    else
      var rest := MaxDate(ts[1..]);
      assert forall i :: 1 <= i < |ts| ==> ts[i] == ts[1..][i - 1];
      if ts[0].date >= rest then ts[0].date else rest
  }

  /** The earliest date in a non-empty table. */
  function MinDate(ts: seq<Transaction>): (d: int)
    requires |ts| > 0
    ensures exists i :: 0 <= i < |ts| && ts[i].date == d
    ensures forall i :: 0 <= i < |ts| ==> d <= ts[i].date
  {
    if |ts| == 1 then ts[0].date
    else
      var rest := MinDate(ts[1..]);
      assert forall i :: 1 <= i < |ts| ==> ts[i] == ts[1..][i - 1];
      if ts[0].date <= rest then ts[0].date else rest
  }

  /** Sum of the `total_amount` column. */
  function TotalAmount(ts: seq<Transaction>): real
  {
    if ts == [] then 0.0 else ts[0].totalAmount + TotalAmount(ts[1..])
  }

  lemma {:induction false} TotalAmountAppend(a: seq<Transaction>, b: seq<Transaction>)
    ensures TotalAmount(a + b) == TotalAmount(a) + TotalAmount(b)
  {
    if a != [] {
      assert (a + b)[1..] == a[1..] + b;
      TotalAmountAppend(a[1..], b);
    } else {
      assert a + b == b;
    }
  }

  /** The arithmetic mean of `count` values summing to `total`; `None` for no
      values, where pandas' `mean()` gives NaN. */
  function Mean(total: real, count: nat): (m: Option<real>)
    ensures m.Some? <==> count > 0
    ensures m.Some? ==> m.value * count as real == total
  {
    if count == 0 then None else Some(total / count as real)
  }

  /** `product_id` is a key of the product table. */
  ghost predicate UniqueProductIds(ps: seq<Product>)
  {
    forall i, j :: 0 <= i < j < |ps| ==> ps[i].productId != ps[j].productId
  }

  /** The first product with the given id, as a boolean-mask `loc` followed
      by `.values[0]` finds it. */
  function Lookup(ps: seq<Product>, id: int): (r: Option<Product>)
    ensures r.Some? <==> exists i :: 0 <= i < |ps| && ps[i].productId == id
    ensures r.Some? ==> r.value in ps && r.value.productId == id
    ensures r.Some? ==> exists i :: 0 <= i < |ps| && ps[i] == r.value
                                    && forall j :: 0 <= j < i ==> ps[j].productId != id
  {
    if ps == [] then None
    else if ps[0].productId == id then Some(ps[0])
    else
      var rest := Lookup(ps[1..], id);
      assert forall i :: 1 <= i < |ps| ==> ps[i] == ps[1..][i - 1];
      rest
  }

  /** With unique ids, looking up the id of a row finds that very row. */
  lemma LookupUnique(ps: seq<Product>, i: int)
    requires UniqueProductIds(ps)
    requires 0 <= i < |ps|
    ensures Lookup(ps, ps[i].productId) == Some(ps[i])
  {
    var r := Lookup(ps, ps[i].productId);
    var k :| 0 <= k < |ps| && ps[k] == r.value
             && forall j :: 0 <= j < k ==> ps[j].productId != ps[i].productId;
    assert k == i;
  }
}
