/** Churn detector: B2B customers whose last Invoice is more than a
    threshold of days before the latest date in the whole dataset
    (src/logic.py, analyze_b2b_churn). */
module Churn {
  import opened Tables
  import Sorting

  /** `days_inactive` of a customer without any Invoice (pandas' fillna). */
  const NeverBoughtSentinel: int := 999

  /** The default `days_threshold`. */
  const DefaultThreshold: int := 90

  /** One row of the customer merge: the customer, the last purchase date
      (`None` for NaN) and `days_inactive`. */
  datatype ChurnRow = ChurnRow(customer: Customer, lastDate: Option<int>, daysInactive: int)

  /** `df_trans[df_trans['type'] == 'Invoice']`. */
  function Invoices(ts: seq<Transaction>): (r: seq<Transaction>)
    ensures forall t :: t in r <==> t in ts && t.docType == Invoice
    ensures |r| <= |ts|
  {
    if ts == [] then []
    else (if ts[0].docType == Invoice then [ts[0]] else []) + Invoices(ts[1..])
  }

  lemma {:induction false} InvoicesAppend(a: seq<Transaction>, b: seq<Transaction>)
    ensures Invoices(a + b) == Invoices(a) + Invoices(b)
  {
    if a == [] {
      assert a + b == b;
    } else {
      assert (a + b)[1..] == a[1..] + b;
      InvoicesAppend(a[1..], b);
    }
  }

  /** The group maximum of `date` for one `client_id` after
      `groupby('client_id')`; `None` when the client has no row (null client
      ids form no group). */
  function LastPurchase(ts: seq<Transaction>, clientId: int): (r: Option<int>)
    ensures r.None? <==> forall i :: 0 <= i < |ts| ==> ts[i].clientId != Some(clientId)
    ensures r.Some? ==> exists i :: 0 <= i < |ts| && ts[i].clientId == Some(clientId) && ts[i].date == r.value
    ensures r.Some? ==> forall i :: 0 <= i < |ts| && ts[i].clientId == Some(clientId) ==> ts[i].date <= r.value
  {
    if ts == [] then None
    else
      var rest := LastPurchase(ts[1..], clientId);
      assert forall i :: 1 <= i < |ts| ==> ts[i] == ts[1..][i - 1];
      if ts[0].clientId != Some(clientId) then rest
      else match rest
        case None => Some(ts[0].date)
        case Some(d) => Some(if ts[0].date >= d then ts[0].date else d)
  }

  /** A customer's last Invoice date over the whole table. */
  function LastInvoiceDate(ts: seq<Transaction>, clientId: int): (r: Option<int>)
    ensures r.None? <==> forall i :: 0 <= i < |ts| ==> !IsInvoiceOf(ts[i], clientId)
  {
    InvoicesOfClient(ts, clientId);
    LastPurchase(Invoices(ts), clientId)
  }

  /** The Invoice rows hold a row of the client exactly when the table holds
      an Invoice of the client. */
  lemma InvoicesOfClient(ts: seq<Transaction>, clientId: int)
    ensures (exists k :: 0 <= k < |Invoices(ts)| && Invoices(ts)[k].clientId == Some(clientId))
            <==> exists i :: 0 <= i < |ts| && IsInvoiceOf(ts[i], clientId)
  {
    var inv := Invoices(ts);
    if k :| 0 <= k < |inv| && inv[k].clientId == Some(clientId) {
      assert inv[k] in ts;
      var i :| 0 <= i < |ts| && ts[i] == inv[k];
      assert IsInvoiceOf(ts[i], clientId);
    }
    if i :| 0 <= i < |ts| && IsInvoiceOf(ts[i], clientId) {
      assert ts[i] in inv;
      var k :| 0 <= k < |inv| && inv[k] == ts[i];
      assert 0 <= k < |Invoices(ts)| && Invoices(ts)[k].clientId == Some(clientId);
    } else {
      assert forall i :: 0 <= i < |ts| ==> !IsInvoiceOf(ts[i], clientId);
      forall k | 0 <= k < |inv| ensures inv[k].clientId != Some(clientId) {
        assert inv[k] in ts;
        var i :| 0 <= i < |ts| && ts[i] == inv[k];
        assert !IsInvoiceOf(ts[i], clientId);
      }
    }
  }

  /** `days_inactive`: days from the dataset's last date to the customer's
      last Invoice, or the sentinel when there is none. */
  function DaysInactive(ts: seq<Transaction>, clientId: int): (d: int)
    ensures LastInvoiceDate(ts, clientId).None? ==> d == NeverBoughtSentinel
  {
    match LastInvoiceDate(ts, clientId)
    case None => NeverBoughtSentinel
    case Some(last) =>
      assert |ts| > 0 by {
        var i :| 0 <= i < |Invoices(ts)| && Invoices(ts)[i].clientId == Some(clientId);
        assert Invoices(ts)[i] in ts;
      }
      MaxDate(ts) - last
  }

  /** `df_b2b.merge(last_purchase, on='client_id', how='left')` together with
      the `days_inactive` column: one row per customer, in customer order. */
  function ChurnAnalysis(ts: seq<Transaction>, customers: seq<Customer>): (r: seq<ChurnRow>)
    ensures |r| == |customers|
    ensures forall i :: 0 <= i < |r| ==> r[i] == CustomerRow(ts, customers[i])
  {
    seq(|customers|, i requires 0 <= i < |customers| => CustomerRow(ts, customers[i]))
  }

  function CustomerRow(ts: seq<Transaction>, c: Customer): ChurnRow
  {
    ChurnRow(c, LastInvoiceDate(ts, c.clientId), DaysInactive(ts, c.clientId))
  }

  /** The rows strictly above the threshold, in their original order. */
  function AtRisk(rows: seq<ChurnRow>, threshold: int): (r: seq<ChurnRow>)
    ensures forall x :: x in r <==> x in rows && x.daysInactive > threshold
    ensures multiset(r) <= multiset(rows)
    ensures |r| <= |rows|
  {
    if rows == [] then []
    else
      var rest := AtRisk(rows[1..], threshold);
      assert rows == [rows[0]] + rows[1..];
      (if rows[0].daysInactive > threshold then [rows[0]] else []) + rest
  }

  /** Every copy of a row above the threshold is kept, as often as it
      occurs, and nothing else is. */
  lemma {:induction false} AtRiskKeepsEveryCopy(rows: seq<ChurnRow>, threshold: int)
    ensures forall x :: multiset(AtRisk(rows, threshold))[x] == if x.daysInactive > threshold then multiset(rows)[x] else 0
  {
    if rows != [] {
      assert rows == [rows[0]] + rows[1..];
      AtRiskKeepsEveryCopy(rows[1..], threshold);
    }
  }

  /** Sort key for `sort_values('days_inactive', ascending=False)`. */
  function DescendingDays(row: ChurnRow): int
  {
    -row.daysInactive
  }

  /** analyze_b2b_churn: the flagged merge rows, reordered by non-increasing
      `days_inactive` (ties in no particular order). */
  function AnalyzeB2bChurn(ts: seq<Transaction>, customers: seq<Customer>, threshold: int): (r: seq<ChurnRow>)
    ensures forall i, j :: 0 <= i < j < |r| ==> r[i].daysInactive >= r[j].daysInactive
    ensures multiset(r) == multiset(AtRisk(ChurnAnalysis(ts, customers), threshold))
  {
    var r := Sorting.SortBy(AtRisk(ChurnAnalysis(ts, customers), threshold), DescendingDays);
    SortedDescending(r);
    r
  }

  /** Every returned row is the merge row of a listed customer, and lies
      strictly above the threshold. */
  lemma ChurnRowsAreFlaggedCustomers(ts: seq<Transaction>, customers: seq<Customer>, threshold: int)
    ensures forall x :: x in AnalyzeB2bChurn(ts, customers, threshold) ==>
      x.customer in customers && x == CustomerRow(ts, x.customer) && x.daysInactive > threshold
  {
    var flagged := AtRisk(ChurnAnalysis(ts, customers), threshold);
    var r := AnalyzeB2bChurn(ts, customers, threshold);
    MergeRowsCoverCustomers(ts, customers);
    forall x | x in r ensures x in flagged {
      assert x in multiset(r);
    }
  }

  /** Every listed customer strictly above the threshold is returned. */
  lemma ChurnIncludesEveryFlaggedCustomer(ts: seq<Transaction>, customers: seq<Customer>, threshold: int, c: Customer)
    requires c in customers
    requires DaysInactive(ts, c.clientId) > threshold
    ensures CustomerRow(ts, c) in AnalyzeB2bChurn(ts, customers, threshold)
  {
    var flagged := AtRisk(ChurnAnalysis(ts, customers), threshold);
    MergeRowsCoverCustomers(ts, customers);
    assert CustomerRow(ts, c) in flagged;
    assert CustomerRow(ts, c) in multiset(flagged);
  }

  /** The report never has more rows than the customer list. */
  lemma ChurnNoLongerThanCustomers(ts: seq<Transaction>, customers: seq<Customer>, threshold: int)
    ensures |AnalyzeB2bChurn(ts, customers, threshold)| <= |customers|
  {
    var flagged := AtRisk(ChurnAnalysis(ts, customers), threshold);
    var r := AnalyzeB2bChurn(ts, customers, threshold);
    assert |r| == |multiset(r)| == |multiset(flagged)| == |flagged|;
  }

  /** A customer's merge row is returned exactly when the customer is listed
      and strictly above the threshold; one exactly at the threshold is not. */
  lemma ChurnMembership(ts: seq<Transaction>, customers: seq<Customer>, threshold: int, c: Customer)
    ensures CustomerRow(ts, c) in AnalyzeB2bChurn(ts, customers, threshold)
            <==> c in customers && DaysInactive(ts, c.clientId) > threshold
  {
    ChurnRowsAreFlaggedCustomers(ts, customers, threshold);
    if c in customers && DaysInactive(ts, c.clientId) > threshold {
      ChurnIncludesEveryFlaggedCustomer(ts, customers, threshold, c);
    }
  }

  /** For a customer with an Invoice, `days_inactive` is the distance from
      the latest date of the whole table (Receipts included) to the latest
      Invoice of that customer, and is never negative. */
  lemma {:induction false} DaysInactiveOfInvoicedCustomer(ts: seq<Transaction>, clientId: int)
    requires LastInvoiceDate(ts, clientId).Some?
    ensures |ts| > 0
    ensures DaysInactive(ts, clientId) == MaxDate(ts) - LastInvoiceDate(ts, clientId).value
    ensures DaysInactive(ts, clientId) >= 0
    ensures exists i :: 0 <= i < |ts| && IsInvoiceOf(ts[i], clientId) && ts[i].date == LastInvoiceDate(ts, clientId).value
    ensures forall i :: 0 <= i < |ts| && IsInvoiceOf(ts[i], clientId) ==> ts[i].date <= LastInvoiceDate(ts, clientId).value
  {
    var inv := Invoices(ts);
    var last := LastInvoiceDate(ts, clientId).value;
    var k :| 0 <= k < |inv| && inv[k].clientId == Some(clientId) && inv[k].date == last;
    assert inv[k] in ts;
    var i :| 0 <= i < |ts| && ts[i] == inv[k];
    assert IsInvoiceOf(ts[i], clientId);
    forall j | 0 <= j < |ts| && IsInvoiceOf(ts[j], clientId) ensures ts[j].date <= last {
      assert ts[j] in inv;
      var m :| 0 <= m < |inv| && inv[m] == ts[j];
    }
  }

  /** The row is an Invoice of the given client. */
  predicate IsInvoiceOf(t: Transaction, clientId: int)
  {
    t.docType == Invoice && t.clientId == Some(clientId)
  }

  /** Inserting a Receipt anywhere never changes a customer's last purchase. */
  lemma ReceiptsKeepLastPurchase(a: seq<Transaction>, b: seq<Transaction>, t: Transaction, clientId: int)
    requires t.docType == Receipt
    ensures LastInvoiceDate(a + [t] + b, clientId) == LastInvoiceDate(a + b, clientId)
  {
    InvoicesAppend(a + [t], b);
    InvoicesAppend(a, [t]);
    InvoicesAppend(a, b);
    assert Invoices([t]) == [];
    assert Invoices(a + [t]) == Invoices(a);
  }

  /** A listed customer without any Invoice gets the sentinel 999 and is
      returned exactly when the threshold is below it. */
  lemma NeverInvoicedCustomer(ts: seq<Transaction>, customers: seq<Customer>, threshold: int, c: Customer)
    requires c in customers
    requires forall i :: 0 <= i < |ts| ==> !IsInvoiceOf(ts[i], c.clientId)
    ensures DaysInactive(ts, c.clientId) == NeverBoughtSentinel
    ensures CustomerRow(ts, c) in AnalyzeB2bChurn(ts, customers, threshold) <==> threshold < NeverBoughtSentinel
  {
    var inv := Invoices(ts);
    forall k | 0 <= k < |inv| ensures inv[k].clientId != Some(c.clientId) {
      assert inv[k] in ts;
      var i :| 0 <= i < |ts| && ts[i] == inv[k];
    }
    ChurnMembership(ts, customers, threshold, c);
  }

  lemma SortedDescending(r: seq<ChurnRow>)
    requires Sorting.SortedBy(r, DescendingDays)
    ensures forall i, j :: 0 <= i < j < |r| ==> r[i].daysInactive >= r[j].daysInactive
  {
    forall i, j | 0 <= i < j < |r| ensures r[i].daysInactive >= r[j].daysInactive {
      assert DescendingDays(r[i]) <= DescendingDays(r[j]);
    }
  }

  lemma MergeRowsCoverCustomers(ts: seq<Transaction>, customers: seq<Customer>)
    ensures forall x :: x in ChurnAnalysis(ts, customers) ==> x.customer in customers && x == CustomerRow(ts, x.customer)
    ensures forall c :: c in customers ==> CustomerRow(ts, c) in ChurnAnalysis(ts, customers)
  {
    var rows := ChurnAnalysis(ts, customers);
    forall c | c in customers ensures CustomerRow(ts, c) in rows {
      var i :| 0 <= i < |customers| && customers[i] == c;
      assert rows[i] == CustomerRow(ts, c);
    }
  }

  /** With the default threshold of 90 days, every listed customer that never
      received an Invoice is reported. */
  lemma DefaultChurnReportsNeverInvoiced(ts: seq<Transaction>, customers: seq<Customer>, c: Customer)
    requires c in customers
    requires forall i :: 0 <= i < |ts| ==> !IsInvoiceOf(ts[i], c.clientId)
    ensures CustomerRow(ts, c) in AnalyzeB2bChurn(ts, customers, DefaultThreshold)
  {
    NeverInvoicedCustomer(ts, customers, DefaultThreshold, c);
  }
}
