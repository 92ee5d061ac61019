/** Forecaster: weekly sums of the sales amounts, the mean of the last eight
    weeks, and a flat projection of that mean (src/logic.py, forecast_sales). */
module Forecast {
  import opened Tables

  /** Number of trailing weekly buckets averaged (`tail(8)`). */
  const TrailingWeeks: nat := 8

  /** The default horizon, in weeks. */
  const DefaultHorizon: int := 4

  /** One bucket of `resample('W')`: the Sunday that ends and labels the
      week, and the sum of the amounts dated in it. */
  datatype WeekBucket = WeekBucket(weekEnd: int, amount: real)

  datatype ForecastPoint = ForecastPoint(date: int, predictedSales: real)

  /** Weeks are numbered so that week `w` ends on Sunday `WeekEnd(w)`. */
  function WeekEnd(week: int): (d: int)
    ensures d % 7 == 3
  {
    7 * week + 3
  }

  /** The week holding `day`: Monday through Sunday, closed and labelled on
      the Sunday, as pandas' `'W'` (= `'W-SUN'`) frequency buckets dates. */
  function WeekOf(day: int): (w: int)
    ensures day <= WeekEnd(w) < day + 7
  {
    (day + 3) / 7
  }

  /** Sum of the amounts dated in week `week`. */
  function WeekTotal(ts: seq<Transaction>, week: int): real
  {
    if ts == [] then 0.0
    else (if WeekOf(ts[0].date) == week then ts[0].totalAmount else 0.0) + WeekTotal(ts[1..], week)
  }

  /** A week without sales sums to 0. */
  lemma {:induction false} GapWeekIsZero(ts: seq<Transaction>, week: int)
    requires forall i :: 0 <= i < |ts| ==> WeekOf(ts[i].date) != week
    ensures WeekTotal(ts, week) == 0.0
  {
    if ts != [] {
      assert forall i :: 1 <= i < |ts| ==> ts[1..][i - 1] == ts[i];
      GapWeekIsZero(ts[1..], week);
    }
  }

  /** `n` consecutive buckets starting with week `first`. */
  function Buckets(ts: seq<Transaction>, first: int, n: nat): (r: seq<WeekBucket>)
    ensures |r| == n
    ensures forall k :: 0 <= k < n ==> r[k] == WeekBucket(WeekEnd(first + k), WeekTotal(ts, first + k))
    decreases n
  {
    if n == 0 then []
    else [WeekBucket(WeekEnd(first), WeekTotal(ts, first))] + Buckets(ts, first + 1, n - 1)
  }

  /** `df_trans.set_index('date').resample('W')['total_amount'].sum()`: one
      bucket for every week from the first to the last transaction's week,
      weeks without sales summing to 0. */
  function WeeklySales(ts: seq<Transaction>): (r: seq<WeekBucket>)
    ensures ts == [] <==> r == []
  {
    if ts == [] then []
    else
      var first := WeekOf(MinDate(ts));
      var last := WeekOf(MaxDate(ts));
      Buckets(ts, first, last - first + 1)
  }

  /** Sum of bucket amounts. */
  function BucketSum(bs: seq<WeekBucket>): real
  {
    if bs == [] then 0.0 else bs[0].amount + BucketSum(bs[1..])
  }

  /** The last `min(8, |bs|)` buckets (`tail(8)`). */
  function Trailing(bs: seq<WeekBucket>): (r: seq<WeekBucket>)
    ensures |r| == if |bs| < TrailingWeeks then |bs| else TrailingWeeks
    ensures r == bs[|bs| - |r|..]
  {
    if |bs| <= TrailingWeeks then bs else bs[|bs| - TrailingWeeks..]
  }

  /** `tail(8).mean()` of a non-empty series: the sum of the last
      min(8, n) weekly sums divided by their number. */
  function TrailingMean(bs: seq<WeekBucket>): (m: real)
    requires |bs| > 0
    ensures var k := if |bs| < TrailingWeeks then |bs| else TrailingWeeks;
      m == BucketSum(bs[|bs| - k..]) / k as real
  {
    var tail := Trailing(bs);
    var mean := Mean(BucketSum(tail), |tail|).value;
    assert mean == BucketSum(tail) / |tail| as real;
    mean
  }

  /** `weeks` points one week apart after `lastWeek`, all carrying `value`. */
  function FlatLine(lastWeek: int, value: real, weeks: nat): (r: seq<ForecastPoint>)
    ensures |r| == weeks
    ensures forall i :: 0 <= i < weeks ==> r[i] == ForecastPoint(lastWeek + 7 * (i + 1), value)
    ensures forall i :: 0 <= i < weeks - 1 ==> r[i + 1].date == r[i].date + 7
  {
    seq(weeks, i requires 0 <= i < weeks => ForecastPoint(lastWeek + 7 * (i + 1), value))
  }

  /** forecast_sales: `weeks` points (none for `weeks <= 0`) one week apart
      after the last bucket's Sunday, each carrying the trailing mean. An
      empty table has no last bucket to index, which fails as soon as one
      point is asked for. */
  function ForecastSales(ts: seq<Transaction>, weeks: int): (r: Option<seq<ForecastPoint>>)
    ensures r.None? <==> ts == [] && weeks > 0
    ensures r.Some? && ts == [] ==> r.value == []
    ensures r.Some? && ts != [] ==>
      var bs := WeeklySales(ts);
      r.value == FlatLine(bs[|bs| - 1].weekEnd, TrailingMean(bs), if weeks > 0 then weeks else 0)
  {
    if weeks <= 0 then Some([])
    else if ts == [] then None
    else
      var weekly := WeeklySales(ts);
      var average := TrailingMean(weekly);
      Some(FlatLine(weekly[|weekly| - 1].weekEnd, average, weeks))
  }

  lemma {:induction false} BucketsOfEmpty(first: int, n: nat)
    ensures BucketSum(Buckets([], first, n)) == 0.0
    decreases n
  {
    if n > 0 {
      BucketsOfEmpty(first + 1, n - 1);
    }
  }

  /** Summing the buckets splits off the first transaction: its amount lands
      in the bucket of its week when that week is in range. */
  lemma {:induction false} BucketsPeel(ts: seq<Transaction>, first: int, n: nat)
    requires ts != []
    ensures BucketSum(Buckets(ts, first, n))
            == (if first <= WeekOf(ts[0].date) < first + n then ts[0].totalAmount else 0.0)
               + BucketSum(Buckets(ts[1..], first, n))
    decreases n
  {
    if n > 0 {
      BucketsPeel(ts, first + 1, n - 1);
      assert Buckets(ts, first, n)[1..] == Buckets(ts, first + 1, n - 1);
      assert Buckets(ts[1..], first, n)[1..] == Buckets(ts[1..], first + 1, n - 1);
    }
  }

  /** Buckets covering every transaction's week add up to the total amount. */
  lemma {:induction false} BucketsTotal(ts: seq<Transaction>, first: int, n: nat)
    requires forall i :: 0 <= i < |ts| ==> first <= WeekOf(ts[i].date) < first + n
    ensures BucketSum(Buckets(ts, first, n)) == TotalAmount(ts)
  {
    if ts == [] {
      BucketsOfEmpty(first, n);
    } else {
      assert forall i :: 1 <= i < |ts| ==> ts[i] == ts[1..][i - 1];
      BucketsTotal(ts[1..], first, n);
      BucketsPeel(ts, first, n);
    }
  }

  lemma WeekOfMonotone(a: int, b: int)
    requires a <= b
    ensures WeekOf(a) <= WeekOf(b)
  {
  }

  /** The week numbers of a non-empty table lie between those of its first
      and its last date. */
  lemma WeeksInRange(ts: seq<Transaction>)
    requires ts != []
    ensures forall i :: 0 <= i < |ts| ==> WeekOf(MinDate(ts)) <= WeekOf(ts[i].date) <= WeekOf(MaxDate(ts))
  {
    forall i | 0 <= i < |ts| ensures WeekOf(MinDate(ts)) <= WeekOf(ts[i].date) <= WeekOf(MaxDate(ts)) {
      WeekOfMonotone(MinDate(ts), ts[i].date);
      WeekOfMonotone(ts[i].date, MaxDate(ts));
    }
  }

  /** The weekly series of a non-empty table is a run of contiguous
      Sunday-ending weeks, from the week of the first sale to the week of the
      last. */
  lemma WeeklySalesWeeks(ts: seq<Transaction>)
    requires ts != []
    ensures var bs := WeeklySales(ts);
      && |bs| > 0
      && MinDate(ts) <= bs[0].weekEnd < MinDate(ts) + 7
      && MaxDate(ts) <= bs[|bs| - 1].weekEnd < MaxDate(ts) + 7
      && (forall k :: 0 <= k < |bs| ==> bs[k].weekEnd % 7 == 3)
      && (forall k :: 0 <= k < |bs| - 1 ==> bs[k + 1].weekEnd == bs[k].weekEnd + 7)
  {
    WeeksInRange(ts);
  }

  /** Every sale falls in one bucket of the series: the week that ends on the
      first Sunday on or after its date. */
  lemma WeeklySalesHoldEverySale(ts: seq<Transaction>, i: int)
    requires 0 <= i < |ts|
    ensures var bs := WeeklySales(ts);
      var k := WeekOf(ts[i].date) - WeekOf(MinDate(ts));
      && 0 <= k < |bs|
      && ts[i].date <= bs[k].weekEnd < ts[i].date + 7
  {
    WeeksInRange(ts);
  }

  /** The weekly sums add up to the total amount of all transactions. */
  lemma WeeklySalesTotal(ts: seq<Transaction>)
    ensures BucketSum(WeeklySales(ts)) == TotalAmount(ts)
  {
    if ts != [] {
      var first := WeekOf(MinDate(ts));
      var n := WeekOf(MaxDate(ts)) - first + 1;
      WeeksInRange(ts);
      assert forall i :: 0 <= i < |ts| ==> first <= WeekOf(ts[i].date) < first + n;
      BucketsTotal(ts, first, n);
      assert WeeklySales(ts) == Buckets(ts, first, n);
    }
  }

  /** Points of a flat line are Sundays one week apart when `lastWeek` is a
      Sunday. */
  lemma FlatLineDates(lastWeek: int, value: real, weeks: nat)
    requires lastWeek % 7 == 3
    ensures var f := FlatLine(lastWeek, value, weeks);
      && (weeks > 0 ==> f[0].date == lastWeek + 7)
      && (forall i :: 0 <= i < weeks - 1 ==> f[i + 1].date == f[i].date + 7)
      && (forall i :: 0 <= i < weeks ==> f[i].date % 7 == 3)
  {
    var f := FlatLine(lastWeek, value, weeks);
    forall i | 0 <= i < weeks ensures f[i].date % 7 == 3 {
      assert f[i].date == lastWeek + 7 * (i + 1);
    }
  }

  /** For a non-empty table the forecast has `weeks` points (none for
      `weeks <= 0`) dated on successive Sundays, the first one the Sunday
      after the last bucket and so after every sale. */
  lemma ForecastDates(ts: seq<Transaction>, weeks: int)
    requires ts != []
    ensures ForecastSales(ts, weeks).Some?
    ensures var f := ForecastSales(ts, weeks).value;
      var bs := WeeklySales(ts);
      && |f| == (if weeks > 0 then weeks else 0)
      && (|f| > 0 ==> f[0].date == bs[|bs| - 1].weekEnd + 7 && f[0].date > MaxDate(ts))
      && (forall i :: 0 <= i < |f| - 1 ==> f[i + 1].date == f[i].date + 7)
      && (forall i :: 0 <= i < |f| ==> f[i].date % 7 == 3)
  {
    WeeklySalesWeeks(ts);
    var bs := WeeklySales(ts);
    FlatLineDates(bs[|bs| - 1].weekEnd, TrailingMean(bs), if weeks > 0 then weeks else 0);
  }

  /** Every forecast point carries the same value: the mean of the trailing
      (at most eight) weekly sums. */
  lemma ForecastValues(ts: seq<Transaction>, weeks: int)
    requires ts != []
    ensures ForecastSales(ts, weeks).Some?
    ensures var f := ForecastSales(ts, weeks).value;
      forall i :: 0 <= i < |f| ==> f[i].predictedSales == TrailingMean(WeeklySales(ts))
  {
  }

  /** With at most eight weeks of history the trailing mean is the mean of
      the total amount over the weeks of history. */
  lemma ShortHistoryMean(ts: seq<Transaction>)
    requires ts != []
    requires |WeeklySales(ts)| <= TrailingWeeks
    ensures TrailingMean(WeeklySales(ts)) == Mean(TotalAmount(ts), |WeeklySales(ts)|).value
  {
    var bs := WeeklySales(ts);
    WeeklySalesTotal(ts);
    assert Trailing(bs) == bs;
  }

  /** The default call, `forecast_sales(df_trans)`, gives four weekly points
      after the last bucket for any non-empty table. */
  lemma DefaultForecast(ts: seq<Transaction>)
    requires ts != []
    ensures ForecastSales(ts, DefaultHorizon).Some?
    ensures var f := ForecastSales(ts, DefaultHorizon).value;
      var bs := WeeklySales(ts);
      && |f| == 4
      && f[0].date == bs[|bs| - 1].weekEnd + 7
      && f[3].date == bs[|bs| - 1].weekEnd + 28
  {
    ForecastDates(ts, DefaultHorizon);
  }
}
