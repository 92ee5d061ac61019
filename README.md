# Hardware-store analytics, modelled in Dafny

This project models the analytics core of a small hardware-store analytics
application and proves properties of it. The model has two parts.

- **Generator** (`generate_simulation`): builds a data set. It has a fixed
  12-product catalog and applies an optional price shock to it. It creates
  50 B2B customers, then draws `int(5000 * demand_factor)` sales; each sale
  is a B2B *Invoice* or a walk-in *Receipt*. The rows come back sorted by
  date.
- **Analytics**, over the tables the generator produces:
  - `calculate_kpis`: revenue, margin, margin percentage and average ticket,
    computed over a left join of sales to products.
  - `analyze_b2b_churn`: customers whose last Invoice lies more than a
    threshold of days before the latest sale in the data set. The slowest
    come first.
  - `forecast_sales`: weekly sums over Sunday-ending weeks, and a flat
    projection of the mean of the last eight weeks.

Representation:

- Dates are day numbers counted from 1970-01-01. 2024-01-01 is day 19723
  and 2025-12-31 is day 20453. Sundays are the days with `d % 7 == 3`.
- Money is `real`. `round(x, 2)` is rounding to the nearest cent, ties to
  the even cent.
- Tables are sequences of records.
- Every random or Faker draw is an explicit input. The 8-digit customer ids
  are one such input; their uniqueness, which Faker guarantees, is a
  precondition.
- The three `save_to_sql` calls are replaced by returning the tables.

Modules:

- `Tables`: records, `Option`/`Result`, date bounds, sums, the mean, and
  product lookup.
- `Sorting`: the sort by one integer key that both `sort_values` calls
  need. Only its order and its permutation are specified.
- `Kpis`, `Churn`, `Forecast`: the three analytics functions, modelled as
  functions.
- `Etl`: the generator, modelled as methods with loops.

The transaction count is `int(5000 * demand_factor)`. `int` truncates toward
zero, so the count is never rounded up.

The defaults of the source are constants of the model: a threshold of 90
days for the churn report, a horizon of 4 weeks for the forecast, and a
demand factor of 1.0 with a price increase of 0.0 for the generator.

## Model

| member | source | states |
|---|---|---|
| Tables.MaxDate | src/logic.py:66 | the latest date of a non-empty table is one of its dates and bounds all of them |
| Tables.Lookup | src/etl.py:80 | yields a product exactly when some row has the id, and then the first such row |
| Tables.LookupUnique | src/etl.py:80 | with a product key, looking up a row's id gives back that row |
| Tables.Mean | src/logic.py:43 | a mean exists exactly for a non-empty column, and mean times count is the total |
| Sorting.SortBy | src/logic.py:78 | the result is ordered by the key and is a permutation of the input |
| Sorting.SortByKeepsElements | src/etl.py:96 | sorting neither adds nor drops a row |
| Kpis.Matches | src/logic.py:29 | the products joined to one sale are exactly the catalog rows with its product id |
| Kpis.MatchesKeepsEveryCopy | src/logic.py:29 | every catalog row with the sale's id is joined as often as it occurs in the catalog, and no other row is joined |
| Kpis.JoinRows | src/logic.py:29 | one joined row per matching product carrying its cost, or one cost-less row when none match |
| Kpis.LeftJoin | src/logic.py:29 | the left join has at least one row per sale |
| Kpis.LeftJoinKeepsEverySale | src/logic.py:29 | every sale appears in some row of the join |
| Kpis.LeftJoinRowsComeFromSales | src/logic.py:29 | every row of the join carries one of the sales, and a row with a cost carries the cost of a catalog row with that sale's product id |
| Kpis.JoinedSales | src/logic.py:32 | rows with non-negative amounts sum to a non-negative total |
| Kpis.LineCost | src/logic.py:35 | an unmatched row costs 0 |
| Kpis.JoinedCost | src/logic.py:35-36 | rows that are all unmatched cost 0 in total |
| Kpis.MarginPercent | src/logic.py:40 | for positive sales, percent times sales is 100 times the margin; otherwise exactly 0, negative sales included |
| Kpis.CalculateKpis | src/logic.py:24-50 | sales are summed over the join and the margin is sales minus the joined cost; the percentage is the guarded one and the ticket is the mean amount of the unjoined sales |
| Kpis.MatchesUnique | src/logic.py:29 | with a product key, a known product id joins exactly one row |
| Kpis.JoinOneRowPerTransaction | src/logic.py:29-36 | in a catalog with distinct product ids the join has one row per sale; its sales equal the sales total and its cost is the catalog cost, where a sale of an unknown product costs 0 |
| Kpis.JoinOfOneSale | src/logic.py:29-36 | in a keyed catalog one sale joins to a single row carrying its amount and its catalog cost (0 for an unknown product) |
| Kpis.JoinOfKnownProduct | src/logic.py:29-36 | a sale of a known product in a keyed catalog joins to a single row carrying its amount and cost times quantity |
| Kpis.JoinOfUnknownProduct | src/logic.py:29-36 | a sale of an unknown product joins to a single cost-less row that adds its amount and no cost |
| Kpis.KpisWithKeyedCatalog | src/logic.py:29-43 | in a keyed catalog: sales are the total amount, margin is the total minus the catalog cost (unknown products costing 0), and the average ticket is sales over the number of sales |
| Kpis.UnmatchedRowsAddNoCost | src/logic.py:35-39 | against any catalog none of whose ids is sold, the join has one cost-less row per sale, the cost is 0 and the margin is the whole revenue |
| Kpis.WorkedExample | src/logic.py:32-43 | 2 units at 10/6 plus 1 unit at 5/3 give sales 25, cost 15, margin 10, 40 percent and a ticket of 12.5 |
| Churn.Invoices | src/logic.py:58 | keeps exactly the Invoice rows |
| Churn.InvoicesOfClient | src/logic.py:58 | the Invoices contain a row of a client exactly when the table has an Invoice of that client |
| Churn.LastInvoiceDate | src/logic.py:58-61 | a client has no last Invoice date exactly when the table has no Invoice of that client |
| Churn.LastPurchase | src/logic.py:61-62 | no date for a client without rows; otherwise a date of that client's rows that bounds all of them |
| Churn.DaysInactive | src/logic.py:72-75 | a customer without an Invoice gets the sentinel 999 |
| Churn.ChurnAnalysis | src/logic.py:69-75 | one merge row per customer, in customer order, with its last Invoice date and days inactive |
| Churn.AtRisk | src/logic.py:78 | keeps exactly the rows strictly above the threshold, as a sub-multiset |
| Churn.AtRiskKeepsEveryCopy | src/logic.py:78 | each row strictly above the threshold is kept as often as it occurs, and every other row is dropped |
| Churn.AnalyzeB2bChurn | src/logic.py:53-80 | the result is the at-risk merge rows, permuted, ordered by non-increasing days inactive |
| Churn.ChurnMembership | src/logic.py:69-78 | a customer's row is returned exactly when the customer is listed and strictly above the threshold |
| Churn.ChurnRowsAreFlaggedCustomers | src/logic.py:69-78 | every returned row is the merge row of a listed customer and lies strictly above the threshold |
| Churn.ChurnIncludesEveryFlaggedCustomer | src/logic.py:69-78 | a listed customer strictly above the threshold is always returned |
| Churn.ChurnNoLongerThanCustomers | src/logic.py:69-78 | no more rows than customers |
| Churn.DaysInactiveOfInvoicedCustomer | src/logic.py:58-72 | for an invoiced customer: days inactive is the latest date over all sales (Receipts included) minus the latest Invoice of that customer, and is never negative |
| Churn.ReceiptsKeepLastPurchase | src/logic.py:58-61 | inserting a Receipt anywhere leaves every customer's last purchase unchanged |
| Churn.NeverInvoicedCustomer | src/logic.py:69-78 | a listed customer without an Invoice has 999 days and is returned exactly when the threshold is below 999 |
| Churn.DefaultChurnReportsNeverInvoiced | src/logic.py:53 | with the default threshold of 90 days, every listed customer without an Invoice is reported |
| Forecast.WeekEnd | src/logic.py:90 | every week label is a Sunday |
| Forecast.WeekOf | src/logic.py:90 | a day belongs to the week whose Sunday is the first one on or after it |
| Forecast.GapWeekIsZero | src/logic.py:90 | a week in which no sale falls sums to 0 |
| Forecast.Buckets | src/logic.py:90 | n buckets for the consecutive weeks from the first one, each labelled with its Sunday |
| Forecast.WeeklySales | src/logic.py:90 | the series is empty exactly for an empty table |
| Forecast.Trailing | src/logic.py:93 | the last min(8, n) buckets |
| Forecast.TrailingMean | src/logic.py:93 | the trailing mean is the sum of the last min(8, n) weekly sums divided by their number |
| Forecast.FlatLine | src/logic.py:96-97 | weeks points carrying the value, the first one week after the last bucket and each one 7 days after the previous |
| Forecast.ForecastSales | src/logic.py:85-104 | fails exactly for an empty table and a positive horizon; otherwise max(weeks, 0) points after the last bucket, all carrying the trailing mean |
| Forecast.BucketsTotal | src/logic.py:90 | buckets covering every sale's week sum to the total amount |
| Forecast.WeeklySalesWeeks | src/logic.py:90 | contiguous Sunday-ending weeks from the week of the first sale to the week of the last |
| Forecast.WeeklySalesHoldEverySale | src/logic.py:90 | each sale falls in the bucket whose Sunday is less than 7 days after it |
| Forecast.WeeklySalesTotal | src/logic.py:90 | the weekly sums add up to the total amount, gap weeks counting 0 |
| Forecast.FlatLineDates | src/logic.py:96 | the projected points are successive Sundays one week apart |
| Forecast.ForecastDates | src/logic.py:96 | weeks points (none when weeks is not positive); the first is 7 days after the last bucket, so after every sale, then +7 each, all Sundays |
| Forecast.ForecastValues | src/logic.py:93-97 | every predicted value is the mean of the last min(8, n) weekly sums |
| Forecast.ShortHistoryMean | src/logic.py:93 | with at most 8 weeks of history the prediction is total sales over the number of weeks |
| Forecast.DefaultForecast | src/logic.py:85 | with the default horizon a non-empty table gives 4 points, 7 to 28 days after the last bucket |
| Etl.BaseCatalog | src/etl.py:22-37 | 12 rows with ids 101 to 112, each priced above a positive cost |
| Etl.BaseCatalogKeyed | src/etl.py:22-37 | the catalog ids are distinct |
| Etl.ApplyPriceShock | src/etl.py:40 | each price is scaled by 1 + rate, and id, name, category and cost are kept |
| Etl.ShockedCatalogIds | src/etl.py:37-40 | after the shock the ids are still 101 to 112 and distinct, and names, categories and costs are unchanged |
| Etl.ShockedCatalogPrices | src/etl.py:40 | a non-negative shock keeps every price above cost; a shock above -100% keeps prices positive |
| Etl.Truncate | src/etl.py:70 | rounding toward zero, within one unit |
| Etl.TransactionCount | src/etl.py:69-70 | on exact reals, the count is the floor of 5000 times the factor for non-negative factors, and positive exactly from 1/5000 up |
| Etl.TransactionCountRange | src/etl.py:69-70 | on exact reals, factors 0.5 to 2.0 give 2500 to 10000 sales |
| Etl.DefaultRun | src/etl.py:12 | the default arguments draw 5000 sales and leave the catalog prices unchanged |
| Etl.Cents | src/etl.py:81 | the nearest whole cent, the even one on a tie |
| Etl.RoundCents | src/etl.py:81 | a whole number of cents within half a cent of the input |
| Etl.RoundCentsIdempotent | src/etl.py:81 | rounding an already rounded amount changes nothing |
| Etl.RoundCentsTiesToEven | src/etl.py:81 | 0.125 rounds to 0.12, 0.135 to 0.14, 8.504 to 8.50 |
| Etl.UnitPrice | src/etl.py:80 | the price of the first catalog row carrying the id |
| Etl.RowFor | src/etl.py:73-93 | the row of one draw: its date is the day offset from 2024-01-01 and lies in the simulated range; Invoice exactly when it has a client, the drawn one; the drawn product id and quantity |
| Etl.LineAmount | src/etl.py:81 | the amount is within half a cent of quantity times price |
| Etl.GeneratedRows | src/etl.py:72-93 | one row per draw |
| Etl.GenerateCustomers | src/etl.py:47-55 | one customer per draw, in draw order |
| Etl.GenerateTransactions | src/etl.py:72-93 | total rows (none when total is not positive), row k built from draw k |
| Etl.GenerateSimulation | src/etl.py:12-100 | fails exactly when the count is not positive. Otherwise: the shocked catalog and 50 customers with distinct ids; count rows, a permutation of the generated rows, sorted by date and all well formed |
| Etl.RowForWellFormed | src/etl.py:73-93 | date in 2024-01-01..2025-12-31, catalog product, quantity 1 to 20 and rounded amount at the catalog price; Invoice exactly when it has a client, drawn from the customers |
| Etl.GeneratedRowsWellFormed | src/etl.py:72-93 | every generated row is well formed in that sense |
| Etl.RowForAmount | src/etl.py:80-81 | in a keyed catalog a row is priced from its own product's row |
| Etl.AmountUsesShockedPrice | src/etl.py:40-81 | the amount is the rounded product of quantity and the post-shock price of the drawn product |

## Left out

- `load_data`, the CSV files and both `__main__` blocks: file I/O and console output.
- `database.py`: SQLite persistence. Each `save_to_sql` call is modelled as returning its table.
- `main.py`: the Streamlit interface, including its conversion of the percent slider to a decimal.
- Faker and the `random`/`numpy` seeding. Every draw is an input: day offset, B2B coin, product index, quantity, client index, and customer id, name, email and signup date. The 30% B2B probability and the signup-date window relative to today are therefore not modelled.
- Floating point. Amounts, prices and means are exact reals, so binary rounding error in `price * (1 + price_increase)` and `round(..., 2)` is not modelled.
- TransactionCount: the count is the floor of 5000 times the factor on exact reals. With binary doubles the product can fall just below a whole number: `int(5000 * 0.57)` is 2849, where the model gives 2850.
- GenerateSimulation: when zero rows are drawn, the source has already saved the products and customers before the sort fails; the model returns only the failure. The source's return value, `len(df_trans)`, is the length of `transactions` in the model.
- GenerateSimulation: the order of equal dates after the sort is unspecified; pandas' default sort is not stable.
- AnalyzeB2bChurn: the order of equal `days_inactive` values is unspecified, for the same reason.
- CalculateKpis: `avgTicket` is `None` where pandas gives NaN for an empty table. Rows left unmatched by the join cost 0, as pandas' NaN-skipping sum gives; NaN itself is not modelled.
- ForecastSales: an empty table with a positive horizon gives `None`, where the source raises an IndexError.
- ApplyPriceShock: the in-place overwrite of the `price` column is modelled as a function from the catalog to the new catalog.
