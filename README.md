# Daily sales report, modelled in Dafny

This project models the daily report of a small marketplace backend. The
report covers one calendar date. For that date, `generate_report` first
checks that the three arguments name a real date. It then selects the
orders placed that day and folds over the orders and their order lines. The
result is a `Report` with:

- the number of distinct customers;
- the total discount amount and the average discount rate over all lines;
- the number of items and the average order total;
- a `CommissionReport` with the total commission, the average commission
  per order, and the commission earned per promotion.

A date that is not valid gives `ErrorResponse("Invalid date entered")`. A
valid date with no orders gives `EmptyResponse`.

The modules follow the program:

- `Wrappers` holds `Option`.
- `Calendar` holds what `date(year, month, day)` accepts and the Python day
  numbers (`date.toordinal`). It proves that the next day's number is one
  more than the day's.
- `Models` holds the order and order-line rows. `Order` is a class whose
  columns are constants. Its one mutable field, `totalAmount`, is the
  `total_amount` attribute that the order-statistics step writes onto each
  order, and it starts as `None`.
- `Datatypes` holds the result dataclasses as datatypes that compare field
  by field. `Response` has three outcomes: a report, an error message, and
  the empty result.
- `Queries` holds the three database reads, over an in-memory order table
  and two maps keyed by (day number, id).
- `Sums` holds Python's `sum` and the averages, where an empty list gives
  0.0 in place of the ZeroDivisionError.
- `ReportSpec` holds independent, recursive definitions of every figure and
  the lemmas about them.
- `Generate` holds one imperative method per helper, each loop proved
  against `ReportSpec`.
- `Scenarios` holds the end-to-end fixture and a few concrete days.

Three behaviours of the code are kept as they are:

- The order query keeps `date <= created_at <= date + 1 day`. Both ends are
  included, so an order placed exactly at the next midnight is in two
  days' reports (`Queries.WindowInclusive`, `Scenarios.MidnightSelectedTwice`).
- `calc_order_stats` writes the cached total onto the shared order objects,
  and `calc_commission_stats` reads it back. The model keeps this
  mutation, and proves that the cache does not change the commissions
  (`ReportSpec.CachedMatchesComputed`).
- A missing commission rate raises an uncaught `AttributeError` in the code.
  The model makes "every selected order has a rate" a precondition
  (`ReportSpec.CanReport`).

## Model

| member | source | states |
|---|---|---|
| Calendar.MakeDate | app/report/generate.py:150-153 | three present integers naming a valid Gregorian date (year 1..9999, month 1..12, day within the month, leap years by the 4/100/400 rule) give that date; any absent argument or invalid date gives None |
| Calendar.NextDay | app/report/generate.py:21 | `date + 1 day` of any valid date other than 9999-12-31 is a valid date |
| Calendar.NextDayOrdinal | app/report/generate.py:21 | the next day's day number is the day's number plus one, across month and year ends |
| Calendar.OrdinalOrdered | app/report/generate.py:20-21 | day numbers order dates by (year, month, day) |
| Calendar.OrdinalInjective | app/report/generate.py:20-21 | distinct valid dates have distinct day numbers |
| Calendar.FixtureOrdinal | tests/report/test_generate_report.py:46 | 2020-01-01 is day 737425, as Python numbers it |
| Calendar.ValidityExamples | tests/report/test_generate_report.py:23-35 | month 13, day 40, 29 February of 2019 and 1900, year 0 and an absent argument are rejected; 29 February of 2020 and 2000 are accepted |
| Queries.Filter | app/report/generate.py:19-22 | every kept order is in the table and in the window; every table order in the window is kept, as many times as the table holds it; an order outside the window is not kept at all |
| Queries.OrdersByDate | app/report/generate.py:15-23 | no date gives no orders; a date gives exactly the table's orders whose timestamp lies in the window, each as many times as the table holds it |
| Queries.WindowInclusive | app/report/generate.py:20-21 | a timestamp is in a date's window exactly when it falls on that date or is the following midnight |
| Queries.MidnightInTwoWindows | app/report/generate.py:20-21 | the midnight between two dates is in both dates' windows |
| Queries.GetCommission | app/report/generate.py:26-30 | a rate is found exactly when the (day, vendor) key has a row, and it is that row's rate |
| Queries.GetPromotion | app/report/generate.py:33-38 | a promotion is found exactly when the (day, product) key has a row, and it is that row's promotion id |
| Sums.SumConcat | app/report/generate.py:59 | the sum of two lists joined is the sum of their sums |
| Sums.MeanBounds | app/report/generate.py:62 | the average of a non-empty list lies within any bounds of its elements |
| Sums.SumOfZeros | app/report/generate.py:59-64 | a list of zeros, or no values at all, has sum and average 0.0 |
| ReportSpec.CustomerCount | app/report/generate.py:41-48 | repeated customers count once: at most as many customers as orders, exactly as many iff no customer repeats, at least one for a non-empty day |
| ReportSpec.OrderTotalsSumLines | app/report/generate.py:76-77 | adding up the order totals adds up every line total of the day |
| ReportSpec.OrderTotalAvgMeaning | app/report/generate.py:85-96 | the average order total is the sum of all line totals of the day divided by the number of orders |
| ReportSpec.CachedMatchesComputed | app/report/generate.py:107-114 | when each cached total is the computed total, the cached and the recomputed paths give the same commissions order by order |
| ReportSpec.AccumulateIsSumPerPromotion | app/report/generate.py:139-142 | the dictionary update adds up per key: a promotion id is a key exactly when something was contributed to it, and its value is the sum of its contributions |
| ReportSpec.AccumulateLineUpdate | app/report/generate.py:135-142 | one order line's dictionary update: nothing for an unpromoted product, else the line's commission added to its promotion's running total, or that total started |
| ReportSpec.ContributionIds | app/report/generate.py:134-137 | the promotion ids contributed to are exactly the promotions of the lines' products on their orders' days |
| ReportSpec.PromoCommissionsMeaning | app/report/generate.py:126-143 | a promotion id is a key exactly when some line's product has that promotion on its order's day, and its value is the sum of those lines' commissions |
| ReportSpec.ResponseOutcomes | app/report/generate.py:150-157 | an error with the fixed message exactly when the arguments name no date; the empty result exactly when a valid date has no orders; otherwise a report with between 1 and the number of orders customers |
| ReportSpec.DiscountRateAvgIsFraction | app/report/generate.py:62 | when every discount rate is between 0 and 1, so is the average discount rate |
| Generate.CalcNumCustomers | app/report/generate.py:41-48 | no list gives 0; a list gives the number of distinct customer ids |
| Generate.CalcDiscountStats | app/report/generate.py:51-66 | the sum of the discounted amounts and the average discount rate over all lines of all orders, 0.0 for no lines |
| Generate.CalcOrderTotal | app/report/generate.py:69-78 | no order gives 0.0; an order gives the sum of its lines' totals |
| Generate.CalcOrderStats | app/report/generate.py:81-98 | the sum of all line quantities and the average order total; each order's cached total becomes its computed total, and nothing else changes |
| Generate.CalcCommissionStats | app/report/generate.py:101-123 | the sum and the average over the orders of each order's total (cached if present, else computed) times its vendor's rate on its day |
| Generate.CalcPromoCommissions | app/report/generate.py:126-143 | the per-promotion dictionary: keys exactly the promotions of the day's promoted lines, values the sums of those lines' commissions |
| Generate.GenerateReport | app/report/generate.py:146-177 | the response is the reference response for the tables and arguments; the report's fields come from the helpers in declaration order; the selected orders end with their totals cached, and every other order of the table keeps its cached total (on the error and empty paths, every order) |
| Scenarios.OneOrderReportOf | tests/report/test_generate_report.py:44-87 | the fixture's single order gives Report(1, 0.1, 10, 1.0, 0.1, CommissionReport({1: 0.1}, 0.1, 0.1)) |
| Scenarios.OneOrderDay | tests/report/test_generate_report.py:40-89 | generating the report for 2020-01-01 over the fixture's tables gives that report |
| Scenarios.LastSecondSelected | tests/report/test_generate_report.py:46 | an order at 23:59:59 on 2020-01-01 is selected for that day |
| Scenarios.MidnightSelectedTwice | app/report/generate.py:20-21 | an order at midnight between 2020-01-01 and 2020-01-02 is selected for both days |
| Scenarios.EarlierOrdersNotSelected | app/report/generate.py:19-22 | orders placed before 2020-01-01 are not selected for that day |
| Scenarios.DayWithoutOrders | app/report/generate.py:155-157 | a table holding only orders from before 2020-01-01 gives the empty result for that date |
| Scenarios.RejectedDates | tests/report/test_generate_report.py:23-35 | an invalid leap day, month 13 and an absent year each give the error response with its message |
| Scenarios.GenerateReportTwice | app/report/generate.py:107-110 | generating the report again, after the first run has cached the totals, gives the same response |

## Left out

- The SQLAlchemy queries become an in-memory order sequence and two maps. The database's comparison of a `date` with a `datetime` is modelled as comparison with midnight at the start of that day.
- The Flask endpoint, the `asdict` serialisation and the application wiring are not part of this model.
- `app/report/__init__.py` is a stale copy of the result types (string promotion keys, no empty result). `generate.py` does not use it, so it is not part of this model.
- Floating point: amounts and rates are exact reals, so rounding in the sums, products and quotients is not modelled. Timestamps are exact to the microsecond and carry no time zone.
- Iteration order of Python's dictionary is not modelled: the promotions are a map.
- Generate.GenerateReport: a date whose orders lack a commission rate is excluded by a precondition, because the code raises an uncaught `AttributeError` there. The same holds for `calc_promo_commissions` even on orders with no promoted line.
- Generate.CalcCommissionStats: requires a rate for every order, because `commission.rate` on a missing row raises `AttributeError`.
- Generate.CalcPromoCommissions: requires a rate for every order, for the same reason.
- Generate.GenerateReport: arguments outside the C `int` range (-2147483648..2147483647) are excluded by a precondition, because `date` raises `OverflowError` for them and `generate_report` catches only `ValueError` and `TypeError`.
- Generate.GenerateReport: the date 9999-12-31 is excluded by a precondition, because `_date + timedelta(days=1)` raises `OverflowError` for it.
- A promotion row whose `promotion_id` is NULL is not modelled (`int(None)` raises): the promotion map holds integers only.
- Arguments that are not integers (`None`, `""`) are modelled as absent values, since `date` raises `TypeError` for all of them alike.
- Order-line fields that the report never reads (description, price, VAT) are carried in `OrderLine` but nothing is proved about them.
