/**
 * The report generated for concrete tables: the one-order day of the
 * end-to-end test, the rejected dates, a day without orders, an order at
 * midnight, and a second run over the same tables.
 */
module Scenarios {
  import opened Wrappers
  import opened Sums
  import opened Models
  import opened Queries
  import opened Datatypes
  import opened ReportSpec
  import opened Generate
  import Calendar

  /** The line statistics of a day with one single-line order. */
  lemma OneLineStats(line: OrderLine)
    requires line.discountRate == 0.1 && line.quantity == 10 && line.discountedAmount == 0.1
    ensures Sum(DiscountedAmounts([line])) == 0.1
    ensures SumInt(Quantities([line])) == 10
    ensures Mean(DiscountRates([line])) == 0.1
  {
    assert [0.1][..0] == [] && [10][..0] == [];
    assert DiscountedAmounts([line]) == [0.1];
    assert Quantities([line]) == [10];
    assert DiscountRates([line]) == [0.1];
  }

  /** The order total and commission of that order. */
  lemma OneOrderCommissions(order: Order, line: OrderLine, rates: RateTable)
    requires order.lines == [line] && order.createdAt.day == 737425 && order.vendorId == 1
    requires line.totalAmount == 1.0
    requires rates == map[(737425, 1) := 0.1]
    ensures RatesCover([order], rates)
    ensures Mean(OrderTotals([order])) == 1.0
    ensures Sum(OrderCommissions([order], rates)) == 0.1
    ensures Mean(OrderCommissions([order], rates)) == 0.1
  {
    var table := [order];
    assert table[..0] == [];
    assert [1.0][..0] == [] && [0.1][..0] == [];
    assert OrderTotal(order) == 1.0 by {
      assert LineTotals([line]) == [1.0];
    }
    assert OrderTotals(table) == [1.0];
    assert OrderCommissions(table, rates) == [0.1] by {
      assert Rate(order, rates) == 0.1;
      assert Commission(order, rates) == 0.1;
    }
  }

  /** The single line of that order, promoted under promotion 1, contributes its commission. */
  lemma OneLineContribution(line: OrderLine, promos: PromotionTable)
    requires line.productId == 1 && line.totalAmount == 1.0 && promos == map[(737425, 1) := 1]
    ensures LineContributions(737425, 0.1, [line], promos) == [Contribution(1, 0.1)]
  {
    assert [line][..0] == [];
    assert LineCommission(0.1, line) == 0.1;
    assert GetPromotion(promos, 737425, 1) == Some(1);
  }

  lemma SingleOrderContributions(order: Order, rates: RateTable, promos: PromotionTable)
    requires RatesCover([order], rates) && (order.createdAt.day, order.vendorId) in rates
    ensures Contributions([order], rates, promos) == LineContributions(order.createdAt.day, Rate(order, rates), order.lines, promos)
  {
    assert [order][..0] == [];
  }

  lemma SingleAccumulate(c: Contribution)
    ensures Accumulate([c]) == map[c.promotionId := c.amount]
  {
    assert [c][..0] == [];
  }

  /** The promotion commissions of that order. */
  lemma OneOrderPromotions(order: Order, line: OrderLine, rates: RateTable, promos: PromotionTable)
    requires order.lines == [line] && order.createdAt.day == 737425 && order.vendorId == 1
    requires line.productId == 1 && line.totalAmount == 1.0
    requires rates == map[(737425, 1) := 0.1] && promos == map[(737425, 1) := 1]
    requires RatesCover([order], rates)
    ensures PromoCommissions([order], rates, promos) == map[1 := 0.1]
  {
    assert Rate(order, rates) == 0.1;
    SingleOrderContributions(order, rates, promos);
    OneLineContribution(line, promos);
    SingleAccumulate(Contribution(1, 0.1));
  }

  /** The report of the end-to-end test's single order, field by field. */
  lemma OneOrderReportOf(order: Order, line: OrderLine, rates: RateTable, promos: PromotionTable)
    requires order.lines == [line] && order.createdAt.day == 737425
    requires order.vendorId == 1 && order.customerId == 1
    requires line.productId == 1 && line.discountRate == 0.1 && line.quantity == 10
    requires line.discountedAmount == 0.1 && line.totalAmount == 1.0
    requires rates == map[(737425, 1) := 0.1] && promos == map[(737425, 1) := 1]
    ensures RatesCover([order], rates)
    ensures ReportOf([order], rates, promos) == Report(1, 0.1, 10, 1.0, 0.1, CommissionReport(map[1 := 0.1], 0.1, 0.1))
  {
    assert [order][..0] == [];
    assert AllLines([order]) == [line];
    assert CustomerIds([order]) == {1};
    OneLineStats(line);
    OneOrderCommissions(order, line, rates);
    OneOrderPromotions(order, line, rates, promos);
  }

  /** An order in the last second of 2020-01-01 is selected for that day. */
  lemma LastSecondSelected(order: Order)
    requires order.createdAt == DateTime(737425, 86399 * 1_000_000)
    ensures OrdersByDate([order], Some(Calendar.Date(2020, 1, 1))) == [order]
  {
    var date := Calendar.Date(2020, 1, 1);
    Calendar.FixtureOrdinal();
    Calendar.NextDayOrdinal(date);
    assert InWindow(order.createdAt, date);
    assert [order][..0] == [];
  }

  /**
   * An order placed exactly at midnight between 2020-01-01 and 2020-01-02 is
   * selected for both days, since both ends of the window are included.
   */
  lemma MidnightSelectedTwice(order: Order)
    requires order.createdAt == Midnight(737426)
    ensures OrdersByDate([order], Some(Calendar.Date(2020, 1, 1))) == [order]
    ensures OrdersByDate([order], Some(Calendar.Date(2020, 1, 2))) == [order]
  {
    var first, second := Calendar.Date(2020, 1, 1), Calendar.Date(2020, 1, 2);
    Calendar.FixtureOrdinal();
    Calendar.NextDayOrdinal(first);
    Calendar.NextDayOrdinal(second);
    assert InWindow(order.createdAt, first);
    assert InWindow(order.createdAt, second);
    assert [order][..0] == [];
  }

  /** Orders placed before 2020-01-01 are not selected for that day. */
  lemma EarlierOrdersNotSelected(table: seq<Order>)
    requires forall k :: 0 <= k < |table| ==> table[k].createdAt.day < 737425
    ensures OrdersByDate(table, Some(Calendar.Date(2020, 1, 1))) == []
  {
    Calendar.FixtureOrdinal();
    Calendar.NextDayOrdinal(Calendar.Date(2020, 1, 1));
    var r := OrdersByDate(table, Some(Calendar.Date(2020, 1, 1)));
    var counts: multiset<Order> := multiset(r);
    forall o: Order
      ensures counts[o] == 0
    {
      if o !in table {
        assert o !in r;
      }
    }
    assert counts == multiset{};
  }

  /** A day none of whose orders fall in the window gives the empty result. */
  method DayWithoutOrders(table: seq<Order>, rates: RateTable, promos: PromotionTable) returns (r: Response)
    requires forall k :: 0 <= k < |table| ==> table[k].createdAt.day < 737425
    modifies table
    ensures r == EmptyResponse
  {
    EarlierOrdersNotSelected(table);
    r := GenerateReport(table, rates, promos, Some(2020), Some(1), Some(1));
  }

  /** Arguments that name no date give the error result, whatever the tables hold. */
  method RejectedDates(table: seq<Order>, rates: RateTable, promos: PromotionTable) returns (leap: Response, month: Response, missing: Response)
    modifies table
    ensures leap == ErrorResponse("Invalid date entered")
    ensures month == ErrorResponse("Invalid date entered")
    ensures missing == ErrorResponse("Invalid date entered")
  {
    Calendar.ValidityExamples();
    leap := GenerateReport(table, rates, promos, Some(2019), Some(2), Some(29));
    month := GenerateReport(table, rates, promos, Some(2020), Some(13), Some(1));
    missing := GenerateReport(table, rates, promos, None, Some(1), Some(1));
  }

  /**
   * Generating the report a second time, when the first run has cached every
   * selected order's total, gives the same response.
   */
  method GenerateReportTwice(table: seq<Order>, rates: RateTable, promos: PromotionTable,
                             year: Option<int>, month: Option<int>, day: Option<int>) returns (first: Response, second: Response)
    requires CanReport(table, rates, year, month, day)
    modifies table
    ensures first == second
  {
    first := GenerateReport(table, rates, promos, year, month, day);
    second := GenerateReport(table, rates, promos, year, month, day);
  }

  /**
   * One order at 23:59:59 on 2020-01-01 by vendor 1 and customer 1, with one
   * line of ten items of product 1; vendor 1's rate that day is 0.1 and
   * product 1 is under promotion 1.
   */
  method OneOrderDay() returns (r: Response)
    ensures r == ReportResult(Report(1, 0.1, 10, 1.0, 0.1, CommissionReport(map[1 := 0.1], 0.1, 0.1)))
  {
    Calendar.FixtureOrdinal();
    var date := Calendar.Date(2020, 1, 1);
    Calendar.NextDayOrdinal(date);
    var line := OrderLine(1, "", 0, 0.0, 0.1, 10, 0, 0.1, 0.0, 1.0);
    var order := new Order(1, DateTime(737425, 86399 * 1_000_000), 1, 1, [line]);
    var rates := map[(737425, 1) := 0.1];
    var promos := map[(737425, 1) := 1];
    var table := [order];
    LastSecondSelected(order);
    OneOrderReportOf(order, line, rates, promos);
    r := GenerateReport(table, rates, promos, Some(2020), Some(1), Some(1));
  }
}
