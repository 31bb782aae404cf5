/**
 * The daily report as the helpers compute it: loops that collect values
 * into lists, a set and a dictionary, the cached order total written onto
 * each order, and the report assembled from the helpers' results.
 */
module Generate {
  import opened Wrappers
  import opened Sums
  import opened Models
  import opened Queries
  import opened Datatypes
  import opened ReportSpec
  import Calendar

  /** `calc_num_customers`: the distinct customer ids, and 0 for no list at all. */
  method CalcNumCustomers(orders: Option<seq<Order>>) returns (n: int)
    ensures orders.None? ==> n == 0
    ensures orders.Some? ==> n == |CustomerIds(orders.value)|
  {
    var uniqueCustomers: set<int> := {};
    if orders.None? || orders.value == [] {
      return 0;
    }
    var os := orders.value;
    for i := 0 to |os|
      invariant uniqueCustomers == CustomerIds(os[..i])
    {
      CustomerIdsStep(os[..i + 1]);
      assert os[..i + 1][..i] == os[..i];
      uniqueCustomers := uniqueCustomers + {os[i].customerId};
    }
    assert os[..|os|] == os;
    n := |uniqueCustomers|;
  }

  /** `calc_discount_stats`: the sum of the lines' discounted amounts and the mean of their discount rates. */
  method CalcDiscountStats(orders: seq<Order>) returns (totalDiscountAmount: real, discountRateAvg: real)
    ensures totalDiscountAmount == Sum(DiscountedAmounts(AllLines(orders)))
    ensures discountRateAvg == Mean(DiscountRates(AllLines(orders)))
  {
    var discountAmounts: seq<real>, discountRates: seq<real> := [], [];
    for i := 0 to |orders|
      invariant discountAmounts == DiscountedAmounts(AllLines(orders[..i]))
      invariant discountRates == DiscountRates(AllLines(orders[..i]))
    {
      var lines := orders[i].lines;
      for j := 0 to |lines|
        invariant discountAmounts == DiscountedAmounts(AllLines(orders[..i]) + lines[..j])
        invariant discountRates == DiscountRates(AllLines(orders[..i]) + lines[..j])
      {
        assert (AllLines(orders[..i]) + lines[..j + 1]) == (AllLines(orders[..i]) + lines[..j]) + [lines[j]];
        discountAmounts := discountAmounts + [lines[j].discountedAmount];
        discountRates := discountRates + [lines[j].discountRate];
      }
      assert lines[..|lines|] == lines;
      AllLinesStep(orders, i);
    }
    assert orders[..|orders|] == orders;
    totalDiscountAmount := Sum(discountAmounts);
    if |discountRates| == 0 {
      discountRateAvg := 0.0;
    } else {
      discountRateAvg := Sum(discountRates) / (|discountRates| as real);
    }
  }

  /** `calc_order_total`: 0.0 for no order, else the sum of its lines' totals. */
  method CalcOrderTotal(order: Order?) returns (orderTotal: real)
    ensures order == null ==> orderTotal == 0.0
    ensures order != null ==> orderTotal == OrderTotal(order)
  {
    orderTotal := 0.0;
    if order == null {
      return 0.0;
    }
    var lines := order.lines;
    for j := 0 to |lines|
      invariant orderTotal == Sum(LineTotals(lines[..j]))
    {
      assert LineTotals(lines[..j + 1]) == LineTotals(lines[..j]) + [lines[j].totalAmount];
      SumAppend(LineTotals(lines[..j]), lines[j].totalAmount);
      orderTotal := orderTotal + lines[j].totalAmount;
    }
    assert lines[..|lines|] == lines;
  }

  /**
   * `calc_order_stats`: the number of items and the mean order total; every
   * order gets its computed total cached, and nothing else changes.
   */
  method CalcOrderStats(orders: seq<Order>) returns (numItems: int, orderTotalAvg: real)
    modifies orders
    ensures numItems == SumInt(Quantities(AllLines(orders)))
    ensures orderTotalAvg == Mean(OrderTotals(orders))
    ensures forall k :: 0 <= k < |orders| ==> orders[k].totalAmount == Some(OrderTotal(orders[k]))
  {
    var items: seq<int>, orderTotals: seq<real> := [], [];
    for i := 0 to |orders|
      invariant items == Quantities(AllLines(orders[..i]))
      invariant orderTotals == OrderTotals(orders[..i])
      invariant forall k :: 0 <= k < i ==> orders[k].totalAmount == Some(OrderTotal(orders[k]))
    {
      var order := orders[i];
      var orderTotal := CalcOrderTotal(order);
      order.totalAmount := Some(orderTotal);
      orderTotals := orderTotals + [orderTotal];

      var lines := order.lines;
      for j := 0 to |lines|
        invariant items == Quantities(AllLines(orders[..i]) + lines[..j])
      {
        assert (AllLines(orders[..i]) + lines[..j + 1]) == (AllLines(orders[..i]) + lines[..j]) + [lines[j]];
        items := items + [lines[j].quantity];
      }
      assert lines[..|lines|] == lines;
      AllLinesStep(orders, i);
      assert OrderTotals(orders[..i + 1]) == OrderTotals(orders[..i]) + [OrderTotal(orders[i])];
    }
    assert orders[..|orders|] == orders;
    numItems := SumInt(items);
    if |orderTotals| == 0 {
      orderTotalAvg := 0.0;
    } else {
      orderTotalAvg := Sum(orderTotals) / (|orderTotals| as real);
    }
  }

  /**
   * `calc_commission_stats`: each order's total (cached if present) times its
   * vendor's rate on its day, summed and averaged over the orders.
   */
  method CalcCommissionStats(orders: seq<Order>, rates: RateTable) returns (totalCommission: real, orderAverageCommission: real)
    requires RatesCover(orders, rates)
    ensures totalCommission == Sum(CachedCommissions(orders, rates))
    ensures orderAverageCommission == Mean(CachedCommissions(orders, rates))
  {
    var commissionAmounts: seq<real> := [];
    assert RatesCover(orders[..0], rates);
    for i := 0 to |orders|
      invariant RatesCover(orders[..i], rates)
      invariant commissionAmounts == CachedCommissions(orders[..i], rates)
    {
      var order := orders[i];
      var day := order.createdAt.day;
      var orderTotal: real;
      if order.totalAmount.Some? {
        orderTotal := order.totalAmount.value;
      } else {
        orderTotal := CalcOrderTotal(order);
      }
      var commission := GetCommission(rates, day, order.vendorId);
      var commissionRate := commission.value;
      CachedCommissionsStep(orders, rates, i);
      assert orderTotal * commissionRate == CachedCommission(order, rates);
      commissionAmounts := commissionAmounts + [orderTotal * commissionRate];
    }
    assert orders[..|orders|] == orders;
    totalCommission := Sum(commissionAmounts);
    if |commissionAmounts| == 0 {
      orderAverageCommission := 0.0;
    } else {
      orderAverageCommission := totalCommission / (|commissionAmounts| as real);
    }
  }

  /**
   * `calc_promo_commissions`: a promotion id is a key exactly when a line of
   * some order has a product promoted under it on the order's day, and its
   * value sums those lines' commissions.
   */
  method CalcPromoCommissions(orders: seq<Order>, rates: RateTable, promos: PromotionTable) returns (promotions: map<int, real>)
    requires RatesCover(orders, rates)
    ensures promotions == PromoCommissions(orders, rates, promos)
    ensures promotions.Keys == PromotedIds(orders, promos)
    ensures forall p :: p in promotions ==> promotions[p] == Sum(AmountsFor(Contributions(orders, rates, promos), p))
  {
    promotions := map[];
    assert RatesCover(orders[..0], rates);
    for i := 0 to |orders|
      invariant RatesCover(orders[..i], rates)
      invariant promotions == Accumulate(Contributions(orders[..i], rates, promos))
    {
      var order := orders[i];
      var day := order.createdAt.day;
      var commission := GetCommission(rates, day, order.vendorId);
      var commissionRate := commission.value;
      ghost var done := Contributions(orders[..i], rates, promos);

      var lines := order.lines;
      assert lines[..0] == [] && done + [] == done;
      for j := 0 to |lines|
        invariant promotions == Accumulate(done + LineContributions(day, commissionRate, lines[..j], promos))
      {
        var promotion := GetPromotion(promos, day, lines[j].productId);
        AccumulateLineUpdate(done, day, commissionRate, lines, j, promos);
        if promotion.Some? {
          var promotionId := promotion.value;
          var commissionAmount := LineCommission(commissionRate, lines[j]);
          if promotionId in promotions {
            promotions := promotions[promotionId := promotions[promotionId] + commissionAmount];
          } else {
            promotions := promotions[promotionId := commissionAmount];
          }
        }
      }
      assert lines[..|lines|] == lines;
      ContributionsStep(orders, rates, promos, i);
    }
    assert orders[..|orders|] == orders;
    PromoCommissionsMeaning(orders, rates, promos);
  }

  /**
   * `generate_report`: an error for arguments that name no date, an empty
   * result for a date without orders, and otherwise the report of that day's
   * orders; the selected orders end up with their totals cached.
   */
  method GenerateReport(table: seq<Order>, rates: RateTable, promos: PromotionTable,
                        year: Option<int>, month: Option<int>, day: Option<int>) returns (r: Response)
    requires CanReport(table, rates, year, month, day)
    modifies table
    ensures r == ResponseFor(table, rates, promos, year, month, day)
    ensures var selected := OrdersByDate(table, Calendar.MakeDate(year, month, day));
      forall k :: 0 <= k < |selected| ==> selected[k].totalAmount == Some(OrderTotal(selected[k]))
    ensures var selected := OrdersByDate(table, Calendar.MakeDate(year, month, day));
      forall o :: o in table && o !in selected ==> o.totalAmount == old(o.totalAmount)
  {
    var date := Calendar.MakeDate(year, month, day);
    if date.None? {
      return ErrorResponse(InvalidDateMessage);
    }
    var orders := OrdersByDate(table, date);
    if orders == [] {
      return EmptyResponse;
    }
    var numCustomers := CalcNumCustomers(Some(orders));
    var totalDiscountAmount, discountRateAvg := CalcDiscountStats(orders);
    var numItems, orderTotalAvg := CalcOrderStats(orders);
    var totalCommission, orderAverageCommission := CalcCommissionStats(orders, rates);
    CachedMatchesComputed(orders, rates);
    var promotionCommissions := CalcPromoCommissions(orders, rates, promos);
    var commissions := CommissionReport(promotionCommissions, totalCommission, orderAverageCommission);
    r := ReportResult(Report(numCustomers, totalDiscountAmount, numItems, orderTotalAvg, discountRateAvg, commissions));
  }
}
