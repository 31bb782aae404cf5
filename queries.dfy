/**
 * The three database reads of the report, over in-memory tables: the
 * orders of a day, a vendor's commission rate on a day, and a product's
 * promotion on a day. Both lookup tables have a composite primary key, so
 * each is a map from that key.
 */
module Queries {
  import opened Wrappers
  import opened Models
  import opened Calendar

  /** `commissions`: (day number, vendor id) to rate. */
  type RateTable = map<(int, int), real>

  /** `product_promotions`: (day number, product id) to promotion id. */
  type PromotionTable = map<(int, int), int>

  /** The filter of the orders query: `date <= created_at <= date + 1 day`, both ends included. */
  predicate InWindow(t: Timestamp, date: Date)
    requires IsValid(date) && date != MaxDate
  {
    AtOrBefore(Midnight(ToOrdinal(date)), t) && AtOrBefore(t, Midnight(ToOrdinal(NextDay(date))))
  }

  /** The orders of `table` that the filter keeps, in table order. */
  function Filter(table: seq<Order>, date: Date): (r: seq<Order>)
    requires IsValid(date) && date != MaxDate
    ensures |r| <= |table|
    ensures forall i :: 0 <= i < |r| ==> r[i] in table && InWindow(r[i].createdAt, date)
    ensures forall j :: 0 <= j < |table| && InWindow(table[j].createdAt, date) ==> table[j] in r
    ensures forall o {:trigger multiset(r)[o]} | o in table :: multiset(r)[o] == if InWindow(o.createdAt, date) then multiset(table)[o] else 0
  {
    if table == [] then []
    else
      var init, last := table[..|table| - 1], table[|table| - 1];
      assert table == init + [last];
      assert multiset(table) == multiset(init) + multiset{last};
      Filter(init, date) + (if InWindow(last.createdAt, date) then [last] else [])
  }

  /** `get_orders_by_date`: no orders for an absent date, otherwise the orders in the window. */
  function OrdersByDate(table: seq<Order>, date: Option<Date>): (r: seq<Order>)
    requires date.Some? ==> IsValid(date.value) && date.value != MaxDate
    ensures date.None? ==> r == []
    ensures date.Some? ==> forall i :: 0 <= i < |r| ==> r[i] in table && InWindow(r[i].createdAt, date.value)
    ensures date.Some? ==> forall j :: 0 <= j < |table| && InWindow(table[j].createdAt, date.value) ==> table[j] in r
    ensures date.Some? ==> forall o {:trigger multiset(r)[o]} | o in table ::
      multiset(r)[o] == if InWindow(o.createdAt, date.value) then multiset(table)[o] else 0
    ensures |r| <= |table|
  {
    if date.None? then [] else Filter(table, date.value)
  }

  /**
   * The window holds the whole day and the first instant of the next one: an
   * order placed exactly at the following midnight is selected as well.
   */
  lemma WindowInclusive(t: Timestamp, date: Date)
    requires IsValid(date) && date != MaxDate
    ensures InWindow(t, date) <==> t.day == ToOrdinal(date) || t == Midnight(ToOrdinal(date) + 1)
  {
    NextDayOrdinal(date);
  }

  /** An order placed at midnight falls in the windows of two consecutive days. */
  lemma MidnightInTwoWindows(date: Date)
    requires IsValid(date) && date != MaxDate && NextDay(date) != MaxDate
    ensures InWindow(Midnight(ToOrdinal(NextDay(date))), date)
    ensures InWindow(Midnight(ToOrdinal(NextDay(date))), NextDay(date))
  {
    NextDayOrdinal(date);
    NextDayOrdinal(NextDay(date));
  }

  /** `get_commission`: the rate row for a day and vendor, if there is one. */
  function GetCommission(rates: RateTable, day: int, vendorId: int): (r: Option<real>)
    ensures r.Some? <==> (day, vendorId) in rates
    ensures r.Some? ==> r.value == rates[(day, vendorId)]
  {
    if (day, vendorId) in rates then Some(rates[(day, vendorId)]) else None
  }

  /** `get_promotion`: the promotion of a product on a day, if there is one. */
  function GetPromotion(promos: PromotionTable, day: int, productId: int): (r: Option<int>)
    ensures r.Some? <==> (day, productId) in promos
    ensures r.Some? ==> r.value == promos[(day, productId)]
  {
    if (day, productId) in promos then Some(promos[(day, productId)]) else None
  }
}
