/**
 * The rows the report reads: orders with their order lines. Only the
 * cached order total is ever written, so it is the one mutable field of
 * an order; the columns are constants.
 */
module Models {
  import opened Wrappers

  const MicrosPerDay := 86_400_000_000

  /** A `datetime` as the day number of its date and the microseconds since that day's midnight. */
  datatype DateTime = DateTime(day: int, micros: int)

  /** Every `datetime` lies within its day. */
  type Timestamp = t: DateTime | 0 <= t.micros < MicrosPerDay witness DateTime(1, 0)

  /** Midnight at the start of a day, as a `date` compares against a `datetime`. */
  function Midnight(day: int): Timestamp
  {
    DateTime(day, 0)
  }

  /** `a <= b` on timestamps. */
  predicate AtOrBefore(a: Timestamp, b: Timestamp)
  {
    a.day < b.day || (a.day == b.day && a.micros <= b.micros)
  }

  /** A row of the `order_lines` table. */
  datatype OrderLine = OrderLine(
    productId: int,
    productDescription: string,
    productPrice: int,
    productVatRate: real,
    discountRate: real,
    quantity: int,
    fullPriceAmount: int,
    discountedAmount: real,
    vatAmount: real,
    totalAmount: real)

  /** A row of the `orders` table together with its order lines. */
  class Order {
    const id: int
    const createdAt: Timestamp
    const vendorId: int
    const customerId: int
    const lines: seq<OrderLine>

    /**
     * The `total_amount` attribute that the order-statistics step attaches to
     * the object; None while the attribute does not exist.
     */
    var totalAmount: Option<real>

    constructor (id: int, createdAt: Timestamp, vendorId: int, customerId: int, lines: seq<OrderLine>)
      ensures this.id == id && this.createdAt == createdAt && this.vendorId == vendorId
      ensures this.customerId == customerId && this.lines == lines
      ensures totalAmount == None
    {
      this.id := id;
      this.createdAt := createdAt;
      this.vendorId := vendorId;
      this.customerId := customerId;
      this.lines := lines;
      totalAmount := None;
    }
  }
}
