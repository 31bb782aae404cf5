/**
 * The results of generating a report: a populated report with its
 * commission sub-report, an error message, or an explicitly empty result.
 * Datatype values compare field by field, as the dataclasses do.
 */
module Datatypes {

  /** The commission sub-report: commission per promotion id, the total, and the average per order. */
  datatype CommissionReport = CommissionReport(
    promotions: map<int, real>,
    total: real,
    orderAverage: real)

  /** The main report, its six fields in declaration order. */
  datatype Report = Report(
    customers: int,
    totalDiscountAmount: real,
    items: int,
    orderTotalAvg: real,
    discountRateAvg: real,
    commissions: CommissionReport)

  /** The three outcomes of generating a report. */
  datatype Response =
    | ReportResult(report: Report)
    | ErrorResponse(error: string)
    | EmptyResponse

  const InvalidDateMessage := "Invalid date entered"
}
