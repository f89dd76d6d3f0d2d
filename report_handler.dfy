/** The decision logic of `ReportHandler`: which query parameters are required,
    the bounds handed to the report, and the status each outcome is sent with.

    The report service is given as a function from the two bounds to a report
    or an error text; `OverDatabase` is that function when the report is the
    one `Report` defines. */
module ReportHandler {
  import opened Common
  import opened Models
  import opened Report

  /** The bounds for `start_date` and `end_date`, or `None` when either
      parameter is missing or empty. The dates are not checked for format. */
  function DateRangeBounds(startDate: string, endDate: string): (r: Option<(string, string)>)
    ensures r.None? <==> startDate == "" || endDate == ""
    ensures r.Some? ==> r.value.0 == startDate + " 00:00:00" && r.value.1 == endDate + " 23:59:59"
  {
    if startDate == "" || endDate == "" then None
    else Some((startDate + " 00:00:00", endDate + " 23:59:59"))
  }

  /** `GetSalesReportByDateRange` of the handler. */
  function GetSalesReportByDateRange(startDate: string, endDate: string,
                                     service: (string, string) -> Result<SalesReport, string>): (r: Response<SalesReport>)
    ensures r.code == 400 <==> DateRangeBounds(startDate, endDate).None?
    ensures r.code == 400 ==> r == Failed(400, "start_date and end_date query parameters are required")
    ensures r.code != 400 ==>
      var b := DateRangeBounds(startDate, endDate).value;
      match service(b.0, b.1)
      case Failure(e) => r == Failed(500, "Failed to fetch sales report: " + e)
      case Success(report) => r == Succeeded("Sales report retrieved successfully", report)
  {
    match DateRangeBounds(startDate, endDate)
    case None => Failed(400, "start_date and end_date query parameters are required")
    case Some((lo, hi)) =>
      match service(lo, hi)
      case Failure(e) => Failed(500, "Failed to fetch sales report: " + e)
      case Success(report) => Succeeded("Sales report retrieved successfully", report)
  }

  /** `GetDailySalesReport` of the handler, given the service's answer. */
  function GetDailySalesReport(outcome: Result<SalesReport, string>): (r: Response<SalesReport>)
    ensures r.code == 200 <==> outcome.Success?
    ensures outcome.Failure? ==> r == Failed(500, "Failed to fetch daily sales report: " + outcome.error)
    ensures outcome.Success? ==> r == Succeeded("Daily sales report retrieved successfully", outcome.value)
  {
    match outcome
    case Failure(e) => Failed(500, "Failed to fetch daily sales report: " + e)
    case Success(report) => Succeeded("Daily sales report retrieved successfully", report)
  }

  /** A missing date is answered before the service is asked: the response is
      the same whatever the service would have said. */
  lemma MissingDateIgnoresService(startDate: string, endDate: string,
                                  s1: (string, string) -> Result<SalesReport, string>,
                                  s2: (string, string) -> Result<SalesReport, string>)
    requires startDate == "" || endDate == ""
    ensures GetSalesReportByDateRange(startDate, endDate, s1) == GetSalesReportByDateRange(startDate, endDate, s2)
    ensures GetSalesReportByDateRange(startDate, endDate, s1).code == 400
  {
  }

  /** The error text of a failed report; the database driver's own wording is
      not modelled, only that the text names the offending bound. */
  function ReportErrorText(e: ReportError): string {
    match e
    case InvalidTimestamp(text) => "invalid timestamp: " + text
    case QueryError(message) => message
  }

  /** The report service over a database state. */
  function OverDatabase(db: ReportDb, cast: string -> Option<int>, fault: QueryFault): (string, string) -> Result<SalesReport, string> {
    (lo: string, hi: string) =>
      match SalesReportByDateRange(db, lo, hi, cast, fault)
      case Failure(e) => Failure(ReportErrorText(e))
      case Success(report) => Success(report)
  }

  /** Asking for the range from `today` to `today` covers exactly the day the
      daily report covers, and answers with the same report. */
  lemma SameDayRangeIsDailyReport(db: ReportDb, today: string, cast: string -> Option<int>, fault: QueryFault)
    requires today != ""
    requires DailySalesReport(db, today, cast, fault).Success?
    ensures GetSalesReportByDateRange(today, today, OverDatabase(db, cast, fault))
         == Succeeded("Sales report retrieved successfully", DailySalesReport(db, today, cast, fault).value)
  {
  }

  /** Over a database, a request with both dates answers 200 with the report
      from `startDate` 00:00:00 to `endDate` 23:59:59, both included (an instant
      after 23:59:59 but before midnight of `endDate` lies outside it), or 500
      with the error's text when a bound is not a timestamp or a query fails. */
  lemma RangeRequestOverDatabase(db: ReportDb, startDate: string, endDate: string, cast: string -> Option<int>, fault: QueryFault)
    requires startDate != "" && endDate != ""
    ensures var r := GetSalesReportByDateRange(startDate, endDate, OverDatabase(db, cast, fault));
      match SalesReportByDateRange(db, startDate + " 00:00:00", endDate + " 23:59:59", cast, fault)
      case Failure(e) => r == Failed(500, "Failed to fetch sales report: " + ReportErrorText(e))
      case Success(report) => r.code == 200 && r.data == Some(report)
  {
  }
}
