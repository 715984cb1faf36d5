/** The expense-report document and its items. */
module ExpenseReports {
  import opened Options
  import opened Dates

  /** A `java.util.Currency`: an ISO 4217 code already resolved when the
      request was parsed. */
  datatype Currency = Currency(code: string)

  /** One expense; no validator reads its fields. */
  datatype ExpenseItem = ExpenseItem(category: Option<string>, amount: real,
                                     expenseDate: Option<Date>, description: Option<string>)

  /** The contents of an expense report at one moment; every field may be null. */
  datatype ExpenseReportData = ExpenseReportData(
    reportId: Option<string>,
    employeeId: Option<string>,
    businessPurpose: Option<string>,
    currency: Option<Currency>,
    submissionDate: Option<Date>,
    items: Option<seq<ExpenseItem>>)

  /** A mutable expense report; its getters are the field reads. */
  class ExpenseReport {
    var reportId: Option<string>
    var employeeId: Option<string>
    var businessPurpose: Option<string>
    var currency: Option<Currency>
    var submissionDate: Option<Date>
    var items: Option<seq<ExpenseItem>>

    function Data(): ExpenseReportData
      reads this
    {
      ExpenseReportData(reportId, employeeId, businessPurpose, currency, submissionDate, items)
    }

    /** Stores the six arguments as given; nothing is checked. */
    constructor (reportId: Option<string>, employeeId: Option<string>, businessPurpose: Option<string>,
                 currency: Option<Currency>, submissionDate: Option<Date>, items: Option<seq<ExpenseItem>>)
      ensures Data() == ExpenseReportData(reportId, employeeId, businessPurpose, currency, submissionDate, items)
    {
      this.reportId := reportId;
      this.employeeId := employeeId;
      this.businessPurpose := businessPurpose;
      this.currency := currency;
      this.submissionDate := submissionDate;
      this.items := items;
    }

    method SetReportId(v: Option<string>)
      modifies this`reportId
      ensures Data() == old(Data()).(reportId := v)
    {
      reportId := v;
    }

    method SetEmployeeId(v: Option<string>)
      modifies this`employeeId
      ensures Data() == old(Data()).(employeeId := v)
    {
      employeeId := v;
    }

    method SetBusinessPurpose(v: Option<string>)
      modifies this`businessPurpose
      ensures Data() == old(Data()).(businessPurpose := v)
    {
      businessPurpose := v;
    }

    method SetCurrency(v: Option<Currency>)
      modifies this`currency
      ensures Data() == old(Data()).(currency := v)
    {
      currency := v;
    }

    method SetSubmissionDate(v: Option<Date>)
      modifies this`submissionDate
      ensures Data() == old(Data()).(submissionDate := v)
    {
      submissionDate := v;
    }

    method SetItems(v: Option<seq<ExpenseItem>>)
      modifies this`items
      ensures Data() == old(Data()).(items := v)
    {
      items := v;
    }
  }
}
