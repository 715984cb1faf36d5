/** `ExpenseReportValidator`: six presence and date rules. */
module ExpenseReportValidator {
  import opened Options
  import opened Strings
  import opened Dates
  import opened ErrorLists
  import opened ExpenseReports

  /** One code per message the validator can emit. */
  datatype ExpenseReportError =
    | ReportIdEmpty
    | EmployeeIdEmpty
    | BusinessPurposeEmpty
    | CurrencyNull
    | SubmissionDateNull
    | SubmissionDateInFuture
    | ItemsNull

  function Message(e: ExpenseReportError): string {
    match e
    case ReportIdEmpty => "Report ID must not be empty"
    case EmployeeIdEmpty => "Employee ID must not be empty"
    case BusinessPurposeEmpty => "Business purpose must not be empty"
    case CurrencyNull => "Currency must not be null"
    case SubmissionDateNull => "Submission date must not be null"
    case SubmissionDateInFuture => "Submission date must not be in the future"
    case ItemsNull => "Items must not be null"
  }

  /** The errors of a report validated on `today`, check by check in source
      order. The date check is an `if`/`else if`: the future-date test is
      made only on a present date. */
  function Errors(r: ExpenseReportData, today: Date): seq<string> {
    var reportId := AddIf([], IsNullOrBlank(r.reportId), Message(ReportIdEmpty));
    var employeeId := AddIf(reportId, IsNullOrBlank(r.employeeId), Message(EmployeeIdEmpty));
    var purpose := AddIf(employeeId, IsNullOrBlank(r.businessPurpose), Message(BusinessPurposeEmpty));
    var currency := AddIf(purpose, r.currency.None?, Message(CurrencyNull));
    var dateNull := AddIf(currency, r.submissionDate.None?, Message(SubmissionDateNull));
    var date := AddIf(dateNull, r.submissionDate.Some? && IsAfter(r.submissionDate.value, today), Message(SubmissionDateInFuture));
    AddIf(date, r.items.None?, Message(ItemsNull))
  }

  /** `Errors` is the checks applied one after another to the results of
      the ones before. */
  lemma ErrorsByCheck(r: ExpenseReportData, today: Date, reportId: seq<string>, employeeId: seq<string>,
                      purpose: seq<string>, currency: seq<string>, dateNull: seq<string>, date: seq<string>,
                      items: seq<string>)
    requires reportId == AddIf([], IsNullOrBlank(r.reportId), Message(ReportIdEmpty))
    requires employeeId == AddIf(reportId, IsNullOrBlank(r.employeeId), Message(EmployeeIdEmpty))
    requires purpose == AddIf(employeeId, IsNullOrBlank(r.businessPurpose), Message(BusinessPurposeEmpty))
    requires currency == AddIf(purpose, r.currency.None?, Message(CurrencyNull))
    requires dateNull == AddIf(currency, r.submissionDate.None?, Message(SubmissionDateNull))
    requires date == AddIf(dateNull, r.submissionDate.Some? && IsAfter(r.submissionDate.value, today),
                           Message(SubmissionDateInFuture))
    requires items == AddIf(date, r.items.None?, Message(ItemsNull))
    ensures items == Errors(r, today)
  {
  }

  /** `validate(report)`, with `LocalDate.now()` passed in as `today`. */
  method Validate(report: ExpenseReport, today: Date) returns (errors: seq<string>)
    ensures errors == Errors(report.Data(), today)
  {
    ghost var r := report.Data();
    errors := [];
    if report.reportId.None? || IsBlank(report.reportId.value) {
      errors := errors + [Message(ReportIdEmpty)];
    }
    ghost var reportId := errors;
    if report.employeeId.None? || IsBlank(report.employeeId.value) {
      errors := errors + [Message(EmployeeIdEmpty)];
    }
    ghost var employeeId := errors;
    if report.businessPurpose.None? || IsBlank(report.businessPurpose.value) {
      errors := errors + [Message(BusinessPurposeEmpty)];
    }
    ghost var purpose := errors;
    if report.currency.None? {
      errors := errors + [Message(CurrencyNull)];
    }
    ghost var currency := errors;
    ghost var dateNull := AddIf(currency, report.submissionDate.None?, Message(SubmissionDateNull));
    if report.submissionDate.None? {
      errors := errors + [Message(SubmissionDateNull)];
    } else if IsAfter(report.submissionDate.value, today) {
      errors := errors + [Message(SubmissionDateInFuture)];
    }
    ghost var date := errors;
    if report.items.None? {
      errors := errors + [Message(ItemsNull)];
    }
    ErrorsByCheck(r, today, reportId, employeeId, purpose, currency, dateNull, date, errors);
  }
}

/** What `ExpenseReportValidator.validate` promises. The properties are
    proved on a second description of the validator: which of its seven
    tests fail (`Failed`), and the codes of the failing tests in source
    order (`Report`). `ErrorsAreReport` ties it to `Errors`. */
module ExpenseReportValidatorProperties {
  import opened Options
  import opened Strings
  import opened Dates
  import opened ErrorLists
  import opened ExpenseReports
  import opened ExpenseReportValidator

  /** Reads the code back from a message: the seven messages have seven
      different lengths. */
  function Decode(m: string): ExpenseReportError {
    if |m| == 27 then ReportIdEmpty
    else if |m| == 29 then EmployeeIdEmpty
    else if |m| == 34 then BusinessPurposeEmpty
    else if |m| == 25 then CurrencyNull
    else if |m| == 32 then SubmissionDateNull
    else if |m| == 41 then SubmissionDateInFuture
    else ItemsNull
  }

  lemma DecodeMessage(e: ExpenseReportError)
    ensures Decode(Message(e)) == e
  {
  }

  /** Different codes have different message strings. */
  lemma MessageInjective()
    ensures Injective(Message)
  {
    forall a, b | Message(a) == Message(b) ensures a == b {
      DecodeMessage(a);
      DecodeMessage(b);
    }
  }

  /** The position of each test in `validate`. */
  function Rank(e: ExpenseReportError): nat {
    match e
    case ReportIdEmpty => 0
    case EmployeeIdEmpty => 1
    case BusinessPurposeEmpty => 2
    case CurrencyNull => 3
    case SubmissionDateNull => 4
    case SubmissionDateInFuture => 5
    case ItemsNull => 6
  }

  /** Which of the seven tests fail. */
  datatype Checks = Checks(
    reportIdBlank: bool, employeeIdBlank: bool, purposeBlank: bool, currencyNull: bool,
    dateNull: bool, dateInFuture: bool, itemsNull: bool)

  /** The tests of `validate` on a report and a date. */
  function Failed(r: ExpenseReportData, today: Date): (f: Checks)
    ensures !(f.dateNull && f.dateInFuture)
  {
    Checks(IsNullOrBlank(r.reportId), IsNullOrBlank(r.employeeId), IsNullOrBlank(r.businessPurpose),
           r.currency.None?, r.submissionDate.None?,
           r.submissionDate.Some? && IsAfter(r.submissionDate.value, today), r.items.None?)
  }

  /** The codes of the failing tests, in source order. */
  function Report(f: Checks): seq<ExpenseReportError> {
    var first := AddIf(AddIf(AddIf(AddIf([], f.reportIdBlank, ReportIdEmpty), f.employeeIdBlank, EmployeeIdEmpty),
                             f.purposeBlank, BusinessPurposeEmpty), f.currencyNull, CurrencyNull);
    AddIf(AddIf(AddIf(first, f.dateNull, SubmissionDateNull), f.dateInFuture, SubmissionDateInFuture), f.itemsNull, ItemsNull)
  }

  /** The validator's errors are the messages of the failing tests' codes. */
  lemma ErrorsAreReport(r: ExpenseReportData, today: Date)
    ensures Errors(r, today) == Render(Report(Failed(r, today)), Message)
  {
    var f := Failed(r, today);
    var first := AddIf(AddIf(AddIf(AddIf([], f.reportIdBlank, ReportIdEmpty), f.employeeIdBlank, EmployeeIdEmpty),
                             f.purposeBlank, BusinessPurposeEmpty), f.currencyNull, CurrencyNull);
    RenderFour([], Message, f.reportIdBlank, ReportIdEmpty, f.employeeIdBlank, EmployeeIdEmpty,
               f.purposeBlank, BusinessPurposeEmpty, f.currencyNull, CurrencyNull);
    RenderThree(first, Message, f.dateNull, SubmissionDateNull, f.dateInFuture, SubmissionDateInFuture,
                f.itemsNull, ItemsNull);
  }

  /** Each code occurs once for each failing test that has it. */
  lemma ReportCount(f: Checks, x: ExpenseReportError)
    ensures multiset(Report(f))[x]
            == Hit(f.reportIdBlank, ReportIdEmpty, x) + Hit(f.employeeIdBlank, EmployeeIdEmpty, x)
             + Hit(f.purposeBlank, BusinessPurposeEmpty, x) + Hit(f.currencyNull, CurrencyNull, x)
             + Hit(f.dateNull, SubmissionDateNull, x) + Hit(f.dateInFuture, SubmissionDateInFuture, x)
             + Hit(f.itemsNull, ItemsNull, x)
  {
    var first := AddIf(AddIf(AddIf(AddIf([], f.reportIdBlank, ReportIdEmpty), f.employeeIdBlank, EmployeeIdEmpty),
                             f.purposeBlank, BusinessPurposeEmpty), f.currencyNull, CurrencyNull);
    CountFour([], x, f.reportIdBlank, ReportIdEmpty, f.employeeIdBlank, EmployeeIdEmpty,
              f.purposeBlank, BusinessPurposeEmpty, f.currencyNull, CurrencyNull);
    CountThree(first, x, f.dateNull, SubmissionDateNull, f.dateInFuture, SubmissionDateInFuture, f.itemsNull, ItemsNull);
  }

  /** The codes come in the order of the tests. */
  lemma ReportOrdered(f: Checks)
    ensures Ordered(Report(f), Rank)
  {
    var first := AddIf(AddIf(AddIf(AddIf([], f.reportIdBlank, ReportIdEmpty), f.employeeIdBlank, EmployeeIdEmpty),
                             f.purposeBlank, BusinessPurposeEmpty), f.currencyNull, CurrencyNull);
    OrderedFour([], Rank, 0, f.reportIdBlank, ReportIdEmpty, f.employeeIdBlank, EmployeeIdEmpty,
                f.purposeBlank, BusinessPurposeEmpty, f.currencyNull, CurrencyNull);
    OrderedThree(first, Rank, Rank(CurrencyNull), f.dateNull, SubmissionDateNull, f.dateInFuture, SubmissionDateInFuture,
                 f.itemsNull, ItemsNull);
  }

  /** At most one date test fails, so there are at most six codes. */
  lemma ReportLength(f: Checks)
    requires !(f.dateNull && f.dateInFuture)
    ensures |Report(f)| <= 6
  {
  }

  /** A message occurs in the errors as often as its code in the report. */
  lemma MessageCount(r: ExpenseReportData, today: Date, e: ExpenseReportError)
    ensures multiset(Errors(r, today))[Message(e)] == multiset(Report(Failed(r, today)))[e]
  {
    ErrorsAreReport(r, today);
    MessageInjective();
    RenderCount(Report(Failed(r, today)), Message, e);
  }

  /** The errors are messages of codes listed in source order, and there
      are at most six of them. */
  lemma ErrorsInSourceOrder(r: ExpenseReportData, today: Date)
    ensures Errors(r, today) == Render(Report(Failed(r, today)), Message)
    ensures Ordered(Report(Failed(r, today)), Rank)
    ensures |Errors(r, today)| <= 6
  {
    ErrorsAreReport(r, today);
    ReportOrdered(Failed(r, today));
    ReportLength(Failed(r, today));
  }

  /** No code is reported exactly when no test fails. */
  lemma ReportEmptyIff(f: Checks)
    ensures Report(f) == []
            <==> !f.reportIdBlank && !f.employeeIdBlank && !f.purposeBlank && !f.currencyNull
                 && !f.dateNull && !f.dateInFuture && !f.itemsNull
  {
  }

  /** A report passes exactly when its three texts are not blank, its
      currency, date and items are present and the date is not after
      `today`. */
  lemma PassesIff(r: ExpenseReportData, today: Date)
    ensures Errors(r, today) == []
            <==> !IsNullOrBlank(r.reportId) && !IsNullOrBlank(r.employeeId) && !IsNullOrBlank(r.businessPurpose)
                 && r.currency.Some? && r.submissionDate.Some? && !IsAfter(r.submissionDate.value, today)
                 && r.items.Some?
  {
    ErrorsAreReport(r, today);
    ReportEmptyIff(Failed(r, today));
  }

  /** A null or blank report ID is reported once, and otherwise not at all. */
  lemma ReportIdRule(r: ExpenseReportData, today: Date)
    ensures multiset(Errors(r, today))[Message(ReportIdEmpty)] == if IsNullOrBlank(r.reportId) then 1 else 0
  {
    MessageCount(r, today, ReportIdEmpty);
    ReportCount(Failed(r, today), ReportIdEmpty);
  }

  /** The same for the employee ID. */
  lemma EmployeeIdRule(r: ExpenseReportData, today: Date)
    ensures multiset(Errors(r, today))[Message(EmployeeIdEmpty)] == if IsNullOrBlank(r.employeeId) then 1 else 0
  {
    MessageCount(r, today, EmployeeIdEmpty);
    ReportCount(Failed(r, today), EmployeeIdEmpty);
  }

  /** The same for the business purpose. */
  lemma BusinessPurposeRule(r: ExpenseReportData, today: Date)
    ensures multiset(Errors(r, today))[Message(BusinessPurposeEmpty)] == if IsNullOrBlank(r.businessPurpose) then 1 else 0
  {
    MessageCount(r, today, BusinessPurposeEmpty);
    ReportCount(Failed(r, today), BusinessPurposeEmpty);
  }

  /** Only a null currency is reported. */
  lemma CurrencyRule(r: ExpenseReportData, today: Date)
    ensures multiset(Errors(r, today))[Message(CurrencyNull)] == if r.currency.None? then 1 else 0
  {
    MessageCount(r, today, CurrencyNull);
    ReportCount(Failed(r, today), CurrencyNull);
  }

  /** Which currency a report has never matters. */
  lemma CurrencyNotChecked(r: ExpenseReportData, today: Date, c: Currency, c': Currency)
    ensures Errors(r.(currency := Some(c)), today) == Errors(r.(currency := Some(c')), today)
  {
  }

  /** A null submission date is reported once. */
  lemma SubmissionDateNullRule(r: ExpenseReportData, today: Date)
    ensures multiset(Errors(r, today))[Message(SubmissionDateNull)] == if r.submissionDate.None? then 1 else 0
  {
    MessageCount(r, today, SubmissionDateNull);
    ReportCount(Failed(r, today), SubmissionDateNull);
  }

  /** A present submission date strictly after `today` is reported once. */
  lemma SubmissionDateFutureRule(r: ExpenseReportData, today: Date)
    ensures multiset(Errors(r, today))[Message(SubmissionDateInFuture)]
            == if r.submissionDate.Some? && IsAfter(r.submissionDate.value, today) then 1 else 0
  {
    MessageCount(r, today, SubmissionDateInFuture);
    ReportCount(Failed(r, today), SubmissionDateInFuture);
  }

  /** At most one of the two date messages appears, and a report dated
      `today` gets neither. */
  lemma SubmissionDateAtMostOne(r: ExpenseReportData, today: Date)
    ensures multiset(Errors(r, today))[Message(SubmissionDateNull)]
            + multiset(Errors(r, today))[Message(SubmissionDateInFuture)] <= 1
    ensures r.submissionDate == Some(today)
            ==> (multiset(Errors(r, today))[Message(SubmissionDateNull)]
                 + multiset(Errors(r, today))[Message(SubmissionDateInFuture)] == 0)
  {
    SubmissionDateNullRule(r, today);
    SubmissionDateFutureRule(r, today);
    IsAfterStrictTotalOrder(today, today, today);
  }

  /** Only a null item list is reported; an empty list passes. */
  lemma ItemsRule(r: ExpenseReportData, today: Date)
    ensures multiset(Errors(r, today))[Message(ItemsNull)] == if r.items.None? then 1 else 0
  {
    MessageCount(r, today, ItemsNull);
    ReportCount(Failed(r, today), ItemsNull);
  }

  /** The items' contents never affect the result. */
  lemma ItemsNotInspected(r: ExpenseReportData, today: Date, items: seq<ExpenseItem>, items': seq<ExpenseItem>)
    ensures Errors(r.(items := Some(items)), today) == Errors(r.(items := Some(items')), today)
  {
  }

  /** A request body `{}` leaves every field null: the six presence messages. */
  lemma AllFieldsNull(today: Date)
    ensures Errors(ExpenseReportData(None, None, None, None, None, None), today)
            == [Message(ReportIdEmpty), Message(EmployeeIdEmpty),
                Message(BusinessPurposeEmpty), Message(CurrencyNull),
                Message(SubmissionDateNull), Message(ItemsNull)]
  {
  }

  /** The report the tests start from (its items are never looked at). */
  const ValidReport := ExpenseReportData(
    Some("ER2025-0001"), Some("EMP12345"), Some("Client meeting in Stockholm"),
    Some(Currency("EUR")), Some(Date(2025, 6, 16)), Some([]))

  /** Its three texts are not blank. */
  lemma ValidReportTexts()
    ensures !IsNullOrBlank(ValidReport.reportId) && !IsNullOrBlank(ValidReport.employeeId)
    ensures !IsNullOrBlank(ValidReport.businessPurpose)
  {
    assert !IsWhitespace(ValidReport.reportId.value[0]) && !IsWhitespace(ValidReport.employeeId.value[0]);
    assert !IsWhitespace(ValidReport.businessPurpose.value[0]);
  }

  lemma ValidReportPasses(today: Date, items: seq<ExpenseItem>)
    requires !IsAfter(Date(2025, 6, 16), today)
    ensures Errors(ValidReport.(items := Some(items)), today) == []
  {
    ValidReportTexts();
  }

  /** The single-field tests on the three texts, each giving exactly its own
      error. */
  lemma TextFieldExamples(today: Date)
    requires !IsAfter(Date(2025, 6, 16), today)
    ensures Errors(ValidReport.(reportId := Some("")), today) == [Message(ReportIdEmpty)]
    ensures Errors(ValidReport.(employeeId := None), today) == [Message(EmployeeIdEmpty)]
    ensures Errors(ValidReport.(businessPurpose := Some("  ")), today) == [Message(BusinessPurposeEmpty)]
  {
    ValidReportTexts();
  }

  /** The single-field tests on the currency, the date and the items, each
      giving exactly its own error. */
  lemma OtherFieldExamples(today: Date)
    requires !IsAfter(Date(2025, 6, 16), today) && IsAfter(Date(4000, 12, 26), today)
    ensures Errors(ValidReport.(currency := None), today) == [Message(CurrencyNull)]
    ensures Errors(ValidReport.(submissionDate := None), today) == [Message(SubmissionDateNull)]
    ensures Errors(ValidReport.(submissionDate := Some(Date(4000, 12, 26))), today)
            == [Message(SubmissionDateInFuture)]
    ensures Errors(ValidReport.(items := None), today) == [Message(ItemsNull)]
  {
    ValidReportTexts();
  }

  /** The object-level test: build the valid report, drop its items, validate. */
  method NullItemsScenario(today: Date) returns (errors: seq<string>)
    requires !IsAfter(Date(2025, 6, 16), today)
    ensures errors == [Message(ItemsNull)]
  {
    var report := new ExpenseReport(Some("ER2025-0001"), Some("EMP12345"), Some("Client meeting in Stockholm"),
                                    Some(Currency("EUR")), Some(Date(2025, 6, 16)), Some([]));
    report.SetItems(None);
    errors := Validate(report, today);
    assert report.Data() == ValidReport.(items := None);
    ValidReportTexts();
  }

  /** `ExpenseReportController.validateExpenseReport`: the response succeeds exactly when the report
      passes every rule, and a failure carries the errors. */
  lemma ExpenseReportResponse(r: ExpenseReportData, today: Date)
    ensures Respond(Errors(r, today), "Expense report is valid").success
            <==> !IsNullOrBlank(r.reportId) && !IsNullOrBlank(r.employeeId) && !IsNullOrBlank(r.businessPurpose)
                 && r.currency.Some? && r.submissionDate.Some? && !IsAfter(r.submissionDate.value, today)
                 && r.items.Some?
    ensures !Respond(Errors(r, today), "Expense report is valid").success
            ==> Respond(Errors(r, today), "Expense report is valid").messages == Errors(r, today)
  {
    PassesIff(r, today);
  }
}
