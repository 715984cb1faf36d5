# fincheck validators in Dafny

A model of the three validators of the fincheck service and of the
mutable documents they read. The validators are `PayslipValidator`,
`InvoiceValidator` and `ExpenseReportValidator`; the documents are
`Payslip`, `Invoice` and `ExpenseReport`. Each validator returns the
list of error messages for a document, and an empty list means the
document is valid.

Layout:

- `options.dfy`: nullable references (`Option`), and how string
  concatenation renders them.
- `strings.dfy`: the two different "blank" tests, `trim().isEmpty()` and
  `isBlank()`.
- `dates.dfy`: `LocalDate.isAfter` and the `YYYY-MM` form that
  `YearMonth.parse` accepts (ISO 8601:2004 section 4.1.2.3 a).
- `error_lists.dfy`: lists built by conditional appends, counting and
  ordering lemmas over them, and the controllers' response.
- `tallies.dfy`: rearrangements of lists and order-free totals.
- `payslip.dfy`, `invoice.dfy`, `expense_report.dfy`: the documents as
  classes with one setter per field. `Data()` gives a document's current
  contents as a value.
- `payslip_validator.dfy`, `invoice_validator.dfy`,
  `expense_report_validator.dfy`: each validator in two modules.
  - The first holds the error codes and their messages, and `Errors`, the
    list of messages as a function.
  - It also holds `Validate`, the imperative method that appends to a
    local list exactly as `validate` does. It is proved equal to `Errors`.
  - The second module states what the validator promises. `Failed` gives
    which tests fail, and `Report` gives the codes of the failing tests in
    check order. `ErrorsAreReport` ties the two to `Errors`. On top of that
    sit the per-rule counts, the ordering, the "passes iff" lemma and the
    examples from the tests.

Where the code and its own tests disagree, the model follows the code:

- The payslip salary check emits one "Salary must be positive" when
  either salary is at most zero. There is no separate gross or net
  message and no "must not be empty" message. The salaries are primitive
  `double`s, so they can never be absent.
- The payslip tests expect the separate messages, and they build
  payslips with an eleven-argument constructor that `Payslip` does not
  have. The model's payslip has only the implicit no-argument constructor.
  Its examples start from the same field values, set one at a time.

The table below lists the members whose contracts state something. The
definitions they are about have no contract of their own; each is pinned
down by the lemmas named beside it:

- `PayslipValidator.Errors` (`src/main/java/com/financials/fincheck/validator/PayslipValidator.java:30-118`):
  `PayslipValidatorProperties.ErrorsAreReport`, `PassesIff`, the rule
  lemmas, and `PayslipValidator.Validate`, which is proved equal to it.
- `PayslipValidator.Message` (`src/main/java/com/financials/fincheck/validator/PayslipValidator.java:34-114`):
  `PayslipValidatorProperties.DecodeMessage` and `MessageInjective`.
- `PayslipValidator.IsIbanShaped` (`src/main/java/com/financials/fincheck/validator/PayslipValidator.java:102-103`):
  `PayslipValidatorProperties.IbanExamples` and `BankAccountFormatRule`.
- `InvoiceValidator.Errors` (`src/main/java/com/financials/fincheck/validator/InvoiceValidator.java:31-49`):
  `InvoiceValidatorProperties.ErrorsAreReport`, `PassesIff`, the rule lemmas
  and `InvoiceValidator.Validate`.
- `InvoiceValidator.Message` (`src/main/java/com/financials/fincheck/validator/InvoiceValidator.java:35-46`):
  `InvoiceValidatorProperties.MessageInjective`.
- `InvoiceValidator.IsValidCurrency` (`src/main/java/com/financials/fincheck/validator/InvoiceValidator.java:23`
  and `:40`): `InvoiceValidatorProperties.CurrencyRule` and
  `UnlistedCurrency`.
- `ExpenseReportValidator.Errors` (`src/main/java/com/financials/fincheck/validator/ExpenseReportValidator.java:10-40`):
  `ExpenseReportValidatorProperties.ErrorsAreReport`, `PassesIff`, the rule
  lemmas and `ExpenseReportValidator.Validate`.
- `ExpenseReportValidator.Message` (`src/main/java/com/financials/fincheck/validator/ExpenseReportValidator.java:13-37`):
  `ExpenseReportValidatorProperties.DecodeMessage` and `MessageInjective`.
- `Strings.IsBlank` (`src/main/java/com/financials/fincheck/validator/PayslipValidator.java:46`): `Strings.IsBlankIff`.
- `Strings.Trim` (`src/main/java/com/financials/fincheck/validator/PayslipValidator.java:37`): `Strings.TrimStart`,
  `Strings.TrimEnd` and `Strings.TrimEmptyIff`.
- `Dates.IsAfter` (`src/main/java/com/financials/fincheck/validator/PayslipValidator.java:58`):
  `Dates.IsAfterStrictTotalOrder`.

## Model

| member | source | states |
|---|---|---|
| Strings.IsBlankIff | src/main/java/com/financials/fincheck/validator/PayslipValidator.java:46 | `isBlank()` holds exactly when every character is `Character.isWhitespace`; so "" is blank |
| Strings.TrimStart | src/main/java/com/financials/fincheck/validator/PayslipValidator.java:37 | the leading part of `trim()`: the result is a suffix of the input, every dropped character is at most U+0020, and the result does not start with one |
| Strings.TrimEnd | src/main/java/com/financials/fincheck/validator/PayslipValidator.java:37 | the trailing part of `trim()`: the result is a prefix, every dropped character is at most U+0020, and the result does not end with one |
| Strings.TrimEmptyIff | src/main/java/com/financials/fincheck/validator/PayslipValidator.java:37 | `trim().isEmpty()` holds exactly when every character is at most U+0020 |
| Strings.NulIsTrimmedNotBlank | src/main/java/com/financials/fincheck/validator/PayslipValidator.java:37-46 | the two blank tests differ: U+0000 is trim-empty but not `isBlank` |
| Strings.IdeographicSpaceIsBlankNotTrimmed | src/main/java/com/financials/fincheck/validator/PayslipValidator.java:37-46 | the two blank tests differ the other way: U+3000 is `isBlank` but not trim-empty |
| Strings.BlankTestsAgreeOnSpaces | src/test/java/com/financials/fincheck/validator/ExpenseReportValidatorTest.java:72-76 | text made of spaces, tabs and line breaks (such as "  ") fails both blank tests |
| Options.Show | src/main/java/com/financials/fincheck/validator/InvoiceValidator.java:41 | the text that concatenation inserts for a String reference is "null" exactly for a null reference and for the string "null" |
| Options.ShowConflatesNull | src/main/java/com/financials/fincheck/validator/InvoiceValidator.java:41 | a null currency and the currency "null" produce the same message text |
| Options.ShowInjective | src/main/java/com/financials/fincheck/validator/InvoiceValidator.java:41 | two references give the same text exactly when they are equal or are null and "null"; so the currency message names the currency, up to that one collision |
| Dates.IsAfterStrictTotalOrder | src/main/java/com/financials/fincheck/validator/PayslipValidator.java:58 | `isAfter` is irreflexive, asymmetric, transitive and total on (year, month, day), so a date is never after itself |
| Dates.ParseYearMonth | src/main/java/com/financials/fincheck/validator/PayslipValidator.java:50 | the model's parse succeeds only with a four-digit year (0..9999) and a month in 1..12, a subset of what `YearMonth.parse` accepts (see Left out) |
| Dates.FormatYearMonth | src/main/java/com/financials/fincheck/validator/PayslipValidator.java:50 | the `YYYY-MM` text of a four-digit year-month has seven characters with a hyphen at index 4 |
| Dates.ParseFormat | src/main/java/com/financials/fincheck/validator/PayslipValidator.java:50 | the text of every four-digit year-month parses back to it |
| Dates.FormatParse | src/main/java/com/financials/fincheck/validator/PayslipValidator.java:50 | every text that parses is the text of its result, so accepted texts and year-months correspond one to one |
| Dates.ParseYearMonthExamples | src/test/java/com/financials/fincheck/validator/PayslipValidatorTest.java:97-102 | "2025-05" parses; "dfsasd", "invalid-date", "2025-13" and "2025-5" do not |
| ErrorLists.Respond | src/main/java/com/financials/fincheck/controller/InvoiceController.java:48-54 | success exactly when there are no errors, and the message list is never empty; a success carries the one confirmation message and a failure the errors unchanged; the same mapping is in PayslipController.java:48-54 and ExpenseReportController.java:27-33 |
| Payslips.Payslip.constructor | src/main/java/com/financials/fincheck/model/Payslip.java:12-69 | the implicit default constructor: every reference field null, both salaries 0.0, hours 0 |
| Payslips.Payslip.SetEmployeeId | src/main/java/com/financials/fincheck/model/Payslip.java:75-77 | the employee ID becomes `v`; the other ten fields are unchanged |
| Payslips.Payslip.SetEmployeeName | src/main/java/com/financials/fincheck/model/Payslip.java:83-85 | the employee name becomes `v`; the other fields are unchanged |
| Payslips.Payslip.SetPayPeriod | src/main/java/com/financials/fincheck/model/Payslip.java:91-93 | the pay period becomes `v`; the other fields are unchanged |
| Payslips.Payslip.SetPaymentDate | src/main/java/com/financials/fincheck/model/Payslip.java:99-101 | the payment date becomes `v`; the other fields are unchanged |
| Payslips.Payslip.SetGrossSalary | src/main/java/com/financials/fincheck/model/Payslip.java:107-109 | the gross salary becomes `v`; the other fields are unchanged |
| Payslips.Payslip.SetNetSalary | src/main/java/com/financials/fincheck/model/Payslip.java:115-117 | the net salary becomes `v`; the other fields are unchanged |
| Payslips.Payslip.SetDeductions | src/main/java/com/financials/fincheck/model/Payslip.java:123-125 | the deductions map becomes `v`; the other fields are unchanged |
| Payslips.Payslip.SetPaymentMethod | src/main/java/com/financials/fincheck/model/Payslip.java:131-133 | the payment method becomes `v`; the other fields are unchanged |
| Payslips.Payslip.SetBankAccount | src/main/java/com/financials/fincheck/model/Payslip.java:139-141 | the bank account becomes `v`; the other fields are unchanged |
| Payslips.Payslip.SetEmployer | src/main/java/com/financials/fincheck/model/Payslip.java:147-149 | the employer becomes `v`; the other fields are unchanged |
| Payslips.Payslip.SetHoursWorked | src/main/java/com/financials/fincheck/model/Payslip.java:155-157 | the hours worked become `v` (a 32-bit int); the other fields are unchanged |
| Invoices.Invoice.constructor | src/main/java/com/financials/fincheck/model/Invoice.java:34-38 | the three arguments are stored as given, with no checks |
| Invoices.Invoice.SetInvoiceNumber | src/main/java/com/financials/fincheck/model/Invoice.java:44-46 | the invoice number becomes `v`; amount and currency are unchanged |
| Invoices.Invoice.SetAmount | src/main/java/com/financials/fincheck/model/Invoice.java:52-54 | the amount (nullable) becomes `v`; the other two fields are unchanged |
| Invoices.Invoice.SetCurrency | src/main/java/com/financials/fincheck/model/Invoice.java:60-62 | the currency (unchecked string) becomes `v`; the other two fields are unchanged |
| ExpenseReports.ExpenseReport.constructor | src/main/java/com/financials/fincheck/model/ExpenseReport.java:15-22 | the six arguments are stored as given |
| ExpenseReports.ExpenseReport.SetReportId | src/main/java/com/financials/fincheck/model/ExpenseReport.java:28-30 | the report ID becomes `v`; the other five fields are unchanged |
| ExpenseReports.ExpenseReport.SetEmployeeId | src/main/java/com/financials/fincheck/model/ExpenseReport.java:36-38 | the employee ID becomes `v`; the other fields are unchanged |
| ExpenseReports.ExpenseReport.SetBusinessPurpose | src/main/java/com/financials/fincheck/model/ExpenseReport.java:44-46 | the business purpose becomes `v`; the other fields are unchanged |
| ExpenseReports.ExpenseReport.SetCurrency | src/main/java/com/financials/fincheck/model/ExpenseReport.java:52-54 | the currency becomes `v`; the other fields are unchanged |
| ExpenseReports.ExpenseReport.SetSubmissionDate | src/main/java/com/financials/fincheck/model/ExpenseReport.java:60-62 | the submission date becomes `v`; the other fields are unchanged |
| ExpenseReports.ExpenseReport.SetItems | src/main/java/com/financials/fincheck/model/ExpenseReport.java:68-70 | the item list (nullable) becomes `v`; the other fields are unchanged |
| PayslipValidator.Sum | src/main/java/com/financials/fincheck/validator/PayslipValidator.java:83 | the sum of the amounts, reached only when no entry is invalid, is never negative |
| PayslipValidator.Abs | src/main/java/com/financials/fincheck/validator/PayslipValidator.java:86 | `Math.abs`: nonnegative and equal to `x` or `-x` |
| PayslipValidator.AddEntryErrors | src/main/java/com/financials/fincheck/validator/PayslipValidator.java:65-80 | the loop over the entries appends, per entry, the name message and then the amount message, and the flag ends up set exactly when some entry is invalid |
| PayslipValidator.AddDeductionErrors | src/main/java/com/financials/fincheck/validator/PayslipValidator.java:62-90 | the deductions block: empty message for a null or empty map, otherwise the per-entry messages and, only if no entry was invalid, the reconciliation |
| PayslipValidator.Validate | src/main/java/com/financials/fincheck/validator/PayslipValidator.java:30-118 | the list the method builds equals `Errors` of the payslip's current contents on `today` |
| PayslipValidatorProperties.DecodeMessage | src/main/java/com/financials/fincheck/validator/PayslipValidator.java:33-115 | every message can be read back to its error code |
| PayslipValidatorProperties.MessageInjective | src/main/java/com/financials/fincheck/validator/PayslipValidator.java:33-115 | different error codes have different message strings (an amount message determines its key) |
| PayslipValidatorProperties.Failed | src/main/java/com/financials/fincheck/validator/PayslipValidator.java:30-118 | the tests that fail: never both pay-period tests or both date tests, the empty-deductions test exactly when there are no entries and then no reconciliation, at most one account test and only when a payment method is set |
| PayslipValidatorProperties.ErrorsAreReport | src/main/java/com/financials/fincheck/validator/PayslipValidator.java:30-118 | the errors are the messages of the failing tests' codes, in the order the checks run |
| PayslipValidatorProperties.ReportCount | src/main/java/com/financials/fincheck/validator/PayslipValidator.java:30-118 | each code occurs once for each failing test that emits it, and the entry codes once per offending entry |
| PayslipValidatorProperties.NameHits | src/main/java/com/financials/fincheck/validator/PayslipValidator.java:71-74 | the entries add one name code per entry whose name is null or blank |
| PayslipValidatorProperties.AmountHits | src/main/java/com/financials/fincheck/validator/PayslipValidator.java:76-79 | the entries add one amount code for `key` per entry with a bad amount whose name renders as `key` |
| PayslipValidatorProperties.MessageCount | src/main/java/com/financials/fincheck/validator/PayslipValidator.java:30-118 | a message occurs in the errors as often as its code in the report |
| PayslipValidatorProperties.ReportOrdered | src/main/java/com/financials/fincheck/validator/PayslipValidator.java:30-118 | the codes are in check order, with all entry codes between the empty-deductions test and the reconciliation |
| PayslipValidatorProperties.ErrorsInSourceOrder | src/main/java/com/financials/fincheck/validator/PayslipValidator.java:30-118 | the errors are rendered codes in check order |
| PayslipValidatorProperties.ReportEmptyIff | src/main/java/com/financials/fincheck/validator/PayslipValidator.java:30-118 | no code is reported exactly when no test fails and no entry is invalid |
| PayslipValidatorProperties.PayslipResponse | src/main/java/com/financials/fincheck/controller/PayslipController.java:47-55 | the controller answers success exactly when the payslip passes every rule, and a failure carries the validator's errors |
| PayslipValidatorProperties.PassesIff | src/main/java/com/financials/fincheck/validator/PayslipValidator.java:30-118 | a payslip passes exactly when both salaries are positive, ID and name are not trim-empty, the period is a year-month, the date is present and not after today, the map is nonempty with valid entries that reconcile, a method is set, a bank transfer has an IBAN-shaped account, an employer is set and the hours are not negative |
| PayslipValidatorProperties.SalaryRule | src/main/java/com/financials/fincheck/validator/PayslipValidator.java:33-35 | one "Salary must be positive" when the gross or the net salary is at most 0, otherwise none; there is no separate message per salary |
| PayslipValidatorProperties.EmployeeIdRule | src/main/java/com/financials/fincheck/validator/PayslipValidator.java:37-39 | one employee-ID message exactly when the ID is null or trim-empty |
| PayslipValidatorProperties.EmployeeNameRule | src/main/java/com/financials/fincheck/validator/PayslipValidator.java:41-43 | one employee-name message exactly when the name is null or trim-empty |
| PayslipValidatorProperties.PayPeriodEmptyRule | src/main/java/com/financials/fincheck/validator/PayslipValidator.java:45-47 | one empty-period message exactly when the period is null or blank |
| PayslipValidatorProperties.PayPeriodFormatRule | src/main/java/com/financials/fincheck/validator/PayslipValidator.java:48-54 | one format message exactly when the period is not blank and does not parse as `YYYY-MM` |
| PayslipValidatorProperties.PaymentDateEmptyRule | src/main/java/com/financials/fincheck/validator/PayslipValidator.java:56-57 | one empty-date message exactly when the payment date is null |
| PayslipValidatorProperties.PaymentDateFutureRule | src/main/java/com/financials/fincheck/validator/PayslipValidator.java:58-59 | one future-date message exactly when the date is present and strictly after today |
| PayslipValidatorProperties.DeductionsEmptyRule | src/main/java/com/financials/fincheck/validator/PayslipValidator.java:62-63 | one empty-deductions message exactly when the map is null or empty |
| PayslipValidatorProperties.NetSalaryRule | src/main/java/com/financials/fincheck/validator/PayslipValidator.java:82-89 | one mismatch message exactly when the map is nonempty, no entry is invalid and the net salary is more than 0.01 from gross minus the sum |
| PayslipValidatorProperties.PaymentMethodRule | src/main/java/com/financials/fincheck/validator/PayslipValidator.java:92-94 | one payment-method message exactly when the method is null |
| PayslipValidatorProperties.BankAccountEmptyRule | src/main/java/com/financials/fincheck/validator/PayslipValidator.java:96-100 | one empty-account message exactly for a bank transfer with a null or blank account |
| PayslipValidatorProperties.BankAccountFormatRule | src/main/java/com/financials/fincheck/validator/PayslipValidator.java:101-106 | one format message exactly for a bank transfer whose account is not blank and does not match the IBAN-shaped pattern |
| PayslipValidatorProperties.EmployerRule | src/main/java/com/financials/fincheck/validator/PayslipValidator.java:109-111 | one employer message exactly when the employer is null |
| PayslipValidatorProperties.HoursRule | src/main/java/com/financials/fincheck/validator/PayslipValidator.java:113-115 | one hours message exactly when the hours are negative |
| PayslipValidatorProperties.DeductionNameRule | src/main/java/com/financials/fincheck/validator/PayslipValidator.java:71-74 | the name message occurs once per entry whose name is null or blank |
| PayslipValidatorProperties.DeductionAmountRule | src/main/java/com/financials/fincheck/validator/PayslipValidator.java:76-79 | the amount message quoting `key` occurs once per entry with a null or negative amount whose name renders as `key` |
| PayslipValidatorProperties.AmountMessageOnce | src/main/java/com/financials/fincheck/validator/PayslipValidator.java:67-79 | since names are distinct, an entry named `key` (other than "null") gets its amount message exactly once when its amount is null or negative, and never otherwise; zero passes |
| PayslipValidatorProperties.EmptyDeductionsOnly | src/main/java/com/financials/fincheck/validator/PayslipValidator.java:62-64 | a null or empty map gives exactly one empty-deductions message and no entry or mismatch message |
| PayslipValidatorProperties.PayPeriodAtMostOne | src/main/java/com/financials/fincheck/validator/PayslipValidator.java:45-54 | at most one of the two pay-period messages appears |
| PayslipValidatorProperties.PaymentDateAtMostOne | src/main/java/com/financials/fincheck/validator/PayslipValidator.java:56-60 | at most one of the two date messages appears, and none when the payment date is today |
| PayslipValidatorProperties.BankAccountAtMostOne | src/main/java/com/financials/fincheck/validator/PayslipValidator.java:96-107 | at most one account message appears, and none unless the method is a bank transfer |
| PayslipValidatorProperties.SumIsTally | src/main/java/com/financials/fincheck/validator/PayslipValidator.java:83 | the recursive stream sum equals an order-free total of the amounts |
| PayslipValidatorProperties.EntryHitsIsTally | src/main/java/com/financials/fincheck/validator/PayslipValidator.java:67-79 | the count of a code among the entry codes is a total of per-entry weights |
| PayslipValidatorProperties.HasInvalidIff | src/main/java/com/financials/fincheck/validator/PayslipValidator.java:65-79 | the flag is set exactly when some entry has a null or blank name or a null or negative amount |
| PayslipValidatorProperties.EntriesPermutation | src/main/java/com/financials/fincheck/validator/PayslipValidator.java:65-89 | walking the entries in another order sets the same flag, reaches the same sum and adds each code as often |
| PayslipValidatorProperties.ReportPermutation | src/main/java/com/financials/fincheck/validator/PayslipValidator.java:67-80 | listing the entries in another order rearranges the report codes and changes none of them |
| PayslipValidatorProperties.PermutedChecks | src/main/java/com/financials/fincheck/validator/PayslipValidator.java:62-90 | a rearranged map changes no test's outcome; only the list of entries is permuted |
| PayslipValidatorProperties.DeductionOrderIrrelevant | src/main/java/com/financials/fincheck/validator/PayslipValidator.java:67 | the message multiset does not depend on the order in which the map hands out its entries |
| PayslipValidatorProperties.EmployeeIdOnlyMovesItsFlag | src/main/java/com/financials/fincheck/validator/PayslipValidator.java:37-39 | setting the employee ID changes only the employee-ID test |
| PayslipValidatorProperties.EmployeeNameOnlyMovesItsFlag | src/main/java/com/financials/fincheck/validator/PayslipValidator.java:41-43 | setting the name changes only the name test |
| PayslipValidatorProperties.PayPeriodOnlyMovesItsFlags | src/main/java/com/financials/fincheck/validator/PayslipValidator.java:45-54 | setting the pay period changes only the two pay-period tests |
| PayslipValidatorProperties.PaymentDateOnlyMovesItsFlags | src/main/java/com/financials/fincheck/validator/PayslipValidator.java:56-60 | setting the payment date changes only the two date tests |
| PayslipValidatorProperties.GrossSalaryOnlyMovesItsFlags | src/main/java/com/financials/fincheck/validator/PayslipValidator.java:33-86 | setting the gross salary changes only the salary test and the reconciliation |
| PayslipValidatorProperties.NetSalaryOnlyMovesItsFlags | src/main/java/com/financials/fincheck/validator/PayslipValidator.java:33-86 | setting the net salary changes only the salary test and the reconciliation |
| PayslipValidatorProperties.DeductionsOnlyMoveTheirFlags | src/main/java/com/financials/fincheck/validator/PayslipValidator.java:62-90 | setting the map changes only the empty test, the entries and the reconciliation |
| PayslipValidatorProperties.PaymentMethodOnlyMovesItsFlags | src/main/java/com/financials/fincheck/validator/PayslipValidator.java:92-107 | setting the method changes only the method test and the two account tests it gates |
| PayslipValidatorProperties.BankAccountOnlyMovesItsFlags | src/main/java/com/financials/fincheck/validator/PayslipValidator.java:96-107 | setting the account changes only the two account tests |
| PayslipValidatorProperties.EmployerOnlyMovesItsFlag | src/main/java/com/financials/fincheck/validator/PayslipValidator.java:109-111 | setting the employer changes only the employer test |
| PayslipValidatorProperties.HoursOnlyMoveTheirFlag | src/main/java/com/financials/fincheck/validator/PayslipValidator.java:113-115 | setting the hours changes only the hours test |
| PayslipValidatorProperties.IbanExamples | src/test/java/com/financials/fincheck/validator/PayslipValidatorTest.java:153-165 | "IE29AIBK93115212345678" matches the pattern and "54IEAIBK93115215678" does not |
| PayslipValidatorProperties.ReconciliationExamples | src/main/java/com/financials/fincheck/validator/PayslipValidator.java:82-89 | gross 3000 with deductions 500 and 200 reconciles with net 2300, 2300.005 and 2299.995, and not with 1000 or 2300.02; gross 0 with net 2300 does not reconcile |
| PayslipValidatorProperties.ValidTexts | src/test/java/com/financials/fincheck/validator/PayslipValidatorTest.java:27-39 | the text fields of the base payslip pass their blank tests |
| PayslipValidatorProperties.ValidPayslipChecks | src/test/java/com/financials/fincheck/validator/PayslipValidatorTest.java:27-39 | on its payment date or later, no test of the base payslip fails |
| PayslipValidatorProperties.ValidPayslipPasses | src/test/java/com/financials/fincheck/validator/PayslipValidatorTest.java:42-46 | the base payslip gives no errors |
| PayslipValidatorProperties.ZeroGrossExample | src/test/java/com/financials/fincheck/validator/PayslipValidatorTest.java:48-53 | gross 0 gives the single salary message and the mismatch; there is no "Gross salary must be positive" |
| PayslipValidatorProperties.NetSalaryExample | src/test/java/com/financials/fincheck/validator/PayslipValidatorTest.java:125-130 | net 1000 gives exactly the mismatch message |
| PayslipValidatorProperties.PayPeriodFormatExample | src/test/java/com/financials/fincheck/validator/PayslipValidatorTest.java:97-102 | period "dfsasd" gives exactly the format message |
| PayslipValidatorProperties.FutureDateExample | src/test/java/com/financials/fincheck/validator/PayslipValidatorTest.java:111-116 | payment date 2099-08-25 gives exactly the future-date message |
| PayslipValidatorProperties.EmptyDeductionsExample | src/test/java/com/financials/fincheck/validator/PayslipValidatorTest.java:118-123 | an empty map gives exactly the empty-deductions message |
| PayslipValidatorProperties.BlankKeyExample | src/test/java/com/financials/fincheck/validator/PayslipValidatorTest.java:132-137 | the map {"": 200} gives exactly the blank-name message; the invalid entry skips the reconciliation |
| PayslipValidatorProperties.NegativeAmountExample | src/test/java/com/financials/fincheck/validator/PayslipValidatorTest.java:139-144 | the map {"Tax": -1} gives exactly the amount message quoting Tax |
| PayslipValidatorProperties.NoPaymentMethodExample | src/test/java/com/financials/fincheck/validator/PayslipValidatorTest.java:146-151 | no payment method gives only that message, even without an account |
| PayslipValidatorProperties.NoBankAccountExample | src/test/java/com/financials/fincheck/validator/PayslipValidatorTest.java:153-158 | a bank transfer without an account gives exactly the empty-account message |
| PayslipValidatorProperties.BadIbanChecks | src/test/java/com/financials/fincheck/validator/PayslipValidatorTest.java:160-165 | the account "54IEAIBK93115215678" fails the format test and no other test |
| PayslipValidatorProperties.BadIbanExample | src/test/java/com/financials/fincheck/validator/PayslipValidatorTest.java:160-165 | that account gives exactly the IBAN format message |
| PayslipValidatorProperties.NegativeHoursExample | src/test/java/com/financials/fincheck/validator/PayslipValidatorTest.java:174-179 | hours -1 gives exactly the hours message |
| PayslipValidatorProperties.DefaultPayslipExample | src/main/java/com/financials/fincheck/model/Payslip.java:12-69 | a default-constructed payslip gets the eight presence messages in check order; zero hours pass |
| PayslipValidatorProperties.InvalidPayslipChecks | src/test/java/com/financials/fincheck/validator/PayslipValidatorTest.java:181-195 | which tests the many-invalid-fields payslip fails |
| PayslipValidatorProperties.InvalidPayslipExample | src/test/java/com/financials/fincheck/validator/PayslipValidatorTest.java:181-208 | that payslip gets ten messages in check order, including the amount message quoting the empty key, and no account message since no method is set |
| PayslipValidatorProperties.IncorrectNetSalaryScenario | src/test/java/com/financials/fincheck/validator/PayslipValidatorTest.java:125-130 | built with the setters, given net 1000 and validated, the payslip gets exactly the mismatch message |
| InvoiceValidator.Validate | src/main/java/com/financials/fincheck/validator/InvoiceValidator.java:31-49 | the list the method builds equals `Errors` of the invoice's current contents |
| InvoiceValidatorProperties.MessageInjective | src/main/java/com/financials/fincheck/validator/InvoiceValidator.java:34-47 | different codes have different messages (a currency message determines the shown currency) |
| InvoiceValidatorProperties.Failed | src/main/java/com/financials/fincheck/validator/InvoiceValidator.java:34-38 | the two amount tests never both fail |
| InvoiceValidatorProperties.ErrorsAreReport | src/main/java/com/financials/fincheck/validator/InvoiceValidator.java:31-49 | the errors are the messages of the failing tests' codes in check order |
| InvoiceValidatorProperties.ReportCount | src/main/java/com/financials/fincheck/validator/InvoiceValidator.java:31-49 | each code occurs once for each failing test that emits it |
| InvoiceValidatorProperties.ReportOrdered | src/main/java/com/financials/fincheck/validator/InvoiceValidator.java:31-49 | the codes come amount, currency, number |
| InvoiceValidatorProperties.ReportLength | src/main/java/com/financials/fincheck/validator/InvoiceValidator.java:34-38 | at most three codes, as at most one amount test fails |
| InvoiceValidatorProperties.ReportEmptyIff | src/main/java/com/financials/fincheck/validator/InvoiceValidator.java:31-49 | no code exactly when no test fails |
| InvoiceValidatorProperties.MessageCount | src/main/java/com/financials/fincheck/validator/InvoiceValidator.java:31-49 | a message occurs as often as its code |
| InvoiceValidatorProperties.ErrorsInSourceOrder | src/main/java/com/financials/fincheck/validator/InvoiceValidator.java:31-49 | the errors are in check order and there are at most three |
| InvoiceValidatorProperties.InvoiceResponse | src/main/java/com/financials/fincheck/controller/InvoiceController.java:47-55 | the controller answers success exactly when the invoice passes every rule, and a failure carries the validator's errors |
| InvoiceValidatorProperties.PassesIff | src/main/java/com/financials/fincheck/validator/InvoiceValidator.java:31-49 | an invoice passes exactly when its amount is present and not negative, its currency is USD, EUR or GBP and its number is not trim-empty |
| InvoiceValidatorProperties.AmountMissingRule | src/main/java/com/financials/fincheck/validator/InvoiceValidator.java:34-35 | one "Amount must be provided" exactly when the amount is null |
| InvoiceValidatorProperties.AmountNegativeRule | src/main/java/com/financials/fincheck/validator/InvoiceValidator.java:36-37 | one "Amount must not be negative" exactly when a present amount is below zero; zero passes |
| InvoiceValidatorProperties.AmountMessages | src/main/java/com/financials/fincheck/validator/InvoiceValidator.java:34-38 | at most one amount message, and it is the first error |
| InvoiceValidatorProperties.CurrencyRule | src/main/java/com/financials/fincheck/validator/InvoiceValidator.java:40-42 | the currency message quoting the currency appears once exactly when the currency is not exactly "USD", "EUR" or "GBP" (case-sensitive, null included) |
| InvoiceValidatorProperties.InvoiceNumberRule | src/main/java/com/financials/fincheck/validator/InvoiceValidator.java:45-47 | one number message exactly when the number is null or trim-empty |
| InvoiceValidatorProperties.InvoiceNumberLast | src/main/java/com/financials/fincheck/validator/InvoiceValidator.java:45-48 | the number message, when present, is the last error |
| InvoiceValidatorProperties.UnlistedCurrency | src/main/java/com/financials/fincheck/validator/InvoiceValidator.java:23 | a three-letter code such as "UFC" or "ABC" that starts like none of the three is not in the list |
| InvoiceValidatorProperties.ValidInvoicePasses | src/test/java/com/financials/fincheck/validator/InvoiceValidatorTest.java:26-35 | ("INV001", 2500.0, "EUR") gives no errors |
| InvoiceValidatorProperties.OneFieldChanged | src/test/java/com/financials/fincheck/validator/InvoiceValidatorTest.java:41-68 | changing any one field of the valid invoice gives exactly that field's error or none |
| InvoiceValidatorProperties.OneFieldExamples | src/test/java/com/financials/fincheck/validator/InvoiceValidatorTest.java:41-68 | amount -75.0, currency "UFC" and number "" each give exactly one error with the expected text |
| InvoiceValidatorProperties.AllRulesBroken | src/test/java/com/financials/fincheck/validator/InvoiceValidatorTest.java:75-81 | ("", -10.0, "ABC") gives the three messages in check order |
| InvoiceValidatorProperties.AllFieldsNull | src/test/java/com/financials/fincheck/controller/InvoiceControllerIntegrationTest.java:58-73 | an invoice with every field null gives "Amount must be provided", "Invalid currency: null" and the number message |
| InvoiceValidatorProperties.NegativeAmountScenario | src/test/java/com/financials/fincheck/validator/InvoiceValidatorTest.java:40-46 | constructing the valid invoice, setting amount -75.0 and validating gives exactly "Amount must not be negative" |
| ExpenseReportValidator.Validate | src/main/java/com/financials/fincheck/validator/ExpenseReportValidator.java:10-40 | the list the method builds equals `Errors` of the report's current contents on `today` |
| ExpenseReportValidatorProperties.DecodeMessage | src/main/java/com/financials/fincheck/validator/ExpenseReportValidator.java:13-37 | each message can be read back to its code |
| ExpenseReportValidatorProperties.MessageInjective | src/main/java/com/financials/fincheck/validator/ExpenseReportValidator.java:13-37 | the seven messages are distinct |
| ExpenseReportValidatorProperties.Failed | src/main/java/com/financials/fincheck/validator/ExpenseReportValidator.java:29-33 | the two date tests never both fail |
| ExpenseReportValidatorProperties.ErrorsAreReport | src/main/java/com/financials/fincheck/validator/ExpenseReportValidator.java:10-40 | the errors are the messages of the failing tests' codes in check order |
| ExpenseReportValidatorProperties.ReportCount | src/main/java/com/financials/fincheck/validator/ExpenseReportValidator.java:10-40 | each code occurs once for each failing test that emits it |
| ExpenseReportValidatorProperties.ReportOrdered | src/main/java/com/financials/fincheck/validator/ExpenseReportValidator.java:10-40 | the codes come in check order |
| ExpenseReportValidatorProperties.ReportLength | src/main/java/com/financials/fincheck/validator/ExpenseReportValidator.java:29-33 | at most six codes, as at most one date test fails |
| ExpenseReportValidatorProperties.MessageCount | src/main/java/com/financials/fincheck/validator/ExpenseReportValidator.java:10-40 | a message occurs as often as its code |
| ExpenseReportValidatorProperties.ErrorsInSourceOrder | src/main/java/com/financials/fincheck/validator/ExpenseReportValidator.java:10-40 | the errors are in check order and there are at most six |
| ExpenseReportValidatorProperties.ReportEmptyIff | src/main/java/com/financials/fincheck/validator/ExpenseReportValidator.java:10-40 | no code exactly when no test fails |
| ExpenseReportValidatorProperties.ExpenseReportResponse | src/main/java/com/financials/fincheck/controller/ExpenseReportController.java:26-34 | the controller answers success exactly when the report passes every rule, and a failure carries the validator's errors |
| ExpenseReportValidatorProperties.PassesIff | src/main/java/com/financials/fincheck/validator/ExpenseReportValidator.java:10-40 | a report passes exactly when its three texts are not blank, currency, date and items are present and the date is not after today |
| ExpenseReportValidatorProperties.ReportIdRule | src/main/java/com/financials/fincheck/validator/ExpenseReportValidator.java:13-15 | one report-ID message exactly when the ID is null or blank |
| ExpenseReportValidatorProperties.EmployeeIdRule | src/main/java/com/financials/fincheck/validator/ExpenseReportValidator.java:17-19 | one employee-ID message exactly when the ID is null or blank |
| ExpenseReportValidatorProperties.BusinessPurposeRule | src/main/java/com/financials/fincheck/validator/ExpenseReportValidator.java:21-23 | one purpose message exactly when the purpose is null or blank |
| ExpenseReportValidatorProperties.CurrencyRule | src/main/java/com/financials/fincheck/validator/ExpenseReportValidator.java:25-27 | one currency message exactly when the currency is null |
| ExpenseReportValidatorProperties.CurrencyNotChecked | src/main/java/com/financials/fincheck/validator/ExpenseReportValidator.java:25-27 | which non-null currency a report has never changes the errors |
| ExpenseReportValidatorProperties.SubmissionDateNullRule | src/main/java/com/financials/fincheck/validator/ExpenseReportValidator.java:29-30 | one null-date message exactly when the date is null |
| ExpenseReportValidatorProperties.SubmissionDateFutureRule | src/main/java/com/financials/fincheck/validator/ExpenseReportValidator.java:31-32 | one future-date message exactly when the date is present and strictly after today |
| ExpenseReportValidatorProperties.SubmissionDateAtMostOne | src/main/java/com/financials/fincheck/validator/ExpenseReportValidator.java:29-33 | at most one date message, and none for a report dated today |
| ExpenseReportValidatorProperties.ItemsRule | src/main/java/com/financials/fincheck/validator/ExpenseReportValidator.java:35-37 | one items message exactly when the list is null; an empty list passes |
| ExpenseReportValidatorProperties.ItemsNotInspected | src/main/java/com/financials/fincheck/validator/ExpenseReportValidator.java:35-37 | the items' contents never change the errors |
| ExpenseReportValidatorProperties.AllFieldsNull | src/test/java/com/financials/fincheck/controller/ExpenseReportControllerIntegrationTest.java:86-104 | a report with every field null gives the six presence messages in check order |
| ExpenseReportValidatorProperties.ValidReportTexts | src/test/java/com/financials/fincheck/validator/ExpenseReportValidatorTest.java:37-49 | the three texts of the base report are not blank |
| ExpenseReportValidatorProperties.ValidReportPasses | src/test/java/com/financials/fincheck/validator/ExpenseReportValidatorTest.java:51-55 | the base report, with any items, gives no errors on its date or later |
| ExpenseReportValidatorProperties.TextFieldExamples | src/test/java/com/financials/fincheck/validator/ExpenseReportValidatorTest.java:57-76 | report ID "", employee ID null, purpose "  " each give exactly their own message |
| ExpenseReportValidatorProperties.OtherFieldExamples | src/test/java/com/financials/fincheck/validator/ExpenseReportValidatorTest.java:78-104 | currency null, date null, date 4000-12-26 and items null each give exactly their own message |
| ExpenseReportValidatorProperties.NullItemsScenario | src/test/java/com/financials/fincheck/validator/ExpenseReportValidatorTest.java:99-104 | constructing the base report, setting items to null and validating gives exactly "Items must not be null" |

## Left out

- The HTTP controllers, `GlobalExceptionHandler`, `CurrencyDeserializer`
  and `FincheckApplication` are left out: they are request plumbing and JSON
  parsing. Only the controllers' mapping from errors to a response is
  modelled, as `ErrorLists.Respond`, with one lemma per controller
  (`InvoiceResponse`, `PayslipResponse`, `ExpenseReportResponse`). `CurrencyDeserializer` relies on the
  JDK's ISO 4217 table, which is foreign code. `ExpenseItem` and `Employer`
  are plain data that no validator reads.
- Floating point: salaries, deductions and amounts are `real`. Double
  rounding, NaN, infinities and negative zero are not modelled. The stream
  sum of the deduction values is an exact sum.
- PayslipValidatorProperties.NetSalaryRule: the reconciliation
  (`PayslipValidator.IsMismatch`) is decided in exact arithmetic, so at
  the 0.01 tolerance edge it can disagree with the program's `double`
  result. With gross 3000 and deductions 500 and 200, a net of 2300.01 or
  2299.99 is a mismatch in the program (the double difference is slightly
  above 0.01) but not in the model.
- The wall clock: `LocalDate.now()` is the parameter `today`. A date is
  any (year, month, day) triple; calendar validity is not modelled, since
  the validators only compare dates.
- Dates.ParseYearMonth: only the unsigned four-digit-year form `YYYY-MM`
  is accepted. The JDK also accepts a signed year: '-' with four or more
  digits (not all zero), or '+' with five or more, as in "-2025-05" or
  "+10000-01". The model rejects these and reports the format error,
  where `validate` reports none.
- Java strings are sequences of UTF-16 code units; a Dafny `string` holds
  Unicode scalar values. A lone surrogate (for instance from a JSON
  `\uD800` escape) cannot be represented. For every other text `trim`,
  `isBlank` and the IBAN pattern agree with the model, since surrogates
  lie above U+0020 and are not whitespace.
- Map iteration order: a deductions map is a list of entries with distinct
  names, in some order that the map does not specify.
  `PayslipValidatorProperties.DeductionOrderIrrelevant` proves that the order
  changes at most the order of the errors, never which errors there are.
- `Character.isWhitespace` is a fixed table: the Unicode space
  separators except the three no-break spaces, the line and paragraph
  separators, and the controls U+0009..U+000D and U+001C..U+001F. Changes
  in later Unicode versions are not tracked.
- Getters are field reads of the class. The setters' contracts say what
  each getter returns afterwards.
- `PayslipValidator.AddDeductionErrors` and
  `PayslipValidator.AddEntryErrors` are the deductions block and its loop,
  split out of `Validate` as two methods. In the source they are inline
  in `validate`.
- The payslip test assertions that expect "Gross salary must be
  positive", "Net salary must be positive" or "... must not be empty"
  for a salary, or that call an eleven-argument constructor, are not
  modelled, because they do not match the code.
- PayslipValidatorProperties.AmountMessageOnce: stated only for entries
  whose name is not "null". A null name and the name "null" render the
  same amount message (`Options.ShowConflatesNull`), so for that key the
  count covers both entries, as `DeductionAmountRule` states.
