/** `PayslipValidator`: ten rule blocks over a payslip, one of which walks
    the deductions map entry by entry. Each rule is a function from the
    errors collected so far to the errors after that rule, so `Errors` reads
    as the sequence of appends the validator performs. */
module PayslipValidator {
  import opened Options
  import opened Strings
  import opened Dates
  import opened ErrorLists
  import opened Payslips

  /** One code per message the validator can emit. A deduction-amount error
      carries the key exactly as string concatenation renders it. */
  datatype PayslipError =
    | SalaryNotPositive
    | EmployeeIdEmpty
    | EmployeeNameEmpty
    | PayPeriodEmpty
    | PayPeriodFormat
    | PaymentDateEmpty
    | PaymentDateInFuture
    | DeductionsEmpty
    | DeductionNameBlank
    | DeductionAmountInvalid(key: string)
    | NetSalaryMismatch
    | PaymentMethodEmpty
    | BankAccountEmpty
    | BankAccountFormat
    | EmployerEmpty
    | HoursNegative

  function Message(e: PayslipError): string {
    match e
    case SalaryNotPositive => "Salary must be positive"
    case EmployeeIdEmpty => "Employee ID must not be empty"
    case EmployeeNameEmpty => "Employee name must not be empty"
    case PayPeriodEmpty => "Pay period must not be empty"
    case PayPeriodFormat => "Pay period must follow the format YYYY-MM"
    case PaymentDateEmpty => "Payment date must not be empty"
    case PaymentDateInFuture => "Payment date cannot be in the future"
    case DeductionsEmpty => "Deductions must not be empty"
    case DeductionNameBlank => "Deduction name must not be blank or null"
    case DeductionAmountInvalid(key) => "Deduction amount for '" + key + "' must be non-negative and not null"
    case NetSalaryMismatch => "Net salary does not match gross salary minus deductions"
    case PaymentMethodEmpty => "Payment method must not be empty"
    case BankAccountEmpty => "Bank account (IBAN) must not be empty for bank transfers"
    case BankAccountFormat => "Bank account (IBAN) format is invalid"
    case EmployerEmpty => "Employer must not be empty"
    case HoursNegative => "Hours worked must be non-negative"
  }

  // ---------------------------------------------------------------------
  // The deductions map

  /** A null or negative amount. */
  predicate IsBadAmount(amount: Option<real>) {
    amount.None? || amount.value < 0.0
  }

  /** An entry that sets `hasInvalidDeduction`. */
  predicate IsInvalidEntry(d: Deduction) {
    IsNullOrBlank(d.name) || IsBadAmount(d.amount)
  }

  /** Some entry among the first `n` is invalid. */
  predicate HasInvalidEntry(ds: seq<Deduction>, n: nat)
    requires n <= |ds|
  {
    n > 0 && (HasInvalidEntry(ds, n - 1) || IsInvalidEntry(ds[n - 1]))
  }

  /** The loop body for one entry: the name check, then the amount check. */
  function EntryRule(errors: seq<string>, d: Deduction): seq<string> {
    var afterName := AddIf(errors, IsNullOrBlank(d.name), Message(DeductionNameBlank));
    AddIf(afterName, IsBadAmount(d.amount), Message(DeductionAmountInvalid(Show(d.name))))
  }

  /** The loop over the first `n` entries, in iteration order. */
  function EntriesRule(errors: seq<string>, ds: seq<Deduction>, n: nat): seq<string>
    requires n <= |ds|
  {
    if n == 0 then errors else EntryRule(EntriesRule(errors, ds, n - 1), ds[n - 1])
  }

  /** The stream sum of the first `n` amounts, which is reached only when no
      entry is invalid, so that every amount is present and nonnegative. */
  function Sum(ds: seq<Deduction>, n: nat): (r: real)
    requires n <= |ds| && !HasInvalidEntry(ds, n)
    ensures r >= 0.0
  {
    if n == 0 then 0.0 else Sum(ds, n - 1) + ds[n - 1].amount.value
  }

  /** `Math.abs`. */
  function Abs(x: real): (r: real)
    ensures r >= 0.0 && (r == x || r == -x)
  {
    if x < 0.0 then -x else x
  }

  /** The reconciliation tolerance. */
  const Tolerance: real := 0.01

  /** The net salary is off from gross minus the deductions by more than the
      tolerance. */
  predicate IsMismatch(gross: real, net: real, ds: seq<Deduction>)
    requires !HasInvalidEntry(ds, |ds|)
  {
    Abs(net - (gross - Sum(ds, |ds|))) > Tolerance
  }

  // ---------------------------------------------------------------------
  // The bank-account pattern `^[A-Z]{2}\d{2}[A-Z0-9]{11,30}$`

  predicate IsAsciiUpper(c: char) {
    'A' <= c <= 'Z'
  }

  /** Two capital letters, two ASCII digits (`\d` without the Unicode flag),
      then 11 to 30 capital letters or digits. */
  predicate IsIbanShaped(s: string) {
    15 <= |s| <= 34
    && IsAsciiUpper(s[0]) && IsAsciiUpper(s[1])
    && IsDigit(s[2]) && IsDigit(s[3])
    && forall i :: 4 <= i < |s| ==> IsAsciiUpper(s[i]) || IsDigit(s[i])
  }

  // ---------------------------------------------------------------------
  // The rules that are more than one `if`, each given only the fields it reads

  /** Blank, or else not a year-month. */
  function PayPeriodRule(errors: seq<string>, period: Option<string>): seq<string> {
    var empty := AddIf(errors, IsNullOrBlank(period), Message(PayPeriodEmpty));
    AddIf(empty, !IsNullOrBlank(period) && ParseYearMonth(period.value).None?, Message(PayPeriodFormat))
  }

  /** Null, or else strictly after `today`. */
  function PaymentDateRule(errors: seq<string>, date: Option<Date>, today: Date): seq<string> {
    var empty := AddIf(errors, date.None?, Message(PaymentDateEmpty));
    AddIf(empty, date.Some? && IsAfter(date.value, today), Message(PaymentDateInFuture))
  }

  /** The entries the loop walks: none for a null map. */
  function Listed(deductions: Option<DeductionMap>): seq<Deduction> {
    if deductions.None? then [] else deductions.value
  }

  /** Null or empty; otherwise the per-entry errors, then, when no entry was
      invalid, the reconciliation of the salaries as they are. (On an empty
      map the loop adds nothing and the reconciliation is not reached.) */
  function DeductionsRule(errors: seq<string>, deductions: Option<DeductionMap>, gross: real, net: real): seq<string> {
    var ds := Listed(deductions);
    var empty := AddIf(errors, ds == [], Message(DeductionsEmpty));
    var afterEntries := EntriesRule(empty, ds, |ds|);
    AddIf(afterEntries, ds != [] && !HasInvalidEntry(ds, |ds|) && IsMismatch(gross, net, ds), Message(NetSalaryMismatch))
  }

  /** Looked at only for bank transfers: blank, or else not IBAN-shaped. */
  function BankAccountRule(errors: seq<string>, method': Option<PaymentMethod>, account: Option<string>): seq<string> {
    var transfer := method' == Some(BankTransfer);
    var empty := AddIf(errors, transfer && IsNullOrBlank(account), Message(BankAccountEmpty));
    AddIf(empty, transfer && !IsNullOrBlank(account) && !IsIbanShaped(account.value), Message(BankAccountFormat))
  }

  /** The errors of a payslip validated on `today`, rule by rule in source order. */
  function Errors(p: PayslipData, today: Date): seq<string> {
    var salary := AddIf([], p.grossSalary <= 0.0 || p.netSalary <= 0.0, Message(SalaryNotPositive));
    var id := AddIf(salary, IsNullOrTrimEmpty(p.employeeId), Message(EmployeeIdEmpty));
    var name := AddIf(id, IsNullOrTrimEmpty(p.employeeName), Message(EmployeeNameEmpty));
    var period := PayPeriodRule(name, p.payPeriod);
    var date := PaymentDateRule(period, p.paymentDate, today);
    var deductions := DeductionsRule(date, p.deductions, p.grossSalary, p.netSalary);
    var method' := AddIf(deductions, p.paymentMethod.None?, Message(PaymentMethodEmpty));
    var account := BankAccountRule(method', p.paymentMethod, p.bankAccount);
    var employer := AddIf(account, p.employer.None?, Message(EmployerEmpty));
    AddIf(employer, p.hoursWorked < 0, Message(HoursNegative))
  }

  /** The loop of lines 65-80 of `validate`: for each entry, the name check and
      then the amount check, noting whether any entry was invalid. */
  method AddEntryErrors(entries: seq<Deduction>, errors: seq<string>) returns (errors': seq<string>, hasInvalidDeduction: bool)
    ensures errors' == EntriesRule(errors, entries, |entries|)
    ensures hasInvalidDeduction <==> HasInvalidEntry(entries, |entries|)
  {
    errors' := errors;
    hasInvalidDeduction := false;
    var i := 0;
    while i < |entries|
      invariant 0 <= i <= |entries|
      invariant errors' == EntriesRule(errors, entries, i)
      invariant hasInvalidDeduction <==> HasInvalidEntry(entries, i)
    {
      var key, value := entries[i].name, entries[i].amount;
      if IsNullOrBlank(key) {
        errors' := errors' + [Message(DeductionNameBlank)];
        hasInvalidDeduction := true;
      }
      if IsBadAmount(value) {
        errors' := errors' + [Message(DeductionAmountInvalid(Show(key)))];
        hasInvalidDeduction := true;
      }
      i := i + 1;
    }
  }

  /** Lines 62-90 of `validate`: the deductions block, appended to `errors`. */
  method AddDeductionErrors(payslip: Payslip, errors: seq<string>) returns (errors': seq<string>)
    ensures errors' == DeductionsRule(errors, payslip.deductions, payslip.grossSalary, payslip.netSalary)
  {
    errors' := errors;
    if payslip.deductions.None? || |payslip.deductions.value| == 0 {
      errors' := errors' + [Message(DeductionsEmpty)];
    } else {
      var entries := payslip.deductions.value;
      var hasInvalidDeduction;
      errors', hasInvalidDeduction := AddEntryErrors(entries, errors');
      if !hasInvalidDeduction {
        var sumDeductions := Sum(entries, |entries|);
        var expectedNetSalary := payslip.grossSalary - sumDeductions;
        if Abs(payslip.netSalary - expectedNetSalary) > Tolerance {
          errors' := errors' + [Message(NetSalaryMismatch)];
        }
      }
    }
  }

  /** `Errors` is the rules applied one after another to the results of the
      ones before. */
  lemma ErrorsByRule(p: PayslipData, today: Date, salary: seq<string>, id: seq<string>, name: seq<string>,
                     period: seq<string>, date: seq<string>, deductions: seq<string>, method': seq<string>,
                     account: seq<string>, employer: seq<string>, hours: seq<string>)
    requires salary == AddIf([], p.grossSalary <= 0.0 || p.netSalary <= 0.0, Message(SalaryNotPositive))
    requires id == AddIf(salary, IsNullOrTrimEmpty(p.employeeId), Message(EmployeeIdEmpty))
    requires name == AddIf(id, IsNullOrTrimEmpty(p.employeeName), Message(EmployeeNameEmpty))
    requires period == PayPeriodRule(name, p.payPeriod)
    requires date == PaymentDateRule(period, p.paymentDate, today)
    requires deductions == DeductionsRule(date, p.deductions, p.grossSalary, p.netSalary)
    requires method' == AddIf(deductions, p.paymentMethod.None?, Message(PaymentMethodEmpty))
    requires account == BankAccountRule(method', p.paymentMethod, p.bankAccount)
    requires employer == AddIf(account, p.employer.None?, Message(EmployerEmpty))
    requires hours == AddIf(employer, p.hoursWorked < 0, Message(HoursNegative))
    ensures hours == Errors(p, today)
  {
  }

  /** `validate(payslip)`, with `LocalDate.now()` passed in as `today`. */
  method Validate(payslip: Payslip, today: Date) returns (errors: seq<string>)
    ensures errors == Errors(payslip.Data(), today)
  {
    ghost var d := payslip.Data();
    errors := [];

    if payslip.grossSalary <= 0.0 || payslip.netSalary <= 0.0 {
      errors := errors + [Message(SalaryNotPositive)];
    }
    assert errors == AddIf([], d.grossSalary <= 0.0 || d.netSalary <= 0.0, Message(SalaryNotPositive));
    ghost var salary := errors;

    if IsNullOrTrimEmpty(payslip.employeeId) {
      errors := errors + [Message(EmployeeIdEmpty)];
    }
    assert errors == AddIf(salary, IsNullOrTrimEmpty(d.employeeId), Message(EmployeeIdEmpty));
    ghost var id := errors;

    if IsNullOrTrimEmpty(payslip.employeeName) {
      errors := errors + [Message(EmployeeNameEmpty)];
    }
    assert errors == AddIf(id, IsNullOrTrimEmpty(d.employeeName), Message(EmployeeNameEmpty));
    ghost var name := errors;

    var payPeriod := payslip.payPeriod;
    if IsNullOrBlank(payPeriod) {
      errors := errors + [Message(PayPeriodEmpty)];
    } else if ParseYearMonth(payPeriod.value).None? {
      errors := errors + [Message(PayPeriodFormat)];
    }
    assert errors == PayPeriodRule(name, d.payPeriod);
    ghost var period := errors;

    if payslip.paymentDate.None? {
      errors := errors + [Message(PaymentDateEmpty)];
    } else if IsAfter(payslip.paymentDate.value, today) {
      errors := errors + [Message(PaymentDateInFuture)];
    }
    assert errors == PaymentDateRule(period, d.paymentDate, today);
    ghost var date := errors;

    errors := AddDeductionErrors(payslip, errors);
    ghost var deductions := errors;

    if payslip.paymentMethod.None? {
      errors := errors + [Message(PaymentMethodEmpty)];
    }
    assert errors == AddIf(deductions, d.paymentMethod.None?, Message(PaymentMethodEmpty));
    ghost var method' := errors;

    if payslip.paymentMethod == Some(BankTransfer) {
      var bankAccount := payslip.bankAccount;
      if IsNullOrBlank(bankAccount) {
        errors := errors + [Message(BankAccountEmpty)];
      } else if !IsIbanShaped(bankAccount.value) {
        errors := errors + [Message(BankAccountFormat)];
      }
    }
    assert errors == BankAccountRule(method', d.paymentMethod, d.bankAccount);
    ghost var account := errors;

    if payslip.employer.None? {
      errors := errors + [Message(EmployerEmpty)];
    }
    assert errors == AddIf(account, d.employer.None?, Message(EmployerEmpty));
    ghost var employer := errors;

    if payslip.hoursWorked < 0 {
      errors := errors + [Message(HoursNegative)];
    }
    ErrorsByRule(d, today, salary, id, name, period, date, deductions, method', account, employer, errors);
  }
}

/** What `PayslipValidator.validate` promises. As for the other validators,
    the properties are proved on a second description: which tests fail
    (`Failed`), with the deduction entries kept as a list because each
    entry has tests of its own, and the codes of the failing tests in
    source order (`Report`). `ErrorsAreReport` ties it to `Errors`. */
module PayslipValidatorProperties {
  import opened Options
  import opened Tallies
  import opened Strings
  import opened Dates
  import opened ErrorLists
  import opened Payslips
  import opened PayslipValidator

  /** Reads the code back from a message. The fixed messages have
      different lengths, except two of length 28 that differ in their first
      letter, and all are shorter than a deduction-amount message. */
  function Decode(m: string): PayslipError {
    if |m| >= 57 then DeductionAmountInvalid(m[22..|m| - 35])
    else if |m| == 29 then EmployeeIdEmpty
    else if |m| == 31 then EmployeeNameEmpty
    else if |m| == 28 then (if m[0] == 'P' then PayPeriodEmpty else DeductionsEmpty)
    else if |m| == 41 then PayPeriodFormat
    else if |m| == 30 then PaymentDateEmpty
    else if |m| == 36 then PaymentDateInFuture
    else if |m| == 40 then DeductionNameBlank
    else if |m| == 55 then NetSalaryMismatch
    else if |m| == 32 then PaymentMethodEmpty
    else if |m| == 56 then BankAccountEmpty
    else if |m| == 37 then BankAccountFormat
    else if |m| == 26 then EmployerEmpty
    else if |m| == 33 then HoursNegative
    else SalaryNotPositive
  }

  /** A deduction-amount message quotes its key between a prefix of 22
      and a suffix of 35 characters. */
  lemma DecodeAmountMessage(key: string)
    ensures Decode(Message(DeductionAmountInvalid(key))) == DeductionAmountInvalid(key)
  {
    var m := Message(DeductionAmountInvalid(key));
    assert m[22..|m| - 35] == key;
  }

  lemma DecodeGroup1(e: PayslipError)
    requires e.SalaryNotPositive? || e.EmployeeIdEmpty? || e.EmployeeNameEmpty? || e.PayPeriodEmpty?
    ensures Decode(Message(e)) == e
  {
  }

  lemma DecodeGroup2(e: PayslipError)
    requires e.PayPeriodFormat? || e.PaymentDateEmpty? || e.PaymentDateInFuture? || e.DeductionsEmpty?
    ensures Decode(Message(e)) == e
  {
  }

  lemma DecodeGroup3(e: PayslipError)
    requires e.DeductionNameBlank? || e.NetSalaryMismatch? || e.PaymentMethodEmpty? || e.BankAccountEmpty?
    ensures Decode(Message(e)) == e
  {
  }

  lemma DecodeGroup4(e: PayslipError)
    requires e.BankAccountFormat? || e.EmployerEmpty? || e.HoursNegative?
    ensures Decode(Message(e)) == e
  {
  }

  lemma DecodeMessage(e: PayslipError)
    ensures Decode(Message(e)) == e
  {
    if e.DeductionAmountInvalid? {
      DecodeAmountMessage(e.key);
    } else if e.SalaryNotPositive? || e.EmployeeIdEmpty? || e.EmployeeNameEmpty? || e.PayPeriodEmpty? {
      DecodeGroup1(e);
    } else if e.PayPeriodFormat? || e.PaymentDateEmpty? || e.PaymentDateInFuture? || e.DeductionsEmpty? {
      DecodeGroup2(e);
    } else if e.DeductionNameBlank? || e.NetSalaryMismatch? || e.PaymentMethodEmpty? || e.BankAccountEmpty? {
      DecodeGroup3(e);
    } else {
      DecodeGroup4(e);
    }
  }

  /** Different codes have different message strings. */
  lemma MessageInjective()
    ensures Injective(Message)
  {
    forall a, b | Message(a) == Message(b) ensures a == b {
      DecodeMessage(a);
      DecodeMessage(b);
    }
  }

  /** The position of each test in `validate`; the two per-entry tests
      share one, since the loop alternates them. */
  function Rank(e: PayslipError): nat {
    match e
    case SalaryNotPositive => 0
    case EmployeeIdEmpty => 1
    case EmployeeNameEmpty => 2
    case PayPeriodEmpty => 3
    case PayPeriodFormat => 4
    case PaymentDateEmpty => 5
    case PaymentDateInFuture => 6
    case DeductionsEmpty => 7
    case DeductionNameBlank => 8
    case DeductionAmountInvalid(_) => 8
    case NetSalaryMismatch => 9
    case PaymentMethodEmpty => 10
    case BankAccountEmpty => 11
    case BankAccountFormat => 12
    case EmployerEmpty => 13
    case HoursNegative => 14
  }

  /** The codes of one entry's failing tests, after `codes`. */
  function EntryReport(codes: seq<PayslipError>, d: Deduction): seq<PayslipError> {
    AddIf(AddIf(codes, IsNullOrBlank(d.name), DeductionNameBlank), IsBadAmount(d.amount), DeductionAmountInvalid(Show(d.name)))
  }

  /** The codes of the first `n` entries' failing tests, after `codes`. */
  function EntryCodes(codes: seq<PayslipError>, ds: seq<Deduction>, n: nat): seq<PayslipError>
    requires n <= |ds|
  {
    if n == 0 then codes else EntryReport(EntryCodes(codes, ds, n - 1), ds[n - 1])
  }

  /** How many copies of `x` the first `n` entries' tests add. */
  function EntryHits(ds: seq<Deduction>, n: nat, x: PayslipError): nat
    requires n <= |ds|
  {
    if n == 0 then 0
    else EntryHits(ds, n - 1, x) + Hit(IsNullOrBlank(ds[n - 1].name), DeductionNameBlank, x)
         + Hit(IsBadAmount(ds[n - 1].amount), DeductionAmountInvalid(Show(ds[n - 1].name)), x)
  }

  /** Which tests fail: one flag per fixed test, and the entries the loop
      walks. */
  datatype Checks = Checks(
    salary: bool, employeeId: bool, employeeName: bool,
    periodEmpty: bool, periodFormat: bool, dateEmpty: bool, dateInFuture: bool,
    deductionsEmpty: bool, entries: seq<Deduction>, mismatch: bool,
    methodEmpty: bool, accountEmpty: bool, accountFormat: bool, employerEmpty: bool, hoursNegative: bool)

  /** The tests of `validate` on a payslip and a date. */
  function Failed(p: PayslipData, today: Date): (f: Checks)
    ensures !(f.periodEmpty && f.periodFormat) && !(f.dateEmpty && f.dateInFuture)
    ensures f.deductionsEmpty <==> f.entries == []
    ensures f.deductionsEmpty ==> !f.mismatch
    ensures !(f.accountEmpty && f.accountFormat)
    ensures f.accountEmpty || f.accountFormat ==> !f.methodEmpty
  {
    var ds := Listed(p.deductions);
    var transfer := p.paymentMethod == Some(BankTransfer);
    Checks(
      p.grossSalary <= 0.0 || p.netSalary <= 0.0,
      IsNullOrTrimEmpty(p.employeeId), IsNullOrTrimEmpty(p.employeeName),
      IsNullOrBlank(p.payPeriod), !IsNullOrBlank(p.payPeriod) && ParseYearMonth(p.payPeriod.value).None?,
      p.paymentDate.None?, p.paymentDate.Some? && IsAfter(p.paymentDate.value, today),
      ds == [], ds, ds != [] && !HasInvalidEntry(ds, |ds|) && IsMismatch(p.grossSalary, p.netSalary, ds),
      p.paymentMethod.None?,
      transfer && IsNullOrBlank(p.bankAccount),
      transfer && !IsNullOrBlank(p.bankAccount) && !IsIbanShaped(p.bankAccount.value),
      p.employer.None?, p.hoursWorked < 0)
  }

  /** The codes of the seven tests before the deductions block, after `codes`. */
  function HeadReport(codes: seq<PayslipError>, f: Checks): seq<PayslipError> {
    var salary := AddIf(codes, f.salary, SalaryNotPositive);
    var id := AddIf(salary, f.employeeId, EmployeeIdEmpty);
    var name := AddIf(id, f.employeeName, EmployeeNameEmpty);
    var period := AddIf(AddIf(name, f.periodEmpty, PayPeriodEmpty), f.periodFormat, PayPeriodFormat);
    AddIf(AddIf(period, f.dateEmpty, PaymentDateEmpty), f.dateInFuture, PaymentDateInFuture)
  }

  /** The codes of the deductions block, after `codes`. */
  function DeductionsReport(codes: seq<PayslipError>, f: Checks): seq<PayslipError> {
    var entries := EntryCodes(AddIf(codes, f.deductionsEmpty, DeductionsEmpty), f.entries, |f.entries|);
    AddIf(entries, f.mismatch, NetSalaryMismatch)
  }

  /** The codes of the five tests after the deductions block, after `codes`. */
  function TailReport(codes: seq<PayslipError>, f: Checks): seq<PayslipError> {
    var method' := AddIf(codes, f.methodEmpty, PaymentMethodEmpty);
    var account := AddIf(AddIf(method', f.accountEmpty, BankAccountEmpty), f.accountFormat, BankAccountFormat);
    AddIf(AddIf(account, f.employerEmpty, EmployerEmpty), f.hoursNegative, HoursNegative)
  }

  /** The codes of all failing tests, in source order. */
  function Report(f: Checks): seq<PayslipError> {
    TailReport(DeductionsReport(HeadReport([], f), f), f)
  }

  // The messages `Errors` appends in each of the three parts, with every
  // test's outcome read from the flags.

  function HeadMessages(errors: seq<string>, f: Checks): seq<string> {
    var salary := AddIf(errors, f.salary, Message(SalaryNotPositive));
    var id := AddIf(salary, f.employeeId, Message(EmployeeIdEmpty));
    var name := AddIf(id, f.employeeName, Message(EmployeeNameEmpty));
    var period := AddIf(AddIf(name, f.periodEmpty, Message(PayPeriodEmpty)), f.periodFormat, Message(PayPeriodFormat));
    AddIf(AddIf(period, f.dateEmpty, Message(PaymentDateEmpty)), f.dateInFuture, Message(PaymentDateInFuture))
  }

  function DeductionsMessages(errors: seq<string>, f: Checks): seq<string> {
    var entries := EntriesRule(AddIf(errors, f.deductionsEmpty, Message(DeductionsEmpty)), f.entries, |f.entries|);
    AddIf(entries, f.mismatch, Message(NetSalaryMismatch))
  }

  function TailMessages(errors: seq<string>, f: Checks): seq<string> {
    var method' := AddIf(errors, f.methodEmpty, Message(PaymentMethodEmpty));
    var account := AddIf(AddIf(method', f.accountEmpty, Message(BankAccountEmpty)), f.accountFormat, Message(BankAccountFormat));
    AddIf(AddIf(account, f.employerEmpty, Message(EmployerEmpty)), f.hoursNegative, Message(HoursNegative))
  }

  /** The loop's errors are the messages of the entries' codes. */
  lemma {:induction false} RenderEntries(codes: seq<PayslipError>, ds: seq<Deduction>, n: nat)
    requires n <= |ds|
    ensures Render(EntryCodes(codes, ds, n), Message) == EntriesRule(Render(codes, Message), ds, n)
  {
    if n > 0 {
      var d := ds[n - 1];
      var before := EntryCodes(codes, ds, n - 1);
      RenderEntries(codes, ds, n - 1);
      RenderAddIf(before, IsNullOrBlank(d.name), DeductionNameBlank, Message);
      RenderAddIf(AddIf(before, IsNullOrBlank(d.name), DeductionNameBlank), IsBadAmount(d.amount),
                  DeductionAmountInvalid(Show(d.name)), Message);
    }
  }

  lemma RenderHead(codes: seq<PayslipError>, f: Checks)
    ensures Render(HeadReport(codes, f), Message) == HeadMessages(Render(codes, Message), f)
  {
    var salary := AddIf(codes, f.salary, SalaryNotPositive);
    var id := AddIf(salary, f.employeeId, EmployeeIdEmpty);
    var name := AddIf(id, f.employeeName, EmployeeNameEmpty);
    var period := AddIf(name, f.periodEmpty, PayPeriodEmpty);
    RenderFour(codes, Message, f.salary, SalaryNotPositive, f.employeeId, EmployeeIdEmpty,
               f.employeeName, EmployeeNameEmpty, f.periodEmpty, PayPeriodEmpty);
    RenderThree(period, Message, f.periodFormat, PayPeriodFormat, f.dateEmpty, PaymentDateEmpty,
                f.dateInFuture, PaymentDateInFuture);
  }

  lemma RenderDeductions(codes: seq<PayslipError>, f: Checks)
    ensures Render(DeductionsReport(codes, f), Message) == DeductionsMessages(Render(codes, Message), f)
  {
    var empty := AddIf(codes, f.deductionsEmpty, DeductionsEmpty);
    RenderAddIf(codes, f.deductionsEmpty, DeductionsEmpty, Message);
    RenderEntries(empty, f.entries, |f.entries|);
    RenderAddIf(EntryCodes(empty, f.entries, |f.entries|), f.mismatch, NetSalaryMismatch, Message);
  }

  lemma RenderTail(codes: seq<PayslipError>, f: Checks)
    ensures Render(TailReport(codes, f), Message) == TailMessages(Render(codes, Message), f)
  {
    var method' := AddIf(codes, f.methodEmpty, PaymentMethodEmpty);
    RenderFour(codes, Message, f.methodEmpty, PaymentMethodEmpty, f.accountEmpty, BankAccountEmpty,
               f.accountFormat, BankAccountFormat, f.employerEmpty, EmployerEmpty);
    RenderAddIf(AddIf(AddIf(AddIf(method', f.accountEmpty, BankAccountEmpty), f.accountFormat, BankAccountFormat),
                      f.employerEmpty, EmployerEmpty), f.hoursNegative, HoursNegative, Message);
  }

  /** The messages of the codes are the flags' messages, part by part. */
  lemma ReportRendered(f: Checks)
    ensures Render(Report(f), Message) == TailMessages(DeductionsMessages(HeadMessages([], f), f), f)
  {
    var head := HeadReport([], f);
    RenderHead([], f);
    RenderDeductions(head, f);
    RenderTail(DeductionsReport(head, f), f);
  }

  /** The first five rules of `Errors` append the head's messages. */
  lemma HeadByCheck(p: PayslipData, today: Date)
    ensures var salary := AddIf([], p.grossSalary <= 0.0 || p.netSalary <= 0.0, Message(SalaryNotPositive));
            var id := AddIf(salary, IsNullOrTrimEmpty(p.employeeId), Message(EmployeeIdEmpty));
            var name := AddIf(id, IsNullOrTrimEmpty(p.employeeName), Message(EmployeeNameEmpty));
            PaymentDateRule(PayPeriodRule(name, p.payPeriod), p.paymentDate, today) == HeadMessages([], Failed(p, today))
  {
  }

  /** The deductions rule appends the deductions block's messages. */
  lemma DeductionsByCheck(p: PayslipData, today: Date, errors: seq<string>)
    ensures DeductionsRule(errors, p.deductions, p.grossSalary, p.netSalary) == DeductionsMessages(errors, Failed(p, today))
  {
  }

  /** The last four rules of `Errors` append the tail's messages. */
  lemma TailByCheck(p: PayslipData, today: Date, errors: seq<string>)
    ensures var method' := AddIf(errors, p.paymentMethod.None?, Message(PaymentMethodEmpty));
            var account := BankAccountRule(method', p.paymentMethod, p.bankAccount);
            AddIf(AddIf(account, p.employer.None?, Message(EmployerEmpty)), p.hoursWorked < 0, Message(HoursNegative))
            == TailMessages(errors, Failed(p, today))
  {
  }

  /** `Errors` appends the flags' messages. */
  lemma ErrorsByCheck(p: PayslipData, today: Date)
    ensures Errors(p, today) == TailMessages(DeductionsMessages(HeadMessages([], Failed(p, today)), Failed(p, today)), Failed(p, today))
  {
    var f := Failed(p, today);
    HeadByCheck(p, today);
    DeductionsByCheck(p, today, HeadMessages([], f));
    TailByCheck(p, today, DeductionsMessages(HeadMessages([], f), f));
  }

  /** The validator's errors are the messages of the failing tests' codes. */
  lemma ErrorsAreReport(p: PayslipData, today: Date)
    ensures Errors(p, today) == Render(Report(Failed(p, today)), Message)
  {
    ErrorsByCheck(p, today);
    ReportRendered(Failed(p, today));
  }
  // ---------------------------------------------------------------------
  // How often each code is reported

  lemma HeadCount(codes: seq<PayslipError>, f: Checks, x: PayslipError)
    ensures multiset(HeadReport(codes, f))[x]
            == multiset(codes)[x] + Hit(f.salary, SalaryNotPositive, x) + Hit(f.employeeId, EmployeeIdEmpty, x)
             + Hit(f.employeeName, EmployeeNameEmpty, x) + Hit(f.periodEmpty, PayPeriodEmpty, x)
             + Hit(f.periodFormat, PayPeriodFormat, x) + Hit(f.dateEmpty, PaymentDateEmpty, x)
             + Hit(f.dateInFuture, PaymentDateInFuture, x)
  {
    var salary := AddIf(codes, f.salary, SalaryNotPositive);
    var id := AddIf(salary, f.employeeId, EmployeeIdEmpty);
    var name := AddIf(id, f.employeeName, EmployeeNameEmpty);
    var period := AddIf(name, f.periodEmpty, PayPeriodEmpty);
    CountFour(codes, x, f.salary, SalaryNotPositive, f.employeeId, EmployeeIdEmpty,
              f.employeeName, EmployeeNameEmpty, f.periodEmpty, PayPeriodEmpty);
    CountThree(period, x, f.periodFormat, PayPeriodFormat, f.dateEmpty, PaymentDateEmpty,
               f.dateInFuture, PaymentDateInFuture);
  }

  lemma {:induction false} EntryCodesCount(codes: seq<PayslipError>, ds: seq<Deduction>, n: nat, x: PayslipError)
    requires n <= |ds|
    ensures multiset(EntryCodes(codes, ds, n))[x] == multiset(codes)[x] + EntryHits(ds, n, x)
  {
    if n > 0 {
      var d := ds[n - 1];
      var before := EntryCodes(codes, ds, n - 1);
      EntryCodesCount(codes, ds, n - 1, x);
      AddIfCount(before, IsNullOrBlank(d.name), DeductionNameBlank, x);
      AddIfCount(AddIf(before, IsNullOrBlank(d.name), DeductionNameBlank), IsBadAmount(d.amount),
                 DeductionAmountInvalid(Show(d.name)), x);
    }
  }

  lemma DeductionsCount(codes: seq<PayslipError>, f: Checks, x: PayslipError)
    ensures multiset(DeductionsReport(codes, f))[x]
            == multiset(codes)[x] + Hit(f.deductionsEmpty, DeductionsEmpty, x)
             + EntryHits(f.entries, |f.entries|, x) + Hit(f.mismatch, NetSalaryMismatch, x)
  {
    var empty := AddIf(codes, f.deductionsEmpty, DeductionsEmpty);
    AddIfCount(codes, f.deductionsEmpty, DeductionsEmpty, x);
    EntryCodesCount(empty, f.entries, |f.entries|, x);
    AddIfCount(EntryCodes(empty, f.entries, |f.entries|), f.mismatch, NetSalaryMismatch, x);
  }

  lemma TailCount(codes: seq<PayslipError>, f: Checks, x: PayslipError)
    ensures multiset(TailReport(codes, f))[x]
            == multiset(codes)[x] + Hit(f.methodEmpty, PaymentMethodEmpty, x) + Hit(f.accountEmpty, BankAccountEmpty, x)
             + Hit(f.accountFormat, BankAccountFormat, x) + Hit(f.employerEmpty, EmployerEmpty, x)
             + Hit(f.hoursNegative, HoursNegative, x)
  {
    var method' := AddIf(codes, f.methodEmpty, PaymentMethodEmpty);
    CountFour(codes, x, f.methodEmpty, PaymentMethodEmpty, f.accountEmpty, BankAccountEmpty,
              f.accountFormat, BankAccountFormat, f.employerEmpty, EmployerEmpty);
    AddIfCount(AddIf(AddIf(AddIf(method', f.accountEmpty, BankAccountEmpty), f.accountFormat, BankAccountFormat),
                     f.employerEmpty, EmployerEmpty), f.hoursNegative, HoursNegative, x);
  }

  /** Each code occurs once for each failing test that has it. */
  lemma ReportCount(f: Checks, x: PayslipError)
    ensures multiset(Report(f))[x]
            == Hit(f.salary, SalaryNotPositive, x) + Hit(f.employeeId, EmployeeIdEmpty, x)
             + Hit(f.employeeName, EmployeeNameEmpty, x) + Hit(f.periodEmpty, PayPeriodEmpty, x)
             + Hit(f.periodFormat, PayPeriodFormat, x) + Hit(f.dateEmpty, PaymentDateEmpty, x)
             + Hit(f.dateInFuture, PaymentDateInFuture, x) + Hit(f.deductionsEmpty, DeductionsEmpty, x)
             + EntryHits(f.entries, |f.entries|, x) + Hit(f.mismatch, NetSalaryMismatch, x)
             + Hit(f.methodEmpty, PaymentMethodEmpty, x) + Hit(f.accountEmpty, BankAccountEmpty, x)
             + Hit(f.accountFormat, BankAccountFormat, x) + Hit(f.employerEmpty, EmployerEmpty, x)
             + Hit(f.hoursNegative, HoursNegative, x)
  {
    var head := HeadReport([], f);
    HeadCount([], f, x);
    DeductionsCount(head, f, x);
    TailCount(DeductionsReport(head, f), f, x);
  }

  /** The per-entry tests report only the two entry codes. */
  lemma {:induction false} EntryHitsOther(ds: seq<Deduction>, n: nat, x: PayslipError)
    requires n <= |ds| && !x.DeductionNameBlank? && !x.DeductionAmountInvalid?
    ensures EntryHits(ds, n, x) == 0
  {
    if n > 0 {
      EntryHitsOther(ds, n - 1, x);
    }
  }

  /** The positions, among the first `n`, of the entries whose name is null or blank. */
  function BlankNamed(ds: seq<Deduction>, n: nat): set<nat>
    requires n <= |ds|
  {
    set i | 0 <= i < n && IsNullOrBlank(ds[i].name)
  }

  /** An entry whose amount is bad and whose name renders as `key`. */
  predicate IsBadAmountFor(d: Deduction, key: string) {
    IsBadAmount(d.amount) && Show(d.name) == key
  }

  /** The positions, among the first `n`, of the entries with a bad amount
      whose name renders as `key`. */
  function BadAmountKeyed(ds: seq<Deduction>, n: nat, key: string): set<nat>
    requires n <= |ds|
  {
    set i | 0 <= i < n && IsBadAmountFor(ds[i], key)
  }

  /** One name message per entry with a null or blank name. */
  lemma {:induction false} NameHits(ds: seq<Deduction>, n: nat)
    requires n <= |ds|
    ensures EntryHits(ds, n, DeductionNameBlank) == |BlankNamed(ds, n)|
  {
    if n > 0 {
      NameHits(ds, n - 1);
      var last := if IsNullOrBlank(ds[n - 1].name) then {n - 1} else {};
      assert BlankNamed(ds, n) == BlankNamed(ds, n - 1) + last;
    }
  }

  /** One amount message naming `key` per entry with a bad amount whose name
      renders as `key`. */
  lemma {:induction false} AmountHits(ds: seq<Deduction>, n: nat, key: string)
    requires n <= |ds|
    ensures EntryHits(ds, n, DeductionAmountInvalid(key)) == |BadAmountKeyed(ds, n, key)|
  {
    if n > 0 {
      AmountHits(ds, n - 1, key);
      var last := if IsBadAmountFor(ds[n - 1], key) then {n - 1} else {};
      assert BadAmountKeyed(ds, n, key) == BadAmountKeyed(ds, n - 1, key) + last;
    }
  }
  /** A message occurs in the errors as often as its code in the report. */
  lemma MessageCount(p: PayslipData, today: Date, e: PayslipError)
    ensures multiset(Errors(p, today))[Message(e)] == multiset(Report(Failed(p, today)))[e]
  {
    ErrorsAreReport(p, today);
    MessageInjective();
    RenderCount(Report(Failed(p, today)), Message, e);
  }

  // ---------------------------------------------------------------------
  // Order and emptiness

  lemma HeadOrdered(f: Checks)
    ensures Ordered(HeadReport([], f), Rank) && RanksAtMost(HeadReport([], f), Rank, Rank(PaymentDateInFuture))
  {
    var period := AddIf(AddIf(AddIf(AddIf([], f.salary, SalaryNotPositive), f.employeeId, EmployeeIdEmpty),
                              f.employeeName, EmployeeNameEmpty), f.periodEmpty, PayPeriodEmpty);
    OrderedFour([], Rank, 0, f.salary, SalaryNotPositive, f.employeeId, EmployeeIdEmpty,
                f.employeeName, EmployeeNameEmpty, f.periodEmpty, PayPeriodEmpty);
    OrderedThree(period, Rank, Rank(PayPeriodEmpty), f.periodFormat, PayPeriodFormat, f.dateEmpty, PaymentDateEmpty,
                 f.dateInFuture, PaymentDateInFuture);
  }

  lemma {:induction false} EntryCodesOrdered(codes: seq<PayslipError>, ds: seq<Deduction>, n: nat)
    requires n <= |ds| && Ordered(codes, Rank) && RanksAtMost(codes, Rank, 8)
    ensures Ordered(EntryCodes(codes, ds, n), Rank) && RanksAtMost(EntryCodes(codes, ds, n), Rank, 8)
  {
    if n > 0 {
      var d := ds[n - 1];
      var before := EntryCodes(codes, ds, n - 1);
      EntryCodesOrdered(codes, ds, n - 1);
      AddIfOrdered(before, IsNullOrBlank(d.name), DeductionNameBlank, Rank, 8);
      AddIfOrdered(AddIf(before, IsNullOrBlank(d.name), DeductionNameBlank), IsBadAmount(d.amount),
                   DeductionAmountInvalid(Show(d.name)), Rank, 8);
    }
  }

  lemma DeductionsOrdered(codes: seq<PayslipError>, f: Checks)
    requires Ordered(codes, Rank) && RanksAtMost(codes, Rank, Rank(PaymentDateInFuture))
    ensures Ordered(DeductionsReport(codes, f), Rank) && RanksAtMost(DeductionsReport(codes, f), Rank, Rank(NetSalaryMismatch))
  {
    var empty := AddIf(codes, f.deductionsEmpty, DeductionsEmpty);
    AddIfOrdered(codes, f.deductionsEmpty, DeductionsEmpty, Rank, Rank(PaymentDateInFuture));
    EntryCodesOrdered(empty, f.entries, |f.entries|);
    AddIfOrdered(EntryCodes(empty, f.entries, |f.entries|), f.mismatch, NetSalaryMismatch, Rank, 8);
  }

  lemma TailOrdered(codes: seq<PayslipError>, f: Checks)
    requires Ordered(codes, Rank) && RanksAtMost(codes, Rank, Rank(NetSalaryMismatch))
    ensures Ordered(TailReport(codes, f), Rank)
  {
    var method' := AddIf(codes, f.methodEmpty, PaymentMethodEmpty);
    OrderedFour(codes, Rank, Rank(NetSalaryMismatch), f.methodEmpty, PaymentMethodEmpty, f.accountEmpty, BankAccountEmpty,
                f.accountFormat, BankAccountFormat, f.employerEmpty, EmployerEmpty);
    AddIfOrdered(AddIf(AddIf(AddIf(method', f.accountEmpty, BankAccountEmpty), f.accountFormat, BankAccountFormat),
                       f.employerEmpty, EmployerEmpty), f.hoursNegative, HoursNegative, Rank, Rank(EmployerEmpty));
  }

  /** The codes come in the order of the tests, the entries' codes together
      between the deductions-empty test and the reconciliation. */
  lemma ReportOrdered(f: Checks)
    ensures Ordered(Report(f), Rank)
  {
    var head := HeadReport([], f);
    HeadOrdered(f);
    DeductionsOrdered(head, f);
    TailOrdered(DeductionsReport(head, f), f);
  }

  /** The errors are messages of codes listed in source order. */
  lemma ErrorsInSourceOrder(p: PayslipData, today: Date)
    ensures Errors(p, today) == Render(Report(Failed(p, today)), Message)
    ensures Ordered(Report(Failed(p, today)), Rank)
  {
    ErrorsAreReport(p, today);
    ReportOrdered(Failed(p, today));
  }

  lemma {:induction false} EntryCodesEmpty(codes: seq<PayslipError>, ds: seq<Deduction>, n: nat)
    requires n <= |ds|
    ensures EntryCodes(codes, ds, n) == [] <==> codes == [] && !HasInvalidEntry(ds, n)
  {
    if n > 0 {
      EntryCodesEmpty(codes, ds, n - 1);
    }
  }

  /** No code is reported exactly when no test fails and no entry is invalid. */
  lemma ReportEmptyIff(f: Checks)
    ensures Report(f) == []
            <==> !f.salary && !f.employeeId && !f.employeeName && !f.periodEmpty && !f.periodFormat
                 && !f.dateEmpty && !f.dateInFuture && !f.deductionsEmpty
                 && !HasInvalidEntry(f.entries, |f.entries|) && !f.mismatch
                 && !f.methodEmpty && !f.accountEmpty && !f.accountFormat && !f.employerEmpty && !f.hoursNegative
  {
    var head := HeadReport([], f);
    EntryCodesEmpty(AddIf(head, f.deductionsEmpty, DeductionsEmpty), f.entries, |f.entries|);
  }

  /** A payslip passes exactly when both salaries are positive, the ID and
      name are not trim-empty, the period is a year-month, the date is present
      and not after `today`, the deductions are a nonempty map of named,
      nonnegative amounts that reconciles the salaries, a payment method is
      given, a bank transfer has an IBAN-shaped account, the employer is
      present and the hours are not negative. */
  lemma PassesIff(p: PayslipData, today: Date)
    ensures Errors(p, today) == []
            <==> p.grossSalary > 0.0 && p.netSalary > 0.0
                 && !IsNullOrTrimEmpty(p.employeeId) && !IsNullOrTrimEmpty(p.employeeName)
                 && !IsNullOrBlank(p.payPeriod) && ParseYearMonth(p.payPeriod.value).Some?
                 && p.paymentDate.Some? && !IsAfter(p.paymentDate.value, today)
                 && Listed(p.deductions) != [] && !HasInvalidEntry(Listed(p.deductions), |Listed(p.deductions)|)
                 && !IsMismatch(p.grossSalary, p.netSalary, Listed(p.deductions))
                 && p.paymentMethod.Some?
                 && (p.paymentMethod == Some(BankTransfer) ==> !IsNullOrBlank(p.bankAccount) && IsIbanShaped(p.bankAccount.value))
                 && p.employer.Some? && p.hoursWorked >= 0
  {
    ErrorsAreReport(p, today);
    ReportEmptyIff(Failed(p, today));
  }
  // ---------------------------------------------------------------------
  // Rule by rule

  /** Either salary at or below zero gives the one salary message; there is no
      message per salary. */
  lemma SalaryRule(p: PayslipData, today: Date)
    ensures multiset(Errors(p, today))[Message(SalaryNotPositive)] == if p.grossSalary <= 0.0 || p.netSalary <= 0.0 then 1 else 0
  {
    MessageCount(p, today, SalaryNotPositive);
    ReportCount(Failed(p, today), SalaryNotPositive);
    EntryHitsOther(Listed(p.deductions), |Listed(p.deductions)|, SalaryNotPositive);
  }

  /** A null or trim-empty employee ID is reported once. */
  lemma EmployeeIdRule(p: PayslipData, today: Date)
    ensures multiset(Errors(p, today))[Message(EmployeeIdEmpty)] == if IsNullOrTrimEmpty(p.employeeId) then 1 else 0
  {
    MessageCount(p, today, EmployeeIdEmpty);
    ReportCount(Failed(p, today), EmployeeIdEmpty);
    EntryHitsOther(Listed(p.deductions), |Listed(p.deductions)|, EmployeeIdEmpty);
  }

  /** A null or trim-empty employee name is reported once. */
  lemma EmployeeNameRule(p: PayslipData, today: Date)
    ensures multiset(Errors(p, today))[Message(EmployeeNameEmpty)] == if IsNullOrTrimEmpty(p.employeeName) then 1 else 0
  {
    MessageCount(p, today, EmployeeNameEmpty);
    ReportCount(Failed(p, today), EmployeeNameEmpty);
    EntryHitsOther(Listed(p.deductions), |Listed(p.deductions)|, EmployeeNameEmpty);
  }

  /** A null or blank pay period is reported once. */
  lemma PayPeriodEmptyRule(p: PayslipData, today: Date)
    ensures multiset(Errors(p, today))[Message(PayPeriodEmpty)] == if IsNullOrBlank(p.payPeriod) then 1 else 0
  {
    MessageCount(p, today, PayPeriodEmpty);
    ReportCount(Failed(p, today), PayPeriodEmpty);
    EntryHitsOther(Listed(p.deductions), |Listed(p.deductions)|, PayPeriodEmpty);
  }

  /** A pay period that is not blank but is not a year-month is reported once. */
  lemma PayPeriodFormatRule(p: PayslipData, today: Date)
    ensures multiset(Errors(p, today))[Message(PayPeriodFormat)] == if !IsNullOrBlank(p.payPeriod) && ParseYearMonth(p.payPeriod.value).None? then 1 else 0
  {
    MessageCount(p, today, PayPeriodFormat);
    ReportCount(Failed(p, today), PayPeriodFormat);
    EntryHitsOther(Listed(p.deductions), |Listed(p.deductions)|, PayPeriodFormat);
  }

  /** A null payment date is reported once. */
  lemma PaymentDateEmptyRule(p: PayslipData, today: Date)
    ensures multiset(Errors(p, today))[Message(PaymentDateEmpty)] == if p.paymentDate.None? then 1 else 0
  {
    MessageCount(p, today, PaymentDateEmpty);
    ReportCount(Failed(p, today), PaymentDateEmpty);
    EntryHitsOther(Listed(p.deductions), |Listed(p.deductions)|, PaymentDateEmpty);
  }

  /** A payment date strictly after `today` is reported once. */
  lemma PaymentDateFutureRule(p: PayslipData, today: Date)
    ensures multiset(Errors(p, today))[Message(PaymentDateInFuture)] == if p.paymentDate.Some? && IsAfter(p.paymentDate.value, today) then 1 else 0
  {
    MessageCount(p, today, PaymentDateInFuture);
    ReportCount(Failed(p, today), PaymentDateInFuture);
    EntryHitsOther(Listed(p.deductions), |Listed(p.deductions)|, PaymentDateInFuture);
  }

  /** A null or empty deductions map is reported once. */
  lemma DeductionsEmptyRule(p: PayslipData, today: Date)
    ensures multiset(Errors(p, today))[Message(DeductionsEmpty)] == if Listed(p.deductions) == [] then 1 else 0
  {
    MessageCount(p, today, DeductionsEmpty);
    ReportCount(Failed(p, today), DeductionsEmpty);
    EntryHitsOther(Listed(p.deductions), |Listed(p.deductions)|, DeductionsEmpty);
  }

  /** The reconciliation message appears once when the map is nonempty, no
      entry is invalid and the salaries, as they are, are off by more than the
      tolerance. */
  lemma NetSalaryRule(p: PayslipData, today: Date)
    ensures var ds := Listed(p.deductions);
            multiset(Errors(p, today))[Message(NetSalaryMismatch)] == if ds != [] && !HasInvalidEntry(ds, |ds|) && IsMismatch(p.grossSalary, p.netSalary, ds) then 1 else 0
  {
    MessageCount(p, today, NetSalaryMismatch);
    ReportCount(Failed(p, today), NetSalaryMismatch);
    EntryHitsOther(Listed(p.deductions), |Listed(p.deductions)|, NetSalaryMismatch);
  }

  /** A null payment method is reported once. */
  lemma PaymentMethodRule(p: PayslipData, today: Date)
    ensures multiset(Errors(p, today))[Message(PaymentMethodEmpty)] == if p.paymentMethod.None? then 1 else 0
  {
    MessageCount(p, today, PaymentMethodEmpty);
    ReportCount(Failed(p, today), PaymentMethodEmpty);
    EntryHitsOther(Listed(p.deductions), |Listed(p.deductions)|, PaymentMethodEmpty);
  }

  /** A bank transfer with a null or blank account is reported once; other
      methods are never asked for an account. */
  lemma BankAccountEmptyRule(p: PayslipData, today: Date)
    ensures multiset(Errors(p, today))[Message(BankAccountEmpty)] == if p.paymentMethod == Some(BankTransfer) && IsNullOrBlank(p.bankAccount) then 1 else 0
  {
    MessageCount(p, today, BankAccountEmpty);
    ReportCount(Failed(p, today), BankAccountEmpty);
    EntryHitsOther(Listed(p.deductions), |Listed(p.deductions)|, BankAccountEmpty);
  }

  /** A bank transfer whose account is present but not IBAN-shaped is reported once. */
  lemma BankAccountFormatRule(p: PayslipData, today: Date)
    ensures multiset(Errors(p, today))[Message(BankAccountFormat)] == if p.paymentMethod == Some(BankTransfer) && !IsNullOrBlank(p.bankAccount) && !IsIbanShaped(p.bankAccount.value) then 1 else 0
  {
    MessageCount(p, today, BankAccountFormat);
    ReportCount(Failed(p, today), BankAccountFormat);
    EntryHitsOther(Listed(p.deductions), |Listed(p.deductions)|, BankAccountFormat);
  }

  /** A null employer is reported once. */
  lemma EmployerRule(p: PayslipData, today: Date)
    ensures multiset(Errors(p, today))[Message(EmployerEmpty)] == if p.employer.None? then 1 else 0
  {
    MessageCount(p, today, EmployerEmpty);
    ReportCount(Failed(p, today), EmployerEmpty);
    EntryHitsOther(Listed(p.deductions), |Listed(p.deductions)|, EmployerEmpty);
  }

  /** Negative hours are reported once. */
  lemma HoursRule(p: PayslipData, today: Date)
    ensures multiset(Errors(p, today))[Message(HoursNegative)] == if p.hoursWorked < 0 then 1 else 0
  {
    MessageCount(p, today, HoursNegative);
    ReportCount(Failed(p, today), HoursNegative);
    EntryHitsOther(Listed(p.deductions), |Listed(p.deductions)|, HoursNegative);
  }

  /** One name message for each entry whose name is null or blank. */
  lemma DeductionNameRule(p: PayslipData, today: Date)
    ensures var ds := Listed(p.deductions);
            multiset(Errors(p, today))[Message(DeductionNameBlank)] == |BlankNamed(ds, |ds|)|
  {
    var ds := Listed(p.deductions);
    MessageCount(p, today, DeductionNameBlank);
    ReportCount(Failed(p, today), DeductionNameBlank);
    NameHits(ds, |ds|);
  }

  /** One amount message quoting `key` for each entry with a null or
      negative amount whose name renders as `key`. */
  lemma DeductionAmountRule(p: PayslipData, today: Date, key: string)
    ensures var ds := Listed(p.deductions);
            multiset(Errors(p, today))[Message(DeductionAmountInvalid(key))] == |BadAmountKeyed(ds, |ds|, key)|
  {
    var ds := Listed(p.deductions);
    MessageCount(p, today, DeductionAmountInvalid(key));
    ReportCount(Failed(p, today), DeductionAmountInvalid(key));
    AmountHits(ds, |ds|, key);
  }

  /** Since the map's names are distinct, an entry named `key` (other than
      the text "null", which a null name also renders as) gets one amount
      message exactly when its amount is null or negative; zero passes. */
  lemma AmountMessageOnce(p: PayslipData, today: Date, j: nat)
    requires p.deductions.Some? && j < |p.deductions.value|
    requires p.deductions.value[j].name.Some? && p.deductions.value[j].name.value != "null"
    ensures var d := p.deductions.value[j];
            multiset(Errors(p, today))[Message(DeductionAmountInvalid(d.name.value))] == if IsBadAmount(d.amount) then 1 else 0
  {
    var ds := p.deductions.value;
    var key := ds[j].name.value;
    DeductionAmountRule(p, today, key);
    assert BadAmountKeyed(ds, |ds|, key) == if IsBadAmount(ds[j].amount) then {j} else {} by {
      forall i | 0 <= i < |ds| && IsBadAmountFor(ds[i], key)
        ensures i == j
      {
        assert ds[i].name == ds[j].name;
      }
    }
  }

  /** A null or empty map gives neither entry messages nor a reconciliation
      message. */
  lemma EmptyDeductionsOnly(p: PayslipData, today: Date, key: string)
    requires Listed(p.deductions) == []
    ensures multiset(Errors(p, today))[Message(DeductionsEmpty)] == 1
    ensures multiset(Errors(p, today))[Message(DeductionNameBlank)] == 0
    ensures multiset(Errors(p, today))[Message(DeductionAmountInvalid(key))] == 0
    ensures multiset(Errors(p, today))[Message(NetSalaryMismatch)] == 0
  {
    DeductionsEmptyRule(p, today);
    DeductionNameRule(p, today);
    DeductionAmountRule(p, today, key);
    NetSalaryRule(p, today);
  }

  /** At most one pay-period message. */
  lemma PayPeriodAtMostOne(p: PayslipData, today: Date)
    ensures multiset(Errors(p, today))[Message(PayPeriodEmpty)] + multiset(Errors(p, today))[Message(PayPeriodFormat)] <= 1
  {
    PayPeriodEmptyRule(p, today);
    PayPeriodFormatRule(p, today);
  }

  /** At most one payment-date message, and none for a payslip paid `today`. */
  lemma PaymentDateAtMostOne(p: PayslipData, today: Date)
    ensures multiset(Errors(p, today))[Message(PaymentDateEmpty)] + multiset(Errors(p, today))[Message(PaymentDateInFuture)] <= 1
    ensures p.paymentDate == Some(today)
            ==> (multiset(Errors(p, today))[Message(PaymentDateEmpty)] + multiset(Errors(p, today))[Message(PaymentDateInFuture)] == 0)
  {
    PaymentDateEmptyRule(p, today);
    PaymentDateFutureRule(p, today);
    IsAfterStrictTotalOrder(today, today, today);
  }

  /** At most one bank-account message, and none unless the payment is a
      bank transfer. */
  lemma BankAccountAtMostOne(p: PayslipData, today: Date)
    ensures multiset(Errors(p, today))[Message(BankAccountEmpty)] + multiset(Errors(p, today))[Message(BankAccountFormat)] <= 1
    ensures p.paymentMethod != Some(BankTransfer)
            ==> (multiset(Errors(p, today))[Message(BankAccountEmpty)] + multiset(Errors(p, today))[Message(BankAccountFormat)] == 0)
  {
    BankAccountEmptyRule(p, today);
    BankAccountFormatRule(p, today);
  }
  // ---------------------------------------------------------------------
  // The iteration order of the map

  /** What the stream sum adds for one entry (reached only for present amounts). */
  function Amount(d: Deduction): real {
    if d.amount.Some? then d.amount.value else 0.0
  }

  lemma {:induction false} SumIsTally(ds: seq<Deduction>, n: nat)
    requires n <= |ds| && !HasInvalidEntry(ds, n)
    ensures Sum(ds, n) == Tally(ds[..n], Amount)
  {
    if n > 0 {
      SumIsTally(ds, n - 1);
      assert ds[..n][..n - 1] == ds[..n - 1];
    }
  }

  /** How many copies of `x` the tests of one entry add. */
  function EntryWeight(x: PayslipError, d: Deduction): real {
    (Hit(IsNullOrBlank(d.name), DeductionNameBlank, x) + Hit(IsBadAmount(d.amount), DeductionAmountInvalid(Show(d.name)), x)) as real
  }

  lemma {:induction false} EntryHitsIsTally(ds: seq<Deduction>, n: nat, x: PayslipError, g: Deduction -> real)
    requires n <= |ds| && forall d :: g(d) == EntryWeight(x, d)
    ensures EntryHits(ds, n, x) as real == Tally(ds[..n], g)
  {
    if n > 0 {
      EntryHitsIsTally(ds, n - 1, x, g);
      assert ds[..n][..n - 1] == ds[..n - 1];
    }
  }

  /** The flag is set exactly when some entry is invalid. */
  lemma {:induction false} HasInvalidIff(ds: seq<Deduction>, n: nat)
    requires n <= |ds|
    ensures HasInvalidEntry(ds, n) <==> exists i :: 0 <= i < n && IsInvalidEntry(ds[i])
  {
    if n > 0 {
      HasInvalidIff(ds, n - 1);
    }
  }

  /** Walking the entries in another order sets the same flag, reaches the
      same sum and reports each code as often. */
  lemma EntriesPermutation(ds: seq<Deduction>, ds': seq<Deduction>)
    requires multiset(ds) == multiset(ds')
    ensures HasInvalidEntry(ds, |ds|) == HasInvalidEntry(ds', |ds'|)
    ensures !HasInvalidEntry(ds, |ds|) ==> Sum(ds, |ds|) == Sum(ds', |ds'|)
    ensures forall x :: EntryHits(ds, |ds|, x) == EntryHits(ds', |ds'|, x)
  {
    HasInvalidIff(ds, |ds|);
    HasInvalidIff(ds', |ds'|);
    forall i | 0 <= i < |ds| && IsInvalidEntry(ds[i])
      ensures exists j :: 0 <= j < |ds'| && IsInvalidEntry(ds'[j])
    {
      assert ds[i] in multiset(ds');
    }
    forall j | 0 <= j < |ds'| && IsInvalidEntry(ds'[j])
      ensures exists i :: 0 <= i < |ds| && IsInvalidEntry(ds[i])
    {
      assert ds'[j] in multiset(ds);
    }
    assert ds[..|ds|] == ds && ds'[..|ds'|] == ds';
    if !HasInvalidEntry(ds, |ds|) {
      SumIsTally(ds, |ds|);
      SumIsTally(ds', |ds'|);
      TallyPermutation(ds, ds', Amount);
    }
    forall x
      ensures EntryHits(ds, |ds|, x) == EntryHits(ds', |ds'|, x)
    {
      var g := d => EntryWeight(x, d);
      EntryHitsIsTally(ds, |ds|, x, g);
      EntryHitsIsTally(ds', |ds'|, x, g);
      TallyPermutation(ds, ds', g);
    }
  }

  /** The tests before and after the deductions block do not look at the entries. */
  lemma SegmentsIgnoreEntries(codes: seq<PayslipError>, f: Checks, ds: seq<Deduction>)
    ensures HeadReport(codes, f.(entries := ds)) == HeadReport(codes, f)
    ensures TailReport(codes, f.(entries := ds)) == TailReport(codes, f)
  {
  }

  /** Replacing the entries changes the count of `x` in the deductions block
      by the difference of the entries' hits. */
  lemma DeductionsSplitEntries(codes: seq<PayslipError>, f: Checks, ds: seq<Deduction>, x: PayslipError)
    ensures multiset(DeductionsReport(codes, f))[x] + EntryHits(ds, |ds|, x)
            == multiset(DeductionsReport(codes, f.(entries := ds)))[x] + EntryHits(f.entries, |f.entries|, x)
  {
    DeductionsCount(codes, f, x);
    DeductionsCount(codes, f.(entries := ds), x);
  }

  /** Blocks that start from as many copies of `x` end with as many. */
  lemma TailKeepsCount(c1: seq<PayslipError>, c2: seq<PayslipError>, f: Checks, x: PayslipError)
    requires multiset(c1)[x] == multiset(c2)[x]
    ensures multiset(TailReport(c1, f))[x] == multiset(TailReport(c2, f))[x]
  {
    TailCount(c1, f, x);
    TailCount(c2, f, x);
  }

  /** Entries that report `x` as often give a report with as many `x`. */
  lemma SameEntryHits(f: Checks, ds: seq<Deduction>, x: PayslipError)
    requires EntryHits(f.entries, |f.entries|, x) == EntryHits(ds, |ds|, x)
    ensures multiset(Report(f.(entries := ds)))[x] == multiset(Report(f))[x]
  {
    var g := f.(entries := ds);
    var head := HeadReport([], f);
    SegmentsIgnoreEntries([], f, ds);
    DeductionsSplitEntries(head, f, ds, x);
    SegmentsIgnoreEntries(DeductionsReport(head, g), f, ds);
    TailKeepsCount(DeductionsReport(head, g), DeductionsReport(head, f), f, x);
  }

  /** Listing the entries in another order rearranges the report. */
  lemma ReportPermutation(f: Checks, ds: seq<Deduction>)
    requires multiset(f.entries) == multiset(ds)
    ensures multiset(Report(f.(entries := ds))) == multiset(Report(f))
  {
    EntriesPermutation(f.entries, ds);
    forall x
      ensures multiset(Report(f.(entries := ds)))[x] == multiset(Report(f))[x]
    {
      SameEntryHits(f, ds, x);
    }
  }

  /** Rearranging the map moves no flag: only the listed entries change. */
  lemma PermutedChecks(p: PayslipData, today: Date, ds: DeductionMap)
    requires p.deductions.Some? && multiset(ds) == multiset(p.deductions.value)
    ensures Failed(p.(deductions := Some(ds)), today) == Failed(p, today).(entries := ds)
  {
    EntriesPermutation(p.deductions.value, ds);
    assert |ds| == |multiset(ds)| == |multiset(p.deductions.value)| == |p.deductions.value|;
    DeductionsOnlyMoveTheirFlags(p, today, Some(ds));
  }

  /** The order in which the map hands out its entries changes at most the
      order of the errors, never which errors there are or how many. */
  lemma DeductionOrderIrrelevant(p: PayslipData, today: Date, ds: DeductionMap)
    requires p.deductions.Some? && multiset(ds) == multiset(p.deductions.value)
    ensures multiset(Errors(p.(deductions := Some(ds)), today)) == multiset(Errors(p, today))
  {
    var f := Failed(p, today);
    PermutedChecks(p, today, ds);
    ReportPermutation(f, ds);
    ErrorsAreReport(p, today);
    ErrorsAreReport(p.(deductions := Some(ds)), today);
    RenderPermutation(Report(f.(entries := ds)), Report(f), Message);
  }

  // ---------------------------------------------------------------------
  // Changing one field
  //
  // Each field is read by its own tests only (and the salaries and the
  // deductions also by the reconciliation, the payment method also by the
  // account tests): setting it moves those flags and leaves the rest.

  lemma EmployeeIdOnlyMovesItsFlag(p: PayslipData, today: Date, v: Option<string>)
    ensures Failed(p.(employeeId := v), today) == Failed(p, today).(employeeId := IsNullOrTrimEmpty(v))
  {
  }

  lemma EmployeeNameOnlyMovesItsFlag(p: PayslipData, today: Date, v: Option<string>)
    ensures Failed(p.(employeeName := v), today) == Failed(p, today).(employeeName := IsNullOrTrimEmpty(v))
  {
  }

  lemma PayPeriodOnlyMovesItsFlags(p: PayslipData, today: Date, v: Option<string>)
    ensures Failed(p.(payPeriod := v), today)
            == Failed(p, today).(periodEmpty := IsNullOrBlank(v),
                                 periodFormat := !IsNullOrBlank(v) && ParseYearMonth(v.value).None?)
  {
  }

  lemma PaymentDateOnlyMovesItsFlags(p: PayslipData, today: Date, v: Option<Date>)
    ensures Failed(p.(paymentDate := v), today)
            == Failed(p, today).(dateEmpty := v.None?, dateInFuture := v.Some? && IsAfter(v.value, today))
  {
  }

  lemma GrossSalaryOnlyMovesItsFlags(p: PayslipData, today: Date, v: real)
    ensures var ds := Listed(p.deductions);
            Failed(p.(grossSalary := v), today)
            == Failed(p, today).(salary := v <= 0.0 || p.netSalary <= 0.0,
                                 mismatch := ds != [] && !HasInvalidEntry(ds, |ds|) && IsMismatch(v, p.netSalary, ds))
  {
  }

  lemma NetSalaryOnlyMovesItsFlags(p: PayslipData, today: Date, v: real)
    ensures var ds := Listed(p.deductions);
            Failed(p.(netSalary := v), today)
            == Failed(p, today).(salary := p.grossSalary <= 0.0 || v <= 0.0,
                                 mismatch := ds != [] && !HasInvalidEntry(ds, |ds|) && IsMismatch(p.grossSalary, v, ds))
  {
  }

  lemma DeductionsOnlyMoveTheirFlags(p: PayslipData, today: Date, v: Option<DeductionMap>)
    ensures var ds := Listed(v);
            Failed(p.(deductions := v), today)
            == Failed(p, today).(deductionsEmpty := ds == [], entries := ds,
                                 mismatch := ds != [] && !HasInvalidEntry(ds, |ds|) && IsMismatch(p.grossSalary, p.netSalary, ds))
  {
  }

  lemma PaymentMethodOnlyMovesItsFlags(p: PayslipData, today: Date, v: Option<PaymentMethod>)
    ensures var transfer := v == Some(BankTransfer);
            Failed(p.(paymentMethod := v), today)
            == Failed(p, today).(methodEmpty := v.None?,
                                 accountEmpty := transfer && IsNullOrBlank(p.bankAccount),
                                 accountFormat := transfer && !IsNullOrBlank(p.bankAccount) && !IsIbanShaped(p.bankAccount.value))
  {
  }

  lemma BankAccountOnlyMovesItsFlags(p: PayslipData, today: Date, v: Option<string>)
    ensures var transfer := p.paymentMethod == Some(BankTransfer);
            Failed(p.(bankAccount := v), today)
            == Failed(p, today).(accountEmpty := transfer && IsNullOrBlank(v),
                                 accountFormat := transfer && !IsNullOrBlank(v) && !IsIbanShaped(v.value))
  {
  }

  lemma EmployerOnlyMovesItsFlag(p: PayslipData, today: Date, v: Option<Employer>)
    ensures Failed(p.(employer := v), today) == Failed(p, today).(employerEmpty := v.None?)
  {
  }

  lemma HoursOnlyMoveTheirFlag(p: PayslipData, today: Date, v: Int32)
    ensures Failed(p.(hoursWorked := v), today) == Failed(p, today).(hoursNegative := v < 0)
  {
  }

  // ---------------------------------------------------------------------
  // Examples

  /** The account of the valid payslip is IBAN-shaped; one that starts with
      digits is not. */
  lemma IbanExamples()
    ensures IsIbanShaped("IE29AIBK93115212345678")
    ensures !IsIbanShaped("54IEAIBK93115215678")
  {
  }

  /** Gross 3000 less deductions of 500 and 200 reconciles with a net of 2300
      and, well within the tolerance, of 2300.005 and 2299.995, but not with
      1000 or 2300.02. */
  lemma ReconciliationExamples()
    ensures var ds := [Deduction(Some("Tax"), Some(500.0)), Deduction(Some("Pension"), Some(200.0))];
            !HasInvalidEntry(ds, |ds|)
            && !IsMismatch(3000.0, 2300.0, ds) && !IsMismatch(3000.0, 2300.005, ds) && !IsMismatch(3000.0, 2299.995, ds)
            && IsMismatch(3000.0, 1000.0, ds) && IsMismatch(3000.0, 2300.02, ds) && IsMismatch(0.0, 2300.0, ds)
  {
    var ds := [Deduction(Some("Tax"), Some(500.0)), Deduction(Some("Pension"), Some(200.0))];
    assert Sum(ds, |ds|) == 700.0;
  }

  /** The deductions of the payslip the tests start from. */
  const ValidDeductions: DeductionMap := [Deduction(Some("Tax"), Some(500.0)), Deduction(Some("Pension"), Some(200.0))]

  /** The payslip the tests start from. */
  const ValidPayslip := PayslipData(
    Some("EMP001"), Some("John Doe"), Some("2025-05"), Some(Date(2025, 5, 25)), 3000.0,
    Some(ValidDeductions), 2300.0, Some(BankTransfer), Some("IE29AIBK93115212345678"),
    Some(Employer(Some("ValidCorp Ltd"), Some("1234567A"))), 160)

  /** The texts of the valid payslip pass their blank tests. */
  lemma ValidTexts()
    ensures !IsNullOrTrimEmpty(ValidPayslip.employeeId) && !IsNullOrTrimEmpty(ValidPayslip.employeeName)
    ensures !IsNullOrBlank(ValidPayslip.payPeriod) && !IsNullOrBlank(ValidPayslip.bankAccount)
  {
    assert !IsTrimmable("EMP001"[0]) && !IsTrimmable("EMP001"[5]);
    assert !IsTrimmable("John Doe"[0]) && !IsTrimmable("John Doe"[7]);
  }

  /** No test fails, with the valid deductions listed. */
  const Passing := Checks(false, false, false, false, false, false, false, false, ValidDeductions, false,
                          false, false, false, false, false)

  /** On its payment date and later, no test of the valid payslip fails. */
  lemma ValidPayslipChecks(today: Date)
    requires !IsAfter(Date(2025, 5, 25), today)
    ensures Failed(ValidPayslip, today) == Passing
  {
    ValidTexts();
    ParseYearMonthExamples();
    IbanExamples();
    ReconciliationExamples();
  }

  /** The valid payslip passes on its payment date and later. */
  lemma ValidPayslipPasses(today: Date)
    requires !IsAfter(Date(2025, 5, 25), today)
    ensures Errors(ValidPayslip, today) == []
  {
    ValidTexts();
    ParseYearMonthExamples();
    IbanExamples();
    ReconciliationExamples();
    PassesIff(ValidPayslip, today);
  }

  /** The rendered list holds the message of each code at its position. */
  lemma {:induction false} RenderEach(codes: seq<PayslipError>)
    ensures |Render(codes, Message)| == |codes|
    ensures forall i :: 0 <= i < |codes| ==> Render(codes, Message)[i] == Message(codes[i])
  {
    if codes != [] {
      RenderEach(codes[..|codes| - 1]);
    }
  }

  /** The messages of a payslip whose failing tests are known. */
  lemma ErrorsOfReport(p: PayslipData, today: Date, codes: seq<PayslipError>)
    requires Report(Failed(p, today)) == codes
    ensures Errors(p, today) == Render(codes, Message)
  {
    ErrorsAreReport(p, today);
  }

  /** A payslip with a single failing test gets that test's message alone. */
  lemma OneFailing(p: PayslipData, today: Date, code: PayslipError)
    requires Report(Failed(p, today)) == [code]
    ensures Errors(p, today) == [Message(code)]
  {
    ErrorsOfReport(p, today, [code]);
  }

  /** The two valid deductions add no codes. */
  lemma ValidEntryCodes(codes: seq<PayslipError>)
    ensures EntryCodes(codes, ValidDeductions, |ValidDeductions|) == codes
  {
    assert !IsWhitespace(ValidDeductions[0].name.value[0]) && !IsWhitespace(ValidDeductions[1].name.value[0]);
    assert EntryCodes(codes, ValidDeductions, 1) == codes;
  }

  /** With the valid deductions, only the fixed tests of `f` are reported. */
  lemma ValidDeductionsReport(f: Checks)
    requires !f.deductionsEmpty && f.entries == ValidDeductions
    ensures Report(f) == TailReport(AddIf(HeadReport([], f), f.mismatch, NetSalaryMismatch), f)
  {
    ValidEntryCodes(HeadReport([], f));
  }

  /** A gross salary of zero gives the one salary message, and 0 - 700 does
      not reconcile with 2300. */
  lemma ZeroGrossExample(today: Date)
    requires !IsAfter(Date(2025, 5, 25), today)
    ensures Errors(ValidPayslip.(grossSalary := 0.0), today) == [Message(SalaryNotPositive), Message(NetSalaryMismatch)]
  {
    ValidPayslipChecks(today);
    ReconciliationExamples();
    GrossSalaryOnlyMovesItsFlags(ValidPayslip, today, 0.0);
    ValidDeductionsReport(Passing.(salary := true, mismatch := true));
    ErrorsOfReport(ValidPayslip.(grossSalary := 0.0), today, [SalaryNotPositive, NetSalaryMismatch]);
  }

  /** A net salary of 1000 does not reconcile: only the mismatch is reported. */
  lemma NetSalaryExample(today: Date)
    requires !IsAfter(Date(2025, 5, 25), today)
    ensures Errors(ValidPayslip.(netSalary := 1000.0), today) == [Message(NetSalaryMismatch)]
  {
    ValidPayslipChecks(today);
    ReconciliationExamples();
    NetSalaryOnlyMovesItsFlags(ValidPayslip, today, 1000.0);
    ValidDeductionsReport(Passing.(mismatch := true));
    OneFailing(ValidPayslip.(netSalary := 1000.0), today, NetSalaryMismatch);
  }

  /** Free text as the pay period: only the format message. */
  lemma PayPeriodFormatExample(today: Date)
    requires !IsAfter(Date(2025, 5, 25), today)
    ensures Errors(ValidPayslip.(payPeriod := Some("dfsasd")), today) == [Message(PayPeriodFormat)]
  {
    ValidPayslipChecks(today);
    ParseYearMonthExamples();
    assert !IsWhitespace("dfsasd"[0]);
    PayPeriodOnlyMovesItsFlags(ValidPayslip, today, Some("dfsasd"));
    ValidDeductionsReport(Passing.(periodFormat := true));
    OneFailing(ValidPayslip.(payPeriod := Some("dfsasd")), today, PayPeriodFormat);
  }

  /** A payment date in 2099: only the future-date message. */
  lemma FutureDateExample(today: Date)
    requires !IsAfter(Date(2025, 5, 25), today) && IsAfter(Date(2099, 8, 25), today)
    ensures Errors(ValidPayslip.(paymentDate := Some(Date(2099, 8, 25))), today) == [Message(PaymentDateInFuture)]
  {
    ValidPayslipChecks(today);
    PaymentDateOnlyMovesItsFlags(ValidPayslip, today, Some(Date(2099, 8, 25)));
    ValidDeductionsReport(Passing.(dateInFuture := true));
    OneFailing(ValidPayslip.(paymentDate := Some(Date(2099, 8, 25))), today, PaymentDateInFuture);
  }

  /** An empty deductions map: only the empty-deductions message, and no
      reconciliation. */
  lemma EmptyDeductionsExample(today: Date)
    requires !IsAfter(Date(2025, 5, 25), today)
    ensures Errors(ValidPayslip.(deductions := Some([])), today) == [Message(DeductionsEmpty)]
  {
    ValidPayslipChecks(today);
    DeductionsOnlyMoveTheirFlags(ValidPayslip, today, Some([]));
    assert Report(Passing.(deductionsEmpty := true, entries := [])) == [DeductionsEmpty];
    OneFailing(ValidPayslip.(deductions := Some([])), today, DeductionsEmpty);
  }

  /** The map {"": 200}: the blank name alone, since an invalid entry skips
      the reconciliation. */
  lemma BlankKeyExample(today: Date)
    requires !IsAfter(Date(2025, 5, 25), today)
    ensures Errors(ValidPayslip.(deductions := Some([Deduction(Some(""), Some(200.0))])), today)
            == [Message(DeductionNameBlank)]
  {
    var ds: DeductionMap := [Deduction(Some(""), Some(200.0))];
    ValidPayslipChecks(today);
    assert HasInvalidEntry(ds, 1);
    DeductionsOnlyMoveTheirFlags(ValidPayslip, today, Some(ds));
    assert Report(Passing.(entries := ds)) == [DeductionNameBlank] by {
      assert EntryCodes([], ds, 1) == [DeductionNameBlank];
    }
    OneFailing(ValidPayslip.(deductions := Some(ds)), today, DeductionNameBlank);
  }

  /** The map {"Tax": -1}: the amount message naming the key, and no
      reconciliation. */
  lemma NegativeAmountExample(today: Date)
    requires !IsAfter(Date(2025, 5, 25), today)
    ensures Errors(ValidPayslip.(deductions := Some([Deduction(Some("Tax"), Some(-1.0))])), today)
            == [Message(DeductionAmountInvalid("Tax"))]
  {
    var ds: DeductionMap := [Deduction(Some("Tax"), Some(-1.0))];
    ValidPayslipChecks(today);
    assert HasInvalidEntry(ds, 1);
    DeductionsOnlyMoveTheirFlags(ValidPayslip, today, Some(ds));
    assert Report(Passing.(entries := ds)) == [DeductionAmountInvalid("Tax")] by {
      assert !IsWhitespace(ds[0].name.value[0]);
      assert EntryCodes([], ds, 1) == [DeductionAmountInvalid("Tax")];
    }
    OneFailing(ValidPayslip.(deductions := Some(ds)), today, DeductionAmountInvalid("Tax"));
  }

  /** No payment method: only that message; the account is then not looked at,
      even when it is missing too. */
  lemma NoPaymentMethodExample(today: Date)
    requires !IsAfter(Date(2025, 5, 25), today)
    ensures Errors(ValidPayslip.(bankAccount := None).(paymentMethod := None), today) == [Message(PaymentMethodEmpty)]
  {
    ValidPayslipChecks(today);
    BankAccountOnlyMovesItsFlags(ValidPayslip, today, None);
    PaymentMethodOnlyMovesItsFlags(ValidPayslip.(bankAccount := None), today, None);
    ValidDeductionsReport(Passing.(methodEmpty := true));
    OneFailing(ValidPayslip.(bankAccount := None).(paymentMethod := None), today, PaymentMethodEmpty);
  }

  /** A bank transfer without an account. */
  lemma NoBankAccountExample(today: Date)
    requires !IsAfter(Date(2025, 5, 25), today)
    ensures Errors(ValidPayslip.(bankAccount := None), today) == [Message(BankAccountEmpty)]
  {
    ValidPayslipChecks(today);
    BankAccountOnlyMovesItsFlags(ValidPayslip, today, None);
    ValidDeductionsReport(Passing.(accountEmpty := true));
    OneFailing(ValidPayslip.(bankAccount := None), today, BankAccountEmpty);
  }

  /** A bank transfer to an account that starts with digits fails the
      format test alone. */
  lemma BadIbanChecks(today: Date)
    requires !IsAfter(Date(2025, 5, 25), today)
    ensures Failed(ValidPayslip.(bankAccount := Some("54IEAIBK93115215678")), today) == Passing.(accountFormat := true)
  {
    ValidPayslipChecks(today);
    IbanExamples();
    assert !IsWhitespace("54IEAIBK93115215678"[0]);
    BankAccountOnlyMovesItsFlags(ValidPayslip, today, Some("54IEAIBK93115215678"));
  }

  /** A bank transfer to an account that starts with digits. */
  lemma BadIbanExample(today: Date)
    requires !IsAfter(Date(2025, 5, 25), today)
    ensures Errors(ValidPayslip.(bankAccount := Some("54IEAIBK93115215678")), today) == [Message(BankAccountFormat)]
  {
    BadIbanChecks(today);
    ValidDeductionsReport(Passing.(accountFormat := true));
    OneFailing(ValidPayslip.(bankAccount := Some("54IEAIBK93115215678")), today, BankAccountFormat);
  }

  /** Negative hours: only the hours message. */
  lemma NegativeHoursExample(today: Date)
    requires !IsAfter(Date(2025, 5, 25), today)
    ensures Errors(ValidPayslip.(hoursWorked := -1), today) == [Message(HoursNegative)]
  {
    ValidPayslipChecks(today);
    HoursOnlyMoveTheirFlag(ValidPayslip, today, -1);
    ValidDeductionsReport(Passing.(hoursNegative := true));
    OneFailing(ValidPayslip.(hoursWorked := -1), today, HoursNegative);
  }

  /** A payslip built with the no-argument constructor and nothing set. */
  lemma DefaultPayslipChecks(today: Date)
    ensures Failed(DefaultPayslip, today)
            == Checks(true, true, true, true, false, true, false, true, [], false, true, false, false, true, false)
  {
  }

  /** The codes of its failing tests, in source order. */
  const DefaultCodes := [SalaryNotPositive, EmployeeIdEmpty, EmployeeNameEmpty, PayPeriodEmpty, PaymentDateEmpty,
                         DeductionsEmpty, PaymentMethodEmpty, EmployerEmpty]

  lemma DefaultPayslipReport()
    ensures Report(Checks(true, true, true, true, false, true, false, true, [], false, true, false, false, true, false))
            == DefaultCodes
  {
  }

  lemma DefaultMessages()
    ensures Render(DefaultCodes, Message)
            == [Message(SalaryNotPositive), Message(EmployeeIdEmpty), Message(EmployeeNameEmpty), Message(PayPeriodEmpty),
                Message(PaymentDateEmpty), Message(DeductionsEmpty), Message(PaymentMethodEmpty), Message(EmployerEmpty)]
  {
    RenderEach(DefaultCodes);
  }

  /** The default payslip gets the eight presence messages, in source order;
      its zero hours are accepted. */
  lemma DefaultPayslipExample(today: Date)
    ensures Errors(DefaultPayslip, today)
            == [Message(SalaryNotPositive), Message(EmployeeIdEmpty), Message(EmployeeNameEmpty), Message(PayPeriodEmpty),
                Message(PaymentDateEmpty), Message(DeductionsEmpty), Message(PaymentMethodEmpty), Message(EmployerEmpty)]
  {
    DefaultPayslipChecks(today);
    DefaultPayslipReport();
    ErrorsOfReport(DefaultPayslip, today, DefaultCodes);
    DefaultMessages();
  }

  /** The payslip of the test with many invalid fields. */
  const InvalidPayslip := PayslipData(
    Some(""), Some(""), Some("invalid-date"), Some(Date(2099, 1, 1)), -1000.0,
    Some([Deduction(Some(""), Some(-100.0))]), -500.0, None, Some(""), None, -10)

  /** Its flags: every test fails except the empty period, the missing date,
      the empty map, the reconciliation (skipped for the invalid entry) and
      the two account tests (skipped without a bank transfer). */
  const InvalidChecks := Checks(true, true, true, false, true, false, true, false, [Deduction(Some(""), Some(-100.0))], false,
                                true, false, false, true, true)

  lemma InvalidPayslipChecks(today: Date)
    requires IsAfter(Date(2099, 1, 1), today)
    ensures Failed(InvalidPayslip, today) == InvalidChecks
  {
    ParseYearMonthExamples();
    assert !IsWhitespace("invalid-date"[0]);
    assert HasInvalidEntry([Deduction(Some(""), Some(-100.0))], 1);
  }

  /** The codes of its failing tests, in source order. */
  const InvalidCodes := [SalaryNotPositive, EmployeeIdEmpty, EmployeeNameEmpty, PayPeriodFormat, PaymentDateInFuture,
                         DeductionNameBlank, DeductionAmountInvalid(""), PaymentMethodEmpty, EmployerEmpty, HoursNegative]

  lemma InvalidPayslipReport()
    ensures Report(InvalidChecks) == InvalidCodes
  {
    var head := HeadReport([], InvalidChecks);
    assert head == [SalaryNotPositive, EmployeeIdEmpty, EmployeeNameEmpty, PayPeriodFormat, PaymentDateInFuture];
    assert EntryCodes(head, InvalidChecks.entries, 1) == head + [DeductionNameBlank, DeductionAmountInvalid("")];
  }

  lemma InvalidMessages()
    ensures Render(InvalidCodes, Message)
            == [Message(SalaryNotPositive), Message(EmployeeIdEmpty), Message(EmployeeNameEmpty), Message(PayPeriodFormat),
                Message(PaymentDateInFuture), Message(DeductionNameBlank), Message(DeductionAmountInvalid("")),
                Message(PaymentMethodEmpty), Message(EmployerEmpty), Message(HoursNegative)]
  {
    RenderEach(InvalidCodes);
  }

  /** Ten messages, one per failing test, in source order: the salaries
      share one, the blank key both fails its name test and is shown in the
      amount message, and the empty account is not looked at because the
      payment method is null. */
  lemma InvalidPayslipExample(today: Date)
    requires IsAfter(Date(2099, 1, 1), today)
    ensures Errors(InvalidPayslip, today)
            == [Message(SalaryNotPositive), Message(EmployeeIdEmpty), Message(EmployeeNameEmpty), Message(PayPeriodFormat),
                Message(PaymentDateInFuture), Message(DeductionNameBlank), Message(DeductionAmountInvalid("")),
                Message(PaymentMethodEmpty), Message(EmployerEmpty), Message(HoursNegative)]
  {
    InvalidPayslipChecks(today);
    InvalidPayslipReport();
    ErrorsOfReport(InvalidPayslip, today, InvalidCodes);
    InvalidMessages();
  }

  /** The object-level test: build the valid payslip with the setters,
      change the net salary to 1000, validate. */
  method IncorrectNetSalaryScenario(today: Date) returns (errors: seq<string>)
    requires !IsAfter(Date(2025, 5, 25), today)
    ensures errors == [Message(NetSalaryMismatch)]
  {
    var payslip := new Payslip();
    payslip.SetEmployeeId(Some("EMP001"));
    payslip.SetEmployeeName(Some("John Doe"));
    payslip.SetPayPeriod(Some("2025-05"));
    payslip.SetPaymentDate(Some(Date(2025, 5, 25)));
    payslip.SetGrossSalary(3000.0);
    payslip.SetDeductions(Some(ValidDeductions));
    payslip.SetNetSalary(2300.0);
    payslip.SetPaymentMethod(Some(BankTransfer));
    payslip.SetBankAccount(Some("IE29AIBK93115212345678"));
    payslip.SetEmployer(Some(Employer(Some("ValidCorp Ltd"), Some("1234567A"))));
    payslip.SetHoursWorked(160);
    assert payslip.Data() == ValidPayslip;
    payslip.SetNetSalary(1000.0);
    errors := Validate(payslip, today);
    NetSalaryExample(today);
  }

  /** `PayslipController.validatePayslip`: the response succeeds exactly when
      the payslip passes every rule, and a failure carries the errors. */
  lemma PayslipResponse(p: PayslipData, today: Date)
    ensures Respond(Errors(p, today), "Payslip is valid").success
            <==> p.grossSalary > 0.0 && p.netSalary > 0.0
                 && !IsNullOrTrimEmpty(p.employeeId) && !IsNullOrTrimEmpty(p.employeeName)
                 && !IsNullOrBlank(p.payPeriod) && ParseYearMonth(p.payPeriod.value).Some?
                 && p.paymentDate.Some? && !IsAfter(p.paymentDate.value, today)
                 && Listed(p.deductions) != [] && !HasInvalidEntry(Listed(p.deductions), |Listed(p.deductions)|)
                 && !IsMismatch(p.grossSalary, p.netSalary, Listed(p.deductions))
                 && p.paymentMethod.Some?
                 && (p.paymentMethod == Some(BankTransfer) ==> !IsNullOrBlank(p.bankAccount) && IsIbanShaped(p.bankAccount.value))
                 && p.employer.Some? && p.hoursWorked >= 0
    ensures !Respond(Errors(p, today), "Payslip is valid").success
            ==> Respond(Errors(p, today), "Payslip is valid").messages == Errors(p, today)
  {
    PassesIff(p, today);
  }
}
