/** The payslip document: `Payslip`, `PaymentMethod`, `Employer`. */
module Payslips {
  import opened Options
  import opened Dates

  /** How the employee was paid. */
  datatype PaymentMethod = BankTransfer | Cheque | Cash | DirectDeposit

  /** The employer record; the validator only asks whether it is present. */
  datatype Employer = Employer(companyName: Option<string>, employerId: Option<string>)

  /** A Java `int`. */
  type Int32 = x: int | -0x8000_0000 <= x < 0x8000_0000

  /** One entry of the deductions map: a nullable name and a nullable amount. */
  datatype Deduction = Deduction(name: Option<string>, amount: Option<real>)

  /** No two entries share a name, as in any `Map`. */
  predicate UniqueNames(ds: seq<Deduction>) {
    forall i, j :: 0 <= i < j < |ds| ==> ds[i].name != ds[j].name
  }

  /** The entries of a `Map<String, Double>`, listed in its iteration order
      (which the map does not specify). */
  type DeductionMap = ds: seq<Deduction> | UniqueNames(ds) witness []

  /** The contents of a payslip at one moment. Salaries are primitive
      doubles and so always present; every other reference may be null. */
  datatype PayslipData = PayslipData(
    employeeId: Option<string>,
    employeeName: Option<string>,
    payPeriod: Option<string>,
    paymentDate: Option<Date>,
    grossSalary: real,
    deductions: Option<DeductionMap>,
    netSalary: real,
    paymentMethod: Option<PaymentMethod>,
    bankAccount: Option<string>,
    employer: Option<Employer>,
    hoursWorked: Int32)

  /** What the implicit default constructor leaves: null references, zero numbers. */
  const DefaultPayslip := PayslipData(None, None, None, None, 0.0, None, 0.0, None, None, None, 0)

  /** A mutable payslip; its getters are the field reads. */
  class Payslip {
    var employeeId: Option<string>
    var employeeName: Option<string>
    var payPeriod: Option<string>
    var paymentDate: Option<Date>
    var grossSalary: real
    var deductions: Option<DeductionMap>
    var netSalary: real
    var paymentMethod: Option<PaymentMethod>
    var bankAccount: Option<string>
    var employer: Option<Employer>
    var hoursWorked: Int32

    /** The current contents of the eleven fields. */
    function Data(): PayslipData
      reads this
    {
      PayslipData(employeeId, employeeName, payPeriod, paymentDate, grossSalary,
                  deductions, netSalary, paymentMethod, bankAccount, employer, hoursWorked)
    }

    constructor ()
      ensures Data() == DefaultPayslip
    {
      employeeId, employeeName, payPeriod, paymentDate := None, None, None, None;
      grossSalary, deductions, netSalary := 0.0, None, 0.0;
      paymentMethod, bankAccount, employer, hoursWorked := None, None, None, 0;
    }

    method SetEmployeeId(v: Option<string>)
      modifies this`employeeId
      ensures Data() == old(Data()).(employeeId := v)
    {
      employeeId := v;
    }

    method SetEmployeeName(v: Option<string>)
      modifies this`employeeName
      ensures Data() == old(Data()).(employeeName := v)
    {
      employeeName := v;
    }

    method SetPayPeriod(v: Option<string>)
      modifies this`payPeriod
      ensures Data() == old(Data()).(payPeriod := v)
    {
      payPeriod := v;
    }

    method SetPaymentDate(v: Option<Date>)
      modifies this`paymentDate
      ensures Data() == old(Data()).(paymentDate := v)
    {
      paymentDate := v;
    }

    method SetGrossSalary(v: real)
      modifies this`grossSalary
      ensures Data() == old(Data()).(grossSalary := v)
    {
      grossSalary := v;
    }

    method SetNetSalary(v: real)
      modifies this`netSalary
      ensures Data() == old(Data()).(netSalary := v)
    {
      netSalary := v;
    }

    method SetDeductions(v: Option<DeductionMap>)
      modifies this`deductions
      ensures Data() == old(Data()).(deductions := v)
    {
      deductions := v;
    }

    method SetPaymentMethod(v: Option<PaymentMethod>)
      modifies this`paymentMethod
      ensures Data() == old(Data()).(paymentMethod := v)
    {
      paymentMethod := v;
    }

    method SetBankAccount(v: Option<string>)
      modifies this`bankAccount
      ensures Data() == old(Data()).(bankAccount := v)
    {
      bankAccount := v;
    }

    method SetEmployer(v: Option<Employer>)
      modifies this`employer
      ensures Data() == old(Data()).(employer := v)
    {
      employer := v;
    }

    method SetHoursWorked(v: Int32)
      modifies this`hoursWorked
      ensures Data() == old(Data()).(hoursWorked := v)
    {
      hoursWorked := v;
    }
  }
}
