/** The invoice document. */
module Invoices {
  import opened Options

  /** The contents of an invoice at one moment: the amount is a boxed
      `Double` and the currency an unchecked string, both nullable. */
  datatype InvoiceData = InvoiceData(invoiceNumber: Option<string>, amount: Option<real>, currency: Option<string>)

  /** A mutable invoice; its getters are the field reads. */
  class Invoice {
    var invoiceNumber: Option<string>
    var amount: Option<real>
    var currency: Option<string>

    function Data(): InvoiceData
      reads this
    {
      InvoiceData(invoiceNumber, amount, currency)
    }

    /** Stores the three arguments as given; nothing is checked. */
    constructor (invoiceNumber: Option<string>, amount: Option<real>, currency: Option<string>)
      ensures Data() == InvoiceData(invoiceNumber, amount, currency)
    {
      this.invoiceNumber := invoiceNumber;
      this.amount := amount;
      this.currency := currency;
    }

    method SetInvoiceNumber(v: Option<string>)
      modifies this`invoiceNumber
      ensures Data() == old(Data()).(invoiceNumber := v)
    {
      invoiceNumber := v;
    }

    method SetAmount(v: Option<real>)
      modifies this`amount
      ensures Data() == old(Data()).(amount := v)
    {
      amount := v;
    }

    method SetCurrency(v: Option<string>)
      modifies this`currency
      ensures Data() == old(Data()).(currency := v)
    {
      currency := v;
    }
  }
}
