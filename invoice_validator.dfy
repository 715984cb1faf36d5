/** `InvoiceValidator`: amount, currency and invoice-number rules. Each rule
    is a function from the errors collected so far to the errors after it. */
module InvoiceValidator {
  import opened Options
  import opened Strings
  import opened ErrorLists
  import opened Invoices

  /** The currencies an invoice may use (case-sensitive). */
  const ValidCurrencies: seq<string> := ["USD", "EUR", "GBP"]

  /** One code per message the validator can emit. `InvalidCurrency`
      carries the currency as string concatenation shows it. */
  datatype InvoiceError =
    | AmountMissing
    | AmountNegative
    | InvalidCurrency(shown: string)
    | InvoiceNumberEmpty

  function Message(e: InvoiceError): string {
    match e
    case AmountMissing => "Amount must be provided"
    case AmountNegative => "Amount must not be negative"
    case InvalidCurrency(shown) => "Invalid currency: " + shown
    case InvoiceNumberEmpty => "Invoice number must not be empty"
  }

  /** `VALID_CURRENCIES.contains(currency)`; a null currency is not contained. */
  predicate IsValidCurrency(c: Option<string>) {
    c.Some? && c.value in ValidCurrencies
  }

  /** The errors of an invoice, check by check in source order. The amount
      check is an `if`/`else if`: the sign is tested only on a present
      amount. */
  function Errors(inv: InvoiceData): seq<string> {
    var missing := AddIf([], inv.amount.None?, Message(AmountMissing));
    var negative := AddIf(missing, inv.amount.Some? && inv.amount.value < 0.0, Message(AmountNegative));
    var currency := AddIf(negative, !IsValidCurrency(inv.currency), Message(InvalidCurrency(Show(inv.currency))));
    AddIf(currency, IsNullOrTrimEmpty(inv.invoiceNumber), Message(InvoiceNumberEmpty))
  }

  /** `validate(invoice)`: three successive checks appending to `errors`. */
  method Validate(invoice: Invoice) returns (errors: seq<string>)
    ensures errors == Errors(invoice.Data())
  {
    errors := [];
    if invoice.amount.None? {
      errors := errors + [Message(AmountMissing)];
    } else if invoice.amount.value < 0.0 {
      errors := errors + [Message(AmountNegative)];
    }
    if !(invoice.currency.Some? && invoice.currency.value in ValidCurrencies) {
      errors := errors + [Message(InvalidCurrency(Show(invoice.currency)))];
    }
    if invoice.invoiceNumber.None? || Trim(invoice.invoiceNumber.value) == [] {
      errors := errors + [Message(InvoiceNumberEmpty)];
    }
  }
}

/** What `InvoiceValidator.validate` promises. The properties are proved
    on a second description of the validator: which of its four tests fail
    (`Failed`), and the codes of the failing tests in source order
    (`Report`). `ErrorsAreReport` ties it to `Errors`. */
module InvoiceValidatorProperties {
  import opened Options
  import opened Strings
  import opened ErrorLists
  import opened Invoices
  import opened InvoiceValidator

  /** Different codes have different message strings. */
  lemma MessageInjective()
    ensures Injective(Message)
  {
    forall a, b | Message(a) == Message(b) ensures a == b {
      var m, n := Message(a), Message(b);
      assert m[0] == n[0] && m[3] == n[3] && m[12] == n[12];
      if a.InvalidCurrency? {
        assert m[18..] == a.shown && n[18..] == b.shown;
      }
    }
  }

  /** The position of each test in `validate`. */
  function Rank(e: InvoiceError): nat {
    match e
    case AmountMissing => 0
    case AmountNegative => 1
    case InvalidCurrency(_) => 2
    case InvoiceNumberEmpty => 3
  }

  /** Which of the four tests fail, and the currency as the message shows it. */
  datatype Checks = Checks(amountMissing: bool, amountNegative: bool, currencyInvalid: bool, shownCurrency: string,
                           numberEmpty: bool)

  /** The tests of `validate` on an invoice. */
  function Failed(inv: InvoiceData): (f: Checks)
    ensures !(f.amountMissing && f.amountNegative)
  {
    Checks(inv.amount.None?, inv.amount.Some? && inv.amount.value < 0.0, !IsValidCurrency(inv.currency),
           Show(inv.currency), IsNullOrTrimEmpty(inv.invoiceNumber))
  }

  /** The codes of the failing tests, in source order. */
  function Report(f: Checks): seq<InvoiceError> {
    AddIf(AddIf(AddIf(AddIf([], f.amountMissing, AmountMissing), f.amountNegative, AmountNegative),
                f.currencyInvalid, InvalidCurrency(f.shownCurrency)), f.numberEmpty, InvoiceNumberEmpty)
  }

  /** The validator's errors are the messages of the failing tests' codes. */
  lemma ErrorsAreReport(inv: InvoiceData)
    ensures Errors(inv) == Render(Report(Failed(inv)), Message)
  {
    var f := Failed(inv);
    RenderFour([], Message, f.amountMissing, AmountMissing, f.amountNegative, AmountNegative,
               f.currencyInvalid, InvalidCurrency(f.shownCurrency), f.numberEmpty, InvoiceNumberEmpty);
  }

  /** Each code occurs once for each failing test that has it. */
  lemma ReportCount(f: Checks, x: InvoiceError)
    ensures multiset(Report(f))[x]
            == Hit(f.amountMissing, AmountMissing, x) + Hit(f.amountNegative, AmountNegative, x)
             + Hit(f.currencyInvalid, InvalidCurrency(f.shownCurrency), x) + Hit(f.numberEmpty, InvoiceNumberEmpty, x)
  {
    CountFour([], x, f.amountMissing, AmountMissing, f.amountNegative, AmountNegative,
              f.currencyInvalid, InvalidCurrency(f.shownCurrency), f.numberEmpty, InvoiceNumberEmpty);
  }

  /** The codes come in the order of the tests. */
  lemma ReportOrdered(f: Checks)
    ensures Ordered(Report(f), Rank)
  {
    OrderedFour([], Rank, 0, f.amountMissing, AmountMissing, f.amountNegative, AmountNegative,
                f.currencyInvalid, InvalidCurrency(f.shownCurrency), f.numberEmpty, InvoiceNumberEmpty);
  }

  /** At most one amount test fails, so there are at most three codes. */
  lemma ReportLength(f: Checks)
    requires !(f.amountMissing && f.amountNegative)
    ensures |Report(f)| <= 3
  {
  }

  /** No code is reported exactly when no test fails. */
  lemma ReportEmptyIff(f: Checks)
    ensures Report(f) == [] <==> !f.amountMissing && !f.amountNegative && !f.currencyInvalid && !f.numberEmpty
  {
  }

  /** A message occurs in the errors as often as its code in the report. */
  lemma MessageCount(inv: InvoiceData, e: InvoiceError)
    ensures multiset(Errors(inv))[Message(e)] == multiset(Report(Failed(inv)))[e]
  {
    ErrorsAreReport(inv);
    MessageInjective();
    RenderCount(Report(Failed(inv)), Message, e);
  }

  /** The errors are messages of codes listed in the order amount,
      currency, number, and there are at most three of them. */
  lemma ErrorsInSourceOrder(inv: InvoiceData)
    ensures Errors(inv) == Render(Report(Failed(inv)), Message)
    ensures Ordered(Report(Failed(inv)), Rank)
    ensures |Errors(inv)| <= 3
  {
    ErrorsAreReport(inv);
    ReportOrdered(Failed(inv));
    ReportLength(Failed(inv));
  }

  /** An invoice passes exactly when its amount is present and nonnegative,
      its currency is one of the three and its number is not trim-empty. */
  lemma PassesIff(inv: InvoiceData)
    ensures Errors(inv) == []
            <==> inv.amount.Some? && inv.amount.value >= 0.0 && IsValidCurrency(inv.currency)
                 && !IsNullOrTrimEmpty(inv.invoiceNumber)
  {
    ErrorsAreReport(inv);
    ReportEmptyIff(Failed(inv));
  }

  /** A null amount is reported once as missing. */
  lemma AmountMissingRule(inv: InvoiceData)
    ensures multiset(Errors(inv))[Message(AmountMissing)] == if inv.amount.None? then 1 else 0
  {
    MessageCount(inv, AmountMissing);
    ReportCount(Failed(inv), AmountMissing);
  }

  /** A present negative amount is reported once as negative; zero passes. */
  lemma AmountNegativeRule(inv: InvoiceData)
    ensures multiset(Errors(inv))[Message(AmountNegative)] == if inv.amount.Some? && inv.amount.value < 0.0 then 1 else 0
  {
    MessageCount(inv, AmountNegative);
    ReportCount(Failed(inv), AmountNegative);
  }

  /** At most one amount message appears, and when one does it comes first. */
  lemma AmountMessages(inv: InvoiceData)
    ensures multiset(Errors(inv))[Message(AmountMissing)] + multiset(Errors(inv))[Message(AmountNegative)] <= 1
    ensures inv.amount.None? ==> Errors(inv)[0] == Message(AmountMissing)
    ensures inv.amount.Some? && inv.amount.value < 0.0 ==> Errors(inv)[0] == Message(AmountNegative)
  {
    AmountMissingRule(inv);
    AmountNegativeRule(inv);
  }

  /** The currency message appears iff the currency is not exactly USD, EUR
      or GBP, and then once, quoting it ("null" for a null currency). */
  lemma CurrencyRule(inv: InvoiceData)
    ensures multiset(Errors(inv))[Message(InvalidCurrency(Show(inv.currency)))]
            == if inv.currency == Some("USD") || inv.currency == Some("EUR") || inv.currency == Some("GBP") then 0 else 1
  {
    MessageCount(inv, InvalidCurrency(Show(inv.currency)));
    ReportCount(Failed(inv), InvalidCurrency(Show(inv.currency)));
  }

  /** A null or trim-empty invoice number is reported once. */
  lemma InvoiceNumberRule(inv: InvoiceData)
    ensures multiset(Errors(inv))[Message(InvoiceNumberEmpty)] == if IsNullOrTrimEmpty(inv.invoiceNumber) then 1 else 0
  {
    MessageCount(inv, InvoiceNumberEmpty);
    ReportCount(Failed(inv), InvoiceNumberEmpty);
  }

  /** The number message, when present, is the last error. */
  lemma InvoiceNumberLast(inv: InvoiceData)
    ensures IsNullOrTrimEmpty(inv.invoiceNumber) ==> Errors(inv)[|Errors(inv)| - 1] == Message(InvoiceNumberEmpty)
  {
  }

  /** The currency message as one literal: the prefix, then the currency
      as shown. */
  lemma InvalidCurrencyText(shown: string, text: string)
    requires |text| == 18 + |shown|
    requires text[..18] == "Invalid currency: " && text[18..] == shown
    ensures Message(InvalidCurrency(shown)) == text
  {
    assert text == text[..18] + text[18..];
  }

  /** The invoice the tests start from. */
  const ValidInvoice := InvoiceData(Some("INV001"), Some(2500.0), Some("EUR"))

  lemma ValidInvoicePasses()
    ensures Errors(ValidInvoice) == []
  {
  }

  /** Changing only one field of the valid invoice yields at most that
      field's error. */
  lemma OneFieldChanged(amount: Option<real>, currency: Option<string>, number: Option<string>)
    ensures Errors(ValidInvoice.(amount := amount))
            == if amount.None? then [Message(AmountMissing)]
               else if amount.value < 0.0 then [Message(AmountNegative)]
               else []
    ensures Errors(ValidInvoice.(currency := currency))
            == if IsValidCurrency(currency) then [] else [Message(InvalidCurrency(Show(currency)))]
    ensures Errors(ValidInvoice.(invoiceNumber := number))
            == if IsNullOrTrimEmpty(number) then [Message(InvoiceNumberEmpty)] else []
  {
  }

  /** A three-letter code outside the list, such as "UFC" or "ABC", is refused. */
  lemma UnlistedCurrency(c: string)
    requires |c| == 3 && c[0] != 'E' && (c[0] != 'U' || c[1] != 'S') && (c[0] != 'G' || c[1] != 'B')
    ensures !IsValidCurrency(Some(c))
  {
    assert c != ValidCurrencies[0] by { assert ValidCurrencies[0][0] == 'U' && ValidCurrencies[0][1] == 'S'; }
    assert c != ValidCurrencies[1] by { assert ValidCurrencies[1][0] == 'E'; }
    assert c != ValidCurrencies[2] by { assert ValidCurrencies[2][0] == 'G' && ValidCurrencies[2][1] == 'B'; }
  }

  /** The single-field tests: -75.0, "UFC" and "" each give exactly one error. */
  lemma OneFieldExamples()
    ensures Errors(ValidInvoice.(amount := Some(-75.0))) == ["Amount must not be negative"]
    ensures Errors(ValidInvoice.(currency := Some("UFC"))) == ["Invalid currency: UFC"]
    ensures Errors(ValidInvoice.(invoiceNumber := Some(""))) == ["Invoice number must not be empty"]
  {
    UnlistedCurrency("UFC");
    InvalidCurrencyText("UFC", "Invalid currency: UFC");
  }

  /** ("", -10.0, "ABC") breaks all three rules. */
  lemma AllRulesBroken()
    ensures Errors(InvoiceData(Some(""), Some(-10.0), Some("ABC")))
            == ["Amount must not be negative", "Invalid currency: ABC", "Invoice number must not be empty"]
  {
    UnlistedCurrency("ABC");
    InvalidCurrencyText("ABC", "Invalid currency: ABC");
  }

  /** A request body `{}` leaves every field null: three errors, the
      currency shown as "null". */
  lemma AllFieldsNull()
    ensures Errors(InvoiceData(None, None, None))
            == ["Amount must be provided", "Invalid currency: null", "Invoice number must not be empty"]
  {
    InvalidCurrencyText("null", "Invalid currency: null");
  }

  /** The object-level test: build the valid invoice, make the amount
      negative, validate. */
  method NegativeAmountScenario() returns (errors: seq<string>)
    ensures errors == ["Amount must not be negative"]
  {
    var invoice := new Invoice(Some("INV001"), Some(2500.0), Some("EUR"));
    invoice.SetAmount(Some(-75.0));
    errors := Validate(invoice);
    OneFieldExamples();
  }

  /** `InvoiceController.validateInvoice`: the response succeeds exactly when
      the invoice passes every rule, and a failure carries the errors. */
  lemma InvoiceResponse(inv: InvoiceData)
    ensures Respond(Errors(inv), "Invoice is valid").success
            <==> inv.amount.Some? && inv.amount.value >= 0.0 && IsValidCurrency(inv.currency)
                 && !IsNullOrTrimEmpty(inv.invoiceNumber)
    ensures !Respond(Errors(inv), "Invoice is valid").success
            ==> Respond(Errors(inv), "Invoice is valid").messages == Errors(inv)
  {
    PassesIff(inv);
  }
}
