/**
 * The open/closed principle, followed: an abstract invoice whose base
 * discount is 0, and one derived record per type adding its own share of
 * the amount, so a new type of invoice is a new record and no existing
 * code changes.
 */
module OpenClosedGood {
  import OpenClosedBad

  /** The three derived records; the abstract base cannot be created. */
  datatype Invoice =
    | ProposedInvoice(amount: real)
    | FinalInvoice(amount: real)
    | RecurringInvoice(amount: real)

  /** The base `GetInvoiceDiscount`, common to all invoices. */
  function BaseDiscount(invoice: Invoice): real {
    0.0
  }

  /** Each override: the base discount plus the record's share of the amount. */
  function GetInvoiceDiscount(invoice: Invoice): (discount: real)
    ensures invoice.amount >= 0.0 ==> BaseDiscount(invoice) <= discount <= BaseDiscount(invoice) + invoice.amount
  {
    match invoice
    case ProposedInvoice(amount) => BaseDiscount(invoice) + amount * 0.15
    case FinalInvoice(amount) => BaseDiscount(invoice) + amount * 0.25
    case RecurringInvoice(amount) => BaseDiscount(invoice) + amount * 0.3
  }

  /** The switch-based invoice each record corresponds to. */
  function AsSwitched(invoice: Invoice): (switched: OpenClosedBad.Invoice)
    ensures switched.amount == invoice.amount
  {
    match invoice
    case ProposedInvoice(amount) => OpenClosedBad.Invoice(amount, OpenClosedBad.ProposedInvoice)
    case FinalInvoice(amount) => OpenClosedBad.Invoice(amount, OpenClosedBad.FinalInvoice)
    case RecurringInvoice(amount) => OpenClosedBad.Invoice(amount, OpenClosedBad.RecurringInvoice)
  }

  /** The hierarchy computes the same discount as the switch, for every invoice and every amount. */
  lemma AgreesWithSwitch(invoice: Invoice)
    ensures GetInvoiceDiscount(invoice) == OpenClosedBad.GetInvoiceDiscount(AsSwitched(invoice))
  {
  }

  /** Every switched invoice of a named type has its record, with the same discount. */
  lemma EveryNamedTypeHasARecord(switched: OpenClosedBad.Invoice)
    requires switched.invoiceType in {OpenClosedBad.ProposedInvoice, OpenClosedBad.FinalInvoice, OpenClosedBad.RecurringInvoice}
    ensures exists invoice ::
      (AsSwitched(invoice) == switched && GetInvoiceDiscount(invoice) == OpenClosedBad.GetInvoiceDiscount(switched))
  {
    var invoice :=
      if switched.invoiceType == OpenClosedBad.ProposedInvoice then ProposedInvoice(switched.amount)
      else if switched.invoiceType == OpenClosedBad.FinalInvoice then FinalInvoice(switched.amount)
      else RecurringInvoice(switched.amount);
    assert AsSwitched(invoice) == switched;
    AgreesWithSwitch(invoice);
  }

  /** The test: an amount of 100 gets 15, 25 and 30. */
  lemma HundredDiscounts()
    ensures GetInvoiceDiscount(ProposedInvoice(100.0)) == 15.0
    ensures GetInvoiceDiscount(FinalInvoice(100.0)) == 25.0
    ensures GetInvoiceDiscount(RecurringInvoice(100.0)) == 30.0
  {
  }
}
