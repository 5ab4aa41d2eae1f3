/**
 * The open/closed principle, violated: one invoice record whose discount
 * is a switch over its type, so every new type of invoice means editing
 * that switch.  `decimal` amounts are exact reals.
 */
module OpenClosedBad {
  /** The enum's underlying `int`: any value may be stored, only three are named. */
  type InvoiceType = int

  const ProposedInvoice: InvoiceType := 0
  const FinalInvoice: InvoiceType := 1
  const RecurringInvoice: InvoiceType := 2

  datatype Invoice = Invoice(amount: real, invoiceType: InvoiceType)

  /** The rate the switch applies to each type; any unnamed value falls to the `_` arm. */
  function DiscountRate(invoiceType: InvoiceType): (rate: real)
    ensures 0.0 <= rate < 1.0
    ensures rate == 0.0 <==> invoiceType !in {ProposedInvoice, FinalInvoice, RecurringInvoice}
  {
    if invoiceType == ProposedInvoice then 0.15
    else if invoiceType == FinalInvoice then 0.25
    else if invoiceType == RecurringInvoice then 0.3
    else 0.0
  }

  /** `GetInvoiceDiscount`: a non-negative amount gets a discount between nothing and less than the whole amount. */
  function GetInvoiceDiscount(invoice: Invoice): (discount: real)
    ensures invoice.amount >= 0.0 ==> 0.0 <= discount <= invoice.amount
    ensures invoice.amount > 0.0 ==> discount < invoice.amount
    ensures discount == 0.0 <==> invoice.amount == 0.0 || DiscountRate(invoice.invoiceType) == 0.0
  {
    var t := invoice.invoiceType;
    if t == ProposedInvoice then invoice.amount * 0.15
    else if t == FinalInvoice then invoice.amount * 0.25
    else if t == RecurringInvoice then invoice.amount * 0.3
    else 0.0
  }

  /** The discount is proportional to the amount at the rate of the invoice's type. */
  lemma DiscountIsRateOfAmount(invoice: Invoice)
    ensures GetInvoiceDiscount(invoice) == invoice.amount * DiscountRate(invoice.invoiceType)
  {
  }

  /** The test: an amount of 100 gets 15, 25 and 30 for the three types. */
  lemma HundredDiscounts()
    ensures GetInvoiceDiscount(Invoice(100.0, ProposedInvoice)) == 15.0
    ensures GetInvoiceDiscount(Invoice(100.0, FinalInvoice)) == 25.0
    ensures GetInvoiceDiscount(Invoice(100.0, RecurringInvoice)) == 30.0
  {
  }
}
