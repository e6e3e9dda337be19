/** `Payday::Invoice`: an invoice whose fields are assigned by its
    constructor, whose rates are set through normalising setters, and whose
    line-item list grows in place. */
module Invoices {
  import opened Values
  import opened LineItemable
  import opened LineItems
  import opened Invoiceable

  /** The options hash given to `Invoice.new`; a missing key is `None` or `Nil`. */
  datatype InvoiceOptions = InvoiceOptions(
    invoiceNumber: Option<string>,
    billTo: Option<string>,
    shipTo: Option<string>,
    notes: Option<string>,
    lineItems: Option<seq<LineItem>>,
    shippingRate: Input,
    shippingDescription: Option<string>,
    taxRate: Input,
    taxDescription: Option<string>,
    retentionRate: Input,
    retentionDescription: Option<string>,
    dueAt: Option<Moment>,
    paidAt: Option<Moment>,
    refundedAt: Option<Moment>,
    currency: Option<string>,
    invoiceDetails: Option<Details>,
    invoiceDate: Option<Moment>,
    qrCode: Option<string>)

  /** The options hash with no keys at all. */
  const NoInvoiceOptions := InvoiceOptions(None, None, None, None, None, Nil, None, Nil, None, Nil, None,
                                           None, None, None, None, None, None, None)

  /** The views of a list of line items, in list order. Items that keep
      their invariant give views that can all be priced, which is what the
      subtotal and the renderer need. */
  function ItemViews(items: seq<LineItem>): (views: seq<LineItemView>)
    reads items
    ensures |views| == |items|
    ensures forall k :: 0 <= k < |items| ==> views[k] == items[k].View()
    ensures (forall k :: 0 <= k < |items| ==> items[k].Valid()) ==> AllPriceable(views)
  {
    seq(|items|, k requires 0 <= k < |items| reads items => items[k].View())
  }

  class Invoice {
    var invoiceNumber: Option<string>
    var billTo: Option<string>
    var shipTo: Option<string>
    var notes: Option<string>
    var lineItems: seq<LineItem>
    var shippingRate: real
    var shippingDescription: Option<string>
    var taxRate: real
    var taxDescription: Option<string>
    var retentionRate: real
    var retentionDescription: Option<string>
    var dueAt: Option<Moment>
    var paidAt: Option<Moment>
    var refundedAt: Option<Moment>
    var currency: Option<string>
    var invoiceDetails: Details
    var invoiceDate: Option<Moment>
    var qrCode: Option<string>

    /** The class invariant: every line item keeps its own invariant, and
        the details are a proper collection. */
    ghost predicate Valid()
      reads this, lineItems
    {
      (forall k :: 0 <= k < |lineItems| ==> lineItems[k].Valid()) && DetailsWellFormed(invoiceDetails)
    }

    /** The readable state of this invoice, as `Invoiceable` sees it. */
    function View(): InvoiceView
      reads this, lineItems
    {
      InvoiceView(invoiceNumber, billTo, shipTo, notes, ItemViews(lineItems),
                  shippingRate, shippingDescription, taxRate, taxDescription,
                  retentionRate, retentionDescription, dueAt, paidAt, refundedAt,
                  currency, invoiceDetails, invoiceDate, qrCode)
    }

    /** `Invoice.new(options)`: every field as given, the list fields
        defaulting to empty and the three rates normalised (`nil` and blank
        become 0). The given line item objects are shared with the caller;
        the list holding them is a value, so later appends to it are not
        seen by the caller. */
    constructor (opts: InvoiceOptions)
      requires opts.lineItems.Some? ==> forall k :: 0 <= k < |opts.lineItems.value| ==> opts.lineItems.value[k].Valid()
      requires opts.invoiceDetails.Some? ==> DetailsWellFormed(opts.invoiceDetails.value)
      ensures Valid() && WellFormed(View())
      ensures invoiceNumber == opts.invoiceNumber && billTo == opts.billTo
      ensures shipTo == opts.shipTo && notes == opts.notes
      ensures lineItems == GetOr(opts.lineItems, [])
      ensures shippingRate == Normalize(opts.shippingRate) && shippingDescription == opts.shippingDescription
      ensures taxRate == Normalize(opts.taxRate) && taxDescription == opts.taxDescription
      ensures retentionRate == Normalize(opts.retentionRate) && retentionDescription == opts.retentionDescription
      ensures dueAt == opts.dueAt && paidAt == opts.paidAt && refundedAt == opts.refundedAt
      ensures currency == opts.currency
      ensures invoiceDetails == GetOr(opts.invoiceDetails, Pairs([]))
      ensures invoiceDate == opts.invoiceDate && qrCode == opts.qrCode
    {
      invoiceNumber := opts.invoiceNumber;
      billTo := opts.billTo;
      shipTo := opts.shipTo;
      notes := opts.notes;
      lineItems := GetOr(opts.lineItems, []);
      shippingRate := Normalize(opts.shippingRate);
      shippingDescription := opts.shippingDescription;
      taxRate := Normalize(opts.taxRate);
      taxDescription := opts.taxDescription;
      retentionRate := Normalize(opts.retentionRate);
      retentionDescription := opts.retentionDescription;
      dueAt := opts.dueAt;
      paidAt := opts.paidAt;
      refundedAt := opts.refundedAt;
      currency := opts.currency;
      invoiceDetails := GetOr(opts.invoiceDetails, Pairs([]));
      invoiceDate := opts.invoiceDate;
      qrCode := opts.qrCode;
    }

    /** `tax_rate=`: `nil` and blank become 0; nothing else changes, and the
        invariant is kept. */
    method SetTaxRate(value: Input)
      requires Valid()
      modifies this`taxRate
      ensures Valid()
      ensures View() == old(View()).(taxRate := Normalize(value))
    {
      taxRate := Normalize(value);
    }

    /** `shipping_rate=`: `nil` and blank become 0; nothing else changes,
        and the invariant is kept. */
    method SetShippingRate(value: Input)
      requires Valid()
      modifies this`shippingRate
      ensures Valid()
      ensures View() == old(View()).(shippingRate := Normalize(value))
    {
      shippingRate := Normalize(value);
    }

    /** `retention_rate=`: `nil` and blank become 0; nothing else changes,
        and in particular the total stays what it was. */
    method SetRetentionRate(value: Input)
      requires Valid()
      modifies this`retentionRate
      ensures Valid()
      ensures View() == old(View()).(retentionRate := Normalize(value))
      ensures Total(View()) == old(Total(View()))
    {
      retentionRate := Normalize(value);
    }

    /** `add_line_item(options)`: appends one new line item built from the
        options; the earlier items and their order are kept, and the
        subtotal grows by exactly the new item's amount. */
    method AddLineItem(opts: LineItemOptions)
      requires Valid()
      modifies this`lineItems
      ensures Valid()
      ensures |lineItems| == |old(lineItems)| + 1
      ensures lineItems[..|old(lineItems)|] == old(lineItems)
      ensures fresh(lineItems[|old(lineItems)|])
      ensures View() == old(View()).(items := old(View()).items + [Built(opts)])
      ensures Subtotal(View().items) == old(Subtotal(View().items)) + Amount(Built(opts))
    {
      var item := new LineItem(opts);
      ghost var before := ItemViews(lineItems);
      lineItems := lineItems + [item];
      assert ItemViews(lineItems) == before + [Built(opts)];
      SubtotalAppendOne(before, Built(opts));
    }
  }

  /** A default-constructed invoice has all three rates at 0, no line items,
      no details, and so totals to 0. */
  method DefaultInvoice() returns (invoice: Invoice)
    ensures fresh(invoice) && invoice.Valid()
    ensures invoice.taxRate == 0.0 && invoice.shippingRate == 0.0 && invoice.retentionRate == 0.0
    ensures invoice.lineItems == [] && invoice.invoiceDetails == Pairs([])
    ensures Total(invoice.View()) == 0.0
  {
    invoice := new Invoice(NoInvoiceOptions);
  }

  /** An invoice built from a full options hash keeps every option: the
      number, both parties, the notes, the line items, the shipping and tax
      rates with their descriptions, and the invoice date (`invoiceDay`
      stands for the day of 12 April 1993). */
  method InitializedWithOptions(invoiceDay: int) returns (invoice: Invoice)
    ensures invoice.invoiceNumber == Some("20") && invoice.billTo == Some("Here") && invoice.shipTo == Some("There")
    ensures invoice.notes == Some("These are some notes.")
    ensures |invoice.lineItems| == 1 && invoice.lineItems[0].description == "Shirts"
    ensures invoice.shippingRate == 15.0 && invoice.shippingDescription == Some("USPS Priority Mail:")
    ensures invoice.taxRate == 0.125 && invoice.taxDescription == Some("Local Sales Tax, 12.5%")
    ensures invoice.invoiceDate == Some(Date(invoiceDay))
    ensures invoice.Valid() && Subtotal(invoice.View().items) == 30.0
  {
    var shirts := new LineItem(NoOptions.(price := Given(10.0), quantity := Given(3.0), description := Some("Shirts")));
    var opts := NoInvoiceOptions.(
      invoiceNumber := Some("20"), billTo := Some("Here"), shipTo := Some("There"),
      notes := Some("These are some notes."), lineItems := Some([shirts]),
      shippingRate := Given(15.0), shippingDescription := Some("USPS Priority Mail:"),
      taxRate := Given(0.125), taxDescription := Some("Local Sales Tax, 12.5%"),
      invoiceDate := Some(Date(invoiceDay)));
    invoice := new Invoice(opts);
    assert invoice.View().items == [] + [shirts.View()];
    assert Amount(shirts.View()) == 30.0;
    SubtotalAppendOne([], shirts.View());
  }
}
