/** `Payday::PdfRenderer`, reduced to what decides the document's content:
    which blocks appear, in which order, and which rows and cells they hold.
    Drawing, fonts, colours and geometry belong to the PDF library and are
    not modelled; cell contents are symbolic (a label id, an amount in a
    currency, a date under a pattern) and are turned into text by the
    translation, currency and date formatters outside this model. */
module PdfRenderer {
  import opened Values
  import opened LineItemable
  import opened Invoiceable
  import opened RubyText

  // ---------------------------------------------------------------------
  // Defaults and the invoice-or-default fallback

  /** `invoice_logo`: a file name, or a hash with a file name and a "WxH" size. */
  datatype Logo = LogoFile(path: string) | LogoWithSize(filename: string, size: string)

  /** `Payday::Config.default`: the fallback values of the renderer. */
  datatype Config = Config(
    pageSize: string,
    companyName: string,
    companyDetails: string,
    invoiceLogo: Logo,
    currency: string,
    dateFormat: string)

  /** What asking an invoice-like object for a property gives: it does not
      respond to it, or it answers `nil`/`false` or a value. */
  datatype Probe<T> = NoMethod | Responds(answer: Option<T>)

  /** `invoice_or_default`: the invoice's answer when it responds with a
      truthy value, the configured default otherwise. */
  function InvoiceOrDefault<T>(probe: Probe<T>, default: T): T
  {
    if probe.Responds? && probe.answer.Some? then probe.answer.value else default
  }

  /** The currency an `Invoice` is rendered in: it responds to `currency`. */
  function CurrencyOf(inv: InvoiceView, cfg: Config): string
  {
    InvoiceOrDefault(Responds(inv.currency), cfg.currency)
  }

  /** The fallback in both directions: an answer wins exactly when there is
      one, and an object without the property (`nil` included) always takes
      the default. An `Invoice` has no page size, logo or company fields, so
      those always come from the configuration. */
  lemma InvoiceOrDefaultChoice<T>(probe: Probe<T>, default: T)
    ensures probe.NoMethod? ==> InvoiceOrDefault(probe, default) == default
    ensures probe == Responds(None) ==> InvoiceOrDefault(probe, default) == default
    ensures forall v :: probe == Responds(Some(v)) ==> InvoiceOrDefault(probe, default) == v
  {
  }

  /** An invoice's own currency wins; without one the configured currency
      is used. */
  lemma CurrencyResolution(inv: InvoiceView, cfg: Config)
    ensures inv.currency.Some? ==> CurrencyOf(inv, cfg) == inv.currency.value
    ensures inv.currency.None? ==> CurrencyOf(inv, cfg) == cfg.currency
  {
  }

  // ---------------------------------------------------------------------
  // Cells

  /** The labels the renderer looks up; each has a translation key and an
      inline default text. */
  datatype LabelId =
    | StatusRefunded | StatusPaid | StatusOverdue
    | BillToLabel | ShipToLabel
    | ReceiptNoLabel | InvoiceNoLabel | DueDateLabel | PaidDateLabel
    | DescriptionHeader | UnitPriceHeader | QuantityHeader | AmountHeader
    | SubtotalLabel | TaxLabel | ShippingLabel | TotalLabel | NotesTitle

  /** The translation key of a label. */
  function LabelKey(id: LabelId): string
  {
    match id
    case StatusRefunded => "payday.status.refunded"
    case StatusPaid => "payday.status.paid"
    case StatusOverdue => "payday.status.overdue"
    case BillToLabel => "payday.invoice.bill_to"
    case ShipToLabel => "payday.invoice.ship_to"
    case ReceiptNoLabel => "payday.invoice.receipt_no"
    case InvoiceNoLabel => "payday.invoice.invoice_no"
    case DueDateLabel => "payday.invoice.due_date"
    case PaidDateLabel => "payday.invoice.paid_date"
    case DescriptionHeader => "payday.line_item.description"
    case UnitPriceHeader => "payday.line_item.unit_price"
    case QuantityHeader => "payday.line_item.quantity"
    case AmountHeader => "payday.line_item.amount"
    case SubtotalLabel => "payday.invoice.subtotal"
    case TaxLabel => "payday.invoice.tax"
    case ShippingLabel => "payday.invoice.shipping"
    case TotalLabel => "payday.invoice.total"
    case NotesTitle => "payday.invoice.notes"
  }

  /** The text a label has when no translation is found. */
  function DefaultLabel(id: LabelId): string
  {
    match id
    case StatusRefunded => "REFUNDED"
    case StatusPaid => "PAID"
    case StatusOverdue => "OVERDUE"
    case BillToLabel => "Bill To"
    case ShipToLabel => "Ship To"
    case ReceiptNoLabel => "Receipt #:"
    case InvoiceNoLabel => "Invoice #:"
    case DueDateLabel => "Due Date:"
    case PaidDateLabel => "Paid Date:"
    case DescriptionHeader => "Description"
    case UnitPriceHeader => "Unit Price"
    case QuantityHeader => "Quantity"
    case AmountHeader => "Amount"
    case SubtotalLabel => "Subtotal:"
    case TaxLabel => "Tax:"
    case ShippingLabel => "Shipping:"
    case TotalLabel => "Total:"
    case NotesTitle => "Notes"
  }

  /** What a cell shows, before translation and formatting. */
  datatype Content =
    | Label(id: LabelId)                      // a translated label
    | Text(text: string)                      // literal text
    | Money(amount: real, currency: string)   // number_to_currency(amount)
    | PlainDecimal(value: real)               // BigDecimal#to_s('F')
    | Formatted(moment: Moment, pattern: string)  // strftime(pattern)
    | Shown(moment: Moment)                   // the date or time's own to_s

  datatype Align = Left | Center | Right

  /** A table cell; `bold` is `bold_cell`, `size` an explicit font size. */
  datatype Cell = Cell(content: Content, bold: bool, align: Align, size: Option<nat>)

  type Row = seq<Cell>

  function BoldCell(content: Content, align: Align): Cell
  {
    Cell(content, true, align, None)
  }

  function PlainCell(content: Content, align: Align): Cell
  {
    Cell(content, false, align, None)
  }

  // ---------------------------------------------------------------------
  // Currency

  /** BigDecimal's default rounding, ROUND_HALF_UP: to the nearest integer,
      ties away from zero. */
  function RoundHalfUp(x: real): (n: int)
    ensures x >= 0.0 ==> x - 0.5 < n as real <= x + 0.5
    ensures x < 0.0 ==> x - 0.5 <= n as real < x + 0.5
  {
    if x >= 0.0 then (x + 0.5).Floor else -((-x + 0.5).Floor)
  }

  /** The amount `number_to_currency` hands to the formatter: the number in
      the currency's minor unit (`subunit_to_unit` of them per unit),
      rounded half up unless the money library keeps infinite precision. */
  function MinorUnits(number: real, subunitToUnit: nat, infinitePrecision: bool): (units: real)
    ensures infinitePrecision ==> units == number * subunitToUnit as real
    ensures !infinitePrecision ==> units.Floor as real == units
    ensures !infinitePrecision ==> -0.5 <= units - number * subunitToUnit as real <= 0.5
  {
    var scaled := number * subunitToUnit as real;
    if infinitePrecision then scaled else RoundHalfUp(scaled) as real
  }

  /** `number_to_currency(number, invoice)`: the amount in the currency the
      invoice (or, when it has none or is `nil`, the configuration) names. */
  function NumberToCurrency(number: real, currency: Probe<string>, cfg: Config): Content
  {
    Money(number, InvoiceOrDefault(currency, cfg.currency))
  }

  /** For an `Invoice`, `number_to_currency` gives the amount in the
      currency `CurrencyOf` resolves: this is the Money cell every line-item
      and totals row holds. */
  lemma NumberToCurrencyIsCurrencyOf(number: real, inv: InvoiceView, cfg: Config)
    ensures NumberToCurrency(number, Responds(inv.currency), cfg) == Money(number, CurrencyOf(inv, cfg))
    ensures inv.currency.Some? ==> NumberToCurrency(number, Responds(inv.currency), cfg) == Money(number, inv.currency.value)
    ensures inv.currency.None? ==> NumberToCurrency(number, Responds(inv.currency), cfg) == Money(number, cfg.currency)
  {
  }

  /** With a `nil` invoice the configured currency is used: 20 in US
      dollars goes to the formatter as 2000 cents, shown as "$20.00". */
  lemma NilInvoiceCurrency(cfg: Config)
    requires cfg.currency == "USD"
    ensures NumberToCurrency(20.0, NoMethod, cfg) == Money(20.0, "USD")
    ensures MinorUnits(20.0, 100, false) == 2000.0
  {
  }

  // ---------------------------------------------------------------------
  // The document

  datatype Status = RefundedStamp | PaidStamp | OverdueStamp

  /** A part of the document, in the order the renderer emits them. */
  datatype Block =
    | StatusStamp(status: Status)
    | Banner(logo: Logo, rows: seq<Row>)
    | Parties(billTo: seq<Row>, shipTo: Option<seq<Row>>)
    | DetailsTable(rows: seq<Row>)
    | ItemsTable(rows: seq<Row>)
    | TotalsTable(rows: seq<Row>)
    | NotesSection(text: string, qrCode: Option<string>)
    | QrCode(payload: string)
    | PageNumbers

  datatype Document = Document(pageSize: string, blocks: seq<Block>)

  // ---------------------------------------------------------------------
  // Stamp

  /** `stamp`: refunded wins over paid, paid over overdue. */
  function StampStatus(inv: InvoiceView, clock: Clock): Option<Status>
  {
    if IsRefunded(inv) then Some(RefundedStamp)
    else if IsPaid(inv) then Some(PaidStamp)
    else if IsOverdue(inv, clock) then Some(OverdueStamp)
    else None
  }

  function StatusLabel(s: Status): LabelId
  {
    match s
    case RefundedStamp => StatusRefunded
    case PaidStamp => StatusPaid
    case OverdueStamp => StatusOverdue
  }

  function StampBlocks(inv: InvoiceView, clock: Clock): seq<Block>
  {
    match StampStatus(inv, clock)
    case Some(s) => [StatusStamp(s)]
    case None => []
  }

  /** Each stamp in both directions: REFUNDED exactly when refunded, PAID
      exactly when paid and not refunded, OVERDUE exactly when overdue and
      not refunded (an overdue invoice is unpaid), none otherwise. */
  lemma StampPriority(inv: InvoiceView, clock: Clock)
    ensures StampStatus(inv, clock) == Some(RefundedStamp) <==> IsRefunded(inv)
    ensures StampStatus(inv, clock) == Some(PaidStamp) <==> !IsRefunded(inv) && IsPaid(inv)
    ensures StampStatus(inv, clock) == Some(OverdueStamp) <==> !IsRefunded(inv) && IsOverdue(inv, clock)
    ensures StampStatus(inv, clock).None? <==> !IsRefunded(inv) && !IsPaid(inv) && !IsOverdue(inv, clock)
  {
  }

  // ---------------------------------------------------------------------
  // Company banner

  function LineRows(lines: seq<string>): (rows: seq<Row>)
  {
    seq(|lines|, k requires 0 <= k < |lines| => [PlainCell(Text(lines[k]), Left)])
  }

  /** The company table: the stripped company name in bold at size 12,
      then one row per line of the company details. */
  function BannerRows(name: string, details: string): seq<Row>
  {
    [[Cell(Text(Strip(name)), true, Left, Some(12))]] + LineRows(Lines(details))
  }

  /** The texts of the detail rows of a banner. */
  function RowTexts(rows: seq<Row>): seq<string>
    requires forall k :: 0 <= k < |rows| ==> rows[k] != [] && rows[k][0].content.Text?
  {
    seq(|rows|, k requires 0 <= k < |rows| && rows[k] != [] && rows[k][0].content.Text? => rows[k][0].content.text)
  }

  /** The banner holds one row per line of the company details, and those
      rows put back together give the details text unchanged. */
  lemma BannerKeepsDetails(name: string, details: string)
    ensures |BannerRows(name, details)| == 1 + |Lines(details)|
    ensures BannerRows(name, details)[0] == [Cell(Text(Strip(name)), true, Left, Some(12))]
    ensures var rest := BannerRows(name, details)[1..];
      (forall k :: 0 <= k < |rest| ==> rest[k] != [] && rest[k][0].content.Text?) &&
      Concat(RowTexts(rest)) == details
  {
    var rest := BannerRows(name, details)[1..];
    assert rest == LineRows(Lines(details));
    assert RowTexts(rest) == Lines(details);
  }

  /** `company_banner`'s table data, built by appending one row per line. */
  method CompanyBanner(name: string, details: string) returns (data: seq<Row>)
    ensures data == BannerRows(name, details)
  {
    data := [[Cell(Text(Strip(name)), true, Left, Some(12))]];
    var lines := Lines(details);
    var i := 0;
    while i < |lines|
      invariant 0 <= i <= |lines|
      invariant data == [[Cell(Text(Strip(name)), true, Left, Some(12))]] + LineRows(lines[..i])
    {
      assert LineRows(lines[..i + 1]) == LineRows(lines[..i]) + [[PlainCell(Text(lines[i]), Left)]];
      data := data + [[PlainCell(Text(lines[i]), Left)]];
      i := i + 1;
    }
    assert lines[..i] == lines;
  }

  // ---------------------------------------------------------------------
  // Bill to / ship to

  function PartyRows(heading: LabelId, text: string): seq<Row>
  {
    [[BoldCell(Label(heading), Left)], [PlainCell(Text(text), Left)]]
  }

  /** `bill_to_ship_to`: the bill-to table always (a `nil` bill_to is an
      empty cell), the ship-to table only when ship_to is not `nil`. */
  function PartiesBlock(inv: InvoiceView): Block
  {
    Parties(PartyRows(BillToLabel, GetOr(inv.billTo, "")),
            if inv.shipTo.Some? then Some(PartyRows(ShipToLabel, inv.shipTo.value)) else None)
  }

  /** The bill-to table is always drawn, with the bill-to text or nothing;
      the ship-to table is drawn exactly when `ship_to` is not nil. */
  lemma PartiesShape(inv: InvoiceView)
    ensures PartiesBlock(inv).billTo == PartyRows(BillToLabel, GetOr(inv.billTo, ""))
    ensures PartiesBlock(inv).shipTo.Some? <==> inv.shipTo.Some?
    ensures inv.shipTo.Some? ==> PartiesBlock(inv).shipTo.value == PartyRows(ShipToLabel, inv.shipTo.value)
  {
  }

  /** Where the cursor goes after the two party tables: 20 below the lower
      of the bill-to bottom and the cursor after the ship-to table. */
  function PartiesNextCursor(billBottom: real, cursor: real): (next: real)
    ensures next <= billBottom - 20.0 && next <= cursor - 20.0
    ensures next == billBottom - 20.0 || next == cursor - 20.0
  {
    var bottom := if cursor < billBottom then cursor else billBottom;
    bottom - 20.0
  }

  // ---------------------------------------------------------------------
  // Invoice details

  /** A Ruby object's `to_s`. */
  function ToS(m: Moment): Content
  {
    if m.Other? then Text(m.text) else Shown(m)
  }

  /** The due date text: a `Date` or `Time` is formatted, anything else shown. */
  function DueDateText(due: Moment, pattern: string): Content
  {
    if due.Date? || due.Time? then Formatted(due, pattern) else ToS(due)
  }

  /** The paid date text. The branch tests whether the DUE value is a
      `Time`, not the paid value: a paid `Time` with a due value that is not
      a `Time` is shown unformatted, and a paid value that is neither a
      `Date` nor a `Time` next to a due `Time` gets `strftime`, which it does
      not have. */
  function PaidDateText(paid: Moment, due: Option<Moment>, pattern: string): Result<Content>
  {
    if paid.Date? || (due.Some? && due.value.Time?) then
      if paid.Other? then Raises(NoMethodError("String", "strftime")) else Ok(Formatted(paid, pattern))
    else Ok(ToS(paid))
  }

  function TwoCellRow(heading: Content, value: Content): Row
  {
    [BoldCell(heading, Left), BoldCell(value, Right)]
  }

  /** The invoice-number row: "Receipt #:" on a paid invoice, else "Invoice #:". */
  function NumberRow(inv: InvoiceView, number: string): Row
  {
    TwoCellRow(Label(if IsPaid(inv) then ReceiptNoLabel else InvoiceNoLabel), Text(number))
  }

  function DetailPairRow(pair: (string, string)): Row
  {
    TwoCellRow(Text(pair.0), Text(pair.1))
  }

  function DetailPairRows(pairs: seq<(string, string)>): (rows: seq<Row>)
  {
    seq(|pairs|, k requires 0 <= k < |pairs| => DetailPairRow(pairs[k]))
  }

  function NumberRows(inv: InvoiceView): seq<Row>
  {
    match inv.invoiceNumber
    case Some(n) => [NumberRow(inv, n)]
    case None => []
  }

  function DueRows(inv: InvoiceView, pattern: string): seq<Row>
  {
    match inv.dueAt
    case Some(m) => [TwoCellRow(Label(DueDateLabel), DueDateText(m, pattern))]
    case None => []
  }

  function PaidRows(inv: InvoiceView, pattern: string): Result<seq<Row>>
  {
    match inv.paidAt
    case Some(m) =>
      var text :- PaidDateText(m, inv.dueAt, pattern);
      Ok([TwoCellRow(Label(PaidDateLabel), text)])
    case None => Ok([])
  }

  /** `invoice_details`' table data: the number row, the due date, the paid
      date, then every detail pair in iteration order. */
  function DetailRows(inv: InvoiceView, pattern: string): Result<seq<Row>>
    requires DetailsWellFormed(inv.invoiceDetails)
  {
    var paid :- PaidRows(inv, pattern);
    Ok(NumberRows(inv) + DueRows(inv, pattern) + paid + DetailPairRows(EachDetail(inv.invoiceDetails)))
  }

  function DetailBlocks(rows: seq<Row>): seq<Block>
  {
    if |rows| > 0 then [DetailsTable(rows)] else []
  }

  /** The detail rows: one row each for the number, due date and paid date
      that are set, in that order, then one row per detail pair in order;
      the only failure is a non-date paid value beside a due `Time`. */
  lemma DetailRowsLayout(inv: InvoiceView, pattern: string)
    requires DetailsWellFormed(inv.invoiceDetails)
    ensures DetailRows(inv, pattern).Raises? <==>
      inv.paidAt.Some? && inv.paidAt.value.Other? && inv.dueAt.Some? && inv.dueAt.value.Time?
    ensures DetailRows(inv, pattern).Ok? ==>
      var rows := DetailRows(inv, pattern).value;
      var n := (if inv.invoiceNumber.Some? then 1 else 0) + (if inv.dueAt.Some? then 1 else 0) + (if inv.paidAt.Some? then 1 else 0);
      var pairs := EachDetail(inv.invoiceDetails);
      |rows| == n + |pairs| &&
      (inv.invoiceNumber.Some? ==> rows[0] == NumberRow(inv, inv.invoiceNumber.value)) &&
      (inv.dueAt.Some? ==> rows[if inv.invoiceNumber.Some? then 1 else 0][0] == BoldCell(Label(DueDateLabel), Left)) &&
      (inv.paidAt.Some? ==> rows[n - 1][0] == BoldCell(Label(PaidDateLabel), Left)) &&
      (forall k :: 0 <= k < |pairs| ==> rows[n + k] == DetailPairRow(pairs[k]))
  {
  }

  /** The number row is labelled as a receipt exactly when the invoice is paid. */
  lemma ReceiptLabelIffPaid(inv: InvoiceView, number: string)
    ensures NumberRow(inv, number)[0].content == Label(ReceiptNoLabel) <==> IsPaid(inv)
    ensures NumberRow(inv, number)[0].content == Label(InvoiceNoLabel) <==> !IsPaid(inv)
  {
  }

  /** The details table is emitted exactly when at least one of its rows
      exists: a number, a due date, a paid date or a detail. */
  lemma DetailsTableEmittedIff(inv: InvoiceView, pattern: string)
    requires DetailsWellFormed(inv.invoiceDetails) && DetailRows(inv, pattern).Ok?
    ensures |DetailBlocks(DetailRows(inv, pattern).value)| == 1 <==>
      inv.invoiceNumber.Some? || inv.dueAt.Some? || inv.paidAt.Some? || DetailCount(inv.invoiceDetails) > 0
    ensures |DetailBlocks(DetailRows(inv, pattern).value)| <= 1
  {
    EachDetailYieldsEveryDetailOnce(inv.invoiceDetails);
    DetailRowsLayout(inv, pattern);
  }

  /** The due date text for every value: a `Date` or `Time` is formatted
      with the pattern, anything else is its `to_s`. */
  lemma DueDateRule(due: Moment, pattern: string)
    ensures due.Date? || due.Time? ==> DueDateText(due, pattern) == Formatted(due, pattern)
    ensures due.Other? ==> DueDateText(due, pattern) == Text(due.text)
  {
  }

  /** The paid date text for every paid and due value. A paid `Date` is
      always formatted; a paid `Time` is formatted only beside a due `Time`
      and shown unformatted otherwise; a paid value of any other kind is
      shown as itself, except that beside a due `Time` it raises. */
  lemma PaidDateRule(paid: Moment, due: Option<Moment>, pattern: string)
    ensures paid.Date? ==> PaidDateText(paid, due, pattern) == Ok(Formatted(paid, pattern))
    ensures paid.Time? && due.Some? && due.value.Time? ==> PaidDateText(paid, due, pattern) == Ok(Formatted(paid, pattern))
    ensures paid.Time? && !(due.Some? && due.value.Time?) ==> PaidDateText(paid, due, pattern) == Ok(Shown(paid))
    ensures paid.Other? ==> (PaidDateText(paid, due, pattern).Raises? <==> due.Some? && due.value.Time?)
    ensures paid.Other? && !(due.Some? && due.value.Time?) ==> PaidDateText(paid, due, pattern) == Ok(Text(paid.text))
  {
  }

  /** The paid-date quirk on concrete values: a paid `Time` is formatted
      when the due value is a `Time`, shown unformatted when there is no due
      value, and a paid text beside a due `Time` raises. */
  lemma PaidDateDependsOnDueAt(pattern: string)
    ensures PaidDateText(Time(5), Some(Time(7)), pattern) == Ok(Formatted(Time(5), pattern))
    ensures PaidDateText(Time(5), None, pattern) == Ok(Shown(Time(5)))
    ensures PaidDateText(Date(5), None, pattern) == Ok(Formatted(Date(5), pattern))
    ensures PaidDateText(Other("yesterday"), Some(Time(7)), pattern).Raises?
    ensures PaidDateText(Other("yesterday"), None, pattern) == Ok(Text("yesterday"))
  {
  }

  /** The value cells of the date rows: the due row shows the due date
      text and the paid row the paid date text, both bold and right-aligned. */
  lemma DetailRowValues(inv: InvoiceView, pattern: string)
    requires DetailsWellFormed(inv.invoiceDetails) && DetailRows(inv, pattern).Ok?
    ensures var rows := DetailRows(inv, pattern).value;
      var due := if inv.invoiceNumber.Some? then 1 else 0;
      var paid := due + (if inv.dueAt.Some? then 1 else 0);
      (inv.dueAt.Some? ==> rows[due] == TwoCellRow(Label(DueDateLabel), DueDateText(inv.dueAt.value, pattern))) &&
      (inv.paidAt.Some? ==>
         PaidDateText(inv.paidAt.value, inv.dueAt, pattern).Ok? &&
         rows[paid] == TwoCellRow(Label(PaidDateLabel), PaidDateText(inv.paidAt.value, inv.dueAt, pattern).value))
  {
    var lead := NumberRows(inv) + DueRows(inv, pattern);
    var paid := PaidRows(inv, pattern).value;
    var rest := DetailPairRows(EachDetail(inv.invoiceDetails));
    assert DetailRows(inv, pattern).value == lead + paid + rest;
    assert (lead + paid + rest)[..|lead| + |paid|] == lead + paid;
  }

  /** `invoice_details`' table data, built by appending row after row. */
  method InvoiceDetails(inv: InvoiceView, pattern: string) returns (r: Result<seq<Row>>)
    requires DetailsWellFormed(inv.invoiceDetails)
    ensures r == DetailRows(inv, pattern)
  {
    var data: seq<Row> := [];
    if inv.invoiceNumber.Some? {
      data := data + [NumberRow(inv, inv.invoiceNumber.value)];
    }
    if inv.dueAt.Some? {
      data := data + [TwoCellRow(Label(DueDateLabel), DueDateText(inv.dueAt.value, pattern))];
    }
    if inv.paidAt.Some? {
      var text := PaidDateText(inv.paidAt.value, inv.dueAt, pattern);
      if text.Raises? {
        return Raises(text.error);
      }
      data := data + [TwoCellRow(Label(PaidDateLabel), text.value)];
    }
    assert data == NumberRows(inv) + DueRows(inv, pattern) + PaidRows(inv, pattern).value;
    ghost var head := data;
    var pairs := EachDetail(inv.invoiceDetails);
    var i := 0;
    while i < |pairs|
      invariant 0 <= i <= |pairs|
      invariant data == head + DetailPairRows(pairs[..i])
    {
      assert DetailPairRows(pairs[..i + 1]) == DetailPairRows(pairs[..i]) + [DetailPairRow(pairs[i])];
      data := data + [DetailPairRow(pairs[i])];
      i := i + 1;
    }
    assert pairs[..i] == pairs;
    r := Ok(data);
  }

  // ---------------------------------------------------------------------
  // Line items

  function HeaderRow(): Row
  {
    [BoldCell(Label(DescriptionHeader), Left), BoldCell(Label(UnitPriceHeader), Center),
     BoldCell(Label(QuantityHeader), Center), BoldCell(Label(AmountHeader), Center)]
  }

  /** One line-item row: a predefined-amount item shows blank price and
      quantity cells; otherwise the display overrides win over the formatted
      price and the plain decimal quantity. The number columns of the body
      are right-aligned. */
  function ItemRow(item: LineItemView, currency: string): Row
    requires Priceable(item)
  {
    if item.predefinedAmount.Some? then
      [PlainCell(Text(item.description), Left), PlainCell(Text(""), Right),
       PlainCell(Text(""), Right), PlainCell(Money(item.predefinedAmount.value, currency), Right)]
    else
      [PlainCell(Text(item.description), Left),
       PlainCell(if item.displayPrice.Some? then Text(item.displayPrice.value) else Money(item.price.value, currency), Right),
       PlainCell(if item.displayQuantity.Some? then Text(item.displayQuantity.value) else PlainDecimal(item.quantity.value), Right),
       PlainCell(Money(Amount(item), currency), Right)]
  }

  function ItemRows(items: seq<LineItemView>, currency: string): seq<Row>
    requires AllPriceable(items)
  {
    seq(|items|, k requires 0 <= k < |items| && AllPriceable(items) => ItemRow(items[k], currency))
  }

  /** `line_items_table`'s table data: the header, then one row per item. */
  function LineItemRows(items: seq<LineItemView>, currency: string): seq<Row>
    requires AllPriceable(items)
  {
    [HeaderRow()] + ItemRows(items, currency)
  }

  /** The line-item table has the header and exactly one row per item, in
      order; every row has four cells, the description first and the
      item's amount last, and a predefined-amount row has blank price and
      quantity cells. */
  lemma LineItemRowsShape(items: seq<LineItemView>, currency: string)
    requires AllPriceable(items)
    ensures |LineItemRows(items, currency)| == |items| + 1
    ensures LineItemRows(items, currency)[0] == HeaderRow()
    ensures forall k :: 0 <= k < |items| ==>
      var row := LineItemRows(items, currency)[k + 1];
      |row| == 4 &&
      row[0].content == Text(items[k].description) &&
      row[3].content == Money(Amount(items[k]), currency) &&
      row[1].align == Right && row[2].align == Right && row[3].align == Right &&
      (items[k].predefinedAmount.Some? ==> row[1].content == Text("") && row[2].content == Text(""))
  {
  }

  /** The price and quantity cells of an ordinary row: the display text when
      set, otherwise the formatted price and the decimal quantity. */
  lemma OrdinaryRowCells(item: LineItemView, currency: string)
    requires item.predefinedAmount.None? && Priceable(item)
    ensures ItemRow(item, currency)[1].content ==
      (if item.displayPrice.Some? then Text(item.displayPrice.value) else Money(item.price.value, currency))
    ensures ItemRow(item, currency)[2].content ==
      (if item.displayQuantity.Some? then Text(item.displayQuantity.value) else PlainDecimal(item.quantity.value))
    ensures ItemRow(item, currency)[3].content == Money(item.price.value * item.quantity.value, currency)
  {
  }

  /** `line_items_table`'s table data, built by appending one row per item. */
  method LineItemsTable(items: seq<LineItemView>, currency: string) returns (data: seq<Row>)
    requires AllPriceable(items)
    ensures data == LineItemRows(items, currency)
  {
    data := [HeaderRow()];
    var i := 0;
    while i < |items|
      invariant 0 <= i <= |items|
      invariant data == [HeaderRow()] + ItemRows(items[..i], currency)
    {
      assert ItemRows(items[..i + 1], currency) == ItemRows(items[..i], currency) + [ItemRow(items[i], currency)];
      data := data + [ItemRow(items[i], currency)];
      i := i + 1;
    }
    assert items[..i] == items;
  }

  /** The table's column widths: the description column takes whatever the
      three number columns leave of the table width. */
  method FitDescriptionColumn(natural: array<real>, width: real)
    requires natural.Length == 4
    modifies natural
    ensures natural[0] == width - old(natural[1]) - old(natural[2]) - old(natural[3])
    ensures natural[1] == old(natural[1]) && natural[2] == old(natural[2]) && natural[3] == old(natural[3])
    ensures natural[0] + natural[1] + natural[2] + natural[3] == width
  {
    natural[0] := width - natural[1] - natural[2] - natural[3];
  }

  /** `max_cell_width`: the widest natural content width of the cells, or 0. */
  method MaxCellWidth(widths: seq<real>) returns (max: real)
    ensures 0.0 <= max
    ensures forall k :: 0 <= k < |widths| ==> widths[k] <= max
    ensures max == 0.0 || exists k :: 0 <= k < |widths| && widths[k] == max
  {
    max := 0.0;
    var i := 0;
    while i < |widths|
      invariant 0 <= i <= |widths|
      invariant 0.0 <= max
      invariant forall k :: 0 <= k < i ==> widths[k] <= max
      invariant max == 0.0 || exists k :: 0 <= k < i && widths[k] == max
    {
      if widths[i] > max {
        max := widths[i];
      }
      i := i + 1;
    }
  }

  // ---------------------------------------------------------------------
  // Totals

  function DescriptionOr(description: Option<string>, default: LabelId): Content
  {
    match description
    case Some(d) => Text(d)
    case None => Label(default)
  }

  /** `totals_lines`' table data: subtotal, tax, shipping only when the
      shipping rate is positive, and the total at size 12. No retention row. */
  function TotalsRows(inv: InvoiceView, currency: string): seq<Row>
    requires WellFormed(inv)
  {
    [[BoldCell(Label(SubtotalLabel), Left), PlainCell(Money(Subtotal(inv.items), currency), Right)],
     [BoldCell(DescriptionOr(inv.taxDescription, TaxLabel), Left), PlainCell(Money(Tax(inv), currency), Right)]] +
    (if inv.shippingRate > 0.0 then
       [[BoldCell(DescriptionOr(inv.shippingDescription, ShippingLabel), Left), PlainCell(Money(Shipping(inv), currency), Right)]]
     else []) +
    [[Cell(Label(TotalLabel), true, Left, Some(12)), Cell(Money(Total(inv), currency), false, Right, Some(12))]]
  }

  /** The totals: subtotal first, tax second, total last; the shipping row
      is there exactly when the shipping rate is positive; the retention
      rate and description change nothing. */
  lemma TotalsRowsShape(inv: InvoiceView, currency: string, retentionRate: real, retentionDescription: Option<string>)
    requires WellFormed(inv)
    ensures var rows := TotalsRows(inv, currency);
      |rows| == (if inv.shippingRate > 0.0 then 4 else 3) &&
      rows[0][0].content == Label(SubtotalLabel) &&
      rows[0][1].content == Money(Subtotal(inv.items), currency) &&
      rows[1][0].content == DescriptionOr(inv.taxDescription, TaxLabel) &&
      rows[1][1].content == Money(Tax(inv), currency) &&
      (inv.shippingRate > 0.0 ==> rows[2][0].content == DescriptionOr(inv.shippingDescription, ShippingLabel)) &&
      (inv.shippingRate > 0.0 ==> rows[2][1].content == Money(inv.shippingRate, currency)) &&
      rows[|rows| - 1][0].content == Label(TotalLabel) &&
      rows[|rows| - 1][1].content == Money(Total(inv), currency) &&
      rows[|rows| - 1][0].size == Some(12) && rows[|rows| - 1][1].size == Some(12)
    ensures WellFormed(inv.(retentionRate := retentionRate, retentionDescription := retentionDescription))
    ensures TotalsRows(inv.(retentionRate := retentionRate, retentionDescription := retentionDescription), currency) ==
      TotalsRows(inv, currency)
  {
    TotalFormula(inv, retentionRate, retentionDescription);
  }

  /** A negative shipping rate: the shipping row is hidden, yet the total
      still adds the negative shipping, so the rows shown do not add up to
      the total. */
  lemma HiddenNegativeShipping(inv: InvoiceView, currency: string)
    requires WellFormed(inv) && inv.shippingRate < 0.0
    ensures |TotalsRows(inv, currency)| == 3
    ensures Total(inv) < Subtotal(inv.items) + Tax(inv)
  {
  }

  /** `totals_lines`' table data, built by appending row after row. */
  method TotalsLines(inv: InvoiceView, currency: string) returns (data: seq<Row>)
    requires WellFormed(inv)
    ensures data == TotalsRows(inv, currency)
  {
    data := [[BoldCell(Label(SubtotalLabel), Left), PlainCell(Money(Subtotal(inv.items), currency), Right)]];
    var taxDescription := if inv.taxDescription.None? then Label(TaxLabel) else Text(inv.taxDescription.value);
    data := data + [[BoldCell(taxDescription, Left), PlainCell(Money(Tax(inv), currency), Right)]];
    if inv.shippingRate > 0.0 {
      var shippingDescription := if inv.shippingDescription.None? then Label(ShippingLabel) else Text(inv.shippingDescription.value);
      data := data + [[BoldCell(shippingDescription, Left), PlainCell(Money(Shipping(inv), currency), Right)]];
    }
    data := data + [[Cell(Label(TotalLabel), true, Left, Some(12)), Cell(Money(Total(inv), currency), false, Right, Some(12))]];
  }

  // ---------------------------------------------------------------------
  // Notes and QR code

  /** `qr_code.to_s.strip.present?`. */
  predicate QrPresent(qr: Option<string>)
  {
    !IsBlank(Strip(GetOr(qr, "")))
  }

  /** The QR payload to render, when there is one. */
  function QrPayload(inv: InvoiceView): Option<string>
  {
    if QrPresent(inv.qrCode) then Some(GetOr(inv.qrCode, "")) else None
  }

  /** `notes`: the notes section, holding the QR payload when there is one. */
  function NotesBlocks(notes: Option<string>, payload: Option<string>): seq<Block>
  {
    match notes
    case Some(text) => [NotesSection(text, payload)]
    case None => []
  }

  /** `render_qr_code unless invoice.notes`: the standalone QR code. */
  function StandaloneQrBlocks(notes: Option<string>, payload: Option<string>): seq<Block>
  {
    match payload
    case Some(qr) => if notes.None? then [QrCode(qr)] else []
    case None => []
  }

  function PageNumberBlocks(pageCount: nat): seq<Block>
  {
    if pageCount > 1 then [PageNumbers] else []
  }

  // ---------------------------------------------------------------------
  // The whole document

  /** The company banner block: the logo and the company table. An
      `Invoice` has no logo or company fields, so both come from the
      configuration. */
  function BannerBlock(cfg: Config): Block
  {
    Banner(InvoiceOrDefault(NoMethod, cfg.invoiceLogo),
           BannerRows(InvoiceOrDefault(NoMethod, cfg.companyName), InvoiceOrDefault(NoMethod, cfg.companyDetails)))
  }

  /** The blocks up to and including the totals. */
  function LeadingBlocks(inv: InvoiceView, cfg: Config, clock: Clock, details: seq<Row>): seq<Block>
    requires WellFormed(inv)
  {
    var currency := CurrencyOf(inv, cfg);
    StampBlocks(inv, clock) + [BannerBlock(cfg), PartiesBlock(inv)] + DetailBlocks(details) +
    [ItemsTable(LineItemRows(inv.items, currency)), TotalsTable(TotalsRows(inv, currency))]
  }

  /** The blocks after the totals, given the notes and the QR payload. */
  function TrailingBlocks(notes: Option<string>, payload: Option<string>, pageCount: nat): seq<Block>
  {
    NotesBlocks(notes, payload) + StandaloneQrBlocks(notes, payload) + PageNumberBlocks(pageCount)
  }

  /** `pdf(invoice)`: the blocks in the order the renderer emits them.
      `pageCount` is the number of pages the layout took. */
  function Render(inv: InvoiceView, cfg: Config, clock: Clock, pageCount: nat): Result<Document>
    requires WellFormed(inv)
  {
    var details :- DetailRows(inv, cfg.dateFormat);
    Ok(Document(InvoiceOrDefault(NoMethod, cfg.pageSize),
                LeadingBlocks(inv, cfg, clock, details) + TrailingBlocks(inv.notes, QrPayload(inv), pageCount)))
  }

  /** `stamp`: appends the status stamp, if any. */
  method Stamp(inv: InvoiceView, clock: Clock) returns (out: seq<Block>)
    ensures out == StampBlocks(inv, clock)
  {
    out := [];
    var status := StampStatus(inv, clock);
    if status.Some? {
      out := [StatusStamp(status.value)];
    }
  }

  /** The first half of `pdf(invoice)`: stamp, banner, parties, details,
      line items and totals, or the error `invoice_details` raises. */
  method Leading(inv: InvoiceView, cfg: Config, clock: Clock) returns (r: Result<seq<Block>>)
    requires WellFormed(inv)
    ensures DetailRows(inv, cfg.dateFormat).Raises? ==> r == Raises(DetailRows(inv, cfg.dateFormat).error)
    ensures DetailRows(inv, cfg.dateFormat).Ok? ==>
      r == Ok(LeadingBlocks(inv, cfg, clock, DetailRows(inv, cfg.dateFormat).value))
  {
    var blocks := Stamp(inv, clock);
    var banner := CompanyBanner(InvoiceOrDefault(NoMethod, cfg.companyName), InvoiceOrDefault(NoMethod, cfg.companyDetails));
    blocks := blocks + [Banner(InvoiceOrDefault(NoMethod, cfg.invoiceLogo), banner), PartiesBlock(inv)];
    var details := InvoiceDetails(inv, cfg.dateFormat);
    if details.Raises? {
      return Raises(details.error);
    }
    var shown: seq<Block> := [];
    if |details.value| > 0 {
      shown := [DetailsTable(details.value)];
    }
    blocks := blocks + shown;
    var currency := CurrencyOf(inv, cfg);
    var items := LineItemsTable(inv.items, currency);
    var totals := TotalsLines(inv, currency);
    blocks := blocks + [ItemsTable(items), TotalsTable(totals)];
    r := Ok(blocks);
  }

  /** The second half of `pdf(invoice)`: `notes`, the standalone
      `render_qr_code` when there are no notes, and `page_numbers`. */
  method Trailing(notes: Option<string>, qr: Option<string>, pageCount: nat) returns (out: seq<Block>)
    ensures out == TrailingBlocks(notes, qr, pageCount)
  {
    var section: seq<Block> := [];
    if notes.Some? {
      section := [NotesSection(notes.value, qr)];
    }
    var code: seq<Block> := [];
    if notes.None? && qr.Some? {
      code := [QrCode(qr.value)];
    }
    var numbers: seq<Block> := [];
    if pageCount > 1 {
      numbers := [PageNumbers];
    }
    out := section + code + numbers;
  }

  /** `pdf(invoice)`, step by step. */
  method Pdf(inv: InvoiceView, cfg: Config, clock: Clock, pageCount: nat) returns (r: Result<Document>)
    requires WellFormed(inv)
    ensures r == Render(inv, cfg, clock, pageCount)
  {
    var leading := Leading(inv, cfg, clock);
    if leading.Raises? {
      return Raises(leading.error);
    }
    var trailing := Trailing(inv.notes, QrPayload(inv), pageCount);
    r := Ok(Document(InvoiceOrDefault(NoMethod, cfg.pageSize), leading.value + trailing));
  }

  // ---------------------------------------------------------------------
  // Properties of the document

  /** How many times a list of blocks renders the QR code. */
  function QrCount(blocks: seq<Block>): nat
    decreases |blocks|
  {
    if blocks == [] then 0
    else
      (if blocks[0].QrCode? || (blocks[0].NotesSection? && blocks[0].qrCode.Some?) then 1 else 0) +
      QrCount(blocks[1..])
  }

  lemma {:induction false} QrCountAppend(a: seq<Block>, b: seq<Block>)
    ensures QrCount(a + b) == QrCount(a) + QrCount(b)
    decreases |a|
  {
    if a == [] {
      assert a + b == b;
    } else {
      assert (a + b)[0] == a[0];
      assert (a + b)[1..] == a[1..] + b;
      QrCountAppend(a[1..], b);
    }
  }

  /** The position of a block in the fixed order of the document. */
  function Rank(b: Block): nat
  {
    match b
    case StatusStamp(_) => 0
    case Banner(_, _) => 1
    case Parties(_, _) => 2
    case DetailsTable(_) => 3
    case ItemsTable(_) => 4
    case TotalsTable(_) => 5
    case NotesSection(_, _) => 6
    case QrCode(_) => 7
    case PageNumbers => 8
  }

  /** Blocks in strictly increasing rank: each kind at most once, in order. */
  predicate InOrder(blocks: seq<Block>)
  {
    forall i, j :: 0 <= i < j < |blocks| ==> Rank(blocks[i]) < Rank(blocks[j])
  }

  predicate RanksWithin(blocks: seq<Block>, lo: nat, hi: nat)
  {
    forall k :: 0 <= k < |blocks| ==> lo <= Rank(blocks[k]) < hi
  }

  /** Some block of the list has the given rank. */
  predicate HasRank(blocks: seq<Block>, rank: nat)
  {
    exists k :: 0 <= k < |blocks| && Rank(blocks[k]) == rank
  }

  lemma InOrderAppend(a: seq<Block>, b: seq<Block>, lo: nat, mid: nat, hi: nat)
    requires lo <= mid <= hi
    requires InOrder(a) && InOrder(b)
    requires RanksWithin(a, lo, mid) && RanksWithin(b, mid, hi)
    ensures InOrder(a + b) && RanksWithin(a + b, lo, hi)
  {
    forall i, j | 0 <= i < j < |a + b| ensures Rank((a + b)[i]) < Rank((a + b)[j]) {
      if j < |a| {
        assert (a + b)[i] == a[i] && (a + b)[j] == a[j];
      } else if i >= |a| {
        assert (a + b)[i] == b[i - |a|] && (a + b)[j] == b[j - |a|];
      } else {
        assert (a + b)[i] == a[i] && (a + b)[j] == b[j - |a|];
      }
    }
    forall k | 0 <= k < |a + b| ensures lo <= Rank((a + b)[k]) < hi {
      if k < |a| {
        assert (a + b)[k] == a[k];
      } else {
        assert (a + b)[k] == b[k - |a|];
      }
    }
  }

  lemma QrCountSingle(b: Block)
    ensures QrCount([b]) == if b.QrCode? || (b.NotesSection? && b.qrCode.Some?) then 1 else 0
  {
    assert [b][1..] == [];
  }

  /** Blocks ranked before the notes hold no QR code. */
  lemma {:induction false} QrCountNone(blocks: seq<Block>)
    requires RanksWithin(blocks, 0, 6)
    ensures QrCount(blocks) == 0
    decreases |blocks|
  {
    if blocks != [] {
      assert Rank(blocks[0]) < 6;
      assert RanksWithin(blocks[1..], 0, 6) by {
        forall k | 0 <= k < |blocks[1..]| ensures Rank(blocks[1..][k]) < 6 {
          assert blocks[1..][k] == blocks[k + 1];
        }
      }
      QrCountNone(blocks[1..]);
    }
  }

  /** The blocks up to the totals: stamp, banner, parties, details, line
      items and totals in that order, the four unconditional ones present,
      the totals last, and no QR code among them. */
  lemma LeadingShape(inv: InvoiceView, cfg: Config, clock: Clock, details: seq<Row>)
    requires WellFormed(inv)
    ensures var lead := LeadingBlocks(inv, cfg, clock, details);
      InOrder(lead) && RanksWithin(lead, 0, 6) &&
      HasRank(lead, 1) && HasRank(lead, 2) && HasRank(lead, 4) && HasRank(lead, 5) &&
      lead[|lead| - 1].TotalsTable? && QrCount(lead) == 0
  {
    var currency := CurrencyOf(inv, cfg);
    LeadOrder(StampBlocks(inv, clock), BannerBlock(cfg), PartiesBlock(inv), DetailBlocks(details),
              ItemsTable(LineItemRows(inv.items, currency)), TotalsTable(TotalsRows(inv, currency)));
  }

  /** At most one block, of the given rank. */
  predicate AtMostOne(blocks: seq<Block>, rank: nat)
  {
    blocks == [] || (|blocks| == 1 && Rank(blocks[0]) == rank)
  }

  /** The leading pieces, whatever they hold, concatenate in rank order. */
  lemma LeadOrder(s: seq<Block>, banner: Block, parties: Block, d: seq<Block>, items: Block, totals: Block)
    requires AtMostOne(s, 0) && Rank(banner) == 1 && Rank(parties) == 2 && AtMostOne(d, 3)
    requires items.ItemsTable? && totals.TotalsTable?
    ensures var lead := s + [banner, parties] + d + [items, totals];
      InOrder(lead) && RanksWithin(lead, 0, 6) &&
      HasRank(lead, 1) && HasRank(lead, 2) && HasRank(lead, 4) && HasRank(lead, 5) &&
      lead[|lead| - 1].TotalsTable? && QrCount(lead) == 0
  {
    var front := s + [banner, parties];
    var lead := front + d + [items, totals];
    LeadFrontOrder(s, banner, parties);
    LeadBackOrder(front, d, items, totals);
    HasRankAt(lead, |s|, 1);
    HasRankAt(lead, |s| + 1, 2);
    HasRankAt(lead, |lead| - 2, 4);
    HasRankAt(lead, |lead| - 1, 5);
    QrCountNone(lead);
  }

  lemma LeadFrontOrder(s: seq<Block>, banner: Block, parties: Block)
    requires AtMostOne(s, 0) && Rank(banner) == 1 && Rank(parties) == 2
    ensures InOrder(s + [banner, parties]) && RanksWithin(s + [banner, parties], 0, 3)
    ensures (s + [banner, parties])[|s|] == banner && (s + [banner, parties])[|s| + 1] == parties
  {
    InOrderAppend(s, [banner, parties], 0, 1, 3);
  }

  lemma LeadBackOrder(front: seq<Block>, d: seq<Block>, items: Block, totals: Block)
    requires InOrder(front) && RanksWithin(front, 0, 3) && AtMostOne(d, 3)
    requires items.ItemsTable? && totals.TotalsTable?
    ensures var lead := front + d + [items, totals];
      InOrder(lead) && RanksWithin(lead, 0, 6) &&
      lead[|lead| - 2] == items && lead[|lead| - 1] == totals &&
      forall k :: 0 <= k < |front| ==> lead[k] == front[k]
  {
    InOrderAppend(front, d, 0, 3, 4);
    InOrderAppend(front + d, [items, totals], 0, 4, 6);
  }

  lemma HasRankAt(blocks: seq<Block>, k: nat, rank: nat)
    requires k < |blocks| && Rank(blocks[k]) == rank
    ensures HasRank(blocks, rank)
  {
  }

  /** A rank present in a list stays present when more blocks follow. */
  lemma HasRankExtended(a: seq<Block>, b: seq<Block>, rank: nat)
    requires HasRank(a, rank)
    ensures HasRank(a + b, rank)
  {
    var k :| 0 <= k < |a| && Rank(a[k]) == rank;
    assert (a + b)[k] == a[k];
  }

  /** The trailing pieces, whatever they hold, concatenate in rank order. */
  lemma TrailOrder(n: seq<Block>, q: seq<Block>, p: seq<Block>)
    requires AtMostOne(n, 6) && AtMostOne(q, 7) && AtMostOne(p, 8)
    ensures InOrder(n + q + p) && RanksWithin(n + q + p, 6, 9)
  {
    InOrderAppend(n, q, 6, 7, 8);
    InOrderAppend(n + q, p, 6, 8, 9);
  }

  /** The blocks after the totals: notes, standalone QR code and page
      numbers in that order; the QR code is among them once when present
      and not at all otherwise, first of all in either place. */
  lemma TrailingShape(inv: InvoiceView, pageCount: nat)
    ensures var trail := TrailingBlocks(inv.notes, QrPayload(inv), pageCount);
      InOrder(trail) && RanksWithin(trail, 6, 9) &&
      QrCount(trail) == (if QrPresent(inv.qrCode) then 1 else 0) &&
      (QrPresent(inv.qrCode) && inv.notes.Some? ==> trail[0] == NotesSection(inv.notes.value, inv.qrCode)) &&
      (QrPresent(inv.qrCode) && inv.notes.None? ==> trail[0] == QrCode(GetOr(inv.qrCode, ""))) &&
      (PageNumbers in trail <==> pageCount > 1)
  {
    QrPayloadIsCode(inv);
    TrailingOrder(inv.notes, QrPayload(inv), pageCount);
    TrailingQr(inv.notes, QrPayload(inv), pageCount);
  }

  /** The payload is the invoice's QR code, there exactly when it is present. */
  lemma QrPayloadIsCode(inv: InvoiceView)
    ensures QrPayload(inv).Some? <==> QrPresent(inv.qrCode)
    ensures QrPayload(inv).Some? ==> QrPayload(inv) == inv.qrCode
  {
    if inv.qrCode.None? {
      assert Strip("") == "";
    }
  }

  lemma TrailingOrder(notes: Option<string>, payload: Option<string>, pageCount: nat)
    ensures InOrder(TrailingBlocks(notes, payload, pageCount))
    ensures RanksWithin(TrailingBlocks(notes, payload, pageCount), 6, 9)
  {
    TrailOrder(NotesBlocks(notes, payload), StandaloneQrBlocks(notes, payload), PageNumberBlocks(pageCount));
  }

  /** The payload is rendered once when there is one, inside the notes
      when there are notes and alone otherwise, and never without one. */
  lemma TrailingQr(notes: Option<string>, payload: Option<string>, pageCount: nat)
    ensures var trail := TrailingBlocks(notes, payload, pageCount);
      QrCount(trail) == (if payload.Some? then 1 else 0) &&
      (notes.Some? ==> trail[0] == NotesSection(notes.value, payload)) &&
      (payload.Some? && notes.None? ==> trail[0] == QrCode(payload.value))
  {
    var n := NotesBlocks(notes, payload);
    var q := StandaloneQrBlocks(notes, payload);
    var p := PageNumberBlocks(pageCount);
    if notes.Some? {
      QrCountSingle(n[0]);
    } else if q != [] {
      QrCountSingle(q[0]);
    }
    if p != [] {
      QrCountSingle(p[0]);
    }
    QrCountAppend(n, q);
    QrCountAppend(n + q, p);
  }

  /** The document's blocks come in the fixed order stamp, banner,
      parties, details, line items, totals, notes, standalone QR code and
      page numbers, each kind at most once; banner, parties, line items and
      totals are always there. */
  lemma DocumentOrder(inv: InvoiceView, cfg: Config, clock: Clock, pageCount: nat)
    requires WellFormed(inv) && Render(inv, cfg, clock, pageCount).Ok?
    ensures InOrder(Render(inv, cfg, clock, pageCount).value.blocks)
    ensures var blocks := Render(inv, cfg, clock, pageCount).value.blocks;
      HasRank(blocks, 1) && HasRank(blocks, 2) && HasRank(blocks, 4) && HasRank(blocks, 5)
  {
    var lead := LeadingBlocks(inv, cfg, clock, DetailRows(inv, cfg.dateFormat).value);
    var trail := TrailingBlocks(inv.notes, QrPayload(inv), pageCount);
    LeadingShape(inv, cfg, clock, DetailRows(inv, cfg.dateFormat).value);
    TrailingShape(inv, pageCount);
    InOrderAppend(lead, trail, 0, 6, 9);
    var blocks := Render(inv, cfg, clock, pageCount).value.blocks;
    assert blocks == lead + trail;
    HasRankExtended(lead, trail, 1);
    HasRankExtended(lead, trail, 2);
    HasRankExtended(lead, trail, 4);
    HasRankExtended(lead, trail, 5);
  }

  /** A present QR code is rendered exactly once, an absent or blank one
      never: inside the notes section when there are notes, otherwise as a
      standalone block right after the totals. */
  lemma QrRenderedOnce(inv: InvoiceView, cfg: Config, clock: Clock, pageCount: nat)
    requires WellFormed(inv) && Render(inv, cfg, clock, pageCount).Ok?
    ensures var blocks := Render(inv, cfg, clock, pageCount).value.blocks;
      QrCount(blocks) == (if QrPresent(inv.qrCode) then 1 else 0) &&
      (QrPresent(inv.qrCode) && inv.notes.Some? ==>
         NotesSection(inv.notes.value, inv.qrCode) in blocks) &&
      (QrPresent(inv.qrCode) && inv.notes.None? ==>
         exists k :: 0 <= k < |blocks| - 1 && blocks[k].TotalsTable? && blocks[k + 1] == QrCode(GetOr(inv.qrCode, "")))
  {
    var lead := LeadingBlocks(inv, cfg, clock, DetailRows(inv, cfg.dateFormat).value);
    var trail := TrailingBlocks(inv.notes, QrPayload(inv), pageCount);
    LeadingShape(inv, cfg, clock, DetailRows(inv, cfg.dateFormat).value);
    TrailingShape(inv, pageCount);
    var blocks := Render(inv, cfg, clock, pageCount).value.blocks;
    assert blocks == lead + trail;
    QrCountAppend(lead, trail);
    if QrPresent(inv.qrCode) {
      assert blocks[|lead|] == trail[0];
      assert blocks[|lead| - 1] == lead[|lead| - 1];
    }
  }
}
