# Payday invoices, modelled in Dafny

Payday is a Ruby library for building invoices and rendering them as PDF
documents. This project models its financial core and the decision logic of
its renderer, and proves properties of both.

- **Line items** (`LineItemable`, `LineItem`). A line item's amount is its
  predefined amount when set, otherwise price times quantity. Normalising
  setters turn `nil` and blank values into 0, and the constructor supplies
  the default quantity 1, the default price 0 and the empty description.
- **Invoices** (`Invoice`, `Invoiceable`). An invoice holds line items,
  rates and descriptions, dates, details and a QR code payload.
  - The subtotal is a left fold over the items' amounts.
  - The tax is the subtotal times the tax rate, read as a percentage.
  - The shipping is the flat shipping rate.
  - The total is subtotal plus tax plus shipping.
  - The statuses are paid, refunded and overdue; the overdue check is
    made against a clock passed in.
  - `each_detail` iterates the invoice details, given either as pairs or
    as a hash.
- **The renderer** (`PdfRenderer`). It decides:
  - which blocks the document holds, and in which order;
  - the status stamp and its priority;
  - the company banner rows, the bill-to and ship-to tables and the
    invoice detail rows (including the paid-date branch);
  - the line-item rows and their cells, and the totals rows (the shipping
    row is conditional);
  - where the QR code goes, the page numbers, and the invoice-or-default
    fallback;
  - the conversion of an amount into currency minor units, with half-up
    rounding (standalone functions that `Render` does not use).

  Cell contents are symbolic: a label id with its translation key and
  default text, an amount in a currency, a date under a pattern.

`LineItem` and `Invoice` are classes, because Ruby updates their fields in
place. Each class has a `View()` function that returns a datatype snapshot
of its readable state. The pure arithmetic of `Invoiceable` and the
renderer's decisions are functions over those snapshots.

The renderer's Ruby methods that build their result step by step are
modelled as methods, and each is proved against a specification:
- `company_banner` (`CompanyBanner`), `invoice_details` (`InvoiceDetails`)
  and `line_items_table` (`LineItemsTable`) loop over lines, details or
  items and are proved equal to `BannerRows`, `DetailRows` and
  `LineItemRows`. `max_cell_width` (`MaxCellWidth`) loops over the widths
  and is proved to return their maximum (or 0).
- `stamp` (`Stamp`) and `totals_lines` (`TotalsLines`) append without a
  loop and are proved equal to `StampBlocks` and `TotalsRows`.
- `pdf` is split into `Leading` (stamp through totals) and `Trailing`
  (`notes`, the standalone `render_qr_code` and `page_numbers`, which have
  no loop). They are proved equal to `LeadingBlocks` and `TrailingBlocks`,
  and `Pdf` is proved equal to `Render`.

BigDecimal arithmetic is exact; it is modelled with `real`.

The model follows the code as written in three places, and the lemmas
named below make each behaviour visible:

- **Retention is not part of the total.** The comment at
  `lib/payday/invoice.rb:55` says the retention rate is deducted from the
  total. `total` (`lib/payday/invoiceable.rb:53-55`) never reads it, and no
  retention row is rendered.
  - `Invoiceable.TotalFormula` and `Invoices.Invoice.SetRetentionRate` show
    that the total does not depend on the retention rate.
  - `PdfRenderer.TotalsRowsShape` shows the same for the totals rows.
- **The paid-date branch tests the due value.** The branch at
  `lib/payday/pdf_renderer.rb:166` checks whether `due_at` is a `Time`,
  where one would expect it to check `paid_at`.
  - When `paid_at` is a `Time` and `due_at` is not, the paid date is shown
    unformatted.
  - When `paid_at` is neither a `Date` nor a `Time` and `due_at` is a
    `Time`, the renderer calls `strftime` on it and raises `NoMethodError`.
  - See `PdfRenderer.PaidDateDependsOnDueAt` and
    `PdfRenderer.DetailRowsLayout`.
- **A negative shipping rate is hidden but still counted.** The shipping
  row is shown only when the shipping rate is positive
  (`lib/payday/pdf_renderer.rb:245`). A negative rate therefore hides the
  row, yet it still reduces the total. See
  `PdfRenderer.HiddenNegativeShipping`.

## Model

| member | source | states |
|---|---|---|
| Values.Normalize | lib/payday/line_item.rb:31-46 | definition of the setters' shared rule: `nil` and blank become 0, a given decimal is kept (used by every setter's ensures, and by `invoice.rb:44-59`) |
| Values.OrDefault | lib/payday/line_item.rb:18-28 | definition of `options[key] \|\| default`: only `nil` falls back, a blank value is kept (used by `LineItems.Built`) |
| LineItemable.Amount | lib/payday/line_itemable.rb:8-12 | definition: the predefined amount when one is set, otherwise price × quantity (its behaviour is proved by the three lemmas below) |
| LineItemable.PredefinedAmountOverrides | lib/payday/line_itemable.rb:8-12 | a set predefined amount is the amount, whatever price and quantity hold |
| LineItemable.ZeroPredefinedAmountIsSet | lib/payday/line_itemable.rb:9 | a predefined amount of 0 is truthy, so the amount is 0 |
| LineItemable.AmountIsPriceTimesQuantity | lib/payday/line_itemable.rb:11 | without a predefined amount the amount is the exact product price × quantity |
| LineItemable.AmountIgnoresPresentation | lib/payday/line_itemable.rb:8-12 | the amount depends only on the three numeric fields, never on description or display overrides |
| LineItems.Built | lib/payday/line_item.rb:18-28 | the built item can always be priced; its description defaults to ""; the predefined amount is set exactly when the option is not nil |
| LineItems.LineItem.constructor | lib/payday/line_item.rb:18-28 | the new item keeps the class invariant and holds exactly the state `Built(opts)` describes |
| LineItems.LineItem.SetQuantity | lib/payday/line_item.rb:31-34 | nil and blank become 0; only the quantity changes; the invariant is kept |
| LineItems.LineItem.SetPrice | lib/payday/line_item.rb:37-40 | nil and blank become 0; only the price changes; the invariant is kept |
| LineItems.LineItem.SetPredefinedAmount | lib/payday/line_item.rb:43-46 | nil and blank become 0, which is still a set amount; only that field changes; the amount becomes the normalised value |
| LineItems.DefaultLineItem | lib/payday/line_item.rb:18-28 | with no options: quantity 1, price 0, description "", no predefined amount, amount 0 |
| LineItems.PredefinedLineItem | lib/payday/line_item.rb:19-20 | with a predefined amount, quantity, price and both display fields stay unset and the amount is the normalised predefined amount |
| LineItems.PricedLineItem | lib/payday/line_item.rb:21-26 | otherwise the amount is normalised price (default 0) × normalised quantity (default 1); a blank quantity gives 0, not the default |
| LineItems.LineItemExamples | spec/line_item_spec.rb:5-28 | price 20, quantity 30 and a description are stored as given; 10 × 12 amounts to 120; predefined 244 amounts to 244 |
| Invoiceable.FoldAmounts | lib/payday/invoiceable.rb:29-31 | definition: the `reduce` as a left fold that adds each amount to the accumulator (related to the reference sum by `FoldIsSum`) |
| Invoiceable.Subtotal | lib/payday/invoiceable.rb:29-31 | definition: the fold from 0 (equal to the reference sum by `SubtotalIsSum`) |
| Invoiceable.Tax | lib/payday/invoiceable.rb:34-40 | definition: subtotal × tax rate / 100, with no floor (its sign is proved by `TaxFollowsSubtotalSign`) |
| Invoiceable.Shipping | lib/payday/invoiceable.rb:44-50 | definition: the flat shipping rate |
| Invoiceable.Total | lib/payday/invoiceable.rb:53-55 | definition: subtotal + tax + shipping (closed form and retention independence proved by `TotalFormula`) |
| Invoiceable.IsOverdue | lib/payday/invoiceable.rb:57-61 | definition: due at a Date before today or at a Time before now, and not paid (both directions proved by `OverdueExactly`) |
| Invoiceable.IsRefunded | lib/payday/invoiceable.rb:63-65 | definition: a refund date is set |
| Invoiceable.IsPaid | lib/payday/invoiceable.rb:67-69 | definition: a paid date is set |
| Invoiceable.EachDetail | lib/payday/invoiceable.rb:83-89 | definition: the pairs as given, or a hash's entries in insertion order, as the `order` list records it (proved by `EachDetailYieldsEveryDetailOnce`) |
| Invoiceable.FoldIsSum | lib/payday/invoiceable.rb:29-31 | the left fold from any accumulator is that accumulator plus the sum of the amounts |
| Invoiceable.SumOfAmountsAppend | lib/payday/invoiceable.rb:29-31 | the sum of the amounts of a concatenation is the sum of the two sums |
| Invoiceable.SubtotalIsSum | lib/payday/invoiceable.rb:29-31 | `subtotal` equals the independent recursive sum of the items' amounts |
| Invoiceable.SubtotalAppendOne | lib/payday/invoiceable.rb:29-31 | appending an item raises the subtotal by exactly its amount |
| Invoiceable.SubtotalAppend | lib/payday/invoiceable.rb:29-31 | the subtotal of a concatenation is the sum of the subtotals |
| Invoiceable.TaxFollowsSubtotalSign | lib/payday/invoiceable.rb:34-40 | under a positive rate the tax has the sign of the subtotal; a negative subtotal gives negative tax |
| Invoiceable.TotalFormula | lib/payday/invoiceable.rb:53-55 | total = subtotal × (1 + rate/100) + shipping rate, and changing retention rate or description leaves it unchanged |
| Invoiceable.PaidIsNeverOverdue | lib/payday/invoiceable.rb:57-61 | a paid invoice is never overdue |
| Invoiceable.OverdueExactly | lib/payday/invoiceable.rb:57-61 | overdue exactly when unpaid and due at a Date before today or a Time before now |
| Invoiceable.DistinctKeysCount | lib/payday/invoiceable.rb:83-89 | a key order without repeats has as many elements as its key set |
| Invoiceable.EachDetailYieldsEveryDetailOnce | lib/payday/invoiceable.rb:83-89 | as many pairs are yielded as there are details; pairs are yielded as given; a hash yields exactly its entries, each key once |
| Invoiceable.PairsAndHashAgree | lib/payday/invoiceable.rb:83-89 | a hash and the array of its entries in insertion order are iterated identically |
| Invoiceable.ThreeItemScenario | spec/invoice_spec.rb:31-76 | 20 × 5, 10 × 3, 5 × 200 give subtotal 1130, and at 10% tax 113 and total 1243 |
| Invoiceable.TaxScenarios | spec/invoice_spec.rb:47-60 | 20 × 5 at 10% gives tax 10; −1 × 100 at 10% gives subtotal −100 and tax −10 |
| Invoiceable.OverdueScenarios | spec/invoice_spec.rb:78-91 | due yesterday and unpaid is overdue, paid it is not, and a past Time is overdue |
| Invoiceable.DetailScenarios | spec/invoice_spec.rb:114-140 | the pair form and the hash form of two details both yield exactly those two pairs |
| Invoices.ItemViews | lib/payday/invoice.rb:24 | one view per line item, in list order; when every item keeps its invariant, every view can be priced, which is what `Subtotal` and `Render` require |
| Invoices.Invoice.constructor | lib/payday/invoice.rb:19-38 | every option is stored as given; line items and details default to empty; the three rates are normalised; the invariant holds |
| Invoices.Invoice.SetTaxRate | lib/payday/invoice.rb:44-47 | nil and blank become 0; only the tax rate changes; the invariant is kept |
| Invoices.Invoice.SetShippingRate | lib/payday/invoice.rb:50-53 | nil and blank become 0; only the shipping rate changes; the invariant is kept |
| Invoices.Invoice.SetRetentionRate | lib/payday/invoice.rb:55-59 | nil and blank become 0; only the retention rate changes, and the total stays what it was |
| Invoices.Invoice.AddLineItem | lib/payday/invoice.rb:62-64 | exactly one fresh item is appended, built from the options; earlier items are kept in order; the subtotal grows by its amount |
| Invoices.DefaultInvoice | lib/payday/invoice.rb:19-38 | with no options every rate is 0, there are no items or details, and the total is 0 |
| Invoices.InitializedWithOptions | spec/invoice_spec.rb:9-29 | the options of a full hash come back from the new invoice's fields |
| RubyText.LStrip | lib/payday/pdf_renderer.rb:92 | a suffix that does not start with a strip character; everything cut is strip characters |
| RubyText.RStrip | lib/payday/pdf_renderer.rb:92 | a prefix that does not end with a strip character; everything cut is strip characters |
| RubyText.Strip | lib/payday/pdf_renderer.rb:92 | an infix that neither starts nor ends with a strip character, with only strip characters cut off either end |
| RubyText.IsBlank | lib/payday/pdf_renderer.rb:289 | definition of ActiveSupport's `blank?` on text: every character is a POSIX space (`present?` is its negation) |
| RubyText.StripSpaceIsBlankExceptNul | lib/payday/pdf_renderer.rb:289 | every character `strip` removes except NUL counts as blank |
| RubyText.InfixOfSuffix | lib/payday/pdf_renderer.rb:92 | a prefix of a suffix is the matching infix, and what `rstrip` cut from the suffix is what follows that infix |
| RubyText.StrippedPresent | lib/payday/pdf_renderer.rb:289 | a QR payload with a character that is neither blank nor NUL is still present after `strip` |
| RubyText.StrippedAbsent | lib/payday/pdf_renderer.rb:289 | a QR payload of strip characters only is stripped to nothing |
| RubyText.FirstLineLength | lib/payday/pdf_renderer.rb:94 | the first line ends at the first line feed (kept) or at the end of the text |
| RubyText.Lines | lib/payday/pdf_renderer.rb:94 | the lines concatenated give back the text |
| RubyText.LinesShape | lib/payday/pdf_renderer.rb:94 | no lines exactly for the empty text; every line is non-empty with no inner line feed; all but the last end with one; the last does exactly when the text does |
| PdfRenderer.InvoiceOrDefault | lib/payday/pdf_renderer.rb:306-312 | definition: the invoice's answer when it responds with a truthy value, else the configured default (proved by `InvoiceOrDefaultChoice`) |
| PdfRenderer.NumberToCurrency | lib/payday/pdf_renderer.rb:323-330 | definition: an amount in the currency `invoice_or_default` resolves; for an invoice this is exactly the `Money` cell of the line-item and totals rows (proved by `NumberToCurrencyIsCurrencyOf`) |
| PdfRenderer.NumberToCurrencyIsCurrencyOf | lib/payday/pdf_renderer.rb:323-326 | `number_to_currency` on an invoice gives the amount in the currency `CurrencyOf` resolves, so it is the invoice's currency when set and the configured one otherwise |
| PdfRenderer.InvoiceOrDefaultChoice | lib/payday/pdf_renderer.rb:306-312 | a truthy answer wins; no method, or a nil answer, gives the default |
| PdfRenderer.CurrencyOf | lib/payday/pdf_renderer.rb:323-326 | definition: the currency `invoice_or_default` resolves for an invoice (proved by `CurrencyResolution`) |
| PdfRenderer.CurrencyResolution | lib/payday/pdf_renderer.rb:323-326 | an invoice's currency wins, otherwise the configured currency is used |
| PdfRenderer.RoundHalfUp | lib/payday/pdf_renderer.rb:325-328 | the nearest integer, ties away from zero |
| PdfRenderer.MinorUnits | lib/payday/pdf_renderer.rb:327-328 | with infinite precision, number × subunits exactly; otherwise an integer within one half of it |
| PdfRenderer.NilInvoiceCurrency | spec/pdf_renderer_spec.rb:9-11 | 20 with a nil invoice is shown in the configured USD, 2000 cents |
| PdfRenderer.StampBlocks | lib/payday/pdf_renderer.rb:46-66 | definition: one stamp block for the status, none without one (proved equal to `Stamp` and placed by `LeadingShape`) |
| PdfRenderer.StampStatus | lib/payday/pdf_renderer.rb:46-54 | definition: REFUNDED, else PAID, else OVERDUE, else none (proved by `StampPriority`) |
| PdfRenderer.StampPriority | lib/payday/pdf_renderer.rb:46-66 | REFUNDED iff refunded; PAID iff paid and not refunded; OVERDUE iff overdue and not refunded; otherwise no stamp |
| PdfRenderer.BannerRows | lib/payday/pdf_renderer.rb:91-94 | definition: the stripped company name row, then one row per line of the details (proved by `BannerKeepsDetails`) |
| PdfRenderer.PartiesBlock | lib/payday/pdf_renderer.rb:107-131 | definition: the bill-to table always, the ship-to table only when `ship_to` is not nil (proved by `PartiesShape`) |
| PdfRenderer.PartiesShape | lib/payday/pdf_renderer.rb:112-124 | the bill-to table holds the bill-to text (or nothing); the ship-to table exists exactly when `ship_to` is not nil and then holds it |
| PdfRenderer.BannerKeepsDetails | lib/payday/pdf_renderer.rb:91-94 | one bold size-12 row with the stripped name, then one row per details line; the rows rejoined give the details text |
| PdfRenderer.CompanyBanner | lib/payday/pdf_renderer.rb:91-94 | the appending loop builds exactly the banner rows |
| PdfRenderer.PartiesNextCursor | lib/payday/pdf_renderer.rb:128-130 | the cursor moves to 20 below the lower of the two table bottoms |
| PdfRenderer.DueDateText | lib/payday/pdf_renderer.rb:152-158 | definition of the due date text (proved for every value by `DueDateRule`) |
| PdfRenderer.PaidDateText | lib/payday/pdf_renderer.rb:164-170 | definition of the paid date text, with the branch on the due value (proved for every value by `PaidDateRule`) |
| PdfRenderer.DetailRows | lib/payday/pdf_renderer.rb:137-185 | definition of the detail rows (layout proved by `DetailRowsLayout` and `DetailRowValues`) |
| PdfRenderer.DetailBlocks | lib/payday/pdf_renderer.rb:182-184 | definition: the details table only when it has rows (proved by `DetailsTableEmittedIff`) |
| PdfRenderer.DetailRowsLayout | lib/payday/pdf_renderer.rb:137-185 | number, due date and paid date rows for what is set, in that order, then one row per detail pair in order; raises exactly for a non-date paid value beside a due Time |
| PdfRenderer.ReceiptLabelIffPaid | lib/payday/pdf_renderer.rb:142-150 | the number row says "Receipt #" exactly when the invoice is paid, "Invoice #" otherwise |
| PdfRenderer.DetailsTableEmittedIff | lib/payday/pdf_renderer.rb:182-184 | the details table is drawn exactly when a number, a due date, a paid date or a detail exists |
| PdfRenderer.DueDateRule | lib/payday/pdf_renderer.rb:152-158 | for every due value: a Date or Time is formatted with the pattern, anything else is its `to_s` |
| PdfRenderer.PaidDateRule | lib/payday/pdf_renderer.rb:164-170 | for every paid and due value: a paid Date is formatted; a paid Time is formatted exactly when the due value is a Time, else shown unformatted; any other paid value raises exactly when the due value is a Time and is shown as itself otherwise |
| PdfRenderer.DetailRowValues | lib/payday/pdf_renderer.rb:151-173 | the due row's value cell is the due date text and the paid row's is the paid date text, both bold and right-aligned after their labels |
| PdfRenderer.PaidDateDependsOnDueAt | lib/payday/pdf_renderer.rb:164-170 | on concrete values: a paid Time is formatted beside a due Time and shown unformatted without one; a paid Date is formatted; a paid text beside a due Time raises |
| PdfRenderer.InvoiceDetails | lib/payday/pdf_renderer.rb:137-185 | the row-appending procedure yields exactly the detail rows or the same error |
| PdfRenderer.ItemRow | lib/payday/pdf_renderer.rb:199-208 | definition of one item row: blanks and the predefined amount, or description, price, quantity and amount (proved by `OrdinaryRowCells`) |
| PdfRenderer.LineItemRows | lib/payday/pdf_renderer.rb:192-208 | definition: the header, then one row per item in order (proved by `LineItemRowsShape`) |
| PdfRenderer.LineItemRowsShape | lib/payday/pdf_renderer.rb:191-217 | the header plus one four-cell row per item in order: description first, formatted amount last, number columns right-aligned, blanks for predefined amounts |
| PdfRenderer.OrdinaryRowCells | lib/payday/pdf_renderer.rb:203-206 | display price and display quantity win over the formatted price and decimal quantity; the amount cell is price × quantity |
| PdfRenderer.LineItemsTable | lib/payday/pdf_renderer.rb:192-208 | the appending loop builds exactly the line-item rows |
| PdfRenderer.FitDescriptionColumn | lib/payday/pdf_renderer.rb:220-221 | the description column takes what the number columns leave, so the four widths add up to the table width; the others are unchanged |
| PdfRenderer.MaxCellWidth | lib/payday/pdf_renderer.rb:332-339 | at least 0, no smaller than any width, and 0 or one of the widths |
| PdfRenderer.TotalsRows | lib/payday/pdf_renderer.rb:227-263 | definition of the totals rows (proved by `TotalsRowsShape` and `HiddenNegativeShipping`) |
| PdfRenderer.TotalsRowsShape | lib/payday/pdf_renderer.rb:227-263 | the subtotal label and amount first; the tax description (or label) and amount second; a shipping row exactly when the rate is positive, with the shipping description (or label) and the rate; the total label and amount last, both at size 12; retention changes nothing |
| PdfRenderer.HiddenNegativeShipping | lib/payday/pdf_renderer.rb:245 | a negative shipping rate gives three rows, yet the total is below subtotal plus tax |
| PdfRenderer.TotalsLines | lib/payday/pdf_renderer.rb:227-263 | the appending procedure builds exactly the totals rows |
| PdfRenderer.QrPresent | lib/payday/pdf_renderer.rb:289 | definition: `qr_code.to_s.strip.present?` (partly characterised by `StrippedPresent` and `StrippedAbsent`) |
| PdfRenderer.QrPayload | lib/payday/pdf_renderer.rb:289 | definition: the QR code when present (proved by `QrPayloadIsCode`) |
| PdfRenderer.NotesBlocks | lib/payday/pdf_renderer.rb:272-286 | definition: the notes section, holding the payload, only when there are notes |
| PdfRenderer.StandaloneQrBlocks | lib/payday/pdf_renderer.rb:39 | definition: the QR code alone, only when there is a payload and no notes |
| PdfRenderer.PageNumberBlocks | lib/payday/pdf_renderer.rb:300-304 | definition: page numbers only for more than one page (proved by `TrailingShape`; carried into `Pdf` by `Trailing`) |
| PdfRenderer.BannerBlock | lib/payday/pdf_renderer.rb:69-103 | definition: the configured logo and the banner rows of the configured company name and details |
| PdfRenderer.LeadingBlocks | lib/payday/pdf_renderer.rb:32-37 | definition: stamp, banner, parties, details, line items and totals (proved by `LeadingShape`) |
| PdfRenderer.TrailingBlocks | lib/payday/pdf_renderer.rb:38-41 | definition: notes, standalone QR code and page numbers (proved by `TrailingShape`) |
| PdfRenderer.Render | lib/payday/pdf_renderer.rb:19-44 | definition of the whole document (proved by `DocumentOrder` and `QrRenderedOnce`) |
| PdfRenderer.Stamp | lib/payday/pdf_renderer.rb:46-63 | produces the stamp block exactly when there is a status |
| PdfRenderer.Leading | lib/payday/pdf_renderer.rb:32-37 | stamp, banner, parties, details, line items and totals as `LeadingBlocks` lays them out, or the error `invoice_details` raises |
| PdfRenderer.Trailing | lib/payday/pdf_renderer.rb:38-41 | the notes section, the standalone QR code only without notes, and page numbers only for more than one page |
| PdfRenderer.Pdf | lib/payday/pdf_renderer.rb:19-44 | the step-by-step document equals the specification `Render`, failure included |
| PdfRenderer.QrCountAppend | lib/payday/pdf_renderer.rb:272-298 | QR occurrences of a concatenation add up |
| PdfRenderer.QrPayloadIsCode | lib/payday/pdf_renderer.rb:289 | the payload to render is the invoice's QR code, and exists exactly when that is present |
| PdfRenderer.LeadOrder | lib/payday/pdf_renderer.rb:32-37 | any stamp, banner, parties, details, line items and totals pieces of the right kinds concatenate in rank order with the four fixed kinds present and no QR code |
| PdfRenderer.TrailOrder | lib/payday/pdf_renderer.rb:38-41 | any notes, QR code and page-number pieces of the right kinds concatenate in rank order |
| PdfRenderer.TrailingQr | lib/payday/pdf_renderer.rb:38-39 | the payload is rendered once when there is one, inside the notes when there are notes and alone otherwise |
| PdfRenderer.LeadingShape | lib/payday/pdf_renderer.rb:32-37 | stamp, banner, parties, details, line items, totals in order; the four fixed blocks are there; totals last; no QR code |
| PdfRenderer.TrailingShape | lib/payday/pdf_renderer.rb:38-41 | notes, standalone QR code, page numbers in order; the QR code once when present, at their head; page numbers exactly when there is more than one page |
| PdfRenderer.DocumentOrder | lib/payday/pdf_renderer.rb:19-44 | the blocks come in the fixed order, each kind at most once, with banner, parties, line items and totals always present |
| PdfRenderer.QrRenderedOnce | lib/payday/pdf_renderer.rb:272-298 | a present QR code is rendered exactly once (inside the notes, or right after the totals without notes), an absent or blank one never |

## Left out

- Drawing is not modelled: fonts, colours, rotation, bounding boxes,
  borders, padding and cursor movement other than the bill-to/ship-to
  cursor rule. The document is a list of symbolic blocks.
- Writing the PDF out (`render`, `render_to_file`, and
  `Invoiceable#render_pdf`/`render_pdf_to_file`) is left out; it is I/O.
- The logo is not loaded. Reading the image or SVG file, parsing its
  `"WxH"` size and placing it by its height are I/O and geometry; the
  block only records which logo was chosen.
- Translation is left out. Labels are ids with their translation key and
  default text, and no locale lookup is modelled.
- Currency formatting is left out. The currency table, symbols and
  separators belong to the money library. The model keeps the chosen
  currency and the conversion to rounded minor units
  (`PdfRenderer.MinorUnits`).
- Text formatting of values is symbolic. `strftime`, `Date#to_s`,
  `Time#to_s` and `BigDecimal#to_s('F')` are represented as contents
  (`Formatted`, `Shown` and `PlainDecimal`), not as text.
- QR image generation (encoding the payload as a PNG) is left out; only
  the decision whether and where the code appears is modelled.
- The page count comes from the PDF layout, so it is a parameter.
  `Date.today` and `Time.now` are also a parameter (`Clock`).
- The notes section's title and rule are constant drawing. Only the notes
  text and the embedded QR code are recorded.
- The column widths computed by `natural_column_widths` belong to the
  table library. Only the assignment that fits the description column is
  modelled.
- Parsing a string into a BigDecimal is not modelled. Numeric input is
  either `nil`, blank, or an already-parsed decimal, so an unparsable
  string raising `ArgumentError` is not covered.
- The plain `attr_accessor` writers are not separate methods: they are
  field assignments with no logic. On a line item these are the
  description and display fields. On an invoice they are `line_items=`,
  the number, the parties, `notes`, the shipping, tax and retention
  descriptions, the due, paid, refunded and invoice dates, the currency,
  the details and the QR code.
- Mutating the line-item array directly (`invoice.line_items << item` or
  `invoice.line_items += [...]`, as the invoice specs do) is not a
  separate operation. `Invoices.Invoice.AddLineItem` is the modelled way
  to grow the list. A reassignment through `line_items=` stores a new
  value in the `lineItems` field.
- `Invoiceable`'s fallbacks for other including classes are left out:
  `bill_to` returning the "Goofy McGoofison" text, and `tax`/`shipping`
  of 0 when no rate method is defined. `Invoice` defines all of these, so
  the fallbacks never apply to it.
- `defined?` probes in the renderer are left out for the same reason: they
  always succeed on an `Invoice`.
- Line items are `LineItem` objects. Other duck-typed line items are not
  modelled.
- `payday/config.rb` is not part of this model. Its defaults enter as the
  `Config` record.
- LineItemable.Amount: requires that a predefined amount, or both price and quantity, are set. Ruby would raise `NoMethodError` (`nil * …`) or `TypeError` (a BigDecimal times `nil`). Every `LineItem` keeps this as its invariant, so no reachable item is excluded.
- Invoices.Invoice.constructor: requires the given items to keep their invariant and a hash of details to list each key once. The first holds for every `LineItem`; the second is how a Ruby Hash behaves.
- Invoices.Invoice.constructor and Invoices.Invoice.AddLineItem: the aliasing of the line-item array is not modelled. In Ruby the invoice stores the caller's array itself (`lib/payday/invoice.rb:24`), and `add_line_item` appends to that array in place (`lib/payday/invoice.rb:63`). So the caller's array grows too, and so does any other invoice built from the same array. In the model the list is a `seq` value: the item objects are shared, but the list is not, and an append is seen only by the invoice that makes it.
- PdfRenderer.MinorUnits and PdfRenderer.RoundHalfUp model the scaling and half-up rounding of `number_to_currency` (`lib/payday/pdf_renderer.rb:323-330`) on their own. A currency's `subunit_to_unit` comes from the money library's currency table, which is not modelled, so the document's `Money` content carries the unscaled amount and the currency code. Neither function is used by `Render`.
- Invoices.InitializedWithOptions: the invoice number is modelled as an optional string. Ruby stores any object there, and the spec passes and expects back the Integer 20. The renderer only ever uses the number's `to_s`, so the model keeps that text, `"20"`.
