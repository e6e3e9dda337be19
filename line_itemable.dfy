/** `Payday::LineItemable`: what a line item must offer, and its amount. */
module LineItemable {
  import opened Values

  /** The readable members of a line item: the presentation fields and the
      three numeric fields, each of which may be unset (`nil`). */
  datatype LineItemView = LineItemView(
    description: string,
    displayQuantity: Option<string>,
    displayPrice: Option<string>,
    quantity: Option<real>,
    price: Option<real>,
    predefinedAmount: Option<real>)

  /** `amount` does not raise: either a predefined amount is set, or both
      factors of `price * quantity` are. Every `LineItem` keeps this. */
  predicate Priceable(item: LineItemView)
  {
    item.predefinedAmount.Some? || (item.price.Some? && item.quantity.Some?)
  }

  /** `amount`: the predefined amount when one is set (a BigDecimal 0 is
      truthy, so 0 counts as set), otherwise `price * quantity`. */
  function Amount(item: LineItemView): real
    requires Priceable(item)
  {
    if item.predefinedAmount.Some? then item.predefinedAmount.value
    else item.price.value * item.quantity.value
  }

  /** A predefined amount wins whatever price and quantity hold. */
  lemma PredefinedAmountOverrides(item: LineItemView, price: Option<real>, quantity: Option<real>)
    requires item.predefinedAmount.Some?
    ensures Priceable(item.(price := price, quantity := quantity))
    ensures Amount(item.(price := price, quantity := quantity)) == item.predefinedAmount.value
  {
  }

  /** A predefined amount of 0 is still set, so the amount is 0 even when
      price and quantity would give something else. */
  lemma ZeroPredefinedAmountIsSet(item: LineItemView)
    requires item.predefinedAmount == Some(0.0)
    ensures Amount(item) == 0.0
  {
  }

  /** Without a predefined amount, the amount is the exact product. */
  lemma AmountIsPriceTimesQuantity(item: LineItemView)
    requires item.predefinedAmount.None? && item.price.Some? && item.quantity.Some?
    ensures Amount(item) == item.price.value * item.quantity.value
  {
  }

  /** The amount reads only the three numeric fields: the description and
      the display overrides never change it. */
  lemma AmountIgnoresPresentation(a: LineItemView, b: LineItemView)
    requires Priceable(a)
    requires a.quantity == b.quantity && a.price == b.price && a.predefinedAmount == b.predefinedAmount
    ensures Priceable(b) && Amount(a) == Amount(b)
  {
  }
}
