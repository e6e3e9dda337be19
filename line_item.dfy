/** `Payday::LineItem`: a line item whose numeric fields are set through
    normalising setters. */
module LineItems {
  import opened Values
  import opened LineItemable

  /** The options hash given to `LineItem.new`; a missing key is `Nil` or `None`. */
  datatype LineItemOptions = LineItemOptions(
    predefinedAmount: Input,
    quantity: Input,
    price: Input,
    displayQuantity: Option<string>,
    displayPrice: Option<string>,
    description: Option<string>)

  /** The options hash with no keys at all. */
  const NoOptions := LineItemOptions(Nil, Nil, Nil, None, None, None)

  /** The state `LineItem.new(opts)` builds. A truthy `:predefined_amount`
      (anything but `nil`, blank strings and 0 included) selects the first
      branch, which leaves quantity, price and both display fields unset;
      otherwise quantity defaults to 1 and price to 0. The description
      defaults to the empty string in both branches. */
  function Built(opts: LineItemOptions): (item: LineItemView)
    ensures Priceable(item)
    ensures item.description == GetOr(opts.description, "")
    ensures !opts.predefinedAmount.Nil? <==> item.predefinedAmount.Some?
  {
    var description := GetOr(opts.description, "");
    if !opts.predefinedAmount.Nil? then
      LineItemView(description, None, None, None, None, Some(Normalize(opts.predefinedAmount)))
    else
      LineItemView(description, opts.displayQuantity, opts.displayPrice,
                   Some(Normalize(OrDefault(opts.quantity, 1.0))),
                   Some(Normalize(OrDefault(opts.price, 0.0))), None)
  }

  class LineItem {
    var description: string
    var displayQuantity: Option<string>
    var displayPrice: Option<string>
    var quantity: Option<real>
    var price: Option<real>
    var predefinedAmount: Option<real>

    /** The readable state of this line item. */
    function View(): LineItemView
      reads this
    {
      LineItemView(description, displayQuantity, displayPrice, quantity, price, predefinedAmount)
    }

    /** The class invariant: `amount` never meets a `nil` factor. */
    ghost predicate Valid()
      reads this
    {
      Priceable(View())
    }

    /** `LineItem.new(options)`. */
    constructor (opts: LineItemOptions)
      ensures Valid()
      ensures View() == Built(opts)
    {
      quantity, price, displayQuantity, displayPrice := None, None, None, None;
      predefinedAmount := None;
      if !opts.predefinedAmount.Nil? {
        predefinedAmount := Some(Normalize(opts.predefinedAmount));
      } else {
        quantity := Some(Normalize(OrDefault(opts.quantity, 1.0)));
        displayQuantity := opts.displayQuantity;
        displayPrice := opts.displayPrice;
        price := Some(Normalize(OrDefault(opts.price, 0.0)));
      }
      description := GetOr(opts.description, "");
    }

    /** `quantity=`: blank or `nil` becomes 0; nothing else changes. */
    method SetQuantity(value: Input)
      requires Valid()
      modifies this`quantity
      ensures Valid()
      ensures View() == old(View()).(quantity := Some(Normalize(value)))
    {
      quantity := Some(Normalize(value));
    }

    /** `price=`: blank or `nil` becomes 0; nothing else changes. */
    method SetPrice(value: Input)
      requires Valid()
      modifies this`price
      ensures Valid()
      ensures View() == old(View()).(price := Some(Normalize(value)))
    {
      price := Some(Normalize(value));
    }

    /** `predefined_amount=`: blank or `nil` becomes 0, which is still a set
        predefined amount; nothing else changes. */
    method SetPredefinedAmount(value: Input)
      modifies this`predefinedAmount
      ensures Valid()
      ensures View() == old(View()).(predefinedAmount := Some(Normalize(value)))
      ensures Amount(View()) == Normalize(value)
    {
      predefinedAmount := Some(Normalize(value));
    }
  }

  /** A line item built without a predefined amount has quantity 1, price 0
      and an empty description by default, and so an amount of 0. */
  lemma DefaultLineItem()
    ensures Built(NoOptions).quantity == Some(1.0)
    ensures Built(NoOptions).price == Some(0.0)
    ensures Built(NoOptions).description == ""
    ensures Built(NoOptions).predefinedAmount.None?
    ensures Amount(Built(NoOptions)) == 0.0
  {
  }

  /** With a predefined amount the other numeric and display fields stay
      unset, and the amount is the normalised predefined amount. */
  lemma PredefinedLineItem(opts: LineItemOptions)
    requires !opts.predefinedAmount.Nil?
    ensures Built(opts).quantity.None? && Built(opts).price.None?
    ensures Built(opts).displayQuantity.None? && Built(opts).displayPrice.None?
    ensures Amount(Built(opts)) == Normalize(opts.predefinedAmount)
  {
  }

  /** Without a predefined amount the amount is the product of the
      normalised price (default 0) and quantity (default 1); a blank value
      counts as 0, not as the default. */
  lemma PricedLineItem(opts: LineItemOptions)
    requires opts.predefinedAmount.Nil?
    ensures Amount(Built(opts)) == Normalize(OrDefault(opts.price, 0.0)) * Normalize(OrDefault(opts.quantity, 1.0))
    ensures opts.quantity.Blank? ==> Built(opts).quantity == Some(0.0)
    ensures opts.quantity.Nil? ==> Built(opts).quantity == Some(1.0)
  {
  }

  /** The line-item examples: price 20 is stored as 20, quantity 30 as 30,
      a description as given, price 10 with quantity 12 amounts to 120, and
      a predefined amount of 244 amounts to 244. */
  lemma LineItemExamples()
    ensures Built(NoOptions.(price := Given(20.0))).price == Some(20.0)
    ensures Built(NoOptions.(quantity := Given(30.0))).quantity == Some(30.0)
    ensures Built(NoOptions.(description := Some("12 Pairs of Pants"))).description == "12 Pairs of Pants"
    ensures Amount(Built(NoOptions.(price := Given(10.0), quantity := Given(12.0)))) == 120.0
    ensures Amount(Built(NoOptions.(predefinedAmount := Given(244.0)))) == 244.0
  {
  }
}
