/** `Payday::Invoiceable`: the derived quantities, status predicates and
    detail iteration of an invoice, over a snapshot of its readable members. */
module Invoiceable {
  import opened Values
  import opened LineItemable

  /** `invoice_details`: an array of [key, value] pairs, or a Hash. A Ruby
      Hash iterates in insertion order, kept here as `order`. */
  datatype Details =
    | Pairs(pairs: seq<(string, string)>)
    | Hash(order: seq<string>, entries: map<string, string>)

  /** A Hash lists each of its keys exactly once in its insertion order. */
  predicate DetailsWellFormed(d: Details)
  {
    d.Hash? ==>
      (forall i, j :: 0 <= i < j < |d.order| ==> d.order[i] != d.order[j]) &&
      (forall k :: k in d.entries ==> k in d.order) &&
      (forall i :: 0 <= i < |d.order| ==> d.order[i] in d.entries)
  }

  /** The number of details the collection holds. */
  function DetailCount(d: Details): nat
  {
    match d
    case Pairs(ps) => |ps|
    case Hash(_, m) => |m|
  }

  /** The readable members of an `Invoice` that `Invoiceable` and the
      renderer use. */
  datatype InvoiceView = InvoiceView(
    invoiceNumber: Option<string>,
    billTo: Option<string>,
    shipTo: Option<string>,
    notes: Option<string>,
    items: seq<LineItemView>,
    shippingRate: real,
    shippingDescription: Option<string>,
    taxRate: real,
    taxDescription: Option<string>,
    retentionRate: real,
    retentionDescription: Option<string>,
    dueAt: Option<Moment>,
    paidAt: Option<Moment>,
    refundedAt: Option<Moment>,
    currency: Option<string>,
    invoiceDetails: Details,
    invoiceDate: Option<Moment>,
    qrCode: Option<string>)

  predicate AllPriceable(items: seq<LineItemView>)
  {
    forall k :: 0 <= k < |items| ==> Priceable(items[k])
  }

  /** What every `Invoice` keeps: its line items can be priced and its
      details are a proper collection. */
  predicate WellFormed(inv: InvoiceView)
  {
    AllPriceable(inv.items) && DetailsWellFormed(inv.invoiceDetails)
  }

  /** `line_items.reduce(BigDecimal(0)) { |result, item| result + item.amount }`:
      a left fold from the accumulator `acc`. */
  function FoldAmounts(acc: real, items: seq<LineItemView>): real
    requires AllPriceable(items)
    decreases |items|
  {
    if items == [] then acc else FoldAmounts(acc + Amount(items[0]), items[1..])
  }

  /** `subtotal`. */
  function Subtotal(items: seq<LineItemView>): real
    requires AllPriceable(items)
  {
    FoldAmounts(0.0, items)
  }

  /** The reference definition of the sum of the amounts. */
  function SumOfAmounts(items: seq<LineItemView>): real
    requires AllPriceable(items)
    decreases |items|
  {
    if items == [] then 0.0 else Amount(items[0]) + SumOfAmounts(items[1..])
  }

  /** `tax`: the subtotal times the tax rate, as a percentage; no floor at 0. */
  function Tax(inv: InvoiceView): real
    requires AllPriceable(inv.items)
  {
    Subtotal(inv.items) * inv.taxRate / 100.0
  }

  /** `shipping`: the shipping rate, a flat amount. */
  function Shipping(inv: InvoiceView): real
  {
    inv.shippingRate
  }

  /** `total`: subtotal, tax and shipping; the retention rate is not used. */
  function Total(inv: InvoiceView): real
    requires AllPriceable(inv.items)
  {
    Subtotal(inv.items) + Tax(inv) + Shipping(inv)
  }

  /** `overdue?`: a `Date` due before today or a `Time` due before now,
      and not paid. Any other due value is never overdue. */
  predicate IsOverdue(inv: InvoiceView, clock: Clock)
  {
    var pastDue :=
      match inv.dueAt
      case Some(Date(d)) => d < clock.today
      case Some(Time(t)) => t < clock.now
      case _ => false;
    pastDue && inv.paidAt.None?
  }

  /** `paid?`. */
  predicate IsPaid(inv: InvoiceView)
  {
    inv.paidAt.Some?
  }

  /** `refunded?`. */
  predicate IsRefunded(inv: InvoiceView)
  {
    inv.refundedAt.Some?
  }

  /** The (key, value) pairs `each_detail` yields, in the order it yields them. */
  function EachDetail(d: Details): seq<(string, string)>
    requires DetailsWellFormed(d)
  {
    match d
    case Pairs(ps) => ps
    case Hash(order, m) => seq(|order|, k requires 0 <= k < |order| => (order[k], m[order[k]]))
  }

  // ---------------------------------------------------------------------
  // Subtotal

  /** The left fold from `acc` is `acc` plus the sum of the amounts. */
  lemma {:induction false} FoldIsSum(acc: real, items: seq<LineItemView>)
    requires AllPriceable(items)
    ensures FoldAmounts(acc, items) == acc + SumOfAmounts(items)
    decreases |items|
  {
    if items != [] {
      FoldIsSum(acc + Amount(items[0]), items[1..]);
    }
  }

  /** The sum of a concatenation is the sum of the parts. */
  lemma {:induction false} SumOfAmountsAppend(a: seq<LineItemView>, b: seq<LineItemView>)
    requires AllPriceable(a) && AllPriceable(b)
    ensures AllPriceable(a + b)
    ensures SumOfAmounts(a + b) == SumOfAmounts(a) + SumOfAmounts(b)
    decreases |a|
  {
    if a != [] {
      assert (a + b)[0] == a[0];
      assert (a + b)[1..] == a[1..] + b;
      SumOfAmountsAppend(a[1..], b);
      assert SumOfAmounts(a + b) == Amount(a[0]) + SumOfAmounts(a[1..] + b);
    } else {
      assert a + b == b;
    }
  }

  /** The subtotal is the exact sum of the line items' amounts. */
  lemma SubtotalIsSum(items: seq<LineItemView>)
    requires AllPriceable(items)
    ensures Subtotal(items) == SumOfAmounts(items)
  {
    FoldIsSum(0.0, items);
  }

  /** Appending one item raises the subtotal by exactly its amount. */
  lemma SubtotalAppendOne(items: seq<LineItemView>, x: LineItemView)
    requires AllPriceable(items) && Priceable(x)
    ensures AllPriceable(items + [x])
    ensures Subtotal(items + [x]) == Subtotal(items) + Amount(x)
  {
    SumOfAmountsAppend(items, [x]);
    SubtotalIsSum(items);
    SubtotalIsSum(items + [x]);
    assert SumOfAmounts([x]) == Amount(x);
  }

  /** The subtotal of a concatenation is the sum of the subtotals. */
  lemma SubtotalAppend(a: seq<LineItemView>, b: seq<LineItemView>)
    requires AllPriceable(a) && AllPriceable(b)
    ensures AllPriceable(a + b)
    ensures Subtotal(a + b) == Subtotal(a) + Subtotal(b)
  {
    SumOfAmountsAppend(a, b);
    SubtotalIsSum(a);
    SubtotalIsSum(b);
    SubtotalIsSum(a + b);
  }

  // ---------------------------------------------------------------------
  // Tax, shipping, total

  /** Tax follows the sign of the subtotal: a negative subtotal under a
      positive rate gives negative tax, never a floor at 0. */
  lemma TaxFollowsSubtotalSign(inv: InvoiceView)
    requires WellFormed(inv) && inv.taxRate > 0.0
    ensures Subtotal(inv.items) < 0.0 ==> Tax(inv) < 0.0
    ensures Subtotal(inv.items) > 0.0 ==> Tax(inv) > 0.0
    ensures Subtotal(inv.items) == 0.0 ==> Tax(inv) == 0.0
  {
    var s := Subtotal(inv.items);
    if s < 0.0 {
      assert s * inv.taxRate < 0.0;
    } else if s > 0.0 {
      assert s * inv.taxRate > 0.0;
    }
  }

  /** The total is the subtotal scaled by the tax rate plus the flat
      shipping amount; the retention rate and description play no part. */
  lemma TotalFormula(inv: InvoiceView, retentionRate: real, retentionDescription: Option<string>)
    requires WellFormed(inv)
    ensures Total(inv) == Subtotal(inv.items) * (1.0 + inv.taxRate / 100.0) + inv.shippingRate
    ensures WellFormed(inv.(retentionRate := retentionRate, retentionDescription := retentionDescription))
    ensures Total(inv.(retentionRate := retentionRate, retentionDescription := retentionDescription)) == Total(inv)
  {
  }

  // ---------------------------------------------------------------------
  // Status

  /** A paid invoice is never overdue, whatever its due date. */
  lemma PaidIsNeverOverdue(inv: InvoiceView, clock: Clock)
    requires IsPaid(inv)
    ensures !IsOverdue(inv, clock)
  {
  }

  /** `overdue?` both ways: it holds exactly when the invoice is unpaid and
      its due value is a `Date` before today or a `Time` before now. */
  lemma OverdueExactly(inv: InvoiceView, clock: Clock)
    ensures IsOverdue(inv, clock) <==>
      inv.paidAt.None? && inv.dueAt.Some? &&
      ((inv.dueAt.value.Date? && inv.dueAt.value.day < clock.today) ||
       (inv.dueAt.value.Time? && inv.dueAt.value.instant < clock.now))
  {
  }

  // ---------------------------------------------------------------------
  // Details

  /** A key sequence without repeats has as many elements as its set. */
  lemma {:induction false} DistinctKeysCount(order: seq<string>)
    requires forall i, j :: 0 <= i < j < |order| ==> order[i] != order[j]
    ensures |(set k | k in order)| == |order|
    decreases |order|
  {
    if order != [] {
      var rest := order[1..];
      DistinctKeysCount(rest);
      assert (set k | k in order) == (set k | k in rest) + {order[0]};
      assert order[0] !in (set k | k in rest) by {
        forall j | 0 <= j < |rest| ensures rest[j] != order[0] {
          assert rest[j] == order[j + 1];
        }
      }
    }
  }

  /** `each_detail` yields one pair per detail: the count of yielded pairs is
      the size of the collection, and for a Hash the yielded pairs are
      exactly its entries, each once, in insertion order. */
  lemma EachDetailYieldsEveryDetailOnce(d: Details)
    requires DetailsWellFormed(d)
    ensures |EachDetail(d)| == DetailCount(d)
    ensures d.Pairs? ==> EachDetail(d) == d.pairs
    ensures d.Hash? ==> forall key, value :: (key, value) in EachDetail(d) <==> key in d.entries && d.entries[key] == value
    ensures d.Hash? ==> forall i, j :: 0 <= i < j < |EachDetail(d)| ==> EachDetail(d)[i].0 != EachDetail(d)[j].0
  {
    if d.Hash? {
      DistinctKeysCount(d.order);
      assert (set k | k in d.order) == d.entries.Keys;
      var r := EachDetail(d);
      forall key, value ensures (key, value) in r <==> key in d.entries && d.entries[key] == value {
        if key in d.entries && d.entries[key] == value {
          var k :| 0 <= k < |d.order| && d.order[k] == key;
          assert r[k] == (key, value);
        }
      }
    }
  }

  /** The pair form and the hash form yield the same pairs: a Hash and the
      array of its entries in insertion order are iterated identically. */
  lemma PairsAndHashAgree(order: seq<string>, entries: map<string, string>, pairs: seq<(string, string)>)
    requires DetailsWellFormed(Hash(order, entries))
    requires |pairs| == |order|
    requires forall k :: 0 <= k < |order| ==> pairs[k] == (order[k], entries[order[k]])
    ensures EachDetail(Pairs(pairs)) == EachDetail(Hash(order, entries))
  {
  }

  // ---------------------------------------------------------------------
  // The scenarios of the invoice tests

  function Priced(price: real, quantity: real): LineItemView
  {
    LineItemView("", None, None, Some(quantity), Some(price), None)
  }

  /** An invoice with the given items and tax rate and nothing else set. */
  function Bare(items: seq<LineItemView>, taxRate: real): InvoiceView
  {
    InvoiceView(None, None, None, None, items, 0.0, None, taxRate, None, 0.0, None,
                None, None, None, None, Pairs([]), None, None)
  }

  /** Pants 20 x 5, shirts 10 x 3, hats 5 x 200: subtotal 1130, and at a
      10% tax rate, tax 113 and total 1243. */
  lemma ThreeItemScenario()
    ensures AllPriceable([Priced(20.0, 5.0), Priced(10.0, 3.0), Priced(5.0, 200.0)])
    ensures Subtotal([Priced(20.0, 5.0), Priced(10.0, 3.0), Priced(5.0, 200.0)]) == 1130.0
    ensures Tax(Bare([Priced(20.0, 5.0), Priced(10.0, 3.0), Priced(5.0, 200.0)], 10.0)) == 113.0
    ensures Total(Bare([Priced(20.0, 5.0), Priced(10.0, 3.0), Priced(5.0, 200.0)], 10.0)) == 1243.0
  {
    var items := [Priced(20.0, 5.0), Priced(10.0, 3.0), Priced(5.0, 200.0)];
    assert items[1..] == [Priced(10.0, 3.0), Priced(5.0, 200.0)];
    assert items[1..][1..] == [Priced(5.0, 200.0)];
  }

  /** One item 20 x 5 at 10% gives tax 10; one item -1 x 100 at 10% gives
      subtotal -100 and tax -10. */
  lemma TaxScenarios()
    ensures Tax(Bare([Priced(20.0, 5.0)], 10.0)) == 10.0
    ensures Subtotal([Priced(-1.0, 100.0)]) == -100.0
    ensures Tax(Bare([Priced(-1.0, 100.0)], 10.0)) == -10.0
  {
    assert [Priced(20.0, 5.0)][1..] == [];
    assert [Priced(-1.0, 100.0)][1..] == [];
  }

  /** Due yesterday and unpaid is overdue; paid today it is not; a `Time`
      in the past is overdue. */
  lemma OverdueScenarios(clock: Clock)
    ensures IsOverdue(Bare([], 0.0).(dueAt := Some(Date(clock.today - 1))), clock)
    ensures !IsOverdue(Bare([], 0.0).(dueAt := Some(Date(clock.today - 1)), paidAt := Some(Date(clock.today))), clock)
    ensures IsOverdue(Bare([], 0.0).(dueAt := Some(Time(clock.now - 1))), clock)
  {
  }

  /** Details given as pairs and as a Hash both yield the two details
      ("Test", "Yes") and ("Awesome", "Absolutely"), and nothing else. */
  lemma DetailScenarios()
    ensures EachDetail(Pairs([("Test", "Yes"), ("Awesome", "Absolutely")])) == [("Test", "Yes"), ("Awesome", "Absolutely")]
    ensures DetailsWellFormed(Hash(["Test", "Awesome"], map["Test" := "Yes", "Awesome" := "Absolutely"]))
    ensures EachDetail(Hash(["Test", "Awesome"], map["Test" := "Yes", "Awesome" := "Absolutely"])) ==
      [("Test", "Yes"), ("Awesome", "Absolutely")]
  {
    var d := Hash(["Test", "Awesome"], map["Test" := "Yes", "Awesome" := "Absolutely"]);
    assert forall k :: k in d.entries ==> k in d.order by {
      assert d.entries.Keys == {"Test", "Awesome"};
    }
  }
}
