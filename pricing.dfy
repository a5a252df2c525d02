/** Order pricing on the checkout page: the wholesale price of the selected
    product line, the line items of the cart (priced through `msrp`, an
    external pricing rule taken here as a parameter), and the subtotal, tax,
    shipping and total. Prices are exact reals. */
module Pricing {
  import opened Common
  import Helcim

  datatype ProductLine = Standard | Usa

  /** A record of the product-line table; the wholesale example may be absent. */
  datatype LineRecord = LineRecord(id: string, wholesaleExample: Option<real>)

  /** A catalog record; only the id and the standard markup take part in pricing. */
  datatype Monument = Monument(id: string, slug: string, title: string, markupStd: real)

  /** A cart entry, with the display fields the cart keeps beside the id. */
  datatype CartItem = CartItem(id: string, title: string, slug: string, image: string, quantity: int)

  /** A cart entry joined with its catalog record and priced. */
  datatype LineItem = LineItem(item: CartItem, unitPrice: real, totalPrice: real, monument: Monument)

  datatype Totals = Totals(subtotal: real, tax: real, shipping: real, total: real)

  /** Sales tax, a single fixed rate of 8.75 percent. */
  const TaxRate: real := 0.0875

  function LineId(line: ProductLine): string {
    match line
    case Standard => "standard"
    case Usa => "usa"
  }

  /** Wholesale price used when the line table gives none: 18 for the
      standard line, 28 for the USA-made line. */
  function FallbackWholesale(line: ProductLine): real {
    match line
    case Standard => 18.0
    case Usa => 28.0
  }

  /** `lines.find((l) => l.id === id)` */
  function FindLine(lines: seq<LineRecord>, id: string): (r: Option<LineRecord>)
    ensures r.Some? ==> r.value in lines && r.value.id == id
    ensures r.None? <==> forall l :: l in lines ==> l.id != id
    ensures r.Some? ==> exists k :: 0 <= k < |lines| && lines[k] == r.value &&
                          forall j :: 0 <= j < k ==> lines[j].id != id
  {
    if lines == [] then None
    else if lines[0].id == id then Some(lines[0])
    else FindLine(lines[1..], id)
  }

  /** `monuments.find((m) => m.id === id)` */
  function FindMonument(monuments: seq<Monument>, id: string): (r: Option<Monument>)
    ensures r.Some? ==> r.value in monuments && r.value.id == id
    ensures r.None? <==> forall m :: m in monuments ==> m.id != id
    ensures r.Some? ==> exists k :: 0 <= k < |monuments| && monuments[k] == r.value &&
                          forall j :: 0 <= j < k ==> monuments[j].id != id
  {
    if monuments == [] then None
    else if monuments[0].id == id then Some(monuments[0])
    else FindMonument(monuments[1..], id)
  }

  /** `line?.wholesaleExample || fallback` for the selected line. */
  function WholesalePrice(lines: seq<LineRecord>, line: ProductLine): (r: real)
    ensures r != 0.0
    ensures r == FallbackWholesale(line) ||
            exists l :: l in lines && l.id == LineId(line) && l.wholesaleExample == Some(r)
    ensures (forall l :: l in lines ==> l.id != LineId(line)) ==> r == FallbackWholesale(line)
    ensures forall l :: FindLine(lines, LineId(line)) == Some(l) ==>
              (l.wholesaleExample.Some? && l.wholesaleExample.value != 0.0 ==> r == l.wholesaleExample.value)
    ensures r != FallbackWholesale(line) ==>
              var found := FindLine(lines, LineId(line));
              found.Some? && found.value.wholesaleExample == Some(r)
  {
    match FindLine(lines, LineId(line))
    case Some(l) =>
      if l.wholesaleExample.Some? && l.wholesaleExample.value != 0.0
      then l.wholesaleExample.value
      else FallbackWholesale(line)
    case None => FallbackWholesale(line)
  }

  /** A line item built as the page builds it, from the first catalog record
      with the item's id. */
  ghost predicate PricedFrom(li: LineItem, monuments: seq<Monument>, wholesale: real, msrp: (real, real) -> real) {
    && FindMonument(monuments, li.item.id) == Some(li.monument)
    && li.unitPrice == msrp(wholesale, li.monument.markupStd)
    && TotalIsUnitTimesQuantity(li)
  }

  /** `totalPrice: price * item.quantity` */
  ghost predicate TotalIsUnitTimesQuantity(li: LineItem) {
    li.totalPrice == li.unitPrice * li.item.quantity as real
  }

  ghost predicate HasEntry(monuments: seq<Monument>, id: string) {
    exists m :: m in monuments && m.id == id
  }

  /** The callback of `items.map`: the priced line item, or `null` (here
      `None`) when the catalog has no record with the item's id. */
  function PriceItem(item: CartItem, monuments: seq<Monument>, wholesale: real,
                     msrp: (real, real) -> real): (r: Option<LineItem>)
    ensures r.None? <==> !HasEntry(monuments, item.id)
    ensures r.Some? ==> r.value.item == item && PricedFrom(r.value, monuments, wholesale, msrp)
  {
    match FindMonument(monuments, item.id)
    case None => None
    case Some(m) =>
      var price := msrp(wholesale, m.markupStd);
      Some(LineItem(item, price, price * item.quantity as real, m))
  }

  /** What `.filter(Boolean)` keeps of one mapped entry. */
  function Kept(o: Option<LineItem>): (r: seq<LineItem>)
    ensures |r| <= 1
    ensures forall li :: li in r <==> o == Some(li)
  {
    if o.Some? then [o.value] else []
  }

  /** `items.map(...).filter(Boolean)`: every cart entry with a catalog record
      becomes a priced line item, in order; the others are dropped. */
  function LineItems(items: seq<CartItem>, monuments: seq<Monument>, wholesale: real,
                     msrp: (real, real) -> real): (r: seq<LineItem>)
    ensures |r| <= |items|
    ensures forall k :: 0 <= k < |r| ==> PricedFrom(r[k], monuments, wholesale, msrp)
    decreases |items|
  {
    if items == [] then []
    else Kept(PriceItem(items[0], monuments, wholesale, msrp)) + LineItems(items[1..], monuments, wholesale, msrp)
  }

  /** The cart entries the line items were built from, in order. */
  function SourceItems(lineItems: seq<LineItem>): (r: seq<CartItem>)
    ensures |r| == |lineItems|
    ensures forall k :: 0 <= k < |r| ==> r[k] == lineItems[k].item
  {
    seq(|lineItems|, k requires 0 <= k < |lineItems| => lineItems[k].item)
  }

  /** Exactly the cart entries that have a catalog record are kept: the
      others are dropped without error, and nothing is invented. */
  lemma {:induction false} LineItemsKeepCatalogued(items: seq<CartItem>, monuments: seq<Monument>,
                                                   wholesale: real, msrp: (real, real) -> real)
    ensures var kept := SourceItems(LineItems(items, monuments, wholesale, msrp));
      forall it :: it in kept <==> it in items && HasEntry(monuments, it.id)
    decreases |items|
  {
    if items != [] {
      var head := Kept(PriceItem(items[0], monuments, wholesale, msrp));
      var rest := LineItems(items[1..], monuments, wholesale, msrp);
      var keptHead := if HasEntry(monuments, items[0].id) then [items[0]] else [];
      assert SourceItems(head) == keptHead;
      SourceItemsAppend(head, rest);
      LineItemsKeepCatalogued(items[1..], monuments, wholesale, msrp);
      forall it
        ensures it in SourceItems(head + rest) <==> it in items && HasEntry(monuments, it.id)
      {
        assert it in items <==> it == items[0] || it in items[1..] by {
          assert items == [items[0]] + items[1..];
        }
      }
    }
  }

  lemma SourceItemsAppend(a: seq<LineItem>, b: seq<LineItem>)
    ensures SourceItems(a + b) == SourceItems(a) + SourceItems(b)
  {
  }

  /** The reference definition: the sum of the line totals. */
  function SumOfTotals(lineItems: seq<LineItem>): real
    decreases |lineItems|
  {
    if lineItems == [] then 0.0 else lineItems[0].totalPrice + SumOfTotals(lineItems[1..])
  }

  /** `lineItems.reduce((sum, item) => sum + item.totalPrice, acc)`: the
      accumulator plus the sum of the line totals. */
  function SubtotalFrom(acc: real, lineItems: seq<LineItem>): (r: real)
    ensures r == acc + SumOfTotals(lineItems)
    decreases |lineItems|
  {
    if lineItems == [] then acc else SubtotalFrom(acc + lineItems[0].totalPrice, lineItems[1..])
  }

  /** The page's subtotal: the fold above started at 0. */
  function Subtotal(lineItems: seq<LineItem>): (r: real)
    ensures r == SumOfTotals(lineItems)
    ensures lineItems == [] ==> r == 0.0
  {
    SubtotalFrom(0.0, lineItems)
  }

  /** The line items as the quantity/price pairs the payment library's
      cart-total helper takes. */
  function AsPriced(lineItems: seq<LineItem>): (r: seq<Helcim.PricedItem>)
    ensures |r| == |lineItems|
    ensures forall k :: 0 <= k < |r| ==>
              r[k] == Helcim.PricedItem(lineItems[k].item.quantity as real, lineItems[k].unitPrice)
  {
    seq(|lineItems|, k requires 0 <= k < |lineItems| =>
      Helcim.PricedItem(lineItems[k].item.quantity as real, lineItems[k].unitPrice))
  }

  /** Subtotal, 8.75 percent tax, free shipping, and their sum. */
  function OrderTotals(lineItems: seq<LineItem>): (t: Totals)
    ensures t.subtotal == SumOfTotals(lineItems)
    ensures t.tax == t.subtotal * TaxRate && t.shipping == 0.0
    ensures t.total == t.subtotal + t.tax + t.shipping
    ensures t.total == t.subtotal * (1.0 + TaxRate)
  {
    var subtotal := Subtotal(lineItems);
    var tax := subtotal * TaxRate;
    var shipping := 0.0;
    Totals(subtotal, tax, shipping, subtotal + tax + shipping)
  }

  // ---------------------------------------------------------------------
  // Lemmas

  /** Summing the line totals is summing quantity times unit price, when
      every total is unit price times quantity. */
  lemma {:induction false} SumOfTotalsIsSum(lineItems: seq<LineItem>)
    requires forall k :: 0 <= k < |lineItems| ==> TotalIsUnitTimesQuantity(lineItems[k])
    ensures SumOfTotals(lineItems) == Helcim.Sum(AsPriced(lineItems))
    decreases |lineItems|
  {
    if lineItems != [] {
      var p := AsPriced(lineItems);
      var first := lineItems[0];
      assert p[1..] == AsPriced(lineItems[1..]);
      assert first.totalPrice == Helcim.Amount(p[0]) by {
        assert TotalIsUnitTimesQuantity(first);
        assert p[0] == Helcim.PricedItem(first.item.quantity as real, first.unitPrice);
      }
      SumOfTotalsIsSum(lineItems[1..]);
    }
  }

  /** The page's subtotal is the payment library's cart total over the kept
      items: the sum of quantity times unit price. */
  lemma SubtotalIsCartTotal(items: seq<CartItem>, monuments: seq<Monument>, wholesale: real,
                            msrp: (real, real) -> real)
    ensures var li := LineItems(items, monuments, wholesale, msrp);
      Subtotal(li) == Helcim.CalculateCartTotal(AsPriced(li)) == Helcim.Sum(AsPriced(li))
  {
    var li := LineItems(items, monuments, wholesale, msrp);
    assert forall k :: 0 <= k < |li| ==> TotalIsUnitTimesQuantity(li[k]) by {
      forall k | 0 <= k < |li| ensures TotalIsUnitTimesQuantity(li[k]) {
        assert PricedFrom(li[k], monuments, wholesale, msrp);
      }
    }
    SumOfTotalsIsSum(li);
    Helcim.CartTotalIsSum(AsPriced(li));
  }

  /** Pricing a cart in two parts gives the two parts' line items in order. */
  lemma {:induction false} LineItemsAppend(a: seq<CartItem>, b: seq<CartItem>, monuments: seq<Monument>,
                                           wholesale: real, msrp: (real, real) -> real)
    ensures LineItems(a + b, monuments, wholesale, msrp) ==
            LineItems(a, monuments, wholesale, msrp) + LineItems(b, monuments, wholesale, msrp)
    decreases |a|
  {
    if a == [] {
      assert a + b == b;
    } else {
      var ab := a + b;
      assert ab[0] == a[0] && ab[1..] == a[1..] + b;
      LineItemsAppend(a[1..], b, monuments, wholesale, msrp);
      var head := Kept(PriceItem(a[0], monuments, wholesale, msrp));
      assert LineItems(ab, monuments, wholesale, msrp) == head + LineItems(a[1..] + b, monuments, wholesale, msrp);
    }
  }

  /** The subtotal of two lists of line items joined is the sum of their
      subtotals. */
  lemma {:induction false} SubtotalAppend(a: seq<LineItem>, b: seq<LineItem>)
    ensures Subtotal(a + b) == Subtotal(a) + Subtotal(b)
  {
    SumOfTotalsAppend(a, b);
  }

  lemma {:induction false} SumOfTotalsAppend(a: seq<LineItem>, b: seq<LineItem>)
    ensures SumOfTotals(a + b) == SumOfTotals(a) + SumOfTotals(b)
    decreases |a|
  {
    if a == [] {
      assert a + b == b;
    } else {
      assert (a + b)[1..] == a[1..] + b;
      SumOfTotalsAppend(a[1..], b);
    }
  }

  /** A cart entry without a catalog record contributes nothing: inserting
      one anywhere in the cart leaves the line items, and so every total,
      unchanged. */
  lemma UnknownItemIgnored(before: seq<CartItem>, extra: CartItem, after: seq<CartItem>,
                           monuments: seq<Monument>, wholesale: real, msrp: (real, real) -> real)
    requires !HasEntry(monuments, extra.id)
    ensures LineItems(before + [extra] + after, monuments, wholesale, msrp) ==
            LineItems(before + after, monuments, wholesale, msrp)
    ensures OrderTotals(LineItems(before + [extra] + after, monuments, wholesale, msrp)) ==
            OrderTotals(LineItems(before + after, monuments, wholesale, msrp))
  {
    UnknownItemDropped(before, extra, after, monuments, wholesale, msrp);
  }

  lemma UnknownItemDropped(before: seq<CartItem>, extra: CartItem, after: seq<CartItem>,
                           monuments: seq<Monument>, wholesale: real, msrp: (real, real) -> real)
    requires !HasEntry(monuments, extra.id)
    ensures LineItems(before + [extra] + after, monuments, wholesale, msrp) ==
            LineItems(before + after, monuments, wholesale, msrp)
  {
    UnknownItemPricesNothing(extra, monuments, wholesale, msrp);
    LineItemsAppend(before + [extra], after, monuments, wholesale, msrp);
    LineItemsAppend(before, [extra], monuments, wholesale, msrp);
    LineItemsAppend(before, after, monuments, wholesale, msrp);
    DropEmptyMiddle(LineItems(before + [extra] + after, monuments, wholesale, msrp),
                    LineItems(before + [extra], monuments, wholesale, msrp),
                    LineItems(before, monuments, wholesale, msrp),
                    LineItems([extra], monuments, wholesale, msrp),
                    LineItems(after, monuments, wholesale, msrp),
                    LineItems(before + after, monuments, wholesale, msrp));
  }

  /** Sequence bookkeeping for `UnknownItemDropped`. */
  lemma DropEmptyMiddle(whole: seq<LineItem>, front: seq<LineItem>, first: seq<LineItem>,
                        middle: seq<LineItem>, back: seq<LineItem>, joined: seq<LineItem>)
    requires whole == front + back && front == first + middle && middle == []
    requires joined == first + back
    ensures whole == joined
  {
    assert first + [] == first;
  }

  lemma UnknownItemPricesNothing(extra: CartItem, monuments: seq<Monument>, wholesale: real,
                                 msrp: (real, real) -> real)
    requires !HasEntry(monuments, extra.id)
    ensures LineItems([extra], monuments, wholesale, msrp) == []
  {
    assert FindMonument(monuments, extra.id).None?;
    assert [extra][1..] == [];
  }

  /** With non-negative prices and quantities the order total is at least
      the subtotal, and the tax is exactly the rate times the subtotal. */
  lemma TotalCoversSubtotal(items: seq<CartItem>, monuments: seq<Monument>, wholesale: real,
                            msrp: (real, real) -> real)
    requires forall it :: it in items ==> it.quantity >= 0
    requires forall m :: m in monuments ==> msrp(wholesale, m.markupStd) >= 0.0
    ensures var t := OrderTotals(LineItems(items, monuments, wholesale, msrp));
      t.subtotal >= 0.0 && t.total >= t.subtotal && t.tax == t.subtotal * TaxRate
  {
    var li := LineItems(items, monuments, wholesale, msrp);
    SubtotalIsCartTotal(items, monuments, wholesale, msrp);
    var p := AsPriced(li);
    LineItemsKeepCatalogued(items, monuments, wholesale, msrp);
    forall i | 0 <= i < |p| ensures p[i].quantity >= 0.0 && p[i].price >= 0.0 {
      assert SourceItems(li)[i] == li[i].item;
      assert li[i].item in items;
      assert PricedFrom(li[i], monuments, wholesale, msrp);
      assert li[i].monument in monuments;
    }
    Helcim.CartTotalNonNegative(p);
  }
}
