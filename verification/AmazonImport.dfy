/** Importing an Amazon order: unit prices rounded to the cent, and the other amounts of its items. */
module AmazonImport {
  import opened Options
  import opened Sequences
  import opened OrderLines
  import opened OrderUpdate
  import opened OrderMergeLaws
  import opened OrderBuilder

  /** An order item of the API; amounts are whole cents and 0 when missing, except the item price. */
  datatype Item = Item(
    id: string, title: string, qty: nat, itemPrice: Option<nat>,
    shippingPrice: nat, codFee: nat, giftWrapPrice: nat,
    itemTax: nat, shippingTax: nat, shippingDiscountTax: nat, promotionDiscountTax: nat, giftWrapTax: nat,
    shippingDiscount: nat, promotionDiscount: nat, codFeeDiscount: nat)

  /** The product an item is resolved to; a listing may stand for several units of its product. */
  datatype Resolved = Resolved(product: nat, units: nat)

  // ------------------------------------------------------------------ unit prices

  /** Python's `round(a / q, 2)` for a in cents: to the nearest cent, halves to the even one. */
  function RoundHalfEven(a: nat, q: nat): nat
    requires q > 0
  {
    var down, rest := a / q, a % q;
    if 2 * rest < q then down
    else if 2 * rest > q then down + 1
    else if down % 2 == 0 then down else down + 1
  }

  /** Odoo's `float_round(a / q, 2)`: halves away from zero. */
  function RoundHalfAway(a: nat, q: nat): nat
    requires q > 0
  {
    if 2 * (a % q) < q then a / q else a / q + 1
  }

  lemma {:induction false} RoundHalfEvenError(a: nat, q: nat)
    requires q > 0
    ensures -(q as int) <= 2 * (RoundHalfEven(a, q) * q - a) <= q
  {
    assert a == (a / q) * q + a % q;
    assert (a / q + 1) * q == (a / q) * q + q;
  }

  lemma {:induction false} RoundHalfAwayError(a: nat, q: nat)
    requires q > 0
    ensures -(q as int) <= 2 * (RoundHalfAway(a, q) * q - a) <= q
    ensures q == 1 ==> RoundHalfAway(a, q) == a
  {
    assert a == (a / q) * q + a % q;
    assert (a / q + 1) * q == (a / q) * q + q;
  }

  /** No item price, or a quantity of zero, gives a unit price of 0. */
  function UnitPrice(i: Item): nat {
    if i.itemPrice.None? || i.qty == 0 then 0 else RoundHalfEven(i.itemPrice.value, i.qty)
  }

  /** The order line of an item, after the listing's units are taken into account. */
  function ImportedLine(i: Item, r: Resolved): ProductLine
    requires r.units > 0
  {
    ProductLine(i.id, i.title, r.product, i.qty * r.units, RoundHalfAway(UnitPrice(i), r.units))
  }

  function ImportedLines(items: seq<Item>, rs: seq<Resolved>): seq<ProductLine>
    requires |items| == |rs| && forall k :: 0 <= k < |rs| ==> rs[k].units > 0
  {
    if items == [] then [] else [ImportedLine(items[0], rs[0])] + ImportedLines(items[1..], rs[1..])
  }

  // ------------------------------------------------------------------ the other amounts

  function ItemPriceOf(i: Item): int { if i.itemPrice.Some? then i.itemPrice.value else 0 }
  function ShippingOf(i: Item): int { i.shippingPrice }
  function CodFeeOf(i: Item): int { i.codFee }
  function WrappingOf(i: Item): int { i.giftWrapPrice }
  function TaxesOf(i: Item): int {
    i.itemTax + i.shippingTax + i.shippingDiscountTax + i.promotionDiscountTax + i.giftWrapTax
  }
  function DiscountOf(i: Item): int { i.shippingDiscount + i.promotionDiscount + i.codFeeDiscount }

  /** What the store asks for an item, field by field. */
  function StoreAmountOf(i: Item): int {
    (if i.itemPrice.Some? then i.itemPrice.value else 0) + i.shippingPrice + i.codFee + i.giftWrapPrice
    + i.itemTax + i.shippingTax + i.shippingDiscountTax + i.promotionDiscountTax + i.giftWrapTax
    - i.shippingDiscount - i.promotionDiscount - i.codFeeDiscount
  }

  function TransformedOrder(items: seq<Item>, rs: seq<Resolved>): OrderData
    requires |items| == |rs| && forall k :: 0 <= k < |rs| ==> rs[k].units > 0
  {
    OrderData(SumOf(items, DiscountOf), [], [],
              SumOf(items, ShippingOf), 0, SumOf(items, WrappingOf), SumOf(items, CodFeeOf),
              [NamedAmount("Tax", SumOf(items, TaxesOf))], [],
              ImportedLines(items, rs))
  }

  // ------------------------------------------------------------------ the loops

  lemma {:induction false} ImportStep(items: seq<Item>, rs: seq<Resolved>, k: nat, before: seq<ProductLine>)
    requires |items| == |rs| && k < |rs| && forall j :: 0 <= j < |rs| ==> rs[j].units > 0
    ensures before + ImportedLines(items[k..], rs[k..])
            == (before + [ImportedLine(items[k], rs[k])]) + ImportedLines(items[k + 1..], rs[k + 1..])
  {
    assert items[k..][1..] == items[k + 1..] && rs[k..][1..] == rs[k + 1..];
    Regroup(before, [ImportedLine(items[k], rs[k])], ImportedLines(items[k + 1..], rs[k + 1..]));
  }

  /** `process_order_line_data`, then `_prepare_imported_order_lines` */
  method ProcessOrderLineData(items: seq<Item>, rs: seq<Resolved>) returns (lines: seq<ProductLine>)
    requires |items| == |rs| && forall k :: 0 <= k < |rs| ==> rs[k].units > 0
    ensures lines == ImportedLines(items, rs)
  {
    lines := [];
    assert items[0..] == items && rs[0..] == rs;
    for k := 0 to |items|
      invariant ImportedLines(items, rs) == lines + ImportedLines(items[k..], rs[k..])
    {
      ImportStep(items, rs, k, lines);
      var item, price := items[k], 0;
      if item.itemPrice.Some? && item.qty != 0 {
        price := RoundHalfEven(item.itemPrice.value, item.qty);
      }
      lines := lines + [ProductLine(item.id, item.title, rs[k].product, item.qty * rs[k].units,
                                    RoundHalfAway(price, rs[k].units))];
    }
    assert lines + ImportedLines(items[|items|..], rs[|rs|..]) == lines;
  }

  /** `process_other_lines` */
  method ProcessOtherLines(items: seq<Item>)
    returns (discount: int, shipping: int, otherFees: int, wrapping: int, taxes: seq<NamedAmount>)
    ensures discount == SumOf(items, DiscountOf) && shipping == SumOf(items, ShippingOf)
    ensures otherFees == SumOf(items, CodFeeOf) && wrapping == SumOf(items, WrappingOf)
    ensures taxes == [NamedAmount("Tax", SumOf(items, TaxesOf))]
  {
    discount, shipping, otherFees, wrapping := 0, 0, 0, 0;
    var tax := 0;
    for k := 0 to |items|
      invariant discount == SumOf(items[..k], DiscountOf) && shipping == SumOf(items[..k], ShippingOf)
      invariant otherFees == SumOf(items[..k], CodFeeOf) && wrapping == SumOf(items[..k], WrappingOf)
      invariant tax == SumOf(items[..k], TaxesOf)
    {
      var i := items[k];
      assert items[..k + 1] == items[..k] + [i];
      SumOfSnoc(items[..k], i, DiscountOf);
      SumOfSnoc(items[..k], i, ShippingOf);
      SumOfSnoc(items[..k], i, CodFeeOf);
      SumOfSnoc(items[..k], i, WrappingOf);
      SumOfSnoc(items[..k], i, TaxesOf);
      discount := discount + i.shippingDiscount + i.promotionDiscount + i.codFeeDiscount;
      shipping := shipping + i.shippingPrice;
      otherFees := otherFees + i.codFee;
      tax := tax + i.itemTax + i.shippingTax + i.shippingDiscountTax + i.promotionDiscountTax + i.giftWrapTax;
      wrapping := wrapping + i.giftWrapPrice;
    }
    assert items[..|items|] == items;
    taxes := [NamedAmount("Tax", tax)];
  }

  // ------------------------------------------------------------------ the rounding error

  /** Twice the most cents an item's unit price can be off, times the quantity: half a cent for
      each unit ordered, and half a cent more for each unit a listing of several stands for. A price
      on a quantity of zero is lost altogether. */
  function ErrorBoundOf(i: Item, r: Resolved): int {
    if i.qty == 0 then 2 * ItemPriceOf(i)
    else i.qty + if r.units == 1 then 0 else i.qty * r.units
  }

  function ErrorBound(items: seq<Item>, rs: seq<Resolved>): int
    requires |items| == |rs|
  {
    if items == [] then 0 else ErrorBoundOf(items[0], rs[0]) + ErrorBound(items[1..], rs[1..])
  }

  /** One line is off by at most its bound, through both roundings. */
  lemma {:induction false} LineError(i: Item, r: Resolved)
    requires r.units > 0
    ensures -ErrorBoundOf(i, r) <= 2 * (LineAmount(ImportedLine(i, r)) - ItemPriceOf(i)) <= ErrorBoundOf(i, r)
  {
    var price: int, q: int, u: int, a := UnitPrice(i), i.qty, r.units, ItemPriceOf(i);
    var last: int := RoundHalfAway(price, u);
    RoundHalfAwayError(price, u);
    if q == 0 {
      assert (q * u) * last == 0;
    } else {
      if i.itemPrice.Some? {
        RoundHalfEvenError(i.itemPrice.value, q);
      }
      assert -q <= 2 * (price * q - a) <= q;
      ScaledError(last * u - price, u, q);
      if u == 1 {
        assert q * (last * u - price) == 0;
      }
      TwoRoundings(q, u, last, price, a);
    }
  }

  lemma {:induction false} TwoRoundings(q: int, u: int, last: int, price: int, a: int)
    ensures (q * u) * last - a == q * (last * u - price) + (price * q - a)
  {
    assert (q * u) * last == q * (last * u);
    assert q * (last * u - price) == q * (last * u) - q * price;
  }

  lemma {:induction false} ScaledError(e: int, u: int, q: int)
    requires -u <= 2 * e <= u && q >= 0
    ensures -(q * u) <= 2 * (q * e) <= q * u
  {
    MulMonotone(q, 2 * e, u);
    MulMonotone(q, -u, 2 * e);
    assert q * (2 * e) == 2 * (q * e) && q * -u == -(q * u);
  }

  lemma {:induction false} MulMonotone(q: int, x: int, y: int)
    requires x <= y && q >= 0
    ensures q * x <= q * y
  {
  }

  /** The lines together are off by at most the bound. */
  lemma {:induction false} LinesError(items: seq<Item>, rs: seq<Resolved>)
    requires |items| == |rs| && forall k :: 0 <= k < |rs| ==> rs[k].units > 0
    ensures -ErrorBound(items, rs)
            <= 2 * (SumOf(ImportedLines(items, rs), LineAmount) - SumOf(items, ItemPriceOf))
            <= ErrorBound(items, rs)
  {
    if items != [] {
      LinesError(items[1..], rs[1..]);
      LineError(items[0], rs[0]);
    }
  }

  lemma {:induction false} StoreAmountSplit(items: seq<Item>)
    ensures SumOf(items, StoreAmountOf) ==
            SumOf(items, ItemPriceOf) + SumOf(items, ShippingOf) + SumOf(items, CodFeeOf)
            + SumOf(items, WrappingOf) + SumOf(items, TaxesOf) - SumOf(items, DiscountOf)
    ensures SumOf(items, ShippingOf) >= 0 && SumOf(items, CodFeeOf) >= 0 && SumOf(items, WrappingOf) >= 0
    ensures SumOf(items, TaxesOf) >= 0 && SumOf(items, DiscountOf) >= 0
  {
    if items != [] {
      StoreAmountSplit(items[1..]);
    }
  }

  /** The two amounts of the order in which several fields of its items meet. */
  lemma {:induction false} FieldsMeet(items: seq<Item>)
    ensures SumOf(items, TaxesOf) ==
            SumOf(items, (i: Item) => i.itemTax as int) + SumOf(items, (i: Item) => i.shippingTax as int)
            + SumOf(items, (i: Item) => i.shippingDiscountTax as int)
            + SumOf(items, (i: Item) => i.promotionDiscountTax as int) + SumOf(items, (i: Item) => i.giftWrapTax as int)
    ensures SumOf(items, DiscountOf) ==
            SumOf(items, (i: Item) => i.shippingDiscount as int) + SumOf(items, (i: Item) => i.promotionDiscount as int)
            + SumOf(items, (i: Item) => i.codFeeDiscount as int)
  {
    if items != [] {
      FieldsMeet(items[1..]);
    }
  }

  /** What the importer hands on: the tax and the discount are the sums of five and of three fields over the
      items, shipping, other fees and wrapping of one each. */
  lemma {:induction false} OtherAmounts(items: seq<Item>, rs: seq<Resolved>)
    requires |items| == |rs| && forall k :: 0 <= k < |rs| ==> rs[k].units > 0
    ensures var data := TransformedOrder(items, rs);
            && data.taxes ==
               [NamedAmount("Tax", SumOf(items, (i: Item) => i.itemTax as int) + SumOf(items, (i: Item) => i.shippingTax as int)
                                   + SumOf(items, (i: Item) => i.shippingDiscountTax as int)
                                   + SumOf(items, (i: Item) => i.promotionDiscountTax as int)
                                   + SumOf(items, (i: Item) => i.giftWrapTax as int))]
            && data.discount ==
               SumOf(items, (i: Item) => i.shippingDiscount as int) + SumOf(items, (i: Item) => i.promotionDiscount as int)
               + SumOf(items, (i: Item) => i.codFeeDiscount as int)
            && data.shipping == SumOf(items, (i: Item) => i.shippingPrice as int)
            && data.wrapping == SumOf(items, (i: Item) => i.giftWrapPrice as int)
            && data.otherFees == SumOf(items, (i: Item) => i.codFee as int)
            && data.handling == 0 && data.coupons == []
  {
    FieldsMeet(items);
    SumOfSame(items, ShippingOf, (i: Item) => i.shippingPrice as int);
    SumOfSame(items, WrappingOf, (i: Item) => i.giftWrapPrice as int);
    SumOfSame(items, CodFeeOf, (i: Item) => i.codFee as int);
  }

  /** The imported total is off by exactly what the unit prices are off: every other amount of every
      item arrives to the cent. */
  lemma {:induction false} OnlyUnitPricesRound(o: Order, items: seq<Item>, rs: seq<Resolved>, def: Defaults)
    requires |items| == |rs| && forall k :: 0 <= k < |rs| ==> rs[k].units > 0
    ensures AmountTotal(Replaced(o, BuiltLines(TransformedOrder(items, rs), def)).lines) - SumOf(items, StoreAmountOf)
            == SumOf(ImportedLines(items, rs), LineAmount) - SumOf(items, ItemPriceOf)
  {
    var data := TransformedOrder(items, rs);
    CreatedOrderTotal(o, data, def);
    StoreAmountSplit(items);
    assert data.taxes[1..] == [] && SumOf(data.taxes[1..], PositiveAmountOf) == 0;
    assert SumOf(data.coupons, AmountOf) == 0;
  }

  /** The whole import: the total differs from the store's by at most half a cent for each unit. */
  method ImportOrder(items: seq<Item>, rs: seq<Resolved>, def: Defaults) returns (order: SaleOrder)
    requires |items| == |rs| && forall k :: 0 <= k < |rs| ==> rs[k].units > 0
    ensures fresh(order) && !order.confirmed
    ensures order.Content() == Replaced(Order([], 0), BuiltLines(TransformedOrder(items, rs), def))
    ensures order.amountTotal == AmountTotal(order.lines)
    ensures -ErrorBound(items, rs) <= 2 * (order.amountTotal - SumOf(items, StoreAmountOf)) <= ErrorBound(items, rs)
  {
    var lines := ProcessOrderLineData(items, rs);
    var discount, shipping, otherFees, wrapping, taxes := ProcessOtherLines(items);
    var data := OrderData(discount, [], [], shipping, 0, wrapping, otherFees, taxes, [], lines);
    var vals := PrepareOrderData(data, def);
    order := new SaleOrder([], 0, false);
    var ok := order.UpdateInQueueJob(vals);
    OnlyUnitPricesRound(Order([], 0), items, rs, def);
    LinesError(items, rs);
  }

  lemma {:induction false} ErrorBoundOfPlainOrder(items: seq<Item>, rs: seq<Resolved>)
    requires |items| == |rs| && forall k :: 0 <= k < |rs| ==> rs[k].units == 1 && items[k].qty > 0
    ensures ErrorBound(items, rs) == SumOf(items, QuantityOf)
  {
    if items != [] {
      ErrorBoundOfPlainOrder(items[1..], rs[1..]);
    }
  }

  function QuantityOf(i: Item): int { i.qty }

  /** For positive quantities and listings of one unit, the bound is half a cent times the total
      quantity. */
  lemma {:induction false} ImportedTotalError(items: seq<Item>, rs: seq<Resolved>, def: Defaults)
    requires |items| == |rs| && forall k :: 0 <= k < |rs| ==> rs[k].units == 1 && items[k].qty > 0
    ensures var total := AmountTotal(Replaced(Order([], 0), BuiltLines(TransformedOrder(items, rs), def)).lines);
            -SumOf(items, QuantityOf) <= 2 * (total - SumOf(items, StoreAmountOf)) <= SumOf(items, QuantityOf)
  {
    OnlyUnitPricesRound(Order([], 0), items, rs, def);
    LinesError(items, rs);
    ErrorBoundOfPlainOrder(items, rs);
  }

  /** The bound is met: k cents for 2k units are rounded to a unit price of zero. */
  lemma {:induction false} ErrorBoundIsMet(k: nat, r: Resolved)
    requires k > 0 && r.units == 1
    ensures var i := Item("", "", 2 * k, Some(k), 0, 0, 0, 0, 0, 0, 0, 0, 0, 0, 0);
            2 * (ItemPriceOf(i) - LineAmount(ImportedLine(i, r))) == ErrorBoundOf(i, r) == i.qty
  {
    assert k / (2 * k) == 0 && k % (2 * k) == k;
  }
}
