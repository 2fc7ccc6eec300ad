/** From store data to order lines: discounts, coupons, fees and taxes become lines with a default
    product of the channel. Amounts are whole cents. */
module OrderBuilder {
  import opened Options
  import opened Sequences
  import opened OrderLines
  import opened OrderUpdate
  import opened OrderMergeLaws

  /** The default products of a channel. */
  datatype Defaults = Defaults(discount: nat, shipping: nat, handling: nat, wrapping: nat, otherFees: nat, tax: nat)

  datatype NamedAmount = NamedAmount(name: string, amount: int)

  datatype ProductLine = ProductLine(storeId: string, name: string, product: nat, qty: int, price: int)

  datatype OrderData = OrderData(
    discount: int, discountNotes: seq<string>, coupons: seq<NamedAmount>,
    shipping: int, handling: int, wrapping: int, otherFees: int,
    taxes: seq<NamedAmount>, taxNotes: seq<string>,
    lines: seq<ProductLine>)

  function Money(cents: int): real {
    cents as real / 100.0
  }

  lemma {:induction false} SubtotalOfCents(cents: int, qty: int)
    ensures Subtotal(Money(cents), qty as real) == cents * qty
  {
    var x := cents * qty;
    assert 100.0 * (Money(cents) * (qty as real)) == x as real;
    assert (x as real + 0.5).Floor == x && (0.5 - x as real).Floor == -x;
  }

  // ------------------------------------------------------------------ the lines

  function Section(name: string): Vals {
    Vals(None, "", name, None, None, map[])
  }

  function JoinNotes(notes: seq<string>): string {
    if notes == [] then "" else if |notes| == 1 then notes[0] else notes[0] + "\n" + JoinNotes(notes[1..])
  }

  function DiscountLine(product: nat, cents: int): Vals {
    Vals(Some(product), "", "Discounts", None, Some(Money(-cents)), map[Discount := true])
  }

  function CouponLine(product: nat, c: NamedAmount): Vals {
    Vals(Some(product), "", c.name, None, Some(Money(-c.amount)), map[Coupon := true])
  }

  function FeeLine(product: nat, name: string, flag: Flag, cents: int): Vals {
    Vals(Some(product), "", name, Some(1.0), Some(Money(cents)),
         map[Delivery := false, Handling := false, Wrapping := false, OtherFees := false][flag := true])
  }

  function TaxLine(product: nat, t: NamedAmount): Vals {
    Vals(Some(product), "", t.name, Some(1.0), Some(Money(t.amount)), map[Tax := true])
  }

  function StoreLine(l: ProductLine): Vals {
    Vals(Some(l.product), l.storeId, l.name, Some(l.qty as real), Some(Money(l.price)), map[])
  }

  function CouponLines(product: nat, cs: seq<NamedAmount>): seq<Vals> {
    if cs == [] then [] else [CouponLine(product, cs[0])] + CouponLines(product, cs[1..])
  }

  function DiscountLines(data: OrderData, def: Defaults): seq<Vals> {
    (if data.discount > 0 || data.coupons != [] then [Section("Discounts")] else [])
    + (if data.discount > 0 then
         [DiscountLine(def.discount, data.discount)]
         + (if data.discountNotes != [] then [Section(JoinNotes(data.discountNotes))] else [])
       else [])
    + CouponLines(def.discount, data.coupons)
  }

  /** The four fees in the order they are looked at: product, title, flag and amount. */
  function FeeKeys(data: OrderData, def: Defaults): seq<(nat, string, Flag, int)> {
    [(def.shipping, "Shipping Cost", Delivery, data.shipping),
     (def.handling, "Handling Cost", Handling, data.handling),
     (def.wrapping, "Wrapping Cost", Wrapping, data.wrapping),
     (def.otherFees, "Other Fees Cost", OtherFees, data.otherFees)]
  }

  function PositiveFee(key: (nat, string, Flag, int)): seq<Vals> {
    if key.3 > 0 then [FeeLine(key.0, key.1, key.2, key.3)] else []
  }

  function PositiveFees(keys: seq<(nat, string, Flag, int)>): seq<Vals> {
    if keys == [] then [] else PositiveFee(keys[0]) + PositiveFees(keys[1..])
  }

  function FeeLines(data: OrderData, def: Defaults): seq<Vals> {
    var fees := PositiveFees(FeeKeys(data, def));
    if fees != [] then fees + [Section("Other Fees")] else []
  }

  function PositiveTax(product: nat, t: NamedAmount): seq<Vals> {
    if t.amount > 0 then [TaxLine(product, t)] else []
  }

  function PositiveTaxes(product: nat, ts: seq<NamedAmount>): seq<Vals> {
    if ts == [] then [] else PositiveTax(product, ts[0]) + PositiveTaxes(product, ts[1..])
  }

  function TaxLines(data: OrderData, def: Defaults): seq<Vals> {
    if data.taxes == [] then []
    else
      var vals := PositiveTaxes(def.tax, data.taxes);
      (if vals != [] then [Section("Taxes")] + vals else [])
      + (if data.taxNotes != [] then [Section(JoinNotes(data.taxNotes))] else [])
  }

  function StoreLines(ls: seq<ProductLine>): seq<Vals> {
    if ls == [] then [] else [StoreLine(ls[0])] + StoreLines(ls[1..])
  }

  function BuiltLines(data: OrderData, def: Defaults): seq<Vals> {
    DiscountLines(data, def) + FeeLines(data, def) + TaxLines(data, def) + StoreLines(data.lines)
  }

  // ------------------------------------------------------------------ the loops

  /** `_process_discount_lines` */
  method ProcessDiscountLines(data: OrderData, def: Defaults) returns (lines: seq<Vals>)
    ensures lines == DiscountLines(data, def)
  {
    lines := [];
    var hasDiscount := data.discount > 0;
    if hasDiscount || data.coupons != [] {
      lines := lines + [Section("Discounts")];
    }
    if hasDiscount {
      lines := lines + [DiscountLine(def.discount, data.discount)];
      if data.discountNotes != [] {
        lines := lines + [Section(JoinNotes(data.discountNotes))];
      }
    }
    ghost var head := lines;
    assert head + CouponLines(def.discount, data.coupons) == DiscountLines(data, def);
    assert data.coupons[0..] == data.coupons;
    for k := 0 to |data.coupons|
      invariant head + CouponLines(def.discount, data.coupons) == lines + CouponLines(def.discount, data.coupons[k..])
    {
      assert data.coupons[k..][1..] == data.coupons[k + 1..];
      lines := lines + [CouponLine(def.discount, data.coupons[k])];
    }
    assert lines + CouponLines(def.discount, data.coupons[|data.coupons|..]) == lines;
  }

  lemma {:induction false} FeesStep(keys: seq<(nat, string, Flag, int)>, k: nat, before: seq<Vals>)
    requires k < |keys|
    ensures before + PositiveFees(keys[k..]) == (before + PositiveFee(keys[k])) + PositiveFees(keys[k + 1..])
  {
    assert keys[k..][1..] == keys[k + 1..];
    Regroup(before, PositiveFee(keys[k]), PositiveFees(keys[k + 1..]));
  }

  /** The loop over the four fees. */
  method CollectFees(keys: seq<(nat, string, Flag, int)>) returns (lines: seq<Vals>)
    ensures lines == PositiveFees(keys)
  {
    lines := [];
    var k := 0;
    while k < |keys|
      invariant 0 <= k <= |keys|
      invariant PositiveFees(keys) == lines + PositiveFees(keys[k..])
    {
      var key := keys[k];
      FeesStep(keys, k, lines);
      if key.3 > 0 {
        lines := lines + [FeeLine(key.0, key.1, key.2, key.3)];
      } else {
        assert lines + [] == lines;
      }
      k := k + 1;
    }
    assert lines + PositiveFees(keys[|keys|..]) == lines;
  }

  /** `_process_fee_lines` */
  method ProcessFeeLines(data: OrderData, def: Defaults) returns (lines: seq<Vals>)
    ensures lines == FeeLines(data, def)
  {
    lines := CollectFees(FeeKeys(data, def));
    if lines != [] {
      lines := lines + [Section("Other Fees")];
    }
  }

  lemma {:induction false} TaxesStep(product: nat, ts: seq<NamedAmount>, k: nat, before: seq<Vals>)
    requires k < |ts|
    ensures before + PositiveTaxes(product, ts[k..])
            == (before + PositiveTax(product, ts[k])) + PositiveTaxes(product, ts[k + 1..])
  {
    assert ts[k..][1..] == ts[k + 1..];
    Regroup(before, PositiveTax(product, ts[k]), PositiveTaxes(product, ts[k + 1..]));
  }

  /** The loop over the taxes. */
  method CollectTaxes(product: nat, ts: seq<NamedAmount>) returns (vals: seq<Vals>)
    ensures vals == PositiveTaxes(product, ts)
  {
    vals := [];
    for k := 0 to |ts|
      invariant PositiveTaxes(product, ts) == vals + PositiveTaxes(product, ts[k..])
    {
      TaxesStep(product, ts, k, vals);
      if ts[k].amount > 0 {
        vals := vals + [TaxLine(product, ts[k])];
      } else {
        assert vals + [] == vals;
      }
    }
    assert vals + PositiveTaxes(product, ts[|ts|..]) == vals;
  }

  /** `_process_tax_lines` */
  method ProcessTaxLines(data: OrderData, def: Defaults) returns (lines: seq<Vals>)
    ensures lines == TaxLines(data, def)
  {
    lines := [];
    if data.taxes != [] {
      var vals := CollectTaxes(def.tax, data.taxes);
      if vals != [] {
        lines := [Section("Taxes")] + vals;
      }
      if data.taxNotes != [] {
        lines := lines + [Section(JoinNotes(data.taxNotes))];
      }
    }
  }

  /** `prepare_order_data`: the dictionaries that follow the clear command. */
  method PrepareOrderData(data: OrderData, def: Defaults) returns (lines: seq<Vals>)
    ensures lines == BuiltLines(data, def)
  {
    var discounts := ProcessDiscountLines(data, def);
    var fees := ProcessFeeLines(data, def);
    var taxes := ProcessTaxLines(data, def);
    var products: seq<Vals> := [];
    for k := 0 to |data.lines|
      invariant StoreLines(data.lines) == products + StoreLines(data.lines[k..])
    {
      assert data.lines[k..][1..] == data.lines[k + 1..];
      products := products + [StoreLine(data.lines[k])];
    }
    assert StoreLines(data.lines[|data.lines|..]) == [];
    lines := discounts + fees + taxes + products;
  }

  // ------------------------------------------------------------------ the money

  function AmountOf(n: NamedAmount): int { n.amount }

  function Positive(cents: int): int {
    if cents > 0 then cents else 0
  }

  function PositiveAmountOf(n: NamedAmount): int { Positive(n.amount) }

  function FeeAmount(key: (nat, string, Flag, int)): int { Positive(key.3) }

  function LineAmount(l: ProductLine): int { l.qty * l.price }

  /** What the built lines add up to. */
  function BuiltAmount(vs: seq<Vals>): int {
    SumNew(ProductData(vs))
  }

  ghost predicate Priced(vs: seq<Vals>) {
    Products(ProductData(vs))
  }

  lemma {:induction false} ProductDataAppend(a: seq<Vals>, b: seq<Vals>)
    ensures ProductData(a + b) == ProductData(a) + ProductData(b)
  {
    if a == [] {
      assert a + b == b;
    } else {
      assert (a + b)[1..] == a[1..] + b;
      ProductDataAppend(a[1..], b);
    }
  }

  lemma {:induction false} SumNewAppend(a: seq<ProductVals>, b: seq<ProductVals>)
    ensures SumNew(a + b) == SumNew(a) + SumNew(b)
  {
    if a == [] {
      assert a + b == b;
    } else {
      assert (a + b)[1..] == a[1..] + b;
      SumNewAppend(a[1..], b);
    }
  }

  lemma {:induction false} BuiltAppend(a: seq<Vals>, b: seq<Vals>)
    ensures BuiltAmount(a + b) == BuiltAmount(a) + BuiltAmount(b)
    ensures Priced(a) && Priced(b) ==> Priced(a + b)
  {
    ProductDataAppend(a, b);
    SumNewAppend(ProductData(a), ProductData(b));
  }

  lemma {:induction false} BuiltOne(v: Vals, cents: int, qty: int)
    requires v.product.Some? && v.price == Some(Money(cents))
    requires v.qty == Some(qty as real) || (v.qty == None && qty == 1)
    ensures BuiltAmount([v]) == cents * qty && Priced([v])
  {
    assert [v][1..] == [] && ProductData([]) == [];
    assert ProductData([v]) == [v];
    SubtotalOfCents(cents, qty);
    assert SumNew([v]) == NewAmount(v) + SumNew([v][1..]);
  }

  lemma {:induction false} BuiltSection(name: string)
    ensures BuiltAmount([Section(name)]) == 0 && Priced([Section(name)])
  {
    assert ProductData([Section(name)]) == ProductData([Section(name)][1..]) == [];
  }

  lemma {:induction false} BuiltCoupons(product: nat, cs: seq<NamedAmount>)
    ensures BuiltAmount(CouponLines(product, cs)) == -SumOf(cs, AmountOf) && Priced(CouponLines(product, cs))
  {
    if cs != [] {
      BuiltCoupons(product, cs[1..]);
      BuiltOne(CouponLine(product, cs[0]), -cs[0].amount, 1);
      BuiltAppend([CouponLine(product, cs[0])], CouponLines(product, cs[1..]));
    }
  }

  lemma {:induction false} BuiltDiscounts(data: OrderData, def: Defaults)
    ensures BuiltAmount(DiscountLines(data, def)) == -Positive(data.discount) - SumOf(data.coupons, AmountOf)
    ensures Priced(DiscountLines(data, def))
  {
    var head := if data.discount > 0 || data.coupons != [] then [Section("Discounts")] else [];
    var notes := if data.discountNotes != [] then [Section(JoinNotes(data.discountNotes))] else [];
    var line := [DiscountLine(def.discount, data.discount)];
    var middle := if data.discount > 0 then line + notes else [];
    BuiltSection("Discounts");
    BuiltSection(JoinNotes(data.discountNotes));
    BuiltOne(line[0], -data.discount, 1);
    BuiltAppend(line, notes);
    BuiltCoupons(def.discount, data.coupons);
    BuiltAppend(head, middle);
    BuiltAppend(head + middle, CouponLines(def.discount, data.coupons));
  }

  lemma {:induction false} BuiltPositiveFees(keys: seq<(nat, string, Flag, int)>)
    ensures BuiltAmount(PositiveFees(keys)) == SumOf(keys, FeeAmount)
    ensures Priced(PositiveFees(keys))
  {
    if keys != [] {
      var k := keys[0];
      BuiltPositiveFees(keys[1..]);
      if k.3 > 0 {
        BuiltOne(FeeLine(k.0, k.1, k.2, k.3), k.3, 1);
        BuiltAppend([FeeLine(k.0, k.1, k.2, k.3)], PositiveFees(keys[1..]));
      } else {
        assert PositiveFees(keys) == PositiveFees(keys[1..]);
      }
    }
  }

  lemma {:induction false} BuiltFees(data: OrderData, def: Defaults)
    ensures BuiltAmount(FeeLines(data, def)) ==
            Positive(data.shipping) + Positive(data.handling) + Positive(data.wrapping) + Positive(data.otherFees)
    ensures Priced(FeeLines(data, def))
  {
    var keys := FeeKeys(data, def);
    var fees := PositiveFees(keys);
    BuiltPositiveFees(keys);
    BuiltSection("Other Fees");
    BuiltAppend(fees, [Section("Other Fees")]);
    var k1 := keys[1..];
    var k2 := k1[1..];
    var k3 := k2[1..];
    assert k3[1..] == [] && SumOf(k3[1..], FeeAmount) == 0;
    assert SumOf(k2, FeeAmount) == FeeAmount(k2[0]) + SumOf(k3, FeeAmount);
  }

  lemma {:induction false} BuiltPositiveTaxes(product: nat, ts: seq<NamedAmount>)
    ensures BuiltAmount(PositiveTaxes(product, ts)) == SumOf(ts, PositiveAmountOf)
    ensures Priced(PositiveTaxes(product, ts))
  {
    if ts != [] {
      BuiltPositiveTaxes(product, ts[1..]);
      if ts[0].amount > 0 {
        BuiltOne(TaxLine(product, ts[0]), ts[0].amount, 1);
        BuiltAppend([TaxLine(product, ts[0])], PositiveTaxes(product, ts[1..]));
      } else {
        assert PositiveTaxes(product, ts) == PositiveTaxes(product, ts[1..]);
      }
    }
  }

  lemma {:induction false} BuiltTaxes(data: OrderData, def: Defaults)
    ensures BuiltAmount(TaxLines(data, def)) == SumOf(data.taxes, PositiveAmountOf)
    ensures Priced(TaxLines(data, def))
  {
    if data.taxes != [] {
      var vals := PositiveTaxes(def.tax, data.taxes);
      var head := if vals != [] then [Section("Taxes")] + vals else [];
      var notes := if data.taxNotes != [] then [Section(JoinNotes(data.taxNotes))] else [];
      BuiltPositiveTaxes(def.tax, data.taxes);
      BuiltSection("Taxes");
      BuiltSection(JoinNotes(data.taxNotes));
      BuiltAppend([Section("Taxes")], vals);
      BuiltAppend(head, notes);
    }
  }

  lemma {:induction false} BuiltProducts(ls: seq<ProductLine>)
    ensures BuiltAmount(StoreLines(ls)) == SumOf(ls, LineAmount) && Priced(StoreLines(ls))
  {
    if ls != [] {
      BuiltProducts(ls[1..]);
      BuiltOne(StoreLine(ls[0]), ls[0].price, ls[0].qty);
      BuiltAppend([StoreLine(ls[0])], StoreLines(ls[1..]));
    }
  }

  /** No money is lost or made between the store data and the order: the total of a created order is
      the product lines plus the positive fees and taxes minus a positive discount and the coupons. */
  lemma {:induction false} CreatedOrderTotal(o: Order, data: OrderData, def: Defaults)
    ensures Priced(BuiltLines(data, def))
    ensures AmountTotal(Replaced(o, BuiltLines(data, def)).lines) ==
            SumOf(data.lines, LineAmount)
            + Positive(data.shipping) + Positive(data.handling) + Positive(data.wrapping) + Positive(data.otherFees)
            + SumOf(data.taxes, PositiveAmountOf)
            - Positive(data.discount) - SumOf(data.coupons, AmountOf)
  {
    var a, b, c, d := DiscountLines(data, def), FeeLines(data, def), TaxLines(data, def), StoreLines(data.lines);
    BuiltDiscounts(data, def);
    BuiltFees(data, def);
    BuiltTaxes(data, def);
    BuiltProducts(data.lines);
    BuiltAppend(a, b);
    BuiltAppend(a + b, c);
    BuiltAppend(a + b + c, d);
    ReplacedTotal(o, BuiltLines(data, def));
  }
}
