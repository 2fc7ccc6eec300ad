/** An order from import to update: created from store data, confirmed, then updated with newer data. When the
    update raises, what it asks afterwards, and what the same data does once more, for data with coupons and any
    number of taxes. Which dictionaries are written to which lines follows from their kinds. */
module OrderLifecycle {
  import opened Options
  import opened Sequences
  import opened OrderLines
  import opened OrderUpdate
  import opened OrderMergeLaws
  import opened OrderMergeTwice
  import opened OrderBuilder
  import opened OrderParts
  import opened AmazonImport

  // ------------------------------------------------------------------ when an update raises

  /** A discount finds every line on the discount product, a tax every tax line; and a coupon of code
      "Discounts" finds the discount line beside its own. */
  predicate UpdateRaises(a: OrderData, b: OrderData) {
    || (b.discount > 0 && |DeductionNames(a)| >= 2)
    || (TaxCount(b.taxes) >= 1 && TaxCount(a.taxes) >= 2)
    || (a.discount > 0 && "Discounts" in CouponNames(a.coupons) && "Discounts" in CouponNames(b.coupons))
  }

  /** How many lines of the order created from a the dictionary of b at an index finds. */
  lemma {:induction false} FoundAt(a: OrderData, b: OrderData, def: Defaults, i: nat)
    requires Sellable(a, def) && Sellable(b, def) && i < |Built(b, def)|
    ensures |Matches(Created(a, def).lines, Built(b, def)[i])| == FoundCount(Built(a, def), Built(b, def)[i])
    ensures !UpdateRaises(a, b) ==> FoundCount(Built(a, def), Built(b, def)[i]) <= 1
  {
    var d := Built(b, def)[i];
    KindAt(b, def, i);
    BuiltAt(b, def, i);
    CreatedMatches(a, def, d);
    FoundByKind(a, def, d);
    if i < FeesFrom(b, def) {
      DeductionAt(b, def, i);
      if IsCoupon(d) {
        FoundByCoupon(a, def, d);
        CouponAmong(b, i);
      }
    } else if TaxesFrom(b, def) <= i < ItemsFrom(b, def) {
      PartsAre(b, def);
    }
  }

  lemma {:induction false} CouponAmong(data: OrderData, i: nat)
    requires i < |DeductionNames(data)| && (i > 0 || data.discount <= 0)
    ensures DeductionNames(data)[i] in CouponNames(data.coupons)
  {
    var k := if data.discount > 0 then i - 1 else i;
    assert DeductionNames(data)[i] == CouponNames(data.coupons)[k];
  }

  lemma {:induction false} DiscountPlace(data: OrderData, def: Defaults)
    requires Sellable(data, def) && data.discount > 0
    ensures 0 < |Built(data, def)| && IsDeduction(Built(data, def)[0], def) && !IsCoupon(Built(data, def)[0])
  {
    BuiltIs(data, def);
    PartsAre(data, def);
    hide Built, Deductions, Fees, Taxes, Items, IsDeduction, IsCoupon;
    KindAt(data, def, 0);
    BuiltAt(data, def, 0);
    DeductionAt(data, def, 0);
  }

  lemma {:induction false} TaxPlace(data: OrderData, def: Defaults) returns (tax: nat)
    requires Sellable(data, def) && TaxCount(data.taxes) > 0
    ensures tax < |Built(data, def)| && IsTax(Built(data, def)[tax], def)
  {
    tax := TaxesFrom(data, def);
    BuiltIs(data, def);
    PartsAre(data, def);
    hide Built, Deductions, Fees, Taxes, Items, IsTax;
    KindAt(data, def, tax);
  }

  lemma {:induction false} CodePlace(data: OrderData, def: Defaults, code: string) returns (coupon: nat)
    requires Sellable(data, def) && code in CouponNames(data.coupons)
    ensures coupon < |Built(data, def)| && IsDeduction(Built(data, def)[coupon], def)
    ensures IsCoupon(Built(data, def)[coupon]) && Built(data, def)[coupon].name == code
  {
    var k :| 0 <= k < |data.coupons| && CouponNames(data.coupons)[k] == code;
    coupon := if data.discount > 0 then k + 1 else k;
    BuiltIs(data, def);
    PartsAre(data, def);
    hide Built, Deductions, Fees, Taxes, Items, IsDeduction, IsCoupon;
    KindAt(data, def, coupon);
    BuiltAt(data, def, coupon);
    DeductionAt(data, def, coupon);
  }

  /** The first tax, the discount, and the coupon of a code, in the built dictionaries. */
  lemma {:induction false} PlaceOf(data: OrderData, def: Defaults, code: string) returns (discount: nat, tax: nat, coupon: nat)
    requires Sellable(data, def)
    ensures data.discount > 0 ==>
              discount < |Built(data, def)| && IsDeduction(Built(data, def)[discount], def) && !IsCoupon(Built(data, def)[discount])
    ensures TaxCount(data.taxes) > 0 ==> tax < |Built(data, def)| && IsTax(Built(data, def)[tax], def)
    ensures code in CouponNames(data.coupons) ==>
              && coupon < |Built(data, def)| && IsDeduction(Built(data, def)[coupon], def)
              && IsCoupon(Built(data, def)[coupon]) && Built(data, def)[coupon].name == code
  {
    hide *;
    discount, tax, coupon := 0, 0, 0;
    if data.discount > 0 {
      DiscountPlace(data, def);
    }
    if TaxCount(data.taxes) > 0 {
      tax := TaxPlace(data, def);
    }
    if code in CouponNames(data.coupons) {
      coupon := CodePlace(data, def, code);
    }
  }

  /** The order created from a and confirmed: its update with b raises exactly when b has a discount and a
      two lines on the discount product, b has a tax and a two, or both have a coupon "Discounts" and a a
      discount. */
  lemma {:induction false} UpdateRaisesIff(a: OrderData, b: OrderData, def: Defaults)
    requires Sellable(a, def) && Sellable(b, def)
    ensures MergeCommands(Created(a, def).lines, BuiltLines(b, def)).NotSingleton? <==> UpdateRaises(a, b)
  {
    var lines, ps := Created(a, def).lines, Built(b, def);
    MergeRaisesIff(lines, ps);
    if UpdateRaises(a, b) {
      var discount, tax, coupon := PlaceOf(b, def, "Discounts");
      var i := if b.discount > 0 && |DeductionNames(a)| >= 2 then discount
               else if TaxCount(b.taxes) >= 1 && TaxCount(a.taxes) >= 2 then tax else coupon;
      FoundAt(a, b, def, i);
      KindAt(b, def, i);
      FoundByKind(a, def, ps[i]);
      if IsCoupon(ps[i]) {
        FoundByCoupon(a, def, ps[i]);
      }
      assert ps[i].price.Some? && |Matches(lines, ps[i])| > 1;
    } else {
      forall i | 0 <= i < |ps| ensures |Matches(lines, ps[i])| <= 1 {
        FoundAt(a, b, def, i);
      }
    }
  }

  /** A confirmed order with two positive taxes, updated with its own data: it raises. */
  lemma {:induction false} TwoTaxesRaise(data: OrderData, def: Defaults, first: NamedAmount, second: NamedAmount)
    requires Sellable(data, def) && data.taxes == [first, second] && first.amount > 0 && second.amount > 0
    ensures MergeCommands(Created(data, def).lines, BuiltLines(data, def)).NotSingleton?
  {
    assert data.taxes[1..] == [second] && [second][1..] == [] && TaxCount([]) == 0;
    assert TaxCount([second]) == 1;
    UpdateRaisesIff(data, data, def);
  }

  // ------------------------------------------------------------------ what an update asks

  lemma {:induction false} WritersAppend(l: Line, a: seq<ProductVals>, b: seq<ProductVals>)
    ensures WritersOf(l, a + b) == WritersOf(l, a) + WritersOf(l, b)
  {
    if a == [] {
      assert a + b == b && [] + WritersOf(l, b) == WritersOf(l, b);
    } else {
      assert (a + b)[1..] == a[1..] + b;
      WritersAppend(l, a[1..], b);
      var head := if Matched(l, a[0]) && a[0].price.Some? then [a[0]] else [];
      Regroup(head, WritersOf(l, a[1..]), WritersOf(l, b));
    }
  }

  lemma {:induction false} WritersInParts(l: Line, data: OrderData, def: Defaults)
    ensures WritersOf(l, Built(data, def)) == WritersOf(l, Deductions(data, def)) + WritersOf(l, Fees(data, def))
                                              + WritersOf(l, Taxes(data, def)) + WritersOf(l, Items(data))
  {
    var a, b, c, d := Deductions(data, def), Fees(data, def), Taxes(data, def), Items(data);
    BuiltIs(data, def);
    WritersAppend(l, a, b);
    WritersAppend(l, a + b, c);
    WritersAppend(l, a + b + c, d);
  }

  /** Among priced dictionaries no two of which find the line, at most one is written to it. */
  lemma {:induction false} OneWriter(l: Line, ps: seq<ProductVals>)
    requires Products(ps)
    requires forall i, j :: 0 <= i < j < |ps| ==> !(Matched(l, ps[i]) && Matched(l, ps[j]))
    ensures |WritersOf(l, ps)| <= 1
    ensures WritersOf(l, ps) == [] <==> forall i :: 0 <= i < |ps| ==> !Matched(l, ps[i])
    ensures forall w :: w in WritersOf(l, ps) ==> w in ps
  {
    hide Matched;
    if ps != [] {
      var rest := ps[1..];
      assert forall i :: 0 <= i < |rest| ==> rest[i] == ps[i + 1];
      OneWriter(l, rest);
      assert forall i :: 0 < i < |ps| ==> ps[i] == rest[i - 1];
      if Matched(l, ps[0]) {
        assert WritersOf(l, rest) == [];
        assert WritersOf(l, ps) == [ps[0]];
      } else {
        assert WritersOf(l, ps) == WritersOf(l, rest);
      }
    }
  }

  lemma {:induction false} AllWrite(l: Line, ps: seq<ProductVals>)
    requires Products(ps) && forall i :: 0 <= i < |ps| ==> Matched(l, ps[i])
    ensures WritersOf(l, ps) == ps
  {
    if ps != [] {
      assert forall i :: 0 <= i < |ps[1..]| ==> ps[1..][i] == ps[i + 1];
      AllWrite(l, ps[1..]);
    }
  }

  lemma {:induction false} NotWrittenBy(v: ProductVals, ps: seq<ProductVals>, def: Defaults)
    requires DefaultsApart(def) && Standard(v, def)
    requires (AllDeductions(ps, def) && !IsDeduction(v, def)) || (AllFees(ps, def) && !IsFee(v, def))
             || (AllTaxes(ps, def) && !IsTax(v, def)) || (AllItems(ps, def) && !IsItem(v, def))
    ensures WritersOf(NewLine(0, v), ps) == []
  {
    forall i | 0 <= i < |ps| ensures !Matched(NewLine(0, v), ps[i]) {
      FindsIff(ps[i], v, def);
    }
    NoPricedWriter(NewLine(0, v), ps);
  }

  lemma {:induction false} NotWrittenByOthers(v: ProductVals, b: OrderData, def: Defaults)
    requires Sellable(b, def) && Standard(v, def)
    ensures !IsDeduction(v, def) ==> WritersOf(NewLine(0, v), Deductions(b, def)) == []
    ensures !IsFee(v, def) ==> WritersOf(NewLine(0, v), Fees(b, def)) == []
    ensures !IsTax(v, def) ==> WritersOf(NewLine(0, v), Taxes(b, def)) == []
    ensures !IsItem(v, def) ==> WritersOf(NewLine(0, v), Items(b)) == []
  {
    PartsAre(b, def);
    hide Deductions, Fees, Taxes, Items, WritersOf, IsDeduction, IsFee, IsTax, IsItem, AllDeductions, AllFees, AllTaxes, AllItems;
    if !IsDeduction(v, def) { NotWrittenBy(v, Deductions(b, def), def); }
    if !IsFee(v, def) { NotWrittenBy(v, Fees(b, def), def); }
    if !IsTax(v, def) { NotWrittenBy(v, Taxes(b, def), def); }
    if !IsItem(v, def) { NotWrittenBy(v, Items(b), def); }
  }

  lemma {:induction false} OneKind(v: ProductVals, def: Defaults)
    requires DefaultsApart(def) && Standard(v, def)
    ensures IsDeduction(v, def) || IsFee(v, def) || IsTax(v, def) || IsItem(v, def)
    ensures IsDeduction(v, def) ==> !IsFee(v, def) && !IsTax(v, def) && !IsItem(v, def)
    ensures IsFee(v, def) ==> !IsTax(v, def) && !IsItem(v, def)
    ensures IsTax(v, def) ==> !IsItem(v, def)
  {
  }

  /** The dictionaries of b written to the line created from v are of v's kind. */
  lemma {:induction false} WritersOfKind(v: ProductVals, b: OrderData, def: Defaults)
    requires Sellable(b, def) && Standard(v, def)
    ensures WritersOf(NewLine(0, v), Built(b, def)) ==
            WritersOf(NewLine(0, v), if IsDeduction(v, def) then Deductions(b, def) else if IsFee(v, def) then Fees(b, def)
                                     else if IsTax(v, def) then Taxes(b, def) else Items(b))
  {
    var l := NewLine(0, v);
    assert DefaultsApart(def);
    hide *;
    WritersInParts(l, b, def);
    NotWrittenByOthers(v, b, def);
    OneKind(v, def);
    OnlyPart(WritersOf(l, Deductions(b, def)), WritersOf(l, Fees(b, def)), WritersOf(l, Taxes(b, def)), WritersOf(l, Items(b)));
  }

  lemma {:induction false} OnlyPart<T>(a: seq<T>, b: seq<T>, c: seq<T>, d: seq<T>)
    ensures b == c == d == [] ==> a + b + c + d == a
    ensures a == c == d == [] ==> a + b + c + d == b
    ensures a == b == d == [] ==> a + b + c + d == c
    ensures a == b == c == [] ==> a + b + c + d == d
  {
    assert a + b + c + d == a + (b + (c + d));
  }

  function GapOf(v: ProductVals, ps: seq<ProductVals>): int {
    var ws := WritersOf(NewLine(0, v), ps);
    if ws == [] then 0 else WonAmount(ws, NewLine(0, v).qty) - SumNew(ws)
  }

  function GapsOf(vs: seq<ProductVals>, ps: seq<ProductVals>): int {
    if vs == [] then 0 else GapOf(vs[0], ps) + GapsOf(vs[1..], ps)
  }

  lemma {:induction false} GapsAppend(a: seq<ProductVals>, b: seq<ProductVals>, ps: seq<ProductVals>)
    ensures GapsOf(a + b, ps) == GapsOf(a, ps) + GapsOf(b, ps)
  {
    if a == [] {
      assert a + b == b;
    } else {
      assert (a + b)[1..] == a[1..] + b;
      GapsAppend(a[1..], b, ps);
    }
  }

  lemma {:induction false} NoGaps(vs: seq<ProductVals>, ps: seq<ProductVals>)
    requires forall i :: 0 <= i < |vs| ==> GapOf(vs[i], ps) == 0
    ensures GapsOf(vs, ps) == 0
  {
    if vs != [] {
      assert forall i :: 0 <= i < |vs[1..]| ==> vs[1..][i] == vs[i + 1];
      NoGaps(vs[1..], ps);
    }
  }

  lemma {:induction false} OneGap(vs: seq<ProductVals>, ps: seq<ProductVals>)
    requires |vs| == 1
    ensures GapsOf(vs, ps) == GapOf(vs[0], ps)
  {
    assert vs[1..] == [] && GapsOf([], ps) == 0;
  }

  lemma {:induction false} PricedWriters(l: Line, ps: seq<ProductVals>)
    requires Products(ps) && LookedUp(l, ps)
    ensures WritersOf(l, ps) != []
  {
    if !Matched(l, ps[0]) {
      assert forall i :: 0 <= i < |ps[1..]| ==> ps[1..][i] == ps[i + 1];
      PricedWriters(l, ps[1..]);
    }
  }

  lemma {:induction false} GapOfLine(id: nat, v: ProductVals, ps: seq<ProductVals>)
    requires Products(ps)
    ensures LineGap(NewLine(id, v), ps) == GapOf(v, ps)
  {
    WritersWithoutId(id, v, ps);
    LineGapIs(NewLine(id, v), ps);
    if LookedUp(NewLine(id, v), ps) {
      PricedWriters(NewLine(id, v), ps);
    }
  }

  lemma {:induction false} DisplayGap(id: nat, d: Vals, ps: seq<ProductVals>, def: Defaults)
    requires d.product.None? && d.storeId == "" && DefaultsApart(def)
    requires forall i :: 0 <= i < |ps| ==> Standard(ps[i], def)
    ensures LineGap(NewLine(id, d), ps) == 0
  {
    forall i | 0 <= i < |ps| ensures !Matched(NewLine(id, d), ps[i]) {
      assert Standard(ps[i], def);
    }
    LookedUpIff(NewLine(id, d), ps);
  }

  lemma {:induction false} CreatedGaps(id: nat, vs: seq<Vals>, ps: seq<ProductVals>, def: Defaults)
    requires DefaultsApart(def) && PlainDisplays(vs) && forall i :: 0 <= i < |ps| ==> Standard(ps[i], def)
    ensures SumGaps(NewLines(id, vs), ps) == GapsOf(ProductData(vs), ps)
    decreases |vs|
  {
    if vs != [] {
      assert NewLines(id, vs)[1..] == NewLines(id + 1, vs[1..]);
      assert forall i :: 0 <= i < |vs[1..]| ==> vs[1..][i] == vs[i + 1];
      CreatedGaps(id + 1, vs[1..], ps, def);
      if vs[0].product.Some? {
        assert ProductData(vs)[1..] == ProductData(vs[1..]);
        GapOfLine(id, vs[0], ps);
      } else {
        DisplayGap(id, vs[0], ps, def);
      }
    }
  }

  /** A line with a single writer that gives a quantity, or leaves the quantity 1, has no gap. */
  lemma {:induction false} SingleWriterGap(ws: seq<ProductVals>, q: real)
    requires |ws| == 1 && (ws[0].qty.Some? || q == 1.0)
    ensures WonAmount(ws, q) == SumNew(ws)
  {
    assert ws[1..] == [] && ws[..0] == [] && SumNew([]) == 0;
    assert LastQty(ws) == ws[0].qty;
  }

  lemma {:induction false} FeeGap(v: ProductVals, b: OrderData, def: Defaults)
    requires Sellable(b, def) && IsFee(v, def)
    ensures GapOf(v, Built(b, def)) == 0
  {
    var l, fees := NewLine(0, v), Fees(b, def);
    WritersOfKind(v, b, def);
    FeesAre(b, def);
    forall i, j | 0 <= i < j < |fees| ensures !(Matched(l, fees[i]) && Matched(l, fees[j])) {
      FindsIff(fees[i], v, def);
      FindsIff(fees[j], v, def);
    }
    OneWriter(l, fees);
    if WritersOf(l, fees) != [] {
      assert WritersOf(l, fees)[0] in fees;
      SingleWriterGap(WritersOf(l, fees), l.qty);
    }
  }

  lemma {:induction false} ItemGap(v: ProductVals, b: OrderData, def: Defaults)
    requires Sellable(b, def) && IsItem(v, def)
    ensures GapOf(v, Built(b, def)) == 0
  {
    var l, items := NewLine(0, v), Items(b);
    WritersOfKind(v, b, def);
    ItemsAre(b, def);
    forall i, j | 0 <= i < j < |items| ensures !(Matched(l, items[i]) && Matched(l, items[j])) {
      FindsIff(items[i], v, def);
      FindsIff(items[j], v, def);
    }
    OneWriter(l, items);
    if WritersOf(l, items) != [] {
      assert WritersOf(l, items)[0] in items;
      SingleWriterGap(WritersOf(l, items), l.qty);
    }
  }

  /** Every positive tax is written to a tax line, and only the last one counts. */
  lemma {:induction false} TaxGap(v: ProductVals, b: OrderData, def: Defaults)
    requires Sellable(b, def) && IsTax(v, def)
    ensures GapOf(v, Built(b, def)) == -LostTaxes(b.taxes)
  {
    var taxes := Taxes(b, def);
    TaxWriters(v, b, def);
    TaxesWritten(v, b, def);
    TaxesAre(b, def);
    TaxesAmount(def.tax, b.taxes);
    hide Taxes, Built, WritersOf, IsTax, Sellable;
    if taxes != [] {
      assert LastQty(taxes) == Some(1.0);
    } else {
      NothingPositive(b.taxes);
    }
  }

  lemma {:induction false} TaxWriters(v: ProductVals, b: OrderData, def: Defaults)
    requires Sellable(b, def) && IsTax(v, def)
    ensures WritersOf(NewLine(0, v), Built(b, def)) == WritersOf(NewLine(0, v), Taxes(b, def))
  {
    OneKind(v, def);
    WritersOfKind(v, b, def);
  }

  lemma {:induction false} TaxesWritten(v: ProductVals, b: OrderData, def: Defaults)
    requires Sellable(b, def) && IsTax(v, def)
    ensures WritersOf(NewLine(0, v), Taxes(b, def)) == Taxes(b, def)
    ensures forall i :: 0 <= i < |Taxes(b, def)| ==> Taxes(b, def)[i].qty == Some(1.0)
  {
    var l, taxes := NewLine(0, v), Taxes(b, def);
    PartsAre(b, def);
    hide Taxes;
    forall i | 0 <= i < |taxes| ensures Matched(l, taxes[i]) {
      FindsIff(taxes[i], v, def);
    }
    AllWrite(l, taxes);
  }

  lemma {:induction false} NothingPositive(ts: seq<NamedAmount>)
    requires TaxCount(ts) == 0
    ensures LastPositive(ts) == 0 && SumOf(ts, PositiveAmountOf) == 0
  {
    if ts != [] {
      NothingPositive(ts[1..]);
    }
  }

  lemma {:induction false} CouponWriters(l: Line, product: nat, cs: seq<NamedAmount>)
    requires product != 0 && l.product == product && l.storeId == ""
    requires forall i, j :: 0 <= i < j < |cs| ==> cs[i].name != cs[j].name
    ensures var ws := WritersOf(l, ProductData(CouponLines(product, cs)));
            && |ws| <= 1 && (ws == [] <==> l.name !in CouponNames(cs))
            && (ws != [] ==> ws[0] == CouponLine(product, NamedAmount(l.name, CouponAmount(cs, l.name))))
  {
    var coupons, names := ProductData(CouponLines(product, cs)), CouponNames(cs);
    CouponsData(product, cs);
    forall i | 0 <= i < |cs| ensures Matched(l, coupons[i]) <==> l.name == names[i] {
      assert coupons[i].flags[Coupon];
    }
    OneWriter(l, coupons);
    if WritersOf(l, coupons) != [] {
      var w := WritersOf(l, coupons)[0];
      assert w in coupons;
      var i :| 0 <= i < |coupons| && coupons[i] == w;
      WriterMatched(l, coupons);
      CouponAmountAt(cs, i);
    }
  }

  /** The amount of the coupon of a code. */
  function CouponAmount(cs: seq<NamedAmount>, code: string): int {
    if cs == [] then 0 else if cs[0].name == code then cs[0].amount else CouponAmount(cs[1..], code)
  }

  lemma {:induction false} CouponAmountAt(cs: seq<NamedAmount>, i: nat)
    requires i < |cs| && forall i, j :: 0 <= i < j < |cs| ==> cs[i].name != cs[j].name
    ensures CouponAmount(cs, cs[i].name) == cs[i].amount
  {
    if i > 0 {
      assert cs[i] == cs[1..][i - 1];
      CouponAmountAt(cs[1..], i - 1);
    }
  }

  lemma {:induction false} WriterMatched(l: Line, ps: seq<ProductVals>)
    ensures forall w :: w in WritersOf(l, ps) ==> Matched(l, w)
  {
    if ps != [] {
      WriterMatched(l, ps[1..]);
    }
  }

  function DiscountPart(b: OrderData, def: Defaults): seq<ProductVals> {
    if b.discount > 0 then [DiscountLine(def.discount, b.discount)] else []
  }

  /** What b writes to a line on the discount product: the discount, then the coupon of the line's name. */
  lemma {:induction false} DeductionWriters(v: ProductVals, b: OrderData, def: Defaults) returns (ws: seq<ProductVals>)
    requires Sellable(b, def) && IsDeduction(v, def)
    ensures WritersOf(NewLine(0, v), Built(b, def)) == DiscountPart(b, def) + ws
    ensures |ws| <= 1 && (ws == [] <==> v.name !in CouponNames(b.coupons))
    ensures ws != [] ==> ws[0] == CouponLine(def.discount, NamedAmount(v.name, CouponAmount(b.coupons, v.name)))
  {
    var l, coupons := NewLine(0, v), ProductData(CouponLines(def.discount, b.coupons));
    ws := WritersOf(l, coupons);
    WritersOfKind(v, b, def);
    DeductionsAre(b, def);
    WritersAppend(l, DiscountPart(b, def), coupons);
    DiscountWriter(l, b, def);
    hide Built, CouponLines, ProductData, WritersOf, Deductions;
    CouponWriters(l, def.discount, b.coupons);
  }

  /** A line on the discount product gets the discount, then the coupon of its name: with both, the discount
      is overwritten. */
  lemma {:induction false} DeductionGap(v: ProductVals, b: OrderData, def: Defaults)
    requires Sellable(b, def) && IsDeduction(v, def)
    ensures GapOf(v, Built(b, def)) == if b.discount > 0 && v.name in CouponNames(b.coupons) then b.discount else 0
  {
    var ws := DeductionWriters(v, b, def);
    var d := DiscountLine(def.discount, b.discount);
    hide Built, WritersOf;
    SubtotalOfCents(-b.discount, 1);
    if ws == [] {
      assert DiscountPart(b, def) + [] == DiscountPart(b, def);
      if b.discount > 0 {
        SingleWriterGap([d], 1.0);
      }
    } else if b.discount > 0 {
      assert [d] + ws == [d, ws[0]];
      TwoAmounts(d, ws[0]);
    } else {
      assert [] + ws == ws;
      SingleWriterGap(ws, 1.0);
    }
  }

  lemma {:induction false} DiscountWriter(l: Line, b: OrderData, def: Defaults)
    requires l.product == def.discount && l.storeId == ""
    ensures WritersOf(l, DiscountPart(b, def)) == DiscountPart(b, def)
  {
    var d := DiscountLine(def.discount, b.discount);
    assert d.flags[Discount];
    assert [d][1..] == [];
  }

  /** The discount of b when it is written to the only line on a's discount product and then overwritten by
      the coupon of that line's name. */
  function LostDiscount(a: OrderData, b: OrderData): int {
    if b.discount > 0 && |DeductionNames(a)| == 1 && DeductionNames(a)[0] in CouponNames(b.coupons) then b.discount else 0
  }

  lemma {:induction false} DeductionGaps(a: OrderData, b: OrderData, def: Defaults)
    requires Sellable(a, def) && Sellable(b, def) && !UpdateRaises(a, b)
    ensures GapsOf(Deductions(a, def), Built(b, def)) == LostDiscount(a, b)
  {
    hide Deductions, Built, GapOf, GapsOf, IsDeduction;
    var vs := Deductions(a, def);
    PartsAre(a, def);
    forall i | 0 <= i < |vs|
      ensures vs[i].name == DeductionNames(a)[i]
      ensures GapOf(vs[i], Built(b, def)) == if b.discount > 0 && vs[i].name in CouponNames(b.coupons) then b.discount else 0
    {
      DeductionAt(a, def, i);
      DeductionGap(vs[i], b, def);
    }
    if b.discount <= 0 {
      NoGaps(vs, Built(b, def));
    } else if |vs| == 1 {
      OneGap(vs, Built(b, def));
    } else {
      NoGaps(vs, Built(b, def));
    }
  }

  lemma {:induction false} TaxGaps(a: OrderData, b: OrderData, def: Defaults)
    requires Sellable(a, def) && Sellable(b, def) && !UpdateRaises(a, b)
    ensures GapsOf(Taxes(a, def), Built(b, def)) == if TaxCount(a.taxes) == 1 then -LostTaxes(b.taxes) else 0
  {
    hide Taxes, Built, GapOf, GapsOf, IsTax;
    var vs := Taxes(a, def);
    PartsAre(a, def);
    forall i | 0 <= i < |vs| ensures GapOf(vs[i], Built(b, def)) == -LostTaxes(b.taxes) {
      TaxGap(vs[i], b, def);
    }
    if TaxCount(b.taxes) == 0 {
      NothingPositive(b.taxes);
    }
    if |vs| == 1 {
      OneGap(vs, Built(b, def));
    } else {
      NoGaps(vs, Built(b, def));
    }
  }

  lemma {:induction false} OtherGaps(a: OrderData, b: OrderData, def: Defaults)
    requires Sellable(a, def) && Sellable(b, def)
    ensures GapsOf(Fees(a, def), Built(b, def)) == 0 && GapsOf(Items(a), Built(b, def)) == 0
  {
    PartsAre(a, def);
    var fees, items := Fees(a, def), Items(a);
    hide Fees, Items, Built;
    forall i | 0 <= i < |fees| ensures GapOf(fees[i], Built(b, def)) == 0 {
      FeeGap(fees[i], b, def);
    }
    NoGaps(fees, Built(b, def));
    forall i | 0 <= i < |items| ensures GapOf(items[i], Built(b, def)) == 0 {
      ItemGap(items[i], b, def);
    }
    NoGaps(items, Built(b, def));
  }

  lemma {:induction false} AllGaps(a: OrderData, b: OrderData, def: Defaults)
    requires Sellable(a, def) && Sellable(b, def) && !UpdateRaises(a, b)
    ensures SumGaps(Created(a, def).lines, Built(b, def)) ==
            LostDiscount(a, b) - if TaxCount(a.taxes) == 1 then LostTaxes(b.taxes) else 0
  {
    var w, x, y, z, ps := Deductions(a, def), Fees(a, def), Taxes(a, def), Items(a), Built(b, def);
    CreatedIs(a, def);
    BuiltDisplays(a, def);
    BuiltStandard(b, def);
    CreatedGaps(0, BuiltLines(a, def), ps, def);
    BuiltIs(a, def);
    hide Deductions, Fees, Taxes, Items, BuiltLines;
    DeductionGaps(a, b, def);
    TaxGaps(a, b, def);
    OtherGaps(a, b, def);
    GapsAppend(w, x, ps);
    GapsAppend(w + x, y, ps);
    GapsAppend(w + x + y, z, ps);
  }

  /** The dictionary behind a created line. */
  lemma {:induction false} BehindLine(a: OrderData, def: Defaults, k: nat) returns (i: nat)
    requires Sellable(a, def) && k < |Created(a, def).lines|
    ensures var l := Created(a, def).lines[k];
            && l.id == k && (l.product == 0 ==> l.storeId == "" && l.price == 0.0)
            && (l.product != 0 ==> i < |Built(a, def)| && Standard(Built(a, def)[i], def) && l == NewLine(k, Built(a, def)[i]))
  {
    var vs := BuiltLines(a, def);
    CreatedIs(a, def);
    BuiltDisplays(a, def);
    BuiltStandard(a, def);
    NewLinesAt(0, vs, k);
    i := 0;
    hide BuiltLines;
    if vs[k].product.Some? {
      i := InProductData(vs, k);
      assert Standard(Built(a, def)[i], def);
    }
  }

  lemma {:induction false} CreatedWellFormed(a: OrderData, def: Defaults)
    requires Sellable(a, def)
    ensures WellFormed(Created(a, def))
    ensures DisplaysUnkeyed(Created(a, def).lines, BuiltLines(a, def))
  {
    var vs := BuiltLines(a, def);
    CreatedIs(a, def);
    BuiltDisplays(a, def);
    hide Created, BuiltLines;
    forall k | 0 <= k < |vs|
      ensures var l := Created(a, def).lines[k];
              l.id == k && (l.product == 0 ==> l.price == 0.0 && l.storeId == "")
    {
      var i := BehindLine(a, def, k);
    }
  }

  lemma {:induction false} InProductData(vs: seq<Vals>, k: nat) returns (i: nat)
    requires k < |vs| && vs[k].product.Some?
    ensures i < |ProductData(vs)| && ProductData(vs)[i] == vs[k]
  {
    if k == 0 {
      i := 0;
    } else {
      i := InProductData(vs[1..], k - 1);
      i := if vs[0].product.Some? then i + 1 else i;
    }
  }

  /** A confirmed order, updated with newer data that is accepted, asks what an order created from the newer
      data asks, plus a discount overwritten by a coupon, less the taxes overwritten by the last one. */
  lemma {:induction false} UpdatedTotal(a: OrderData, b: OrderData, def: Defaults)
    requires Sellable(a, def) && Sellable(b, def) && !UpdateRaises(a, b)
    ensures var o, ds := Created(a, def), BuiltLines(b, def);
            && MergeCommands(o.lines, ds).Commands?
            && AmountTotal(Apply(o, MergeCommands(o.lines, ds).cmds).lines)
               == AmountTotal(Created(b, def).lines)
                  + LostDiscount(a, b) - if TaxCount(a.taxes) == 1 then LostTaxes(b.taxes) else 0
  {
    var o, ds := Created(a, def), BuiltLines(b, def);
    UpdateRaisesIff(a, b, def);
    CreatedWellFormed(a, def);
    MergeTotalVersusReplace(o, ds);
    AllGaps(a, b, def);
    ReplacedTotal(o, ds);
    ReplacedTotal(Order([], 0), ds);
  }

  // ------------------------------------------------------------------ the same data once more

  /** Two taxes created by the update, or a discount beside a coupon of another name than the only line on the
      discount product: the next update finds two lines. */
  predicate TwiceRaises(a: OrderData, b: OrderData) {
    || (TaxCount(a.taxes) == 0 && TaxCount(b.taxes) >= 2)
    || (b.discount > 0 && exists i :: 0 <= i < |b.coupons| && !OnlyNamed(a, b.coupons[i].name))
  }

  predicate OnlyNamed(a: OrderData, name: string) {
    |DeductionNames(a)| == 1 && DeductionNames(a)[0] == name
  }

  lemma {:induction false} WritersWithoutId(id: nat, v: ProductVals, ps: seq<ProductVals>)
    ensures WritersOf(NewLine(id, v), ps) == WritersOf(NewLine(0, v), ps)
  {
    forall i | 0 <= i < |ps| ensures Matched(NewLine(id, v), ps[i]) == Matched(NewLine(0, v), ps[i]) {
      SameMatched(NewLine(id, v), NewLine(0, v), ps[i]);
    }
    SameWriters(NewLine(id, v), NewLine(0, v), ps);
  }

  /** The last writer names a line on the discount product. */
  lemma {:induction false} FinalName(id: nat, v: ProductVals, b: OrderData, def: Defaults)
    requires Sellable(b, def) && IsDeduction(v, def)
    ensures FinalLine(NewLine(id, v), Built(b, def)).name ==
            if v.name in CouponNames(b.coupons) then v.name else if b.discount > 0 then "Discounts" else v.name
  {
    hide Built, WritersOf, FinalLine, Sellable, IsDeduction;
    var ws := DeductionWriters(v, b, def);
    WritersWithoutId(id, v, Built(b, def));
    NamedByLast(NewLine(id, v), Built(b, def));
  }

  lemma {:induction false} NamedByLast(l: Line, ps: seq<ProductVals>)
    ensures var ws := WritersOf(l, ps);
            FinalLine(l, ps).name == if ws == [] then l.name else ws[|ws| - 1].name
  {
    var ws := WritersOf(l, ps);
    if ws != [] {
      WritersPriced(l, ps);
      WritersLookUp(l, ps);
      RewrittenIsFolded(l, ws);
      FoldedIs(ws);
    }
  }

  lemma {:induction false} KeysKept(a: OrderData, b: OrderData, def: Defaults)
    requires Sellable(a, def) && Sellable(b, def)
    ensures AllKeyed(Built(b, def)) && DisplaysUnkeyed(Created(a, def).lines, BuiltLines(b, def))
  {
    AllBuiltKeyed(b, def);
    BuiltDisplays(b, def);
    CreatedWellFormed(a, def);
    hide Created, Built, BuiltLines, AllKeyed, WellFormed, Sellable;
  }

  lemma {:induction false} AllBuiltKeyed(b: OrderData, def: Defaults)
    requires Sellable(b, def)
    ensures AllKeyed(Built(b, def))
  {
    BuiltStandard(b, def);
    var ps := Built(b, def);
    hide Built;
    forall i | 0 <= i < |ps| ensures Keyed(ps[i]) {
      assert Standard(ps[i], def);
    }
  }

  lemma {:induction false} CouponNameAt(b: OrderData, def: Defaults, i: nat)
    requires Sellable(b, def) && i < |Built(b, def)| && IsCoupon(Built(b, def)[i])
    ensures IsDeduction(Built(b, def)[i], def) && Built(b, def)[i].name in CouponNames(b.coupons)
  {
    KindAt(b, def, i);
    BuiltAt(b, def, i);
    DeductionAt(b, def, i);
    CouponAmong(b, i);
  }

  lemma {:induction false} CouponsKeepNames(a: OrderData, b: OrderData, def: Defaults)
    requires Sellable(a, def) && Sellable(b, def)
    ensures NamesKept(Created(a, def).lines, Built(b, def))
  {
    var lines, ps := Created(a, def).lines, Built(b, def);
    forall k, i | 0 <= k < |lines| && 0 <= i < |ps| && IsCoupon(ps[i]) && Matched(lines[k], ps[i])
      ensures FinalLine(lines[k], ps).name == ps[i].name
    {
      CouponKeepsName(a, b, def, k, i);
    }
  }

  lemma {:induction false} CouponKeepsName(a: OrderData, b: OrderData, def: Defaults, k: nat, i: nat)
    requires Sellable(a, def) && Sellable(b, def) && k < |Created(a, def).lines| && i < |Built(b, def)|
    requires IsCoupon(Built(b, def)[i]) && Matched(Created(a, def).lines[k], Built(b, def)[i])
    ensures FinalLine(Created(a, def).lines[k], Built(b, def)).name == Built(b, def)[i].name
  {
    var l, d := Created(a, def).lines[k], Built(b, def)[i];
    KeysKept(a, b, def);
    assert Keyed(d);
    var j := BehindLine(a, def, k);
    CouponNameAt(b, def, i);
    hide Built, Created, FinalLine, CouponNames;
    if l.product != 0 {
      CouponLineNamed(l, k, Built(a, def)[j], d, b, def);
    }
  }

  /** A line that a coupon of b finds is on the discount product and has the coupon's name. */
  lemma {:induction false} CouponLineNamed(l: Line, k: nat, v: ProductVals, d: ProductVals, b: OrderData, def: Defaults)
    requires Sellable(b, def) && Standard(v, def) && IsDeduction(d, def) && IsCoupon(d) && d.name in CouponNames(b.coupons)
    requires l == NewLine(k, v) && Matched(l, d)
    ensures FinalLine(l, Built(b, def)).name == d.name
  {
    SameMatched(l, NewLine(0, v), d);
    FindsIff(d, v, def);
    hide Built, FinalLine, CouponNames, Matched;
    FinalName(k, v, b, def);
  }

  /** Which dictionaries of the same data find each other's lines. */
  lemma {:induction false} FindsAnother(b: OrderData, def: Defaults, i: nat, j: nat)
    requires Sellable(b, def) && i < |Built(b, def)| && j < |Built(b, def)| && i != j
    requires Finds(Built(b, def)[i], Built(b, def)[j])
    ensures var d, v := Built(b, def)[i], Built(b, def)[j];
            || (IsTax(d, def) && IsTax(v, def) && TaxCount(b.taxes) >= 2)
            || (b.discount > 0 && IsDeduction(d, def) && IsDeduction(v, def)
                && (IsCoupon(v) || (j == 0 && IsCoupon(d) && d.name == "Discounts")))
  {
    var d, v := Built(b, def)[i], Built(b, def)[j];
    KindAt(b, def, i);
    KindAt(b, def, j);
    BuiltAt(b, def, i);
    BuiltAt(b, def, j);
    PartsAre(b, def);
    hide Built, Deductions, Fees, Taxes, Items, Finds;
    if i < FeesFrom(b, def) {
      FindsIff(d, v, def);
      DeductionAt(b, def, i);
      DeductionAt(b, def, j);
    } else {
      FindsIff(d, v, def);
      FeesAre(b, def);
      ItemsAre(b, def);
    }
  }

  lemma {:induction false} NothingNewIf(a: OrderData, b: OrderData, def: Defaults)
    requires Sellable(a, def) && Sellable(b, def) && !UpdateRaises(a, b) && !TwiceRaises(a, b)
    ensures NothingNewFound(Created(a, def).lines, Built(b, def))
  {
    var lines, ps := Created(a, def).lines, Built(b, def);
    forall i, j | 0 <= i < |ps| && 0 <= j < |ps| && i != j && Finds(ps[i], ps[j]) ensures Matches(lines, ps[j]) != [] {
      FoundAnyway(a, b, def, i, j);
    }
    forall i, k | 0 <= i < |ps| && 0 <= k < |lines| && !Matched(lines[k], ps[i])
      ensures !Matched(FinalLine(lines[k], ps), ps[i])
    {
      NotRenamed(a, b, def, i, k);
    }
  }

  lemma {:induction false} FoundAnyway(a: OrderData, b: OrderData, def: Defaults, i: nat, j: nat)
    requires Sellable(a, def) && Sellable(b, def) && !UpdateRaises(a, b) && !TwiceRaises(a, b)
    requires i < |Built(b, def)| && j < |Built(b, def)| && i != j && Finds(Built(b, def)[i], Built(b, def)[j])
    ensures Matches(Created(a, def).lines, Built(b, def)[j]) != []
  {
    var d, v := Built(b, def)[i], Built(b, def)[j];
    FindsAnother(b, def, i, j);
    FoundAt(a, b, def, j);
    FoundByKind(a, def, v);
    if IsTax(v, def) {
    } else if IsCoupon(v) {
      CouponNameAt(b, def, j);
      FoundByCoupon(a, def, v);
      CouponIndex(b, v.name);
    } else {
      CouponNameAt(b, def, i);
      CouponIndex(b, d.name);
    }
  }

  lemma {:induction false} CouponIndex(b: OrderData, name: string)
    requires name in CouponNames(b.coupons)
    ensures exists k :: 0 <= k < |b.coupons| && b.coupons[k].name == name
  {
    var k :| 0 <= k < |CouponNames(b.coupons)| && CouponNames(b.coupons)[k] == name;
    assert b.coupons[k].name == name;
  }

  lemma {:induction false} NotRenamed(a: OrderData, b: OrderData, def: Defaults, i: nat, k: nat)
    requires Sellable(a, def) && Sellable(b, def) && !TwiceRaises(a, b)
    requires i < |Built(b, def)| && k < |Created(a, def).lines| && !Matched(Created(a, def).lines[k], Built(b, def)[i])
    ensures !Matched(FinalLine(Created(a, def).lines[k], Built(b, def)), Built(b, def)[i])
  {
    var l, ps := Created(a, def).lines[k], Built(b, def);
    var f := FinalLine(l, ps);
    KeysKept(a, b, def);
    FinalKeys(l, ps);
    var j := BehindLine(a, def, k);
    hide Built, Created, FinalLine, AllKeyed, DisplaysUnkeyed;
    if l.product == 0 {
      DisplayIsFixed(l, ps);
    } else if Matched(f, ps[i]) {
      RenamedByCoupon(l, f, ps[i]);
      CouponNameAt(b, def, i);
      FoundDeduction(f, k, Built(a, def)[j], ps[i], def);
      NewName(a, b, def, k, j, ps[i].name);
    }
  }

  /** A merge changes neither key of a line. */
  lemma {:induction false} FinalKeys(l: Line, ps: seq<ProductVals>)
    ensures FinalLine(l, ps).storeId == l.storeId && FinalLine(l, ps).product == l.product
  {
    RewrittenId(l, WritersOf(l, ps));
    SameStoreId(l, l, ps);
  }

  lemma {:induction false} RenamedByCoupon(l: Line, f: Line, d: ProductVals)
    requires f.storeId == l.storeId && f.product == l.product && Matched(f, d) && !Matched(l, d)
    ensures IsCoupon(d) && f.name == d.name != l.name
  {
    if f.name == l.name {
      SameMatched(f, l, d);
    }
  }

  lemma {:induction false} FoundDeduction(f: Line, id: nat, v: ProductVals, d: ProductVals, def: Defaults)
    requires DefaultsApart(def) && IsDeduction(d, def) && Standard(v, def)
    requires f.product == NewLine(id, v).product && Matched(f, d)
    ensures IsDeduction(v, def)
  {
  }

  /** Only a lone line on the discount product is renamed, and then no coupon of b has its new name. */
  lemma {:induction false} NewName(a: OrderData, b: OrderData, def: Defaults, k: nat, j: nat, name: string)
    requires Sellable(a, def) && Sellable(b, def) && !TwiceRaises(a, b)
    requires j < |Built(a, def)| && IsDeduction(Built(a, def)[j], def) && name in CouponNames(b.coupons)
    ensures var l := NewLine(k, Built(a, def)[j]);
            l.name != name ==> FinalLine(l, Built(b, def)).name != name
  {
    var v := Built(a, def)[j];
    FinalName(k, v, b, def);
    KindAt(a, def, j);
    BuiltAt(a, def, j);
    DeductionAt(a, def, j);
    CouponIndex(b, name);
  }

  lemma {:induction false} TwoTaxPlaces(b: OrderData, def: Defaults) returns (i: nat)
    requires Sellable(b, def) && TaxCount(b.taxes) >= 2
    ensures i + 1 < |Built(b, def)| && IsTax(Built(b, def)[i], def) && IsTax(Built(b, def)[i + 1], def)
  {
    i := TaxesFrom(b, def);
    BuiltIs(b, def);
    PartsAre(b, def);
    KindAt(b, def, i);
    KindAt(b, def, i + 1);
  }

  lemma {:induction false} CouponPlace(b: OrderData, def: Defaults, k: nat) returns (j: nat)
    requires Sellable(b, def) && b.discount > 0 && k < |b.coupons|
    ensures 0 < j < |Built(b, def)| && IsDeduction(Built(b, def)[j], def) && IsCoupon(Built(b, def)[j])
    ensures Built(b, def)[j].name == b.coupons[k].name
    ensures IsDeduction(Built(b, def)[0], def) && !IsCoupon(Built(b, def)[0])
  {
    j := k + 1;
    BuiltIs(b, def);
    PartsAre(b, def);
    hide Built, Deductions, Fees, Taxes, Items;
    KindAt(b, def, 0);
    KindAt(b, def, j);
    BuiltAt(b, def, 0);
    BuiltAt(b, def, j);
    DeductionAt(b, def, 0);
    DeductionAt(b, def, j);
  }

  /** Two dictionaries of b, the second without a line in the order, that find one line. */
  lemma {:induction false} NewPlaces(a: OrderData, b: OrderData, def: Defaults) returns (i: nat, j: nat)
    requires Sellable(a, def) && Sellable(b, def) && !UpdateRaises(a, b) && TwiceRaises(a, b)
    ensures i < |Built(b, def)| && j < |Built(b, def)| && i != j
    ensures var d, v := Built(b, def)[i], Built(b, def)[j];
            || (IsTax(d, def) && IsTax(v, def) && TaxCount(a.taxes) == 0)
            || (IsDeduction(d, def) && !IsCoupon(d) && IsDeduction(v, def) && IsCoupon(v) && v.name !in DeductionNames(a))
  {
    hide Built, IsTax, IsDeduction;
    if TaxCount(a.taxes) == 0 && TaxCount(b.taxes) >= 2 {
      i := TwoTaxPlaces(b, def);
      j := i + 1;
    } else {
      var k :| 0 <= k < |b.coupons| && !OnlyNamed(a, b.coupons[k].name);
      i := 0;
      j := CouponPlace(b, def, k);
    }
  }

  lemma {:induction false} SomethingNewIf(a: OrderData, b: OrderData, def: Defaults)
    requires Sellable(a, def) && Sellable(b, def) && !UpdateRaises(a, b) && TwiceRaises(a, b)
    ensures !NothingNewFound(Created(a, def).lines, Built(b, def))
  {
    var i, j := NewPlaces(a, b, def);
    var d, v := Built(b, def)[i], Built(b, def)[j];
    FindsIff(d, v, def);
    FoundAt(a, b, def, j);
    FoundByKind(a, def, v);
    if IsCoupon(v) {
      FoundByCoupon(a, def, v);
    }
    assert d.price.Some? && Matches(Created(a, def).lines, v) == [] && Matched(NewLine(0, v), d);
  }

  /** Once accepted, the same data is accepted again exactly when the update created no second tax line and no
      second line on the discount product; then it changes nothing and holds no create command. */
  lemma {:induction false} UpdatedTwice(a: OrderData, b: OrderData, def: Defaults)
    requires Sellable(a, def) && Sellable(b, def) && !UpdateRaises(a, b)
    ensures var o, ds := Created(a, def), BuiltLines(b, def);
            && MergeCommands(o.lines, ds).Commands?
            && var o1 := Apply(o, MergeCommands(o.lines, ds).cmds);
               && (MergeCommands(o1.lines, ds).NotSingleton? <==> TwiceRaises(a, b))
               && (!TwiceRaises(a, b) ==>
                     && Apply(o1, MergeCommands(o1.lines, ds).cmds) == o1
                     && forall c :: c in MergeCommands(o1.lines, ds).cmds ==> !c.Create?)
  {
    UpdateRaisesIff(a, b, def);
    CreatedWellFormed(a, def);
    KeysKept(a, b, def);
    CouponsKeepNames(a, b, def);
    MergeTwice(Created(a, def), BuiltLines(b, def));
    if TwiceRaises(a, b) {
      SomethingNewIf(a, b, def);
    } else {
      NothingNewIf(a, b, def);
    }
  }

  // ------------------------------------------------------------------ Amazon

  /** Items with ids of their own, resolved to products that are no default products. */
  predicate ItemsLookable(items: seq<Item>, rs: seq<Resolved>, def: Defaults)
    requires |items| == |rs|
  {
    && DefaultsApart(def)
    && (forall k :: 0 <= k < |rs| ==> rs[k].units > 0 && rs[k].product != 0 && rs[k].product !in DefaultProducts(def))
    && (forall k :: 0 <= k < |items| ==> items[k].id != "")
    && forall j, k :: 0 <= j < k < |items| ==> items[j].id != items[k].id
  }

  lemma {:induction false} ImportedLineAt(items: seq<Item>, rs: seq<Resolved>, k: nat)
    requires |items| == |rs| && k < |rs| && forall j :: 0 <= j < |rs| ==> rs[j].units > 0
    ensures |ImportedLines(items, rs)| == |items| && ImportedLines(items, rs)[k] == ImportedLine(items[k], rs[k])
  {
    if k == 0 {
      if |items| > 1 {
        ImportedLineAt(items[1..], rs[1..], 0);
      }
    } else {
      ImportedLineAt(items[1..], rs[1..], k - 1);
    }
  }

  lemma {:induction false} AmazonSellable(items: seq<Item>, rs: seq<Resolved>, def: Defaults)
    requires |items| == |rs| && ItemsLookable(items, rs, def)
    ensures Sellable(TransformedOrder(items, rs), def) && TaxCount(TransformedOrder(items, rs).taxes) <= 1
    ensures LostTaxes(TransformedOrder(items, rs).taxes) == 0 && CouponNames(TransformedOrder(items, rs).coupons) == []
    ensures |DeductionNames(TransformedOrder(items, rs))| <= 1
  {
    var data := TransformedOrder(items, rs);
    var lines := ImportedLines(items, rs);
    if items != [] {
      ImportedLineAt(items, rs, 0);
    }
    forall k | 0 <= k < |lines| ensures |lines| == |items| && lines[k] == ImportedLine(items[k], rs[k]) {
      ImportedLineAt(items, rs, k);
    }
    assert data.taxes[1..] == [] && SumOf(data.taxes[1..], PositiveAmountOf) == 0;
    assert TaxCount(data.taxes[1..]) == 0 && LastPositive(data.taxes[1..]) == 0;
  }

  /** From the first import to the update: a confirmed Amazon order updated with newer items is accepted,
      any number of times, and differs from what the store now asks by no more than unit price rounding. */
  lemma {:induction false} AmazonOrderUpdated(items: seq<Item>, rs: seq<Resolved>, newItems: seq<Item>, newRs: seq<Resolved>,
                                              def: Defaults)
    requires |items| == |rs| && ItemsLookable(items, rs, def)
    requires |newItems| == |newRs| && ItemsLookable(newItems, newRs, def)
    ensures var o, ds := Created(TransformedOrder(items, rs), def), BuiltLines(TransformedOrder(newItems, newRs), def);
            && MergeCommands(o.lines, ds).Commands?
            && var o1 := Apply(o, MergeCommands(o.lines, ds).cmds);
               && -ErrorBound(newItems, newRs) <= 2 * (AmountTotal(o1.lines) - SumOf(newItems, StoreAmountOf))
                  <= ErrorBound(newItems, newRs)
               && MergeCommands(o1.lines, ds).Commands? && Apply(o1, MergeCommands(o1.lines, ds).cmds) == o1
  {
    var a, b := TransformedOrder(items, rs), TransformedOrder(newItems, newRs);
    AmazonSellable(items, rs, def);
    AmazonSellable(newItems, newRs, def);
    UpdatedTotal(a, b, def);
    UpdatedTwice(a, b, def);
    OnlyUnitPricesRound(Order([], 0), newItems, newRs, def);
    LinesError(newItems, newRs);
  }
}
