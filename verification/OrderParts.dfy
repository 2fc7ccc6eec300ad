/** The dictionaries an order is built from, by kind, and which of them find which lines of a created order.
    Discounts and coupons share one default product and are told apart by name; each fee has a default product
    of its own; all taxes share one; product lines are found by their store ids. How many lines of a created
    order a dictionary finds is counted part by part, because each part holds dictionaries of one kind and a
    dictionary finds only lines of its own kind. */
module OrderParts {
  import opened Options
  import opened Sequences
  import opened OrderLines
  import opened OrderUpdate
  import opened OrderMergeLaws
  import opened OrderMergeTwice
  import opened OrderBuilder

  // ------------------------------------------------------------------ store data

  function DefaultProducts(def: Defaults): set<nat> {
    {def.discount, def.shipping, def.handling, def.wrapping, def.otherFees, def.tax}
  }

  /** The channel has a default product of its own for each kind of line. */
  predicate DefaultsApart(def: Defaults) {
    && 0 !in DefaultProducts(def)
    && def.discount !in {def.shipping, def.handling, def.wrapping, def.otherFees, def.tax}
    && def.tax !in {def.shipping, def.handling, def.wrapping, def.otherFees}
    && def.shipping !in {def.handling, def.wrapping, def.otherFees}
    && def.handling !in {def.wrapping, def.otherFees} && def.wrapping != def.otherFees
  }

  /** Coupons are a dictionary by code; product lines have ids of their own and are of products that are
      no default products. */
  predicate Sellable(data: OrderData, def: Defaults) {
    && DefaultsApart(def)
    && (forall i, j :: 0 <= i < j < |data.coupons| ==> data.coupons[i].name != data.coupons[j].name)
    && (forall i :: 0 <= i < |data.lines| ==>
          data.lines[i].storeId != "" && data.lines[i].product != 0 && data.lines[i].product !in DefaultProducts(def))
    && forall i, j :: 0 <= i < j < |data.lines| ==> data.lines[i].storeId != data.lines[j].storeId
  }

  // ------------------------------------------------------------------ the dictionaries, part by part

  function Deductions(data: OrderData, def: Defaults): seq<ProductVals> { ProductData(DiscountLines(data, def)) }
  function Fees(data: OrderData, def: Defaults): seq<ProductVals> { ProductData(FeeLines(data, def)) }
  function Taxes(data: OrderData, def: Defaults): seq<ProductVals> { ProductData(TaxLines(data, def)) }
  function Items(data: OrderData): seq<ProductVals> { ProductData(StoreLines(data.lines)) }
  function Built(data: OrderData, def: Defaults): seq<ProductVals> { ProductData(BuiltLines(data, def)) }

  lemma {:induction false} BuiltIs(data: OrderData, def: Defaults)
    ensures Built(data, def) == Deductions(data, def) + Fees(data, def) + Taxes(data, def) + Items(data)
  {
    var a, b, c, d := DiscountLines(data, def), FeeLines(data, def), TaxLines(data, def), StoreLines(data.lines);
    ProductDataAppend(a, b);
    ProductDataAppend(a + b, c);
    ProductDataAppend(a + b + c, d);
  }

  lemma {:induction false} NoProducts(name: string)
    ensures ProductData([]) == [] && ProductData([Section(name)]) == []
  {
    assert [Section(name)][1..] == [];
  }

  lemma {:induction false} OneProduct(v: ProductVals)
    ensures ProductData([v]) == [v]
  {
    assert [v][1..] == [] && ProductData([]) == [];
  }

  lemma {:induction false} CouponsData(product: nat, cs: seq<NamedAmount>)
    ensures |ProductData(CouponLines(product, cs))| == |cs|
    ensures forall i :: 0 <= i < |cs| ==> ProductData(CouponLines(product, cs))[i] == CouponLine(product, cs[i])
  {
    if cs != [] {
      CouponsData(product, cs[1..]);
      assert ProductData(CouponLines(product, cs)) ==
             [CouponLine(product, cs[0])] + ProductData(CouponLines(product, cs[1..]));
    }
  }

  /** The discount comes first, if there is one, then a coupon line for each code. */
  lemma {:induction false} DeductionsAre(data: OrderData, def: Defaults)
    ensures Deductions(data, def) ==
            (if data.discount > 0 then [DiscountLine(def.discount, data.discount)] else [])
            + ProductData(CouponLines(def.discount, data.coupons))
  {
    var head: seq<Vals> := if data.discount > 0 || data.coupons != [] then [Section("Discounts")] else [];
    var note: seq<Vals> := if data.discountNotes != [] then [Section(JoinNotes(data.discountNotes))] else [];
    var middle: seq<Vals> := if data.discount > 0 then [DiscountLine(def.discount, data.discount)] + note else [];
    var coupons := CouponLines(def.discount, data.coupons);
    NoProducts("Discounts");
    NoProducts(JoinNotes(data.discountNotes));
    OneProduct(DiscountLine(def.discount, data.discount));
    ProductDataAppend([DiscountLine(def.discount, data.discount)], note);
    ProductDataAppend(head, middle);
    ProductDataAppend(head + middle, coupons);
    assert DiscountLines(data, def) == head + middle + coupons;
  }

  /** The names of the lines on the discount product. */
  function DeductionNames(data: OrderData): seq<string> {
    (if data.discount > 0 then ["Discounts"] else []) + CouponNames(data.coupons)
  }

  function CouponNames(cs: seq<NamedAmount>): (r: seq<string>)
    ensures |r| == |cs| && forall i :: 0 <= i < |cs| ==> r[i] == cs[i].name
  {
    if cs == [] then [] else [cs[0].name] + CouponNames(cs[1..])
  }

  lemma {:induction false} DeductionAt(data: OrderData, def: Defaults, i: nat)
    requires i < |Deductions(data, def)|
    ensures |Deductions(data, def)| == |DeductionNames(data)|
    ensures var v := Deductions(data, def)[i];
            && v.product == Some(def.discount) && v.storeId == "" && v.qty == None && v.price.Some? && IsNonProduct(v)
            && v.name == DeductionNames(data)[i]
            && (i == 0 && data.discount > 0 ==> v == DiscountLine(def.discount, data.discount) && !IsCoupon(v))
            && (i > 0 || data.discount <= 0 ==>
                  var k := if data.discount > 0 then i - 1 else i;
                  k < |data.coupons| && v == CouponLine(def.discount, data.coupons[k]) && IsCoupon(v))
  {
    DeductionsAre(data, def);
    CouponsData(def.discount, data.coupons);
    var v := Deductions(data, def)[i];
    assert v.flags == map[Discount := true] || v.flags == map[Coupon := true];
    assert v.flags[if v.flags == map[Discount := true] then Discount else Coupon];
  }

  function FeeProducts(def: Defaults): set<nat> { {def.shipping, def.handling, def.wrapping, def.otherFees} }

  function KeyProducts(keys: seq<(nat, string, Flag, int)>): set<nat> {
    set k | 0 <= k < |keys| :: keys[k].0
  }

  lemma {:induction false} KeyProductsCons(keys: seq<(nat, string, Flag, int)>)
    requires keys != [] && forall i, j :: 0 <= i < j < |keys| ==> keys[i].0 != keys[j].0
    ensures keys[0].0 in KeyProducts(keys) && keys[0].0 !in KeyProducts(keys[1..]) && KeyProducts(keys[1..]) <= KeyProducts(keys)
  {
    forall p | p in KeyProducts(keys[1..]) ensures p in KeyProducts(keys) {
      var k :| 0 <= k < |keys[1..]| && keys[1..][k].0 == p;
      assert keys[k + 1].0 == p;
    }
  }

  lemma {:induction false} FeesCons(key: (nat, string, Flag, int), later: seq<ProductVals>, fewer: set<nat>, products: set<nat>)
    requires AreFees(later, fewer) && fewer <= products && key.0 in products && key.0 !in fewer
    requires key.2 in {Delivery, Handling, Wrapping, OtherFees}
    ensures AreFees([FeeLine(key.0, key.1, key.2, key.3)] + later, products) && AreFees(later, products)
  {
    var fees: seq<ProductVals> := [FeeLine(key.0, key.1, key.2, key.3)] + later;
    assert fees[0].flags[key.2];
    assert forall i :: 0 < i < |fees| ==> fees[i] == later[i - 1];
  }

  lemma {:induction false} FeesData(keys: seq<(nat, string, Flag, int)>)
    requires forall i, j :: 0 <= i < j < |keys| ==> keys[i].0 != keys[j].0
    requires forall i :: 0 <= i < |keys| ==> keys[i].2 in {Delivery, Handling, Wrapping, OtherFees}
    ensures AreFees(ProductData(PositiveFees(keys)), KeyProducts(keys))
  {
    if keys != [] {
      var key, rest := keys[0], keys[1..];
      var later := ProductData(PositiveFees(rest));
      assert forall i :: 0 <= i < |rest| ==> rest[i] == keys[i + 1];
      FeesData(rest);
      KeyProductsCons(keys);
      FeesCons(key, later, KeyProducts(rest), KeyProducts(keys));
      hide AreFees, KeyProducts;
      if key.3 > 0 {
        assert ProductData(PositiveFees(keys)) == [FeeLine(key.0, key.1, key.2, key.3)] + later;
      } else {
        assert PositiveFees(keys) == PositiveFees(rest);
      }
    }
  }

  /** Fee lines, each of another product, all among the given ones. */
  ghost predicate AreFees(fees: seq<ProductVals>, products: set<nat>) {
    && (forall i, j :: 0 <= i < j < |fees| ==> fees[i].product != fees[j].product)
    && forall i :: 0 <= i < |fees| ==>
         && fees[i].storeId == "" && fees[i].qty == Some(1.0) && fees[i].price.Some?
         && IsNonProduct(fees[i]) && !IsCoupon(fees[i]) && fees[i].product.value in products
  }

  lemma {:induction false} FeesAre(data: OrderData, def: Defaults)
    requires DefaultsApart(def)
    ensures AreFees(Fees(data, def), FeeProducts(def))
  {
    var keys := FeeKeys(data, def);
    FeesData(keys);
    NoProducts("Other Fees");
    ProductDataAppend(PositiveFees(keys), [Section("Other Fees")]);
    assert Fees(data, def) == ProductData(PositiveFees(keys));
    assert KeyProducts(keys) <= FeeProducts(def);
  }

  /** How many taxes get a line. */
  function TaxCount(ts: seq<NamedAmount>): nat {
    if ts == [] then 0 else (if ts[0].amount > 0 then 1 else 0) + TaxCount(ts[1..])
  }

  function LastPositive(ts: seq<NamedAmount>): int {
    if ts == [] then 0 else if TaxCount(ts[1..]) > 0 || ts[0].amount <= 0 then LastPositive(ts[1..]) else ts[0].amount
  }

  /** What the positive taxes but the last one amount to. */
  function LostTaxes(ts: seq<NamedAmount>): int { SumOf(ts, PositiveAmountOf) - LastPositive(ts) }

  lemma {:induction false} TaxAmount(product: nat, t: NamedAmount)
    ensures NewAmount(TaxLine(product, t)) == t.amount
  {
    SubtotalOfCents(t.amount, 1);
  }

  lemma {:induction false} MoreTaxes(product: nat, ts: seq<NamedAmount>)
    requires ts != []
    ensures var taxes, rest := ProductData(PositiveTaxes(product, ts)), ProductData(PositiveTaxes(product, ts[1..]));
            taxes == if ts[0].amount > 0 then [TaxLine(product, ts[0])] + rest else rest
  {
    var vals, rest := PositiveTaxes(product, ts), PositiveTaxes(product, ts[1..]);
    if ts[0].amount > 0 {
      assert vals == [TaxLine(product, ts[0])] + rest && vals[1..] == rest;
    } else {
      assert vals == rest;
    }
  }

  lemma {:induction false} TaxesData(product: nat, ts: seq<NamedAmount>)
    ensures var taxes := ProductData(PositiveTaxes(product, ts));
            && |taxes| == TaxCount(ts)
            && forall i :: 0 <= i < |taxes| ==>
                 && taxes[i].storeId == "" && taxes[i].product == Some(product) && taxes[i].qty == Some(1.0)
                 && taxes[i].price.Some? && IsNonProduct(taxes[i]) && !IsCoupon(taxes[i])
  {
    if ts != [] {
      var rest, v := ProductData(PositiveTaxes(product, ts[1..])), TaxLine(product, ts[0]);
      TaxesData(product, ts[1..]);
      MoreTaxes(product, ts);
      assert v.flags[Tax];
      var taxes := ProductData(PositiveTaxes(product, ts));
      if ts[0].amount > 0 {
        assert forall i :: 0 < i < |taxes| ==> taxes[i] == rest[i - 1];
      }
    }
  }

  lemma {:induction false} TaxesAmount(product: nat, ts: seq<NamedAmount>)
    ensures var taxes := ProductData(PositiveTaxes(product, ts));
            && |taxes| == TaxCount(ts) && SumNew(taxes) == SumOf(ts, PositiveAmountOf)
            && (taxes != [] ==> NewAmount(taxes[|taxes| - 1]) == LastPositive(ts))
  {
    if ts != [] {
      var rest := ProductData(PositiveTaxes(product, ts[1..]));
      TaxesAmount(product, ts[1..]);
      MoreTaxes(product, ts);
      TaxAmount(product, ts[0]);
      hide PositiveTaxes, ProductData, NewAmount;
      if ts[0].amount > 0 {
        assert ([TaxLine(product, ts[0])] + rest)[1..] == rest;
      }
    }
  }

  lemma {:induction false} TaxesAre(data: OrderData, def: Defaults)
    ensures Taxes(data, def) == ProductData(PositiveTaxes(def.tax, data.taxes))
  {
    var vals := PositiveTaxes(def.tax, data.taxes);
    var note: seq<Vals> := if data.taxNotes != [] then [Section(JoinNotes(data.taxNotes))] else [];
    NoProducts("Taxes");
    NoProducts(JoinNotes(data.taxNotes));
    ProductDataAppend([Section("Taxes")], vals);
    ProductDataAppend([Section("Taxes")] + vals, note);
    if data.taxes == [] {
      assert vals == [];
    } else if vals == [] {
      assert TaxLines(data, def) == note;
    } else {
      assert TaxLines(data, def) == [Section("Taxes")] + vals + note;
    }
  }

  lemma {:induction false} StoreData(ls: seq<ProductLine>)
    ensures |ProductData(StoreLines(ls))| == |ls|
    ensures forall i :: 0 <= i < |ls| ==> ProductData(StoreLines(ls))[i] == StoreLine(ls[i])
  {
    if ls != [] {
      StoreData(ls[1..]);
      assert ProductData(StoreLines(ls)) == [StoreLine(ls[0])] + ProductData(StoreLines(ls[1..]));
    }
  }

  // ------------------------------------------------------------------ where each dictionary is

  /** The kinds of dictionaries, by what they are looked up by. */
  predicate IsDeduction(v: ProductVals, def: Defaults) {
    && v.storeId == "" && v.product == Some(def.discount) && v.qty == None && v.price.Some? && IsNonProduct(v)
    && (v.name != "Discounts" ==> IsCoupon(v))
  }

  predicate IsFee(v: ProductVals, def: Defaults) {
    && v.storeId == "" && v.product.value in FeeProducts(def) && v.qty.Some? && v.price.Some?
    && IsNonProduct(v) && !IsCoupon(v)
  }

  predicate IsTax(v: ProductVals, def: Defaults) {
    && v.storeId == "" && v.product == Some(def.tax) && v.qty == Some(1.0) && v.price.Some?
    && IsNonProduct(v) && !IsCoupon(v)
  }

  predicate IsItem(v: ProductVals, def: Defaults) {
    && v.storeId != "" && v.product.value != 0 && v.product.value !in DefaultProducts(def)
    && v.qty.Some? && v.price.Some? && !IsNonProduct(v) && !IsCoupon(v)
  }

  lemma {:induction false} ItemsAre(data: OrderData, def: Defaults)
    requires Sellable(data, def)
    ensures forall i :: 0 <= i < |Items(data)| ==> IsItem(Items(data)[i], def)
    ensures forall i, j :: 0 <= i < j < |Items(data)| ==> Items(data)[i].storeId != Items(data)[j].storeId
  {
    StoreData(data.lines);
  }

  function FeesFrom(data: OrderData, def: Defaults): nat { |Deductions(data, def)| }
  function TaxesFrom(data: OrderData, def: Defaults): nat { FeesFrom(data, def) + |Fees(data, def)| }
  function ItemsFrom(data: OrderData, def: Defaults): nat { TaxesFrom(data, def) + |Taxes(data, def)| }

  lemma {:induction false} IndexInParts(a: seq<ProductVals>, b: seq<ProductVals>, c: seq<ProductVals>, d: seq<ProductVals>, i: nat)
    requires i < |a + b + c + d|
    ensures var v, x, y := (a + b + c + d)[i], |a| + |b|, |a| + |b| + |c|;
            && (i < |a| ==> v == a[i]) && (|a| <= i < x ==> v == b[i - |a|])
            && (x <= i < y ==> v == c[i - x]) && (y <= i ==> i - y < |d| && v == d[i - y])
  {
  }

  /** The dictionary at an index, by the part the index is in. */
  lemma {:induction false} BuiltAt(data: OrderData, def: Defaults, i: nat)
    requires Sellable(data, def) && i < |Built(data, def)|
    ensures var v, x, y, z := Built(data, def)[i], FeesFrom(data, def), TaxesFrom(data, def), ItemsFrom(data, def);
            && (i < x ==> v == Deductions(data, def)[i])
            && (x <= i < y ==> v == Fees(data, def)[i - x])
            && (y <= i < z ==> v == Taxes(data, def)[i - y])
            && (z <= i ==> i - z < |Items(data)| && v == Items(data)[i - z])
  {
    BuiltIs(data, def);
    hide Deductions, Fees, Taxes, Items, Built;
    IndexInParts(Deductions(data, def), Fees(data, def), Taxes(data, def), Items(data), i);
  }

  /** Its kind tells the part. */
  lemma {:induction false} KindAt(data: OrderData, def: Defaults, i: nat)
    requires Sellable(data, def) && i < |Built(data, def)|
    ensures var v, x, y, z := Built(data, def)[i], FeesFrom(data, def), TaxesFrom(data, def), ItemsFrom(data, def);
            && (i < x ==> IsDeduction(v, def)) && (x <= i < y ==> IsFee(v, def))
            && (y <= i < z ==> IsTax(v, def)) && (z <= i ==> IsItem(v, def))
  {
    BuiltAt(data, def, i);
    if i < FeesFrom(data, def) {
      DeductionAt(data, def, i);
    } else if i < TaxesFrom(data, def) {
      FeesAre(data, def);
    } else if i < ItemsFrom(data, def) {
      TaxesAre(data, def);
      TaxesData(def.tax, data.taxes);
    } else {
      ItemsAre(data, def);
    }
  }

  // ------------------------------------------------------------------ what finds what

  predicate Standard(v: ProductVals, def: Defaults) {
    IsDeduction(v, def) || IsFee(v, def) || IsTax(v, def) || IsItem(v, def)
  }

  lemma {:induction false} BuiltStandard(data: OrderData, def: Defaults)
    requires Sellable(data, def)
    ensures forall i :: 0 <= i < |Built(data, def)| ==> Standard(Built(data, def)[i], def)
  {
    forall i | 0 <= i < |Built(data, def)| ensures Standard(Built(data, def)[i], def) {
      KindAt(data, def, i);
    }
  }

  /** Does d find the line created from v? */
  predicate Finds(d: ProductVals, v: ProductVals) { Matched(NewLine(0, v), d) }

  /** By store id, or by product and, for a coupon, name. */
  lemma {:induction false} FindsIff(d: ProductVals, v: ProductVals, def: Defaults)
    requires DefaultsApart(def) && Standard(d, def) && Standard(v, def)
    ensures Finds(d, v) <==> if IsItem(d, def) then v.storeId == d.storeId
                             else v.product == d.product && (IsCoupon(d) ==> v.name == d.name)
  {
  }

  function FoundCount(ps: seq<ProductVals>, d: ProductVals): nat {
    if ps == [] then 0 else (if Finds(d, ps[0]) then 1 else 0) + FoundCount(ps[1..], d)
  }

  lemma {:induction false} FoundAppend(a: seq<ProductVals>, b: seq<ProductVals>, d: ProductVals)
    ensures FoundCount(a + b, d) == FoundCount(a, d) + FoundCount(b, d)
  {
    if a == [] {
      assert a + b == b;
    } else {
      assert (a + b)[1..] == a[1..] + b;
      FoundAppend(a[1..], b, d);
    }
  }

  lemma {:induction false} FoundNone(ps: seq<ProductVals>, d: ProductVals)
    requires forall i :: 0 <= i < |ps| ==> !Finds(d, ps[i])
    ensures FoundCount(ps, d) == 0
  {
    if ps != [] {
      assert forall i :: 0 <= i < |ps[1..]| ==> ps[1..][i] == ps[i + 1];
      FoundNone(ps[1..], d);
    }
  }

  lemma {:induction false} FoundAll(ps: seq<ProductVals>, d: ProductVals)
    requires forall i :: 0 <= i < |ps| ==> Finds(d, ps[i])
    ensures FoundCount(ps, d) == |ps|
  {
    if ps != [] {
      assert forall i :: 0 <= i < |ps[1..]| ==> ps[1..][i] == ps[i + 1];
      FoundAll(ps[1..], d);
    }
  }

  lemma {:induction false} FoundApart(ps: seq<ProductVals>, d: ProductVals)
    ensures FoundCount(ps, d) <= 1 <==> forall i, j :: 0 <= i < j < |ps| ==> !(Finds(d, ps[i]) && Finds(d, ps[j]))
    ensures FoundCount(ps, d) == 0 <==> forall i :: 0 <= i < |ps| ==> !Finds(d, ps[i])
  {
    if ps != [] {
      var rest := ps[1..];
      FoundApart(rest, d);
      assert forall i :: 0 <= i < |rest| ==> rest[i] == ps[i + 1];
      assert forall i :: 0 < i < |ps| ==> ps[i] == rest[i - 1];
    }
  }

  /** Sections and notes have no store id. */
  ghost predicate PlainDisplays(vs: seq<Vals>) {
    forall i :: 0 <= i < |vs| && vs[i].product.None? ==> vs[i].storeId == ""
  }

  lemma {:induction false} MatchesAreFound(id: nat, vs: seq<Vals>, d: ProductVals, def: Defaults)
    requires DefaultsApart(def) && Standard(d, def) && PlainDisplays(vs)
    ensures |Matches(NewLines(id, vs), d)| == FoundCount(ProductData(vs), d)
    decreases |vs|
  {
    if vs != [] {
      assert NewLines(id, vs)[1..] == NewLines(id + 1, vs[1..]);
      assert forall i :: 0 <= i < |vs[1..]| ==> vs[1..][i] == vs[i + 1];
      MatchesAreFound(id + 1, vs[1..], d, def);
      if vs[0].product.Some? {
        assert ProductData(vs)[1..] == ProductData(vs[1..]);
        SameMatched(NewLine(id, vs[0]), NewLine(0, vs[0]), d);
      }
    }
  }

  lemma {:induction false} FoundInParts(data: OrderData, def: Defaults, d: ProductVals)
    ensures FoundCount(Built(data, def), d) == FoundCount(Deductions(data, def), d) + FoundCount(Fees(data, def), d)
                                               + FoundCount(Taxes(data, def), d) + FoundCount(Items(data), d)
  {
    var a, b, c, e := Deductions(data, def), Fees(data, def), Taxes(data, def), Items(data);
    BuiltIs(data, def);
    FoundAppend(a, b, d);
    FoundAppend(a + b, c, d);
    FoundAppend(a + b + c, e, d);
  }

  ghost predicate AllDeductions(ps: seq<ProductVals>, def: Defaults) { forall i :: 0 <= i < |ps| ==> IsDeduction(ps[i], def) }
  ghost predicate AllFees(ps: seq<ProductVals>, def: Defaults) { forall i :: 0 <= i < |ps| ==> IsFee(ps[i], def) }
  ghost predicate AllTaxes(ps: seq<ProductVals>, def: Defaults) { forall i :: 0 <= i < |ps| ==> IsTax(ps[i], def) }
  ghost predicate AllItems(ps: seq<ProductVals>, def: Defaults) { forall i :: 0 <= i < |ps| ==> IsItem(ps[i], def) }

  lemma {:induction false} PartsAre(data: OrderData, def: Defaults)
    requires Sellable(data, def)
    ensures AllDeductions(Deductions(data, def), def) && AllFees(Fees(data, def), def)
    ensures AllTaxes(Taxes(data, def), def) && AllItems(Items(data), def)
    ensures |Deductions(data, def)| == |DeductionNames(data)| && |Taxes(data, def)| == TaxCount(data.taxes)
  {
    forall i | 0 <= i < |Deductions(data, def)| ensures IsDeduction(Deductions(data, def)[i], def) {
      DeductionAt(data, def, i);
    }
    DeductionsAre(data, def);
    CouponsData(def.discount, data.coupons);
    FeesAre(data, def);
    TaxesAre(data, def);
    TaxesData(def.tax, data.taxes);
    ItemsAre(data, def);
  }

  lemma {:induction false} KindsApart(d: ProductVals, def: Defaults)
    requires DefaultsApart(def)
    ensures IsDeduction(d, def) ==> !IsFee(d, def) && !IsTax(d, def) && !IsItem(d, def)
    ensures IsFee(d, def) ==> !IsTax(d, def) && !IsItem(d, def)
    ensures IsTax(d, def) ==> !IsItem(d, def) && !IsCoupon(d)
  {
  }

  /** How many lines of a created order a dictionary finds, by its kind. */
  lemma {:induction false} FoundByKind(data: OrderData, def: Defaults, d: ProductVals)
    requires Sellable(data, def) && Standard(d, def)
    ensures IsDeduction(d, def) ==> FoundCount(Built(data, def), d) == FoundCount(Deductions(data, def), d)
    ensures IsDeduction(d, def) && !IsCoupon(d) ==> FoundCount(Built(data, def), d) == |DeductionNames(data)|
    ensures IsTax(d, def) ==> FoundCount(Built(data, def), d) == TaxCount(data.taxes)
    ensures IsFee(d, def) || IsItem(d, def) ==> FoundCount(Built(data, def), d) <= 1
  {
    var a, b, c, e := Deductions(data, def), Fees(data, def), Taxes(data, def), Items(data);
    FoundInParts(data, def, d);
    PartsAre(data, def);
    KindsApart(d, def);
    hide Deductions, Fees, Taxes, Items, Built, IsDeduction, IsFee, IsTax, IsItem, Standard, DefaultsApart;
    if !IsDeduction(d, def) {
      NotFoundAmong(a, d, def);
    } else if !IsCoupon(d) {
      FoundAmongSame(a, d, def);
    }
    if !IsFee(d, def) {
      NotFoundAmong(b, d, def);
    } else {
      OneFee(data, def, d);
    }
    if !IsTax(d, def) {
      NotFoundAmong(c, d, def);
    } else {
      FoundAmongSame(c, d, def);
    }
    if !IsItem(d, def) {
      NotFoundAmong(e, d, def);
    } else {
      OneItem(data, def, d);
    }
  }

  lemma {:induction false} NotFoundAmong(ps: seq<ProductVals>, d: ProductVals, def: Defaults)
    requires DefaultsApart(def) && Standard(d, def)
    requires (AllDeductions(ps, def) && !IsDeduction(d, def)) || (AllFees(ps, def) && !IsFee(d, def))
             || (AllTaxes(ps, def) && !IsTax(d, def)) || (AllItems(ps, def) && !IsItem(d, def))
    ensures FoundCount(ps, d) == 0
  {
    forall i | 0 <= i < |ps| ensures !Finds(d, ps[i]) {
      FindsIff(d, ps[i], def);
    }
    FoundNone(ps, d);
  }

  lemma {:induction false} FoundAmongSame(ps: seq<ProductVals>, d: ProductVals, def: Defaults)
    requires DefaultsApart(def) && !IsCoupon(d)
    requires (AllDeductions(ps, def) && IsDeduction(d, def)) || (AllTaxes(ps, def) && IsTax(d, def))
    ensures FoundCount(ps, d) == |ps|
  {
    forall i | 0 <= i < |ps| ensures Finds(d, ps[i]) {
      FindsIff(d, ps[i], def);
    }
    FoundAll(ps, d);
  }

  lemma {:induction false} OneFee(data: OrderData, def: Defaults, d: ProductVals)
    requires Sellable(data, def) && IsFee(d, def)
    ensures FoundCount(Fees(data, def), d) <= 1
  {
    var fees := Fees(data, def);
    FeesAre(data, def);
    forall i, j | 0 <= i < j < |fees| ensures !(Finds(d, fees[i]) && Finds(d, fees[j])) {
      FindsIff(d, fees[i], def);
      FindsIff(d, fees[j], def);
    }
    FoundApart(fees, d);
  }

  lemma {:induction false} OneItem(data: OrderData, def: Defaults, d: ProductVals)
    requires Sellable(data, def) && IsItem(d, def)
    ensures FoundCount(Items(data), d) <= 1
  {
    var items := Items(data);
    ItemsAre(data, def);
    forall i, j | 0 <= i < j < |items| ensures !(Finds(d, items[i]) && Finds(d, items[j])) {
      FindsIff(d, items[i], def);
      FindsIff(d, items[j], def);
    }
    FoundApart(items, d);
  }

  /** A coupon finds the line of its code, and the discount line when the code is "Discounts". */
  lemma {:induction false} FoundByCoupon(data: OrderData, def: Defaults, d: ProductVals)
    requires Sellable(data, def) && IsDeduction(d, def) && IsCoupon(d)
    ensures FoundCount(Built(data, def), d) > 1 <==>
            data.discount > 0 && d.name == "Discounts" && "Discounts" in CouponNames(data.coupons)
    ensures FoundCount(Built(data, def), d) == 0 <==> d.name !in DeductionNames(data)
  {
    hide Deductions, Built, Finds, DeductionNames, Standard;
    var ps, names := Deductions(data, def), DeductionNames(data);
    FoundByKind(data, def, d) by { assert Standard(d, def) by { ItIsStandard(d, def); } }
    PartsAre(data, def);
    forall i | 0 <= i < |ps| ensures Finds(d, ps[i]) <==> names[i] == d.name {
      FindsNamed(data, def, d, i);
    }
    FoundApart(ps, d);
    NamesTwice(data, d.name);
  }

  lemma {:induction false} ItIsStandard(d: ProductVals, def: Defaults)
    requires IsDeduction(d, def)
    ensures Standard(d, def)
  {
  }

  lemma {:induction false} FindsNamed(data: OrderData, def: Defaults, d: ProductVals, i: nat)
    requires Sellable(data, def) && IsDeduction(d, def) && IsCoupon(d) && i < |Deductions(data, def)|
    ensures |Deductions(data, def)| == |DeductionNames(data)|
    ensures Finds(d, Deductions(data, def)[i]) <==> DeductionNames(data)[i] == d.name
  {
    PartsAre(data, def);
    DeductionAt(data, def, i);
    FindsIff(d, Deductions(data, def)[i], def);
  }

  lemma {:induction false} NamesTwice(data: OrderData, name: string)
    requires forall i, j :: 0 <= i < j < |data.coupons| ==> data.coupons[i].name != data.coupons[j].name
    ensures (exists i, j :: 0 <= i < j < |DeductionNames(data)| && DeductionNames(data)[i] == name == DeductionNames(data)[j])
            <==> data.discount > 0 && name == "Discounts" && "Discounts" in CouponNames(data.coupons)
  {
    var names, codes := DeductionNames(data), CouponNames(data.coupons);
    if data.discount > 0 {
      assert names == ["Discounts"] + codes;
      if "Discounts" in codes {
        var k :| 0 <= k < |codes| && codes[k] == "Discounts";
        assert names[0] == "Discounts" == names[k + 1];
      }
    } else {
      assert names == codes;
    }
  }

  // ------------------------------------------------------------------ the created order

  function Created(data: OrderData, def: Defaults): Order {
    Replaced(Order([], 0), BuiltLines(data, def))
  }

  lemma {:induction false} CreatedIs(data: OrderData, def: Defaults)
    ensures Created(data, def) == Order(NewLines(0, BuiltLines(data, def)), |BuiltLines(data, def)|)
  {
    var vs := BuiltLines(data, def);
    ApplyAppend(Order([], 0), [Clear], Creates(vs));
    ApplySingle(Order([], 0), Clear);
    ApplyCreates(Order([], 0), vs);
    assert [] + NewLines(0, vs) == NewLines(0, vs);
  }

  lemma {:induction false} DisplaysAppend(a: seq<Vals>, b: seq<Vals>)
    requires PlainDisplays(a) && PlainDisplays(b)
    ensures PlainDisplays(a + b)
  {
  }

  lemma {:induction false} CollectedAreProducts(keys: seq<(nat, string, Flag, int)>, product: nat, ts: seq<NamedAmount>,
                                                ls: seq<ProductLine>, cs: seq<NamedAmount>)
    ensures PlainDisplays(PositiveFees(keys)) && PlainDisplays(PositiveTaxes(product, ts))
    ensures PlainDisplays(StoreLines(ls)) && PlainDisplays(CouponLines(product, cs))
    decreases |keys| + |ts| + |ls| + |cs|
  {
    if keys != [] {
      CollectedAreProducts(keys[1..], product, ts, ls, cs);
    } else if ts != [] {
      CollectedAreProducts(keys, product, ts[1..], ls, cs);
    } else if ls != [] {
      CollectedAreProducts(keys, product, ts, ls[1..], cs);
    } else if cs != [] {
      CollectedAreProducts(keys, product, ts, ls, cs[1..]);
    }
  }

  lemma {:induction false} DiscountDisplays(data: OrderData, def: Defaults)
    ensures PlainDisplays(DiscountLines(data, def))
  {
    var head: seq<Vals> := if data.discount > 0 || data.coupons != [] then [Section("Discounts")] else [];
    var middle: seq<Vals> :=
      if data.discount > 0 then
        [DiscountLine(def.discount, data.discount)]
        + (if data.discountNotes != [] then [Section(JoinNotes(data.discountNotes))] else [])
      else [];
    CollectedAreProducts([], def.discount, [], [], data.coupons);
    DisplaysAppend(head, middle);
    DisplaysAppend(head + middle, CouponLines(def.discount, data.coupons));
  }

  lemma {:induction false} OtherDisplays(data: OrderData, def: Defaults)
    ensures PlainDisplays(FeeLines(data, def)) && PlainDisplays(TaxLines(data, def)) && PlainDisplays(StoreLines(data.lines))
  {
    CollectedAreProducts(FeeKeys(data, def), def.tax, data.taxes, data.lines, []);
    DisplaysAppend(PositiveFees(FeeKeys(data, def)), [Section("Other Fees")]);
    DisplaysAppend([Section("Taxes")], PositiveTaxes(def.tax, data.taxes));
  }

  lemma {:induction false} BuiltDisplays(data: OrderData, def: Defaults)
    ensures PlainDisplays(BuiltLines(data, def))
  {
    DiscountDisplays(data, def);
    OtherDisplays(data, def);
    DisplaysAppend(DiscountLines(data, def), FeeLines(data, def));
    DisplaysAppend(DiscountLines(data, def) + FeeLines(data, def), TaxLines(data, def));
    DisplaysAppend(DiscountLines(data, def) + FeeLines(data, def) + TaxLines(data, def), StoreLines(data.lines));
  }

  lemma {:induction false} CreatedMatches(data: OrderData, def: Defaults, d: ProductVals)
    requires Sellable(data, def) && Standard(d, def)
    ensures |Matches(Created(data, def).lines, d)| == FoundCount(Built(data, def), d)
  {
    CreatedIs(data, def);
    BuiltDisplays(data, def);
    MatchesAreFound(0, BuiltLines(data, def), d, def);
  }
}
