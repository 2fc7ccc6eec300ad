/** Which lines count as taxes: the flag that tells the tax of an order from its untaxed amount is set on the
    lines of the positive taxes and on no other, when the order is created and after every update. */
module OrderTaxes {
  import opened Options
  import opened Sequences
  import opened OrderLines
  import opened OrderUpdate
  import opened OrderMergeLaws
  import opened OrderMergeTwice
  import opened OrderBuilder
  import opened OrderParts
  import opened OrderLifecycle
  import opened OrderHistory

  // ------------------------------------------------------------------ created lines

  predicate SetsTax(v: Vals) { Tax in v.flags && v.flags[Tax] }

  /** What the tax dictionaries among vs amount to when they are created. */
  function TaxNew(vs: seq<Vals>): int {
    if vs == [] then 0
    else (if vs[0].product.Some? && SetsTax(vs[0]) then NewAmount(vs[0]) else 0) + TaxNew(vs[1..])
  }

  lemma {:induction false} TaxOfNewLine(id: nat, v: Vals)
    ensures TaxOf(NewLine(id, v)) == if v.product.Some? && SetsTax(v) then NewAmount(v) else 0
  {
    var l := NewLine(id, v);
    NewFlags(id, v, Tax);
    assert l.price * l.qty * l.taxRate == 0.0 && 100.0 * 0.0 == 0.0;
    if v.product.None? {
      assert l.price * l.qty == 0.0;
    }
  }

  lemma {:induction false} TaxOfNewLines(id: nat, vs: seq<Vals>)
    ensures SumOf(NewLines(id, vs), TaxOf) == TaxNew(vs)
    decreases |vs|
  {
    if vs != [] {
      TaxOfNewLines(id + 1, vs[1..]);
      TaxOfNewLine(id, vs[0]);
      assert NewLines(id, vs)[1..] == NewLines(id + 1, vs[1..]);
    }
  }

  lemma {:induction false} TaxNewAppend(a: seq<Vals>, b: seq<Vals>)
    ensures TaxNew(a + b) == TaxNew(a) + TaxNew(b)
  {
    if a == [] {
      assert a + b == b;
    } else {
      assert (a + b)[1..] == a[1..] + b;
      TaxNewAppend(a[1..], b);
    }
  }

  ghost predicate NoTax(vs: seq<Vals>) { forall i :: 0 <= i < |vs| ==> Tax !in vs[i].flags }

  lemma {:induction false} NoTaxAppend(a: seq<Vals>, b: seq<Vals>)
    requires NoTax(a) && NoTax(b)
    ensures NoTax(a + b)
  {
  }

  lemma {:induction false} NoTaxNew(vs: seq<Vals>)
    requires NoTax(vs)
    ensures TaxNew(vs) == 0
  {
    if vs != [] {
      assert forall i :: 0 <= i < |vs[1..]| ==> vs[1..][i] == vs[i + 1];
      NoTaxNew(vs[1..]);
    }
  }

  lemma {:induction false} CouponsNoTax(product: nat, cs: seq<NamedAmount>)
    ensures NoTax(CouponLines(product, cs))
  {
    if cs != [] {
      CouponsNoTax(product, cs[1..]);
    }
  }

  lemma {:induction false} DiscountsNoTax(data: OrderData, def: Defaults)
    ensures NoTax(DiscountLines(data, def))
  {
    CouponsNoTax(def.discount, data.coupons);
  }

  lemma {:induction false} FeesNoTax(keys: seq<(nat, string, Flag, int)>)
    requires forall i :: 0 <= i < |keys| ==> keys[i].2 in {Delivery, Handling, Wrapping, OtherFees}
    ensures NoTax(PositiveFees(keys))
  {
    if keys != [] {
      assert forall i :: 0 <= i < |keys[1..]| ==> keys[1..][i] == keys[i + 1];
      FeesNoTax(keys[1..]);
    }
  }

  lemma {:induction false} StoreNoTax(ls: seq<ProductLine>)
    ensures NoTax(StoreLines(ls))
  {
    if ls != [] {
      StoreNoTax(ls[1..]);
    }
  }

  lemma {:induction false} PositiveTaxesNew(product: nat, ts: seq<NamedAmount>)
    ensures TaxNew(PositiveTaxes(product, ts)) == SumOf(ts, PositiveAmountOf)
    ensures forall v :: v in PositiveTaxes(product, ts) ==> SetsTax(v)
  {
    if ts != [] {
      PositiveTaxesNew(product, ts[1..]);
      if ts[0].amount > 0 {
        TaxAmount(product, ts[0]);
        TaxNewAppend([TaxLine(product, ts[0])], PositiveTaxes(product, ts[1..]));
        assert [TaxLine(product, ts[0])][1..] == [] && TaxNew([]) == 0;
      } else {
        assert PositiveTaxes(product, ts) == PositiveTaxes(product, ts[1..]);
      }
    }
  }

  lemma {:induction false} TaxLinesNew(data: OrderData, def: Defaults)
    ensures TaxNew(TaxLines(data, def)) == SumOf(data.taxes, PositiveAmountOf)
  {
    if data.taxes != [] {
      var vals := PositiveTaxes(def.tax, data.taxes);
      var note: seq<Vals> := if data.taxNotes != [] then [Section(JoinNotes(data.taxNotes))] else [];
      PositiveTaxesNew(def.tax, data.taxes);
      NoTaxNew(note);
      NoTaxNew([Section("Taxes")]);
      TaxNewAppend([Section("Taxes")], vals);
      TaxNewAppend(if vals != [] then [Section("Taxes")] + vals else [], note);
    }
  }

  lemma {:induction false} BuiltTaxNew(data: OrderData, def: Defaults)
    ensures TaxNew(BuiltLines(data, def)) == SumOf(data.taxes, PositiveAmountOf)
  {
    var a, b, c, d := DiscountLines(data, def), FeeLines(data, def), TaxLines(data, def), StoreLines(data.lines);
    DiscountsNoTax(data, def);
    FeesNoTax(FeeKeys(data, def));
    StoreNoTax(data.lines);
    NoTaxNew(a);
    NoTaxNew(b);
    NoTaxNew(d);
    TaxLinesNew(data, def);
    TaxNewAppend(a, b);
    TaxNewAppend(a + b, c);
    TaxNewAppend(a + b + c, d);
  }

  lemma {:induction false} TaxedPlusUntaxed(lines: seq<Line>)
    ensures SumOf(lines, TaxOf) + SumOf(lines, UntaxedOf) == AmountTotal(lines)
  {
    if lines != [] {
      TaxedPlusUntaxed(lines[1..]);
    }
  }

  /** The tax of a created order is its positive taxes, and the untaxed amount is all the rest, to the cent. */
  lemma {:induction false} CreatedTaxSplit(o: Order, data: OrderData, def: Defaults)
    ensures var lines := Replaced(o, BuiltLines(data, def)).lines;
            && SumOf(lines, TaxOf) == SumOf(data.taxes, (t: NamedAmount) => if t.amount > 0 then t.amount else 0)
            && SumOf(lines, UntaxedOf) ==
               SumOf(data.lines, (l: ProductLine) => l.qty * l.price)
               + (if data.shipping > 0 then data.shipping else 0) + (if data.handling > 0 then data.handling else 0)
               + (if data.wrapping > 0 then data.wrapping else 0) + (if data.otherFees > 0 then data.otherFees else 0)
               - (if data.discount > 0 then data.discount else 0)
               - SumOf(data.coupons, (c: NamedAmount) => c.amount)
  {
    var vs, cleared := BuiltLines(data, def), o.(lines := []);
    ApplyAppend(o, [Clear], Creates(vs));
    ApplySingle(o, Clear);
    ApplyCreates(cleared, vs);
    assert [] + NewLines(o.nextId, vs) == NewLines(o.nextId, vs);
    TaxOfNewLines(o.nextId, vs);
    BuiltTaxNew(data, def);
    CreatedOrderTotal(o, data, def);
    TaxedPlusUntaxed(Replaced(o, vs).lines);
    SumOfSame(data.taxes, PositiveAmountOf, (t: NamedAmount) => if t.amount > 0 then t.amount else 0);
    SumOfSame(data.lines, LineAmount, (l: ProductLine) => l.qty * l.price);
    SumOfSame(data.coupons, AmountOf, (c: NamedAmount) => c.amount);
  }

  // ------------------------------------------------------------------ which dictionaries set the flag

  lemma {:induction false} ProductsIn(vs: seq<Vals>)
    ensures forall v: ProductVals :: v in ProductData(vs) ==> v in vs
  {
    if vs != [] {
      ProductsIn(vs[1..]);
    }
  }

  lemma {:induction false} NoTaxProducts(vs: seq<Vals>, i: nat)
    requires NoTax(vs) && i < |ProductData(vs)|
    ensures Tax !in ProductData(vs)[i].flags
  {
    ProductsIn(vs);
    assert ProductData(vs)[i] in ProductData(vs);
  }

  /** The dictionaries on the tax product set the flag, and no other names it. */
  ghost predicate TaxMarked(vs: seq<Vals>, def: Defaults) {
    forall i :: 0 <= i < |vs| ==> if vs[i].product == Some(def.tax) then SetsTax(vs[i]) else Tax !in vs[i].flags
  }

  lemma {:induction false} MarkedAppend(a: seq<Vals>, b: seq<Vals>, def: Defaults)
    requires TaxMarked(a, def) && TaxMarked(b, def)
    ensures TaxMarked(a + b, def)
  {
  }

  lemma {:induction false} CouponsMarked(cs: seq<NamedAmount>, def: Defaults)
    requires def.discount != def.tax
    ensures TaxMarked(CouponLines(def.discount, cs), def)
  {
    if cs != [] {
      CouponsMarked(cs[1..], def);
      MarkedAppend([CouponLine(def.discount, cs[0])], CouponLines(def.discount, cs[1..]), def);
    }
  }

  lemma {:induction false} DiscountsMarked(data: OrderData, def: Defaults)
    requires def.discount != def.tax
    ensures TaxMarked(DiscountLines(data, def), def)
  {
    CouponsMarked(data.coupons, def);
  }

  lemma {:induction false} FeesMarked(keys: seq<(nat, string, Flag, int)>, def: Defaults)
    requires forall i :: 0 <= i < |keys| ==> keys[i].0 != def.tax && keys[i].2 in {Delivery, Handling, Wrapping, OtherFees}
    ensures TaxMarked(PositiveFees(keys), def)
  {
    if keys != [] {
      assert forall i :: 0 <= i < |keys[1..]| ==> keys[1..][i] == keys[i + 1];
      FeesMarked(keys[1..], def);
      MarkedAppend(PositiveFee(keys[0]), PositiveFees(keys[1..]), def);
    }
  }

  lemma {:induction false} TaxesMarked(ts: seq<NamedAmount>, def: Defaults)
    ensures TaxMarked(PositiveTaxes(def.tax, ts), def)
  {
    if ts != [] {
      TaxesMarked(ts[1..], def);
      MarkedAppend(PositiveTax(def.tax, ts[0]), PositiveTaxes(def.tax, ts[1..]), def);
    }
  }

  lemma {:induction false} StoreMarked(ls: seq<ProductLine>, def: Defaults)
    requires forall i :: 0 <= i < |ls| ==> ls[i].product != def.tax
    ensures TaxMarked(StoreLines(ls), def)
  {
    if ls != [] {
      assert forall i :: 0 <= i < |ls[1..]| ==> ls[1..][i] == ls[i + 1];
      StoreMarked(ls[1..], def);
      MarkedAppend([StoreLine(ls[0])], StoreLines(ls[1..]), def);
    }
  }

  lemma {:induction false} TaxLinesMarked(data: OrderData, def: Defaults)
    ensures TaxMarked(TaxLines(data, def), def)
  {
    TaxesMarked(data.taxes, def);
  }

  lemma {:induction false} BuiltMarked(b: OrderData, def: Defaults)
    requires Sellable(b, def)
    ensures TaxMarked(BuiltLines(b, def), def)
  {
    var w, x, y, z := DiscountLines(b, def), FeeLines(b, def), TaxLines(b, def), StoreLines(b.lines);
    DiscountsMarked(b, def);
    FeesMarked(FeeKeys(b, def), def);
    TaxLinesMarked(b, def);
    StoreMarked(b.lines, def);
    assert TaxMarked(x, def);
    hide DiscountLines, FeeLines, TaxLines, StoreLines, TaxMarked, PositiveFees, PositiveTaxes, FeeKeys;
    MarkedAppend(w, x, def);
    MarkedAppend(w + x, y, def);
    MarkedAppend(w + x + y, z, def);
  }

  lemma {:induction false} FlagAt(b: OrderData, def: Defaults, i: nat)
    requires Sellable(b, def) && i < |Built(b, def)|
    ensures var v := Built(b, def)[i];
            if v.product == Some(def.tax) then SetsTax(v) else Tax !in v.flags
  {
    BuiltMarked(b, def);
    ProductsIn(BuiltLines(b, def));
    hide BuiltLines;
    assert Built(b, def)[i] in ProductData(BuiltLines(b, def));
  }

  // ------------------------------------------------------------------ orders with right flags

  /** The flag is on the lines of the tax product and on no other. */
  predicate RightlyFlagged(l: Line, def: Defaults) { Tax in l.flags <==> l.product == def.tax }

  ghost predicate AllFlagged(lines: seq<Line>, def: Defaults) {
    forall k :: 0 <= k < |lines| ==> RightlyFlagged(lines[k], def)
  }

  lemma {:induction false} CreatedFlagged(id: nat, v: Vals, def: Defaults)
    requires def.tax != 0
    requires if v.product == Some(def.tax) then SetsTax(v) else Tax !in v.flags
    ensures RightlyFlagged(NewLine(id, v), def)
  {
    NewFlags(id, v, Tax);
  }

  lemma {:induction false} WritersIn(l: Line, ps: seq<ProductVals>)
    ensures forall w :: w in WritersOf(l, ps) ==> w in ps && Matched(l, w)
  {
    if ps != [] {
      WritersIn(l, ps[1..]);
    }
  }

  /** Lines keep their flag under writers that set it on the tax product and name it nowhere else. */
  lemma {:induction false} RewrittenKeepsTax(l: Line, ws: seq<ProductVals>)
    requires (forall i :: 0 <= i < |ws| ==> SetsTax(ws[i])) || (forall i :: 0 <= i < |ws| ==> Tax !in ws[i].flags)
    ensures Tax in Rewritten(l, ws).flags <==> Tax in l.flags || (ws != [] && SetsTax(ws[0]))
    ensures ws != [] ==> Rewritten(l, ws).taxRate == 0.0
    decreases |ws|
  {
    if ws != [] {
      RewrittenFlags(l, ws[0], Tax);
      assert forall i :: 0 <= i < |ws[1..]| ==> ws[1..][i] == ws[i + 1];
      RewrittenKeepsTax(Rewrite(l, ws[0]), ws[1..]);
    }
  }

  /** The dictionaries that find a line are of the tax product exactly if the line is. */
  lemma {:induction false} WriterFlag(l: Line, b: OrderData, def: Defaults, i: nat)
    requires Sellable(b, def) && Kinded(l, def) && i < |WritersOf(l, Built(b, def))|
    ensures var w := WritersOf(l, Built(b, def))[i];
            if l.product == def.tax then SetsTax(w) else Tax !in w.flags
  {
    var ps := Built(b, def);
    var w := WritersOf(l, ps)[i];
    WritersIn(l, ps);
    assert w in WritersOf(l, ps);
    var k :| 0 <= k < |ps| && ps[k] == w;
    FlagAt(b, def, k);
    BuiltStandard(b, def);
    assert Standard(ps[k], def);
    hide Built, WritersOf;
    SameProduct(l, w, def);
  }

  lemma {:induction false} SameProduct(l: Line, d: ProductVals, def: Defaults)
    requires DefaultsApart(def) && Kinded(l, def) && Standard(d, def) && Matched(l, d)
    ensures l.product == def.tax <==> d.product == Some(def.tax)
  {
    MatchedOther(l, d, def);
  }

  lemma {:induction false} WritersFlags(l: Line, b: OrderData, def: Defaults)
    requires Sellable(b, def) && Kinded(l, def)
    ensures var ws := WritersOf(l, Built(b, def));
            forall i :: 0 <= i < |ws| ==> if l.product == def.tax then SetsTax(ws[i]) else Tax !in ws[i].flags
  {
    var ws := WritersOf(l, Built(b, def));
    hide WritersOf, Built, Sellable;
    forall i | 0 <= i < |ws| ensures if l.product == def.tax then SetsTax(ws[i]) else Tax !in ws[i].flags {
      WriterFlag(l, b, def, i);
    }
  }

  /** An updated line is rewritten by its writers, or left as it was but for its quantity. */
  lemma {:induction false} FinalFlagged(l: Line, b: OrderData, def: Defaults)
    requires Sellable(b, def) && Kinded(l, def) && RightlyFlagged(l, def)
    ensures var f := FinalLine(l, Built(b, def));
            && RightlyFlagged(f, def) && f.product == l.product
            && (l.product != 0 ==> f.taxRate == 0.0 || f.qty == 0.0)
  {
    var ps := Built(b, def);
    var ws := WritersOf(l, ps);
    WritersFlags(l, b, def);
    BuiltPriced(b, def);
    FinalIs(l, ps);
    hide Built, WritersOf, Sellable, Kinded, LineGap, WonAmount, SumNew, Products, Rewritten;
    RewrittenKeepsTax(l, ws);
    if ws != [] {
      WritersLookUp(l, ps);
      assert FinalLine(l, ps) == Rewritten(l, ws);
    }
  }

  lemma {:induction false} NoTaxOnZero(l: Line)
    requires Tax !in l.flags && (l.taxRate == 0.0 || l.qty == 0.0 || l.price == 0.0)
    ensures TaxOf(l) == 0
  {
    assert l.price * l.qty * l.taxRate == 0.0 && 100.0 * 0.0 == 0.0;
  }

  // ------------------------------------------------------------------ the tax of an updated order

  lemma {:induction false} TaxLineAmount(l: Line, b: OrderData, def: Defaults)
    requires Sellable(b, def) && Kinded(l, def) && RightlyFlagged(l, def) && l.product == def.tax
    ensures TaxOf(FinalLine(l, Built(b, def))) == LastPositive(b.taxes)
  {
    var ps, taxes := Built(b, def), Taxes(b, def);
    TaxWritersAre(l, b, def);
    TaxesAre(b, def);
    TaxesAmount(def.tax, b.taxes);
    BuiltPriced(b, def);
    FinalIs(l, ps);
    FinalFlagged(l, b, def);
    hide Taxes, Built, WritersOf, Sellable, Kinded, PositiveTaxes, ProductData, SumNew, LineGap;
    var f := FinalLine(l, ps);
    if taxes == [] {
      NothingPositive(b.taxes);
      assert f.price * f.qty == 0.0 && 100.0 * 0.0 == 0.0;
    } else {
      WritersLookUp(l, ps);
      WritersPriced(l, ps);
      RewrittenAmount(l, taxes);
      assert LastQty(taxes) == Some(1.0);
    }
  }

  lemma {:induction false} OneLineTax(l: Line, b: OrderData, def: Defaults)
    requires Sellable(b, def) && Kinded(l, def) && RightlyFlagged(l, def) && (l.product == 0 ==> l.price == 0.0)
    ensures TaxOf(FinalLine(l, Built(b, def))) == Times(LedgerLine(l, def).taxes, LastPositive(b.taxes))
  {
    if l.product == def.tax {
      TaxLineAmount(l, b, def);
    } else {
      FinalFlagged(l, b, def);
      if l.product == 0 {
        AllBuiltKeyed(b, def);
        DisplayIsFixed(l, Built(b, def));
      }
      hide FinalLine, Built, Sellable, AllKeyed;
      NoTaxOnZero(FinalLine(l, Built(b, def)));
    }
  }

  lemma {:induction false} FinalTaxesCons(l: Line, rest: seq<Line>, b: OrderData, def: Defaults)
    requires Sellable(b, def) && Kinded(l, def) && RightlyFlagged(l, def) && (l.product == 0 ==> l.price == 0.0)
    requires SumOf(FinalLines(rest, Built(b, def)), TaxOf) == Times(LedgerOf(rest, def).taxes, LastPositive(b.taxes))
    ensures SumOf(FinalLines([l] + rest, Built(b, def)), TaxOf) == Times(LedgerOf([l] + rest, def).taxes, LastPositive(b.taxes))
  {
    var ps := Built(b, def);
    FinalCons(l, rest, ps);
    assert ([FinalLine(l, ps)] + FinalLines(rest, ps))[1..] == FinalLines(rest, ps);
    LedgerCons(l, rest, def);
    OneLineTax(l, b, def);
    hide LedgerOf, FinalLines, FinalLine, TaxOf, LastPositive, Sellable, Kinded, Times, LedgerLine, Built;
    TimesPlus(LedgerLine(l, def).taxes, LedgerOf(rest, def).taxes, LastPositive(b.taxes));
  }

  lemma {:induction false} FinalTaxes(lines: seq<Line>, b: OrderData, def: Defaults)
    requires Sellable(b, def) && AllKinded(lines, def) && AllFlagged(lines, def)
    requires forall k :: 0 <= k < |lines| && lines[k].product == 0 ==> lines[k].price == 0.0
    ensures SumOf(FinalLines(lines, Built(b, def)), TaxOf) == Times(LedgerOf(lines, def).taxes, LastPositive(b.taxes))
  {
    if lines == [] {
      assert FinalLines(lines, Built(b, def)) == [];
    } else {
      var l, rest := lines[0], lines[1..];
      assert lines == [l] + rest;
      assert forall k :: 0 <= k < |rest| ==> rest[k] == lines[k + 1];
      hide Sellable, Kinded, RightlyFlagged, Built, TaxOf, LastPositive, Times;
      FinalTaxes(rest, b, def);
      FinalTaxesCons(l, rest, b, def);
    }
  }

  lemma {:induction false} TaxNewProducts(vs: seq<Vals>)
    ensures TaxNew(ProductData(vs)) == TaxNew(vs)
  {
    if vs != [] {
      TaxNewProducts(vs[1..]);
      var us: seq<Vals> := ProductData(vs);
      if vs[0].product.Some? {
        assert us == [vs[0]] + ProductData(vs[1..]) && us[1..] == ProductData(vs[1..]);
      }
    }
  }

  lemma {:induction false} UnmatchedNoTax(lines: seq<Line>, vs: seq<Vals>)
    requires NoTax(vs)
    ensures TaxNew(Unmatched(lines, ProductData(vs))) == 0
  {
    var us := Unmatched(lines, ProductData(vs));
    UnmatchedIn(lines, ProductData(vs));
    ProductsIn(vs);
    forall i | 0 <= i < |us| ensures Tax !in us[i].flags {
      assert us[i] in us;
    }
    NoTaxNew(us);
  }

  lemma {:induction false} UnmatchedTaxes(lines: seq<Line>, ps: seq<ProductVals>, def: Defaults)
    requires DefaultsApart(def) && AllKinded(lines, def) && AllTaxes(ps, def)
    ensures Unmatched(lines, ps) == if LedgerOf(lines, def).taxes == 0 then ps else []
  {
    if ps != [] {
      assert forall i :: 0 <= i < |ps[1..]| ==> ps[1..][i] == ps[i + 1];
      UnmatchedTaxes(lines, ps[1..], def);
      MatchesCounted(lines, ps[0], def);
    }
  }

  lemma {:induction false} UnmatchedParts(lines: seq<Line>, a: seq<ProductVals>, b: seq<ProductVals>, c: seq<ProductVals>,
                                          d: seq<ProductVals>)
    ensures TaxNew(Unmatched(lines, a + b + c + d))
            == TaxNew(Unmatched(lines, a)) + TaxNew(Unmatched(lines, b)) + TaxNew(Unmatched(lines, c)) + TaxNew(Unmatched(lines, d))
  {
    hide Unmatched, TaxNew;
    UnmatchedAppend(lines, a, b);
    UnmatchedAppend(lines, a + b, c);
    UnmatchedAppend(lines, a + b + c, d);
    var x: seq<Vals>, y: seq<Vals>, z: seq<Vals>, u: seq<Vals> :=
      Unmatched(lines, a), Unmatched(lines, b), Unmatched(lines, c), Unmatched(lines, d);
    TaxNewAppend(x, y);
    TaxNewAppend(x + y, z);
    TaxNewAppend(x + y + z, u);
  }

  lemma {:induction false} OtherPartsNoTax(lines: seq<Line>, b: OrderData, def: Defaults)
    ensures TaxNew(Unmatched(lines, Deductions(b, def))) == 0 && TaxNew(Unmatched(lines, Fees(b, def))) == 0
    ensures TaxNew(Unmatched(lines, Items(b))) == 0
  {
    DiscountsNoTax(b, def);
    FeesNoTax(FeeKeys(b, def));
    StoreNoTax(b.lines);
    UnmatchedNoTax(lines, DiscountLines(b, def));
    UnmatchedNoTax(lines, FeeLines(b, def));
    UnmatchedNoTax(lines, StoreLines(b.lines));
  }

  lemma {:induction false} NewTaxesAmount(lines: seq<Line>, b: OrderData, def: Defaults)
    requires Sellable(b, def) && AllKinded(lines, def)
    ensures TaxNew(Unmatched(lines, Built(b, def)))
            == if LedgerOf(lines, def).taxes == 0 then SumOf(b.taxes, PositiveAmountOf) else 0
  {
    BuiltIs(b, def);
    PartsAre(b, def);
    TaxLinesNew(b, def);
    TaxNewProducts(TaxLines(b, def));
    NoTaxNew([]);
    OtherPartsNoTax(lines, b, def);
    hide Built, Deductions, Fees, Items, Unmatched, TaxNew, LedgerOf, ProductData, TaxLines;
    UnmatchedTaxes(lines, Taxes(b, def), def);
    UnmatchedParts(lines, Deductions(b, def), Fees(b, def), Taxes(b, def), Items(b));
  }

  lemma {:induction false} DisplaysNoTax(vs: seq<Vals>)
    requires forall i :: 0 <= i < |vs| ==> vs[i].product.None?
    ensures TaxNew(vs) == 0
  {
    if vs != [] {
      assert forall i :: 0 <= i < |vs[1..]| ==> vs[1..][i] == vs[i + 1];
      DisplaysNoTax(vs[1..]);
    }
  }

  lemma {:induction false} MergedTax(o: Order, b: OrderData, def: Defaults)
    requires Tracked(o, def) && AllFlagged(o.lines, def) && Sellable(b, def)
    ensures var taxes := LedgerOf(o.lines, def).taxes;
            SumOf(Merged(o, BuiltLines(b, def)).lines, TaxOf) ==
            Times(taxes, LastPositive(b.taxes)) + if taxes == 0 then SumOf(b.taxes, PositiveAmountOf) else 0
  {
    var ps := Built(b, def);
    var created: seq<Vals>, display: seq<Vals> := Unmatched(o.lines, ps), DisplayData(o.lines, BuiltLines(b, def));
    SumOfAppend(FinalLines(o.lines, ps), NewLines(o.nextId, created + display), TaxOf);
    FinalTaxes(o.lines, b, def);
    TaxOfNewLines(o.nextId, created + display);
    TaxNewAppend(created, display);
    NewTaxesAmount(o.lines, b, def);
    DisplaysAreNone(o.lines, BuiltLines(b, def));
    DisplaysNoTax(display);
  }

  lemma {:induction false} MarkedAmong(us: seq<Vals>, vs: seq<Vals>, def: Defaults)
    requires TaxMarked(vs, def) && forall u :: u in us ==> u in vs
    ensures TaxMarked(us, def)
  {
    forall i | 0 <= i < |us| ensures if us[i].product == Some(def.tax) then SetsTax(us[i]) else Tax !in us[i].flags {
      assert us[i] in us;
    }
  }

  lemma {:induction false} NewLinesFlagged(id: nat, vs: seq<Vals>, def: Defaults)
    requires def.tax != 0 && TaxMarked(vs, def)
    ensures AllFlagged(NewLines(id, vs), def)
  {
    forall k | 0 <= k < |vs| ensures RightlyFlagged(NewLines(id, vs)[k], def) {
      NewLinesAt(id, vs, k);
      CreatedFlagged(id + k, vs[k], def);
    }
  }

  lemma {:induction false} AddedMarked(lines: seq<Line>, b: OrderData, def: Defaults)
    requires Sellable(b, def)
    ensures TaxMarked(Unmatched(lines, Built(b, def)), def) && TaxMarked(DisplayData(lines, BuiltLines(b, def)), def)
  {
    BuiltMarked(b, def);
    UnmatchedIn(lines, Built(b, def));
    ProductsIn(BuiltLines(b, def));
    DisplaysIn(lines, BuiltLines(b, def));
    hide Unmatched, DisplayData, BuiltLines, Built, Sellable, TaxMarked;
    var us: seq<Vals> := Unmatched(lines, Built(b, def));
    MarkedAmong(us, BuiltLines(b, def), def) by {
      assert Built(b, def) == ProductData(BuiltLines(b, def)) by { BuiltDefined(b, def); }
    }
    MarkedAmong(DisplayData(lines, BuiltLines(b, def)), BuiltLines(b, def), def);
  }

  lemma {:induction false} BuiltDefined(b: OrderData, def: Defaults)
    ensures Built(b, def) == ProductData(BuiltLines(b, def))
  {
  }

  lemma {:induction false} MergedFlagged(o: Order, b: OrderData, def: Defaults)
    requires Tracked(o, def) && AllFlagged(o.lines, def) && Sellable(b, def)
    ensures AllFlagged(Merged(o, BuiltLines(b, def)).lines, def)
  {
    var ps := Built(b, def);
    var created: seq<Vals>, display: seq<Vals> := Unmatched(o.lines, ps), DisplayData(o.lines, BuiltLines(b, def));
    forall k | 0 <= k < |o.lines| ensures RightlyFlagged(FinalLines(o.lines, ps)[k], def) {
      FinalFlagged(o.lines[k], b, def);
    }
    AddedMarked(o.lines, b, def);
    MarkedAppend(created, display, def);
    assert def.tax != 0;
    NewLinesFlagged(o.nextId, created + display, def);
    assert Merged(o, BuiltLines(b, def)).lines == FinalLines(o.lines, ps) + NewLines(o.nextId, created + display);
    hide Merged, FinalLines, Unmatched, DisplayData, Built, BuiltLines, Sellable, LedgerOf, WellFormed, RightlyFlagged, FinalLine;
  }

  lemma {:induction false} DisplaysIn(lines: seq<Line>, ds: seq<Vals>)
    ensures forall v :: v in DisplayData(lines, ds) ==> v in ds
  {
    if ds != [] {
      DisplaysIn(lines, ds[1..]);
    }
  }

  // ------------------------------------------------------------------ main results

  /** What the tax of an order is after it accepted the data: the positive taxes if it had no tax line, the last
      positive tax if it had one, and nothing if it had several, which take no tax any more. */
  function TaxAfter(taxes: nat, b: OrderData): int {
    if taxes == 0 then SumOf(b.taxes, (t: NamedAmount) => if t.amount > 0 then t.amount else 0)
    else if taxes == 1 then LastPositive(b.taxes)
    else 0
  }

  /** An accepted update of an order with right flags leaves the flags right; its tax is that, and its untaxed
      amount is all the rest of the total. */
  lemma {:induction false} UpdatedTaxSplit(o: Order, def: Defaults, b: OrderData)
    requires Tracked(o, def) && AllFlagged(o.lines, def) && Sellable(b, def)
    ensures AllFlagged(UpdatedWith(o, b, def).lines, def)
    ensures Accepts(LedgerOf(o.lines, def), b) ==>
              var lines := UpdatedWith(o, b, def).lines;
              && SumOf(lines, TaxOf) == TaxAfter(LedgerOf(o.lines, def).taxes, b)
              && SumOf(lines, UntaxedOf) == AmountTotal(lines) - TaxAfter(LedgerOf(o.lines, def).taxes, b)
  {
    var ds := BuiltLines(b, def);
    AcceptedIff(o, def, b);
    if Accepts(LedgerOf(o.lines, def), b) {
      assert WellFormed(o);
      TimesLast(LedgerOf(o.lines, def).taxes, b.taxes);
      SumOfSame(b.taxes, PositiveAmountOf, (t: NamedAmount) => if t.amount > 0 then t.amount else 0);
      hide BuiltLines, Merged, MergeCommands, Apply, LedgerOf, WellFormed, LastPositive, Times, Sellable, AllKinded, OthersOnce,
        WholeOrNone;
      MergeAppliesToMerged(o, ds);
      MergedFlagged(o, b, def);
      MergedTax(o, b, def);
      TaxedPlusUntaxed(Merged(o, ds).lines);
    }
  }

  lemma {:induction false} TimesLast(taxes: nat, ts: seq<NamedAmount>)
    requires TaxCount(ts) > 0 ==> taxes <= 1
    ensures Times(taxes, LastPositive(ts)) == if taxes == 1 then LastPositive(ts) else 0
  {
    if TaxCount(ts) == 0 {
      NothingPositive(ts);
    }
  }

  lemma {:induction false} CreatedAllFlagged(a: OrderData, def: Defaults)
    requires Sellable(a, def)
    ensures AllFlagged(Created(a, def).lines, def)
  {
    var vs := BuiltLines(a, def);
    CreatedIs(a, def);
    BuiltMarked(a, def);
    assert def.tax != 0;
    hide BuiltLines, Sellable;
    forall k | 0 <= k < |vs| ensures RightlyFlagged(Created(a, def).lines[k], def) {
      NewLinesAt(0, vs, k);
      CreatedFlagged(k, vs[k], def);
    }
  }

  /** Over every run of updates the tax flag is on the lines of the tax product and on no other, so tax and
      untaxed amount are told apart as above after each. */
  lemma {:induction false} HistoryTaxSplit(datas: seq<OrderData>, def: Defaults)
    requires datas != [] && forall i :: 0 <= i < |datas| ==> Sellable(datas[i], def)
    ensures AllFlagged(History(datas, def).lines, def)
    ensures |datas| > 1 && Accepts(LedgerAfter(datas[..|datas| - 1]), datas[|datas| - 1]) ==>
              SumOf(History(datas, def).lines, TaxOf) == TaxAfter(LedgerAfter(datas[..|datas| - 1]).taxes, datas[|datas| - 1])
    decreases |datas|
  {
    hide *;
    var before, b := datas[..|datas| - 1], datas[|datas| - 1];
    assert datas == before + [b];
    if before == [] {
      FirstFlagged(b, def);
    } else {
      HistoryTaxSplit(before, def);
      HistoryTracked(before, def);
      UpdatedTaxSplit(History(before, def), def, b);
      HistorySnoc(before, b, def);
    }
  }

  lemma {:induction false} FirstFlagged(a: OrderData, def: Defaults)
    requires Sellable(a, def)
    ensures AllFlagged(History([a], def).lines, def)
  {
    CreatedAllFlagged(a, def);
  }
}
