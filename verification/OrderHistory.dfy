/** A confirmed order over any number of updates, with any store data. A line on the discount product is known
    by its name and quantity, tax lines by how many there are; the other lines have keys of their own. This
    ledger of the order decides which updates are accepted, what each leaves, and what the order then asks. */
module OrderHistory {
  import opened Options
  import opened Sequences
  import opened OrderLines
  import opened OrderUpdate
  import opened OrderMergeLaws
  import opened OrderMergeTwice
  import opened OrderBuilder
  import opened OrderParts
  import opened OrderLifecycle

  // ------------------------------------------------------------------ the ledger

  /** A line on the discount product. */
  datatype Deduct = Deduct(name: string, qty: real)

  /** The lines on the discount product, in order, and how many tax lines there are. */
  datatype Ledger = Ledger(deductions: seq<Deduct>, taxes: nat)

  const NO_LINES := Ledger([], 0)

  function Plus(s: Ledger, t: Ledger): Ledger { Ledger(s.deductions + t.deductions, s.taxes + t.taxes) }

  function LedgerLine(l: Line, def: Defaults): Ledger {
    Ledger(if l.product == def.discount then [Deduct(l.name, l.qty)] else [], if l.product == def.tax then 1 else 0)
  }

  function LedgerOf(lines: seq<Line>, def: Defaults): Ledger {
    if lines == [] then NO_LINES else Plus(LedgerLine(lines[0], def), LedgerOf(lines[1..], def))
  }

  function CountNamed(ds: seq<Deduct>, name: string): nat {
    if ds == [] then 0 else (if ds[0].name == name then 1 else 0) + CountNamed(ds[1..], name)
  }

  /** A discount needs one line on the discount product at most, a tax one tax line at most, a coupon one line
      of its name at most. */
  predicate Accepts(s: Ledger, b: OrderData) {
    && (b.discount > 0 ==> |s.deductions| <= 1)
    && (TaxCount(b.taxes) > 0 ==> s.taxes <= 1)
    && forall i :: 0 <= i < |b.coupons| ==> CountNamed(s.deductions, b.coupons[i].name) <= 1
  }

  /** The coupon of a line's name keeps the name, a discount alone renames the line, and a line that neither
      finds is put to zero. */
  function Kept(d: Deduct, b: OrderData): Deduct {
    if d.name in CouponNames(b.coupons) then d
    else if b.discount > 0 then d.(name := "Discounts")
    else d.(qty := 0.0)
  }

  function KeptAll(ds: seq<Deduct>, b: OrderData): seq<Deduct> {
    if ds == [] then [] else [Kept(ds[0], b)] + KeptAll(ds[1..], b)
  }

  function NewCoupons(ds: seq<Deduct>, cs: seq<NamedAmount>): seq<Deduct> {
    if cs == [] then []
    else (if CountNamed(ds, cs[0].name) == 0 then [Deduct(cs[0].name, 1.0)] else []) + NewCoupons(ds, cs[1..])
  }

  function NewDiscount(ds: seq<Deduct>, b: OrderData): seq<Deduct> {
    if b.discount > 0 && ds == [] then [Deduct("Discounts", 1.0)] else []
  }

  /** The lines that an update creates. */
  function NewLedger(s: Ledger, b: OrderData): Ledger {
    Ledger(NewDiscount(s.deductions, b) + NewCoupons(s.deductions, b.coupons),
           if s.taxes == 0 then TaxCount(b.taxes) else 0)
  }

  /** The ledger after an accepted update. */
  function After(s: Ledger, b: OrderData): Ledger {
    Plus(Ledger(KeptAll(s.deductions, b), s.taxes), NewLedger(s, b))
  }

  /** What is not taken off: a discount overwritten by the line's coupon, and whatever is written to a line of
      quantity zero. */
  function NotTakenOff(d: Deduct, b: OrderData): int {
    (if b.discount > 0 && (d.qty == 0.0 || d.name in CouponNames(b.coupons)) then b.discount else 0)
    + (if d.qty == 0.0 then CouponAmount(b.coupons, d.name) else 0)
  }

  function AllNotTakenOff(ds: seq<Deduct>, b: OrderData): int {
    if ds == [] then 0 else NotTakenOff(ds[0], b) + AllNotTakenOff(ds[1..], b)
  }

  /** How far an update is off the total of a fresh order. */
  function OffBy(s: Ledger, b: OrderData): int {
    AllNotTakenOff(s.deductions, b) - if s.taxes == 1 then LostTaxes(b.taxes) else 0
  }

  // ------------------------------------------------------------------ keys

  /** A store line, a line on a default product, or a section or note. */
  predicate Kinded(l: Line, def: Defaults) {
    if l.product == 0 then l.storeId == ""
    else l.storeId == "" <==> l.product in DefaultProducts(def)
  }

  /** Looked up by the same dictionaries. */
  predicate SameKey(a: Line, b: Line) {
    a.product != 0 && b.product != 0 && a.storeId == b.storeId && (a.storeId == "" ==> a.product == b.product)
  }

  predicate Other(l: Line, def: Defaults) { l.product != def.discount && l.product != def.tax }

  ghost predicate AllKinded(lines: seq<Line>, def: Defaults) {
    forall k :: 0 <= k < |lines| ==> Kinded(lines[k], def)
  }

  /** Fees and store lines have keys of their own. */
  ghost predicate OthersOnce(lines: seq<Line>, def: Defaults) {
    forall j, k :: 0 <= j < k < |lines| && Other(lines[j], def) ==> !SameKey(lines[j], lines[k])
  }

  ghost predicate WholeOrNone(ds: seq<Deduct>) {
    forall i :: 0 <= i < |ds| ==> ds[i].qty in {0.0, 1.0}
  }

  /** What every confirmed order keeps. */
  ghost predicate Tracked(o: Order, def: Defaults) {
    && WellFormed(o) && AllKinded(o.lines, def) && OthersOnce(o.lines, def)
    && WholeOrNone(LedgerOf(o.lines, def).deductions)
  }

  /** Which lines a dictionary finds. */
  lemma {:induction false} MatchedIff(l: Line, d: ProductVals, def: Defaults)
    requires DefaultsApart(def) && Kinded(l, def) && Standard(d, def)
    ensures IsDeduction(d, def) ==> (Matched(l, d) <==> l.product == def.discount && (IsCoupon(d) ==> l.name == d.name))
    ensures IsTax(d, def) ==> (Matched(l, d) <==> l.product == def.tax)
    ensures IsFee(d, def) || IsItem(d, def) ==> (Matched(l, d) <==> SameKey(l, NewLine(0, d))) && Other(NewLine(0, d), def)
  {
  }

  lemma {:induction false} MatchedOther(l: Line, d: ProductVals, def: Defaults)
    requires DefaultsApart(def) && Kinded(l, def) && Standard(d, def) && Matched(l, d)
    ensures l.product == def.discount ==> IsDeduction(d, def)
    ensures l.product == def.tax ==> IsTax(d, def)
    ensures Other(l, def) ==> IsFee(d, def) || IsItem(d, def)
  {
  }

  lemma {:induction false} LedgerCounts(lines: seq<Line>, def: Defaults, name: string)
    requires lines != []
    ensures var l, s, t := lines[0], LedgerOf(lines, def), LedgerOf(lines[1..], def);
            && s.taxes == (if l.product == def.tax then 1 else 0) + t.taxes
            && |s.deductions| == (if l.product == def.discount then 1 else 0) + |t.deductions|
            && CountNamed(s.deductions, name)
               == (if l.product == def.discount && l.name == name then 1 else 0) + CountNamed(t.deductions, name)
  {
    var l, s, t := lines[0], LedgerOf(lines, def), LedgerOf(lines[1..], def);
    if l.product == def.discount {
      assert s.deductions == [Deduct(l.name, l.qty)] + t.deductions && s.deductions[1..] == t.deductions;
    } else {
      assert s.deductions == t.deductions;
    }
  }

  /** How many lines a deduction or a tax finds. */
  lemma {:induction false} MatchesCounted(lines: seq<Line>, d: ProductVals, def: Defaults)
    requires DefaultsApart(def) && AllKinded(lines, def) && Standard(d, def)
    ensures var s := LedgerOf(lines, def);
            && (IsDeduction(d, def) && !IsCoupon(d) ==> |Matches(lines, d)| == |s.deductions|)
            && (IsDeduction(d, def) && IsCoupon(d) ==> |Matches(lines, d)| == CountNamed(s.deductions, d.name))
            && (IsTax(d, def) ==> |Matches(lines, d)| == s.taxes)
  {
    if lines != [] {
      assert forall k :: 0 <= k < |lines[1..]| ==> lines[1..][k] == lines[k + 1];
      MatchesCounted(lines[1..], d, def);
      MatchedIff(lines[0], d, def);
      LedgerCounts(lines, def, d.name);
      hide LedgerOf, CountNamed, IsDeduction, IsTax, IsCoupon, Standard, DefaultsApart, Kinded, Matched;
    }
  }

  lemma {:induction false} OtherMatchesOnce(lines: seq<Line>, d: ProductVals, def: Defaults)
    requires DefaultsApart(def) && AllKinded(lines, def) && OthersOnce(lines, def)
    requires Standard(d, def) && (IsFee(d, def) || IsItem(d, def))
    ensures |Matches(lines, d)| <= 1
  {
    forall j, k | 0 <= j < k < |lines| ensures !(Matched(lines[j], d) && Matched(lines[k], d)) {
      MatchedIff(lines[j], d, def);
      MatchedIff(lines[k], d, def);
    }
    AtMostOneMatch(lines, d);
  }

  // ------------------------------------------------------------------ which updates are accepted

  lemma {:induction false} FoundOnceIf(o: Order, def: Defaults, b: OrderData, i: nat)
    requires Tracked(o, def) && Sellable(b, def) && Accepts(LedgerOf(o.lines, def), b) && i < |Built(b, def)|
    ensures |Matches(o.lines, Built(b, def)[i])| <= 1
  {
    var d := Built(b, def)[i];
    KindAt(b, def, i);
    BuiltAt(b, def, i);
    PartsAre(b, def);
    hide Built, Deductions, Fees, Taxes, Items, LedgerOf, WellFormed, IsFee, IsItem, IsTax, IsDeduction;
    if i < FeesFrom(b, def) {
      DeductionAt(b, def, i);
      MatchesCounted(o.lines, d, def);
    } else if TaxesFrom(b, def) <= i < ItemsFrom(b, def) {
      MatchesCounted(o.lines, d, def);
    } else {
      OtherMatchesOnce(o.lines, d, def);
    }
  }

  /** An update is accepted exactly when the ledger accepts its data. */
  lemma {:induction false} AcceptedIff(o: Order, def: Defaults, b: OrderData)
    requires Tracked(o, def) && Sellable(b, def)
    ensures MergeCommands(o.lines, BuiltLines(b, def)).Commands? <==> Accepts(LedgerOf(o.lines, def), b)
  {
    var s, ps := LedgerOf(o.lines, def), Built(b, def);
    MergeRaisesIff(o.lines, ps);
    if Accepts(s, b) {
      forall i | 0 <= i < |ps| ensures |Matches(o.lines, ps[i])| <= 1 {
        FoundOnceIf(o, def, b, i);
      }
    } else {
      var i := FoundTwice(o, def, b);
      assert ps[i].price.Some?;
    }
  }

  lemma {:induction false} FoundTwice(o: Order, def: Defaults, b: OrderData) returns (i: nat)
    requires Tracked(o, def) && Sellable(b, def) && !Accepts(LedgerOf(o.lines, def), b)
    ensures i < |Built(b, def)| && Built(b, def)[i].price.Some? && |Matches(o.lines, Built(b, def)[i])| > 1
  {
    var s := LedgerOf(o.lines, def);
    var many := b.discount > 0 && |s.deductions| > 1;
    var code := "";
    if !many && !(TaxCount(b.taxes) > 0 && s.taxes > 1) {
      var k :| 0 <= k < |b.coupons| && CountNamed(s.deductions, b.coupons[k].name) > 1;
      code := b.coupons[k].name;
      assert CouponNames(b.coupons)[k] == code;
    }
    var discount, tax, coupon := PlaceOf(b, def, code);
    i := if many then discount else if TaxCount(b.taxes) > 0 && s.taxes > 1 then tax else coupon;
    ItIsKinded(Built(b, def)[i], def);
    MatchesCounted(o.lines, Built(b, def)[i], def);
  }

  lemma {:induction false} ItIsKinded(d: ProductVals, def: Defaults)
    requires IsDeduction(d, def) || IsTax(d, def)
    ensures Standard(d, def) && d.price.Some?
  {
  }

  // ------------------------------------------------------------------ what is written to a line

  /** A dictionary that is looked up to the same lines as l. */
  function KeyOf(l: Line, def: Defaults): ProductVals {
    if l.product == def.discount then CouponLine(def.discount, NamedAmount(l.name, 0))
    else TaxLine(def.tax, NamedAmount(l.name, 0))
  }

  lemma {:induction false} KeyOfIs(l: Line, def: Defaults)
    requires DefaultsApart(def) && Kinded(l, def) && !Other(l, def)
    ensures var v := KeyOf(l, def);
            && NewLine(0, v).product == l.product && NewLine(0, v).storeId == l.storeId && NewLine(0, v).name == l.name
            && (if l.product == def.discount then IsDeduction(v, def) else IsTax(v, def))
  {
    var v := KeyOf(l, def);
    assert v.flags[if l.product == def.discount then Coupon else Tax];
  }

  lemma {:induction false} SameWritersByKey(l: Line, def: Defaults, ps: seq<ProductVals>)
    requires DefaultsApart(def) && Kinded(l, def) && !Other(l, def)
    ensures WritersOf(l, ps) == WritersOf(NewLine(0, KeyOf(l, def)), ps)
  {
    KeyOfIs(l, def);
    forall i | 0 <= i < |ps| ensures Matched(l, ps[i]) == Matched(NewLine(0, KeyOf(l, def)), ps[i]) {
      SameMatched(l, NewLine(0, KeyOf(l, def)), ps[i]);
    }
    SameWriters(l, NewLine(0, KeyOf(l, def)), ps);
  }

  lemma {:induction false} BuiltPriced(b: OrderData, def: Defaults)
    requires Sellable(b, def)
    ensures Products(Built(b, def))
  {
    BuiltStandard(b, def);
    forall i | 0 <= i < |Built(b, def)| ensures Built(b, def)[i].price.Some? {
      assert Standard(Built(b, def)[i], def);
    }
  }

  /** A line after its writers, and its gap. */
  lemma {:induction false} FinalIs(l: Line, ps: seq<ProductVals>)
    requires Products(ps)
    ensures var ws, f := WritersOf(l, ps), FinalLine(l, ps);
            && f.product == l.product && f.storeId == l.storeId
            && (ws == [] ==> f == (if l.product != 0 then l.(qty := 0.0) else l) && LineGap(l, ps) == 0)
            && (ws != [] ==>
                  && f.name == ws[|ws| - 1].name && f.qty == (if LastQty(ws).Some? then LastQty(ws).value else l.qty)
                  && LineGap(l, ps) == WonAmount(ws, l.qty) - SumNew(ws))
  {
    var ws := WritersOf(l, ps);
    FinalKeys(l, ps);
    LineGapIs(l, ps);
    if ws == [] {
      if LookedUp(l, ps) {
        PricedWriters(l, ps);
      }
    } else {
      WritersPriced(l, ps);
      WritersLookUp(l, ps);
      RewrittenIsFolded(l, ws);
      FoldedIs(ws);
    }
  }

  lemma {:induction false} PriceOfNone(d: Vals)
    requires d.qty.None?
    ensures WrittenAmount(d, 0.0) == 0
  {
    assert PriceOf(d) * 0.0 == 0.0;
  }

  lemma {:induction false} OneWritten(d: ProductVals, q: real)
    requires d.qty.None? && q in {0.0, 1.0}
    ensures SumNew([d]) == NewAmount(d) && LastQty([d]) == None
    ensures WonAmount([d], q) - SumNew([d]) == if q == 0.0 then -NewAmount(d) else 0
  {
    assert [d][1..] == [] && SumNew([]) == 0;
    NoQuantity([d]);
    PriceOfNone(d);
  }

  lemma {:induction false} TwoWritten(d: ProductVals, c: ProductVals, q: real)
    requires d.qty.None? && c.qty.None? && q in {0.0, 1.0}
    ensures LastQty([d, c]) == None
    ensures WonAmount([d, c], q) - SumNew([d, c]) == -NewAmount(d) - if q == 0.0 then NewAmount(c) else 0
  {
    TwoAmounts(d, c);
    NoQuantity([d, c]);
    PriceOfNone(c);
  }

  lemma {:induction false} DeductionAmounts(product: nat, discount: int, c: NamedAmount)
    ensures NewAmount(DiscountLine(product, discount)) == -discount && NewAmount(CouponLine(product, c)) == -c.amount
  {
    SubtotalOfCents(-discount, 1);
    SubtotalOfCents(-c.amount, 1);
  }

  function CouponFor(l: Line, b: OrderData, def: Defaults): ProductVals {
    CouponLine(def.discount, NamedAmount(l.name, CouponAmount(b.coupons, l.name)))
  }

  /** What an update writes to a line on the discount product. */
  lemma {:induction false} DeductionWritersAre(l: Line, b: OrderData, def: Defaults)
    requires Sellable(b, def) && Kinded(l, def) && l.product == def.discount
    ensures WritersOf(l, Built(b, def)) ==
            DiscountPart(b, def) + if l.name in CouponNames(b.coupons) then [CouponFor(l, b, def)] else []
  {
    SameWritersByKey(l, def, Built(b, def));
    KeyOfIs(l, def);
    var ws := DeductionWriters(KeyOf(l, def), b, def);
    hide Built, WritersOf, CouponNames, CouponAmount;
    assert ws != [] ==> ws == [CouponFor(l, b, def)];
  }

  /** A line on the discount product after an update. */
  lemma {:induction false} DeductionKept(l: Line, b: OrderData, def: Defaults)
    requires Sellable(b, def) && Kinded(l, def) && l.product == def.discount && l.qty in {0.0, 1.0}
    ensures var f := FinalLine(l, Built(b, def));
            f.product == l.product && Deduct(f.name, f.qty) == Kept(Deduct(l.name, l.qty), b)
    ensures LineGap(l, Built(b, def)) == NotTakenOff(Deduct(l.name, l.qty), b)
  {
    var d, c := DiscountLine(def.discount, b.discount), CouponFor(l, b, def);
    DeductionWritersAre(l, b, def);
    BuiltPriced(b, def);
    FinalIs(l, Built(b, def));
    NoCoupon(b.coupons, l.name);
    DeductionAmounts(def.discount, b.discount, NamedAmount(l.name, CouponAmount(b.coupons, l.name)));
    hide Built, FinalLine, LineGap, NewAmount, WonAmount, SumNew, LastQty, WritersOf, CouponNames, CouponAmount, Sellable, Kinded;
    if b.discount > 0 && l.name in CouponNames(b.coupons) {
      assert [d] + [c] == [d, c];
      TwoWritten(d, c, l.qty);
    } else if b.discount > 0 {
      assert [d] + [] == [d];
      OneWritten(d, l.qty);
    } else if l.name in CouponNames(b.coupons) {
      assert [] + [c] == [c];
      OneWritten(c, l.qty);
    }
  }

  lemma {:induction false} NoCoupon(cs: seq<NamedAmount>, code: string)
    ensures code !in CouponNames(cs) ==> CouponAmount(cs, code) == 0
  {
    if cs != [] {
      NoCoupon(cs[1..], code);
      assert CouponNames(cs) == [cs[0].name] + CouponNames(cs[1..]);
    }
  }

  lemma {:induction false} TaxWritersAre(l: Line, b: OrderData, def: Defaults)
    requires Sellable(b, def) && Kinded(l, def) && l.product == def.tax
    ensures WritersOf(l, Built(b, def)) == Taxes(b, def)
    ensures forall i :: 0 <= i < |Taxes(b, def)| ==> Taxes(b, def)[i].qty == Some(1.0)
  {
    SameWritersByKey(l, def, Built(b, def));
    KeyOfIs(l, def);
    hide Built, Taxes, WritersOf, KeyOf;
    TaxWriters(KeyOf(l, def), b, def);
    TaxesWritten(KeyOf(l, def), b, def);
  }

  /** A tax line gets every tax, and keeps the last. */
  lemma {:induction false} TaxKept(l: Line, b: OrderData, def: Defaults)
    requires Sellable(b, def) && Kinded(l, def) && l.product == def.tax
    ensures FinalLine(l, Built(b, def)).product == l.product && LineGap(l, Built(b, def)) == -LostTaxes(b.taxes)
  {
    var taxes := Taxes(b, def);
    TaxWritersAre(l, b, def);
    TaxesAre(b, def);
    TaxesAmount(def.tax, b.taxes);
    BuiltPriced(b, def);
    FinalIs(l, Built(b, def));
    hide Taxes, Built, WritersOf, Sellable, LineGap, FinalLine, PositiveTaxes, ProductData, SumNew, NewAmount, Kinded;
    if taxes != [] {
      assert LastQty(taxes) == Some(1.0);
    } else {
      NothingPositive(b.taxes);
    }
  }

  /** No two dictionaries find a fee or a store line. */
  lemma {:induction false} OneFinder(l: Line, b: OrderData, def: Defaults, i: nat, j: nat)
    requires Sellable(b, def) && Kinded(l, def) && Other(l, def) && i < |Built(b, def)| && j < |Built(b, def)| && i != j
    ensures !(Matched(l, Built(b, def)[i]) && Matched(l, Built(b, def)[j]))
  {
    var d, v := Built(b, def)[i], Built(b, def)[j];
    BuiltStandard(b, def);
    if Matched(l, d) && Matched(l, v) {
      BothFind(l, d, v, def);
      FindsAnother(b, def, i, j);
    }
  }

  lemma {:induction false} BothFind(l: Line, d: ProductVals, v: ProductVals, def: Defaults)
    requires DefaultsApart(def) && Kinded(l, def) && Other(l, def) && Standard(d, def) && Standard(v, def)
    requires Matched(l, d) && Matched(l, v)
    ensures Finds(d, v) && !IsTax(d, def) && !IsDeduction(d, def)
  {
    MatchedOther(l, d, def);
    MatchedOther(l, v, def);
    KindsApart(d, def);
    MatchedIff(l, d, def);
    MatchedIff(l, v, def);
    FindsIff(d, v, def);
  }

  lemma {:induction false} OtherKept(l: Line, b: OrderData, def: Defaults)
    requires Sellable(b, def) && Kinded(l, def) && Other(l, def)
    ensures FinalLine(l, Built(b, def)).product == l.product && LineGap(l, Built(b, def)) == 0
  {
    var ps := Built(b, def);
    BuiltPriced(b, def);
    BuiltStandard(b, def);
    FinalIs(l, ps);
    hide Built, WritersOf, LineGap, FinalLine, Standard;
    forall i, j | 0 <= i < j < |ps| ensures !(Matched(l, ps[i]) && Matched(l, ps[j])) {
      OneFinder(l, b, def, i, j);
    }
    OneWriter(l, ps);
    var ws := WritersOf(l, ps);
    if ws != [] {
      WriterMatched(l, ps);
      assert ws[0] in ps;
      GivesQuantity(l, ws[0], def);
      SingleWriterGap(ws, l.qty);
    }
  }

  lemma {:induction false} GivesQuantity(l: Line, d: ProductVals, def: Defaults)
    requires DefaultsApart(def) && Kinded(l, def) && Other(l, def) && Standard(d, def) && Matched(l, d)
    ensures d.qty.Some?
  {
    MatchedOther(l, d, def);
  }

  // ------------------------------------------------------------------ the lines that were there

  lemma {:induction false} LedgerCons(l: Line, rest: seq<Line>, def: Defaults)
    ensures LedgerOf([l] + rest, def) == Plus(LedgerLine(l, def), LedgerOf(rest, def))
  {
    assert ([l] + rest)[1..] == rest;
  }

  /** What as many tax lines lose. */
  function Times(n: nat, lost: int): int { n * lost }

  lemma {:induction false} TimesPlus(a: nat, b: nat, lost: int)
    ensures Times(a + b, lost) == Times(a, lost) + Times(b, lost)
  {
  }

  lemma {:induction false} FinalCons(l: Line, rest: seq<Line>, ps: seq<ProductVals>)
    ensures FinalLines([l] + rest, ps) == [FinalLine(l, ps)] + FinalLines(rest, ps)
    ensures SumGaps([l] + rest, ps) == LineGap(l, ps) + SumGaps(rest, ps)
  {
    hide FinalLine, LineGap;
    assert ([l] + rest)[1..] == rest;
  }

  ghost predicate LedgerKept(lines: seq<Line>, b: OrderData, def: Defaults) {
    var s := LedgerOf(lines, def);
    LedgerOf(FinalLines(lines, Built(b, def)), def) == Ledger(KeptAll(s.deductions, b), s.taxes)
  }

  ghost predicate GapsAre(lines: seq<Line>, b: OrderData, def: Defaults) {
    var s := LedgerOf(lines, def);
    SumGaps(lines, Built(b, def)) == AllNotTakenOff(s.deductions, b) - Times(s.taxes, LostTaxes(b.taxes))
  }

  lemma {:induction false} LedgerKeptCons(l: Line, rest: seq<Line>, b: OrderData, def: Defaults)
    requires Sellable(b, def) && Kinded(l, def) && (l.product == def.discount ==> l.qty in {0.0, 1.0}) && LedgerKept(rest, b, def)
    ensures LedgerKept([l] + rest, b, def)
  {
    var ps := Built(b, def);
    LedgerCons(l, rest, def);
    LedgerCons(FinalLine(l, ps), FinalLines(rest, ps), def);
    FinalCons(l, rest, ps);
    LineKept(l, LedgerOf(rest, def), b, def);
    hide LedgerOf, FinalLines, FinalLine, LineGap, SumGaps, Built, Sellable, KeptAll, Kinded, Kept, LedgerLine, Plus;
  }

  lemma {:induction false} GapsCons(l: Line, rest: seq<Line>, b: OrderData, def: Defaults)
    requires Sellable(b, def) && Kinded(l, def) && (l.product == def.discount ==> l.qty in {0.0, 1.0}) && GapsAre(rest, b, def)
    ensures GapsAre([l] + rest, b, def)
  {
    var t := LedgerOf(rest, def);
    LedgerCons(l, rest, def);
    FinalCons(l, rest, Built(b, def));
    LineGapLost(l, b, def);
    LossCons(l, t, b, def);
    TimesPlus(LedgerLine(l, def).taxes, t.taxes, LostTaxes(b.taxes));
    hide LedgerOf, FinalLines, FinalLine, LineGap, SumGaps, Built, LostTaxes, Sellable, AllNotTakenOff, Kinded, LineLoss, Times,
      LedgerLine;
  }

  /** The lines that were there, after the update, and the sum of their gaps. */
  lemma {:induction false} LinesKept(lines: seq<Line>, b: OrderData, def: Defaults)
    requires Sellable(b, def) && AllKinded(lines, def) && WholeOrNone(LedgerOf(lines, def).deductions)
    ensures LedgerKept(lines, b, def) && GapsAre(lines, b, def)
  {
    if lines == [] {
      assert FinalLines([], Built(b, def)) == [];
    } else {
      var l, rest := lines[0], lines[1..];
      assert lines == [l] + rest;
      assert forall k :: 0 <= k < |rest| ==> rest[k] == lines[k + 1];
      LedgerCons(l, rest, def);
      WholeRest(l, LedgerOf(rest, def), def);
      LinesKept(rest, b, def);
      hide LedgerKept, GapsAre, Sellable, LedgerOf;
      LedgerKeptCons(l, rest, b, def);
      GapsCons(l, rest, b, def);
    }
  }

  lemma {:induction false} WholeRest(l: Line, t: Ledger, def: Defaults)
    requires WholeOrNone(Plus(LedgerLine(l, def), t).deductions)
    ensures WholeOrNone(t.deductions) && (l.product == def.discount ==> l.qty in {0.0, 1.0})
  {
    var s := Plus(LedgerLine(l, def), t);
    var n := |LedgerLine(l, def).deductions|;
    assert forall i :: 0 <= i < |t.deductions| ==> t.deductions[i] == s.deductions[i + n];
    assert n > 0 ==> s.deductions[0] == Deduct(l.name, l.qty);
  }

  function LineLoss(l: Line, b: OrderData, def: Defaults): int {
    if l.product == def.discount then NotTakenOff(Deduct(l.name, l.qty), b) else 0
  }

  lemma {:induction false} LineKept(l: Line, t: Ledger, b: OrderData, def: Defaults)
    requires Sellable(b, def) && Kinded(l, def) && (l.product == def.discount ==> l.qty in {0.0, 1.0})
    ensures var s, f := Plus(LedgerLine(l, def), t), FinalLine(l, Built(b, def));
            Plus(LedgerLine(f, def), Ledger(KeptAll(t.deductions, b), t.taxes)) == Ledger(KeptAll(s.deductions, b), s.taxes)
  {
    var s, d := Plus(LedgerLine(l, def), t), Deduct(l.name, l.qty);
    if l.product == def.discount {
      DeductionKept(l, b, def);
      assert s.deductions == [d] + t.deductions && ([d] + t.deductions)[1..] == t.deductions;
    } else {
      FinalKeys(l, Built(b, def));
      assert s.deductions == t.deductions;
      assert [] + KeptAll(t.deductions, b) == KeptAll(t.deductions, b);
    }
  }

  lemma {:induction false} LineGapLost(l: Line, b: OrderData, def: Defaults)
    requires Sellable(b, def) && Kinded(l, def) && (l.product == def.discount ==> l.qty in {0.0, 1.0})
    ensures LineGap(l, Built(b, def)) == LineLoss(l, b, def) - Times(LedgerLine(l, def).taxes, LostTaxes(b.taxes))
  {
    if l.product == def.discount {
      DeductionKept(l, b, def);
    } else if l.product == def.tax {
      TaxKept(l, b, def);
    } else {
      OtherKept(l, b, def);
    }
  }

  lemma {:induction false} LossCons(l: Line, t: Ledger, b: OrderData, def: Defaults)
    ensures AllNotTakenOff(Plus(LedgerLine(l, def), t).deductions, b) == LineLoss(l, b, def) + AllNotTakenOff(t.deductions, b)
  {
    var s, d := Plus(LedgerLine(l, def), t), Deduct(l.name, l.qty);
    if l.product == def.discount {
      assert s.deductions == [d] + t.deductions && ([d] + t.deductions)[1..] == t.deductions;
    } else {
      assert s.deductions == t.deductions;
    }
  }

  // ------------------------------------------------------------------ the lines that are created

  /** The ledger of the lines created from dictionaries. */
  function LedgerOfNew(vs: seq<Vals>, def: Defaults): Ledger {
    if vs == [] then NO_LINES else Plus(LedgerLine(NewLine(0, vs[0]), def), LedgerOfNew(vs[1..], def))
  }

  lemma {:induction false} LedgerOfNewLines(id: nat, vs: seq<Vals>, def: Defaults)
    ensures LedgerOf(NewLines(id, vs), def) == LedgerOfNew(vs, def)
    decreases |vs|
  {
    if vs != [] {
      LedgerOfNewLines(id + 1, vs[1..], def);
      LedgerCons(NewLine(id, vs[0]), NewLines(id + 1, vs[1..]), def);
    }
  }

  lemma {:induction false} PlusAssociates(s: Ledger, t: Ledger, u: Ledger)
    ensures Plus(Plus(s, t), u) == Plus(s, Plus(t, u))
    ensures Plus(NO_LINES, s) == s == Plus(s, NO_LINES)
  {
    Regroup(s.deductions, t.deductions, u.deductions);
  }

  lemma {:induction false} LedgerAppend(a: seq<Line>, b: seq<Line>, def: Defaults)
    ensures LedgerOf(a + b, def) == Plus(LedgerOf(a, def), LedgerOf(b, def))
  {
    if a == [] {
      assert a + b == b;
      PlusAssociates(LedgerOf(b, def), NO_LINES, NO_LINES);
    } else {
      assert a + b == [a[0]] + (a[1..] + b);
      LedgerCons(a[0], a[1..] + b, def);
      LedgerAppend(a[1..], b, def);
      PlusAssociates(LedgerLine(a[0], def), LedgerOf(a[1..], def), LedgerOf(b, def));
    }
  }

  lemma {:induction false} NewAppend(a: seq<Vals>, b: seq<Vals>, def: Defaults)
    ensures LedgerOfNew(a + b, def) == Plus(LedgerOfNew(a, def), LedgerOfNew(b, def))
  {
    LedgerOfNewLines(0, a + b, def);
    LedgerOfNewLines(0, a, def);
    LedgerOfNewLines(|a|, b, def);
    NewLinesAppend(0, a, b);
    LedgerAppend(NewLines(0, a), NewLines(|a|, b), def);
  }

  /** A dictionary of another product, a section or a note. */
  predicate Unlisted(v: Vals, def: Defaults) {
    v.product.None? || (v.product != Some(def.discount) && v.product != Some(def.tax))
  }

  lemma {:induction false} UnlistedLine(v: Vals, def: Defaults)
    requires DefaultsApart(def) && Unlisted(v, def)
    ensures LedgerLine(NewLine(0, v), def) == NO_LINES
  {
  }

  lemma {:induction false} NoneNew(vs: seq<Vals>, def: Defaults)
    requires DefaultsApart(def) && forall i :: 0 <= i < |vs| ==> Unlisted(vs[i], def)
    ensures LedgerOfNew(vs, def) == NO_LINES
  {
    if vs != [] {
      assert forall i :: 0 <= i < |vs[1..]| ==> vs[1..][i] == vs[i + 1];
      NoneNew(vs[1..], def);
      UnlistedLine(vs[0], def);
      PlusAssociates(NO_LINES, NO_LINES, NO_LINES);
      hide Plus, LedgerLine, Unlisted, DefaultsApart;
    }
  }

  lemma {:induction false} UnmatchedAppend(lines: seq<Line>, a: seq<ProductVals>, b: seq<ProductVals>)
    ensures Unmatched(lines, a + b) == Unmatched(lines, a) + Unmatched(lines, b)
  {
    if a == [] {
      assert a + b == b;
    } else {
      assert (a + b)[1..] == a[1..] + b;
      UnmatchedAppend(lines, a[1..], b);
    }
  }

  lemma {:induction false} UnmatchedIn(lines: seq<Line>, ps: seq<ProductVals>)
    ensures forall v :: v in Unmatched(lines, ps) ==> v in ps
  {
    if ps != [] {
      UnmatchedIn(lines, ps[1..]);
    }
  }

  lemma {:induction false} NewOthers(lines: seq<Line>, ps: seq<ProductVals>, def: Defaults)
    requires DefaultsApart(def) && (AllFees(ps, def) || AllItems(ps, def))
    ensures LedgerOfNew(Unmatched(lines, ps), def) == NO_LINES
  {
    var us := Unmatched(lines, ps);
    UnmatchedIn(lines, ps);
    forall i | 0 <= i < |us| ensures Unlisted(us[i], def) {
      assert us[i] in ps;
    }
    NoneNew(us, def);
  }

  lemma {:induction false} NewTaxes(lines: seq<Line>, ps: seq<ProductVals>, def: Defaults)
    requires DefaultsApart(def) && AllKinded(lines, def) && AllTaxes(ps, def)
    ensures LedgerOfNew(Unmatched(lines, ps), def) == Ledger([], if LedgerOf(lines, def).taxes == 0 then |ps| else 0)
  {
    if ps != [] {
      assert forall i :: 0 <= i < |ps[1..]| ==> ps[1..][i] == ps[i + 1];
      NewTaxes(lines, ps[1..], def);
      MatchesCounted(lines, ps[0], def);
      assert Matches(lines, ps[0]) == [] ==> Unmatched(lines, ps)[1..] == Unmatched(lines, ps[1..]);
    }
  }

  lemma {:induction false} UnmatchedCons(lines: seq<Line>, v: ProductVals, rest: seq<ProductVals>, def: Defaults)
    ensures var us: seq<Vals> := Unmatched(lines, [v] + rest);
            LedgerOfNew(us, def) ==
            Plus(if Matches(lines, v) == [] then LedgerLine(NewLine(0, v), def) else NO_LINES, LedgerOfNew(Unmatched(lines, rest), def))
  {
    var us: seq<Vals>, later: seq<Vals> := Unmatched(lines, [v] + rest), Unmatched(lines, rest);
    assert ([v] + rest)[1..] == rest;
    PlusAssociates(LedgerOfNew(later, def), NO_LINES, NO_LINES);
    hide Plus, LedgerLine;
    if Matches(lines, v) == [] {
      assert us == [v] + later && us[1..] == later;
    }
  }

  lemma {:induction false} CouponCons(cs: seq<NamedAmount>, def: Defaults)
    requires cs != [] && DefaultsApart(def)
    ensures var c := CouponLine(def.discount, cs[0]);
            && ProductData(CouponLines(def.discount, cs)) == [c] + ProductData(CouponLines(def.discount, cs[1..]))
            && Standard(c, def) && IsDeduction(c, def) && IsCoupon(c) && c.name == cs[0].name
            && LedgerLine(NewLine(0, c), def) == Ledger([Deduct(cs[0].name, 1.0)], 0)
  {
    var c := CouponLine(def.discount, cs[0]);
    assert c.flags[Coupon];
  }

  lemma {:induction false} NewCouponsCons(ds: seq<Deduct>, cs: seq<NamedAmount>)
    requires cs != []
    ensures Ledger(NewCoupons(ds, cs), 0) ==
            Plus(if CountNamed(ds, cs[0].name) == 0 then Ledger([Deduct(cs[0].name, 1.0)], 0) else NO_LINES,
                 Ledger(NewCoupons(ds, cs[1..]), 0))
  {
  }

  lemma {:induction false} NewCouponLines(lines: seq<Line>, cs: seq<NamedAmount>, def: Defaults)
    requires DefaultsApart(def) && AllKinded(lines, def)
    ensures LedgerOfNew(Unmatched(lines, ProductData(CouponLines(def.discount, cs))), def)
            == Ledger(NewCoupons(LedgerOf(lines, def).deductions, cs), 0)
  {
    if cs != [] {
      var c := CouponLine(def.discount, cs[0]);
      NewCouponLines(lines, cs[1..], def);
      CouponCons(cs, def);
      NewCouponsCons(LedgerOf(lines, def).deductions, cs);
      hide *;
      MatchesCounted(lines, c, def);
      UnmatchedCons(lines, c, ProductData(CouponLines(def.discount, cs[1..])), def);
    }
  }

  lemma {:induction false} NewDiscountLine(lines: seq<Line>, b: OrderData, def: Defaults)
    requires DefaultsApart(def) && AllKinded(lines, def)
    ensures LedgerOfNew(Unmatched(lines, DiscountPart(b, def)), def)
            == Ledger(NewDiscount(LedgerOf(lines, def).deductions, b), 0)
  {
    var d := DiscountLine(def.discount, b.discount);
    if b.discount > 0 {
      assert d.flags[Discount];
      MatchesCounted(lines, d, def);
      assert [d][1..] == [] && Unmatched(lines, []) == [];
      assert Unmatched(lines, [d]) == if Matches(lines, d) == [] then [d] else [];
    }
  }

  /** The dictionaries of an update that find no line create the lines of the new ledger. */
  lemma {:induction false} NewLedgerIs(lines: seq<Line>, b: OrderData, def: Defaults)
    requires Sellable(b, def) && AllKinded(lines, def)
    ensures LedgerOfNew(Unmatched(lines, Built(b, def)), def) == NewLedger(LedgerOf(lines, def), b)
  {
    var d, c := DiscountPart(b, def), ProductData(CouponLines(def.discount, b.coupons));
    BuiltIs(b, def);
    DeductionsAre(b, def);
    PartsAre(b, def);
    assert DefaultsApart(def);
    hide Deductions, Fees, Taxes, Items, Built, DiscountPart, CouponLines, ProductData, LedgerOf, LedgerOfNew, Unmatched,
      Sellable, DefaultsApart, AllKinded;
    UnmatchedAppend(lines, d, c);
    UnmatchedAppend(lines, d + c, Fees(b, def));
    UnmatchedAppend(lines, d + c + Fees(b, def), Taxes(b, def));
    UnmatchedAppend(lines, d + c + Fees(b, def) + Taxes(b, def), Items(b));
    NewDiscountLine(lines, b, def);
    NewCouponLines(lines, b.coupons, def);
    NewOthers(lines, Fees(b, def), def);
    NewTaxes(lines, Taxes(b, def), def);
    NewOthers(lines, Items(b), def);
    NewInParts(Unmatched(lines, d), Unmatched(lines, c), Unmatched(lines, Fees(b, def)), Unmatched(lines, Taxes(b, def)),
               Unmatched(lines, Items(b)), def);
  }

  lemma {:induction false} NewInParts(d: seq<Vals>, c: seq<Vals>, f: seq<Vals>, t: seq<Vals>, i: seq<Vals>, def: Defaults)
    requires LedgerOfNew(f, def) == NO_LINES && LedgerOfNew(i, def) == NO_LINES
    requires LedgerOfNew(d, def).taxes == 0 && LedgerOfNew(c, def).taxes == 0 && LedgerOfNew(t, def).deductions == []
    ensures LedgerOfNew(d + c + f + t + i, def)
            == Ledger(LedgerOfNew(d, def).deductions + LedgerOfNew(c, def).deductions, LedgerOfNew(t, def).taxes)
  {
    hide LedgerOfNew;
    NewAppend(d, c, def);
    NewAppend(d + c, f, def);
    NewAppend(d + c + f, t, def);
    NewAppend(d + c + f + t, i, def);
    var x, y, z := LedgerOfNew(d, def), LedgerOfNew(c, def), LedgerOfNew(t, def);
    PlusAssociates(Plus(x, y), NO_LINES, NO_LINES);
    PlusAssociates(Plus(Plus(x, y), z), NO_LINES, NO_LINES);
    assert Plus(Plus(x, y), z) == Ledger(x.deductions + y.deductions, z.taxes);
  }

  lemma {:induction false} NewProducts(vs: seq<Vals>, def: Defaults)
    requires DefaultsApart(def)
    ensures var us: seq<Vals> := ProductData(vs); LedgerOfNew(vs, def) == LedgerOfNew(us, def)
  {
    if vs != [] {
      NewProducts(vs[1..], def);
      var us: seq<Vals> := ProductData(vs);
      PlusAssociates(LedgerOfNew(vs[1..], def), NO_LINES, NO_LINES);
      if vs[0].product.Some? {
        assert us == [vs[0]] + ProductData(vs[1..]) && us[1..] == ProductData(vs[1..]);
      } else {
        UnlistedLine(vs[0], def);
      }
      hide Plus, LedgerLine, DefaultsApart;
    }
  }

  lemma {:induction false} AllUnmatched(ps: seq<ProductVals>)
    ensures Unmatched([], ps) == ps
  {
    if ps != [] {
      AllUnmatched(ps[1..]);
    }
  }

  /** The ledger of the order created from data is that of the same update of an order without lines. */
  lemma {:induction false} CreatedLedger(a: OrderData, def: Defaults)
    requires Sellable(a, def)
    ensures LedgerOf(Created(a, def).lines, def) == After(NO_LINES, a)
  {
    var vs := BuiltLines(a, def);
    CreatedIs(a, def);
    LedgerOfNewLines(0, vs, def);
    NewProducts(vs, def);
    AllUnmatched(Built(a, def));
    NewLedgerIs([], a, def);
    PlusAssociates(NewLedger(NO_LINES, a), NO_LINES, NO_LINES);
  }

  /** The ledger of the merged lines. */
  lemma {:induction false} MergedLedger(o: Order, def: Defaults, b: OrderData)
    requires Tracked(o, def) && Sellable(b, def)
    ensures LedgerOf(Merged(o, BuiltLines(b, def)).lines, def) == After(LedgerOf(o.lines, def), b)
  {
    var ps := Built(b, def);
    var created: seq<Vals>, display: seq<Vals> := Unmatched(o.lines, ps), DisplayData(o.lines, BuiltLines(b, def));
    LedgerAppend(FinalLines(o.lines, ps), NewLines(o.nextId, created + display), def);
    LinesKept(o.lines, b, def);
    LedgerOfNewLines(o.nextId, created + display, def);
    NewAppend(created, display, def);
    NewLedgerIs(o.lines, b, def);
    DisplaysAreNone(o.lines, BuiltLines(b, def));
    NoneNew(display, def);
    PlusAssociates(LedgerOfNew(created, def), NO_LINES, NO_LINES);
  }

  lemma {:induction false} DisplaysAreNone(lines: seq<Line>, ds: seq<Vals>)
    ensures forall i :: 0 <= i < |DisplayData(lines, ds)| ==> DisplayData(lines, ds)[i].product.None?
  {
    if ds != [] {
      DisplaysAreNone(lines, ds[1..]);
    }
  }

  // ------------------------------------------------------------------ what an order keeps

  lemma {:induction false} BuiltKeyed(b: OrderData, def: Defaults, i: nat)
    requires Sellable(b, def) && i < |Built(b, def)|
    ensures var d := Built(b, def)[i];
            && Standard(d, def) && Kinded(NewLine(0, d), def)
            && (Other(NewLine(0, d), def) ==> IsFee(d, def) || IsItem(d, def))
  {
    BuiltStandard(b, def);
    KindsApart(Built(b, def)[i], def);
  }

  lemma {:induction false} LinesUnkeyed(o: Order, b: OrderData, def: Defaults)
    requires AllKinded(o.lines, def) && Sellable(b, def)
    ensures DisplaysUnkeyed(o.lines, BuiltLines(b, def)) && AllKeyed(Built(b, def))
  {
    BuiltDisplays(b, def);
    AllBuiltKeyed(b, def);
  }

  lemma {:induction false} NewCouponsWhole(ds: seq<Deduct>, cs: seq<NamedAmount>)
    ensures WholeOrNone(NewCoupons(ds, cs))
  {
    if cs != [] {
      NewCouponsWhole(ds, cs[1..]);
    }
  }

  lemma {:induction false} KeptWhole(ds: seq<Deduct>, b: OrderData)
    requires WholeOrNone(ds)
    ensures WholeOrNone(KeptAll(ds, b))
  {
    if ds != [] {
      assert forall i :: 0 <= i < |ds[1..]| ==> ds[1..][i] == ds[i + 1];
      KeptWhole(ds[1..], b);
    }
  }

  lemma {:induction false} AfterWhole(s: Ledger, b: OrderData)
    requires WholeOrNone(s.deductions)
    ensures WholeOrNone(After(s, b).deductions)
  {
    KeptWhole(s.deductions, b);
    NewCouponsWhole(s.deductions, b.coupons);
  }

  lemma {:induction false} CreatedOnce(a: OrderData, def: Defaults, j: nat, k: nat)
    requires Sellable(a, def) && j < k < |Created(a, def).lines| && Other(Created(a, def).lines[j], def)
    ensures !SameKey(Created(a, def).lines[j], Created(a, def).lines[k])
  {
    var lines := Created(a, def).lines;
    if SameKey(lines[j], lines[k]) {
      var i := BehindLine(a, def, j);
      var i' := BehindLine(a, def, k);
      var d := Built(a, def)[i];
      BuiltKeyed(a, def, i);
      BuiltKeyed(a, def, i');
      CreatedMatches(a, def, d);
      FoundByKind(a, def, d);
      hide Created, Built;
      MatchedIff(lines[j], d, def);
      MatchedIff(lines[k], d, def);
      AtMostOneMatch(lines, d);
    }
  }

  lemma {:induction false} CreatedKinded(a: OrderData, def: Defaults, k: nat)
    requires Sellable(a, def) && k < |Created(a, def).lines|
    ensures Kinded(Created(a, def).lines[k], def)
  {
    var i := BehindLine(a, def, k);
    if Created(a, def).lines[k].product != 0 {
      BuiltKeyed(a, def, i);
    }
  }

  lemma {:induction false} CreatedTracked(a: OrderData, def: Defaults)
    requires Sellable(a, def)
    ensures Tracked(Created(a, def), def)
  {
    CreatedWellFormed(a, def);
    CreatedLedger(a, def);
    AfterWhole(NO_LINES, a);
    var lines := Created(a, def).lines;
    hide Created, Sellable, Kinded, LedgerOf, After;
    forall j, k | 0 <= j < k < |lines| && Other(lines[j], def) ensures !SameKey(lines[j], lines[k]) {
      CreatedOnce(a, def, j, k);
    }
    forall k | 0 <= k < |lines| ensures Kinded(lines[k], def) {
      CreatedKinded(a, def, k);
    }
  }

  /** A merged line has the key of the line it was, or of the unmatched dictionary it was created from. */
  lemma {:induction false} KeyOfMerged(o: Order, b: OrderData, def: Defaults, k: nat) returns (i: nat)
    requires DisplaysUnkeyed(o.lines, BuiltLines(b, def)) && k < |Merged(o, BuiltLines(b, def)).lines|
    ensures var l, n := Merged(o, BuiltLines(b, def)).lines[k], |o.lines|;
            && (k < n ==> l.product == o.lines[k].product && l.storeId == o.lines[k].storeId)
            && (n <= k < n + |Unmatched(o.lines, Built(b, def))| ==>
                  && i < |Built(b, def)| && Matches(o.lines, Built(b, def)[i]) == []
                  && |Unmatched(o.lines, Built(b, def)[..i])| == k - n
                  && l == NewLine(o.nextId + (k - n), Built(b, def)[i]))
            && (n + |Unmatched(o.lines, Built(b, def))| <= k ==> l.product == 0 && l.storeId == "")
  {
    var ds, ps, n := BuiltLines(b, def), Built(b, def), |o.lines|;
    i := 0;
    MergedLine(o, ds, k);
    if k < n {
      FinalKeys(o.lines[k], ps);
    } else if k < n + |Unmatched(o.lines, ps)| {
      i := UnmatchedFrom(o.lines, ps, k - n);
      assert |Unmatched(o.lines, ps)[..k - n]| == k - n;
    } else {
      DisplayLine(o, ds, k);
    }
  }

  lemma {:induction false} SameKeyAs(a: Line, b: Line, c: Line, d: Line)
    requires a.product == c.product && a.storeId == c.storeId && b.product == d.product && b.storeId == d.storeId
    ensures SameKey(a, b) <==> SameKey(c, d)
  {
  }

  /** No line has the key of a fee or a store line that finds none. */
  lemma {:induction false} UnmatchedApart(o: Order, b: OrderData, def: Defaults, i: nat, k: nat)
    requires Sellable(b, def) && i < |Built(b, def)| && Matches(o.lines, Built(b, def)[i]) == []
    requires k < |o.lines| && Kinded(o.lines[k], def) && Other(o.lines[k], def)
    ensures !SameKey(o.lines[k], NewLine(0, Built(b, def)[i]))
  {
    BuiltKeyed(b, def, i);
    NoMatch(o.lines, Built(b, def)[i]);
    if SameKey(o.lines[k], NewLine(0, Built(b, def)[i])) {
      OtherByKey(o.lines[k], Built(b, def)[i], def);
    }
  }

  lemma {:induction false} OtherByKey(l: Line, d: ProductVals, def: Defaults)
    requires DefaultsApart(def) && Kinded(l, def) && Other(l, def) && Standard(d, def) && SameKey(l, NewLine(0, d))
    ensures Matched(l, d) && (IsFee(d, def) || IsItem(d, def))
  {
  }

  /** No two fees or store lines of an update have the same key. */
  lemma {:induction false} KeysApart(b: OrderData, def: Defaults, i: nat, j: nat)
    requires Sellable(b, def) && i < |Built(b, def)| && j < |Built(b, def)| && i != j
    requires Other(NewLine(0, Built(b, def)[i]), def)
    ensures !SameKey(NewLine(0, Built(b, def)[i]), NewLine(0, Built(b, def)[j]))
  {
    var d, v := Built(b, def)[i], Built(b, def)[j];
    BuiltKeyed(b, def, i);
    BuiltKeyed(b, def, j);
    hide Built;
    if SameKey(NewLine(0, d), NewLine(0, v)) {
      OtherByKey(NewLine(0, d), v, def);
      MatchedIff(NewLine(0, d), d, def);
      OneFinder(NewLine(0, d), b, def, i, j);
    }
  }

  lemma {:induction false} MergedOnce(o: Order, def: Defaults, b: OrderData, j: nat, k: nat)
    requires Tracked(o, def) && Sellable(b, def) && DisplaysUnkeyed(o.lines, BuiltLines(b, def))
    requires j < k < |Merged(o, BuiltLines(b, def)).lines| && Other(Merged(o, BuiltLines(b, def)).lines[j], def)
    ensures !SameKey(Merged(o, BuiltLines(b, def)).lines[j], Merged(o, BuiltLines(b, def)).lines[k])
  {
    var lines, n, ps := Merged(o, BuiltLines(b, def)).lines, |o.lines|, Built(b, def);
    var i := KeyOfMerged(o, b, def, j);
    var i' := KeyOfMerged(o, b, def, k);
    hide Merged, Built, BuiltLines, Unmatched, WellFormed, Sellable, LedgerOf;
    if k < n {
      SameKeyAs(lines[j], lines[k], o.lines[j], o.lines[k]);
    } else if k < n + |Unmatched(o.lines, ps)| {
      if j < n {
        SameKeyAs(lines[j], lines[k], o.lines[j], NewLine(0, ps[i']));
        UnmatchedApart(o, b, def, i', j);
      } else {
        SameKeyAs(lines[j], lines[k], NewLine(0, ps[i]), NewLine(0, ps[i']));
        KeysApart(b, def, i, i');
      }
    }
  }

  lemma {:induction false} MergedKinded(o: Order, def: Defaults, b: OrderData, k: nat)
    requires Tracked(o, def) && Sellable(b, def) && DisplaysUnkeyed(o.lines, BuiltLines(b, def))
    requires k < |Merged(o, BuiltLines(b, def)).lines|
    ensures Kinded(Merged(o, BuiltLines(b, def)).lines[k], def)
  {
    var i := KeyOfMerged(o, b, def, k);
    if |o.lines| <= k < |o.lines| + |Unmatched(o.lines, Built(b, def))| {
      BuiltKeyed(b, def, i);
    }
  }

  lemma {:induction false} MergedTracked(o: Order, def: Defaults, b: OrderData)
    requires Tracked(o, def) && Sellable(b, def)
    ensures Tracked(Merged(o, BuiltLines(b, def)), def)
  {
    LinesUnkeyed(o, b, def);
    MergedWellFormed(o, BuiltLines(b, def));
    MergedLedger(o, def, b);
    AfterWhole(LedgerOf(o.lines, def), b);
    hide Sellable, BuiltLines, Merged, SameKey, Kinded, WellFormed, LedgerOf, After, AllKeyed, DisplaysUnkeyed, Other, WholeOrNone;
    var lines := Merged(o, BuiltLines(b, def)).lines;
    forall j, k | 0 <= j < k < |lines| && Other(lines[j], def) ensures !SameKey(lines[j], lines[k]) {
      MergedOnce(o, def, b, j, k);
    }
    forall k | 0 <= k < |lines| ensures Kinded(lines[k], def) {
      MergedKinded(o, def, b, k);
    }
  }

  // ------------------------------------------------------------------ one update

  function UpdatedWith(o: Order, b: OrderData, def: Defaults): Order {
    var merged := MergeCommands(o.lines, BuiltLines(b, def));
    if merged.Commands? then Apply(o, merged.cmds) else o
  }

  lemma {:induction false} TaxesLost(taxes: nat, ts: seq<NamedAmount>)
    requires TaxCount(ts) > 0 ==> taxes <= 1
    ensures Times(taxes, LostTaxes(ts)) == if taxes == 1 then LostTaxes(ts) else 0
  {
    if TaxCount(ts) == 0 {
      NothingPositive(ts);
    }
  }

  lemma {:induction false} GapsAreOffBy(o: Order, def: Defaults, b: OrderData)
    requires Tracked(o, def) && Sellable(b, def) && Accepts(LedgerOf(o.lines, def), b)
    ensures SumGaps(o.lines, Built(b, def)) == OffBy(LedgerOf(o.lines, def), b)
  {
    LinesKept(o.lines, b, def);
    hide Built, LedgerOf, SumGaps, LostTaxes, AllNotTakenOff, WellFormed, Times;
    TaxesLost(LedgerOf(o.lines, def).taxes, b.taxes);
  }

  /** One update of a confirmed order, whatever happened to it before and whatever the data: it is accepted
      exactly when the ledger accepts the data, and then leaves the ledger as predicted and asks what a fresh
      order asks, but for what is written to a deduction line in vain and the taxes overwritten by the last. */
  lemma {:induction false} UpdateTracked(o: Order, def: Defaults, b: OrderData)
    requires Tracked(o, def) && Sellable(b, def)
    ensures var s, o' := LedgerOf(o.lines, def), UpdatedWith(o, b, def);
            && (MergeCommands(o.lines, BuiltLines(b, def)).Commands? <==> Accepts(s, b))
            && (Accepts(s, b) ==>
                  && Tracked(o', def) && LedgerOf(o'.lines, def) == After(s, b)
                  && AmountTotal(o'.lines) == AmountTotal(Created(b, def).lines) + OffBy(s, b))
            && (!Accepts(s, b) ==> o' == o)
  {
    var s, ds := LedgerOf(o.lines, def), BuiltLines(b, def);
    assert WellFormed(o);
    AcceptedIff(o, def, b);
    if Accepts(s, b) {
      GapsAreOffBy(o, def, b);
      MergedTracked(o, def, b);
      MergedLedger(o, def, b);
      hide Accepts, BuiltLines, Merged, AmountTotal, MergeCommands, Apply, SumGaps, Tracked, WellFormed, LedgerOf, OffBy, After, Sellable;
      MergeAppliesToMerged(o, ds);
      MergeTotalVersusReplace(o, ds);
      ReplacedTotal(o, ds);
      ReplacedTotal(Order([], 0), ds);
    }
  }

  // ------------------------------------------------------------------ every run of updates

  /** The order created from the first data, confirmed, and updated with the others in turn. */
  function History(datas: seq<OrderData>, def: Defaults): Order
    requires datas != []
  {
    var n := |datas| - 1;
    if n == 0 then Created(datas[0], def) else UpdatedWith(History(datas[..n], def), datas[n], def)
  }

  /** Its ledger, from the data alone: an update that is not accepted changes nothing. */
  function LedgerAfter(datas: seq<OrderData>): Ledger {
    if datas == [] then NO_LINES
    else
      var s, b := LedgerAfter(datas[..|datas| - 1]), datas[|datas| - 1];
      if Accepts(s, b) then After(s, b) else s
  }

  lemma {:induction false} FirstAccepted(b: OrderData)
    ensures Accepts(NO_LINES, b)
  {
  }

  lemma {:induction false} HistorySnoc(before: seq<OrderData>, b: OrderData, def: Defaults)
    requires before != []
    ensures History(before + [b], def) == UpdatedWith(History(before, def), b, def)
    ensures LedgerAfter(before + [b]) == if Accepts(LedgerAfter(before), b) then After(LedgerAfter(before), b) else LedgerAfter(before)
  {
    assert (before + [b])[..|before|] == before;
  }

  lemma {:induction false} FirstTracked(a: OrderData, def: Defaults)
    requires Sellable(a, def)
    ensures Tracked(History([a], def), def) && LedgerOf(History([a], def).lines, def) == LedgerAfter([a])
  {
    assert [a][..0] == [] && LedgerAfter([]) == NO_LINES;
    FirstAccepted(a);
    CreatedTracked(a, def);
    CreatedLedger(a, def);
    hide Tracked, Sellable, Created, After, Accepts, LedgerOf;
  }

  lemma {:induction false} HistoryTracked(datas: seq<OrderData>, def: Defaults)
    requires datas != [] && forall i :: 0 <= i < |datas| ==> Sellable(datas[i], def)
    ensures Tracked(History(datas, def), def) && LedgerOf(History(datas, def).lines, def) == LedgerAfter(datas)
    decreases |datas|
  {
    hide *;
    var before, b := datas[..|datas| - 1], datas[|datas| - 1];
    assert datas == before + [b];
    if before == [] {
      FirstTracked(b, def);
    } else {
      HistoryTracked(before, def);
      UpdateTracked(History(before, def), def, b);
      HistorySnoc(before, b, def);
    }
  }

  /** Over every run of updates of a confirmed order: the last is accepted exactly when the ledger that the
      earlier data leave accepts its data. Then the order asks what an order created from that data asks, plus
      what the ledger says is not taken off, less the taxes that are overwritten; otherwise it is unchanged. */
  lemma {:induction false} HistoryTotal(datas: seq<OrderData>, def: Defaults)
    requires |datas| > 1 && forall i :: 0 <= i < |datas| ==> Sellable(datas[i], def)
    ensures var n := |datas| - 1;
            var s := LedgerAfter(datas[..n]);
            && (MergeCommands(History(datas[..n], def).lines, BuiltLines(datas[n], def)).Commands? <==> Accepts(s, datas[n]))
            && (Accepts(s, datas[n]) ==>
                  AmountTotal(History(datas, def).lines) == AmountTotal(Created(datas[n], def).lines) + OffBy(s, datas[n]))
            && (!Accepts(s, datas[n]) ==> History(datas, def) == History(datas[..n], def))
  {
    hide *;
    var n := |datas| - 1;
    HistoryTracked(datas[..n], def);
    UpdateTracked(History(datas[..n], def), def, datas[n]);
    HistorySnoc(datas[..n], datas[n], def);
    assert datas == datas[..n] + [datas[n]];
  }

  // ------------------------------------------------------------------ data that is always accepted

  predicate NoDiscounts(datas: seq<OrderData>) {
    forall i :: 0 <= i < |datas| ==> datas[i].discount <= 0 && TaxCount(datas[i].taxes) <= 1
  }

  lemma {:induction false} CountAppend(a: seq<Deduct>, b: seq<Deduct>, name: string)
    ensures CountNamed(a + b, name) == CountNamed(a, name) + CountNamed(b, name)
  {
    if a == [] {
      assert a + b == b;
    } else {
      assert (a + b)[1..] == a[1..] + b;
      CountAppend(a[1..], b, name);
    }
  }

  lemma {:induction false} KeptNames(ds: seq<Deduct>, b: OrderData, name: string)
    requires b.discount <= 0
    ensures CountNamed(KeptAll(ds, b), name) == CountNamed(ds, name)
  {
    if ds != [] {
      KeptNames(ds[1..], b, name);
      assert KeptAll(ds, b)[1..] == KeptAll(ds[1..], b);
    }
  }

  lemma {:induction false} NewNames(ds: seq<Deduct>, cs: seq<NamedAmount>, name: string)
    requires forall i, j :: 0 <= i < j < |cs| ==> cs[i].name != cs[j].name
    ensures CountNamed(NewCoupons(ds, cs), name) == if name in CouponNames(cs) && CountNamed(ds, name) == 0 then 1 else 0
  {
    if cs != [] {
      NewNames(ds, cs[1..], name);
      var head := if CountNamed(ds, cs[0].name) == 0 then [Deduct(cs[0].name, 1.0)] else [];
      CountAppend(head, NewCoupons(ds, cs[1..]), name);
      assert [Deduct(cs[0].name, 1.0)][1..] == [] && CountNamed([], name) == 0;
      assert CouponNames(cs) == [cs[0].name] + CouponNames(cs[1..]);
    }
  }

  lemma {:induction false} CodesOnce(datas: seq<OrderData>, def: Defaults, name: string)
    requires NoDiscounts(datas) && forall i :: 0 <= i < |datas| ==> Sellable(datas[i], def)
    ensures CountNamed(LedgerAfter(datas).deductions, name) <= 1 && LedgerAfter(datas).taxes <= 1
    decreases |datas|
  {
    if datas != [] {
      var n := |datas| - 1;
      CodesOnce(datas[..n], def, name);
      CodesOnceMore(LedgerAfter(datas[..n]), datas[n], name);
      hide NewCoupons, KeptAll, CountNamed, CouponNames, TaxCount, Accepts;
    }
  }

  lemma {:induction false} CodesOnceMore(s: Ledger, b: OrderData, name: string)
    requires b.discount <= 0 && TaxCount(b.taxes) <= 1 && s.taxes <= 1 && CountNamed(s.deductions, name) <= 1
    requires forall i, j :: 0 <= i < j < |b.coupons| ==> b.coupons[i].name != b.coupons[j].name
    ensures CountNamed(After(s, b).deductions, name) <= 1 && After(s, b).taxes <= 1
  {
    hide CountNamed;
    KeptNames(s.deductions, b, name);
    NewNames(s.deductions, b.coupons, name);
    CountAppend(KeptAll(s.deductions, b), NewCoupons(s.deductions, b.coupons), name);
    assert NewDiscount(s.deductions, b) + NewCoupons(s.deductions, b.coupons) == NewCoupons(s.deductions, b.coupons);
  }

  /** Without discounts and with one tax at most every update is accepted, whatever the coupons: each code has
      one line at most. */
  lemma {:induction false} CouponsAccepted(datas: seq<OrderData>, def: Defaults, b: OrderData)
    requires NoDiscounts(datas + [b]) && forall i :: 0 <= i < |datas| ==> Sellable(datas[i], def)
    ensures Accepts(LedgerAfter(datas), b)
  {
    assert forall i :: 0 <= i < |datas| ==> (datas + [b])[i] == datas[i];
    assert (datas + [b])[|datas|] == b;
    CodesOnce(datas, def, "");
    forall i | 0 <= i < |b.coupons| ensures CountNamed(LedgerAfter(datas).deductions, b.coupons[i].name) <= 1 {
      CodesOnce(datas, def, b.coupons[i].name);
    }
  }

  // ------------------------------------------------------------------ discounts without coupons

  predicate Plain(b: OrderData) { b.coupons == [] && TaxCount(b.taxes) <= 1 }

  /** A discount was dropped: some data had one and later data had none. */
  ghost predicate Dropped(datas: seq<OrderData>) {
    exists i, j :: 0 <= i < j < |datas| && datas[i].discount > 0 && datas[j].discount <= 0
  }

  ghost predicate Discounted(datas: seq<OrderData>) {
    exists i :: 0 <= i < |datas| && datas[i].discount > 0
  }

  lemma {:induction false} DiscountedSnoc(before: seq<OrderData>, b: OrderData)
    ensures Discounted(before + [b]) <==> Discounted(before) || b.discount > 0
  {
    var datas := before + [b];
    if Discounted(before) {
      var i :| 0 <= i < |before| && before[i].discount > 0;
      assert datas[i].discount > 0;
    }
    assert datas[|before|] == b;
  }

  lemma {:induction false} DroppedSnoc(before: seq<OrderData>, b: OrderData)
    ensures Dropped(before + [b]) <==> Dropped(before) || (Discounted(before) && b.discount <= 0)
  {
    var datas := before + [b];
    assert datas[|before|] == b;
    if Dropped(before) {
      var i, j :| 0 <= i < j < |before| && before[i].discount > 0 && before[j].discount <= 0;
      assert datas[i].discount > 0 && datas[j].discount <= 0;
    }
    if Discounted(before) {
      var i :| 0 <= i < |before| && before[i].discount > 0;
      assert datas[i].discount > 0;
    }
    if Dropped(datas) {
      var i, j :| 0 <= i < j < |datas| && datas[i].discount > 0 && datas[j].discount <= 0;
      assert before[i].discount > 0;
    }
  }

  lemma {:induction false} OneTaxIsKept(ts: seq<NamedAmount>)
    requires TaxCount(ts) <= 1
    ensures LostTaxes(ts) == 0
  {
    if ts != [] {
      OneTaxIsKept(ts[1..]);
      if TaxCount(ts[1..]) == 0 {
        NothingPositive(ts[1..]);
      }
    }
  }

  /** The ledger of a run without coupons: the discount line, at quantity zero once it was dropped. */
  ghost predicate PlainLedger(s: Ledger, discounted: bool, dropped: bool) {
    && s.taxes <= 1
    && s.deductions == if discounted then [Deduct("Discounts", if dropped then 0.0 else 1.0)] else []
  }

  lemma {:induction false} PlainAfter(s: Ledger, b: OrderData, discounted: bool, dropped: bool)
    requires Plain(b) && PlainLedger(s, discounted, dropped) && (dropped ==> discounted)
    ensures Accepts(s, b)
    ensures PlainLedger(After(s, b), discounted || b.discount > 0, dropped || (discounted && b.discount <= 0))
    ensures OffBy(s, b) == if dropped && b.discount > 0 then b.discount else 0
  {
    OneTaxIsKept(b.taxes);
    assert CouponNames([]) == [] && CouponAmount([], "Discounts") == 0 && NewCoupons(s.deductions, []) == [];
    if discounted {
      var d := s.deductions[0];
      assert s.deductions == [d] && s.deductions[1..] == [] && KeptAll([], b) == [] && AllNotTakenOff([], b) == 0;
      assert KeptAll(s.deductions, b) == [Kept(d, b)] && AllNotTakenOff(s.deductions, b) == NotTakenOff(d, b);
      assert After(s, b).deductions == [Kept(d, b)];
    } else {
      assert After(s, b).deductions == NewDiscount([], b);
    }
  }

  lemma {:induction false} PlainSnoc(before: seq<OrderData>, b: OrderData)
    requires Plain(b) && PlainLedger(LedgerAfter(before), Discounted(before), Dropped(before))
    ensures PlainLedger(LedgerAfter(before + [b]), Discounted(before + [b]), Dropped(before + [b]))
  {
    DiscountedSnoc(before, b);
    DroppedSnoc(before, b);
    DroppedMeans(before);
    assert (before + [b])[..|before|] == before;
    hide Dropped, Discounted, PlainLedger, After, Accepts, Plain;
    PlainAfter(LedgerAfter(before), b, Discounted(before), Dropped(before));
  }

  lemma {:induction false} PlainHistory(datas: seq<OrderData>)
    requires forall i :: 0 <= i < |datas| ==> Plain(datas[i])
    ensures PlainLedger(LedgerAfter(datas), Discounted(datas), Dropped(datas))
    decreases |datas|
  {
    if datas != [] {
      hide *;
      var before, b := datas[..|datas| - 1], datas[|datas| - 1];
      PlainHistory(before);
      assert datas == before + [b];
      PlainSnoc(before, b);
    }
  }

  lemma {:induction false} DroppedMeans(datas: seq<OrderData>)
    ensures Dropped(datas) ==> Discounted(datas)
  {
  }

  /** Over every run of data without coupons and with one tax at most: every update is accepted and the order asks
      exactly what a fresh order asks, unless a discount was dropped before and the latest data has one: then it
      asks that discount more. */
  lemma {:induction false} DiscountHistory(datas: seq<OrderData>, def: Defaults)
    requires |datas| > 1 && forall i :: 0 <= i < |datas| ==> Sellable(datas[i], def) && Plain(datas[i])
    ensures var n := |datas| - 1;
            && MergeCommands(History(datas[..n], def).lines, BuiltLines(datas[n], def)).Commands?
            && AmountTotal(History(datas, def).lines)
               == AmountTotal(Created(datas[n], def).lines)
                  + if Dropped(datas[..n]) && datas[n].discount > 0 then datas[n].discount else 0
  {
    hide *;
    var n := |datas| - 1;
    HistoryTotal(datas, def);
    PlainHistory(datas[..n]);
    DroppedMeans(datas[..n]);
    PlainAfter(LedgerAfter(datas[..n]), datas[n], Discounted(datas[..n]), Dropped(datas[..n]));
  }
}
