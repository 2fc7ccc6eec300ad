/** Sale order lines, the commands that change them, and the amounts they carry. */
module OrderLines {
  import opened Options
  import opened Sequences

  datatype Flag = Discount | Coupon | Tax | Handling | Wrapping | OtherFees | Delivery

  /** The values dictionary of one line command. A missing product means a section or a note, and a missing
      quantity, like the empty store id, a missing key. A missing price stands for an explicit None, which an
      update does not write; every dictionary of a product has the key. The importer's dictionaries of a
      product also clear the taxes of the line. */
  datatype Vals = Vals(product: Option<nat>, storeId: string, name: string,
                       qty: Option<real>, price: Option<real>, flags: map<Flag, bool>)

  /** A stored order line; product 0 is a section or a note. */
  datatype Line = Line(id: nat, product: nat, storeId: string, name: string,
                       qty: real, price: real, taxRate: real, flags: set<Flag>)

  /** (5,0,0), (0,0,vals), (1,id,vals) and (1,id,{'product_uom_qty': qty}). */
  datatype Command = Clear | Create(vals: Vals) | Write(id: nat, vals: Vals) | SetQty(id: nat, qty: real)

  datatype Order = Order(lines: seq<Line>, nextId: nat)

  // ------------------------------------------------------------------ amounts, in cents

  function RoundHalfUp(x: real): int {
    if x >= 0.0 then (x + 0.5).Floor else -((0.5 - x).Floor)
  }

  function Subtotal(price: real, qty: real): int {
    RoundHalfUp(100.0 * (price * qty))
  }

  function PriceSubtotal(l: Line): int {
    Subtotal(l.price, l.qty)
  }

  function PriceTax(l: Line): int {
    RoundHalfUp(100.0 * (l.price * l.qty * l.taxRate))
  }

  /** What a line adds to the total: a tax line adds its subtotal only. */
  function LineTotal(l: Line): int {
    PriceSubtotal(l) + if Tax in l.flags then 0 else PriceTax(l)
  }

  function UntaxedOf(l: Line): int {
    if Tax in l.flags then 0 else PriceSubtotal(l)
  }

  function TaxOf(l: Line): int {
    if Tax in l.flags then PriceSubtotal(l) else PriceTax(l)
  }

  function AmountTotal(lines: seq<Line>): int {
    SumOf(lines, LineTotal)
  }

  lemma {:induction false} LineTotalOfZero(l: Line)
    requires l.price * l.qty == 0.0
    ensures LineTotal(l) == 0
  {
    assert l.price * l.qty * l.taxRate == 0.0 * l.taxRate == 0.0;
    assert 100.0 * 0.0 == 0.0;
  }

  lemma {:induction false} LineTotalUntaxed(l: Line)
    requires l.taxRate == 0.0
    ensures LineTotal(l) == Subtotal(l.price, l.qty)
  {
    assert l.price * l.qty * l.taxRate == 0.0;
  }

  // ------------------------------------------------------------------ applying commands

  function SetFlags(flags: set<Flag>, written: map<Flag, bool>): set<Flag> {
    (flags - written.Keys) + (set f | f in written && written[f])
  }

  /** The line a create command stores. A product line without quantity gets the default 1. */
  function NewLine(id: nat, v: Vals): Line {
    match v.product
    case None => Line(id, 0, v.storeId, v.name, 0.0, 0.0, 0.0, SetFlags({}, v.flags))
    case Some(p) =>
      Line(id, p, v.storeId, v.name,
           if v.qty.Some? then v.qty.value else 1.0,
           if v.price.Some? then v.price.value else 0.0,
           0.0, SetFlags({}, v.flags))
  }

  /** A write keeps the product and every value the dictionary does not name. */
  function Rewrite(l: Line, v: Vals): Line {
    l.(storeId := if v.storeId != "" then v.storeId else l.storeId,
       name := v.name,
       qty := if v.qty.Some? then v.qty.value else l.qty,
       price := if v.price.Some? then v.price.value else l.price,
       taxRate := 0.0,
       flags := SetFlags(l.flags, v.flags))
  }

  /** A created line has the flags its dictionary sets true. */
  lemma {:induction false} NewFlags(id: nat, v: Vals, f: Flag)
    ensures f in NewLine(id, v).flags <==> f in v.flags && v.flags[f]
  {
  }

  /** A written line has the flags the dictionary sets true, and those it had that the dictionary does not
      name. */
  lemma {:induction false} RewrittenFlags(l: Line, v: Vals, f: Flag)
    ensures f in Rewrite(l, v).flags <==> (f in v.flags && v.flags[f]) || (f !in v.flags && f in l.flags)
  {
  }

  function ApplyOne(o: Order, c: Command): Order {
    match c
    case Clear => o.(lines := [])
    case Create(v) => Order(o.lines + [NewLine(o.nextId, v)], o.nextId + 1)
    case Write(id, v) =>
      o.(lines := seq(|o.lines|, i requires 0 <= i < |o.lines| =>
                        if o.lines[i].id == id then Rewrite(o.lines[i], v) else o.lines[i]))
    case SetQty(id, q) =>
      o.(lines := seq(|o.lines|, i requires 0 <= i < |o.lines| =>
                        if o.lines[i].id == id then o.lines[i].(qty := q) else o.lines[i]))
  }

  function Apply(o: Order, cs: seq<Command>): Order
    decreases |cs|
  {
    if cs == [] then o else Apply(ApplyOne(o, cs[0]), cs[1..])
  }

  lemma {:induction false} ApplyAppend(o: Order, a: seq<Command>, b: seq<Command>)
    ensures Apply(o, a + b) == Apply(Apply(o, a), b)
    decreases |a|
  {
    if a == [] {
      assert a + b == b;
    } else {
      assert (a + b)[1..] == a[1..] + b;
      ApplyAppend(ApplyOne(o, a[0]), a[1..], b);
    }
  }

  lemma {:induction false} ApplySingle(o: Order, c: Command)
    ensures Apply(o, [c]) == ApplyOne(o, c)
  {
    assert [c][1..] == [];
    assert Apply(ApplyOne(o, c), []) == ApplyOne(o, c);
  }

  /** The lines stored by creating every dictionary of vs in turn. */
  function NewLines(id: nat, vs: seq<Vals>): (r: seq<Line>)
    ensures |r| == |vs|
    decreases |vs|
  {
    if vs == [] then [] else [NewLine(id, vs[0])] + NewLines(id + 1, vs[1..])
  }

  function Creates(vs: seq<Vals>): (r: seq<Command>)
    ensures |r| == |vs|
    ensures forall i :: 0 <= i < |vs| ==> r[i] == Create(vs[i])
  {
    if vs == [] then [] else [Create(vs[0])] + Creates(vs[1..])
  }

  lemma {:induction false} ApplyCreates(o: Order, vs: seq<Vals>)
    ensures Apply(o, Creates(vs)) == Order(o.lines + NewLines(o.nextId, vs), o.nextId + |vs|)
    decreases |vs|
  {
    if vs == [] {
      assert o.lines + NewLines(o.nextId, vs) == o.lines;
    } else {
      var o1 := ApplyOne(o, Create(vs[0]));
      assert Creates(vs)[1..] == Creates(vs[1..]);
      ApplyCreates(o1, vs[1..]);
      assert o.lines + NewLines(o.nextId, vs) == o1.lines + NewLines(o1.nextId, vs[1..]);
    }
  }
}
