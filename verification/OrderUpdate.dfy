/** Updating an imported order: replacing the lines of a draft order, merging the store's data
    into the lines of a confirmed one. */
module OrderUpdate {
  import opened Options
  import opened Sequences
  import opened OrderLines

  /** `order_line.id` raises when the search kept more than one line. */
  datatype Outcome = Commands(cmds: seq<Command>) | NotSingleton

  predicate IsNonProduct(d: Vals) {
    exists f :: f in d.flags && d.flags[f]
  }

  predicate IsCoupon(d: Vals) {
    Coupon in d.flags && d.flags[Coupon]
  }

  /** A dictionary that names a product. */
  type ProductVals = v: Vals | v.product.Some? witness Vals(Some(1), "", "", None, None, map[])

  /** Is l one of the lines the store's data d is looked up to? By store id if it has one,
      by product for discounts, fees and taxes, and by name as well for coupons. */
  predicate Matched(l: Line, d: ProductVals) {
    && (if d.storeId != "" then l.storeId == d.storeId
        else IsNonProduct(d) && l.product == d.product.value)
    && (IsCoupon(d) ==> l.name == d.name)
  }

  function Matches(lines: seq<Line>, d: ProductVals): seq<Line> {
    if lines == [] then []
    else if Matched(lines[0], d) then [lines[0]] + Matches(lines[1..], d)
    else Matches(lines[1..], d)
  }

  lemma {:induction false} MatchesAre(lines: seq<Line>, d: ProductVals)
    ensures forall l :: l in Matches(lines, d) <==> l in lines && Matched(l, d)
  {
    if lines != [] {
      MatchesAre(lines[1..], d);
      assert forall l :: l in lines <==> l == lines[0] || l in lines[1..];
    }
  }

  function ProductData(ds: seq<Vals>): seq<ProductVals> {
    if ds == [] then []
    else if ds[0].product.Some? then [ds[0]] + ProductData(ds[1..])
    else ProductData(ds[1..])
  }

  predicate NewDisplay(lines: seq<Line>, d: Vals) {
    d.product.None? && forall l :: l in lines && l.product == 0 ==> l.name != d.name
  }

  function DisplayData(lines: seq<Line>, ds: seq<Vals>): seq<Vals> {
    if ds == [] then []
    else if NewDisplay(lines, ds[0]) then [ds[0]] + DisplayData(lines, ds[1..])
    else DisplayData(lines, ds[1..])
  }

  /** What one product dictionary becomes. */
  function DataCommand(lines: seq<Line>, d: ProductVals): Outcome {
    var found := Matches(lines, d);
    if found == [] then Commands([Create(d)])
    else if d.price.None? then Commands([])
    else if |found| > 1 then NotSingleton
    else Commands([Write(found[0].id, d)])
  }

  function DataCommands(lines: seq<Line>, ps: seq<ProductVals>): Outcome {
    if ps == [] then Commands([])
    else
      Then(DataCommand(lines, ps[0]), DataCommands(lines, ps[1..]))
  }

  function Then(a: Outcome, b: Outcome): Outcome {
    if a.NotSingleton? || b.NotSingleton? then NotSingleton else Commands(a.cmds + b.cmds)
  }

  lemma {:induction false} DataCommandsFrom(lines: seq<Line>, ps: seq<ProductVals>, k: nat, values: seq<Command>)
    requires k < |ps|
    ensures var head := DataCommand(lines, ps[k]);
            Then(Commands(values), DataCommands(lines, ps[k..])) ==
            if head.NotSingleton? then NotSingleton
            else Then(Commands(values + head.cmds), DataCommands(lines, ps[k + 1..]))
  {
    assert ps[k..][1..] == ps[k + 1..];
    var head, tail := DataCommand(lines, ps[k]), DataCommands(lines, ps[k + 1..]);
    if head.Commands? && tail.Commands? {
      assert values + (head.cmds + tail.cmds) == values + head.cmds + tail.cmds;
    }
  }

  /** Is l looked up by some dictionary of ps? */
  predicate LookedUp(l: Line, ps: seq<ProductVals>) {
    ps != [] && (Matched(l, ps[0]) || LookedUp(l, ps[1..]))
  }

  lemma {:induction false} LookedUpSnoc(l: Line, ps: seq<ProductVals>, d: ProductVals)
    ensures LookedUp(l, ps + [d]) == (LookedUp(l, ps) || Matched(l, d))
  {
    if ps == [] {
      assert ([] + [d])[1..] == [];
    } else {
      assert (ps + [d])[1..] == ps[1..] + [d];
      LookedUpSnoc(l, ps[1..], d);
    }
  }

  /** updated holds exactly the lines some dictionary of ps was looked up to. */
  ghost predicate UpdatedBy(updated: set<Line>, lines: seq<Line>, ps: seq<ProductVals>) {
    forall l :: l in lines ==> (l in updated <==> LookedUp(l, ps))
  }

  lemma {:induction false} UpdatedByOneMore(updated: set<Line>, lines: seq<Line>, ps: seq<ProductVals>, k: nat)
    requires k < |ps|
    requires UpdatedBy(updated, lines, ps[..k])
    ensures UpdatedBy(updated + (set l | l in Matches(lines, ps[k])), lines, ps[..k + 1])
  {
    MatchesAre(lines, ps[k]);
    assert ps[..k + 1] == ps[..k] + [ps[k]];
    forall l | l in lines ensures LookedUp(l, ps[..k + 1]) == (LookedUp(l, ps[..k]) || Matched(l, ps[k])) {
      LookedUpSnoc(l, ps[..k], ps[k]);
    }
  }

  predicate Removed(l: Line, ps: seq<ProductVals>) {
    l.product != 0 && !LookedUp(l, ps)
  }

  function RemovedCommands(lines: seq<Line>, ps: seq<ProductVals>): seq<Command> {
    if lines == [] then []
    else (if Removed(lines[0], ps) then [SetQty(lines[0].id, 0.0)] else []) + RemovedCommands(lines[1..], ps)
  }

  /** The commands that merge the store's data ds into the lines of a confirmed order. */
  function MergeCommands(lines: seq<Line>, ds: seq<Vals>): Outcome {
    var ps := ProductData(ds);
    match DataCommands(lines, ps)
    case NotSingleton => NotSingleton
    case Commands(cs) =>
      Commands(cs + RemovedCommands(lines, ps) + Creates(DisplayData(lines, ds)))
  }

  /** The draft path: clear all lines, create those of the store. */
  function Replaced(o: Order, ds: seq<Vals>): Order {
    Apply(o, [Clear] + Creates(ds))
  }

  // ------------------------------------------------------------------ the order record

  class SaleOrder {
    var lines: seq<Line>
    var nextId: nat
    var confirmed: bool
    var amountUntaxed: int
    var amountTax: int
    var amountTotal: int

    constructor (lines: seq<Line>, nextId: nat, confirmed: bool)
      ensures this.lines == lines && this.nextId == nextId && this.confirmed == confirmed
    {
      this.lines, this.nextId, this.confirmed := lines, nextId, confirmed;
    }

    function Content(): Order
      reads this
    {
      Order(lines, nextId)
    }

    /** The loop over the product dictionaries: the commands, and the lines looked up. */
    method LookUpProductLines(ps: seq<ProductVals>) returns (r: Outcome, updated: set<Line>)
      ensures r == DataCommands(lines, ps)
      ensures r.Commands? ==> UpdatedBy(updated, lines, ps)
    {
      var values: seq<Command> := [];
      updated := {};
      var k := 0;
      assert ps[k..] == ps;
      while k < |ps|
        invariant 0 <= k <= |ps|
        invariant UpdatedBy(updated, lines, ps[..k])
        invariant DataCommands(lines, ps) == Then(Commands(values), DataCommands(lines, ps[k..]))
      {
        var d := ps[k];
        var found := Matches(lines, d);
        DataCommandsFrom(lines, ps, k, values);
        UpdatedByOneMore(updated, lines, ps, k);
        updated := updated + (set l | l in found);
        if found == [] {
          values := values + [Create(d)];
        } else if d.price.Some? {
          if |found| > 1 {
            return NotSingleton, updated;
          }
          values := values + [Write(found[0].id, d)];
        } else {
          assert values == values + [];
        }
        k := k + 1;
      }
      assert ps[|ps|..] == [] && ps[..|ps|] == ps;
      assert values + [] == values;
      r := Commands(values);
    }

    /** `_process_update_order_line` */
    method ProcessUpdateOrderLine(ds: seq<Vals>) returns (r: Outcome)
      ensures r == MergeCommands(lines, ds)
    {
      var ps := ProductData(ds);
      var data, updated := LookUpProductLines(ps);
      if data.NotSingleton? {
        return NotSingleton;
      }
      var zeroed: seq<Command> := [];
      var i := 0;
      while i < |lines|
        invariant 0 <= i <= |lines|
        invariant RemovedCommands(lines, ps) == zeroed + RemovedCommands(lines[i..], ps)
      {
        assert lines[i..][1..] == lines[i + 1..];
        if lines[i].product != 0 && lines[i] !in updated {
          zeroed := zeroed + [SetQty(lines[i].id, 0.0)];
        }
        i := i + 1;
      }
      assert lines[|lines|..] == [] && zeroed + [] == zeroed;
      return Commands(data.cmds + zeroed + Creates(DisplayData(lines, ds)));
    }

    /** `write` of a one2many command list. */
    method WriteLines(cmds: seq<Command>)
      modifies this`lines, this`nextId
      ensures Content() == Apply(old(Content()), cmds)
    {
      var k := 0;
      while k < |cmds|
        invariant 0 <= k <= |cmds|
        invariant Apply(Content(), cmds[k..]) == Apply(old(Content()), cmds)
      {
        var next := ApplyOne(Content(), cmds[k]);
        assert cmds[k..][1..] == cmds[k + 1..];
        lines, nextId := next.lines, next.nextId;
        k := k + 1;
      }
    }

    /** `_amount_all` */
    method AmountAll()
      modifies this`amountUntaxed, this`amountTax, this`amountTotal
      ensures amountUntaxed == SumOf(lines, UntaxedOf)
      ensures amountTax == SumOf(lines, TaxOf)
      ensures amountTotal == AmountTotal(lines)
    {
      var untaxed, tax := 0, 0;
      for k := 0 to |lines|
        invariant untaxed == SumOf(lines[..k], UntaxedOf)
        invariant tax == SumOf(lines[..k], TaxOf)
        invariant untaxed + tax == SumOf(lines[..k], LineTotal)
      {
        var line := lines[k];
        assert lines[..k + 1] == lines[..k] + [line];
        SumOfSnoc(lines[..k], line, UntaxedOf);
        SumOfSnoc(lines[..k], line, TaxOf);
        SumOfSnoc(lines[..k], line, LineTotal);
        if Tax in line.flags {
          tax := tax + PriceSubtotal(line);
        } else {
          untaxed := untaxed + PriceSubtotal(line);
          tax := tax + PriceTax(line);
        }
      }
      assert lines[..|lines|] == lines;
      amountUntaxed, amountTax, amountTotal := untaxed, tax, untaxed + tax;
    }

    /** `_update_in_queue_job`, as far as the lines are concerned; false when it raises. */
    method UpdateInQueueJob(ds: seq<Vals>) returns (ok: bool)
      modifies this
      ensures confirmed == old(confirmed)
      ensures ok == (confirmed ==> MergeCommands(old(lines), ds).Commands?)
      ensures !ok ==> Content() == old(Content())
      ensures ok && !confirmed ==> Content() == Replaced(old(Content()), ds)
      ensures ok && confirmed ==> Content() == Apply(old(Content()), MergeCommands(old(lines), ds).cmds)
      ensures ok ==> amountTotal == AmountTotal(lines)
    {
      var cmds := [Clear] + Creates(ds);
      if confirmed {
        var r := ProcessUpdateOrderLine(ds);
        if r.NotSingleton? {
          return false;
        }
        cmds := r.cmds;
      }
      WriteLines(cmds);
      AmountAll();
      return true;
    }
  }
}
