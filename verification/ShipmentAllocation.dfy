/** Spreading the shipped quantity of a product over the moves of a transfer, smallest demand first.
    Quantities are in hundredths, in one unit of measure. */
module ShipmentAllocation {
  import Sequences

  datatype Line = Line(id: nat, product: nat, demand: int)

  /** An item of a shipment, with the product of the order line it matches. */
  datatype Item = Item(product: nat, quantity: int)

  datatype Write = Write(id: nat, quantity: int)

  type Quantities = map<nat, int>

  function Of(lines: seq<Line>, product: nat): seq<Line> {
    if lines == [] then []
    else (if lines[0].product == product then [lines[0]] else []) + Of(lines[1..], product)
  }

  function Demand(): Line -> int { (l: Line) => l.demand }

  /** The moves of a product in the order the shipment fills them. */
  function Ordered(lines: seq<Line>, product: nat): seq<Line> {
    Sequences.SortBy(Of(lines, product), Demand())
  }

  /** What the loop over the ordered moves writes. */
  function Allocate(ls: seq<Line>, remaining: int): seq<Write> {
    if ls == [] || remaining == 0 then []
    else
      var quantity := if ls[0].demand < remaining && |ls| > 1 then ls[0].demand else remaining;
      [Write(ls[0].id, quantity)] + Allocate(ls[1..], remaining - quantity)
  }

  function AllWrites(lines: seq<Line>, items: seq<Item>): seq<Write> {
    if items == [] then []
    else Allocate(Ordered(lines, items[0].product), items[0].quantity) + AllWrites(lines, items[1..])
  }

  function Get(done: Quantities, id: nat): int { if id in done then done[id] else 0 }

  /** The done quantities once the writes are applied in order. */
  function DoneAfter(done: Quantities, writes: seq<Write>): Quantities
    decreases |writes|
  {
    if writes == [] then done else DoneAfter(done[writes[0].id := writes[0].quantity], writes[1..])
  }

  // ------------------------------------------------------------------ the code

  lemma {:induction false} AllocateStep(ls: seq<Line>, k: nat, remaining: int, quantity: int, before: seq<Write>)
    requires k < |ls| && remaining != 0
    requires quantity == if ls[k].demand < remaining && k != |ls| - 1 then ls[k].demand else remaining
    ensures before + Allocate(ls[k..], remaining)
            == (before + [Write(ls[k].id, quantity)]) + Allocate(ls[k + 1..], remaining - quantity)
  {
    assert ls[k..][1..] == ls[k + 1..];
    Sequences.Regroup(before, [Write(ls[k].id, quantity)], Allocate(ls[k + 1..], remaining - quantity));
  }

  /** The loop over the moves of one item's product. */
  method AllocateItem(ls: seq<Line>, shipped: int) returns (writes: seq<Write>)
    ensures writes == Allocate(ls, shipped)
  {
    writes := [];
    var remaining := shipped;
    var index := 0;
    assert ls[0..] == ls;
    while index < |ls| && remaining != 0
      invariant 0 <= index <= |ls|
      invariant Allocate(ls, shipped) == writes + Allocate(ls[index..], remaining)
    {
      var line := ls[index];
      var quantity;
      ghost var was := remaining;
      if line.demand < remaining {
        quantity := line.demand;
        if index == |ls| - 1 {
          quantity := remaining;
        }
        remaining := remaining - quantity;
      } else {
        quantity := remaining;
        remaining := 0;
      }
      AllocateStep(ls, index, was, quantity, writes);
      writes := writes + [Write(line.id, quantity)];
      index := index + 1;
    }
    assert writes + Allocate(ls[index..], remaining) == writes;
  }

  /** `_process_shipment_get_lines` */
  method ProcessShipmentGetLines(lines: seq<Line>, items: seq<Item>) returns (writes: seq<Write>)
    ensures writes == AllWrites(lines, items)
  {
    writes := [];
    var i := 0;
    while i < |items|
      invariant 0 <= i <= |items|
      invariant AllWrites(lines, items) == writes + AllWrites(lines, items[i..])
    {
      var more := AllocateItem(Ordered(lines, items[i].product), items[i].quantity);
      assert items[i..][1..] == items[i + 1..];
      Sequences.Regroup(writes, more, AllWrites(lines, items[i + 1..]));
      writes := writes + more;
      i := i + 1;
    }
    assert writes + AllWrites(lines, items[|items|..]) == writes;
  }

  // ------------------------------------------------------------------ which moves get what

  predicate DemandsOk(ls: seq<Line>) {
    forall i :: 0 <= i < |ls| ==> ls[i].demand >= 0
  }

  function TotalDemand(ls: seq<Line>): int { Sequences.SumOf(ls, Demand()) }

  function Min(a: int, b: int): int { if a < b then a else b }

  /** Every move but the last gets the smaller of its demand and what the earlier ones left; the last
      gets all that is left. A move is written exactly when something is left for it. */
  lemma {:induction false} AllocatedAt(ls: seq<Line>, shipped: int, k: nat)
    requires DemandsOk(ls) && shipped >= 0 && k < |ls|
    ensures |Allocate(ls, shipped)| <= |ls|
    ensures k < |Allocate(ls, shipped)| <==> TotalDemand(ls[..k]) < shipped
    ensures k < |Allocate(ls, shipped)| ==>
              var left := shipped - TotalDemand(ls[..k]);
              Allocate(ls, shipped)[k] == Write(ls[k].id, if k == |ls| - 1 then left else Min(ls[k].demand, left))
  {
    AllocatedLength(ls, shipped);
    if k > 0 {
      assert ls[..k][0] == ls[0] && ls[..k][1..] == ls[1..][..k - 1];
      assert forall i :: 0 <= i < |ls[1..]| ==> ls[1..][i] == ls[i + 1];
      PrefixDemand(ls[1..], k - 1);
      if shipped > 0 {
        var quantity := if ls[0].demand < shipped && |ls| > 1 then ls[0].demand else shipped;
        AllocatedAt(ls[1..], shipped - quantity, k - 1);
      }
    }
  }

  lemma {:induction false} AllocatedLength(ls: seq<Line>, shipped: int)
    ensures |Allocate(ls, shipped)| <= |ls|
  {
    if ls != [] && shipped != 0 {
      AllocatedLength(ls[1..], shipped - (if ls[0].demand < shipped && |ls| > 1 then ls[0].demand else shipped));
    }
  }

  lemma {:induction false} PrefixDemand(ls: seq<Line>, k: nat)
    requires DemandsOk(ls) && k <= |ls|
    ensures TotalDemand(ls[..k]) >= 0
  {
    Sequences.SumOfNonNegative(ls[..k], Demand());
  }

  /** Only the last move in demand order can exceed its demand, it does so exactly when more is shipped
      than demanded, and by exactly the excess. */
  lemma {:induction false} OnlyLastExceeds(ls: seq<Line>, shipped: int, k: nat)
    requires DemandsOk(ls) && shipped >= 0 && k < |Allocate(ls, shipped)|
    ensures |Allocate(ls, shipped)| <= |ls|
    ensures Allocate(ls, shipped)[k].quantity > ls[k].demand <==> k == |ls| - 1 && shipped > TotalDemand(ls)
    ensures k == |ls| - 1 ==> Allocate(ls, shipped)[k].quantity - ls[k].demand == shipped - TotalDemand(ls)
  {
    AllocatedLength(ls, shipped);
    AllocatedAt(ls, shipped, k);
    if k == |ls| - 1 {
      assert ls == ls[..k] + [ls[k]];
      Sequences.SumOfSnoc(ls[..k], ls[k], Demand());
    }
  }

  // ------------------------------------------------------------------ conservation

  ghost predicate DistinctIds(ls: seq<Line>) {
    forall i, j :: 0 <= i < j < |ls| ==> ls[i].id != ls[j].id
  }

  function DoneOf(done: Quantities): Line -> int { (l: Line) => Get(done, l.id) }

  /** The done quantity of a product over the moves of the transfer. */
  function DoneTotal(ls: seq<Line>, done: Quantities): int { Sequences.SumOf(ls, DoneOf(done)) }

  lemma {:induction false} ElsewhereUntouched(ls: seq<Line>, remaining: int, done: Quantities, id: nat)
    requires forall l :: l in ls ==> l.id != id
    ensures Get(DoneAfter(done, Allocate(ls, remaining)), id) == Get(done, id)
    decreases |ls|
  {
    if ls != [] && remaining != 0 {
      var quantity := if ls[0].demand < remaining && |ls| > 1 then ls[0].demand else remaining;
      var writes := Allocate(ls, remaining);
      assert writes[0] == Write(ls[0].id, quantity) && writes[1..] == Allocate(ls[1..], remaining - quantity);
      ElsewhereUntouched(ls[1..], remaining - quantity, done[ls[0].id := quantity], id);
    }
  }

  lemma {:induction false} SameTotal(ls: seq<Line>, d: Quantities, e: Quantities)
    requires forall l :: l in ls ==> Get(d, l.id) == Get(e, l.id)
    ensures DoneTotal(ls, d) == DoneTotal(ls, e)
  {
    if ls != [] {
      SameTotal(ls[1..], d, e);
    }
  }

  /** The first move that is sure to get something: the first with a demand, or else the last. */
  function Anchor(ls: seq<Line>): nat
    requires ls != []
  {
    if |ls| == 1 || ls[0].demand > 0 then ls[0].id else Anchor(ls[1..])
  }

  lemma {:induction false} AnchorIn(ls: seq<Line>)
    requires ls != []
    ensures exists l :: l in ls && l.id == Anchor(ls)
  {
    if |ls| == 1 || ls[0].demand > 0 {
      assert ls[0] in ls;
    } else {
      AnchorIn(ls[1..]);
      var l :| l in ls[1..] && l.id == Anchor(ls[1..]);
      assert l in ls;
    }
  }

  ghost predicate NonNegativeOn(ls: seq<Line>, done: Quantities) {
    forall l :: l in ls ==> Get(done, l.id) >= 0
  }

  ghost predicate ZeroOn(ls: seq<Line>, done: Quantities) {
    forall l :: l in ls ==> Get(done, l.id) == 0
  }

  /** Writing one item to moves that have nothing done leaves exactly the shipped quantity on them. */
  lemma {:induction false} ItemIsSpread(ls: seq<Line>, shipped: int, done: Quantities)
    requires ls != [] && DistinctIds(ls) && ZeroOn(ls, done)
    ensures DoneTotal(ls, DoneAfter(done, Allocate(ls, shipped))) == shipped
    decreases |ls|
  {
    if shipped == 0 {
      TotalOfZero(ls, done);
    } else {
      var quantity := if ls[0].demand < shipped && |ls| > 1 then ls[0].demand else shipped;
      var done1 := done[ls[0].id := quantity];
      var writes := Allocate(ls, shipped);
      assert writes[0] == Write(ls[0].id, quantity) && writes[1..] == Allocate(ls[1..], shipped - quantity);
      assert forall l :: l in ls[1..] ==> l in ls && l.id != ls[0].id;
      ElsewhereUntouched(ls[1..], shipped - quantity, done1, ls[0].id);
      if |ls| > 1 {
        ItemIsSpread(ls[1..], shipped - quantity, done1);
      } else {
        TotalOfZero(ls[1..], done1);
      }
    }
  }

  lemma {:induction false} TotalOfZero(ls: seq<Line>, done: Quantities)
    requires ZeroOn(ls, done)
    ensures DoneTotal(ls, done) == 0
  {
    if ls != [] {
      TotalOfZero(ls[1..], done);
    }
  }

  /** Writing the first move, then the rest. */
  lemma {:induction false} FirstThenRest(ls: seq<Line>, shipped: int, done: Quantities, quantity: int)
    requires ls != [] && DistinctIds(ls) && DemandsOk(ls) && NonNegativeOn(ls, done) && shipped > 0
    requires quantity == if ls[0].demand < shipped && |ls| > 1 then ls[0].demand else shipped
    ensures var done1 := done[ls[0].id := quantity];
            var after := DoneAfter(done, Allocate(ls, shipped));
            && after == DoneAfter(done1, Allocate(ls[1..], shipped - quantity))
            && DistinctIds(ls[1..]) && DemandsOk(ls[1..]) && NonNegativeOn(ls[1..], done1)
            && Get(after, ls[0].id) == quantity >= 0
            && DoneTotal(ls[1..], done1) == DoneTotal(ls[1..], done)
            && forall l :: l in ls[1..] ==> Get(done1, l.id) == Get(done, l.id)
  {
    var writes := Allocate(ls, shipped);
    assert writes[0] == Write(ls[0].id, quantity) && writes[1..] == Allocate(ls[1..], shipped - quantity);
    assert forall i :: 0 <= i < |ls[1..]| ==> ls[1..][i] == ls[i + 1];
    assert forall l :: l in ls[1..] ==> l in ls && l.id != ls[0].id;
    ElsewhereUntouched(ls[1..], shipped - quantity, done[ls[0].id := quantity], ls[0].id);
    SameTotal(ls[1..], done, done[ls[0].id := quantity]);
  }

  /** Writing a positive quantity overwrites what the anchor had, and leaves something on it. */
  lemma {:induction false} ItemOverwrites(ls: seq<Line>, shipped: int, done: Quantities)
    requires ls != [] && DistinctIds(ls) && DemandsOk(ls) && NonNegativeOn(ls, done) && shipped > 0
    ensures var after := DoneAfter(done, Allocate(ls, shipped));
            && NonNegativeOn(ls, after) && Get(after, Anchor(ls)) > 0
            && DoneTotal(ls, after) <= DoneTotal(ls, done) + shipped - Get(done, Anchor(ls))
    decreases |ls|
  {
    var quantity := if ls[0].demand < shipped && |ls| > 1 then ls[0].demand else shipped;
    FirstThenRest(ls, shipped, done, quantity);
    assert forall l :: l in ls ==> l == ls[0] || l in ls[1..];
    assert ls[0] in ls;
    if ls[1..] != [] {
      AnchorIn(ls[1..]);
    }
    if quantity < shipped {
      ItemOverwrites(ls[1..], shipped - quantity, done[ls[0].id := quantity]);
    }
  }

  function Shipped(items: seq<Item>, product: nat): int {
    if items == [] then 0
    else (if items[0].product == product then items[0].quantity else 0) + Shipped(items[1..], product)
  }

  /** How many items ship something of the product. */
  function ItemsWith(items: seq<Item>, product: nat): nat {
    if items == [] then 0
    else (if items[0].product == product && items[0].quantity != 0 then 1 else 0) + ItemsWith(items[1..], product)
  }

  predicate QuantitiesOk(items: seq<Item>) {
    forall i :: 0 <= i < |items| ==> items[i].quantity >= 0
  }

  lemma {:induction false} OfIn(lines: seq<Line>, product: nat)
    ensures forall l :: l in Of(lines, product) <==> l in lines && l.product == product
  {
    if lines != [] {
      OfIn(lines[1..], product);
      assert forall l :: l in lines <==> l == lines[0] || l in lines[1..];
    }
  }

  lemma {:induction false} OfDistinct(lines: seq<Line>, product: nat)
    requires DistinctIds(lines)
    ensures DistinctIds(Of(lines, product))
  {
    if lines != [] {
      OfDistinct(lines[1..], product);
      OfIn(lines[1..], product);
      assert forall l :: l in lines[1..] ==> l.id != lines[0].id;
    }
  }

  lemma {:induction false} DistinctPermutation(a: seq<Line>, b: seq<Line>)
    requires DistinctIds(a) && multiset(a) == multiset(b)
    ensures DistinctIds(b)
  {
    forall i, j | 0 <= i < j < |b| ensures b[i].id != b[j].id {
      if b[i] == b[j] {
        TwiceCounted(b, i, j);
        assert multiset(a)[b[i]] >= 2;
        OnceCounted(a, b[i]);
      } else {
        assert b[i] in multiset(a) && b[j] in multiset(a);
        var p :| 0 <= p < |a| && a[p] == b[i];
        var q :| 0 <= q < |a| && a[q] == b[j];
        assert p < q || q < p;
      }
    }
  }

  lemma {:induction false} TwiceCounted(b: seq<Line>, i: nat, j: nat)
    requires i < j < |b| && b[i] == b[j]
    ensures multiset(b)[b[i]] >= 2
  {
    assert b == b[..j] + b[j..];
    assert multiset(b) == multiset(b[..j]) + multiset(b[j..]);
    assert b[..j][i] == b[i] && b[j..][0] == b[j];
    assert b[i] in b[..j] && b[i] in b[j..];
  }

  lemma {:induction false} OnceCounted(a: seq<Line>, l: Line)
    requires DistinctIds(a)
    ensures multiset(a)[l] <= 1
  {
    if a != [] {
      assert a == [a[0]] + a[1..];
      assert multiset(a) == multiset{a[0]} + multiset(a[1..]);
      OnceCounted(a[1..], l);
      if a[0] == l {
        assert forall k :: 0 <= k < |a[1..]| ==> a[1..][k] == a[k + 1];
        assert l !in a[1..];
      }
    }
  }

  /** The ordered moves of a product are its moves, whatever the order. */
  lemma {:induction false} OrderedIs(lines: seq<Line>, product: nat)
    requires DistinctIds(lines)
    ensures DistinctIds(Ordered(lines, product)) && multiset(Ordered(lines, product)) == multiset(Of(lines, product))
    ensures forall l :: l in Ordered(lines, product) <==> l in lines && l.product == product
    ensures Sequences.SortedBy(Ordered(lines, product), Demand())
  {
    OfDistinct(lines, product);
    OfIn(lines, product);
    Sequences.SortBySorted(Of(lines, product), Demand());
    DistinctPermutation(Of(lines, product), Ordered(lines, product));
  }

  /** One item, seen from the moves of a product: its own item writes them, any other leaves them. */
  lemma {:induction false} ItemEffect(lines: seq<Line>, item: Item, product: nat, done: Quantities)
    requires DistinctIds(lines) && DemandsOk(lines) && Of(lines, product) != [] && item.quantity >= 0
    requires NonNegativeOn(Ordered(lines, product), done)
    ensures var ls := Ordered(lines, product);
            var after := DoneAfter(done, Allocate(Ordered(lines, item.product), item.quantity));
            && ls != [] && NonNegativeOn(ls, after)
            && (item.product != product || item.quantity == 0 ==>
                  && DoneTotal(ls, after) == DoneTotal(ls, done)
                  && Get(after, Anchor(ls)) == Get(done, Anchor(ls))
                  && (ZeroOn(ls, done) ==> ZeroOn(ls, after)))
            && (item.product == product && item.quantity > 0 ==>
                  && Get(after, Anchor(ls)) > 0
                  && DoneTotal(ls, after) <= DoneTotal(ls, done) + item.quantity - Get(done, Anchor(ls))
                  && (ZeroOn(ls, done) ==> DoneTotal(ls, after) == item.quantity))
  {
    var ls := Ordered(lines, product);
    OrderedIs(lines, product);
    OrderedIs(lines, item.product);
    if item.product == product && item.quantity > 0 {
      assert DemandsOk(ls);
      ItemOverwrites(ls, item.quantity, done);
      if ZeroOn(ls, done) {
        ItemIsSpread(ls, item.quantity, done);
      }
    } else if item.quantity != 0 {
      var after := DoneAfter(done, Allocate(Ordered(lines, item.product), item.quantity));
      forall l | l in ls ensures Get(after, l.id) == Get(done, l.id) {
        assert forall m :: m in Ordered(lines, item.product) ==> m.id != l.id by {
          DistinctMeans(lines, l);
        }
        ElsewhereUntouched(Ordered(lines, item.product), item.quantity, done, l.id);
      }
      SameTotal(ls, done, after);
      AnchorIn(ls);
    }
  }

  lemma {:induction false} DistinctMeans(lines: seq<Line>, l: Line)
    requires DistinctIds(lines) && l in lines
    ensures forall m :: m in lines && m.id == l.id ==> m == l
  {
  }

  lemma {:induction false} DoneAfterAppend(done: Quantities, a: seq<Write>, b: seq<Write>)
    ensures DoneAfter(done, a + b) == DoneAfter(DoneAfter(done, a), b)
    decreases |a|
  {
    if a == [] {
      assert a + b == b;
    } else {
      assert (a + b)[1..] == a[1..] + b;
      DoneAfterAppend(done[a[0].id := a[0].quantity], a[1..], b);
    }
  }

  /** The moves of a product once the items are written, from any done quantities. */
  lemma {:induction false} ItemsEffect(lines: seq<Line>, items: seq<Item>, product: nat, done: Quantities)
    requires DistinctIds(lines) && DemandsOk(lines) && Of(lines, product) != [] && QuantitiesOk(items)
    requires NonNegativeOn(Ordered(lines, product), done)
    ensures Ordered(lines, product) != []
    ensures var ls := Ordered(lines, product);
            var after := DoneAfter(done, AllWrites(lines, items));
            && (ItemsWith(items, product) == 0 ==>
                  DoneTotal(ls, after) == DoneTotal(ls, done) && Shipped(items, product) == 0)
            && DoneTotal(ls, after) <= DoneTotal(ls, done) + Shipped(items, product)
            && (ItemsWith(items, product) >= 1 && Get(done, Anchor(ls)) > 0 ==>
                  DoneTotal(ls, after) < DoneTotal(ls, done) + Shipped(items, product))
            && (ItemsWith(items, product) == 1 && ZeroOn(ls, done) ==> DoneTotal(ls, after) == Shipped(items, product))
            && (ItemsWith(items, product) >= 2 ==>
                  DoneTotal(ls, after) < DoneTotal(ls, done) + Shipped(items, product))
    decreases |items|
  {
    OrderedIs(lines, product);
    var ls := Ordered(lines, product);
    if items == [] {
      assert ls != [];
    } else {
      var writes := Allocate(Ordered(lines, items[0].product), items[0].quantity);
      var done1 := DoneAfter(done, writes);
      DoneAfterAppend(done, writes, AllWrites(lines, items[1..]));
      ItemEffect(lines, items[0], product, done);
      AnchorIn(ls);
      ItemsEffect(lines, items[1..], product, done1);
      if ZeroOn(ls, done) {
        TotalOfZero(ls, done);
      }
    }
  }

  /** A shipment into a transfer with nothing done leaves on the moves of a product exactly what it
      ships of that product, if and only if at most one item ships something of it. */
  lemma {:induction false} ShipmentConservesIff(lines: seq<Line>, items: seq<Item>, product: nat)
    requires DistinctIds(lines) && DemandsOk(lines) && QuantitiesOk(items) && Of(lines, product) != []
    ensures DoneTotal(Of(lines, product), DoneAfter(map[], AllWrites(lines, items))) == Shipped(items, product)
            <==> ItemsWith(items, product) <= 1
  {
    var ls := Ordered(lines, product);
    OrderedIs(lines, product);
    assert ZeroOn(ls, map[]) && NonNegativeOn(ls, map[]);
    TotalOfZero(ls, map[]);
    ItemsEffect(lines, items, product, map[]);
    Sequences.SumOfPermutation(Of(lines, product), ls, DoneOf(DoneAfter(map[], AllWrites(lines, items))));
  }

  /** Two items of one product, 3.00 and 2.00, on a single move of 5.00: only 2.00 are done. */
  lemma {:induction false} RepeatedProductLost()
    ensures var lines := [Line(1, 7, 500)];
            DoneTotal(Of(lines, 7), DoneAfter(map[], AllWrites(lines, [Item(7, 300), Item(7, 200)]))) < 500
  {
    var lines, items := [Line(1, 7, 500)], [Item(7, 300), Item(7, 200)];
    assert items[1..] == [Item(7, 200)] && items[1..][1..] == [] && lines[1..] == [];
    assert Shipped([], 7) == 0 && ItemsWith([], 7) == 0;
    assert Shipped([Item(7, 200)], 7) == 200 && ItemsWith([Item(7, 200)], 7) == 1;
    assert Shipped(items, 7) == 500 && ItemsWith(items, 7) == 2;
    assert Of(lines, 7) == [Line(1, 7, 500)];
    ShipmentConservesIff(lines, items, 7);
    OrderedIs(lines, 7);
    TotalOfZero(Ordered(lines, 7), map[]);
    ItemsEffect(lines, items, 7, map[]);
    Sequences.SumOfPermutation(Of(lines, 7), Ordered(lines, 7), DoneOf(DoneAfter(map[], AllWrites(lines, items))));
  }

  // ------------------------------------------------------------------ service transfers

  /** The plan and done quantities after the loop over the ordered service moves. */
  function ServiceFill(ls: seq<Line>, remaining: int, plan: Quantities, done: Quantities): (Quantities, Quantities)
    decreases |ls|
  {
    if ls == [] || remaining == 0 then (plan, done)
    else if ls[0].demand < remaining && |ls| == 1 then
      (plan[ls[0].id := remaining], done[ls[0].id := remaining])
    else
      var quantity := Min(ls[0].demand, remaining);
      ServiceFill(ls[1..], remaining - quantity, plan[ls[0].id := ls[0].demand], done[ls[0].id := quantity])
  }

  /** The moves with their current plan as demand. */
  function WithPlan(lines: seq<Line>, plan: Quantities): (r: seq<Line>)
    ensures |r| == |lines|
  {
    seq(|lines|, i requires 0 <= i < |lines| => lines[i].(demand := Get(plan, lines[i].id)))
  }

  /** The items of a service shipment one after the other: each sees the plans that the ones before raised. */
  function ServiceItems(lines: seq<Line>, items: seq<Item>, plan: Quantities, done: Quantities): (Quantities, Quantities)
    decreases |items|
  {
    if items == [] then (plan, done)
    else
      var next := ServiceFill(Ordered(WithPlan(lines, plan), items[0].product), items[0].quantity, plan, done);
      ServiceItems(lines, items[1..], next.0, next.1)
  }

  class ServiceTransfer {
    const lines: seq<Line>
    var plan: Quantities
    var done: Quantities

    constructor (lines: seq<Line>, plan: Quantities, done: Quantities)
      ensures this.lines == lines && this.plan == plan && this.done == done
    {
      this.lines, this.plan, this.done := lines, plan, done;
    }

    /** One item of `process_shipment_data_from_channel`. */
    method ProcessItem(item: Item)
      requires DistinctIds(lines)
      modifies this
      ensures (plan, done) == ServiceFill(Ordered(WithPlan(lines, old(plan)), item.product), item.quantity,
                                          old(plan), old(done))
    {
      var ls := Ordered(WithPlan(lines, plan), item.product);
      PlannedLines(lines, plan, item.product);
      var remaining := item.quantity;
      var index := 0;
      assert ls[0..] == ls;
      while index < |ls| && remaining != 0
        invariant 0 <= index <= |ls| && DistinctIds(ls)
        invariant forall k :: index <= k < |ls| ==> Get(plan, ls[k].id) == ls[k].demand
        invariant ServiceFill(ls, item.quantity, old(plan), old(done)) == ServiceFill(ls[index..], remaining, plan, done)
      {
        var line := ls[index];
        var planned := Get(plan, line.id);
        assert ls[index..][0] == line && ls[index..][1..] == ls[index + 1..];
        var quantity;
        if line.demand < remaining {
          quantity := line.demand;
          if index == |ls| - 1 {
            quantity, planned := remaining, remaining;
          }
          remaining := remaining - quantity;
        } else {
          quantity := remaining;
          remaining := 0;
        }
        plan, done := plan[line.id := planned], done[line.id := quantity];
        index := index + 1;
      }
    }

    /** The loop of `process_shipment_data_from_channel` over the items of one shipment. */
    method ProcessShipment(items: seq<Item>)
      requires DistinctIds(lines)
      modifies this
      ensures (plan, done) == ServiceItems(lines, items, old(plan), old(done))
    {
      var i := 0;
      while i < |items|
        invariant 0 <= i <= |items|
        invariant ServiceItems(lines, items, old(plan), old(done)) == ServiceItems(lines, items[i..], plan, done)
      {
        assert items[i..][1..] == items[i + 1..];
        ProcessItem(items[i]);
        i := i + 1;
      }
    }
  }

  lemma {:induction false} PlannedLines(lines: seq<Line>, plan: Quantities, product: nat)
    requires DistinctIds(lines)
    ensures DistinctIds(WithPlan(lines, plan)) && DistinctIds(Ordered(WithPlan(lines, plan), product))
    ensures forall l :: l in Ordered(WithPlan(lines, plan), product) ==> Get(plan, l.id) == l.demand
  {
    assert forall i :: 0 <= i < |lines| ==> WithPlan(lines, plan)[i].id == lines[i].id;
    OrderedIs(WithPlan(lines, plan), product);
  }

  /** The service loop writes the same done quantities as the loop for physical moves. */
  lemma {:induction false} ServiceFillDone(ls: seq<Line>, remaining: int, plan: Quantities, done: Quantities)
    ensures ServiceFill(ls, remaining, plan, done).1 == DoneAfter(done, Allocate(ls, remaining))
    decreases |ls|
  {
    if ls != [] && remaining != 0 {
      var quantity := if ls[0].demand < remaining && |ls| > 1 then ls[0].demand else remaining;
      var writes := Allocate(ls, remaining);
      assert writes[0] == Write(ls[0].id, quantity) && writes[1..] == Allocate(ls[1..], remaining - quantity);
      if ls[0].demand < remaining && |ls| == 1 {
        assert writes[1..] == [];
      } else {
        ServiceFillDone(ls[1..], remaining - quantity, plan[ls[0].id := ls[0].demand], done[ls[0].id := quantity]);
      }
    }
  }

  lemma {:induction false} PlanElsewhere(ls: seq<Line>, remaining: int, plan: Quantities, done: Quantities, id: nat)
    requires forall l :: l in ls ==> l.id != id
    ensures Get(ServiceFill(ls, remaining, plan, done).0, id) == Get(plan, id)
    decreases |ls|
  {
    if ls != [] && remaining != 0 && !(ls[0].demand < remaining && |ls| == 1) {
      var quantity := Min(ls[0].demand, remaining);
      PlanElsewhere(ls[1..], remaining - quantity, plan[ls[0].id := ls[0].demand], done[ls[0].id := quantity], id);
    }
  }

  /** The plan of the last move is raised by exactly the excess, and no other plan changes. */
  lemma {:induction false} PlanMatches(ls: seq<Line>, shipped: int, plan: Quantities, done: Quantities)
    requires ls != [] && DistinctIds(ls) && DemandsOk(ls) && shipped >= 0
    requires forall l :: l in ls ==> Get(plan, l.id) == l.demand
    ensures var after := ServiceFill(ls, shipped, plan, done).0;
            && (forall k :: 0 <= k < |ls| - 1 ==> Get(after, ls[k].id) == ls[k].demand)
            && Get(after, ls[|ls| - 1].id) - ls[|ls| - 1].demand
               == if shipped > TotalDemand(ls) then shipped - TotalDemand(ls) else 0
    decreases |ls|
  {
    var rest := ls[1..];
    assert ls[0] in ls;
    PrefixDemand(ls, |ls|);
    assert ls[..|ls|] == ls;
    if shipped == 0 {
    } else if |ls| == 1 {
      assert TotalDemand(rest) == 0;
      assert ServiceFill(rest, 0, plan[ls[0].id := ls[0].demand], done[ls[0].id := shipped]).0
             == plan[ls[0].id := ls[0].demand];
    } else {
      var quantity := Min(ls[0].demand, shipped);
      RestIsPlanned(ls, plan);
      PlanMatches(rest, shipped - quantity, plan[ls[0].id := ls[0].demand], done[ls[0].id := quantity]);
      PlanElsewhere(rest, shipped - quantity, plan[ls[0].id := ls[0].demand], done[ls[0].id := quantity], ls[0].id);
      var after := ServiceFill(ls, shipped, plan, done).0;
      forall k | 0 <= k < |ls| - 1 ensures Get(after, ls[k].id) == ls[k].demand {
        if k > 0 {
          assert ls[k] == rest[k - 1];
        }
      }
    }
  }

  lemma {:induction false} RestIsPlanned(ls: seq<Line>, plan: Quantities)
    requires ls != [] && DistinctIds(ls) && DemandsOk(ls)
    requires forall l :: l in ls ==> Get(plan, l.id) == l.demand
    ensures DistinctIds(ls[1..]) && DemandsOk(ls[1..]) && TotalDemand(ls[1..]) >= 0
    ensures forall l :: l in ls[1..] ==> l.id != ls[0].id && Get(plan[ls[0].id := ls[0].demand], l.id) == l.demand
  {
    assert forall k :: 0 <= k < |ls[1..]| ==> ls[1..][k] == ls[k + 1];
    assert forall l :: l in ls[1..] ==> l in ls;
    PrefixDemand(ls[1..], |ls[1..]|);
    assert ls[1..][..|ls[1..]|] == ls[1..];
  }

  lemma {:induction false} PlannedOrdered(lines: seq<Line>, plan: Quantities, done: Quantities, product: nat)
    requires DistinctIds(lines) && Of(lines, product) != []
    requires forall l :: l in lines ==> Get(plan, l.id) >= 0 && Get(done, l.id) == 0
    ensures var ls := Ordered(WithPlan(lines, plan), product);
            ls != [] && DistinctIds(ls) && DemandsOk(ls) && ZeroOn(ls, done)
  {
    var ls := Ordered(WithPlan(lines, plan), product);
    PlannedLines(lines, plan, product);
    OrderedIs(WithPlan(lines, plan), product);
    OfIn(lines, product);
    var l := Of(lines, product)[0];
    assert l in Of(lines, product);
    var i :| 0 <= i < |lines| && lines[i] == l;
    assert WithPlan(lines, plan)[i] in ls;
    forall m | m in ls ensures m.demand >= 0 && Get(done, m.id) == 0 {
      var k :| 0 <= k < |lines| && WithPlan(lines, plan)[k] == m;
      assert lines[k] in lines;
    }
  }

  /** An item shipped into service moves with nothing done: exactly its quantity is done, and the moves
      of the product together plan the larger of their plan and the shipment. */
  lemma {:induction false} ServiceItemMatches(lines: seq<Line>, plan: Quantities, done: Quantities, item: Item)
    requires DistinctIds(lines) && item.quantity >= 0 && Of(lines, item.product) != []
    requires forall l :: l in lines ==> Get(plan, l.id) >= 0 && Get(done, l.id) == 0
    ensures var ls := Ordered(WithPlan(lines, plan), item.product);
            var after := ServiceFill(ls, item.quantity, plan, done);
            && ls != [] && DoneTotal(ls, after.1) == item.quantity
            && DoneTotal(ls, after.0)
               == if item.quantity > DoneTotal(ls, plan) then item.quantity else DoneTotal(ls, plan)
  {
    var ls := Ordered(WithPlan(lines, plan), item.product);
    PlannedOrdered(lines, plan, done, item.product);
    PlannedLines(lines, plan, item.product);
    ServiceFillDone(ls, item.quantity, plan, done);
    ItemIsSpread(ls, item.quantity, done);
    PlanTotal(ls, plan);
    PlanRaised(ls, item.quantity, plan, done);
  }

  lemma {:induction false} PlanRaised(ls: seq<Line>, shipped: int, plan: Quantities, done: Quantities)
    requires ls != [] && DistinctIds(ls) && DemandsOk(ls) && shipped >= 0
    requires forall l :: l in ls ==> Get(plan, l.id) == l.demand
    ensures DoneTotal(ls, ServiceFill(ls, shipped, plan, done).0)
            == if shipped > TotalDemand(ls) then shipped else TotalDemand(ls)
  {
    PlanMatches(ls, shipped, plan, done);
    var after := ServiceFill(ls, shipped, plan, done).0;
    var n := |ls| - 1;
    assert ls == ls[..n] + [ls[n]];
    Sequences.SumOfSnoc(ls[..n], ls[n], Demand());
    Sequences.SumOfSnoc(ls[..n], ls[n], DoneOf(after));
    assert forall m :: m in ls[..n] ==> Get(after, m.id) == m.demand;
    PlanTotal(ls[..n], after);
  }

  lemma {:induction false} PlanTotal(ls: seq<Line>, plan: Quantities)
    requires forall l :: l in ls ==> Get(plan, l.id) == l.demand
    ensures DoneTotal(ls, plan) == TotalDemand(ls)
  {
    Sequences.SumOfSame(ls, DoneOf(plan), Demand());
  }
}
