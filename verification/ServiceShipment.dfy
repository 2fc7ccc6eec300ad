/** Several items of one service shipment: what they leave done and planned on the moves of a product. An
    item may raise the plan of the last move, which stays the last, so the moves are filled in one order
    whatever was raised before. */
module ServiceShipment {
  import opened Sequences
  import opened ShipmentAllocation

  // ------------------------------------------------------------------ the order of the moves

  function Raised(ls: seq<Line>, id: nat, demand: int): (r: seq<Line>)
    ensures |r| == |ls|
  {
    seq(|ls|, i requires 0 <= i < |ls| => if ls[i].id == id then ls[i].(demand := demand) else ls[i])
  }

  /** A move is put before the last one of sorted moves, and stays there when the last one is raised. */
  lemma {:induction false} InsertBeforeRaised(x: Line, ys: seq<Line>, id: nat, demand: int)
    requires ys != [] && x.id != id && DistinctIds(ys) && ys[|ys| - 1].id == id && demand >= ys[|ys| - 1].demand
    requires var zs := InsertBy(x, ys, Demand()); zs[|zs| - 1].id == id
    ensures InsertBy(x, Raised(ys, id, demand), Demand()) == Raised(InsertBy(x, ys, Demand()), id, demand)
  {
    var key, rs := Demand(), Raised(ys, id, demand);
    if key(x) <= key(ys[0]) {
      assert InsertBy(x, ys, key) == [x] + ys && InsertBy(x, rs, key) == [x] + rs;
      assert Raised([x] + ys, id, demand) == [x] + rs;
    } else {
      var rest := ys[1..];
      assert InsertBy(x, ys, key) == [ys[0]] + InsertBy(x, rest, key);
      assert ys[0].id != id && rest[|rest| - 1] == ys[|ys| - 1];
      assert forall k :: 0 <= k < |rest| ==> rest[k] == ys[k + 1];
      InsertBeforeRaised(x, rest, id, demand);
      assert rs[0] == ys[0] && rs[1..] == Raised(rest, id, demand);
      assert Raised([ys[0]] + InsertBy(x, rest, key), id, demand)
             == [ys[0]] + Raised(InsertBy(x, rest, key), id, demand);
    }
  }

  /** The last of sorted moves is the last whatever it is raised to. */
  lemma {:induction false} InsertRaisedLast(x: Line, ys: seq<Line>, demand: int)
    requires SortedBy(ys, Demand()) && demand >= x.demand && forall y :: y in ys ==> y.id != x.id
    requires var zs := InsertBy(x, ys, Demand()); zs[|zs| - 1].id == x.id
    ensures InsertBy(x.(demand := demand), ys, Demand()) == ys + [x.(demand := demand)]
    ensures InsertBy(x, ys, Demand()) == ys + [x]
  {
    var key := Demand();
    if ys != [] {
      assert forall y :: y in ys[1..] ==> y in ys;
      InsertRaisedLast(x, ys[1..], demand);
    }
  }

  /** The last element after an insertion was the last before, or is the new one. */
  lemma {:induction false} LastOfInserted(x: Line, ys: seq<Line>)
    ensures var zs := InsertBy(x, ys, Demand());
            zs[|zs| - 1] == x || (ys != [] && zs[|zs| - 1] == ys[|ys| - 1])
  {
    var key := Demand();
    if ys != [] && key(x) > key(ys[0]) {
      LastOfInserted(x, ys[1..]);
      assert InsertBy(x, ys, key) == [ys[0]] + InsertBy(x, ys[1..], key);
    }
  }

  lemma {:induction false} RestSorted(ls: seq<Line>)
    requires ls != [] && DistinctIds(ls)
    ensures DistinctIds(ls[1..]) && DistinctIds(SortBy(ls[1..], Demand())) && SortedBy(SortBy(ls[1..], Demand()), Demand())
    ensures forall l :: l in SortBy(ls[1..], Demand()) <==> l in ls[1..]
    ensures forall l :: l in ls[1..] ==> l.id != ls[0].id
  {
    SortBySorted(ls[1..], Demand());
    DistinctPermutation(ls[1..], SortBy(ls[1..], Demand()));
  }

  lemma {:induction false} SortOfCons(x: Line, rest: seq<Line>, id: nat, demand: int)
    ensures SortBy([x] + rest, Demand()) == InsertBy(x, SortBy(rest, Demand()), Demand())
    ensures Raised([x] + rest, id, demand) == [if x.id == id then x.(demand := demand) else x] + Raised(rest, id, demand)
  {
    assert ([x] + rest)[1..] == rest;
  }

  /** Raising the move that is sorted last changes nothing but its demand. */
  lemma {:induction false} RaisedKeepsOrder(ls: seq<Line>, id: nat, demand: int)
    requires ls != [] && DistinctIds(ls)
    requires var s := SortBy(ls, Demand()); s[|s| - 1].id == id && demand >= s[|s| - 1].demand
    ensures SortBy(Raised(ls, id, demand), Demand()) == Raised(SortBy(ls, Demand()), id, demand)
  {
    var x, rest, sorted := ls[0], ls[1..], SortBy(ls[1..], Demand());
    assert ls == [x] + rest;
    RestSorted(ls);
    LastOfInserted(x, sorted);
    SortOfCons(x, rest, id, demand);
    hide DistinctIds, SortedBy, InsertBy, Raised;
    if x.id == id {
      FirstRaised(x, rest, sorted, id, demand);
      SortOfCons(x.(demand := demand), rest, id, demand);
    } else {
      RaisedKeepsOrder(rest, id, demand);
      InsertBeforeRaised(x, sorted, id, demand);
      SortOfCons(x, Raised(rest, id, demand), id, demand);
    }
  }

  lemma {:induction false} FirstRaised(x: Line, rest: seq<Line>, sorted: seq<Line>, id: nat, demand: int)
    requires x.id == id && (forall y :: y in rest ==> y.id != id) && (forall y :: y in sorted <==> y in rest)
    requires SortedBy(sorted, Demand())
    requires var zs := InsertBy(x, sorted, Demand()); zs[|zs| - 1].id == id && demand >= zs[|zs| - 1].demand
    ensures Raised(rest, id, demand) == rest
    ensures InsertBy(x.(demand := demand), sorted, Demand()) == Raised(InsertBy(x, sorted, Demand()), id, demand)
  {
    LastOfInserted(x, sorted);
    assert sorted != [] ==> sorted[|sorted| - 1] in sorted;
    InsertRaisedLast(x, sorted, demand);
    assert forall k :: 0 <= k < |sorted| ==> sorted[k] in sorted;
    assert Raised(sorted + [x], id, demand) == sorted + [x.(demand := demand)];
  }

  // ------------------------------------------------------------------ the moves of a product

  /** The moves of a product in the order an item fills them, by the plans of the moment. */
  function Planned(lines: seq<Line>, plan: Quantities, product: nat): seq<Line> {
    Ordered(WithPlan(lines, plan), product)
  }

  lemma {:induction false} OfPlanned(lines: seq<Line>, plan: Quantities, product: nat)
    ensures Of(WithPlan(lines, plan), product) == WithPlan(Of(lines, product), plan)
  {
    if lines != [] {
      OfPlanned(lines[1..], plan, product);
      assert WithPlan(lines, plan)[1..] == WithPlan(lines[1..], plan);
    }
  }

  /** Totals, and facts about every move, are the same over the moves in either order. */
  lemma {:induction false} PlannedSame(lines: seq<Line>, plan: Quantities, product: nat, q: Quantities)
    requires DistinctIds(lines)
    ensures var ls, ms := Planned(lines, plan, product), Of(lines, product);
            && |ls| == |ms| && DistinctIds(ls) && DistinctIds(ms)
            && DoneTotal(ls, q) == DoneTotal(ms, q)
            && (NonNegativeOn(ls, q) <==> NonNegativeOn(ms, q)) && (ZeroOn(ls, q) <==> ZeroOn(ms, q))
            && (forall l :: l in ls ==> l.demand == Get(plan, l.id))
  {
    var ls, ms := Planned(lines, plan, product), Of(lines, product);
    var ps := WithPlan(ms, plan);
    OfPlanned(lines, plan, product);
    OfDistinct(lines, product);
    PlannedLines(lines, plan, product);
    SortBySorted(ps, Demand());
    SumOfPermutation(ls, ps, DoneOf(q));
    SameIdsTotal(ps, ms, q);
    hide Ordered;
    forall i | 0 <= i < |ms| ensures ps[i] in ls && ps[i].id == ms[i].id {
      assert ps[i] in ps;
    }
    assert |multiset(ls)| == |multiset(ps)|;
    SameOn(ls, ps, ms, q);
  }

  lemma {:induction false} SameIdsTotal(ps: seq<Line>, ms: seq<Line>, q: Quantities)
    requires |ps| == |ms| && forall i :: 0 <= i < |ms| ==> ps[i].id == ms[i].id
    ensures DoneTotal(ps, q) == DoneTotal(ms, q)
  {
    if ms != [] {
      SameIdsTotal(ps[1..], ms[1..], q);
    }
  }

  lemma {:induction false} SameOn(ls: seq<Line>, ps: seq<Line>, ms: seq<Line>, q: Quantities)
    requires |ps| == |ms| && (forall i :: 0 <= i < |ms| ==> ps[i].id == ms[i].id) && (forall l :: l in ls <==> l in ps)
    ensures (NonNegativeOn(ls, q) <==> NonNegativeOn(ms, q)) && (ZeroOn(ls, q) <==> ZeroOn(ms, q))
  {
    forall m | m in ms ensures exists l :: l in ls && l.id == m.id {
      var i :| 0 <= i < |ms| && ms[i] == m;
      assert ps[i] in ls;
    }
    forall l | l in ls ensures exists m :: m in ms && m.id == l.id {
      var i :| 0 <= i < |ps| && ps[i] == l;
      assert ms[i] in ms;
    }
  }

  lemma {:induction false} AnchorRaised(ls: seq<Line>, demand: int)
    requires ls != [] && DistinctIds(ls) && DemandsOk(ls) && demand >= ls[|ls| - 1].demand
    ensures Anchor(Raised(ls, ls[|ls| - 1].id, demand)) == Anchor(ls)
  {
    if |ls| > 1 && ls[0].demand <= 0 {
      var rest := ls[1..];
      assert forall k :: 0 <= k < |rest| ==> rest[k] == ls[k + 1];
      assert Raised(ls, ls[|ls| - 1].id, demand)[1..] == Raised(rest, rest[|rest| - 1].id, demand);
      AnchorRaised(rest, demand);
    }
  }

  // ------------------------------------------------------------------ the plans after one item

  ghost predicate PlansOk(lines: seq<Line>, plan: Quantities) {
    forall l :: l in lines ==> Get(plan, l.id) >= 0
  }

  /** An item of the product raises the plan of the last move, if any, and no other plan. */
  lemma {:induction false} OwnItemPlans(lines: seq<Line>, plan: Quantities, done: Quantities, item: Item)
    requires DistinctIds(lines) && PlansOk(lines, plan) && item.quantity >= 0 && Of(lines, item.product) != []
    ensures var ls := Planned(lines, plan, item.product);
            var plan' := ServiceFill(ls, item.quantity, plan, done).0;
            && ls != [] && DemandsOk(ls) && DistinctIds(ls)
            && forall id :: Get(plan', id) >= Get(plan, id) && (id != ls[|ls| - 1].id ==> Get(plan', id) == Get(plan, id))
  {
    var ls := Planned(lines, plan, item.product);
    var plan' := ServiceFill(ls, item.quantity, plan, done).0;
    PlannedSame(lines, plan, item.product, plan);
    OfIn(lines, item.product);
    assert NonNegativeOn(Of(lines, item.product), plan);
    hide Planned, ServiceFill, Of;
    PlanMatches(ls, item.quantity, plan, done);
    forall id ensures Get(plan', id) >= Get(plan, id) && (id != ls[|ls| - 1].id ==> Get(plan', id) == Get(plan, id)) {
      if exists k :: 0 <= k < |ls| && ls[k].id == id {
        var k :| 0 <= k < |ls| && ls[k].id == id;
        assert ls[k] in ls;
      } else {
        PlanElsewhere(ls, item.quantity, plan, done, id);
      }
    }
  }

  lemma {:induction false} PlanOfOne(ms: seq<Line>, plan: Quantities, plan': Quantities, id: nat)
    requires forall other :: other != id ==> Get(plan', other) == Get(plan, other)
    ensures WithPlan(ms, plan') == Raised(WithPlan(ms, plan), id, Get(plan', id))
  {
  }

  lemma {:induction false} LastPlanned(lines: seq<Line>, plan: Quantities, product: nat)
    requires DistinctIds(lines) && Planned(lines, plan, product) != []
    ensures var ls, ps := Planned(lines, plan, product), WithPlan(Of(lines, product), plan);
            && ls == SortBy(ps, Demand()) && ps != [] && DistinctIds(ps)
            && ls[|ls| - 1].demand == Get(plan, ls[|ls| - 1].id)
  {
    var ls := Planned(lines, plan, product);
    PlannedSame(lines, plan, product, plan);
    OfPlanned(lines, plan, product);
    assert ls[|ls| - 1] in ls;
  }

  /** Raising the plan of the last move leaves it the last. */
  lemma {:induction false} LastStaysLast(lines: seq<Line>, plan: Quantities, plan': Quantities, product: nat)
    requires DistinctIds(lines) && Planned(lines, plan, product) != []
    requires var ls := Planned(lines, plan, product);
             forall id :: Get(plan', id) >= Get(plan, id) && (id != ls[|ls| - 1].id ==> Get(plan', id) == Get(plan, id))
    ensures var ls := Planned(lines, plan, product);
            && Get(plan', ls[|ls| - 1].id) >= ls[|ls| - 1].demand
            && Planned(lines, plan', product) == Raised(ls, ls[|ls| - 1].id, Get(plan', ls[|ls| - 1].id))
  {
    var ls, ms := Planned(lines, plan, product), Of(lines, product);
    LastPlanned(lines, plan, product);
    OfPlanned(lines, plan', product);
    assert Planned(lines, plan', product) == SortBy(WithPlan(ms, plan'), Demand());
    var last := ls[|ls| - 1];
    hide Of, SortBy, Planned, DistinctIds, WithPlan, Raised;
    PlanOfOne(ms, plan, plan', last.id);
    RaisedKeepsOrder(WithPlan(ms, plan), last.id, Get(plan', last.id));
  }

  /** An item leaves the order of every product as it is, raises no plan but that of its own product, and
      plans its quantity there if less was planned. */
  lemma {:induction false} ItemPlans(lines: seq<Line>, plan: Quantities, done: Quantities, item: Item, product: nat)
    requires DistinctIds(lines) && PlansOk(lines, plan) && item.quantity >= 0 && Of(lines, product) != []
    ensures var plan' := ServiceFill(Planned(lines, plan, item.product), item.quantity, plan, done).0;
            && PlansOk(lines, plan')
            && Planned(lines, plan, product) != [] && Planned(lines, plan', product) != []
            && Anchor(Planned(lines, plan', product)) == Anchor(Planned(lines, plan, product))
            && DoneTotal(Of(lines, product), plan')
               == if item.product == product && item.quantity > DoneTotal(Of(lines, product), plan) then item.quantity
                  else DoneTotal(Of(lines, product), plan)
  {
    var ls, ms := Planned(lines, plan, product), Of(lines, product);
    var plan' := ServiceFill(Planned(lines, plan, item.product), item.quantity, plan, done).0;
    PlannedSame(lines, plan, product, plan);
    if item.product == product {
      OwnItemPlans(lines, plan, done, item);
      LastStaysLast(lines, plan, plan', product);
      AnchorRaised(ls, Get(plan', ls[|ls| - 1].id));
      PlannedSame(lines, plan, product, plan');
      PlanTotal(ls, plan);
      PlanRaised(ls, item.quantity, plan, done);
    } else {
      OtherItemPlans(lines, plan, done, item, product);
    }
  }

  lemma {:induction false} OtherItemPlans(lines: seq<Line>, plan: Quantities, done: Quantities, item: Item, product: nat)
    requires DistinctIds(lines) && PlansOk(lines, plan) && item.quantity >= 0 && item.product != product
    ensures var plan' := ServiceFill(Planned(lines, plan, item.product), item.quantity, plan, done).0;
            && PlansOk(lines, plan') && Planned(lines, plan', product) == Planned(lines, plan, product)
            && DoneTotal(Of(lines, product), plan') == DoneTotal(Of(lines, product), plan)
  {
    var ls, ms := Planned(lines, plan, item.product), Of(lines, product);
    var plan' := ServiceFill(ls, item.quantity, plan, done).0;
    if Of(lines, item.product) == [] {
      PlannedSame(lines, plan, item.product, plan);
    } else {
      OwnItemPlans(lines, plan, done, item);
    }
    OfIn(lines, product);
    OrderedIs(WithPlan(lines, plan), item.product) by { PlannedLines(lines, plan, item.product); }
    forall m | m in ms ensures Get(plan', m.id) == Get(plan, m.id) {
      forall l | l in ls ensures l.id != m.id {
        NotOfProduct(lines, plan, l, m);
      }
      PlanElsewhere(ls, item.quantity, plan, done, m.id);
    }
    SameTotal(ms, plan, plan');
    OfPlanned(lines, plan, product);
    OfPlanned(lines, plan', product);
    assert WithPlan(ms, plan) == WithPlan(ms, plan');
  }

  lemma {:induction false} NotOfProduct(lines: seq<Line>, plan: Quantities, l: Line, m: Line)
    requires DistinctIds(lines) && l in WithPlan(lines, plan) && m in lines && l.product != m.product
    ensures l.id != m.id
  {
    var i :| 0 <= i < |lines| && WithPlan(lines, plan)[i] == l;
    var j :| 0 <= j < |lines| && lines[j] == m;
  }

  // ------------------------------------------------------------------ what several items leave

  /** The largest quantity an item ships of the product. */
  function Largest(items: seq<Item>, product: nat): int {
    if items == [] then 0
    else
      var rest := Largest(items[1..], product);
      if items[0].product == product && items[0].quantity > rest then items[0].quantity else rest
  }

  function Max(a: int, b: int): int { if a < b then b else a }

  /** One item, seen from the moves of a product. */
  lemma {:induction false} ServiceItemEffect(lines: seq<Line>, plan: Quantities, done: Quantities, item: Item, product: nat)
    requires DistinctIds(lines) && PlansOk(lines, plan) && item.quantity >= 0 && Of(lines, product) != []
    requires NonNegativeOn(Of(lines, product), done)
    ensures var ms, after := Of(lines, product), ServiceFill(Planned(lines, plan, item.product), item.quantity, plan, done).1;
            && Planned(lines, plan, product) != [] && NonNegativeOn(ms, after)
            && var a := Anchor(Planned(lines, plan, product));
               && (item.product != product || item.quantity == 0 ==>
                     DoneTotal(ms, after) == DoneTotal(ms, done) && Get(after, a) == Get(done, a)
                     && (ZeroOn(ms, done) ==> ZeroOn(ms, after)))
               && (item.product == product && item.quantity > 0 ==>
                     Get(after, a) > 0 && DoneTotal(ms, after) <= DoneTotal(ms, done) + item.quantity - Get(done, a)
                     && (ZeroOn(ms, done) ==> DoneTotal(ms, after) == item.quantity))
  {
    var ps, after := WithPlan(lines, plan), ServiceFill(Planned(lines, plan, item.product), item.quantity, plan, done).1;
    PlannedSame(lines, plan, product, done);
    PlannedSame(lines, plan, product, after);
    ServiceFillDone(Planned(lines, plan, item.product), item.quantity, plan, done);
    OfPlanned(lines, plan, product);
    assert DemandsOk(ps) by {
      forall i | 0 <= i < |lines| ensures ps[i].demand >= 0 {
        assert lines[i] in lines;
      }
    }
    assert DistinctIds(ps);
    hide ServiceFill, DoneAfter, Allocate, Ordered, DoneTotal;
    ItemEffect(ps, item, product, done);
  }

  lemma {:induction false} ServiceItemsEffect(lines: seq<Line>, items: seq<Item>, product: nat, plan: Quantities, done: Quantities)
    requires DistinctIds(lines) && PlansOk(lines, plan) && QuantitiesOk(items) && Of(lines, product) != []
    requires NonNegativeOn(Of(lines, product), done)
    ensures Planned(lines, plan, product) != []
    ensures var ms, a := Of(lines, product), Anchor(Planned(lines, plan, product));
            var total, shipped, n := DoneTotal(ms, done), Shipped(items, product), ItemsWith(items, product);
            var after := DoneTotal(ms, ServiceItems(lines, items, plan, done).1);
            && after <= total + shipped
            && (n == 0 ==> after == total && shipped == 0)
            && (n >= 1 && Get(done, a) > 0 ==> after < total + shipped)
            && (n == 1 && ZeroOn(ms, done) ==> after == shipped)
            && (n >= 2 ==> after < total + shipped)
    decreases |items|
  {
    var ms := Of(lines, product);
    PlannedSame(lines, plan, product, done);
    if items != [] {
      var next := ServiceFill(Planned(lines, plan, items[0].product), items[0].quantity, plan, done);
      ServiceItemEffect(lines, plan, done, items[0], product);
      ItemPlans(lines, plan, done, items[0], product);
      AnchorCounts(lines, plan, done, product);
      hide Planned, ServiceFill, DoneTotal, Of, ZeroOn, NonNegativeOn;
      ServiceItemsEffect(lines, items[1..], product, next.0, next.1);
    }
  }

  lemma {:induction false} AnchorCounts(lines: seq<Line>, plan: Quantities, done: Quantities, product: nat)
    requires DistinctIds(lines) && Of(lines, product) != [] && NonNegativeOn(Of(lines, product), done)
    ensures Planned(lines, plan, product) != []
    ensures Get(done, Anchor(Planned(lines, plan, product))) >= 0
    ensures ZeroOn(Of(lines, product), done) ==> DoneTotal(Of(lines, product), done) == 0
  {
    PlannedSame(lines, plan, product, done);
    AnchorIn(Planned(lines, plan, product));
    if ZeroOn(Of(lines, product), done) {
      TotalOfZero(Of(lines, product), done);
    }
  }

  lemma {:induction false} ServicePlans(lines: seq<Line>, items: seq<Item>, product: nat, plan: Quantities, done: Quantities)
    requires DistinctIds(lines) && PlansOk(lines, plan) && QuantitiesOk(items) && Of(lines, product) != []
    ensures DoneTotal(Of(lines, product), ServiceItems(lines, items, plan, done).0)
            == Max(DoneTotal(Of(lines, product), plan), Largest(items, product))
    decreases |items|
  {
    PlanNotNegative(lines, product, plan);
    if items != [] {
      var next := ServiceFill(Planned(lines, plan, items[0].product), items[0].quantity, plan, done);
      ItemPlans(lines, plan, done, items[0], product);
      hide Planned, ServiceFill, DoneTotal, Of;
      ServicePlans(lines, items[1..], product, next.0, next.1);
      LargestNotNegative(items[1..], product);
    }
  }

  lemma {:induction false} PlanNotNegative(lines: seq<Line>, product: nat, plan: Quantities)
    requires PlansOk(lines, plan)
    ensures DoneTotal(Of(lines, product), plan) >= 0
  {
    OfIn(lines, product);
    SumOfNonNegative(Of(lines, product), DoneOf(plan));
  }

  lemma {:induction false} LargestNotNegative(items: seq<Item>, product: nat)
    ensures Largest(items, product) >= 0
  {
    if items != [] {
      LargestNotNegative(items[1..], product);
    }
  }

  /** A service shipment into a transfer with nothing done: the moves of a product have done what it ships of
      that product if and only if at most one item ships something of it, and they plan what they planned or
      the largest of its items, whichever is more. So with two items or more both totals fall short of what
      is shipped, whenever the plan did. */
  lemma {:induction false} ServiceShipmentConservesIff(lines: seq<Line>, items: seq<Item>, product: nat, plan: Quantities)
    requires DistinctIds(lines) && PlansOk(lines, plan) && QuantitiesOk(items) && Of(lines, product) != []
    ensures var ms, after := Of(lines, product), ServiceItems(lines, items, plan, map[]);
            && (DoneTotal(ms, after.1) == Shipped(items, product) <==> ItemsWith(items, product) <= 1)
            && DoneTotal(ms, after.1) <= Shipped(items, product)
            && DoneTotal(ms, after.0) == Max(DoneTotal(ms, plan), Largest(items, product))
  {
    var ms := Of(lines, product);
    assert ZeroOn(ms, map[]) && NonNegativeOn(ms, map[]);
    TotalOfZero(ms, map[]);
    ServiceItemsEffect(lines, items, product, plan, map[]);
    ServicePlans(lines, items, product, plan, map[]);
  }
}
