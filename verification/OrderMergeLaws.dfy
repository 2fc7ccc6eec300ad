/** What merging store data into a confirmed order keeps: the merged lines in closed form, and the total
    compared with the draft path. */
module OrderMergeLaws {
  import opened Options
  import opened Sequences
  import opened OrderLines
  import opened OrderUpdate

  // ------------------------------------------------------------------ what is assumed of an order

  /** Ids are distinct and below the next id; sections and notes carry no amount. */
  ghost predicate WellFormed(o: Order) {
    && (forall i, j :: 0 <= i < j < |o.lines| ==> o.lines[i].id != o.lines[j].id)
    && (forall i :: 0 <= i < |o.lines| ==> o.lines[i].id < o.nextId)
    && (forall i :: 0 <= i < |o.lines| && o.lines[i].product == 0 ==> o.lines[i].price == 0.0)
  }

  ghost predicate Products(ps: seq<ProductVals>) {
    forall i :: 0 <= i < |ps| ==> ps[i].price.Some?
  }

  /** The lookup of every priced dictionary keeps at most one line: the update does not raise. */
  ghost predicate MatchedOnce(lines: seq<Line>, ps: seq<ProductVals>) {
    forall i :: 0 <= i < |ps| && ps[i].price.Some? ==> |Matches(lines, ps[i])| <= 1
  }

  /** An update raises exactly when some priced dictionary is looked up to two lines or more. */
  lemma {:induction false} MergeRaisesIff(lines: seq<Line>, ps: seq<ProductVals>)
    ensures DataCommands(lines, ps).Commands? <==> MatchedOnce(lines, ps)
  {
    if ps != [] {
      var rest := ps[1..];
      MergeRaisesIff(lines, rest);
      assert DataCommand(lines, ps[0]).NotSingleton? <==> ps[0].price.Some? && |Matches(lines, ps[0])| > 1;
      assert forall i :: 0 <= i < |rest| ==> rest[i] == ps[i + 1];
      assert MatchedOnce(lines, ps) ==> MatchedOnce(lines, rest);
      assert forall i :: 0 < i < |ps| ==> ps[i] == rest[i - 1];
    }
  }

  // ------------------------------------------------------------------ closed form of a merge

  /** The dictionaries written to l, in order: the priced ones it is looked up by. */
  function WritersOf(l: Line, ps: seq<ProductVals>): seq<ProductVals> {
    if ps == [] then []
    else (if Matched(l, ps[0]) && ps[0].price.Some? then [ps[0]] else []) + WritersOf(l, ps[1..])
  }

  /** A line after several dictionaries have been written to it. */
  function Rewritten(l: Line, ws: seq<ProductVals>): Line
    decreases |ws|
  {
    if ws == [] then l else Rewritten(Rewrite(l, ws[0]), ws[1..])
  }

  /** What a merge leaves of an existing line: rewritten, put to zero, or as it was. */
  function FinalLine(l: Line, ps: seq<ProductVals>): Line {
    if LookedUp(l, ps) then Rewritten(l, WritersOf(l, ps))
    else if l.product != 0 then l.(qty := 0.0) else l
  }

  function FinalLines(lines: seq<Line>, ps: seq<ProductVals>): (r: seq<Line>)
    ensures |r| == |lines|
  {
    seq(|lines|, i requires 0 <= i < |lines| => FinalLine(lines[i], ps))
  }

  function Unmatched(lines: seq<Line>, ps: seq<ProductVals>): seq<ProductVals> {
    if ps == [] then []
    else if Matches(lines, ps[0]) == [] then [ps[0]] + Unmatched(lines, ps[1..])
    else Unmatched(lines, ps[1..])
  }

  function Merged(o: Order, ds: seq<Vals>): Order {
    var ps := ProductData(ds);
    var created: seq<Vals> := Unmatched(o.lines, ps);
    var added: seq<Vals> := created + DisplayData(o.lines, ds);
    Order(FinalLines(o.lines, ps) + NewLines(o.nextId, added), o.nextId + |added|)
  }

  lemma {:induction false} NoMatch(lines: seq<Line>, d: ProductVals)
    ensures Matches(lines, d) == [] <==> forall k :: 0 <= k < |lines| ==> !Matched(lines[k], d)
  {
    if lines != [] {
      NoMatch(lines[1..], d);
      assert forall k :: 0 < k < |lines| ==> lines[1..][k - 1] == lines[k];
    }
  }

  lemma {:induction false} FirstMatch(lines: seq<Line>, d: ProductVals) returns (i: nat)
    requires Matches(lines, d) != []
    ensures i < |lines| && lines[i] == Matches(lines, d)[0] && Matched(lines[i], d)
    ensures |Matches(lines, d)| == 1 ==> forall j :: 0 <= j < |lines| && Matched(lines[j], d) ==> j == i
  {
    NoMatch(lines[1..], d);
    if Matched(lines[0], d) {
      i := 0;
      forall j | 0 < j < |lines| && |Matches(lines, d)| == 1 ensures !Matched(lines[j], d) {
        assert lines[1..][j - 1] == lines[j];
      }
    } else {
      var k := FirstMatch(lines[1..], d);
      i := k + 1;
      forall j | 0 <= j < |lines| && Matched(lines[j], d) && |Matches(lines, d)| == 1 ensures j == i {
        assert lines[1..][j - 1] == lines[j];
      }
    }
  }

  /** current holds, first, lines with the ids of base, in the same order. */
  ghost predicate SameIds(base: seq<Line>, current: Order) {
    && |base| <= |current.lines|
    && (forall i :: 0 <= i < |base| ==> current.lines[i].id == base[i].id)
    && (forall i, j :: 0 <= i < |base| && i < j < |current.lines| ==> current.lines[j].id != base[i].id)
    && (forall i :: 0 <= i < |current.lines| ==> current.lines[i].id < current.nextId)
  }

  function PatchedLines(base: seq<Line>, current: seq<Line>, ps: seq<ProductVals>): (r: seq<Line>)
    requires |base| <= |current|
    ensures |r| == |current|
  {
    seq(|current|, i requires 0 <= i < |current| =>
      if i < |base| then Rewritten(current[i], WritersOf(base[i], ps)) else current[i])
  }

  /** The lines after the data commands: rewritten, then created. */
  function AfterData(base: seq<Line>, o: Order, ps: seq<ProductVals>): Order
    requires |base| <= |o.lines|
  {
    Order(PatchedLines(base, o.lines, ps) + NewLines(o.nextId, Unmatched(base, ps)),
          o.nextId + |Unmatched(base, ps)|)
  }

  /** Dictionaries that write nothing to the existing lines do not show in the patched lines. */
  lemma {:induction false} PatchedSkip(base: seq<Line>, lines: seq<Line>, ps: seq<ProductVals>)
    requires |base| <= |lines| && ps != []
    requires forall i :: 0 <= i < |base| ==> !(Matched(base[i], ps[0]) && ps[0].price.Some?)
    ensures PatchedLines(base, lines, ps[1..]) == PatchedLines(base, lines, ps)
  {
    forall i | 0 <= i < |base| ensures WritersOf(base[i], ps) == WritersOf(base[i], ps[1..]) {
      assert [] + WritersOf(base[i], ps[1..]) == WritersOf(base[i], ps[1..]);
    }
  }

  lemma {:induction false} PatchedSnoc(base: seq<Line>, lines: seq<Line>, x: Line, ps: seq<ProductVals>)
    requires |base| <= |lines|
    ensures PatchedLines(base, lines + [x], ps) == PatchedLines(base, lines, ps) + [x]
  {
  }

  lemma {:induction false} CreatedCons(base: seq<Line>, id: nat, ps: seq<ProductVals>)
    requires ps != [] && Matches(base, ps[0]) == []
    ensures |Unmatched(base, ps)| == 1 + |Unmatched(base, ps[1..])|
    ensures NewLines(id, Unmatched(base, ps)) == [NewLine(id, ps[0])] + NewLines(id + 1, Unmatched(base, ps[1..]))
  {
    assert Unmatched(base, ps)[1..] == Unmatched(base, ps[1..]);
  }

  lemma {:induction false} AfterCreate(base: seq<Line>, o: Order, ps: seq<ProductVals>)
    requires |base| <= |o.lines| && ps != []
    requires Matches(base, ps[0]) == []
    ensures AfterData(base, ApplyOne(o, Create(ps[0])), ps[1..]) == AfterData(base, o, ps)
  {
    var x := NewLine(o.nextId, ps[0]);
    NoMatch(base, ps[0]);
    PatchedSkip(base, o.lines, ps);
    PatchedSnoc(base, o.lines, x, ps[1..]);
    CreatedCons(base, o.nextId, ps);
    Regroup(PatchedLines(base, o.lines, ps), [x], NewLines(o.nextId + 1, Unmatched(base, ps[1..])));
  }

  /** Writing the first dictionary to its line now or leaving it to be written is the same. */
  lemma {:induction false} PatchedWrite(base: seq<Line>, lines: seq<Line>, ps: seq<ProductVals>, i: nat)
    requires |base| <= |lines| && i < |base| && ps != [] && ps[0].price.Some?
    requires Matched(base[i], ps[0]) && forall j :: 0 <= j < |base| && Matched(base[j], ps[0]) ==> j == i
    ensures PatchedLines(base, lines[i := Rewrite(lines[i], ps[0])], ps[1..]) == PatchedLines(base, lines, ps)
  {
    var written := lines[i := Rewrite(lines[i], ps[0])];
    forall j | 0 <= j < |base|
      ensures Rewritten(written[j], WritersOf(base[j], ps[1..])) == Rewritten(lines[j], WritersOf(base[j], ps))
    {
      var later := WritersOf(base[j], ps[1..]);
      if j == i {
        assert WritersOf(base[j], ps) == [ps[0]] + later && ([ps[0]] + later)[1..] == later;
      } else {
        assert [] + later == later;
      }
    }
  }

  lemma {:induction false} AfterWrite(base: seq<Line>, o: Order, ps: seq<ProductVals>, i: nat)
    requires SameIds(base, o) && i < |base| && ps != [] && ps[0].price.Some?
    requires Matched(base[i], ps[0]) && forall j :: 0 <= j < |base| && Matched(base[j], ps[0]) ==> j == i
    ensures var o1 := ApplyOne(o, Write(base[i].id, ps[0]));
            SameIds(base, o1) && AfterData(base, o1, ps[1..]) == AfterData(base, o, ps)
  {
    var o1 := ApplyOne(o, Write(base[i].id, ps[0]));
    assert o1.lines == o.lines[i := Rewrite(o.lines[i], ps[0])];
    PatchedWrite(base, o.lines, ps, i);
    NoMatch(base, ps[0]);
    assert Unmatched(base, ps) == Unmatched(base, ps[1..]);
  }

  /** The commands of the first dictionary, then the rest. */
  lemma {:induction false} DataCommandApplied(base: seq<Line>, o: Order, ps: seq<ProductVals>)
    requires SameIds(base, o) && ps != [] && MatchedOnce(base, ps)
    ensures DataCommand(base, ps[0]).Commands?
    ensures var o1 := Apply(o, DataCommand(base, ps[0]).cmds);
            SameIds(base, o1) && AfterData(base, o1, ps[1..]) == AfterData(base, o, ps)
  {
    assert ps[0].price.Some? ==> |Matches(base, ps[0])| <= 1;
    if Matches(base, ps[0]) == [] {
      AfterCreate(base, o, ps);
      ApplySingle(o, Create(ps[0]));
      assert ApplyOne(o, Create(ps[0])).lines == o.lines + [NewLine(o.nextId, ps[0])];
    } else if ps[0].price.None? {
      PatchedSkip(base, o.lines, ps);
      assert Unmatched(base, ps) == Unmatched(base, ps[1..]);
    } else {
      var i := FirstMatch(base, ps[0]);
      ApplySingle(o, Write(base[i].id, ps[0]));
      AfterWrite(base, o, ps, i);
    }
  }

  lemma {:induction false} DataCommandsApplied(base: seq<Line>, o: Order, ps: seq<ProductVals>)
    requires SameIds(base, o) && MatchedOnce(base, ps)
    ensures DataCommands(base, ps).Commands?
    ensures Apply(o, DataCommands(base, ps).cmds) == AfterData(base, o, ps)
    decreases |ps|
  {
    MergeRaisesIff(base, ps);
    if ps == [] {
      assert PatchedLines(base, o.lines, ps) + NewLines(o.nextId, []) == o.lines;
    } else {
      DataCommandApplied(base, o, ps);
      var head := DataCommand(base, ps[0]).cmds;
      assert forall i :: 0 <= i < |ps[1..]| ==> ps[1..][i] == ps[i + 1];
      DataCommandsApplied(base, Apply(o, head), ps[1..]);
      ApplyAppend(o, head, DataCommands(base, ps[1..]).cmds);
    }
  }

  function ZeroedLines(base: seq<Line>, from: nat, current: seq<Line>, ps: seq<ProductVals>): (r: seq<Line>)
    requires |base| <= |current|
    ensures |r| == |current|
  {
    seq(|current|, i requires 0 <= i < |current| =>
      if from <= i < |base| && Removed(base[i], ps) then current[i].(qty := 0.0) else current[i])
  }

  lemma {:induction false} RemovedCommandsApplied(base: seq<Line>, from: nat, o: Order, ps: seq<ProductVals>)
    requires from <= |base| && SameIds(base, o)
    ensures Apply(o, RemovedCommands(base[from..], ps)) ==
            Order(ZeroedLines(base, from, o.lines, ps), o.nextId)
    decreases |base| - from
  {
    if from == |base| {
      assert base[from..] == [];
      assert ZeroedLines(base, from, o.lines, ps) == o.lines;
    } else {
      assert base[from..][1..] == base[from + 1..];
      if Removed(base[from], ps) {
        var o1 := ApplyOne(o, SetQty(base[from].id, 0.0));
        assert o1.lines == o.lines[from := o.lines[from].(qty := 0.0)];
        RemovedCommandsApplied(base, from + 1, o1, ps);
        assert RemovedCommands(base[from..], ps)[1..] == RemovedCommands(base[from + 1..], ps);
        assert ZeroedLines(base, from + 1, o1.lines, ps) == ZeroedLines(base, from, o.lines, ps);
      } else {
        RemovedCommandsApplied(base, from + 1, o, ps);
        assert RemovedCommands(base[from..], ps) == RemovedCommands(base[from + 1..], ps);
        assert ZeroedLines(base, from + 1, o.lines, ps) == ZeroedLines(base, from, o.lines, ps);
      }
    }
  }

  lemma {:induction false} NewLinesFresh(id: nat, vs: seq<Vals>)
    ensures forall i :: 0 <= i < |vs| ==> NewLines(id, vs)[i].id == id + i
    decreases |vs|
  {
    if vs != [] {
      NewLinesFresh(id + 1, vs[1..]);
    }
  }

  lemma {:induction false} NewLinesAppend(id: nat, a: seq<Vals>, b: seq<Vals>)
    ensures NewLines(id, a + b) == NewLines(id, a) + NewLines(id + |a|, b)
    decreases |a|
  {
    if a == [] {
      assert a + b == b;
    } else {
      assert (a + b)[1..] == a[1..] + b;
      NewLinesAppend(id + 1, a[1..], b);
    }
  }

  lemma {:induction false} NoWriters(l: Line, ps: seq<ProductVals>)
    requires !LookedUp(l, ps)
    ensures WritersOf(l, ps) == []
  {
    if ps != [] {
      NoWriters(l, ps[1..]);
    }
  }

  lemma {:induction false} ZeroedAfterPatched(lines: seq<Line>, added: seq<Line>, ps: seq<ProductVals>)
    ensures ZeroedLines(lines, 0, PatchedLines(lines, lines, ps) + added, ps) == FinalLines(lines, ps) + added
  {
    forall i | 0 <= i < |lines|
      ensures ZeroedLines(lines, 0, PatchedLines(lines, lines, ps) + added, ps)[i] == FinalLine(lines[i], ps)
    {
      if !LookedUp(lines[i], ps) {
        NoWriters(lines[i], ps);
      }
    }
  }

  lemma {:induction false} RewrittenId(l: Line, ws: seq<ProductVals>)
    ensures Rewritten(l, ws).id == l.id && Rewritten(l, ws).product == l.product
    decreases |ws|
  {
    if ws != [] {
      RewrittenId(Rewrite(l, ws[0]), ws[1..]);
    }
  }

  lemma {:induction false} SameIdsAfterData(o: Order, ps: seq<ProductVals>, vs: seq<Vals>)
    requires SameIds(o.lines, o)
    ensures SameIds(o.lines, Order(PatchedLines(o.lines, o.lines, ps) + NewLines(o.nextId, vs), o.nextId + |vs|))
  {
    var patched, added := PatchedLines(o.lines, o.lines, ps), NewLines(o.nextId, vs);
    NewLinesFresh(o.nextId, vs);
    forall i | 0 <= i < |patched| ensures patched[i].id == o.lines[i].id {
      RewrittenId(o.lines[i], WritersOf(o.lines[i], ps));
    }
    SameIdsExtended(o, patched, added);
  }

  lemma {:induction false} SameIdsExtended(o: Order, patched: seq<Line>, added: seq<Line>)
    requires SameIds(o.lines, o) && |patched| == |o.lines|
    requires forall i :: 0 <= i < |patched| ==> patched[i].id == o.lines[i].id
    requires forall i :: 0 <= i < |added| ==> added[i].id == o.nextId + i
    ensures SameIds(o.lines, Order(patched + added, o.nextId + |added|))
  {
    var after := patched + added;
    forall i | 0 <= i < |after|
      ensures after[i].id == if i < |patched| then o.lines[i].id else o.nextId + (i - |patched|)
    {
      if i >= |patched| {
        assert after[i] == added[i - |patched|];
      }
    }
  }

  /** The data commands, then the zero quantities. */
  lemma {:induction false} DataThenRemoved(o: Order, ps: seq<ProductVals>)
    requires WellFormed(o) && MatchedOnce(o.lines, ps)
    ensures DataCommands(o.lines, ps).Commands?
    ensures Apply(o, DataCommands(o.lines, ps).cmds + RemovedCommands(o.lines, ps))
            == Order(FinalLines(o.lines, ps) + NewLines(o.nextId, Unmatched(o.lines, ps)),
                     o.nextId + |Unmatched(o.lines, ps)|)
  {
    var L, o1 := o.lines, AfterData(o.lines, o, ps);
    DataCommandsApplied(L, o, ps);
    SameIdsAfterData(o, ps, Unmatched(L, ps));
    assert L[0..] == L;
    RemovedCommandsApplied(L, 0, o1, ps);
    ZeroedAfterPatched(L, NewLines(o.nextId, Unmatched(L, ps)), ps);
    ApplyAppend(o, DataCommands(L, ps).cmds, RemovedCommands(L, ps));
  }

  /** Creating more lines after some have been created. */
  lemma {:induction false} CreatedInTwo(front: seq<Line>, id: nat, created: seq<Vals>, more: seq<Vals>)
    ensures Apply(Order(front + NewLines(id, created), id + |created|), Creates(more))
            == Order(front + NewLines(id, created + more), id + |created + more|)
  {
    ApplyCreates(Order(front + NewLines(id, created), id + |created|), more);
    NewLinesAppend(id, created, more);
    Regroup(front, NewLines(id, created), NewLines(id + |created|, more));
  }

  /** Whenever an update does not raise, applying its commands one after the other rewrites each looked
      up line by its dictionaries in order, puts the other product lines to zero, and appends the rest. */
  lemma {:induction false} MergeAppliesToMerged(o: Order, ds: seq<Vals>)
    requires WellFormed(o) && MergeCommands(o.lines, ds).Commands?
    ensures Apply(o, MergeCommands(o.lines, ds).cmds) == Merged(o, ds)
  {
    var ps := ProductData(ds);
    MergeRaisesIff(o.lines, ps);
    DataThenRemoved(o, ps);
    ApplyAppend(o, DataCommands(o.lines, ps).cmds + RemovedCommands(o.lines, ps), Creates(DisplayData(o.lines, ds)));
    CreatedInTwo(FinalLines(o.lines, ps), o.nextId, Unmatched(o.lines, ps), DisplayData(o.lines, ds));
  }

  // ------------------------------------------------------------------ several writers of one line

  /** Two dictionaries as one: the later one wins where it says something. */
  function Overlay(v: ProductVals, w: ProductVals): ProductVals {
    Vals(v.product, if w.storeId != "" then w.storeId else v.storeId, w.name,
         if w.qty.Some? then w.qty else v.qty, if w.price.Some? then w.price else v.price, v.flags + w.flags)
  }

  function Folded(ws: seq<ProductVals>): ProductVals
    requires ws != []
    decreases |ws|
  {
    if |ws| == 1 then ws[0] else Folded([Overlay(ws[0], ws[1])] + ws[2..])
  }

  lemma {:induction false} FlagsOverlay(flags: set<Flag>, v: map<Flag, bool>, w: map<Flag, bool>)
    ensures SetFlags(SetFlags(flags, v), w) == SetFlags(flags, v + w)
  {
    forall f: Flag ensures f in SetFlags(SetFlags(flags, v), w) <==> f in SetFlags(flags, v + w) {
    }
  }

  lemma {:induction false} OverlayWrites(l: Line, v: ProductVals, w: ProductVals)
    ensures Rewrite(Rewrite(l, v), w) == Rewrite(l, Overlay(v, w))
  {
    FlagsOverlay(l.flags, v.flags, w.flags);
  }

  /** Several writes are one: the last price and the last given quantity win. */
  lemma {:induction false} RewrittenIsFolded(l: Line, ws: seq<ProductVals>)
    requires ws != []
    ensures Rewritten(l, ws) == Rewrite(l, Folded(ws))
    decreases |ws|
  {
    if |ws| > 1 {
      var both := [Overlay(ws[0], ws[1])] + ws[2..];
      OverlayWrites(l, ws[0], ws[1]);
      RewrittenIsFolded(l, both);
      assert both[1..] == ws[2..] == ws[1..][1..];
    } else {
      assert ws[1..] == [];
    }
  }

  lemma {:induction false} FoldedIs(ws: seq<ProductVals>)
    requires ws != [] && Products(ws)
    ensures Folded(ws).price == ws[|ws| - 1].price && Folded(ws).name == ws[|ws| - 1].name
    ensures Folded(ws).qty == LastQty(ws)
    decreases |ws|
  {
    if |ws| > 1 {
      var both := [Overlay(ws[0], ws[1])] + ws[2..];
      assert ws[|ws| - 1] == if |ws| == 2 then ws[1] else both[|both| - 1];
      assert forall i :: 0 < i < |both| ==> both[i] == ws[i + 1];
      FoldedIs(both);
      LastQtyOverlay(ws);
    }
  }

  function LastQty(ws: seq<ProductVals>): Option<real> {
    if ws == [] then None else if ws[|ws| - 1].qty.Some? then ws[|ws| - 1].qty else LastQty(ws[..|ws| - 1])
  }

  lemma {:induction false} LastQtyOverlay(ws: seq<ProductVals>)
    requires |ws| > 1
    ensures LastQty([Overlay(ws[0], ws[1])] + ws[2..]) == LastQty(ws)
    decreases |ws|
  {
    var both, before := [Overlay(ws[0], ws[1])] + ws[2..], ws[..|ws| - 1];
    if |ws| == 2 {
      assert both == [Overlay(ws[0], ws[1])] && both[..0] == [];
      assert before == [ws[0]] && before[..0] == [];
    } else {
      LastQtyOverlay(before);
      assert both[|both| - 1] == ws[|ws| - 1];
      assert both[..|both| - 1] == [Overlay(before[0], before[1])] + before[2..];
    }
  }

  // ------------------------------------------------------------------ the total

  function PriceOf(d: Vals): real {
    if d.price.Some? then d.price.value else 0.0
  }

  /** The amount of a line once d is written to it, when it has quantity q before. */
  function WrittenAmount(d: Vals, q: real): int {
    Subtotal(PriceOf(d), if d.qty.Some? then d.qty.value else q)
  }

  /** The amount d stands for when it is created. */
  function NewAmount(d: Vals): int {
    WrittenAmount(d, 1.0)
  }

  function SumNew(ps: seq<ProductVals>): int {
    if ps == [] then 0 else NewAmount(ps[0]) + SumNew(ps[1..])
  }

  lemma {:induction false} UnpricedIsNothing(d: Vals)
    requires d.price.None?
    ensures NewAmount(d) == 0
  {
    var q := if d.qty.Some? then d.qty.value else 1.0;
    assert 0.0 * q == 0.0 && 100.0 * 0.0 == 0.0;
  }

  /** The amount of a line of quantity q once ws are written to it: the price of the last writer, and the
      last quantity given, or q. */
  function WonAmount(ws: seq<ProductVals>, q: real): int
    requires ws != []
  {
    Subtotal(PriceOf(ws[|ws| - 1]), if LastQty(ws).Some? then LastQty(ws).value else q)
  }

  lemma {:induction false} RewrittenAmount(l: Line, ws: seq<ProductVals>)
    requires ws != [] && Products(ws)
    ensures LineTotal(Rewritten(l, ws)) == WonAmount(ws, l.qty)
  {
    RewrittenIsFolded(l, ws);
    FoldedIs(ws);
    LineTotalUntaxed(Rewrite(l, Folded(ws)));
  }

  lemma {:induction false} WritersPriced(l: Line, ps: seq<ProductVals>)
    ensures Products(WritersOf(l, ps))
  {
    if ps != [] {
      WritersPriced(l, ps[1..]);
    }
  }

  /** What a merge counts too much on a line: what the line amounts to, less what the dictionaries written
      to it amount to when each is created. */
  function LineGap(l: Line, ps: seq<ProductVals>): int {
    if LookedUp(l, ps) then LineTotal(FinalLine(l, ps)) - SumNew(WritersOf(l, ps)) else 0
  }

  function SumGaps(lines: seq<Line>, ps: seq<ProductVals>): int {
    if lines == [] then 0 else LineGap(lines[0], ps) + SumGaps(lines[1..], ps)
  }

  /** In terms of the writers: the last one's amount less the amounts of all of them. */
  lemma {:induction false} LineGapIs(l: Line, ps: seq<ProductVals>)
    ensures WritersOf(l, ps) != [] ==>
              LineGap(l, ps) == WonAmount(WritersOf(l, ps), l.qty) - SumNew(WritersOf(l, ps))
    ensures WritersOf(l, ps) == [] ==> LineGap(l, ps) == if LookedUp(l, ps) then LineTotal(l) else 0
  {
    if WritersOf(l, ps) != [] {
      WritersPriced(l, ps);
      RewrittenAmount(l, WritersOf(l, ps));
      WritersLookUp(l, ps);
    }
  }

  lemma {:induction false} WritersLookUp(l: Line, ps: seq<ProductVals>)
    requires WritersOf(l, ps) != []
    ensures LookedUp(l, ps)
  {
    if !Matched(l, ps[0]) {
      assert [] + WritersOf(l, ps[1..]) == WritersOf(l, ps[1..]);
      WritersLookUp(l, ps[1..]);
    }
  }

  /** What the dictionaries written to the lines amount to. */
  function SumWritten(lines: seq<Line>, ps: seq<ProductVals>): int {
    if lines == [] then 0 else SumNew(WritersOf(lines[0], ps)) + SumWritten(lines[1..], ps)
  }

  lemma {:induction false} FinalTotal(lines: seq<Line>, ps: seq<ProductVals>)
    requires forall i :: 0 <= i < |lines| && lines[i].product == 0 ==> lines[i].price == 0.0
    ensures AmountTotal(FinalLines(lines, ps)) == SumGaps(lines, ps) + SumWritten(lines, ps)
  {
    if lines != [] {
      var l := lines[0];
      assert forall i :: 0 <= i < |lines[1..]| ==> lines[1..][i] == lines[i + 1];
      FinalTotal(lines[1..], ps);
      assert FinalLines(lines, ps)[0] == FinalLine(l, ps) && FinalLines(lines, ps)[1..] == FinalLines(lines[1..], ps);
      if !LookedUp(l, ps) {
        NoWriters(l, ps);
        assert FinalLine(l, ps).price * FinalLine(l, ps).qty == 0.0;
        LineTotalOfZero(FinalLine(l, ps));
      }
    }
  }

  /** A dictionary is written to as many lines as it is looked up to, at most one. */
  lemma {:induction false} WrittenCons(lines: seq<Line>, ps: seq<ProductVals>)
    requires ps != [] && (ps[0].price.Some? ==> |Matches(lines, ps[0])| <= 1)
    ensures SumWritten(lines, ps) == SumWritten(lines, ps[1..]) + if Matches(lines, ps[0]) == [] then 0 else NewAmount(ps[0])
  {
    if ps[0].price.None? {
      UnpricedIsNothing(ps[0]);
    }
    if lines != [] {
      var l, rest := lines[0], ps[1..];
      WrittenCons(lines[1..], ps);
      if Matched(l, ps[0]) && ps[0].price.Some? {
        assert Matches(lines[1..], ps[0]) == [];
        assert WritersOf(l, ps) == [ps[0]] + WritersOf(l, rest);
        assert WritersOf(l, ps)[1..] == WritersOf(l, rest);
      } else {
        assert [] + WritersOf(l, rest) == WritersOf(l, rest);
      }
    }
  }

  lemma {:induction false} NothingWritten(lines: seq<Line>)
    ensures SumWritten(lines, []) == 0
  {
    if lines != [] {
      NothingWritten(lines[1..]);
    }
  }

  lemma {:induction false} WrittenPlusUnmatched(lines: seq<Line>, ps: seq<ProductVals>)
    requires MatchedOnce(lines, ps)
    ensures SumWritten(lines, ps) + SumNew(Unmatched(lines, ps)) == SumNew(ps)
  {
    if ps == [] {
      NothingWritten(lines);
    } else {
      assert forall i :: 0 <= i < |ps[1..]| ==> ps[1..][i] == ps[i + 1];
      WrittenPlusUnmatched(lines, ps[1..]);
      WrittenCons(lines, ps);
      assert ps[0].price.Some? ==> |Matches(lines, ps[0])| <= 1;
      if Matches(lines, ps[0]) == [] {
        assert Unmatched(lines, ps)[1..] == Unmatched(lines, ps[1..]);
      } else {
        assert Unmatched(lines, ps) == Unmatched(lines, ps[1..]);
      }
    }
  }

  /** Displays add nothing to the total, so only the product dictionaries count. */
  lemma {:induction false} CreatedTotal(id: nat, vs: seq<Vals>)
    ensures AmountTotal(NewLines(id, vs)) == SumNew(ProductData(vs))
    decreases |vs|
  {
    if vs != [] {
      var l := NewLine(id, vs[0]);
      LineTotalUntaxed(l);
      assert NewLines(id, vs)[1..] == NewLines(id + 1, vs[1..]);
      CreatedTotal(id + 1, vs[1..]);
      if vs[0].product.Some? {
        assert ProductData(vs)[1..] == ProductData(vs[1..]);
      } else {
        assert l.price * l.qty == 0.0;
        LineTotalOfZero(l);
      }
    }
  }

  lemma {:induction false} ProductDataOfAdded(a: seq<ProductVals>, lines: seq<Line>, ds: seq<Vals>)
    ensures var wide: seq<Vals> := a; ProductData(wide + DisplayData(lines, ds)) == a
    decreases |a| + |ds|
  {
    var wide: seq<Vals> := a;
    if a != [] {
      assert (wide + DisplayData(lines, ds))[1..] == wide[1..] + DisplayData(lines, ds);
      ProductDataOfAdded(a[1..], lines, ds);
    } else if ds != [] {
      ProductDataOfAdded([], lines, ds[1..]);
      assert [] + DisplayData(lines, ds) == DisplayData(lines, ds);
      assert [] + DisplayData(lines, ds[1..]) == DisplayData(lines, ds[1..]);
      if NewDisplay(lines, ds[0]) {
        assert DisplayData(lines, ds)[1..] == DisplayData(lines, ds[1..]);
      }
    } else {
      assert wide + DisplayData(lines, ds) == [];
    }
  }

  lemma {:induction false} ReplacedTotal(o: Order, ds: seq<Vals>)
    ensures AmountTotal(Replaced(o, ds).lines) == SumNew(ProductData(ds))
  {
    ApplyAppend(o, [Clear], Creates(ds));
    var cleared := o.(lines := []);
    assert Apply(o, [Clear]) == cleared by {
      assert [Clear][1..] == [];
      assert Apply(cleared, []) == cleared;
    }
    ApplyCreates(cleared, ds);
    assert [] + NewLines(o.nextId, ds) == NewLines(o.nextId, ds);
    CreatedTotal(o.nextId, ds);
  }

  /** The two update paths compared, for every order and every data the update accepts: they differ by
      exactly the gaps of the lines. */
  lemma {:induction false} MergeTotalVersusReplace(o: Order, ds: seq<Vals>)
    requires WellFormed(o) && MergeCommands(o.lines, ds).Commands?
    ensures AmountTotal(Apply(o, MergeCommands(o.lines, ds).cmds).lines) ==
            AmountTotal(Replaced(o, ds).lines) + SumGaps(o.lines, ProductData(ds))
  {
    var ps := ProductData(ds);
    var created: seq<Vals>, display: seq<Vals> := Unmatched(o.lines, ps), DisplayData(o.lines, ds);
    MergeRaisesIff(o.lines, ps);
    MergeAppliesToMerged(o, ds);
    SumOfAppend(FinalLines(o.lines, ps), NewLines(o.nextId, created + display), LineTotal);
    FinalTotal(o.lines, ps);
    WrittenPlusUnmatched(o.lines, ps);
    ProductDataOfAdded(created, o.lines, ds);
    CreatedTotal(o.nextId, created + display);
    ReplacedTotal(o, ds);
  }

  // ------------------------------------------------------------------ when the paths agree

  /** Discounts and coupons: no quantity, and nothing to pay. */
  predicate Deduction(d: ProductVals) {
    d.qty.None? && d.price.Some? && d.price.value <= 0.0
  }

  /** A line is looked up by one priced dictionary with a quantity, or only by deductions, and then it stands
      at 1, or at 0 because an earlier update removed it. */
  ghost predicate Ordinary(l: Line, ps: seq<ProductVals>) {
    var ws := WritersOf(l, ps);
    && (LookedUp(l, ps) ==> ws != [])
    && ((|ws| == 1 && ws[0].qty.Some?)
        || (l.qty in {0.0, 1.0} && forall i :: 0 <= i < |ws| ==> Deduction(ws[i]))
        || ws == [])
  }

  /** No deduction worth a cent is written to a line that stands at zero, or overwritten by a later one. */
  ghost predicate NoDeductionLost(l: Line, ps: seq<ProductVals>) {
    var ws := WritersOf(l, ps);
    forall i :: 0 <= i < |ws| && ws[i].qty.None? && (l.qty == 0.0 || i < |ws| - 1) ==> NewAmount(ws[i]) == 0
  }

  lemma {:induction false} DeductionAmount(d: ProductVals)
    requires Deduction(d)
    ensures NewAmount(d) <= 0 && WrittenAmount(d, 0.0) == 0
  {
    assert d.price.value * 1.0 == d.price.value && d.price.value * 0.0 == 0.0;
  }

  lemma {:induction false} SumOfDeductions(ws: seq<ProductVals>)
    requires forall i :: 0 <= i < |ws| ==> Deduction(ws[i])
    ensures LastQty(ws) == None && SumNew(ws) <= 0
    ensures SumNew(ws) == 0 <==> forall i :: 0 <= i < |ws| ==> NewAmount(ws[i]) == 0
    ensures ws != [] ==> SumNew(ws) == SumNew(ws[..|ws| - 1]) + NewAmount(ws[|ws| - 1])
  {
    if ws != [] {
      var rest, front := ws[1..], ws[..|ws| - 1];
      DeductionAmount(ws[0]);
      assert forall i :: 0 <= i < |rest| ==> rest[i] == ws[i + 1];
      SumOfDeductions(rest);
      NoQuantity(ws);
      if |ws| > 1 {
        assert front[1..] == rest[..|rest| - 1] && front[0] == ws[0];
      } else {
        assert front == [] && rest == [];
      }
      assert (forall i :: 0 <= i < |ws| ==> NewAmount(ws[i]) == 0)
             <==> NewAmount(ws[0]) == 0 && forall i :: 0 <= i < |rest| ==> NewAmount(rest[i]) == 0 by {
        assert forall i :: 0 < i < |ws| ==> ws[i] == rest[i - 1];
      }
    }
  }

  lemma {:induction false} NoQuantity(ws: seq<ProductVals>)
    requires forall i :: 0 <= i < |ws| ==> ws[i].qty.None?
    ensures LastQty(ws) == None
  {
    if ws != [] {
      NoQuantity(ws[..|ws| - 1]);
    }
  }

  lemma {:induction false} DeductionsGap(ws: seq<ProductVals>, q: real)
    requires ws != [] && q in {0.0, 1.0} && forall i :: 0 <= i < |ws| ==> Deduction(ws[i])
    ensures WonAmount(ws, q) >= SumNew(ws)
    ensures WonAmount(ws, q) == SumNew(ws) <==>
            forall i :: 0 <= i < |ws| && (q == 0.0 || i < |ws| - 1) ==> NewAmount(ws[i]) == 0
  {
    var front, last := ws[..|ws| - 1], ws[|ws| - 1];
    SumOfDeductions(ws);
    SumOfDeductions(front);
    DeductionAmount(last);
    assert forall i :: 0 <= i < |front| ==> front[i] == ws[i];
    if q == 1.0 {
      assert WonAmount(ws, q) == NewAmount(last);
    } else {
      assert WonAmount(ws, q) == 0;
    }
  }

  lemma {:induction false} OrdinaryGap(l: Line, ps: seq<ProductVals>)
    requires Ordinary(l, ps)
    ensures LineGap(l, ps) >= 0
    ensures LineGap(l, ps) == 0 <==> NoDeductionLost(l, ps)
  {
    var ws := WritersOf(l, ps);
    LineGapIs(l, ps);
    if |ws| == 1 && ws[0].qty.Some? {
      OneWriterGap(ws, l.qty);
    } else if ws != [] {
      DeductionsGap(ws, l.qty);
    }
  }

  lemma {:induction false} OneWriterGap(ws: seq<ProductVals>, q: real)
    requires |ws| == 1 && ws[0].qty.Some?
    ensures WonAmount(ws, q) == SumNew(ws)
  {
    assert ws[1..] == [] && ws[..0] == [] && SumNew([]) == 0;
    assert LastQty(ws) == ws[0].qty;
  }

  lemma {:induction false} SumOfOrdinary(lines: seq<Line>, ps: seq<ProductVals>)
    requires forall k :: 0 <= k < |lines| ==> Ordinary(lines[k], ps)
    ensures SumGaps(lines, ps) >= 0
    ensures SumGaps(lines, ps) == 0 <==> forall k :: 0 <= k < |lines| ==> NoDeductionLost(lines[k], ps)
  {
    if lines != [] {
      var rest := lines[1..];
      assert forall k :: 0 <= k < |rest| ==> rest[k] == lines[k + 1];
      SumOfOrdinary(rest, ps);
      OrdinaryGap(lines[0], ps);
      assert forall k :: 0 < k < |lines| ==> lines[k] == rest[k - 1];
    }
  }

  /** Where only deductions share a line, the confirmed path never asks less than the draft path, and asks
      the same exactly when no deduction worth a cent is overwritten by a later one, or written to a line
      an earlier update has put to zero. */
  lemma {:induction false} MergeMatchesReplaceIff(o: Order, ds: seq<Vals>)
    requires WellFormed(o) && MergeCommands(o.lines, ds).Commands?
    requires forall k :: 0 <= k < |o.lines| ==> Ordinary(o.lines[k], ProductData(ds))
    ensures AmountTotal(Apply(o, MergeCommands(o.lines, ds).cmds).lines) >= AmountTotal(Replaced(o, ds).lines)
    ensures AmountTotal(Apply(o, MergeCommands(o.lines, ds).cmds).lines) == AmountTotal(Replaced(o, ds).lines)
            <==> forall k :: 0 <= k < |o.lines| ==> NoDeductionLost(o.lines[k], ProductData(ds))
  {
    MergeTotalVersusReplace(o, ds);
    SumOfOrdinary(o.lines, ProductData(ds));
  }
}
