/** The same store data a second time. After an accepted update each dictionary finds the line it was written to
    or created, unless a line was created or renamed for another one; what the update then does to the order, and
    the inputs on which deductions get lost or the update raises. */
module OrderMergeTwice {
  import opened Options
  import opened Sequences
  import opened OrderLines
  import opened OrderUpdate
  import opened OrderMergeLaws

  // ------------------------------------------------------------------ what the data must say

  /** Looked up by store id, or by product because it is a discount, fee or tax. */
  predicate Keyed(d: ProductVals) {
    d.product.value != 0 && (d.storeId == "" ==> IsNonProduct(d))
  }

  ghost predicate AllKeyed(ps: seq<ProductVals>) {
    forall i :: 0 <= i < |ps| ==> Keyed(ps[i])
  }

  /** A line found by a coupon still has the coupon's name after the merge: no other dictionary of the line
      comes after the coupon and renames it. */
  ghost predicate NamesKept(lines: seq<Line>, ps: seq<ProductVals>) {
    forall k, i :: 0 <= k < |lines| && 0 <= i < |ps| && IsCoupon(ps[i]) && Matched(lines[k], ps[i]) ==>
      FinalLine(lines[k], ps).name == ps[i].name
  }

  ghost predicate DisplaysUnkeyed(lines: seq<Line>, ds: seq<Vals>) {
    && (forall k :: 0 <= k < |lines| && lines[k].product == 0 ==> lines[k].storeId == "")
    && (forall i :: 0 <= i < |ds| && ds[i].product.None? ==> ds[i].storeId == "")
  }

  /** No priced dictionary finds a line created for another one, or a line another one renamed for it. */
  ghost predicate NothingNewFound(lines: seq<Line>, ps: seq<ProductVals>) {
    && (forall i, j :: 0 <= i < |ps| && 0 <= j < |ps| && i != j && ps[i].price.Some? && Matches(lines, ps[j]) == [] ==>
          !Matched(NewLine(0, ps[j]), ps[i]))
    && (forall i, k :: 0 <= i < |ps| && 0 <= k < |lines| && ps[i].price.Some? && !Matched(lines[k], ps[i]) ==>
          !Matched(FinalLine(lines[k], ps), ps[i]))
  }

  // ------------------------------------------------------------------ lookups after the merge

  lemma {:induction false} SameStoreId(l: Line, current: Line, ps: seq<ProductVals>)
    requires current.storeId == l.storeId
    ensures Rewritten(current, WritersOf(l, ps)).storeId == l.storeId
    decreases |ps|
  {
    if ps != [] {
      var rest := WritersOf(l, ps[1..]);
      if Matched(l, ps[0]) && ps[0].price.Some? {
        assert WritersOf(l, ps) == [ps[0]] + rest && WritersOf(l, ps)[1..] == rest;
        SameStoreId(l, Rewrite(current, ps[0]), ps[1..]);
      } else {
        assert [] + rest == rest;
        SameStoreId(l, current, ps[1..]);
      }
    }
  }

  /** A merged line keeps its product and store id, so a dictionary that finds the line finds it again. */
  lemma {:induction false} FoundAgain(lines: seq<Line>, k: nat, ps: seq<ProductVals>, i: nat)
    requires NamesKept(lines, ps) && k < |lines| && i < |ps| && Matched(lines[k], ps[i])
    ensures Matched(FinalLine(lines[k], ps), ps[i])
  {
    RewrittenId(lines[k], WritersOf(lines[k], ps));
    SameStoreId(lines[k], lines[k], ps);
  }

  lemma {:induction false} FoundByOwn(id: nat, d: ProductVals)
    requires Keyed(d)
    ensures Matched(NewLine(id, d), d)
  {
  }

  lemma {:induction false} SameMatched(a: Line, b: Line, d: ProductVals)
    requires a.storeId == b.storeId && a.product == b.product && a.name == b.name
    ensures Matched(a, d) == Matched(b, d)
  {
  }

  lemma {:induction false} LookedUpIff(l: Line, ps: seq<ProductVals>)
    ensures LookedUp(l, ps) <==> exists i :: 0 <= i < |ps| && Matched(l, ps[i])
  {
    if ps != [] {
      LookedUpIff(l, ps[1..]);
      if exists i :: 0 <= i < |ps| && Matched(l, ps[i]) {
        var i :| 0 <= i < |ps| && Matched(l, ps[i]);
        assert i > 0 ==> Matched(l, ps[1..][i - 1]);
      }
      if LookedUp(l, ps[1..]) {
        var i :| 0 <= i < |ps[1..]| && Matched(l, ps[1..][i]);
        assert Matched(l, ps[i + 1]);
      }
    }
  }

  lemma {:induction false} SameWriters(a: Line, b: Line, ps: seq<ProductVals>)
    requires forall i :: 0 <= i < |ps| && ps[i].price.Some? ==> Matched(a, ps[i]) == Matched(b, ps[i])
    ensures WritersOf(a, ps) == WritersOf(b, ps)
  {
    if ps != [] {
      assert forall i :: 0 <= i < |ps[1..]| ==> ps[1..][i] == ps[i + 1];
      SameWriters(a, b, ps[1..]);
    }
  }

  lemma {:induction false} OnlyWriter(l: Line, ps: seq<ProductVals>, j: nat)
    requires j < |ps| && forall i :: 0 <= i < |ps| && ps[i].price.Some? ==> (Matched(l, ps[i]) <==> i == j)
    ensures WritersOf(l, ps) == if ps[j].price.Some? then [ps[j]] else []
  {
    var rest := ps[1..];
    assert forall i :: 0 <= i < |rest| ==> rest[i] == ps[i + 1];
    if j > 0 {
      OnlyWriter(l, rest, j - 1);
    } else {
      NoPricedWriter(l, rest);
    }
  }

  lemma {:induction false} NoPricedWriter(l: Line, ps: seq<ProductVals>)
    requires forall i :: 0 <= i < |ps| && ps[i].price.Some? ==> !Matched(l, ps[i])
    ensures WritersOf(l, ps) == []
  {
    if ps != [] {
      assert forall i :: 0 <= i < |ps[1..]| ==> ps[1..][i] == ps[i + 1];
      NoPricedWriter(l, ps[1..]);
    }
  }

  /** Writing the same dictionaries to a line once more changes nothing. */
  lemma {:induction false} RewrittenTwice(l: Line, ws: seq<ProductVals>)
    ensures Rewritten(Rewritten(l, ws), ws) == Rewritten(l, ws)
  {
    if ws != [] {
      RewrittenIsFolded(l, ws);
      RewrittenIsFolded(Rewritten(l, ws), ws);
      RewriteTwice(l, Folded(ws));
    }
  }

  lemma {:induction false} RewriteTwice(l: Line, v: ProductVals)
    ensures Rewrite(Rewrite(l, v), v) == Rewrite(l, v)
  {
    assert SetFlags(SetFlags(l.flags, v.flags), v.flags) == SetFlags(l.flags, v.flags);
  }

  /** Every line of the merged order is where a second merge would put it. */
  lemma {:induction false} FinalIsFixed(lines: seq<Line>, k: nat, ps: seq<ProductVals>)
    requires NamesKept(lines, ps) && NothingNewFound(lines, ps) && k < |lines|
    ensures FinalLine(FinalLine(lines[k], ps), ps) == FinalLine(lines[k], ps)
  {
    var l, f := lines[k], FinalLine(lines[k], ps);
    forall i | 0 <= i < |ps| && Matched(l, ps[i]) ensures Matched(f, ps[i]) {
      FoundAgain(lines, k, ps, i);
    }
    LookedUpIff(l, ps);
    LookedUpIff(f, ps);
    RewrittenId(l, WritersOf(l, ps));
    if LookedUp(l, ps) {
      SameWriters(f, l, ps);
      RewrittenTwice(l, WritersOf(l, ps));
    } else {
      forall i | 0 <= i < |ps| ensures !Matched(f, ps[i]) {
        SameMatched(f, l, ps[i]);
      }
    }
  }

  lemma {:induction false} CreatedIsFixed(id: nat, lines: seq<Line>, ps: seq<ProductVals>, j: nat)
    requires AllKeyed(ps) && NothingNewFound(lines, ps) && j < |ps| && Matches(lines, ps[j]) == []
    ensures FinalLine(NewLine(id, ps[j]), ps) == NewLine(id, ps[j])
  {
    var l := NewLine(id, ps[j]);
    forall i | 0 <= i < |ps| && ps[i].price.Some? ensures Matched(l, ps[i]) <==> i == j {
      if i == j {
        FoundByOwn(id, ps[j]);
      } else {
        SameMatched(l, NewLine(0, ps[j]), ps[i]);
      }
    }
    FoundByOwn(id, ps[j]);
    LookedUpIff(l, ps);
    OnlyWriter(l, ps, j);
    if ps[j].price.Some? {
      var one: seq<ProductVals> := [ps[j]];
      assert one[1..] == [];
      assert Rewritten(l, one) == Rewritten(Rewrite(l, ps[j]), []) == Rewrite(l, ps[j]);
      NewLineRewritten(id, ps[j]);
    }
  }

  lemma {:induction false} NewLineRewritten(id: nat, d: ProductVals)
    requires d.price.Some?
    ensures Rewrite(NewLine(id, d), d) == NewLine(id, d)
  {
    var l := NewLine(id, d);
    assert d.product.Some? && l.flags == SetFlags({}, d.flags);
    assert SetFlags(SetFlags({}, d.flags), d.flags) == SetFlags({}, d.flags);
    assert Rewrite(l, d).flags == l.flags;
  }

  lemma {:induction false} DisplayIsFixed(l: Line, ps: seq<ProductVals>)
    requires l.product == 0 && l.storeId == "" && AllKeyed(ps)
    ensures FinalLine(l, ps) == l
    ensures forall i :: 0 <= i < |ps| ==> !Matched(l, ps[i])
  {
    forall i | 0 <= i < |ps| ensures !Matched(l, ps[i]) {
      assert Keyed(ps[i]);
    }
    LookedUpIff(l, ps);
  }

  // ------------------------------------------------------------------ the merged lines, by index

  lemma {:induction false} NewLinesAt(id: nat, vs: seq<Vals>, j: nat)
    requires j < |vs|
    ensures NewLines(id, vs)[j] == NewLine(id + j, vs[j])
    decreases j
  {
    if j > 0 {
      NewLinesAt(id + 1, vs[1..], j - 1);
    }
  }

  lemma {:induction false} UnmatchedFrom(lines: seq<Line>, ps: seq<ProductVals>, j: nat) returns (i: nat)
    requires j < |Unmatched(lines, ps)|
    ensures j <= i < |ps| && Unmatched(lines, ps)[j] == ps[i] && Matches(lines, ps[i]) == []
    ensures Unmatched(lines, ps)[..j] == Unmatched(lines, ps[..i])
  {
    var rest := ps[1..];
    if Matches(lines, ps[0]) != [] {
      i := UnmatchedFrom(lines, rest, j);
      assert ps[..i + 1][0] == ps[0] && ps[..i + 1][1..] == rest[..i];
      i := i + 1;
    } else if j == 0 {
      i := 0;
      assert Unmatched(lines, ps)[..0] == [] && ps[..0] == [];
    } else {
      i := UnmatchedFrom(lines, rest, j - 1);
      assert ps[..i + 1][0] == ps[0] && ps[..i + 1][1..] == rest[..i];
      assert Unmatched(lines, ps)[..j] == [ps[0]] + Unmatched(lines, rest)[..j - 1];
      i := i + 1;
    }
  }

  lemma {:induction false} UnmatchedAt(lines: seq<Line>, ps: seq<ProductVals>, i: nat) returns (j: nat)
    requires i < |ps| && Matches(lines, ps[i]) == []
    ensures j < |Unmatched(lines, ps)| && Unmatched(lines, ps)[j] == ps[i] && j == |Unmatched(lines, ps[..i])|
  {
    if i == 0 {
      j := 0;
      assert ps[..0] == [];
    } else {
      j := UnmatchedAt(lines, ps[1..], i - 1);
      assert ps[..i][0] == ps[0] && ps[..i][1..] == ps[1..][..i - 1];
      j := if Matches(lines, ps[0]) == [] then j + 1 else j;
    }
  }

  lemma {:induction false} DisplayFrom(lines: seq<Line>, ds: seq<Vals>, j: nat) returns (i: nat)
    requires j < |DisplayData(lines, ds)|
    ensures i < |ds| && DisplayData(lines, ds)[j] == ds[i] && ds[i].product.None?
  {
    if !NewDisplay(lines, ds[0]) {
      i := DisplayFrom(lines, ds[1..], j);
      i := i + 1;
    } else if j == 0 {
      i := 0;
    } else {
      i := DisplayFrom(lines, ds[1..], j - 1);
      i := i + 1;
    }
  }

  /** A merged line is an existing line after the merge, the line of an unmatched dictionary, or a new
      section or note. */
  lemma {:induction false} MergedLine(o: Order, ds: seq<Vals>, k: nat)
    requires k < |Merged(o, ds).lines|
    ensures var l, n, ps := Merged(o, ds).lines[k], |o.lines|, ProductData(ds);
            && (k < n ==> l == FinalLine(o.lines[k], ps))
            && (n <= k < n + |Unmatched(o.lines, ps)| ==> l == NewLine(o.nextId + (k - n), Unmatched(o.lines, ps)[k - n]))
            && (k >= n + |Unmatched(o.lines, ps)| ==>
                  var j := k - n - |Unmatched(o.lines, ps)|;
                  j < |DisplayData(o.lines, ds)| && l == NewLine(o.nextId + (k - n), DisplayData(o.lines, ds)[j]))
  {
    var created: seq<Vals>, display: seq<Vals> := Unmatched(o.lines, ProductData(ds)), DisplayData(o.lines, ds);
    if k >= |o.lines| {
      NewLinesAt(o.nextId, created + display, k - |o.lines|);
    }
  }

  lemma {:induction false} DisplayLine(o: Order, ds: seq<Vals>, k: nat)
    requires DisplaysUnkeyed(o.lines, ds)
    requires |o.lines| + |Unmatched(o.lines, ProductData(ds))| <= k < |Merged(o, ds).lines|
    ensures Merged(o, ds).lines[k].product == 0 && Merged(o, ds).lines[k].storeId == ""
    ensures Merged(o, ds).lines[k].price == 0.0
  {
    MergedLine(o, ds, k);
    var i := DisplayFrom(o.lines, ds, k - |o.lines| - |Unmatched(o.lines, ProductData(ds))|);
  }

  /** Where a dictionary finds its line after the merge. */
  lemma {:induction false} Home(o: Order, ds: seq<Vals>, i: nat) returns (k: nat)
    requires AllKeyed(ProductData(ds)) && NamesKept(o.lines, ProductData(ds)) && i < |ProductData(ds)|
    ensures k < |Merged(o, ds).lines| && Matched(Merged(o, ds).lines[k], ProductData(ds)[i])
    ensures Matches(o.lines, ProductData(ds)[i]) != [] ==> k < |o.lines| && Matched(o.lines[k], ProductData(ds)[i])
    ensures Matches(o.lines, ProductData(ds)[i]) == [] ==>
              k == |o.lines| + |Unmatched(o.lines, ProductData(ds)[..i])|
              && k < |o.lines| + |Unmatched(o.lines, ProductData(ds))|
  {
    var ps := ProductData(ds);
    if Matches(o.lines, ps[i]) != [] {
      k := FirstMatch(o.lines, ps[i]);
      FoundAgain(o.lines, k, ps, i);
      MergedLine(o, ds, k);
    } else {
      var j := UnmatchedAt(o.lines, ps, i);
      k := |o.lines| + j;
      MergedLine(o, ds, k);
      FoundByOwn(o.nextId + j, ps[i]);
    }
  }

  // ------------------------------------------------------------------ the second merge

  lemma {:induction false} AtMostOneMatch(lines: seq<Line>, d: ProductVals)
    ensures |Matches(lines, d)| <= 1 <==>
            forall j, k :: 0 <= j < k < |lines| ==> !(Matched(lines[j], d) && Matched(lines[k], d))
  {
    if lines != [] {
      var rest := lines[1..];
      AtMostOneMatch(rest, d);
      NoMatch(rest, d);
      assert forall k :: 0 <= k < |rest| ==> rest[k] == lines[k + 1];
      assert forall k :: 0 < k < |lines| ==> lines[k] == rest[k - 1];
    }
  }

  lemma {:induction false} OldFoundOnce(lines: seq<Line>, ps: seq<ProductVals>, i: nat, k: nat, h: nat)
    requires NothingNewFound(lines, ps) && i < |ps| && ps[i].price.Some? && |Matches(lines, ps[i])| <= 1
    requires k < |lines| && Matched(FinalLine(lines[k], ps), ps[i])
    requires Matches(lines, ps[i]) != [] ==> h < |lines| && Matched(lines[h], ps[i])
    ensures Matches(lines, ps[i]) != [] && k == h
  {
    hide FinalLine, Matched, Matches;
    assert Matched(lines[k], ps[i]);
    NoMatch(lines, ps[i]);
    AtMostOneMatch(lines, ps[i]);
  }

  lemma {:induction false} NewFoundOnce(lines: seq<Line>, ps: seq<ProductVals>, id: nat, i: nat, j: nat)
    requires NothingNewFound(lines, ps) && i < |ps| && j < |ps| && ps[i].price.Some?
    requires Matches(lines, ps[j]) == [] && Matched(NewLine(id, ps[j]), ps[i])
    ensures i == j
  {
    SameMatched(NewLine(id, ps[j]), NewLine(0, ps[j]), ps[i]);
    hide Matched, Matches;
  }

  lemma {:induction false} AddedFoundOnce(o: Order, ds: seq<Vals>, i: nat, k: nat)
    requires AllKeyed(ProductData(ds)) && DisplaysUnkeyed(o.lines, ds) && NothingNewFound(o.lines, ProductData(ds))
    requires i < |ProductData(ds)| && ProductData(ds)[i].price.Some?
    requires |o.lines| <= k < |Merged(o, ds).lines| && Matched(Merged(o, ds).lines[k], ProductData(ds)[i])
    ensures Matches(o.lines, ProductData(ds)[i]) == [] && k == |o.lines| + |Unmatched(o.lines, ProductData(ds)[..i])|
  {
    var ps, n := ProductData(ds), |o.lines|;
    MergedLine(o, ds, k);
    if k < n + |Unmatched(o.lines, ps)| {
      var j := UnmatchedFrom(o.lines, ps, k - n);
      NewFoundOnce(o.lines, ps, o.nextId + (k - n), i, j);
      assert |Unmatched(o.lines, ps)[..k - n]| == k - n;
    } else {
      DisplayLine(o, ds, k);
      DisplayIsFixed(Merged(o, ds).lines[k], ps);
    }
    hide Merged, FinalLine, AllKeyed, Unmatched, Matched, Matches, DisplayData, NothingNewFound, DisplaysUnkeyed, ProductData;
  }

  /** Two merged lines found by one dictionary contradict that nothing new is found. */
  lemma {:induction false} FoundOnce(o: Order, ds: seq<Vals>, i: nat, k: nat, h: nat)
    requires AllKeyed(ProductData(ds)) && DisplaysUnkeyed(o.lines, ds)
    requires NothingNewFound(o.lines, ProductData(ds)) && MatchedOnce(o.lines, ProductData(ds))
    requires i < |ProductData(ds)| && ProductData(ds)[i].price.Some?
    requires k < |Merged(o, ds).lines| && Matched(Merged(o, ds).lines[k], ProductData(ds)[i])
    requires h < |Merged(o, ds).lines|
    requires Matches(o.lines, ProductData(ds)[i]) != [] ==> h < |o.lines| && Matched(o.lines[h], ProductData(ds)[i])
    requires Matches(o.lines, ProductData(ds)[i]) == [] ==> h == |o.lines| + |Unmatched(o.lines, ProductData(ds)[..i])|
    ensures k == h
  {
    var ps, n := ProductData(ds), |o.lines|;
    if k < n {
      MergedLine(o, ds, k);
      OldFoundOnce(o.lines, ps, i, k, h);
    } else {
      hide Merged, FinalLine, Matched, Matches, NothingNewFound, MatchedOnce, DisplaysUnkeyed, AllKeyed, ProductData;
      AddedFoundOnce(o, ds, i, k);
    }
  }

  lemma {:induction false} SecondAccepted(o: Order, ds: seq<Vals>)
    requires MergeCommands(o.lines, ds).Commands?
    requires AllKeyed(ProductData(ds)) && NamesKept(o.lines, ProductData(ds)) && DisplaysUnkeyed(o.lines, ds)
    requires NothingNewFound(o.lines, ProductData(ds))
    ensures MergeCommands(Merged(o, ds).lines, ds).Commands?
  {
    var ps, merged := ProductData(ds), Merged(o, ds).lines;
    MergeRaisesIff(o.lines, ps);
    forall i | 0 <= i < |ps| && ps[i].price.Some? ensures |Matches(merged, ps[i])| <= 1 {
      var h := Home(o, ds, i);
      forall j, k | 0 <= j < k < |merged| ensures !(Matched(merged[j], ps[i]) && Matched(merged[k], ps[i])) {
        if Matched(merged[j], ps[i]) && Matched(merged[k], ps[i]) {
          FoundOnce(o, ds, i, j, h);
          FoundOnce(o, ds, i, k, h);
        }
      }
      AtMostOneMatch(merged, ps[i]);
    }
    MergeRaisesIff(merged, ps);
  }

  /** A line newly found is found beside the dictionary's own: the second merge raises. */
  lemma {:induction false} SecondRaises(o: Order, ds: seq<Vals>)
    requires AllKeyed(ProductData(ds)) && NamesKept(o.lines, ProductData(ds))
    requires !NothingNewFound(o.lines, ProductData(ds))
    ensures MergeCommands(Merged(o, ds).lines, ds).NotSingleton?
  {
    var ps, merged := ProductData(ds), Merged(o, ds).lines;
    if i, j :| 0 <= i < |ps| && 0 <= j < |ps| && i != j && ps[i].price.Some? && Matches(o.lines, ps[j]) == []
               && Matched(NewLine(0, ps[j]), ps[i]) {
      var at := UnmatchedAt(o.lines, ps, j);
      var k := |o.lines| + at;
      var h := Home(o, ds, i);
      MergedLine(o, ds, k);
      SameMatched(merged[k], NewLine(0, ps[j]), ps[i]);
      if Matches(o.lines, ps[i]) == [] {
        DifferentPlaces(o.lines, ps, i, j);
      }
      TwiceFound(merged, ps, i, k, h);
    } else {
      var i, k :| 0 <= i < |ps| && 0 <= k < |o.lines| && ps[i].price.Some? && !Matched(o.lines[k], ps[i])
                  && Matched(FinalLine(o.lines[k], ps), ps[i]);
      var h := Home(o, ds, i);
      MergedLine(o, ds, k);
      TwiceFound(merged, ps, i, k, h);
    }
  }

  lemma {:induction false} DifferentPlaces(lines: seq<Line>, ps: seq<ProductVals>, i: nat, j: nat)
    requires i < |ps| && j < |ps| && i != j && Matches(lines, ps[i]) == [] && Matches(lines, ps[j]) == []
    ensures |Unmatched(lines, ps[..i])| != |Unmatched(lines, ps[..j])|
  {
    if i < j {
      MoreUnmatched(lines, ps, i, j);
    } else {
      MoreUnmatched(lines, ps, j, i);
    }
  }

  lemma {:induction false} MoreUnmatched(lines: seq<Line>, ps: seq<ProductVals>, i: nat, j: nat)
    requires i < j <= |ps| && Matches(lines, ps[i]) == []
    ensures |Unmatched(lines, ps[..i])| < |Unmatched(lines, ps[..j])|
    decreases i
  {
    assert ps[..j][0] == ps[0] && ps[..j][1..] == ps[1..][..j - 1];
    if i == 0 {
      assert ps[..0] == [];
    } else {
      assert ps[..i][0] == ps[0] && ps[..i][1..] == ps[1..][..i - 1];
      MoreUnmatched(lines, ps[1..], i - 1, j - 1);
    }
  }

  lemma {:induction false} TwiceFound(lines: seq<Line>, ps: seq<ProductVals>, i: nat, k: nat, h: nat)
    requires i < |ps| && ps[i].price.Some? && k < |lines| && h < |lines| && k != h
    requires Matched(lines[k], ps[i]) && Matched(lines[h], ps[i])
    ensures DataCommands(lines, ps).NotSingleton?
  {
    AtMostOneMatch(lines, ps[i]);
    MergeRaisesIff(lines, ps);
  }

  lemma {:induction false} UnmatchedEmpty(lines: seq<Line>, ps: seq<ProductVals>)
    requires forall i :: 0 <= i < |ps| ==> Matches(lines, ps[i]) != []
    ensures Unmatched(lines, ps) == []
  {
    if ps != [] {
      UnmatchedEmpty(lines, ps[1..]);
    }
  }

  lemma {:induction false} DisplayIndex(lines: seq<Line>, ds: seq<Vals>, i: nat) returns (j: nat)
    requires i < |ds| && NewDisplay(lines, ds[i])
    ensures j < |DisplayData(lines, ds)| && DisplayData(lines, ds)[j] == ds[i]
  {
    if i == 0 {
      j := 0;
    } else {
      j := DisplayIndex(lines, ds[1..], i - 1);
      j := if NewDisplay(lines, ds[0]) then j + 1 else j;
    }
  }

  lemma {:induction false} DisplayDataEmpty(lines: seq<Line>, ds: seq<Vals>)
    requires forall i :: 0 <= i < |ds| ==> !NewDisplay(lines, ds[i])
    ensures DisplayData(lines, ds) == []
  {
    if ds != [] {
      DisplayDataEmpty(lines, ds[1..]);
    }
  }

  lemma {:induction false} Shown(lines: seq<Line>, k: nat, d: Vals)
    requires k < |lines| && lines[k].product == 0 && lines[k].name == d.name
    ensures !NewDisplay(lines, d)
  {
    assert lines[k] in lines;
  }

  /** Every section and note of the data is shown after the merge. */
  lemma {:induction false} MergedShowsDisplay(o: Order, ds: seq<Vals>, i: nat)
    requires AllKeyed(ProductData(ds)) && DisplaysUnkeyed(o.lines, ds) && i < |ds|
    ensures !NewDisplay(Merged(o, ds).lines, ds[i])
  {
    if ds[i].product.None? {
      if NewDisplay(o.lines, ds[i]) {
        var j := DisplayIndex(o.lines, ds, i);
        var k := |o.lines| + |Unmatched(o.lines, ProductData(ds))| + j;
        MergedLine(o, ds, k);
        Shown(Merged(o, ds).lines, k, ds[i]);
      } else {
        var k :| 0 <= k < |o.lines| && o.lines[k].product == 0 && o.lines[k].name == ds[i].name;
        DisplayIsFixed(o.lines[k], ProductData(ds));
        MergedLine(o, ds, k);
        Shown(Merged(o, ds).lines, k, ds[i]);
      }
    }
  }

  lemma {:induction false} MergedLineFixed(o: Order, ds: seq<Vals>, k: nat)
    requires AllKeyed(ProductData(ds)) && NamesKept(o.lines, ProductData(ds)) && DisplaysUnkeyed(o.lines, ds)
    requires NothingNewFound(o.lines, ProductData(ds)) && k < |Merged(o, ds).lines|
    ensures FinalLine(Merged(o, ds).lines[k], ProductData(ds)) == Merged(o, ds).lines[k]
  {
    var ps, n := ProductData(ds), |o.lines|;
    MergedLine(o, ds, k);
    hide Merged, FinalLine, AllKeyed, NamesKept, NothingNewFound, Unmatched;
    if k < n {
      FinalIsFixed(o.lines, k, ps);
    } else if k < n + |Unmatched(o.lines, ps)| {
      var j := UnmatchedFrom(o.lines, ps, k - n);
      CreatedIsFixed(o.nextId + (k - n), o.lines, ps, j);
    } else {
      DisplayLine(o, ds, k);
      DisplayIsFixed(Merged(o, ds).lines[k], ps);
    }
  }

  lemma {:induction false} MergedFixed(o: Order, ds: seq<Vals>)
    requires AllKeyed(ProductData(ds)) && NamesKept(o.lines, ProductData(ds)) && DisplaysUnkeyed(o.lines, ds)
    requires NothingNewFound(o.lines, ProductData(ds))
    ensures FinalLines(Merged(o, ds).lines, ProductData(ds)) == Merged(o, ds).lines
  {
    var merged := Merged(o, ds).lines;
    forall k | 0 <= k < |merged| ensures FinalLine(merged[k], ProductData(ds)) == merged[k] {
      MergedLineFixed(o, ds, k);
    }
  }

  lemma {:induction false} SecondMergeIsSame(o: Order, ds: seq<Vals>)
    requires AllKeyed(ProductData(ds)) && NamesKept(o.lines, ProductData(ds)) && DisplaysUnkeyed(o.lines, ds)
    requires NothingNewFound(o.lines, ProductData(ds))
    ensures Merged(Merged(o, ds), ds) == Merged(o, ds)
    ensures DisplayData(Merged(o, ds).lines, ds) == []
    ensures forall i :: 0 <= i < |ProductData(ds)| ==> Matches(Merged(o, ds).lines, ProductData(ds)[i]) != []
  {
    var o1, ps := Merged(o, ds), ProductData(ds);
    forall i | 0 <= i < |ps| ensures Matches(o1.lines, ps[i]) != [] {
      var k := Home(o, ds, i);
      NoMatch(o1.lines, ps[i]);
    }
    UnmatchedEmpty(o1.lines, ps);
    forall i | 0 <= i < |ds| ensures !NewDisplay(o1.lines, ds[i]) {
      MergedShowsDisplay(o, ds, i);
    }
    DisplayDataEmpty(o1.lines, ds);
    MergedFixed(o, ds);
    assert o1.lines + [] == o1.lines;
  }

  lemma {:induction false} MergedAt(o: Order, ds: seq<Vals>, k: nat)
    requires WellFormed(o) && AllKeyed(ProductData(ds)) && DisplaysUnkeyed(o.lines, ds) && k < |Merged(o, ds).lines|
    ensures Merged(o, ds).lines[k].id == if k < |o.lines| then o.lines[k].id else o.nextId + (k - |o.lines|)
    ensures Merged(o, ds).lines[k].product == 0 ==> Merged(o, ds).lines[k].price == 0.0
  {
    var n, ps := |o.lines|, ProductData(ds);
    MergedLine(o, ds, k);
    if k < n {
      RewrittenId(o.lines[k], WritersOf(o.lines[k], ps));
      if o.lines[k].product == 0 {
        DisplayIsFixed(o.lines[k], ps);
      }
    } else if k < n + |Unmatched(o.lines, ps)| {
      var j := UnmatchedFrom(o.lines, ps, k - n);
      assert Keyed(ps[j]);
    } else {
      DisplayLine(o, ds, k);
    }
  }

  lemma {:induction false} MergedWellFormed(o: Order, ds: seq<Vals>)
    requires WellFormed(o) && AllKeyed(ProductData(ds)) && DisplaysUnkeyed(o.lines, ds)
    ensures WellFormed(Merged(o, ds))
  {
    var m, n := Merged(o, ds), |o.lines|;
    assert |m.lines| >= n && m.nextId == o.nextId + (|m.lines| - n);
    forall k | 0 <= k < |m.lines|
      ensures m.lines[k].id == if k < n then o.lines[k].id else o.nextId + (k - n)
      ensures m.lines[k].product == 0 ==> m.lines[k].price == 0.0
    {
      MergedAt(o, ds, k);
    }
    hide Merged, AllKeyed, DisplaysUnkeyed;
  }

  lemma {:induction false} NoCreates(lines: seq<Line>, ps: seq<ProductVals>)
    requires forall i :: 0 <= i < |ps| ==> Matches(lines, ps[i]) != []
    ensures DataCommands(lines, ps).Commands? ==> forall c :: c in DataCommands(lines, ps).cmds ==> !c.Create?
  {
    if ps != [] {
      NoCreates(lines, ps[1..]);
    }
  }

  lemma {:induction false} RemovedNoCreates(lines: seq<Line>, ps: seq<ProductVals>)
    ensures forall c :: c in RemovedCommands(lines, ps) ==> !c.Create?
  {
    if lines != [] {
      RemovedNoCreates(lines[1..], ps);
    }
  }

  // ------------------------------------------------------------------ main results

  /** After a merge that was accepted, the same data is accepted once more exactly when no dictionary finds
      a line created or renamed for another one; and then it changes no line and holds no create command. */
  lemma {:induction false} MergeTwice(o: Order, ds: seq<Vals>)
    requires WellFormed(o) && MergeCommands(o.lines, ds).Commands?
    requires AllKeyed(ProductData(ds)) && NamesKept(o.lines, ProductData(ds)) && DisplaysUnkeyed(o.lines, ds)
    ensures var o1 := Apply(o, MergeCommands(o.lines, ds).cmds);
            && (MergeCommands(o1.lines, ds).Commands? <==> NothingNewFound(o.lines, ProductData(ds)))
            && (MergeCommands(o1.lines, ds).Commands? ==>
                  && Apply(o1, MergeCommands(o1.lines, ds).cmds) == o1
                  && forall c :: c in MergeCommands(o1.lines, ds).cmds ==> !c.Create?)
  {
    var ps, o1 := ProductData(ds), Merged(o, ds);
    MergeAppliesToMerged(o, ds);
    if NothingNewFound(o.lines, ps) {
      SecondAccepted(o, ds);
      MergedWellFormed(o, ds);
      MergeAppliesToMerged(o1, ds);
      SecondMergeIsSame(o, ds);
      NoCreates(o1.lines, ps);
      RemovedNoCreates(o1.lines, ps);
    } else {
      SecondRaises(o, ds);
    }
  }

  /** A product line with neither store id nor fee flag is created again by every merge. */
  lemma {:induction false} UnkeyedIsCreatedAgain(lines: seq<Line>, ds: seq<Vals>, i: nat)
    requires i < |ProductData(ds)|
    requires ProductData(ds)[i].storeId == "" && !IsNonProduct(ProductData(ds)[i])
    requires MergeCommands(lines, ds).Commands?
    ensures Create(ProductData(ds)[i]) in MergeCommands(lines, ds).cmds
  {
    NoMatch(lines, ProductData(ds)[i]);
    CreateIn(lines, ProductData(ds), i);
  }

  lemma {:induction false} CreateIn(lines: seq<Line>, ps: seq<ProductVals>, i: nat)
    requires i < |ps| && Matches(lines, ps[i]) == [] && DataCommands(lines, ps).Commands?
    ensures Create(ps[i]) in DataCommands(lines, ps).cmds
  {
    if i > 0 {
      CreateIn(lines, ps[1..], i - 1);
    }
  }

  // ------------------------------------------------------------------ inputs on which the update fails

  function DiscountVals(product: nat, amount: real): ProductVals
  {
    Vals(Some(product), "", "Discounts", None, Some(-amount), map[Discount := true])
  }

  function CouponVals(product: nat, code: string, amount: real): ProductVals
  {
    Vals(Some(product), "", code, None, Some(-amount), map[Coupon := true])
  }

  lemma {:induction false} OnlyLineMatched(l: Line, d: ProductVals)
    ensures Matches([l], d) == if Matched(l, d) then [l] else []
  {
    assert [l][1..] == [] && Matches([], d) == [];
  }

  lemma {:induction false} BothMatch(a: Line, b: Line, d: ProductVals)
    requires Matched(a, d) && Matched(b, d)
    ensures |Matches([a, b], d)| == 2
  {
    assert [a, b][1..] == [b];
    OnlyLineMatched(b, d);
  }

  lemma {:induction false} TwoProducts(a: ProductVals, b: ProductVals)
    ensures ProductData([a, b]) == [a, b] && ProductData([a]) == [a]
  {
    assert [a, b][1..] == [b] && [b][1..] == [] && [a][1..] == [];
    assert ProductData([]) == [] && ProductData([b]) == [b];
  }

  lemma {:induction false} ReplacedByTwo(a: ProductVals, b: ProductVals)
    ensures Replaced(Order([], 0), [a, b]).lines == [NewLine(0, a), NewLine(1, b)]
  {
    ApplyAppend(Order([], 0), [Clear], Creates([a, b]));
    ApplySingle(Order([], 0), Clear);
    ApplyCreates(Order([], 0), [a, b]);
    assert [a, b][1..] == [b] && [b][1..] == [];
    assert NewLines(1, [b]) == [NewLine(1, b)];
  }

  /** Discounts and coupons share the channel's default discount product, so once an order holds
      a discount line and a coupon line every further merge with a discount raises. */
  lemma {:induction false} DiscountBesideCouponRaises(product: nat, code: string, amount: real, coupon: real)
    requires product != 0
    ensures var ds := [DiscountVals(product, amount), CouponVals(product, code, coupon)];
            var o1 := Replaced(Order([], 0), ds);
            MergeCommands(o1.lines, ds).NotSingleton?
  {
    var d, c := DiscountVals(product, amount), CouponVals(product, code, coupon);
    ReplacedByTwo(d, c);
    TwoProducts(d, c);
    assert d.flags[Discount];
    BothMatch(NewLine(0, d), NewLine(1, c), d);
    MergeRaisesIff([NewLine(0, d), NewLine(1, c)], [d, c]);
    assert [d, c][0] == d;
  }

  /** A discount of 5.00 dropped by one update and back in the next: its line still stands at
      quantity 0, so the merged order asks 5.00 more than the replaced one. */
  lemma {:induction false} RevivedDiscountIsLost(product: nat)
    requires product != 0
    ensures var d := DiscountVals(product, 5.0);
            var o := Order([NewLine(0, d).(qty := 0.0)], 1);
            && MergeCommands(o.lines, [d]).Commands?
            && AmountTotal(Apply(o, MergeCommands(o.lines, [d]).cmds).lines) == AmountTotal(Replaced(o, [d]).lines) + 500
  {
    var d := DiscountVals(product, 5.0);
    var l := NewLine(0, d).(qty := 0.0);
    assert d.flags[Discount];
    TwoProducts(d, d);
    OnlyLineMatched(l, d);
    MergeRaisesIff([l], [d]);
    OnlyWriter(l, [d], 0);
    WritersGap(l, [d]);
    MergeTotalVersusReplace(Order([l], 1), [d]);
    assert SumNew([]) == 0 && LastQty([d][..0]) == None;
  }

  /** The gaps of a single line. */
  lemma {:induction false} WritersGap(l: Line, ps: seq<ProductVals>)
    requires WritersOf(l, ps) != []
    ensures SumGaps([l], ps) == WonAmount(WritersOf(l, ps), l.qty) - SumNew(WritersOf(l, ps))
  {
    LineGapIs(l, ps);
    assert [l][1..] == [] && SumGaps([], ps) == 0;
  }

  lemma {:induction false} TwoWriters(l: Line, a: ProductVals, b: ProductVals)
    requires Matched(l, a) && Matched(l, b) && a.price.Some? && b.price.Some?
    ensures WritersOf(l, [a, b]) == [a, b]
  {
    assert [a, b][1..] == [b] && [b][1..] == [] && WritersOf(l, []) == [];
    assert WritersOf(l, [b]) == [b];
  }

  lemma {:induction false} AcceptedOnOneLine(l: Line, ps: seq<ProductVals>)
    ensures DataCommands([l], ps).Commands?
  {
    forall i | 0 <= i < |ps| ensures |Matches([l], ps[i])| <= 1 {
      OnlyLineMatched(l, ps[i]);
    }
    MergeRaisesIff([l], ps);
  }

  /** A discount that arrives on an order holding only the line of coupon "X" is written to that
      line, and so is the coupon: the last write wins and the discount is lost. */
  lemma {:induction false} SharedLineLosesDiscount(product: nat)
    requires product != 0
    ensures var d, c := DiscountVals(product, 5.0), CouponVals(product, "X", 5.0);
            var o := Order([NewLine(0, c)], 1);
            && MergeCommands(o.lines, [d, c]).Commands?
            && AmountTotal(Apply(o, MergeCommands(o.lines, [d, c]).cmds).lines) == AmountTotal(Replaced(o, [d, c]).lines) + 500
  {
    var d, c := DiscountVals(product, 5.0), CouponVals(product, "X", 5.0);
    var l := NewLine(0, c);
    assert d.flags[Discount] && c.flags[Coupon];
    TwoProducts(d, c);
    AcceptedOnOneLine(l, [d, c]);
    TwoWriters(l, d, c);
    WritersGap(l, [d, c]);
    MergeTotalVersusReplace(Order([l], 1), [d, c]);
    TwoAmounts(d, c);
  }

  lemma {:induction false} TwoAmounts(d: ProductVals, c: ProductVals)
    requires d.qty == c.qty == None
    ensures SumNew([d, c]) == NewAmount(d) + NewAmount(c) && WonAmount([d, c], 1.0) == NewAmount(c)
  {
    assert [d, c][1..] == [c] && [c][1..] == [] && SumNew([]) == 0;
    NoQuantity([d, c]);
  }
}
