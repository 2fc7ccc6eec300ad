/** Scanning items into a wave, in hundredths: the quantity is spread over the lines of the product at
    the location. */
module WaveScan {
  import opened Options
  import opened Sequences

  datatype MoveLine = MoveLine(id: nat, product: nat, location: nat, demand: nat, done: int)

  datatype Report = Report(demand: int, done: int)

  function IdOf(l: MoveLine): int { l.id }
  function DemandOf(l: MoveLine): int { l.demand }
  function DoneOf(l: MoveLine): int { l.done }
  function RemainingOf(l: MoveLine): int { if l.demand > l.done then l.demand - l.done else 0 }
  function Min(a: int, b: int): int { if a < b then a else b }
  function Max(a: int, b: int): int { if a < b then b else a }

  function Here(lines: seq<MoveLine>, product: nat, location: nat): seq<MoveLine> {
    if lines == [] then []
    else if lines[0].product == product && lines[0].location == location
    then [lines[0]] + Here(lines[1..], product, location)
    else Here(lines[1..], product, location)
  }

  /** The lines of a product at a location, lowest id first. */
  function Selected(lines: seq<MoveLine>, product: nat, location: nat): seq<MoveLine> {
    SortBy(Here(lines, product, location), IdOf)
  }

  // ------------------------------------------------------------------ what a scan does to the selected lines

  /** What a scan up leaves to add after a line, and what it makes of the line. */
  function UpLeft(l: MoveLine, q: int): int {
    if l.demand <= l.done then q else q - Min(q, l.demand - l.done)
  }

  function UpLine(l: MoveLine, q: int): MoveLine {
    if l.demand <= l.done then l else l.(done := Min(q, l.demand - l.done) + l.done)
  }

  /** Scan up: fill open lines one after the other until nothing is left. */
  function Raised(s: seq<MoveLine>, q: int): seq<MoveLine> {
    if s == [] || q == 0 then s else [UpLine(s[0], q)] + Raised(s[1..], UpLeft(s[0], q))
  }

  /** What a scan down leaves to take away after a line, and what it leaves of the line. */
  function DownLeft(l: MoveLine, q: int): int {
    if l.done == 0 then q else if l.done + q < 0 then q + l.done else 0
  }

  function DownLine(l: MoveLine, q: int): MoveLine {
    if l.done == 0 then l else if l.done + q < 0 then l.(done := 0) else l.(done := l.done + q)
  }

  /** Scan down (q <= 0): empty lines from the last one on. */
  function Lowered(s: seq<MoveLine>, q: int): seq<MoveLine> {
    if s == [] || q == 0 then s
    else
      var l, before := s[|s| - 1], s[..|s| - 1];
      Lowered(before, DownLeft(l, q)) + [DownLine(l, q)]
  }

  function Scanned(s: seq<MoveLine>, q: int): seq<MoveLine> {
    if q > 0 then Raised(s, q) else Lowered(s, q)
  }

  // ------------------------------------------------------------------ writing done quantities by line id

  function Patch(l: MoveLine, m: map<nat, int>): MoveLine {
    if l.id in m then l.(done := m[l.id]) else l
  }

  function PatchAll(ls: seq<MoveLine>, m: map<nat, int>): (r: seq<MoveLine>)
    ensures |r| == |ls|
    ensures forall i :: 0 <= i < |ls| ==> r[i] == Patch(ls[i], m)
  {
    seq(|ls|, i requires 0 <= i < |ls| => Patch(ls[i], m))
  }

  lemma {:induction false} PatchInsert(x: MoveLine, ys: seq<MoveLine>, m: map<nat, int>)
    ensures PatchAll(InsertBy(x, ys, IdOf), m) == InsertBy(Patch(x, m), PatchAll(ys, m), IdOf)
  {
    if ys == [] || IdOf(x) <= IdOf(ys[0]) {
      assert PatchAll([x] + ys, m) == [Patch(x, m)] + PatchAll(ys, m);
    } else {
      PatchInsert(x, ys[1..], m);
      assert PatchAll([ys[0]] + InsertBy(x, ys[1..], IdOf), m) ==
             [Patch(ys[0], m)] + PatchAll(InsertBy(x, ys[1..], IdOf), m);
      assert PatchAll(ys, m)[1..] == PatchAll(ys[1..], m);
    }
  }

  lemma {:induction false} PatchSort(ls: seq<MoveLine>, m: map<nat, int>)
    ensures PatchAll(SortBy(ls, IdOf), m) == SortBy(PatchAll(ls, m), IdOf)
  {
    if ls != [] {
      PatchSort(ls[1..], m);
      PatchInsert(ls[0], SortBy(ls[1..], IdOf), m);
      assert PatchAll(ls, m)[1..] == PatchAll(ls[1..], m);
    }
  }

  lemma {:induction false} PatchSelected(ls: seq<MoveLine>, m: map<nat, int>, product: nat, location: nat)
    ensures Selected(PatchAll(ls, m), product, location) == PatchAll(Selected(ls, product, location), m)
  {
    PatchHere(ls, m, product, location);
    PatchSort(Here(ls, product, location), m);
  }

  lemma {:induction false} PatchHere(ls: seq<MoveLine>, m: map<nat, int>, product: nat, location: nat)
    ensures Here(PatchAll(ls, m), product, location) == PatchAll(Here(ls, product, location), m)
  {
    if ls != [] {
      PatchHere(ls[1..], m, product, location);
      assert PatchAll(ls, m)[1..] == PatchAll(ls[1..], m);
    }
  }

  ghost predicate DistinctIds(ls: seq<MoveLine>) {
    forall i, j :: 0 <= i < j < |ls| ==> ls[i].id != ls[j].id
  }

  lemma {:induction false} HereMembers(ls: seq<MoveLine>, product: nat, location: nat)
    ensures forall l :: l in Here(ls, product, location) <==>
                        l in ls && l.product == product && l.location == location
    ensures DistinctIds(ls) ==> DistinctIds(Here(ls, product, location))
  {
    if ls != [] {
      HereMembers(ls[1..], product, location);
      assert forall l :: l in ls <==> l == ls[0] || l in ls[1..];
      if DistinctIds(ls) {
        assert forall i, j :: 0 <= i < j < |ls[1..]| ==> ls[1..][i] == ls[i + 1] && ls[1..][j] == ls[j + 1];
        forall l | l in Here(ls[1..], product, location) ensures l.id != ls[0].id {
          assert l in ls[1..];
        }
      }
    }
  }

  lemma {:induction false} InsertDistinct(x: MoveLine, ys: seq<MoveLine>)
    requires DistinctIds(ys) && forall i :: 0 <= i < |ys| ==> ys[i].id != x.id
    ensures DistinctIds(InsertBy(x, ys, IdOf))
    ensures forall l :: l in InsertBy(x, ys, IdOf) <==> l == x || l in ys
  {
    if ys == [] || IdOf(x) <= IdOf(ys[0]) {
    } else {
      InsertDistinct(x, ys[1..]);
      var tail := InsertBy(x, ys[1..], IdOf);
      forall i | 0 <= i < |tail| ensures tail[i].id != ys[0].id {
        assert tail[i] in tail;
        if tail[i] != x {
          var k :| 0 <= k < |ys[1..]| && ys[1..][k] == tail[i];
          assert ys[k + 1] == tail[i];
        }
      }
    }
  }

  lemma {:induction false} SortDistinct(ls: seq<MoveLine>)
    requires DistinctIds(ls)
    ensures DistinctIds(SortBy(ls, IdOf))
  {
    if ls != [] {
      SortDistinct(ls[1..]);
      SortBySorted(ls[1..], IdOf);
      var rest := SortBy(ls[1..], IdOf);
      forall i | 0 <= i < |rest| ensures rest[i].id != ls[0].id {
        assert rest[i] in rest;
        var k :| 0 <= k < |ls[1..]| && ls[1..][k] == rest[i];
        assert ls[k + 1] == rest[i];
      }
      InsertDistinct(ls[0], rest);
    }
  }

  /** The write of one line, by id. */
  function SetDone(ls: seq<MoveLine>, id: nat, done: int): seq<MoveLine> {
    seq(|ls|, i requires 0 <= i < |ls| => if ls[i].id == id then ls[i].(done := done) else ls[i])
  }

  lemma {:induction false} SetDonePatches(base: seq<MoveLine>, m: map<nat, int>, id: nat, done: int)
    ensures SetDone(PatchAll(base, m), id, done) == PatchAll(base, m[id := done])
  {
  }

  ghost predicate HasId(s: seq<MoveLine>, id: nat) {
    exists i :: 0 <= i < |s| && s[i].id == id
  }

  ghost predicate OnlyIdsOf(m: map<nat, int>, s: seq<MoveLine>) {
    forall id :: id in m ==> HasId(s, id)
  }

  lemma {:induction false} NothingPatched(ls: seq<MoveLine>, m: map<nat, int>)
    requires m == map[]
    ensures PatchAll(ls, m) == ls
  {
  }

  lemma {:induction false} HasIdMonotone(s: seq<MoveLine>, t: seq<MoveLine>, m: map<nat, int>)
    requires OnlyIdsOf(m, s) && forall l :: l in s ==> l in t
    ensures OnlyIdsOf(m, t)
  {
    forall id | id in m ensures HasId(t, id) {
      var i :| 0 <= i < |s| && s[i].id == id;
      assert s[i] in t;
    }
  }

  lemma {:induction false} PatchAppend(a: seq<MoveLine>, b: seq<MoveLine>, m: map<nat, int>)
    ensures PatchAll(a + b, m) == PatchAll(a, m) + PatchAll(b, m)
  {
  }

  lemma {:induction false} PatchOther(s: seq<MoveLine>, m: map<nat, int>, id: nat, done: int)
    requires forall i :: 0 <= i < |s| ==> s[i].id != id
    ensures PatchAll(s, m[id := done]) == PatchAll(s, m)
  {
  }

  /** One more line is written to, or is left alone. */
  lemma {:induction false} OneMoreId(s: seq<MoveLine>, t: seq<MoveLine>, l: MoveLine, m: map<nat, int>, done: int)
    requires OnlyIdsOf(m, s) && (forall x :: x in s ==> x in t) && l in t
    ensures OnlyIdsOf(m[l.id := done], t) && OnlyIdsOf(m, t)
  {
    HasIdMonotone(s, t, m);
    var i :| 0 <= i < |t| && t[i] == l;
    assert t[i].id == l.id;
  }

  lemma {:induction false} PatchNext(s: seq<MoveLine>, k: nat, m: map<nat, int>, done: int)
    requires DistinctIds(s) && k < |s| && OnlyIdsOf(m, s[..k])
    ensures PatchAll(s[..k + 1], m[s[k].id := done]) == PatchAll(s[..k], m) + [s[k].(done := done)]
    ensures OnlyIdsOf(m[s[k].id := done], s[..k + 1])
  {
    assert s[..k + 1] == s[..k] + [s[k]];
    PatchAppend(s[..k], [s[k]], m[s[k].id := done]);
    PatchOther(s[..k], m, s[k].id, done);
    OneMoreId(s[..k], s[..k + 1], s[k], m, done);
  }

  lemma {:induction false} PatchNotNext(s: seq<MoveLine>, k: nat, m: map<nat, int>)
    requires DistinctIds(s) && k < |s| && OnlyIdsOf(m, s[..k])
    ensures PatchAll(s[..k + 1], m) == PatchAll(s[..k], m) + [s[k]]
    ensures OnlyIdsOf(m, s[..k + 1])
  {
    assert s[..k + 1] == s[..k] + [s[k]];
    PatchAppend(s[..k], [s[k]], m);
    OneMoreId(s[..k], s[..k + 1], s[k], m, 0);
    assert s[k].id !in m;
  }

  lemma {:induction false} PatchRest(s: seq<MoveLine>, k: nat, m: map<nat, int>)
    requires DistinctIds(s) && k <= |s| && OnlyIdsOf(m, s[..k])
    ensures PatchAll(s, m) == PatchAll(s[..k], m) + s[k..] && OnlyIdsOf(m, s)
  {
    HasIdMonotone(s[..k], s, m);
    assert forall j :: k <= j < |s| ==> s[j].id !in m;
  }

  lemma {:induction false} TailOthers(s: seq<MoveLine>, k: nat)
    requires DistinctIds(s) && 0 < k <= |s|
    ensures s[k - 1..] == [s[k - 1]] + s[k..] && s[k - 1] in s[k - 1..]
    ensures forall i :: 0 <= i < |s[k..]| ==> s[k..][i].id != s[k - 1].id
    ensures forall x :: x in s[k..] ==> x in s[k - 1..]
  {
    assert s[k - 1..] == [s[k - 1]] + s[k..];
  }

  lemma {:induction false} PatchOne(l: MoveLine, m: map<nat, int>)
    ensures PatchAll([l], m) == [if l.id in m then l.(done := m[l.id]) else l]
  {
  }

  lemma {:induction false} PatchPrevious(s: seq<MoveLine>, k: nat, m: map<nat, int>, done: int)
    requires DistinctIds(s) && 0 < k <= |s| && OnlyIdsOf(m, s[k..])
    ensures PatchAll(s[k - 1..], m[s[k - 1].id := done]) == [s[k - 1].(done := done)] + PatchAll(s[k..], m)
    ensures OnlyIdsOf(m[s[k - 1].id := done], s[k - 1..])
  {
    TailOthers(s, k);
    hide PatchAll, DistinctIds, OnlyIdsOf;
    PatchAppend([s[k - 1]], s[k..], m[s[k - 1].id := done]);
    PatchOne(s[k - 1], m[s[k - 1].id := done]);
    PatchOther(s[k..], m, s[k - 1].id, done);
    OneMoreId(s[k..], s[k - 1..], s[k - 1], m, done);
  }

  lemma {:induction false} PatchNotPrevious(s: seq<MoveLine>, k: nat, m: map<nat, int>)
    requires DistinctIds(s) && 0 < k <= |s| && OnlyIdsOf(m, s[k..])
    ensures PatchAll(s[k - 1..], m) == [s[k - 1]] + PatchAll(s[k..], m)
    ensures OnlyIdsOf(m, s[k - 1..])
  {
    assert s[k - 1..] == [s[k - 1]] + s[k..];
    PatchAppend([s[k - 1]], s[k..], m);
    OneMoreId(s[k..], s[k - 1..], s[k - 1], m, 0);
    assert s[k - 1].id !in m;
  }

  lemma {:induction false} PatchStart(s: seq<MoveLine>, k: nat, m: map<nat, int>)
    requires DistinctIds(s) && k <= |s| && OnlyIdsOf(m, s[k..])
    ensures PatchAll(s, m) == s[..k] + PatchAll(s[k..], m) && OnlyIdsOf(m, s)
  {
    HasIdMonotone(s[k..], s, m);
    assert forall j :: 0 <= j < k ==> s[j].id !in m;
  }

  /** One line of the loop up: the scan of s is what is written so far, then the scan of the rest. */
  lemma {:induction false} RaisedStep(s: seq<MoveLine>, k: nat, q: int, m: map<nat, int>, all: seq<MoveLine>)
    returns (m': map<nat, int>, q': int)
    requires DistinctIds(s) && k < |s| && OnlyIdsOf(m, s[..k])
    requires all == PatchAll(s[..k], m) + Raised(s[k..], q)
    requires s[k].demand <= s[k].done || q != 0
    ensures m' == if s[k].demand <= s[k].done then m else m[s[k].id := UpLine(s[k], q).done]
    ensures q' == UpLeft(s[k], q)
    ensures OnlyIdsOf(m', s[..k + 1]) && all == PatchAll(s[..k + 1], m') + Raised(s[k + 1..], q')
  {
    var l := s[k];
    q' := UpLeft(l, q);
    RaisedFirst(s, k, q);
    if l.demand <= l.done {
      m' := m;
      PatchNotNext(s, k, m);
    } else {
      m' := m[l.id := UpLine(l, q).done];
      PatchNext(s, k, m, UpLine(l, q).done);
    }
    Regroup(PatchAll(s[..k], m), [UpLine(l, q)], Raised(s[k + 1..], q'));
  }

  lemma {:induction false} RaisedStarts(s: seq<MoveLine>, q: int)
    ensures Raised(s, q) == PatchAll(s[..0], map[]) + Raised(s[0..], q) && OnlyIdsOf(map[], s[..0])
  {
    assert s[0..] == s && s[..0] == [];
  }

  lemma {:induction false} RaisedEnds(s: seq<MoveLine>, k: nat, q: int, m: map<nat, int>, all: seq<MoveLine>)
    requires DistinctIds(s) && k <= |s| && OnlyIdsOf(m, s[..k])
    requires all == PatchAll(s[..k], m) + Raised(s[k..], q) && (k == |s| || q == 0)
    ensures PatchAll(s, m) == all && OnlyIdsOf(m, s)
  {
    PatchRest(s, k, m);
    NothingLeft(s[k..], q);
  }

  lemma {:induction false} RaisedFirst(s: seq<MoveLine>, k: nat, q: int)
    requires k < |s| && (s[k].demand <= s[k].done || q != 0)
    ensures Raised(s[k..], q) == [UpLine(s[k], q)] + Raised(s[k + 1..], UpLeft(s[k], q))
  {
    assert s[k..][1..] == s[k + 1..] && s[k..][0] == s[k];
    assert s[k..] == [s[k]] + s[k + 1..];
  }

  lemma {:induction false} LoweredStep(s: seq<MoveLine>, k: nat, q: int, m: map<nat, int>, all: seq<MoveLine>)
    returns (m': map<nat, int>, q': int)
    requires DistinctIds(s) && 0 < k <= |s| && OnlyIdsOf(m, s[k..])
    requires all == Lowered(s[..k], q) + PatchAll(s[k..], m)
    requires s[k - 1].done == 0 || q != 0
    ensures m' == if s[k - 1].done == 0 then m else m[s[k - 1].id := DownLine(s[k - 1], q).done]
    ensures q' == DownLeft(s[k - 1], q)
    ensures OnlyIdsOf(m', s[k - 1..]) && all == Lowered(s[..k - 1], q') + PatchAll(s[k - 1..], m')
  {
    var l, after := s[k - 1], PatchAll(s[k..], m);
    LoweredLast(s, k, q);
    q' := DownLeft(l, q);
    if l.done == 0 {
      m' := m;
      PatchNotPrevious(s, k, m);
    } else {
      m' := m[l.id := DownLine(l, q).done];
      PatchPrevious(s, k, m, DownLine(l, q).done);
    }
    Regroup(Lowered(s[..k - 1], q'), [DownLine(l, q)], after);
  }

  lemma {:induction false} LoweredLast(s: seq<MoveLine>, k: nat, q: int)
    requires 0 < k <= |s| && (s[k - 1].done == 0 || q != 0)
    ensures var l := s[k - 1];
            Lowered(s[..k], q) == Lowered(s[..k - 1], DownLeft(l, q)) + [DownLine(l, q)]
  {
    assert s[..k][..k - 1] == s[..k - 1] && s[..k][k - 1] == s[k - 1];
    assert s[..k] == s[..k - 1] + [s[k - 1]];
  }

  lemma {:induction false} SelectedDistinct(ls: seq<MoveLine>, product: nat, location: nat)
    requires DistinctIds(ls)
    ensures DistinctIds(Selected(ls, product, location))
    ensures forall l :: l in Selected(ls, product, location) ==> l in ls && l.product == product && l.location == location
  {
    HereMembers(ls, product, location);
    SortDistinct(Here(ls, product, location));
    SortBySorted(Here(ls, product, location), IdOf);
  }

  lemma {:induction false} PatchedAreSelected(ls: seq<MoveLine>, m: map<nat, int>, product: nat, location: nat)
    requires DistinctIds(ls) && OnlyIdsOf(m, Selected(ls, product, location))
    ensures forall i :: 0 <= i < |ls| && Patch(ls[i], m) != ls[i] ==> ls[i].product == product && ls[i].location == location
  {
    SelectedDistinct(ls, product, location);
    var s := Selected(ls, product, location);
    forall i | 0 <= i < |ls| && ls[i].id in m ensures ls[i].product == product && ls[i].location == location {
      var k :| 0 <= k < |s| && s[k].id == ls[i].id;
      assert s[k] in ls;
      var j :| 0 <= j < |ls| && ls[j] == s[k];
      assert j == i;
    }
  }

  lemma {:induction false} NothingLeft(s: seq<MoveLine>, q: int)
    requires s == [] || q == 0
    ensures Raised(s, q) == s && Lowered(s, q) == s
  {
  }

  // ------------------------------------------------------------------ the code

  class WaveBatch {
    var lines: seq<MoveLine>

    constructor (lines: seq<MoveLine>)
      ensures this.lines == lines
    {
      this.lines := lines;
    }

    /** One line of the loop up, and the quantity left for the others. */
    method IncreaseLine(l: MoveLine, qty: int) returns (left: int)
      modifies this
      ensures left == UpLeft(l, qty)
      ensures lines == if l.demand > l.done then SetDone(old(lines), l.id, UpLine(l, qty).done) else old(lines)
    {
      left := qty;
      if l.demand > l.done {
        var increased := Min(qty, l.demand - l.done);
        left := qty - increased;
        lines := SetDone(lines, l.id, increased + l.done);
      }
    }

    /** The branch for qty > 0; m collects the done quantities written. */
    method Increase(selected: seq<MoveLine>, quantity: int) returns (ghost m: map<nat, int>)
      requires DistinctIds(selected)
      modifies this
      ensures lines == PatchAll(old(lines), m) && OnlyIdsOf(m, selected)
      ensures PatchAll(selected, m) == Raised(selected, quantity)
    {
      var qty, k := quantity, 0;
      ghost var all := Raised(selected, quantity);
      m := map[];
      NothingPatched(lines, m);
      RaisedStarts(selected, quantity);
      while k < |selected|
        invariant 0 <= k <= |selected|
        invariant lines == PatchAll(old(lines), m) && OnlyIdsOf(m, selected[..k])
        invariant all == PatchAll(selected[..k], m) + Raised(selected[k..], qty)
      {
        var l := selected[k];
        if l.demand > l.done && qty == 0 {
          break;
        }
        ghost var m', qty' := RaisedStep(selected, k, qty, m, all);
        SetDonePatches(old(lines), m, l.id, UpLine(l, qty).done);
        qty := IncreaseLine(l, qty);
        m := m';
        k := k + 1;
      }
      RaisedEnds(selected, k, qty, m, all);
    }

    /** The branch for qty <= 0. */
    method Decrease(selected: seq<MoveLine>, quantity: int) returns (ghost m: map<nat, int>)
      requires DistinctIds(selected)
      modifies this
      ensures lines == PatchAll(old(lines), m) && OnlyIdsOf(m, selected)
      ensures PatchAll(selected, m) == Lowered(selected, quantity)
    {
      var qty, k := quantity, |selected|;
      ghost var all := Lowered(selected, quantity);
      m := map[];
      NothingPatched(lines, m);
      assert selected[..k] == selected && selected[k..] == [] && all + [] == all;
      while k > 0
        invariant 0 <= k <= |selected|
        invariant lines == PatchAll(old(lines), m) && OnlyIdsOf(m, selected[k..])
        invariant all == Lowered(selected[..k], qty) + PatchAll(selected[k..], m)
      {
        var l := selected[k - 1];
        if l.done != 0 && qty == 0 {
          break;
        }
        ghost var m', qty' := LoweredStep(selected, k, qty, m, all);
        if l.done != 0 {
          var done := l.done + qty;
          if done < 0 {
            done := 0;
            qty := qty + l.done;
          } else {
            qty := 0;
          }
          SetDonePatches(old(lines), m, l.id, done);
          lines := SetDone(lines, l.id, done);
        }
        m := m';
        k := k - 1;
      }
      PatchStart(selected, k, m);
      NothingLeft(selected[..k], qty);
    }

    /** What the screen is told. */
    method Answer(location: nat, product: nat) returns (r: Option<Report>)
      ensures r.Some? <==> exists l :: l in lines && l.product == product && l.location == location
      ensures r.Some? ==> r.value == Report(TotalAt(lines, product, location, DemandOf), TotalAt(lines, product, location, DoneOf))
    {
      var s := Selected(lines, product, location);
      SelectedIs(lines, product, location, DemandOf);
      SelectedIs(lines, product, location, DoneOf);
      hide TotalAt, Selected;
      if s == [] {
        return None;
      }
      assert s[0] in s;
      return Some(Report(SumOf(s, DemandOf), SumOf(s, DoneOf)));
    }

    /** The scanned quantity over the lines of the product at the location. */
    method Spread(location: nat, product: nat, qty: int)
      requires DistinctIds(lines)
      modifies this
      ensures DistinctIds(lines) && |lines| == |old(lines)|
      ensures Selected(lines, product, location) == Scanned(old(Selected(lines, product, location)), qty)
      ensures forall i :: 0 <= i < |lines| ==>
                lines[i] == old(lines)[i]
                || (lines[i].product == product && lines[i].location == location
                    && lines[i] == old(lines)[i].(done := lines[i].done))
    {
      var selected := Selected(lines, product, location);
      SelectedDistinct(lines, product, location);
      ghost var m: map<nat, int>;
      if qty > 0 {
        m := Increase(selected, qty);
      } else {
        m := Decrease(selected, qty);
      }
      PatchSelected(old(lines), m, product, location);
      PatchedAreSelected(old(lines), m, product, location);
    }

    /** `update_wave_picking`; None when no line is at the location. */
    method UpdateWavePicking(location: nat, product: nat, quantity: Option<int>) returns (r: Option<Report>)
      requires DistinctIds(lines)
      modifies this
      ensures DistinctIds(lines) && |lines| == |old(lines)|
      ensures var q := if quantity.Some? then quantity.value else 0;
              Selected(lines, product, location) == Scanned(old(Selected(lines, product, location)), q)
      ensures forall i :: 0 <= i < |lines| ==>
                lines[i] == old(lines)[i]
                || (lines[i].product == product && lines[i].location == location
                    && lines[i] == old(lines)[i].(done := lines[i].done))
      ensures r.Some? <==> exists l :: l in lines && l.product == product && l.location == location
      ensures r.Some? ==> r.value == Report(TotalAt(lines, product, location, DemandOf), TotalAt(lines, product, location, DoneOf))
    {
      hide TotalAt, DistinctIds, Selected, Scanned;
      Spread(location, product, if quantity.Some? then quantity.value else 0);
      r := Answer(location, product);
    }
  }

  // ------------------------------------------------------------------ conservation

  ghost predicate NonNegative(s: seq<MoveLine>) {
    forall i :: 0 <= i < |s| ==> s[i].done >= 0
  }

  /** A scan up adds exactly what it can: the scanned quantity, or all that is still open. */
  lemma {:induction false} RaisedTotal(s: seq<MoveLine>, q: int)
    requires q >= 0
    ensures |Raised(s, q)| == |s|
    ensures SumOf(Raised(s, q), DoneOf) == SumOf(s, DoneOf) + Min(q, SumOf(s, RemainingOf))
    ensures SumOf(s, RemainingOf) >= 0
  {
    SumOfNonNegative(s, RemainingOf);
    if s != [] && q != 0 {
      RaisedTotal(s[1..], UpLeft(s[0], q));
    }
  }

  /** It fills lines in id order: up to some line all are full, that one may be part filled, the rest
      is untouched; and no line is raised above its demand. */
  lemma {:induction false} RaisedPrefix(s: seq<MoveLine>, q: int) returns (k: nat)
    requires q >= 0
    ensures k <= |s| && |Raised(s, q)| == |s|
    ensures forall i :: 0 <= i < k ==> Raised(s, q)[i] == s[i].(done := Max(s[i].done, s[i].demand))
    ensures k < |s| ==> s[k].done <= Raised(s, q)[k].done <= Max(s[k].done, s[k].demand)
                        && Raised(s, q)[k] == s[k].(done := Raised(s, q)[k].done)
    ensures forall i :: k < i < |s| ==> Raised(s, q)[i] == s[i]
  {
    RaisedTotal(s, q);
    if s == [] || q == 0 {
      k := 0;
    } else if s[0].demand > s[0].done && q < s[0].demand - s[0].done {
      k := 0;
      assert Raised(s, q) == [s[0].(done := q + s[0].done)] + Raised(s[1..], 0);
      assert Raised(s[1..], 0) == s[1..];
    } else {
      var rest := if s[0].demand <= s[0].done then q else q - (s[0].demand - s[0].done);
      k := RaisedPrefix(s[1..], rest);
      assert Raised(s, q) == [s[0].(done := Max(s[0].done, s[0].demand))] + Raised(s[1..], rest);
      k := k + 1;
    }
  }

  lemma {:induction false} NonNegativeTotal(s: seq<MoveLine>)
    requires NonNegative(s)
    ensures SumOf(s, DoneOf) >= 0
  {
    forall x | x in s ensures DoneOf(x) >= 0 {
      var i :| 0 <= i < |s| && s[i] == x;
    }
    SumOfNonNegative(s, DoneOf);
  }

  lemma {:induction false} LoweredNonNegative(s: seq<MoveLine>, q: int)
    requires q <= 0 && NonNegative(s)
    ensures |Lowered(s, q)| == |s| && NonNegative(Lowered(s, q))
  {
    if s != [] && q != 0 {
      var l, before := s[|s| - 1], s[..|s| - 1];
      assert l.done >= 0;
      LoweredNonNegative(before, DownLeft(l, q));
      assert Lowered(s, q) == Lowered(before, DownLeft(l, q)) + [DownLine(l, q)];
    }
  }

  /** A scan down takes away exactly what it can, from the last line on, and never goes below zero. */
  lemma {:induction false} LoweredTotal(s: seq<MoveLine>, q: int)
    requires q <= 0 && NonNegative(s)
    ensures |Lowered(s, q)| == |s| && NonNegative(Lowered(s, q))
    ensures SumOf(Lowered(s, q), DoneOf) == SumOf(s, DoneOf) - Min(-q, SumOf(s, DoneOf))
    ensures SumOf(s, DoneOf) >= 0
  {
    NonNegativeTotal(s);
    LoweredNonNegative(s, q);
    if s != [] && q != 0 {
      var l, before := s[|s| - 1], s[..|s| - 1];
      assert s == before + [l] && l.done >= 0;
      LoweredTotal(before, DownLeft(l, q));
      SumOfSnoc(before, l, DoneOf);
      SumOfSnoc(Lowered(before, DownLeft(l, q)), DownLine(l, q), DoneOf);
    }
  }

  /** It empties lines from the last one on: from some line on all are empty, the one before may be part
      emptied, the rest is untouched. */
  lemma {:induction false} LoweredSuffix(s: seq<MoveLine>, q: int) returns (k: nat)
    requires q <= 0 && NonNegative(s)
    ensures k <= |s| && |Lowered(s, q)| == |s|
    ensures forall i :: k <= i < |s| ==> Lowered(s, q)[i] == s[i].(done := 0)
    ensures k > 0 ==> 0 <= Lowered(s, q)[k - 1].done <= s[k - 1].done
                      && Lowered(s, q)[k - 1] == s[k - 1].(done := Lowered(s, q)[k - 1].done)
    ensures forall i :: 0 <= i < k - 1 ==> Lowered(s, q)[i] == s[i]
  {
    LoweredNonNegative(s, q);
    k := |s|;
    if s != [] && q != 0 {
      var l, before := s[|s| - 1], s[..|s| - 1];
      var left := DownLeft(l, q);
      assert l.done >= 0 && NonNegative(before);
      LoweredNonNegative(before, left);
      assert Lowered(s, q) == Lowered(before, left) + [DownLine(l, q)];
      assert forall i :: 0 <= i < |before| ==> Lowered(s, q)[i] == Lowered(before, left)[i] && s[i] == before[i];
      if l.done == 0 || l.done + q < 0 {
        k := LoweredSuffix(before, left);
      } else {
        assert Lowered(before, left) == before;
      }
    }
  }

  // ------------------------------------------------------------------ whole sessions

  /** The lines filled in id order up to a total of t. */
  function Filled(s: seq<MoveLine>, t: int): seq<MoveLine> {
    if s == [] then []
    else
      var d := Min(t, s[0].demand);
      [s[0].(done := d)] + Filled(s[1..], t - d)
  }

  function Clamp(t: int, top: int): int { Max(0, Min(t, top)) }

  lemma {:induction false} FilledTwice(s: seq<MoveLine>, t: int, u: int)
    ensures |Filled(s, t)| == |s|
    ensures Filled(Filled(s, t), u) == Filled(s, u)
    ensures SumOf(Filled(s, t), DemandOf) == SumOf(s, DemandOf)
  {
    if s != [] {
      FilledTwice(s[1..], t - Min(t, s[0].demand), u - Min(u, s[0].demand));
      assert Filled(s, t)[1..] == Filled(s[1..], t - Min(t, s[0].demand));
    }
  }

  lemma {:induction false} FilledTotal(s: seq<MoveLine>, t: int)
    requires 0 <= t <= SumOf(s, DemandOf)
    ensures SumOf(Filled(s, t), DoneOf) == t && NonNegative(Filled(s, t))
    ensures SumOf(Filled(s, t), RemainingOf) == SumOf(s, DemandOf) - t
  {
    if s != [] {
      DemandNonNegative(s[1..]);
      FilledTotal(s[1..], t - Min(t, s[0].demand));
    }
  }

  lemma {:induction false} DemandNonNegative(s: seq<MoveLine>)
    ensures SumOf(s, DemandOf) >= 0
  {
    SumOfNonNegative(s, DemandOf);
  }

  lemma {:induction false} RaisedFilled(s: seq<MoveLine>, t: int, q: int)
    requires 0 <= t <= SumOf(s, DemandOf) && q >= 0
    ensures Raised(Filled(s, t), q) == Filled(s, Min(t + q, SumOf(s, DemandOf)))
  {
    if s != [] {
      DemandNonNegative(s[1..]);
      var d := Min(t, s[0].demand);
      var first := s[0].(done := d);
      assert Filled(s, t)[0] == first && Filled(s, t)[1..] == Filled(s[1..], t - d);
      if q == 0 {
        assert Filled(s, Min(t + q, SumOf(s, DemandOf))) == Filled(s, t);
      } else {
        RaisedFilled(s[1..], t - d, UpLeft(first, q));
      }
    }
  }

  lemma {:induction false} FilledSnoc(s: seq<MoveLine>, l: MoveLine, t: int)
    requires t >= 0
    ensures Filled(s + [l], t) == Filled(s, t) + [l.(done := Min(t - Min(t, SumOf(s, DemandOf)), l.demand))]
  {
    DemandNonNegative(s);
    if s == [] {
      assert [] + [l] == [l] && [l][1..] == [];
    } else {
      DemandNonNegative(s[1..]);
      assert (s + [l])[1..] == s[1..] + [l];
      FilledSnoc(s[1..], l, t - Min(t, s[0].demand));
    }
  }

  /** The last line of a filled sequence gets what the others leave. */
  lemma {:induction false} FilledLast(s: seq<MoveLine>, t: int)
    requires s != [] && 0 <= t <= SumOf(s, DemandOf)
    ensures var n := |s| - 1;
            var t0 := Min(t, SumOf(s[..n], DemandOf));
            && 0 <= t0 && t - t0 <= s[n].demand
            && Filled(s, t) == Filled(s[..n], t0) + [s[n].(done := t - t0)]
            && |Filled(s[..n], t0)| == n
  {
    var l, before := s[|s| - 1], s[..|s| - 1];
    assert s == before + [l];
    DemandNonNegative(before);
    SumOfSnoc(before, l, DemandOf);
    FilledSnoc(before, l, t);
    FilledCapped(before, t);
    FilledTwice(before, Min(t, SumOf(before, DemandOf)), 0);
  }

  lemma {:induction false} LoweredFilled(s: seq<MoveLine>, t: int, q: int)
    requires 0 <= t <= SumOf(s, DemandOf) && q <= 0
    ensures Lowered(Filled(s, t), q) == Filled(s, Max(0, t + q))
  {
    if s != [] && q != 0 {
      var before := s[..|s| - 1];
      DemandNonNegative(before);
      var t0 := Min(t, SumOf(before, DemandOf));
      FilledLast(s, t);
      FilledLast(s, Max(0, t + q));
      var f, last := Filled(s, t), s[|s| - 1].(done := t - t0);
      assert f[|f| - 1] == last && f[..|f| - 1] == Filled(before, t0);
      LoweredFilled(before, t0, DownLeft(last, q));
    }
  }

  lemma {:induction false} FilledCapped(s: seq<MoveLine>, t: int)
    requires t >= 0
    ensures Filled(s, t) == Filled(s, Min(t, SumOf(s, DemandOf)))
  {
    if s != [] {
      DemandNonNegative(s[1..]);
      FilledCapped(s[1..], t - Min(t, s[0].demand));
      FilledCapped(s[1..], Min(t, SumOf(s, DemandOf)) - Min(Min(t, SumOf(s, DemandOf)), s[0].demand));
    }
  }

  /** A scan of lines filled in id order leaves lines filled in id order. */
  lemma {:induction false} ScannedFilled(s: seq<MoveLine>, t: int, q: int)
    requires 0 <= t <= SumOf(s, DemandOf)
    ensures Scanned(Filled(s, t), q) == Filled(s, Clamp(t + q, SumOf(s, DemandOf)))
  {
    if q > 0 {
      RaisedFilled(s, t, q);
    } else {
      LoweredFilled(s, t, q);
    }
  }

  /** A session scans one quantity after the other; its total moves with every scan, but not below zero or above
      the demand. */
  ghost predicate Session(states: seq<seq<MoveLine>>, totals: seq<int>, qs: seq<int>, top: int) {
    && |states| == |totals| == |qs| + 1
    && forall i :: 0 <= i < |qs| ==>
         && states[i + 1] == Scanned(states[i], qs[i])
         && totals[i + 1] == if totals[i] + qs[i] < 0 then 0 else if totals[i] + qs[i] > top then top else totals[i] + qs[i]
  }

  /** After any sequence of scans up and down, the lines are the ones filled in id order up to the
      session's total: the order of the scans leaves no trace in the lines. */
  lemma {:induction false} SessionIsFilled(s: seq<MoveLine>, states: seq<seq<MoveLine>>, totals: seq<int>, qs: seq<int>, n: nat)
    requires Session(states, totals, qs, SumOf(s, DemandOf)) && n <= |qs|
    requires states[0] == Filled(s, totals[0]) && 0 <= totals[0] <= SumOf(s, DemandOf)
    ensures states[n] == Filled(s, totals[n]) && 0 <= totals[n] <= SumOf(s, DemandOf)
  {
    if n > 0 {
      SessionIsFilled(s, states, totals, qs, n - 1);
      hide Filled, Scanned, SumOf;
      ScannedFilled(s, totals[n - 1], qs[n - 1]);
    }
  }

  /** A scan down undoes a scan up of the same quantity, line by line, when the demand took it all. */
  lemma {:induction false} ScanUndone(s: seq<MoveLine>, t: int, q: int)
    requires 0 <= t && 0 < q && t + q <= SumOf(s, DemandOf)
    ensures Scanned(Scanned(Filled(s, t), q), -q) == Filled(s, t)
  {
    ScannedFilled(s, t, q);
    ScannedFilled(s, t + q, -q);
  }

  // ------------------------------------------------------------------ over all lines of the wave

  /** The sum over the lines of a product at a location, in whatever order. */
  function TotalAt(lines: seq<MoveLine>, product: nat, location: nat, f: MoveLine -> int): int {
    SumOf(lines, (l: MoveLine) => if l.product == product && l.location == location then f(l) else 0)
  }

  lemma {:induction false} HereTotal(lines: seq<MoveLine>, product: nat, location: nat, f: MoveLine -> int)
    ensures SumOf(Here(lines, product, location), f) == TotalAt(lines, product, location, f)
  {
    if lines != [] {
      HereTotal(lines[1..], product, location, f);
    }
  }

  /** The lines a scan looks at are those of the product at the location, each once, lowest id first. */
  lemma {:induction false} SelectedIs(lines: seq<MoveLine>, product: nat, location: nat, f: MoveLine -> int)
    ensures forall l :: l in Selected(lines, product, location) <==> l in lines && l.product == product && l.location == location
    ensures forall i, j :: 0 <= i < j < |Selected(lines, product, location)| ==>
              Selected(lines, product, location)[i].id <= Selected(lines, product, location)[j].id
    ensures SumOf(Selected(lines, product, location), f) == TotalAt(lines, product, location, f)
  {
    var here := Here(lines, product, location);
    HereMembers(lines, product, location);
    HereTotal(lines, product, location, f);
    SortBySorted(here, IdOf);
    SumOfPermutation(SortBy(here, IdOf), here, f);
    hide Here, TotalAt, SortBy;
    var s := Selected(lines, product, location);
    forall i, j | 0 <= i < j < |s| ensures s[i].id <= s[j].id {
      assert IdOf(s[i]) <= IdOf(s[j]);
    }
  }

  /** A scan in terms of all lines of the wave: up, the product at the location gains the smaller of the scanned
      quantity and what its lines still ask for; down, it loses the smaller of that and all it has. */
  lemma {:induction false} ScanTotals(before: seq<MoveLine>, after: seq<MoveLine>, product: nat, location: nat, q: int)
    requires Selected(after, product, location) == Scanned(Selected(before, product, location), q)
    ensures q > 0 ==>
              TotalAt(after, product, location, DoneOf) ==
              TotalAt(before, product, location, DoneOf) + Min(q, TotalAt(before, product, location, RemainingOf))
    ensures q <= 0 && (forall l :: l in before && l.product == product && l.location == location ==> l.done >= 0) ==>
              TotalAt(after, product, location, DoneOf) ==
              TotalAt(before, product, location, DoneOf) - Min(-q, TotalAt(before, product, location, DoneOf))
  {
    var s := Selected(before, product, location);
    SelectedIs(before, product, location, DoneOf);
    SelectedIs(before, product, location, RemainingOf);
    SelectedIs(after, product, location, DoneOf);
    hide TotalAt, Selected, Raised, Lowered;
    if q > 0 {
      RaisedTotal(s, q);
    } else if forall l :: l in before && l.product == product && l.location == location ==> l.done >= 0 {
      assert forall i :: 0 <= i < |s| ==> s[i] in s;
      LoweredTotal(s, q);
    }
  }
}
