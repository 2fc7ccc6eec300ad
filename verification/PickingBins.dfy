/** Bins of transfers while an order is sorted and packed: a bin is used for one order at a time. */
module PickingBins {
  import opened Options
  import opened Text

  datatype Code = Pick | Out | Other
  datatype Status = Draft | Waiting | Confirmed | Assigned | Done | Cancelled

  /** bins is the comma-joined field `picking_bins`; None is the unset field. */
  datatype Picking = Picking(code: Code, status: Status, single: bool, bins: Option<string>)

  /** pickings by id; done is the done quantity of each move line. */
  datatype Floor = Floor(pickings: map<nat, Picking>, done: map<nat, int>)

  /** Which transfer a move line belongs to, and the pick transfers an out transfer comes from. */
  datatype Links = Links(pickingOf: map<nat, nat>, originsOf: map<nat, set<nat>>)

  /** The bins a transfer holds. */
  function BinsOf(p: Picking): set<string> {
    match p.bins
    case None => {}
    case Some(s) => set b | b in Split(s) && b != ""
  }

  /** Transfers whose bins are taken: open out transfers and done pick transfers, not single ones. */
  predicate Holds(p: Picking) {
    !p.single && ((p.code == Out && p.status in {Assigned, Waiting, Confirmed}) || (p.code == Pick && p.status == Done))
  }

  /** No bin is held by two transfers. */
  ghost predicate Exclusive(f: Floor) {
    forall a, b :: a in f.pickings && b in f.pickings && a != b && Holds(f.pickings[a]) && Holds(f.pickings[b]) ==>
      BinsOf(f.pickings[a]) !! BinsOf(f.pickings[b])
  }

  /** The transfers the search with the ilike prefilter finds for a bin, other than own. */
  function Candidates(f: Floor, own: nat, bin: string): set<nat> {
    set id | id in f.pickings && id != own && Holds(f.pickings[id])
             && f.pickings[id].bins.Some? && ILike(bin, f.pickings[id].bins.value)
  }

  predicate InUse(f: Floor, own: nat, bin: string) {
    exists id :: id in Candidates(f, own, bin) && bin in Split(f.pickings[id].bins.value)
  }

  /** A list with the same elements as xs, each once, in any order: `list(set(xs))`. */
  ghost predicate Distinct(r: seq<string>, xs: seq<string>) {
    && (forall x :: x in r <==> x in xs)
    && (forall i, j :: 0 <= i < j < |r| ==> r[i] != r[j])
  }

  ghost predicate BinAdded(before: Option<string>, bin: string, after: string) {
    if before.None? || before.value == "" then after == bin
    else exists r :: Distinct(r, Split(before.value) + [bin]) && after == Join(r)
  }

  ghost predicate BinRemoved(before: string, bin: string, after: string) {
    if bin != "" && bin in Split(before)
    then exists r :: (forall x :: x in r <==> x in Split(before) && x != bin) && after == Join(r)
    else after == before
  }

  // ------------------------------------------------------------------ steps

  datatype Step = Sort(line: nat, qty: int, bin: string)
                | Unsort(line: nat, qty: int, bin: string)
                | LabelDone(shipping: nat, reserved: bool)
                | ClearBatch(batch: set<nat>)
                | ChangeStatus(id: nat, status: Status)

  function ClearBins(f: Floor, ids: set<nat>): Floor {
    f.(pickings := map id | id in f.pickings :: if id in ids then f.pickings[id].(bins := None) else f.pickings[id])
  }

  /** Those transfers have lost their bins, and nothing else about the transfers has changed. */
  ghost predicate Emptied(f: Floor, f': Floor, ids: set<nat>) {
    && f'.pickings.Keys == f.pickings.Keys
    && forall id :: id in f.pickings ==>
         f'.pickings[id] == Picking(f.pickings[id].code, f.pickings[id].status, f.pickings[id].single,
                                    if id in ids then None else f.pickings[id].bins)
  }

  /** One step of the floor. A status change is the rest of the warehouse at work. */
  ghost predicate Next(links: Links, f: Floor, s: Step, f': Floor) {
    match s
    case Sort(line, qty, bin) =>
      && line in links.pickingOf && links.pickingOf[line] in f.pickings
      && var own := links.pickingOf[line];
         if InUse(f, own, bin) then f' == f
         else && own in f'.pickings && f'.pickings[own].bins.Some?
              && BinAdded(f.pickings[own].bins, bin, f'.pickings[own].bins.value)
              && f' == Floor(f.pickings[own := f.pickings[own].(bins := f'.pickings[own].bins)], f.done[line := qty])
    case Unsort(line, qty, bin) =>
      && line in links.pickingOf && links.pickingOf[line] in f.pickings && line in f.done
      && var own := links.pickingOf[line];
         if f.pickings[own].bins.None? then f' == f
         else && own in f'.pickings && f'.pickings[own].bins.Some?
              && BinRemoved(f.pickings[own].bins.value, bin, f'.pickings[own].bins.value)
              && f' == Floor(f.pickings[own := f.pickings[own].(bins := f'.pickings[own].bins)],
                             f.done[line := f.done[line] - qty])
    case LabelDone(shipping, reserved) =>
      && shipping in links.originsOf
      && f' == if reserved then ClearBins(f, links.originsOf[shipping] + {shipping}) else f
    case ClearBatch(batch) =>
      var cleared := ClearBins(f, batch);
      f' == cleared.(done := map line | line in f.done ::
                       if line in links.pickingOf && links.pickingOf[line] in batch then 0 else f.done[line])
    case ChangeStatus(id, status) =>
      id in f.pickings && f' == f.(pickings := f.pickings[id := f.pickings[id].(status := status)])
  }

  // ------------------------------------------------------------------ the code

  method AnyOrder(s: set<string>) returns (r: seq<string>)
    ensures forall x :: x in r <==> x in s
    ensures forall i, j :: 0 <= i < j < |r| ==> r[i] != r[j]
  {
    r := [];
    var todo := s;
    while todo != {}
      invariant todo <= s && forall x :: x in r <==> x in s && x !in todo
      invariant forall i, j :: 0 <= i < j < |r| ==> r[i] != r[j]
      decreases |todo|
    {
      var x :| x in todo;
      assert x !in r;
      ghost var before := r;
      r := r + [x];
      todo := todo - {x};
      assert forall y :: y in r <==> y in before || y == x;
    }
  }

  class SortingFloor {
    const links: Links
    var floor: Floor

    constructor (links: Links, floor: Floor)
      ensures this.links == links && this.floor == floor
    {
      this.links, this.floor := links, floor;
    }

    /** `update_sorted_move_line`; on refusal the transfer named in the message. */
    method UpdateSortedMoveLine(line: nat, qty: int, bin: string) returns (refused: Option<nat>)
      requires line in links.pickingOf && links.pickingOf[line] in floor.pickings
      modifies this
      ensures Next(links, old(floor), Sort(line, qty, bin), floor)
      ensures refused.Some? == InUse(old(floor), links.pickingOf[line], bin)
      ensures refused.Some? ==> refused.value in Candidates(old(floor), links.pickingOf[line], bin)
    {
      var own := links.pickingOf[line];
      var checked := Candidates(floor, own, bin);
      if exists id :: id in checked && bin in Split(floor.pickings[id].bins.value) {
        var first :| first in checked;
        return Some(first);
      }
      var p := floor.pickings[own];
      var bins := bin;
      if p.bins.Some? && p.bins.value != "" {
        var pieces := Split(p.bins.value) + [bin];
        var r := AnyOrder(set x | x in pieces);
        assert Distinct(r, pieces);
        bins := Join(r);
      }
      floor := Floor(floor.pickings[own := p.(bins := Some(bins))], floor.done[line := qty]);
      return None;
    }

    /** `reset_picking_bins`; false when the field is unset, which raises. */
    method ResetPickingBins(line: nat, bin: string, qty: int) returns (ok: bool)
      requires line in links.pickingOf && links.pickingOf[line] in floor.pickings && line in floor.done
      modifies this
      ensures Next(links, old(floor), Unsort(line, qty, bin), floor)
      ensures ok == old(floor).pickings[links.pickingOf[line]].bins.Some?
    {
      var own := links.pickingOf[line];
      var p := floor.pickings[own];
      if p.bins.None? {
        return false;
      }
      var bins := p.bins.value;
      var pieces := Split(bins);
      if bin != "" && bin in pieces {
        var r := AnyOrder((set x | x in pieces) - {bin});
        assert forall x :: x in r <==> x in pieces && x != bin;
        bins := Join(r);
      }
      floor := Floor(floor.pickings[own := p.(bins := Some(bins))], floor.done[line := floor.done[line] - qty]);
      return true;
    }

    /** The end of `done_and_print_label`: reserved tells whether every move is fully reserved. */
    method DoneAndPrintLabel(shipping: nat, reserved: bool) returns (success: bool)
      requires shipping in links.originsOf
      modifies this
      ensures Next(links, old(floor), LabelDone(shipping, reserved), floor) && success == reserved
      ensures !reserved ==> floor == old(floor)
      ensures reserved ==> Emptied(old(floor), floor, links.originsOf[shipping] + {shipping}) && floor.done == old(floor).done
    {
      if !reserved {
        return false;
      }
      floor := ClearBins(floor, links.originsOf[shipping] + {shipping});
      return true;
    }

    /** `clear_batch_picking` */
    method ClearBatchPicking(batch: set<nat>)
      modifies this
      ensures Next(links, old(floor), ClearBatch(batch), floor)
      ensures Emptied(old(floor), floor, batch) && floor.done.Keys == old(floor).done.Keys
      ensures forall line :: line in floor.done ==>
                floor.done[line] == if line in links.pickingOf && links.pickingOf[line] in batch then 0 else old(floor).done[line]
    {
      var done := map line | line in floor.done ::
        if line in links.pickingOf && links.pickingOf[line] in batch then 0 else floor.done[line];
      floor := ClearBins(floor, batch).(done := done);
    }
  }

  // ------------------------------------------------------------------ what the joined string stands for

  lemma {:induction false} SplitAllMembers(xs: seq<string>, b: string)
    ensures b in SplitAll(xs) <==> exists i :: 0 <= i < |xs| && b in Split(xs[i])
  {
    if xs != [] {
      SplitAllMembers(xs[1..], b);
      assert forall i :: 0 < i < |xs| ==> xs[i] == xs[1..][i - 1];
      if b in SplitAll(xs[1..]) {
        var i :| 0 <= i < |xs[1..]| && b in Split(xs[1..][i]);
        assert b in Split(xs[i + 1]);
      }
      if exists i :: 0 <= i < |xs| && b in Split(xs[i]) {
        var i :| 0 <= i < |xs| && b in Split(xs[i]);
        assert i > 0 ==> b in Split(xs[1..][i - 1]);
      }
    }
  }

  /** Adding a bin adds its comma-separated pieces, whatever order the list is written in. */
  lemma {:induction false} BinsAfterAdd(p: Picking, bin: string, after: string)
    requires BinAdded(p.bins, bin, after)
    ensures BinsOf(p.(bins := Some(after))) == BinsOf(p) + BinsOf(p.(bins := Some(bin)))
  {
    if p.bins.Some? && p.bins.value != "" {
      var xs := Split(p.bins.value) + [bin];
      var r :| Distinct(r, xs) && after == Join(r);
      assert bin in xs && bin in r;
      SplitOfJoin(r);
      SplitPiecesCommaFree(p.bins.value);
      forall b | b != "" ensures b in Split(after) <==> b in Split(p.bins.value) || b in Split(bin) {
        SplitAllMembers(r, b);
        if b in Split(p.bins.value) {
          SplitCommaFree(b);
          assert b in xs && b in r;
          var i :| 0 <= i < |r| && r[i] == b;
        }
        if b in Split(bin) {
          var i :| 0 <= i < |r| && r[i] == bin;
        }
        if b in Split(after) {
          var i :| 0 <= i < |r| && b in Split(r[i]);
          assert r[i] in xs;
          if r[i] != bin {
            SplitCommaFree(r[i]);
          }
        }
      }
    }
  }

  /** A bin added to a list leaves each bin of the list written once. */
  lemma {:induction false} BinsListedOnce(before: string, bin: string, after: string)
    requires before != "" && CommaFree(bin) && BinAdded(Some(before), bin, after)
    ensures forall i, j :: 0 <= i < j < |Split(after)| ==> Split(after)[i] != Split(after)[j]
  {
    var xs := Split(before) + [bin];
    var r :| Distinct(r, xs) && after == Join(r);
    assert bin in xs && bin in r;
    SplitPiecesCommaFree(before);
    forall i | 0 <= i < |r| ensures CommaFree(r[i]) {
      assert r[i] in xs;
    }
    SplitUndoesJoin(r);
  }

  /** Removing a bin removes that bin and no other. */
  lemma {:induction false} BinsAfterRemove(p: Picking, bin: string, after: string)
    requires p.bins.Some? && BinRemoved(p.bins.value, bin, after)
    ensures BinsOf(p.(bins := Some(after))) == BinsOf(p) - {bin}
  {
    var s := p.bins.value;
    if bin != "" && bin in Split(s) {
      var r :| (forall x :: x in r <==> x in Split(s) && x != bin) && after == Join(r);
      SplitPiecesCommaFree(s);
      forall i | 0 <= i < |r| ensures CommaFree(r[i]) {
        assert r[i] in Split(s);
      }
      if r != [] {
        SplitUndoesJoin(r);
      } else {
        assert Split(after) == [""];
      }
    }
  }

  // ------------------------------------------------------------------ exclusivity

  /** No other holder has one of the comma-separated pieces of bin. */
  ghost predicate PiecesFree(f: Floor, own: nat, bin: string) {
    forall id :: id in f.pickings && id != own && Holds(f.pickings[id]) ==>
      forall piece :: piece in Split(bin) && piece != "" ==> piece !in BinsOf(f.pickings[id])
  }

  /** After an accepted sort the bins stay exclusive exactly when no other holder has one of the
      comma-separated pieces of the barcode. */
  lemma {:induction false} SortKeepsExclusiveIff(links: Links, f: Floor, line: nat, qty: int, bin: string, f': Floor)
    requires Next(links, f, Sort(line, qty, bin), f')
    requires Exclusive(f) && !InUse(f, links.pickingOf[line], bin)
    ensures var own := links.pickingOf[line];
            Exclusive(f') <==> (Holds(f.pickings[own]) ==> PiecesFree(f, own, bin))
  {
    var own := links.pickingOf[line];
    var p, p' := f.pickings[own], f'.pickings[own];
    BinsAfterAdd(p, bin, p'.bins.value);
    assert p' == p.(bins := p'.bins);
    assert forall id :: id in f.pickings && id != own ==> f'.pickings[id] == f.pickings[id];
    if Holds(p) && Exclusive(f') {
      forall id | id in f.pickings && id != own && Holds(f.pickings[id])
        ensures BinsOf(p') !! BinsOf(f.pickings[id])
      {
        assert BinsOf(f'.pickings[own]) !! BinsOf(f'.pickings[id]);
      }
    }
    if Holds(p) ==> PiecesFree(f, own, bin) {
      forall a, b | a in f'.pickings && b in f'.pickings && a != b && Holds(f'.pickings[a]) && Holds(f'.pickings[b])
        ensures BinsOf(f'.pickings[a]) !! BinsOf(f'.pickings[b])
      {
        assert BinsOf(f.pickings[a]) !! BinsOf(f.pickings[b]);
      }
    }
  }

  /** A scanned barcode that is one piece and is found by its own search pattern. */
  predicate PlainBarcode(bin: string) {
    bin != "" && CommaFree(bin) && ILike(bin, bin)
  }

  /** The search finds every holder of a plain barcode. */
  lemma {:induction false} HolderIsFound(f: Floor, own: nat, bin: string, id: nat)
    requires PlainBarcode(bin)
    requires id in f.pickings && id != own && Holds(f.pickings[id])
    ensures bin in BinsOf(f.pickings[id]) ==> InUse(f, own, bin)
  {
    if bin in BinsOf(f.pickings[id]) {
      var s := f.pickings[id].bins.value;
      var i :| 0 <= i < |Split(s)| && Split(s)[i] == bin;
      PrefilterFinds(bin, s, i);
      assert id in Candidates(f, own, bin);
    }
  }

  // ------------------------------------------------------------------ what a sort is refused for

  /** A sort of bin to own is refused on account of id: another transfer, not a single one, that lists the bin where
      the search finds it, an out transfer still open or a pick transfer that is done. */
  predicate RefusedFor(f: Floor, own: nat, bin: string, id: nat) {
    && id in f.pickings && id != own
    && var p := f.pickings[id];
       && !p.single
       && ((p.code == Out && p.status != Draft && p.status != Done && p.status != Cancelled)
           || (p.code == Pick && p.status == Done))
       && p.bins.Some? && bin in Split(p.bins.value) && ILike(bin, p.bins.value)
  }

  lemma {:induction false} RefusedIff(f: Floor, own: nat, bin: string)
    ensures InUse(f, own, bin) <==> exists id :: RefusedFor(f, own, bin, id)
  {
    hide ILike;
    assert forall id :: id in Candidates(f, own, bin) && bin in Split(f.pickings[id].bins.value)
                        <==> RefusedFor(f, own, bin, id);
  }

  /** Once a shipment is labelled neither it nor a pick transfer it comes from has a bin. A sort is refused as before
      on account of any other transfer and never on account of these. */
  lemma {:induction false} LabelledHoldNothing(links: Links, f: Floor, shipping: nat, f': Floor, own: nat, bin: string)
    requires Next(links, f, LabelDone(shipping, true), f')
    ensures f'.done == f.done && Emptied(f, f', links.originsOf[shipping] + {shipping})
    ensures forall id :: id in f.pickings && (id == shipping || id in links.originsOf[shipping]) ==> BinsOf(f'.pickings[id]) == {}
    ensures forall id :: RefusedFor(f', own, bin, id) <==>
              RefusedFor(f, own, bin, id) && id != shipping && id !in links.originsOf[shipping]
  {
    hide ILike;
  }

  /** A bin that one transfer holds refuses no sort on account of another one while the bins are exclusive. */
  lemma {:induction false} HeldOnce(f: Floor, id: nat, own: nat, bin: string, other: nat)
    requires Exclusive(f) && id in f.pickings && Holds(f.pickings[id]) && bin in BinsOf(f.pickings[id])
    ensures RefusedFor(f, own, bin, other) ==> other == id
  {
    assert other in f.pickings && other != id && Holds(f.pickings[other]) ==>
        BinsOf(f.pickings[id]) !! BinsOf(f.pickings[other]);
    assert RefusedFor(f, own, bin, other) ==> Holds(f.pickings[other]) && bin in BinsOf(f.pickings[other]);
  }

  /** A bin that a labelled shipment or one of its pick transfers held is free for any order, while the bins are
      exclusive. */
  lemma {:induction false} LabelledBinIsFree(links: Links, f: Floor, shipping: nat, f': Floor, id: nat, own: nat, bin: string)
    requires Next(links, f, LabelDone(shipping, true), f') && Exclusive(f)
    requires id in f.pickings && (id == shipping || id in links.originsOf[shipping])
    requires Holds(f.pickings[id]) && bin in BinsOf(f.pickings[id])
    ensures !InUse(f', own, bin)
  {
    RefusedIff(f', own, bin);
    LabelledHoldNothing(links, f, shipping, f', own, bin);
    forall other ensures !RefusedFor(f', own, bin, other) {
      HeldOnce(f, id, own, bin, other);
    }
  }

  // ------------------------------------------------------------------ runs between status changes

  lemma {:induction false} HeldSmaller(f: Floor, f': Floor)
    requires Exclusive(f) && f'.pickings.Keys == f.pickings.Keys
    requires forall id :: id in f.pickings && Holds(f'.pickings[id]) ==>
               Holds(f.pickings[id]) && BinsOf(f'.pickings[id]) <= BinsOf(f.pickings[id])
    ensures Exclusive(f')
  {
    forall a, b | a in f'.pickings && b in f'.pickings && a != b && Holds(f'.pickings[a]) && Holds(f'.pickings[b])
      ensures BinsOf(f'.pickings[a]) !! BinsOf(f'.pickings[b])
    {
      assert BinsOf(f.pickings[a]) !! BinsOf(f.pickings[b]);
    }
  }

  /** The search alone keeps the bins exclusive under every sort of a plain barcode. */
  lemma {:induction false} PlainSortKeepsExclusive(links: Links, f: Floor, line: nat, qty: int, bin: string, f': Floor)
    requires Next(links, f, Sort(line, qty, bin), f') && PlainBarcode(bin) && Exclusive(f)
    ensures Exclusive(f')
  {
    var own := links.pickingOf[line];
    if !InUse(f, own, bin) {
      SplitCommaFree(bin);
      forall id | id in f.pickings && id != own && Holds(f.pickings[id]) ensures bin !in BinsOf(f.pickings[id]) {
        HolderIsFound(f, own, bin, id);
      }
      SortKeepsExclusiveIff(links, f, line, qty, bin, f');
    }
  }

  /** A step of the code that is no status change, a sort scanning a plain barcode. */
  predicate PlainStep(s: Step) { !s.ChangeStatus? && (s.Sort? ==> PlainBarcode(s.bin)) }

  lemma {:induction false} PlainStepKeepsExclusive(links: Links, f: Floor, s: Step, f': Floor)
    requires Next(links, f, s, f') && PlainStep(s) && Exclusive(f)
    ensures Exclusive(f')
  {
    match s
    case Sort(line, qty, bin) => PlainSortKeepsExclusive(links, f, line, qty, bin, f');
    case Unsort(line, qty, bin) =>
      var own := links.pickingOf[line];
      if f.pickings[own].bins.Some? {
        BinsAfterRemove(f.pickings[own], bin, f'.pickings[own].bins.value);
        HeldSmaller(f, f');
      }
    case _ => HeldSmaller(f, f');
  }

  /** Over every run of sort, unsort, label and clear steps with plain barcodes, no bin is ever held by two
      transfers: the code's own search is all it takes. */
  lemma {:induction false} PlainRunKeepsExclusive(links: Links, fs: seq<Floor>, steps: seq<Step>, n: nat)
    requires |fs| == |steps| + 1 && n <= |steps| && Exclusive(fs[0])
    requires forall i :: 0 <= i < |steps| ==> PlainStep(steps[i]) && Next(links, fs[i], steps[i], fs[i + 1])
    ensures Exclusive(fs[n])
  {
    if n > 0 {
      PlainRunKeepsExclusive(links, fs, steps, n - 1);
      PlainStepKeepsExclusive(links, fs[n - 1], steps[n - 1], fs[n]);
    }
  }

  /** No other holder has one of the transfer's bins. */
  ghost predicate BinsFree(f: Floor, id: nat)
    requires id in f.pickings
  {
    forall other :: other in f.pickings && other != id && Holds(f.pickings[other]) ==>
      BinsOf(f.pickings[other]) !! BinsOf(f.pickings[id])
  }

  /** A status change keeps the bins exclusive exactly unless the transfer becomes a holder while another
      holder has one of the bins it lists. */
  lemma {:induction false} StatusKeepsExclusiveIff(links: Links, f: Floor, id: nat, status: Status, f': Floor)
    requires Next(links, f, ChangeStatus(id, status), f') && Exclusive(f)
    ensures Exclusive(f') <==>
            !(Holds(f.pickings[id].(status := status)) && !Holds(f.pickings[id]) && !BinsFree(f, id))
  {
    var p := f.pickings[id].(status := status);
    assert forall x :: x in f.pickings && x != id ==> f'.pickings[x] == f.pickings[x];
    assert Holds(f.pickings[id]) ==> BinsFree(f, id);
    if Holds(p) && Exclusive(f') {
      forall other | other in f.pickings && other != id && Holds(f.pickings[other])
        ensures BinsOf(f.pickings[other]) !! BinsOf(f.pickings[id])
      {
        assert BinsOf(f'.pickings[other]) !! BinsOf(f'.pickings[id]);
      }
    }
    if Holds(p) ==> BinsFree(f, id) {
      forall a, b | a in f'.pickings && b in f'.pickings && a != b && Holds(f'.pickings[a]) && Holds(f'.pickings[b])
        ensures BinsOf(f'.pickings[a]) !! BinsOf(f'.pickings[b])
      {
        if a != id && b != id {
          assert BinsOf(f.pickings[a]) !! BinsOf(f.pickings[b]);
        }
      }
    }
  }

  /** A run step: plain, or a status change that makes no transfer a holder of bins that are taken. */
  ghost predicate Guarded(f: Floor, s: Step) {
    PlainStep(s)
    || (s.ChangeStatus? && s.id in f.pickings
        && !(Holds(f.pickings[s.id].(status := s.status)) && !Holds(f.pickings[s.id]) && !BinsFree(f, s.id)))
  }

  /** Over a run with plain barcodes the bins are exclusive at every point if and only if each status change
      on the way is one that keeps them so. */
  lemma {:induction false} GuardedRunIff(links: Links, fs: seq<Floor>, steps: seq<Step>)
    requires |fs| == |steps| + 1 && Exclusive(fs[0])
    requires forall i :: 0 <= i < |steps| ==>
               (PlainStep(steps[i]) || steps[i].ChangeStatus?) && Next(links, fs[i], steps[i], fs[i + 1])
    ensures (forall n :: 0 <= n < |fs| ==> Exclusive(fs[n])) <==> forall i :: 0 <= i < |steps| ==> Guarded(fs[i], steps[i])
  {
    if forall i :: 0 <= i < |steps| ==> Guarded(fs[i], steps[i]) {
      forall n | 0 <= n < |fs| ensures Exclusive(fs[n]) {
        GuardedRun(links, fs, steps, n);
      }
    }
    if forall n :: 0 <= n < |fs| ==> Exclusive(fs[n]) {
      forall i | 0 <= i < |steps| ensures Guarded(fs[i], steps[i]) {
        assert Exclusive(fs[i]) && Exclusive(fs[i + 1]);
        if steps[i].ChangeStatus? {
          StatusKeepsExclusiveIff(links, fs[i], steps[i].id, steps[i].status, fs[i + 1]);
        }
      }
    }
  }

  lemma {:induction false} GuardedRun(links: Links, fs: seq<Floor>, steps: seq<Step>, n: nat)
    requires |fs| == |steps| + 1 && n <= |steps| && Exclusive(fs[0])
    requires forall i :: 0 <= i < |steps| ==> Guarded(fs[i], steps[i]) && Next(links, fs[i], steps[i], fs[i + 1])
    ensures Exclusive(fs[n])
  {
    if n > 0 {
      GuardedRun(links, fs, steps, n - 1);
      var f, s := fs[n - 1], steps[n - 1];
      if s.ChangeStatus? {
        StatusKeepsExclusiveIff(links, f, s.id, s.status, fs[n]);
      } else {
        PlainStepKeepsExclusive(links, f, s, fs[n]);
      }
    }
  }

  // ------------------------------------------------------------------ whatever the statuses become

  /** Transfers that hold their bins in some status. */
  predicate Claims(p: Picking) { !p.single && p.code in {Pick, Out} }

  /** No bin is in two transfers that may come to hold it. */
  ghost predicate ClaimsExclusive(f: Floor) {
    forall a, b :: a in f.pickings && b in f.pickings && a != b && Claims(f.pickings[a]) && Claims(f.pickings[b]) ==>
      BinsOf(f.pickings[a]) !! BinsOf(f.pickings[b])
  }

  /** The same transfers, in any statuses. */
  ghost predicate SameButStatus(f: Floor, g: Floor) {
    && g.pickings.Keys == f.pickings.Keys
    && forall id :: id in f.pickings ==> g.pickings[id] == f.pickings[id].(status := g.pickings[id].status)
  }

  /** No bin is held twice, in whatever statuses. */
  ghost predicate AlwaysExclusive(f: Floor) {
    forall g :: SameButStatus(f, g) ==> Exclusive(g)
  }

  /** The statuses in which all that may hold bins do. */
  function AllHolding(f: Floor): Floor {
    f.(pickings := map id | id in f.pickings :: f.pickings[id].(status := if f.pickings[id].code == Pick then Done else Assigned))
  }

  /** The bins are exclusive in whatever statuses exactly when no bin is in two transfers that may come to
      hold it. */
  lemma {:induction false} AlwaysExclusiveIff(f: Floor)
    ensures AlwaysExclusive(f) <==> ClaimsExclusive(f)
  {
    var g := AllHolding(f);
    assert SameButStatus(f, g);
    if Exclusive(g) {
      forall a, b | a in f.pickings && b in f.pickings && a != b && Claims(f.pickings[a]) && Claims(f.pickings[b])
        ensures BinsOf(f.pickings[a]) !! BinsOf(f.pickings[b])
      {
        assert BinsOf(g.pickings[a]) !! BinsOf(g.pickings[b]);
      }
    }
    if ClaimsExclusive(f) {
      forall h | SameButStatus(f, h) ensures Exclusive(h) {
        StatusesApart(f, h);
      }
    }
  }

  lemma {:induction false} StatusesApart(f: Floor, g: Floor)
    requires SameButStatus(f, g) && ClaimsExclusive(f)
    ensures Exclusive(g)
  {
    forall a, b | a in g.pickings && b in g.pickings && a != b && Holds(g.pickings[a]) && Holds(g.pickings[b])
      ensures BinsOf(g.pickings[a]) !! BinsOf(g.pickings[b])
    {
      assert BinsOf(f.pickings[a]) !! BinsOf(f.pickings[b]);
    }
  }

  /** No other transfer that may come to hold it has one of the comma-separated pieces of bin. */
  ghost predicate Unclaimed(f: Floor, own: nat, bin: string) {
    forall id :: id in f.pickings && id != own && Claims(f.pickings[id]) ==>
      forall piece :: piece in Split(bin) && piece != "" ==> piece !in BinsOf(f.pickings[id])
  }

  /** After an accepted sort the bins stay exclusive in whatever statuses exactly when no other transfer
      that may come to hold it has one of the comma-separated pieces of the barcode. */
  lemma {:induction false} SortKeepsClaimsIff(links: Links, f: Floor, line: nat, qty: int, bin: string, f': Floor)
    requires Next(links, f, Sort(line, qty, bin), f')
    requires ClaimsExclusive(f) && !InUse(f, links.pickingOf[line], bin)
    ensures var own := links.pickingOf[line];
            ClaimsExclusive(f') <==> (Claims(f.pickings[own]) ==> Unclaimed(f, own, bin))
  {
    var own := links.pickingOf[line];
    var p, p' := f.pickings[own], f'.pickings[own];
    BinsAfterAdd(p, bin, p'.bins.value);
    assert p' == p.(bins := p'.bins);
    assert forall id :: id in f.pickings && id != own ==> f'.pickings[id] == f.pickings[id];
    hide BinsOf;
    if Claims(p) && ClaimsExclusive(f') {
      forall id | id in f.pickings && id != own && Claims(f.pickings[id]) ensures BinsOf(p') !! BinsOf(f.pickings[id]) {
        assert BinsOf(f'.pickings[own]) !! BinsOf(f'.pickings[id]);
      }
    }
    if Claims(p) ==> Unclaimed(f, own, bin) {
      forall a, b | a in f'.pickings && b in f'.pickings && a != b && Claims(f'.pickings[a]) && Claims(f'.pickings[b])
        ensures BinsOf(f'.pickings[a]) !! BinsOf(f'.pickings[b])
      {
        assert BinsOf(f.pickings[a]) !! BinsOf(f.pickings[b]);
      }
    }
  }

  /** The search sees to that for a plain barcode unless a transfer has it that does not hold it yet, as a
      pick transfer that is not done. */
  lemma {:induction false} SearchSufficesIff(f: Floor, own: nat, bin: string)
    requires PlainBarcode(bin) && !InUse(f, own, bin)
    ensures Unclaimed(f, own, bin) <==>
            forall id :: id in f.pickings && id != own && Claims(f.pickings[id]) && !Holds(f.pickings[id]) ==>
              bin !in BinsOf(f.pickings[id])
  {
    SplitCommaFree(bin);
    assert bin in Split(bin);
    forall id | id in f.pickings && id != own && Holds(f.pickings[id]) ensures bin !in BinsOf(f.pickings[id]) {
      HolderIsFound(f, own, bin, id);
    }
  }

  /** An accepted barcode is not one of a transfer that may come to hold it. */
  ghost predicate Careful(links: Links, f: Floor, s: Step) {
    s.Sort? && s.line in links.pickingOf && links.pickingOf[s.line] in f.pickings
    && !InUse(f, links.pickingOf[s.line], s.bin) ==>
      (Claims(f.pickings[links.pickingOf[s.line]]) ==> Unclaimed(f, links.pickingOf[s.line], s.bin))
  }

  /** Every careful step keeps the bins exclusive in whatever statuses. */
  lemma {:induction false} StepKeepsClaims(links: Links, f: Floor, s: Step, f': Floor)
    requires Next(links, f, s, f') && Careful(links, f, s) && ClaimsExclusive(f)
    ensures ClaimsExclusive(f')
  {
    match s
    case Sort(line, qty, bin) =>
      if !InUse(f, links.pickingOf[line], bin) {
        SortKeepsClaimsIff(links, f, line, qty, bin, f');
      }
    case Unsort(line, qty, bin) =>
      var own := links.pickingOf[line];
      if f.pickings[own].bins.Some? {
        BinsAfterRemove(f.pickings[own], bin, f'.pickings[own].bins.value);
        SmallerBins(f, f');
      }
    case _ =>
      SmallerBins(f, f');
  }

  lemma {:induction false} SmallerBins(f: Floor, f': Floor)
    requires ClaimsExclusive(f) && f'.pickings.Keys == f.pickings.Keys
    requires forall id :: id in f.pickings ==>
               && (Claims(f'.pickings[id]) ==> Claims(f.pickings[id]))
               && BinsOf(f'.pickings[id]) <= BinsOf(f.pickings[id])
    ensures ClaimsExclusive(f')
  {
    forall a, b | a in f'.pickings && b in f'.pickings && a != b && Claims(f'.pickings[a]) && Claims(f'.pickings[b])
      ensures BinsOf(f'.pickings[a]) !! BinsOf(f'.pickings[b])
    {
      assert BinsOf(f.pickings[a]) !! BinsOf(f.pickings[b]);
    }
  }

  lemma {:induction false} CarefulRun(links: Links, fs: seq<Floor>, steps: seq<Step>, n: nat)
    requires |fs| == |steps| + 1 && n <= |steps| && ClaimsExclusive(fs[0])
    requires forall i :: 0 <= i < |steps| ==> Careful(links, fs[i], steps[i]) && Next(links, fs[i], steps[i], fs[i + 1])
    ensures ClaimsExclusive(fs[n])
  {
    if n > 0 {
      CarefulRun(links, fs, steps, n - 1);
      StepKeepsClaims(links, fs[n - 1], steps[n - 1], fs[n]);
    }
  }

  /** Over every run of sort, unsort, label, clear and status steps, with any status changes, the bins are
      exclusive in whatever statuses at every point if and only if no accepted barcode is one of another
      transfer that may come to hold it. */
  lemma {:induction false} RunKeepsExclusive(links: Links, fs: seq<Floor>, steps: seq<Step>)
    requires |fs| == |steps| + 1 && AlwaysExclusive(fs[0])
    requires forall i :: 0 <= i < |steps| ==> Next(links, fs[i], steps[i], fs[i + 1])
    ensures (forall n :: 0 <= n < |fs| ==> AlwaysExclusive(fs[n]))
            <==> forall i :: 0 <= i < |steps| ==> Careful(links, fs[i], steps[i])
  {
    forall n | 0 <= n < |fs| ensures AlwaysExclusive(fs[n]) <==> ClaimsExclusive(fs[n]) {
      AlwaysExclusiveIff(fs[n]);
    }
    hide AlwaysExclusive, ClaimsExclusive, Careful;
    if forall i :: 0 <= i < |steps| ==> Careful(links, fs[i], steps[i]) {
      forall n | 0 <= n < |fs| ensures ClaimsExclusive(fs[n]) {
        CarefulRun(links, fs, steps, n);
      }
    }
    if forall n :: 0 <= n < |fs| ==> AlwaysExclusive(fs[n]) {
      forall i | 0 <= i < |steps| ensures Careful(links, fs[i], steps[i]) {
        assert AlwaysExclusive(fs[i]) && AlwaysExclusive(fs[i + 1]);
        KeptIsCareful(links, fs[i], steps[i], fs[i + 1]);
      }
    }
  }

  lemma {:induction false} KeptIsCareful(links: Links, f: Floor, s: Step, f': Floor)
    requires Next(links, f, s, f') && ClaimsExclusive(f) && ClaimsExclusive(f')
    ensures Careful(links, f, s)
  {
    if s.Sort? && !InUse(f, links.pickingOf[s.line], s.bin) {
      SortKeepsClaimsIff(links, f, s.line, s.qty, s.bin, f');
    }
  }

  /** Adding a bin and removing it again. */
  lemma {:induction false} AddThenRemove(p: Picking, bin: string, added: string, removed: string)
    requires PlainBarcode(bin) && bin !in BinsOf(p)
    requires BinAdded(p.bins, bin, added) && BinRemoved(added, bin, removed)
    ensures BinsOf(p.(bins := Some(removed))) == BinsOf(p)
  {
    SplitCommaFree(bin);
    assert BinsOf(p.(bins := Some(bin))) == {bin};
    BinsAfterAdd(p, bin, added);
    BinsAfterRemove(p.(bins := Some(added)), bin, removed);
  }

  /** An accepted sort and the unsort of the same barcode leave the bins as they were, when the
      transfer did not have the bin before. */
  lemma {:induction false} UnsortUndoesSort(links: Links, f: Floor, f1: Floor, f2: Floor, line: nat, qty: int, bin: string)
    requires PlainBarcode(bin) && line in f1.done
    requires Next(links, f, Sort(line, qty, bin), f1) && !InUse(f, links.pickingOf[line], bin)
    requires Next(links, f1, Unsort(line, qty, bin), f2)
    requires bin !in BinsOf(f.pickings[links.pickingOf[line]])
    ensures BinsOf(f2.pickings[links.pickingOf[line]]) == BinsOf(f.pickings[links.pickingOf[line]])
    ensures f2.done == f.done[line := 0]
  {
    hide BinsOf, InUse, BinAdded, BinRemoved, PlainBarcode;
    var own := links.pickingOf[line];
    var p, added, removed := f.pickings[own], f1.pickings[own].bins.value, f2.pickings[own].bins.value;
    AddThenRemove(p, bin, added, removed);
    assert f1.pickings[own] == p.(bins := Some(added));
    assert f2.pickings[own] == p.(bins := Some(removed));
  }

  // ------------------------------------------------------------------ inputs that break exclusivity

  /** A barcode with a comma is compared as a whole but stored as two bins: "A,B" is accepted while
      another order holds A. */
  lemma {:induction false} CommaBarcodeShared(links: Links, f': Floor)
    requires links.pickingOf == map[7 := 2]
    requires var f := Floor(map[1 := Picking(Out, Assigned, false, Some("A")), 2 := Picking(Out, Assigned, false, None)], map[]);
             Next(links, f, Sort(7, 1, "A,B"), f')
    ensures !Exclusive(f')
  {
    var f := Floor(map[1 := Picking(Out, Assigned, false, Some("A")), 2 := Picking(Out, Assigned, false, None)], map[]);
    SplitCommaFree("A");
    SplitCommaFree("B");
    SplitJoined("A", "B");
    assert "A" + "," + "B" == "A,B";
    assert Split("A,B") == ["A", "B"];
    assert !InUse(f, 2, "A,B");
    assert f'.pickings[2].bins == Some("A,B");
    assert "A" in Split("A,B") && "A" in BinsOf(f'.pickings[2]);
    assert "A" in Split("A") && "A" in BinsOf(f'.pickings[1]);
    assert f'.pickings[1] == f.pickings[1];
  }

  /** The check looks at done pick transfers only, so two pick transfers still being picked can be given
      the same bin, and both hold it once they are done. */
  lemma {:induction false} OpenPicksShareBin(links: Links, fs: seq<Floor>)
    requires links.pickingOf == map[7 := 1, 8 := 2] && |fs| == 5
    requires fs[0] == Floor(map[1 := Picking(Pick, Assigned, false, None), 2 := Picking(Pick, Assigned, false, None)], map[])
    requires Next(links, fs[0], Sort(7, 1, "A"), fs[1]) && Next(links, fs[1], Sort(8, 1, "A"), fs[2])
    requires Next(links, fs[2], ChangeStatus(1, Done), fs[3]) && Next(links, fs[3], ChangeStatus(2, Done), fs[4])
    ensures Exclusive(fs[0]) && !Exclusive(fs[4])
  {
    SplitCommaFree("A");
    assert "A" in Split("A");
    assert !InUse(fs[0], 1, "A") && !InUse(fs[1], 2, "A");
    assert fs[4].pickings[1] == Picking(Pick, Done, false, Some("A"));
    assert fs[4].pickings[2] == Picking(Pick, Done, false, Some("A"));
    assert "A" in BinsOf(fs[4].pickings[1]) && "A" in BinsOf(fs[4].pickings[2]);
  }
}
