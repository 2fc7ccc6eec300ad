/** Transfers of deliverable services, in hundredths of one unit: confirming one delivers what is done
    and plans the remainder. */
module ServiceTransfers {
  import Sequences

  datatype MoveState = Draft | Done | Cancelled

  datatype Move = Move(line: nat, picking: nat, planned: int, done: int, state: MoveState)

  datatype OrderLine = OrderLine(ordered: int, service: bool, delivered: int)

  /** The service side of a sale order: lines, the service moves of all transfers, the next transfer, and
      the largest quantity the zero tests of the unit of measure take for zero. */
  datatype Order = Order(lines: seq<OrderLine>, moves: seq<Move>, nextPicking: nat, tolerance: nat)

  datatype Outcome = Confirmed | ImmediateTransfer | Refused

  /** The unit's rounding is passed to the zero test as a number of digits: a rounding of 0.01 makes every
      quantity below half of 10 to the power -0.01, so up to 0.48, count as zero. */
  const HUNDREDTHS_TOLERANCE := 48

  predicate Negligible(q: int, tolerance: nat) { q <= tolerance && -q <= tolerance }

  function Max(a: int, b: int): int { if a < b then b else a }

  // ------------------------------------------------------------------ quantities of a line

  /** What a move takes of its line: the plan while draft, what is done when done. */
  function Takes(m: Move): int {
    match m.state case Draft => m.planned case Done => m.done case Cancelled => 0
  }

  /** `_get_assigned_service_qty` */
  function Assigned(ms: seq<Move>, line: nat): int {
    if ms == [] then 0 else (if ms[0].line == line then Takes(ms[0]) else 0) + Assigned(ms[1..], line)
  }

  function DoneOn(ms: seq<Move>, line: nat): int {
    if ms == [] then 0
    else (if ms[0].line == line && ms[0].state == Done then ms[0].done else 0) + DoneOn(ms[1..], line)
  }

  predicate HasMove(ms: seq<Move>, line: nat, picking: nat) {
    exists i :: 0 <= i < |ms| && ms[i].line == line && ms[i].picking == picking
  }

  predicate HasDraft(ms: seq<Move>, line: nat) {
    exists i :: 0 <= i < |ms| && ms[i].line == line && ms[i].state == Draft
  }

  // ------------------------------------------------------------------ done, cancel

  /** `action_done` of one draft move. */
  function Finish(m: Move, full: bool, tolerance: nat): Move {
    if !Negligible(m.done, tolerance) then m.(state := Done)
    else if full then m.(state := Done, done := m.planned)
    else m.(state := Cancelled)
  }

  function FinishOne(m: Move, picking: nat, full: bool, tolerance: nat): Move {
    if m.picking == picking && m.state == Draft then Finish(m, full, tolerance) else m
  }

  function FinishAll(ms: seq<Move>, picking: nat, full: bool, tolerance: nat): seq<Move> {
    if ms == [] then [] else [FinishOne(ms[0], picking, full, tolerance)] + FinishAll(ms[1..], picking, full, tolerance)
  }

  lemma {:induction false} FinishStep(ms: seq<Move>, k: nat, picking: nat, full: bool, tolerance: nat, before: seq<Move>)
    requires k < |ms|
    ensures before + FinishAll(ms[k..], picking, full, tolerance)
            == (before + [FinishOne(ms[k], picking, full, tolerance)]) + FinishAll(ms[k + 1..], picking, full, tolerance)
  {
    assert ms[k..][1..] == ms[k + 1..];
    Sequences.Regroup(before, [FinishOne(ms[k], picking, full, tolerance)], FinishAll(ms[k + 1..], picking, full, tolerance));
  }

  predicate Finishable(ms: seq<Move>, picking: nat) {
    forall i :: 0 <= i < |ms| && ms[i].picking == picking && ms[i].state == Draft ==> ms[i].done >= 0
  }

  /** Looking at one more move. */
  lemma {:induction false} FinishableNext(ms: seq<Move>, k: nat, picking: nat)
    requires k < |ms| && Finishable(ms[..k], picking)
    ensures Finishable(ms[..k + 1], picking) <==> !(ms[k].picking == picking && ms[k].state == Draft && ms[k].done < 0)
    ensures Finishable(ms, picking) ==> Finishable(ms[..k + 1], picking)
  {
    assert forall i :: 0 <= i < k ==> ms[..k][i] == ms[i] == ms[..k + 1][i];
    assert ms[..k + 1][k] == ms[k];
  }

  function CancelOne(m: Move, picking: nat, skipDone: bool): Move {
    if m.picking == picking && !(skipDone && m.state == Done) then m.(state := Cancelled) else m
  }

  function CancelAll(ms: seq<Move>, picking: nat, skipDone: bool): seq<Move> {
    if ms == [] then [] else [CancelOne(ms[0], picking, skipDone)] + CancelAll(ms[1..], picking, skipDone)
  }

  lemma {:induction false} CancelStep(ms: seq<Move>, k: nat, picking: nat, skipDone: bool, before: seq<Move>)
    requires k < |ms|
    ensures before + CancelAll(ms[k..], picking, skipDone)
            == (before + [CancelOne(ms[k], picking, skipDone)]) + CancelAll(ms[k + 1..], picking, skipDone)
  {
    assert ms[k..][1..] == ms[k + 1..];
    Sequences.Regroup(before, [CancelOne(ms[k], picking, skipDone)], CancelAll(ms[k + 1..], picking, skipDone));
  }

  /** `calculate_shipped_service_quantity` of the lines that have a move in the transfer. */
  function Delivered(lines: seq<OrderLine>, ms: seq<Move>, picking: nat): (r: seq<OrderLine>)
    ensures |r| == |lines|
  {
    seq(|lines|, i requires 0 <= i < |lines| =>
      if lines[i].service && HasMove(ms, i, picking) then lines[i].(delivered := DoneOn(ms, i)) else lines[i])
  }

  function DoneOrder(o: Order, picking: nat, full: bool): Order {
    var ms := FinishAll(o.moves, picking, full, o.tolerance);
    o.(moves := ms, lines := Delivered(o.lines, ms, picking))
  }

  function CancelledOrder(o: Order, picking: nat, skipDone: bool): Order {
    var ms := CancelAll(o.moves, picking, skipDone);
    o.(moves := ms, lines := Delivered(o.lines, ms, picking))
  }

  // ------------------------------------------------------------------ remainders

  predicate Short(o: Order, i: nat)
    requires i < |o.lines|
  {
    o.lines[i].service && Assigned(o.moves, i) < o.lines[i].ordered
  }

  predicate AnyShort(o: Order) {
    exists i :: 0 <= i < |o.lines| && Short(o, i)
  }

  /** `_get_stock_move_values` */
  function NewMove(o: Order, i: nat, picking: nat): Move
    requires i < |o.lines|
  {
    Move(i, picking, Max(o.lines[i].ordered - Assigned(o.moves, i), 0), 0, Draft)
  }

  /** The new move of a short line, if it gets one; a line with a draft move is passed over if reuse is set. */
  function MovesOf(o: Order, i: nat, picking: nat, reuse: bool): seq<Move>
    requires i < |o.lines|
  {
    if Short(o, i) && !(reuse && HasDraft(o.moves, i)) then [NewMove(o, i, picking)] else []
  }

  /** The new moves for the short lines from line i on. */
  function NewMoves(o: Order, i: nat, picking: nat, reuse: bool): seq<Move>
    requires i <= |o.lines|
    decreases |o.lines| - i
  {
    if i == |o.lines| then [] else MovesOf(o, i, picking, reuse) + NewMoves(o, i + 1, picking, reuse)
  }

  /** Creating the transfer that takes the remainders. */
  function WithRemainder(o: Order): Order {
    if AnyShort(o) then
      o.(moves := o.moves + NewMoves(o, 0, o.nextPicking, false), nextPicking := o.nextPicking + 1)
    else o
  }

  /** Some draft move of the transfer has a done quantity. */
  predicate HasDoneDraft(ms: seq<Move>, picking: nat) {
    exists i :: 0 <= i < |ms| && ms[i].picking == picking && ms[i].state == Draft && ms[i].done != 0
  }

  predicate NothingPlanned(ms: seq<Move>, picking: nat, tolerance: nat) {
    forall i :: 0 <= i < |ms| && ms[i].picking == picking ==> Negligible(ms[i].planned, tolerance)
  }

  /** What confirming answers: an empty or wholly unplanned transfer is refused, one with nothing done
      asks to do all of it at once, and a negative done quantity is refused. */
  function Answer(ms: seq<Move>, picking: nat, tolerance: nat): Outcome {
    if NothingPlanned(ms, picking, tolerance) then Refused
    else if !HasDoneDraft(ms, picking) then ImmediateTransfer
    else if Finishable(ms, picking) then Confirmed
    else Refused
  }

  // ------------------------------------------------------------------ the code

  class ServiceOrder {
    var order: Order

    constructor (order: Order)
      ensures this.order == order
    {
      this.order := order;
    }

    /** `action_done` of the draft moves of a transfer, and the delivered quantities; false when a
        done quantity is negative, which raises. */
    method ActionDone(picking: nat, full: bool) returns (ok: bool)
      modifies this
      ensures ok == Finishable(old(order).moves, picking)
      ensures order == if ok then DoneOrder(old(order), picking, full) else old(order)
    {
      var ms: seq<Move> := [];
      var k := 0;
      assert order.moves[..0] == [] && order.moves[0..] == order.moves;
      hide Finishable, Delivered;
      while k < |order.moves|
        invariant 0 <= k <= |order.moves| && order == old(order)
        invariant Finishable(order.moves[..k], picking)
        invariant FinishAll(order.moves, picking, full, order.tolerance)
                  == ms + FinishAll(order.moves[k..], picking, full, order.tolerance)
      {
        var m := order.moves[k];
        FinishStep(order.moves, k, picking, full, order.tolerance, ms);
        FinishableNext(order.moves, k, picking);
        if m.picking == picking && m.state == Draft {
          if m.done < 0 {
            return false;
          }
          m := m.(state := Done);
          if Negligible(m.done, order.tolerance) {
            if full {
              m := m.(done := m.planned);
            } else {
              m := m.(state := Cancelled);
            }
          }
        }
        ms := ms + [m];
        k := k + 1;
      }
      assert order.moves[..k] == order.moves;
      assert ms + FinishAll(order.moves[|order.moves|..], picking, full, order.tolerance) == ms;
      order := order.(moves := ms, lines := Delivered(order.lines, ms, picking));
      return true;
    }

    /** `action_confirm` of a transfer. */
    method ActionConfirm(picking: nat) returns (r: Outcome)
      modifies this
      ensures r == Answer(old(order).moves, picking, old(order).tolerance)
      ensures order == if r == Confirmed then WithRemainder(DoneOrder(old(order), picking, false)) else old(order)
    {
      var ms := order.moves;
      if NothingPlanned(ms, picking, order.tolerance) {
        return Refused;
      }
      if !HasDoneDraft(ms, picking) {
        return ImmediateTransfer;
      }
      var ok := ActionDone(picking, false);
      if !ok {
        return Refused;
      }
      if AnyShort(order) {
        var moves := NewMoves(order, 0, order.nextPicking, false);
        order := order.(moves := order.moves + moves, nextPicking := order.nextPicking + 1);
      }
      return Confirmed;
    }

    /** `action_cancel` of a transfer. */
    method ActionCancel(picking: nat, skipDone: bool)
      modifies this
      ensures order == CancelledOrder(old(order), picking, skipDone)
    {
      var ms: seq<Move> := [];
      var k := 0;
      while k < |order.moves|
        invariant 0 <= k <= |order.moves| && order == old(order)
        invariant CancelAll(order.moves, picking, skipDone) == ms + CancelAll(order.moves[k..], picking, skipDone)
      {
        var m := order.moves[k];
        CancelStep(order.moves, k, picking, skipDone, ms);
        if m.picking == picking && m.state != Cancelled && !(skipDone && m.state == Done) {
          m := m.(state := Cancelled);
        }
        ms := ms + [m];
        k := k + 1;
      }
      assert ms + CancelAll(order.moves[|order.moves|..], picking, skipDone) == ms;
      order := order.(moves := ms, lines := Delivered(order.lines, ms, picking));
    }

    /** `_action_generate_service_move`: new moves for the short lines that have no draft move. */
    method GenerateServiceMoves(picking: nat)
      modifies this
      ensures order == old(order).(moves := old(order).moves + NewMoves(old(order), 0, picking, true))
    {
      var added: seq<Move> := [];
      var i := 0;
      while i < |order.lines|
        invariant 0 <= i <= |order.lines| && order == old(order)
        invariant NewMoves(order, 0, picking, true) == added + NewMoves(order, i, picking, true)
      {
        Sequences.Regroup(added, MovesOf(order, i, picking, true), NewMoves(order, i + 1, picking, true));
        if Short(order, i) && !HasDraft(order.moves, i) {
          added := added + [NewMove(order, i, picking)];
        } else {
          assert added + [] == added;
        }
        i := i + 1;
      }
      assert added + NewMoves(order, |order.lines|, picking, true) == added;
      order := order.(moves := order.moves + added);
    }
  }

  // ------------------------------------------------------------------ what is assigned after a confirmation

  lemma {:induction false} AssignedAppend(a: seq<Move>, b: seq<Move>, line: nat)
    ensures Assigned(a + b, line) == Assigned(a, line) + Assigned(b, line)
    ensures DoneOn(a + b, line) == DoneOn(a, line) + DoneOn(b, line)
  {
    if a == [] {
      assert a + b == b;
    } else {
      assert (a + b)[1..] == a[1..] + b;
      AssignedAppend(a[1..], b, line);
    }
  }

  /** What confirming counts as done of a draft move. */
  function Counted(m: Move, tolerance: nat): int {
    if Negligible(m.done, tolerance) then 0 else m.done
  }

  /** What confirming a transfer adds to a line: done minus planned, over its draft moves. */
  function Surplus(ms: seq<Move>, picking: nat, line: nat, tolerance: nat): int {
    if ms == [] then 0
    else (if IsDraftOf(ms[0], picking, line) then Counted(ms[0], tolerance) - ms[0].planned else 0)
         + Surplus(ms[1..], picking, line, tolerance)
  }

  predicate IsDraftOf(m: Move, picking: nat, line: nat) { m.picking == picking && m.state == Draft && m.line == line }

  lemma {:induction false} FinishedAssigned(ms: seq<Move>, picking: nat, line: nat, tolerance: nat)
    ensures Assigned(FinishAll(ms, picking, false, tolerance), line) == Assigned(ms, line) + Surplus(ms, picking, line, tolerance)
  {
    if ms != [] {
      FinishedAssigned(ms[1..], picking, line, tolerance);
    }
  }

  lemma {:induction false} NewMoveAssigned(o: Order, i: nat, picking: nat, line: nat)
    requires i < |o.lines|
    ensures Assigned([NewMove(o, i, picking)], line) == if i == line then Max(o.lines[i].ordered - Assigned(o.moves, i), 0) else 0
    ensures DoneOn([NewMove(o, i, picking)], line) == 0
  {
    assert [NewMove(o, i, picking)][1..] == [];
  }

  lemma {:induction false} NewMovesAssigned(o: Order, i: nat, picking: nat, reuse: bool, line: nat)
    requires i <= |o.lines|
    ensures Assigned(NewMoves(o, i, picking, reuse), line) ==
            if i <= line < |o.lines| && Short(o, line) && !(reuse && HasDraft(o.moves, line))
            then o.lines[line].ordered - Assigned(o.moves, line) else 0
    ensures DoneOn(NewMoves(o, i, picking, reuse), line) == 0
    decreases |o.lines| - i
  {
    if i < |o.lines| {
      NewMovesAssigned(o, i + 1, picking, reuse, line);
      NewMoveAssigned(o, i, picking, line);
      hide Assigned, DoneOn, Short, HasDraft, NewMove;
      if Short(o, i) && !(reuse && HasDraft(o.moves, i)) {
        AssignedAppend([NewMove(o, i, picking)], NewMoves(o, i + 1, picking, reuse), line);
      } else {
        assert [] + NewMoves(o, i + 1, picking, reuse) == NewMoves(o, i + 1, picking, reuse);
      }
    }
  }

  lemma {:induction false} RemainderAssigned(o: Order, line: nat)
    requires line < |o.lines| && o.lines[line].service
    ensures Assigned(WithRemainder(o).moves, line) == Max(o.lines[line].ordered, Assigned(o.moves, line))
    ensures DoneOn(WithRemainder(o).moves, line) == DoneOn(o.moves, line)
  {
    if AnyShort(o) {
      var added := NewMoves(o, 0, o.nextPicking, false);
      AssignedAppend(o.moves, added, line);
      NewMovesAssigned(o, 0, o.nextPicking, false, line);
    } else {
      assert !Short(o, line);
    }
  }

  /** After every completed confirmation, done plus planned on each deliverable line is the larger of
      the ordered quantity and what was assigned before with the transfer's draft plans replaced by
      what counts as done. */
  lemma {:induction false} ConfirmedAssigned(o: Order, picking: nat, line: nat)
    requires line < |o.lines| && o.lines[line].service
    ensures Assigned(WithRemainder(DoneOrder(o, picking, false)).moves, line) ==
            Max(o.lines[line].ordered, Assigned(o.moves, line) + Surplus(o.moves, picking, line, o.tolerance))
  {
    FinishedAssigned(o.moves, picking, line, o.tolerance);
    RemainderAssigned(DoneOrder(o, picking, false), line);
  }

  /** It is the larger of ordered and previously assigned exactly when what counts as done is what the
      transfer planned for the line, or neither figure exceeds the order. */
  lemma {:induction false} ConfirmedKeepsAssignedIff(o: Order, picking: nat, line: nat)
    requires line < |o.lines| && o.lines[line].service
    ensures Assigned(WithRemainder(DoneOrder(o, picking, false)).moves, line) ==
            Max(o.lines[line].ordered, Assigned(o.moves, line))
            <==> Surplus(o.moves, picking, line, o.tolerance) == 0
                 || Max(Assigned(o.moves, line), Assigned(o.moves, line) + Surplus(o.moves, picking, line, o.tolerance))
                    <= o.lines[line].ordered
  {
    ConfirmedAssigned(o, picking, line);
  }

  /** One draft move on one line. */
  function OneMove(ordered: int, planned: int, done: int): Order {
    Order([OrderLine(ordered, true, 0)], [Move(0, 7, planned, done, Draft)], 8, HUNDREDTHS_TOLERANCE)
  }

  lemma {:induction false} OneMoveAssigned(ordered: int, planned: int, done: int)
    ensures var o := OneMove(ordered, planned, done);
            && Assigned(o.moves, 0) == planned
            && Assigned(WithRemainder(DoneOrder(o, 7, false)).moves, 0) ==
               Max(ordered, if Negligible(done, HUNDREDTHS_TOLERANCE) then 0 else done)
  {
    var o := OneMove(ordered, planned, done);
    assert o.moves[1..] == [];
    ConfirmedAssigned(o, 7, 0);
  }

  /** A line ordered down from 3.00 to 1.00, planned 3.00, done 2.00: afterwards 2.00 are assigned. And
      ordered 0.20, planned 1.00, done 0.40: afterwards 0.20 are, because what was done counts as nothing. */
  lemma {:induction false} OverAssignedIsGivenBack()
    ensures var o := OneMove(100, 300, 200);
            Assigned(WithRemainder(DoneOrder(o, 7, false)).moves, 0) == 200 < Max(100, Assigned(o.moves, 0))
    ensures Assigned(WithRemainder(DoneOrder(OneMove(20, 100, 40), 7, false)).moves, 0) == 20
  {
    OneMoveAssigned(100, 300, 200);
    OneMoveAssigned(20, 100, 40);
  }

  /** What the draft moves of a transfer have done of a line. */
  function DraftDone(ms: seq<Move>, picking: nat, line: nat): int {
    if ms == [] then 0
    else (if IsDraftOf(ms[0], picking, line) then ms[0].done else 0) + DraftDone(ms[1..], picking, line)
  }

  /** A done quantity of the line that is not zero but taken for zero. */
  ghost predicate LosesDone(ms: seq<Move>, picking: nat, line: nat, tolerance: nat) {
    exists i :: 0 <= i < |ms| && IsDraftOf(ms[i], picking, line) && ms[i].done != 0 && Negligible(ms[i].done, tolerance)
  }

  lemma {:induction false} FinishedDone(ms: seq<Move>, picking: nat, line: nat, tolerance: nat)
    requires Finishable(ms, picking)
    ensures var lost := DoneOn(ms, line) + DraftDone(ms, picking, line) - DoneOn(FinishAll(ms, picking, false, tolerance), line);
            lost >= 0 && (lost > 0 <==> LosesDone(ms, picking, line, tolerance))
  {
    if ms != [] {
      var rest := ms[1..];
      assert forall i :: 0 <= i < |rest| ==> rest[i] == ms[i + 1];
      FinishedDone(rest, picking, line, tolerance);
      if LosesDone(rest, picking, line, tolerance) {
        var i :| 0 <= i < |rest| && IsDraftOf(rest[i], picking, line) && rest[i].done != 0 && Negligible(rest[i].done, tolerance);
        assert IsDraftOf(ms[i + 1], picking, line);
      }
    }
  }

  /** A completed confirmation delivers what was done of a line exactly when no done quantity is taken for
      zero. */
  lemma {:induction false} ConfirmedDeliversIff(o: Order, picking: nat, line: nat)
    requires Answer(o.moves, picking, o.tolerance) == Confirmed && line < |o.lines| && o.lines[line].service
    ensures DoneOn(WithRemainder(DoneOrder(o, picking, false)).moves, line)
            == DoneOn(o.moves, line) + DraftDone(o.moves, picking, line)
            <==> !LosesDone(o.moves, picking, line, o.tolerance)
  {
    FinishedDone(o.moves, picking, line, o.tolerance);
    RemainderAssigned(DoneOrder(o, picking, false), line);
  }

  /** Generating moves again tops a line up to its order, except a short line that has a draft move. */
  lemma {:induction false} GeneratedAssigned(o: Order, picking: nat, line: nat)
    requires line < |o.lines| && o.lines[line].service
    ensures Assigned(o.moves + NewMoves(o, 0, picking, true), line) == Max(o.lines[line].ordered, Assigned(o.moves, line))
            <==> !(Short(o, line) && HasDraft(o.moves, line))
  {
    AssignedAppend(o.moves, NewMoves(o, 0, picking, true), line);
    NewMovesAssigned(o, 0, picking, true, line);
  }

  // ------------------------------------------------------------------ delivered quantities over runs

  /** The delivered quantity of each service line is the sum of its done moves. */
  ghost predicate DeliveredIsDone(o: Order) {
    forall i :: 0 <= i < |o.lines| && o.lines[i].service ==> o.lines[i].delivered == DoneOn(o.moves, i)
  }

  /** What may happen to an order between synchronisations. Edit is the user or a shipment changing the
      quantities of a draft move. */
  datatype Step = Confirm(picking: nat) | Immediate(picking: nat) | Cancel(picking: nat, skipDone: bool)
                | Generate(picking: nat) | Edit(move: nat, planned: int, done: int) | Reorder(line: nat, ordered: int)

  function After(o: Order, s: Step): Order {
    match s
    case Confirm(p) =>
      if Answer(o.moves, p, o.tolerance) == Confirmed then WithRemainder(DoneOrder(o, p, false)) else o
    case Immediate(p) => if Finishable(o.moves, p) then DoneOrder(o, p, true) else o
    case Cancel(p, skipDone) => CancelledOrder(o, p, skipDone)
    case Generate(p) => o.(moves := o.moves + NewMoves(o, 0, p, true))
    case Edit(i, planned, done) =>
      if i < |o.moves| && o.moves[i].state == Draft
      then o.(moves := o.moves[i := o.moves[i].(planned := planned, done := done)]) else o
    case Reorder(i, ordered) =>
      if i < |o.lines| then o.(lines := o.lines[i := o.lines[i].(ordered := ordered)]) else o
  }

  ghost predicate Run(orders: seq<Order>, steps: seq<Step>) {
    |orders| == |steps| + 1 && forall i :: 0 <= i < |steps| ==> orders[i + 1] == After(orders[i], steps[i])
  }

  lemma {:induction false} UntouchedLine(ms: seq<Move>, picking: nat, flag: bool, tolerance: nat, line: nat)
    requires !HasMove(ms, line, picking)
    ensures DoneOn(FinishAll(ms, picking, flag, tolerance), line) == DoneOn(ms, line)
    ensures DoneOn(CancelAll(ms, picking, flag), line) == DoneOn(ms, line)
  {
    if ms != [] {
      assert !(ms[0].line == line && ms[0].picking == picking);
      assert forall i :: 0 <= i < |ms[1..]| ==> ms[1..][i] == ms[i + 1];
      UntouchedLine(ms[1..], picking, flag, tolerance, line);
    }
  }

  lemma {:induction false} SamePlaces(ms: seq<Move>, picking: nat, flag: bool, tolerance: nat)
    ensures |FinishAll(ms, picking, flag, tolerance)| == |ms| == |CancelAll(ms, picking, flag)|
    ensures forall i :: 0 <= i < |ms| ==>
              && FinishAll(ms, picking, flag, tolerance)[i].line == ms[i].line
              && FinishAll(ms, picking, flag, tolerance)[i].picking == ms[i].picking
              && CancelAll(ms, picking, flag)[i].line == ms[i].line && CancelAll(ms, picking, flag)[i].picking == ms[i].picking
  {
    if ms != [] {
      SamePlaces(ms[1..], picking, flag, tolerance);
    }
  }

  lemma {:induction false} RecalculatedDelivered(o: Order, ms: seq<Move>, picking: nat, flag: bool)
    requires DeliveredIsDone(o)
    requires ms == FinishAll(o.moves, picking, flag, o.tolerance) || ms == CancelAll(o.moves, picking, flag)
    ensures DeliveredIsDone(o.(moves := ms, lines := Delivered(o.lines, ms, picking)))
  {
    SamePlaces(o.moves, picking, flag, o.tolerance);
    forall i | 0 <= i < |o.lines| && o.lines[i].service && !HasMove(ms, i, picking)
      ensures DoneOn(ms, i) == DoneOn(o.moves, i)
    {
      assert forall k :: 0 <= k < |ms| ==> ms[k].line == o.moves[k].line && ms[k].picking == o.moves[k].picking;
      UntouchedLine(o.moves, picking, flag, o.tolerance, i);
    }
  }

  lemma {:induction false} EditKeepsDone(ms: seq<Move>, i: nat, m: Move, line: nat)
    requires i < |ms| && ms[i].state == Draft && m.state == Draft
    ensures DoneOn(ms[i := m], line) == DoneOn(ms, line)
  {
    if i == 0 {
      assert ms[i := m][1..] == ms[1..];
    } else {
      assert ms[i := m][1..] == ms[1..][i - 1 := m];
      EditKeepsDone(ms[1..], i - 1, m, line);
    }
  }

  /** Every step keeps the delivered quantities right. */
  lemma {:induction false} StepKeepsDelivered(o: Order, s: Step)
    requires DeliveredIsDone(o)
    ensures DeliveredIsDone(After(o, s))
  {
    match s
    case Confirm(p) =>
      var done := DoneOrder(o, p, false);
      RecalculatedDelivered(o, done.moves, p, false);
      forall i | 0 <= i < |done.lines| && done.lines[i].service
        ensures DoneOn(WithRemainder(done).moves, i) == DoneOn(done.moves, i)
      {
        RemainderAssigned(done, i);
      }
    case Immediate(p) => RecalculatedDelivered(o, FinishAll(o.moves, p, true, o.tolerance), p, true);
    case Cancel(p, skipDone) => RecalculatedDelivered(o, CancelAll(o.moves, p, skipDone), p, skipDone);
    case Generate(p) =>
      forall i | 0 <= i < |o.lines| ensures DoneOn(o.moves + NewMoves(o, 0, p, true), i) == DoneOn(o.moves, i) {
        AssignedAppend(o.moves, NewMoves(o, 0, p, true), i);
        NewMovesAssigned(o, 0, p, true, i);
      }
    case Edit(k, planned, done) =>
      if k < |o.moves| && o.moves[k].state == Draft {
        forall i | 0 <= i < |o.lines|
          ensures DoneOn(o.moves[k := o.moves[k].(planned := planned, done := done)], i) == DoneOn(o.moves, i)
        {
          EditKeepsDone(o.moves, k, o.moves[k].(planned := planned, done := done), i);
        }
      }
    case Reorder(_, _) =>
  }

  /** Over every run, the delivered quantity of each service line equals the sum of its done moves. */
  lemma {:induction false} RunKeepsDelivered(orders: seq<Order>, steps: seq<Step>, n: nat)
    requires Run(orders, steps) && n <= |steps| && DeliveredIsDone(orders[0])
    ensures DeliveredIsDone(orders[n])
  {
    if n > 0 {
      RunKeepsDelivered(orders, steps, n - 1);
      hide DeliveredIsDone, After;
      StepKeepsDelivered(orders[n - 1], steps[n - 1]);
    }
  }

  function OfTransfer(ms: seq<Move>, picking: nat): seq<Move> {
    if ms == [] then [] else (if ms[0].picking == picking then [ms[0]] else []) + OfTransfer(ms[1..], picking)
  }

  /** Deleting a transfer cancels its moves one by one and deletes them, without recalculating. */
  function WithoutTransfer(ms: seq<Move>, picking: nat): seq<Move> {
    if ms == [] then [] else (if ms[0].picking == picking then [] else [ms[0]]) + WithoutTransfer(ms[1..], picking)
  }

  lemma {:induction false} TransferShare(ms: seq<Move>, picking: nat, line: nat)
    ensures DoneOn(ms, line) == DoneOn(OfTransfer(ms, picking), line) + DoneOn(WithoutTransfer(ms, picking), line)
  {
    if ms != [] {
      TransferShare(ms[1..], picking, line);
      assert [ms[0]][1..] == [];
      if ms[0].picking == picking {
        AssignedAppend([ms[0]], OfTransfer(ms[1..], picking), line);
        assert [] + WithoutTransfer(ms[1..], picking) == WithoutTransfer(ms[1..], picking);
      } else {
        AssignedAppend([ms[0]], WithoutTransfer(ms[1..], picking), line);
        assert [] + OfTransfer(ms[1..], picking) == OfTransfer(ms[1..], picking);
      }
    }
  }

  /** Deleting a transfer keeps the delivered quantities right exactly when its done moves amount to
      nothing on every service line. */
  lemma {:induction false} DeletedKeepsDeliveredIff(o: Order, picking: nat)
    requires DeliveredIsDone(o)
    ensures DeliveredIsDone(o.(moves := WithoutTransfer(o.moves, picking)))
            <==> forall i :: 0 <= i < |o.lines| && o.lines[i].service ==> DoneOn(OfTransfer(o.moves, picking), i) == 0
  {
    forall i | 0 <= i < |o.lines|
      ensures DoneOn(o.moves, i) == DoneOn(OfTransfer(o.moves, picking), i) + DoneOn(WithoutTransfer(o.moves, picking), i)
    {
      TransferShare(o.moves, picking, i);
    }
  }

  // ------------------------------------------------------------------ state of a transfer

  /** `_compute_state` */
  function StateOf(ms: seq<Move>, picking: nat): MoveState {
    if forall i :: 0 <= i < |ms| ==> ms[i].picking != picking then Draft
    else if forall i :: 0 <= i < |ms| && ms[i].picking == picking ==> ms[i].state == Cancelled then Cancelled
    else if forall i :: 0 <= i < |ms| && ms[i].picking == picking ==> ms[i].state != Draft then Done
    else Draft
  }

  lemma {:induction false} FinishAllAt(ms: seq<Move>, picking: nat, full: bool, tolerance: nat, i: nat)
    requires i < |ms|
    ensures |FinishAll(ms, picking, full, tolerance)| == |ms|
    ensures FinishAll(ms, picking, full, tolerance)[i] == FinishOne(ms[i], picking, full, tolerance)
  {
    SamePlaces(ms, picking, full, tolerance);
    if i > 0 {
      FinishAllAt(ms[1..], picking, full, tolerance, i - 1);
    }
  }

  lemma {:induction false} NewMovesElsewhere(o: Order, i: nat, picking: nat, reuse: bool)
    requires i <= |o.lines|
    ensures forall k :: 0 <= k < |NewMoves(o, i, picking, reuse)| ==> NewMoves(o, i, picking, reuse)[k].picking == picking
    decreases |o.lines| - i
  {
    if i < |o.lines| {
      NewMovesElsewhere(o, i + 1, picking, reuse);
    }
  }

  /** A move of the transfer is done already, or has a done quantity that counts. */
  predicate DeliversSome(ms: seq<Move>, picking: nat, tolerance: nat) {
    exists i :: 0 <= i < |ms| && ms[i].picking == picking
                && (ms[i].state == Done || (ms[i].state == Draft && !Negligible(ms[i].done, tolerance)))
  }

  /** Finished moves are done or cancelled, and moves of other transfers do not count. */
  lemma {:induction false} FinishedState(before: seq<Move>, after: seq<Move>, picking: nat, tolerance: nat)
    requires |before| <= |after| && exists i :: 0 <= i < |before| && before[i].picking == picking
    requires forall i :: 0 <= i < |before| ==> after[i] == FinishOne(before[i], picking, false, tolerance)
    requires forall i :: |before| <= i < |after| ==> after[i].picking != picking
    ensures StateOf(after, picking) == if DeliversSome(before, picking, tolerance) then Done else Cancelled
  {
    var k :| 0 <= k < |before| && before[k].picking == picking;
    assert after[k].picking == picking;
    if DeliversSome(before, picking, tolerance) {
      var i :| 0 <= i < |before| && before[i].picking == picking
               && (before[i].state == Done || (before[i].state == Draft && !Negligible(before[i].done, tolerance)));
      assert after[i].picking == picking && after[i].state == Done;
    }
  }

  /** A completed confirmation leaves the transfer done if some move delivers, and cancelled otherwise. */
  lemma {:induction false} ConfirmedState(o: Order, picking: nat)
    requires Answer(o.moves, picking, o.tolerance) == Confirmed && picking != o.nextPicking
    ensures StateOf(WithRemainder(DoneOrder(o, picking, false)).moves, picking) ==
            if DeliversSome(o.moves, picking, o.tolerance) then Done else Cancelled
  {
    var done := DoneOrder(o, picking, false);
    var after := WithRemainder(done).moves;
    hide NewMoves, StateOf, DeliversSome, Finishable, NothingPlanned;
    SamePlaces(o.moves, picking, false, o.tolerance);
    NewMovesElsewhere(done, 0, done.nextPicking, false);
    forall i | 0 <= i < |o.moves| ensures after[i] == FinishOne(o.moves[i], picking, false, o.tolerance) {
      FinishAllAt(o.moves, picking, false, o.tolerance, i);
    }
    FinishedState(o.moves, after, picking, o.tolerance);
  }

  /** Ordered 1.00, planned 1.00, done 0.40: confirming goes on, cancels the transfer and delivers nothing. */
  lemma {:induction false} SmallDoneIsCancelled()
    ensures var o := OneMove(100, 100, 40);
            var after := WithRemainder(DoneOrder(o, 7, false));
            && Answer(o.moves, 7, o.tolerance) == Confirmed
            && StateOf(after.moves, 7) == Cancelled && DoneOn(after.moves, 0) == 0
  {
    var o := OneMove(100, 100, 40);
    assert o.moves[0].picking == 7 && o.moves[0].done == 40 && o.moves[1..] == [];
    assert HasDoneDraft(o.moves, 7);
    ConfirmedState(o, 7);
    FinishedDone(o.moves, 7, 0, o.tolerance);
    RemainderAssigned(DoneOrder(o, 7, false), 0);
    assert FinishAll(o.moves, 7, false, o.tolerance) == [o.moves[0].(state := Cancelled)];
  }

  /** A transfer that plans 0.40 is refused as if it planned nothing. */
  lemma {:induction false} SmallPlanIsRefused(done: int)
    ensures Answer(OneMove(100, 40, done).moves, 7, HUNDREDTHS_TOLERANCE) == Refused
  {
    assert NothingPlanned(OneMove(100, 40, done).moves, 7, HUNDREDTHS_TOLERANCE);
  }
}
