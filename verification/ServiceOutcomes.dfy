/** What each step leaves of a service order, move by move and line by line, told from the fields of the moves. */
module ServiceOutcomes {
  import opened Sequences
  import opened ServiceTransfers

  // ------------------------------------------------------------------ in terms of the moves

  /** A quantity the zero test of the unit takes for zero. */
  predicate Small(q: int, tolerance: nat) { q <= tolerance && q + tolerance >= 0 }

  /** A draft move of the transfer. */
  predicate Open(m: Move, picking: nat) { m.picking == picking && m.state == Draft }

  /** What the moves take of a line: the plans of draft ones and what is done of done ones. */
  function TakenOf(ms: seq<Move>, line: nat): int {
    SumOf(ms, (m: Move) => if m.line != line then 0 else if m.state == Draft then m.planned else if m.state == Done then m.done else 0)
  }

  function DeliveredOf(ms: seq<Move>, line: nat): int {
    SumOf(ms, (m: Move) => if m.line == line && m.state == Done then m.done else 0)
  }

  lemma {:induction false} SumsAre(ms: seq<Move>, line: nat)
    ensures Assigned(ms, line) == TakenOf(ms, line) && DoneOn(ms, line) == DeliveredOf(ms, line)
  {
    if ms != [] {
      SumsAre(ms[1..], line);
    }
  }

  /** The lines after a step on a transfer: a service line with a move in it has delivered what its done moves now say,
      any other line is as it was. */
  ghost predicate LinesAre(o: Order, picking: nat, o': Order) {
    && |o'.lines| == |o.lines|
    && forall i :: 0 <= i < |o.lines| ==>
         o'.lines[i] == OrderLine(o.lines[i].ordered, o.lines[i].service,
                                  if o.lines[i].service && exists k :: 0 <= k < |o.moves| && o.moves[k].line == i && o.moves[k].picking == picking
                                  then DeliveredOf(o'.moves, i) else o.lines[i].delivered)
  }

  /** A service line whose first n moves take less than was ordered; with reuse, none of them a draft one. */
  ghost predicate Due(o: Order, n: nat, i: nat, reuse: bool)
    requires n <= |o.moves|
  {
    && i < |o.lines| && o.lines[i].service && TakenOf(o.moves[..n], i) < o.lines[i].ordered
    && !(reuse && exists k :: 0 <= k < n && o.moves[k].line == i && o.moves[k].state == Draft)
  }

  /** A draft move of the transfer for what is missing on the line. */
  ghost predicate Tops(o: Order, n: nat, k: nat, picking: nat, reuse: bool)
    requires n <= |o.moves| && k < |o.moves|
  {
    var m := o.moves[k];
    Due(o, n, m.line, reuse) && m == Move(m.line, picking, o.lines[m.line].ordered - TakenOf(o.moves[..n], m.line), 0, Draft)
  }

  ghost predicate OnLine(ms: seq<Move>, n: nat, i: nat) {
    exists k :: n <= k < |ms| && ms[k].line == i
  }

  /** After the first n, the moves are one for each such line, in the order of the lines. */
  ghost predicate Remainders(o: Order, n: nat, picking: nat, reuse: bool) {
    && n <= |o.moves|
    && (forall k :: n <= k < |o.moves| ==> Tops(o, n, k, picking, reuse))
    && (forall j, k :: n <= j < k < |o.moves| ==> o.moves[j].line < o.moves[k].line)
    && (forall i: nat :: Due(o, n, i, reuse) ==> OnLine(o.moves, n, i))
  }

  // ------------------------------------------------------------------ the new moves

  predicate Gets(o: Order, i: nat, reuse: bool) {
    i < |o.lines| && Short(o, i) && !(reuse && HasDraft(o.moves, i))
  }

  predicate TopsUp(o: Order, picking: nat, reuse: bool, m: Move) {
    Gets(o, m.line, reuse) && m == Move(m.line, picking, o.lines[m.line].ordered - Assigned(o.moves, m.line), 0, Draft)
  }

  /** The moves made for the lines from line i on. */
  ghost predicate MadeFrom(o: Order, i: nat, picking: nat, reuse: bool, ms: seq<Move>) {
    && (forall k :: 0 <= k < |ms| ==> i <= ms[k].line && TopsUp(o, picking, reuse, ms[k]))
    && (forall j, k :: 0 <= j < k < |ms| ==> ms[j].line < ms[k].line)
    && (forall l: nat :: i <= l && Gets(o, l, reuse) ==> OnLine(ms, 0, l))
  }

  lemma {:induction false} FirstMade(o: Order, i: nat, picking: nat, reuse: bool)
    requires i < |o.lines|
    ensures var first := MovesOf(o, i, picking, reuse);
            && |first| == (if Gets(o, i, reuse) then 1 else 0)
            && (Gets(o, i, reuse) ==> first[0].line == i && TopsUp(o, picking, reuse, first[0]))
  {
    hide HasDraft, Assigned;
  }

  lemma {:induction false} PutBefore(o: Order, i: nat, picking: nat, reuse: bool, first: seq<Move>, rest: seq<Move>)
    requires MadeFrom(o, i + 1, picking, reuse, rest) && |first| == (if Gets(o, i, reuse) then 1 else 0)
    requires Gets(o, i, reuse) ==> first[0].line == i && TopsUp(o, picking, reuse, first[0])
    ensures MadeFrom(o, i, picking, reuse, first + rest)
  {
    hide Gets, TopsUp;
    var ms := first + rest;
    assert forall k :: |first| <= k < |ms| ==> ms[k] == rest[k - |first|];
    forall l: nat | i <= l && Gets(o, l, reuse) ensures OnLine(ms, 0, l) {
      if l == i {
        assert ms[0].line == i;
      } else {
        assert OnLine(rest, 0, l);
        var k :| 0 <= k < |rest| && rest[k].line == l;
        assert ms[|first| + k].line == l;
      }
    }
  }

  lemma {:induction false} NewMovesMade(o: Order, i: nat, picking: nat, reuse: bool)
    requires i <= |o.lines|
    ensures MadeFrom(o, i, picking, reuse, NewMoves(o, i, picking, reuse))
    decreases |o.lines| - i
  {
    if i < |o.lines| {
      NewMovesMade(o, i + 1, picking, reuse);
      FirstMade(o, i, picking, reuse);
      PutBefore(o, i, picking, reuse, MovesOf(o, i, picking, reuse), NewMoves(o, i + 1, picking, reuse));
      hide MadeFrom, MovesOf;
    } else {
      hide Short, HasDraft, Assigned;
    }
  }

  lemma {:induction false} DueIff(o: Order, added: seq<Move>, i: nat, reuse: bool)
    ensures Due(o.(moves := o.moves + added), |o.moves|, i, reuse) <==> Gets(o, i, reuse)
  {
    SumsAre(o.moves, i);
    assert (o.moves + added)[..|o.moves|] == o.moves;
    assert forall k :: 0 <= k < |o.moves| ==> (o.moves + added)[k] == o.moves[k];
    hide TakenOf, Assigned;
  }

  lemma {:induction false} TopsIff(o: Order, added: seq<Move>, k: nat, picking: nat, reuse: bool)
    requires k < |added| && TopsUp(o, picking, reuse, added[k])
    ensures Tops(o.(moves := o.moves + added), |o.moves|, |o.moves| + k, picking, reuse)
  {
    DueIff(o, added, added[k].line, reuse);
    SumsAre(o.moves, added[k].line);
    assert (o.moves + added)[..|o.moves|] == o.moves;
    assert (o.moves + added)[|o.moves| + k] == added[k];
    DueIn(o.(moves := o.moves + added), |o.moves|, added[k].line, reuse);
    hide Due, Gets, TakenOf, Assigned;
  }

  lemma {:induction false} OnLineAfter(ms: seq<Move>, added: seq<Move>, i: nat)
    requires OnLine(added, 0, i)
    ensures OnLine(ms + added, |ms|, i)
  {
    var k :| 0 <= k < |added| && added[k].line == i;
    assert (ms + added)[|ms| + k].line == i;
  }

  lemma {:induction false} MadeAreRemainders(o: Order, picking: nat, reuse: bool, added: seq<Move>)
    requires MadeFrom(o, 0, picking, reuse, added)
    ensures Remainders(o.(moves := o.moves + added), |o.moves|, picking, reuse)
  {
    var o', n := o.(moves := o.moves + added), |o.moves|;
    hide Due, Gets, Tops, TopsUp, OnLine;
    forall k | n <= k < |o'.moves| ensures Tops(o', n, k, picking, reuse) {
      TopsIff(o, added, k - n, picking, reuse);
    }
    forall i: nat | Due(o', n, i, reuse) ensures OnLine(o'.moves, n, i) {
      DueIff(o, added, i, reuse);
      OnLineAfter(o.moves, added, i);
    }
    assert forall k :: n <= k < |o'.moves| ==> o'.moves[k] == added[k - n];
  }

  lemma {:induction false} AddedAreRemainders(o: Order, picking: nat, reuse: bool)
    ensures Remainders(o.(moves := o.moves + NewMoves(o, 0, picking, reuse)), |o.moves|, picking, reuse)
    ensures NewMoves(o, 0, picking, reuse) == [] <==> forall i: nat :: !Gets(o, i, reuse)
  {
    var added := NewMoves(o, 0, picking, reuse);
    NewMovesMade(o, 0, picking, reuse);
    MadeAreRemainders(o, picking, reuse, added);
    hide Remainders, NewMoves, Gets;
    if added != [] {
      assert TopsUp(o, picking, reuse, added[0]) && Gets(o, added[0].line, reuse);
    }
    if i: nat :| Gets(o, i, reuse) {
      assert OnLine(added, 0, i);
    }
  }

  lemma {:induction false} DueIn(o: Order, n: nat, i: nat, reuse: bool)
    requires n <= |o.moves| && Due(o, n, i, reuse)
    ensures i < |o.lines|
  {
  }

  // ------------------------------------------------------------------ finishing and cancelling

  lemma {:induction false} CancelAllAt(ms: seq<Move>, picking: nat, skipDone: bool, k: nat)
    requires k < |ms|
    ensures |CancelAll(ms, picking, skipDone)| == |ms|
    ensures CancelAll(ms, picking, skipDone)[k] == CancelOne(ms[k], picking, skipDone)
  {
    SamePlaces(ms, picking, skipDone, 0);
    if k > 0 {
      CancelAllAt(ms[1..], picking, skipDone, k - 1);
    }
  }

  lemma {:induction false} RecomputedLines(o: Order, picking: nat, ms: seq<Move>)
    requires |ms| == |o.moves| && forall k :: 0 <= k < |ms| ==> ms[k].line == o.moves[k].line && ms[k].picking == o.moves[k].picking
    ensures LinesAre(o, picking, o.(moves := ms, lines := Delivered(o.lines, ms, picking)))
  {
    forall i | 0 <= i < |o.lines|
      ensures DoneOn(ms, i) == DeliveredOf(ms, i)
      ensures HasMove(ms, i, picking) <==> exists k :: 0 <= k < |o.moves| && o.moves[k].line == i && o.moves[k].picking == picking
    {
      SumsAre(ms, i);
    }
    hide DoneOn, DeliveredOf, HasMove;
  }

  // ------------------------------------------------------------------ the steps

  ghost predicate Refuses(o: Order, picking: nat) {
    exists k :: 0 <= k < |o.moves| && Open(o.moves[k], picking) && o.moves[k].done < 0
  }

  /** Doing all of a transfer at once: raised by a negative quantity, and then nothing changes; else each of its draft
      moves is done, in full where nothing that counts was done, and no other move changes. */
  lemma {:induction false} ImmediateLeaves(o: Order, picking: nat)
    ensures var o' := After(o, Immediate(picking));
            if Refuses(o, picking) then o' == o
            else
              && |o'.moves| == |o.moves| && LinesAre(o, picking, o') && o'.nextPicking == o.nextPicking && o'.tolerance == o.tolerance
              && forall k :: 0 <= k < |o.moves| ==>
                   var m := o.moves[k];
                   o'.moves[k] == if !Open(m, picking) then m
                                  else m.(state := Done, done := if Small(m.done, o.tolerance) then m.planned else m.done)
  {
    var ms := FinishAll(o.moves, picking, true, o.tolerance);
    assert Refuses(o, picking) <==> !Finishable(o.moves, picking);
    SamePlaces(o.moves, picking, true, o.tolerance);
    forall k | 0 <= k < |o.moves| ensures ms[k] == FinishOne(o.moves[k], picking, true, o.tolerance) {
      FinishAllAt(o.moves, picking, true, o.tolerance, k);
    }
    RecomputedLines(o, picking, ms);
    hide LinesAre, FinishAll, Delivered, Finishable, Refuses;
  }

  /** Cancelling a transfer: all its moves are cancelled, but done ones stay done if they are to be skipped. */
  lemma {:induction false} CancelLeaves(o: Order, picking: nat, skipDone: bool)
    ensures var o' := After(o, Cancel(picking, skipDone));
            && |o'.moves| == |o.moves| && LinesAre(o, picking, o') && o'.nextPicking == o.nextPicking && o'.tolerance == o.tolerance
            && forall k :: 0 <= k < |o.moves| ==>
                 var m := o.moves[k];
                 o'.moves[k] == m.(state := if m.picking != picking then m.state
                                            else if skipDone && m.state == Done then Done else Cancelled)
  {
    var ms := CancelAll(o.moves, picking, skipDone);
    SamePlaces(o.moves, picking, skipDone, o.tolerance);
    forall k | 0 <= k < |o.moves| ensures ms[k] == CancelOne(o.moves[k], picking, skipDone) {
      CancelAllAt(o.moves, picking, skipDone, k);
    }
    RecomputedLines(o, picking, ms);
    hide LinesAre, CancelAll, Delivered;
  }

  /** A confirmation completes: a move of the transfer plans something that counts, a draft one has something done, and
      none a negative quantity. */
  ghost predicate Completes(o: Order, picking: nat) {
    && (exists k :: 0 <= k < |o.moves| && o.moves[k].picking == picking && !Small(o.moves[k].planned, o.tolerance))
    && (exists k :: 0 <= k < |o.moves| && Open(o.moves[k], picking) && o.moves[k].done != 0)
    && !Refuses(o, picking)
  }

  /** What confirming answers. */
  lemma {:induction false} AnswerIs(o: Order, picking: nat)
    ensures Answer(o.moves, picking, o.tolerance) == Confirmed <==> Completes(o, picking)
    ensures Answer(o.moves, picking, o.tolerance) == ImmediateTransfer <==>
            && (exists k :: 0 <= k < |o.moves| && o.moves[k].picking == picking && !Small(o.moves[k].planned, o.tolerance))
            && forall k :: 0 <= k < |o.moves| && Open(o.moves[k], picking) ==> o.moves[k].done == 0
  {
    assert HasDoneDraft(o.moves, picking) <==> exists k :: 0 <= k < |o.moves| && Open(o.moves[k], picking) && o.moves[k].done != 0;
  }

  /** Confirming a transfer changes nothing unless it completes. Then its draft moves are done, or cancelled where
      nothing that counts was done, and if a service line is still short a new transfer has one draft move for each
      such line, for what is missing. */
  lemma {:induction false} ConfirmLeaves(o: Order, picking: nat)
    ensures var o', n := After(o, Confirm(picking)), |o.moves|;
            if !Completes(o, picking) then o' == o
            else
              && n <= |o'.moves| && LinesAre(o, picking, o') && o'.tolerance == o.tolerance
              && (forall k :: 0 <= k < n ==>
                    var m := o.moves[k];
                    o'.moves[k] == m.(state := if !Open(m, picking) then m.state
                                               else if Small(m.done, o.tolerance) then Cancelled else Done))
              && Remainders(o', n, o.nextPicking, false)
              && o'.nextPicking == if |o'.moves| > n then o.nextPicking + 1 else o.nextPicking
  {
    AnswerIs(o, picking);
    if Completes(o, picking) {
      var done := DoneOrder(o, picking, false);
      SamePlaces(o.moves, picking, false, o.tolerance);
      forall k | 0 <= k < |o.moves| ensures done.moves[k] == FinishOne(o.moves[k], picking, false, o.tolerance) {
        FinishAllAt(o.moves, picking, false, o.tolerance, k);
      }
      RecomputedLines(o, picking, done.moves);
      RemainderLeaves(done);
      hide Completes, Answer, LinesAre, DoneOrder, WithRemainder, Remainders;
      StillLines(o, picking, done);
    }
  }

  lemma {:induction false} RemainderLeaves(o: Order)
    ensures var o', n := WithRemainder(o), |o.moves|;
            && n <= |o'.moves| && o'.moves[..n] == o.moves && o'.lines == o.lines && o'.tolerance == o.tolerance
            && Remainders(o', n, o.nextPicking, false)
            && o'.nextPicking == if |o'.moves| > n then o.nextPicking + 1 else o.nextPicking
  {
    var added := NewMoves(o, 0, o.nextPicking, false);
    AddedAreRemainders(o, o.nextPicking, false);
    assert AnyShort(o) <==> exists i: nat :: Gets(o, i, false) by {
      if i: nat :| Gets(o, i, false) {
        assert Short(o, i);
      }
      if i :| 0 <= i < |o.lines| && Short(o, i) {
        assert Gets(o, i, false);
      }
      hide NewMoves, Short;
    }
    hide Remainders, Gets, NewMoves, AnyShort;
    if added == [] {
      assert o.moves + added == o.moves;
    } else {
      RenumberedRemainders(o.(moves := o.moves + added), |o.moves|, o.nextPicking, o.nextPicking + 1);
    }
  }

  lemma {:induction false} RenumberedRemainders(o: Order, n: nat, picking: nat, next: nat)
    requires Remainders(o, n, picking, false)
    ensures Remainders(o.(nextPicking := next), n, picking, false)
  {
    hide TakenOf;
    var o' := o.(nextPicking := next);
    assert forall i: nat :: Due(o', n, i, false) <==> Due(o, n, i, false);
    forall k | n <= k < |o'.moves| ensures Tops(o', n, k, picking, false) {
      assert Tops(o, n, k, picking, false);
    }
  }

  /** The new draft moves deliver nothing. */
  lemma {:induction false} StillLines(o: Order, picking: nat, done: Order)
    requires LinesAre(o, picking, done)
    ensures LinesAre(o, picking, WithRemainder(done))
  {
    forall i | 0 <= i < |o.lines| && o.lines[i].service
      ensures DeliveredOf(WithRemainder(done).moves, i) == DeliveredOf(done.moves, i)
    {
      RemainderAssigned(done, i);
      SumsAre(done.moves, i);
      SumsAre(WithRemainder(done).moves, i);
    }
    hide DeliveredOf;
  }

  /** Generating moves: one draft move for each short service line that has none, for what is missing; nothing else
      changes. */
  lemma {:induction false} GenerateLeaves(o: Order, picking: nat)
    ensures var o', n := After(o, Generate(picking)), |o.moves|;
            && Remainders(o', n, picking, true) && o'.moves[..n] == o.moves && o' == o.(moves := o'.moves)
  {
    AddedAreRemainders(o, picking, true);
    hide Remainders, NewMoves;
  }

  /** Editing changes the quantities of a draft move alone, and reordering the ordered quantity of a line alone. */
  lemma {:induction false} EditLeaves(o: Order, i: nat, planned: int, done: int, ordered: int)
    ensures var o' := After(o, Edit(i, planned, done));
            && o' == o.(moves := o'.moves) && |o'.moves| == |o.moves|
            && forall k :: 0 <= k < |o.moves| ==>
                 o'.moves[k] == if k == i && o.moves[k].state == Draft then o.moves[k].(planned := planned, done := done) else o.moves[k]
    ensures var o' := After(o, Reorder(i, ordered));
            && o' == o.(lines := o'.lines) && |o'.lines| == |o.lines|
            && forall k :: 0 <= k < |o.lines| ==>
                 o'.lines[k] == if k == i then o.lines[k].(ordered := ordered) else o.lines[k]
  {
  }

  /** A transfer is draft while it has no move or a draft one, and cancelled if it has only cancelled ones. */
  lemma {:induction false} StateIs(ms: seq<Move>, picking: nat)
    ensures StateOf(ms, picking) == Draft <==>
            (forall k :: 0 <= k < |ms| ==> ms[k].picking != picking) || exists k :: 0 <= k < |ms| && Open(ms[k], picking)
    ensures StateOf(ms, picking) == Cancelled <==>
            && (exists k :: 0 <= k < |ms| && ms[k].picking == picking)
            && forall k :: 0 <= k < |ms| && ms[k].picking == picking ==> ms[k].state == Cancelled
  {
    if k :| 0 <= k < |ms| && Open(ms[k], picking) {
      assert ms[k].picking == picking && ms[k].state == Draft;
    }
  }

  /** A cancelled transfer is cancelled, or done if a done move was skipped. */
  lemma {:induction false} CancelledState(o: Order, picking: nat, skipDone: bool)
    requires exists k :: 0 <= k < |o.moves| && o.moves[k].picking == picking
    ensures StateOf(After(o, Cancel(picking, skipDone)).moves, picking) ==
            if skipDone && exists k :: 0 <= k < |o.moves| && o.moves[k].picking == picking && o.moves[k].state == Done then Done
            else Cancelled
  {
    CancelLeaves(o, picking, skipDone);
    var ms := After(o, Cancel(picking, skipDone)).moves;
    var k :| 0 <= k < |o.moves| && o.moves[k].picking == picking;
    assert ms[k].picking == picking;
    if i :| 0 <= i < |o.moves| && o.moves[i].picking == picking && o.moves[i].state == Done {
      assert ms[i].picking == picking;
    }
    hide After, LinesAre;
  }
}
