/** The queue of single-item pickings shared by packers: rows are put in when a picking is done and
    taken out by the packer who scans its product. */
module PackingQueue {
  import opened Options

  datatype Row = Row(product: nat, picking: nat, warehouse: nat, date: int)

  /** The product of the first move of each pick transfer, the barcode of each product, and the pick
      transfers each shipping transfer comes from. */
  datatype Config = Config(firstProduct: map<nat, nat>, barcodeOf: map<nat, string>, originsOf: map<nat, seq<nat>>)

  /** A done transfer as `_action_done` sees it. */
  datatype Done = DonePick(picking: nat, warehouse: nat, date: int) | DoneOut(shipping: nat)

  /** rows is the table by row id; what became of every row ever inserted is kept beside it: handed
      (and to whom), discarded because it has no destination, or removed. */
  datatype Queue = Queue(rows: map<nat, Row>, nextId: nat, inserted: set<nat>,
                         handed: map<nat, nat>, discarded: set<nat>, removed: set<nat>)

  const EMPTY := Queue(map[], 0, {}, map[], {}, {})

  // ------------------------------------------------------------------ steps

  /** `_action_done` for single transfers; `insert_record`; `unhold_picking` with the done single pick
      transfers; `get_picking` by a packer while the rows in busy are locked by other transactions,
      withDest being the pickings that have one. */
  datatype Step = Complete(done: seq<Done>, keepQueue: bool)
                | Insert(shipping: nat, warehouse: nat, date: int)
                | Unhold(shipping: nat, singles: set<nat>, warehouse: nat, date: int)
                | Get(packer: nat, barcode: string, warehouse: nat, busy: set<nat>, withDest: set<nat>)

  predicate Queued(q: Queue, picking: nat) {
    exists id :: id in q.rows && q.rows[id].picking == picking
  }

  function Put(q: Queue, row: Row): Queue {
    q.(rows := q.rows[q.nextId := row], nextId := q.nextId + 1, inserted := q.inserted + {q.nextId})
  }

  /** Rows for the done pick transfers; queued is what the search found before. */
  function PutDone(cfg: Config, q: Queue, done: seq<Done>, queued: set<nat>): Queue
    decreases |done|
  {
    if done == [] then q
    else
      var d := done[0];
      var q' := if d.DonePick? && d.picking !in queued && d.picking in cfg.firstProduct
                then Put(q, Row(cfg.firstProduct[d.picking], d.picking, d.warehouse, d.date)) else q;
      PutDone(cfg, q', done[1..], queued)
  }

  function QueuedAmong(q: Queue, done: seq<Done>): set<nat> {
    set d | d in done && d.DonePick? && Queued(q, d.picking) :: d.picking
  }

  function OriginsOfDone(cfg: Config, done: seq<Done>): set<nat> {
    set d, p | d in done && d.DoneOut? && d.shipping in cfg.originsOf && p in cfg.originsOf[d.shipping] :: p
  }

  function RowsOf(q: Queue, pickings: set<nat>): set<nat> {
    set id | id in q.rows && q.rows[id].picking in pickings
  }

  function Remove(q: Queue, ids: set<nat>): Queue {
    q.(rows := q.rows - ids, removed := q.removed + ids)
  }

  function Completed(cfg: Config, q: Queue, done: seq<Done>, keepQueue: bool): Queue {
    var q1 := PutDone(cfg, q, done, QueuedAmong(q, done));
    if keepQueue then q1 else Remove(q1, RowsOf(q1, OriginsOfDone(cfg, done)))
  }

  /** The picking `insert_record` queues: the first one the shipping transfer comes from. */
  predicate Insertable(cfg: Config, shipping: nat) {
    shipping in cfg.originsOf && cfg.originsOf[shipping] != [] && cfg.originsOf[shipping][0] in cfg.firstProduct
  }

  function Origins(cfg: Config, shipping: nat): seq<nat> {
    if shipping in cfg.originsOf then cfg.originsOf[shipping] else []
  }

  /** The row `insert_record` makes, whichever pick transfer it is called for. */
  function RowFor(cfg: Config, shipping: nat, warehouse: nat, date: int): Row
    requires Insertable(cfg, shipping)
  {
    var p := cfg.originsOf[shipping][0];
    Row(cfg.firstProduct[p], p, warehouse, date)
  }

  /** A pick transfer of a shipping transfer has a move, so a first product. */
  predicate HaveProducts(cfg: Config, shipping: nat) {
    forall p :: p in Origins(cfg, shipping) ==> p in cfg.firstProduct
  }

  /** unique(product_id, picking_id) */
  predicate Violates(q: Queue, row: Row) {
    exists id :: id in q.rows && q.rows[id].product == row.product && q.rows[id].picking == row.picking
  }

  /** The loop of `unhold_picking` over the pick transfers: it puts the row in once for each that is done
      and single, and raises when the constraint refuses it. */
  function PutFor(q: Queue, picks: seq<nat>, singles: set<nat>, row: Row): Option<Queue>
    decreases |picks|
  {
    if picks == [] then Some(q)
    else if picks[0] !in singles then PutFor(q, picks[1..], singles, row)
    else if Violates(q, row) then None
    else PutFor(Put(q, row), picks[1..], singles, row)
  }

  function Unheld(cfg: Config, q: Queue, shipping: nat, singles: set<nat>, warehouse: nat, date: int): Option<Queue>
    requires HaveProducts(cfg, shipping)
  {
    if Origins(cfg, shipping) == [] then Some(q)
    else PutFor(q, Origins(cfg, shipping), singles, RowFor(cfg, shipping, warehouse, date))
  }

  function Matching(cfg: Config, q: Queue, barcode: string, warehouse: nat, busy: set<nat>): set<nat> {
    set id | id in q.rows && id !in busy && q.rows[id].warehouse == warehouse
             && q.rows[id].product in cfg.barcodeOf && cfg.barcodeOf[q.rows[id].product] == barcode
  }

  /** What a pop does to the matching rows: dropped rows have no destination; the row taken has one
      and is dated no later than any other matching row that is left, no earlier than those dropped;
      if none is taken all are dropped. */
  ghost predicate Popped(q: Queue, matching: set<nat>, withDest: set<nat>, taken: Option<nat>, dropped: set<nat>) {
    && matching <= q.rows.Keys && dropped <= matching
    && (forall id :: id in dropped ==> q.rows[id].picking !in withDest)
    && (taken.None? ==> dropped == matching)
    && (taken.Some? ==>
          && taken.value in matching && q.rows[taken.value].picking in withDest
          && (forall id :: id in dropped ==> q.rows[id].date <= q.rows[taken.value].date)
          && (forall id :: id in matching && id !in dropped ==> q.rows[taken.value].date <= q.rows[id].date))
  }

  function Take(q: Queue, packer: nat, taken: Option<nat>, dropped: set<nat>): Queue {
    var gone := dropped + if taken.Some? then {taken.value} else {};
    q.(rows := q.rows - gone, discarded := q.discarded + dropped,
       handed := if taken.Some? then q.handed[taken.value := packer] else q.handed)
  }

  ghost predicate Next(cfg: Config, q: Queue, s: Step, q': Queue) {
    match s
    case Complete(done, keepQueue) => q' == Completed(cfg, q, done, keepQueue)
    case Insert(shipping, warehouse, date) =>
      && Insertable(cfg, shipping)
      && var row := RowFor(cfg, shipping, warehouse, date);
         q' == if Violates(q, row) then q else Put(q, row)
    case Unhold(shipping, singles, warehouse, date) =>
      && HaveProducts(cfg, shipping)
      && var unheld := Unheld(cfg, q, shipping, singles, warehouse, date);
         q' == if unheld.Some? then unheld.value else q
    case Get(packer, barcode, warehouse, busy, withDest) =>
      exists taken, dropped :: Popped(q, Matching(cfg, q, barcode, warehouse, busy), withDest, taken, dropped)
                               && q' == Take(q, packer, taken, dropped)
  }

  // ------------------------------------------------------------------ the code

  class SinglePackingQueue {
    const cfg: Config
    var q: Queue

    constructor (cfg: Config)
      ensures this.cfg == cfg && q == EMPTY
    {
      this.cfg, q := cfg, EMPTY;
    }

    /** `_action_done` of the transfers, for the single ones among them that are done. */
    method ActionDone(done: seq<Done>, keepQueue: bool)
      modifies this
      ensures Next(cfg, old(q), Complete(done, keepQueue), q)
    {
      var queued := QueuedAmong(q, done);
      var k := 0;
      while k < |done|
        invariant 0 <= k <= |done|
        invariant PutDone(cfg, q, done[k..], queued) == PutDone(cfg, old(q), done, queued)
      {
        var d := done[k];
        assert done[k..][1..] == done[k + 1..];
        if d.DonePick? && d.picking !in queued && d.picking in cfg.firstProduct {
          q := Put(q, Row(cfg.firstProduct[d.picking], d.picking, d.warehouse, d.date));
        }
        k := k + 1;
      }
      if !keepQueue {
        q := Remove(q, RowsOf(q, OriginsOfDone(cfg, done)));
      }
    }

    /** `insert_record`; false when the constraint refuses the row. */
    method InsertRecord(shipping: nat, warehouse: nat, date: int) returns (ok: bool)
      requires Insertable(cfg, shipping)
      modifies this
      ensures Next(cfg, old(q), Insert(shipping, warehouse, date), q)
      ensures ok == !Violates(old(q), RowFor(cfg, shipping, warehouse, date))
      ensures q == if ok then Put(old(q), RowFor(cfg, shipping, warehouse, date)) else old(q)
    {
      var row := RowFor(cfg, shipping, warehouse, date);
      if Violates(q, row) {
        return false;
      }
      q := Put(q, row);
      return true;
    }

    /** `unhold_picking`, singles being the pick transfers that are done and single; false when it raises,
        which undoes every insertion. */
    method UnholdPicking(shipping: nat, singles: set<nat>, warehouse: nat, date: int) returns (ok: bool)
      requires HaveProducts(cfg, shipping)
      modifies this
      ensures ok == Unheld(cfg, old(q), shipping, singles, warehouse, date).Some?
      ensures Next(cfg, old(q), Unhold(shipping, singles, warehouse, date), q)
    {
      var picks, before := Origins(cfg, shipping), q;
      ghost var unheld := Unheld(cfg, q, shipping, singles, warehouse, date);
      var k := 0;
      while k < |picks|
        invariant 0 <= k <= |picks|
        invariant picks == [] ==> q == before
        invariant picks != [] ==> PutFor(q, picks[k..], singles, RowFor(cfg, shipping, warehouse, date)) == unheld
      {
        assert picks[k..][1..] == picks[k + 1..];
        if picks[k] in singles {
          ok := InsertRecord(shipping, warehouse, date);
          if !ok {
            q := before;
            return;
          }
        }
        k := k + 1;
      }
      return true;
    }

    /** One row of the subquery: earliest date first. */
    method Earliest(ids: set<nat>) returns (id: nat)
      requires ids != {} && ids <= q.rows.Keys
      ensures id in ids && forall j :: j in ids ==> q.rows[id].date <= q.rows[j].date
    {
      id :| id in ids;
      var rest := ids - {id};
      while rest != {}
        invariant id in ids && rest <= ids
        invariant forall j :: j in ids && j !in rest ==> q.rows[id].date <= q.rows[j].date
        decreases |rest|
      {
        var j :| j in rest;
        rest := rest - {j};
        if q.rows[j].date < q.rows[id].date {
          id := j;
        }
      }
    }

    /** `get_picking`: pop rows until one has a destination; None is its False. */
    method GetPicking(packer: nat, barcode: string, warehouse: nat, busy: set<nat>, withDest: set<nat>)
      returns (picking: Option<nat>)
      modifies this
      ensures Next(cfg, old(q), Get(packer, barcode, warehouse, busy, withDest), q)
      ensures picking.Some? ==> exists id :: id in old(q).rows && old(q).rows[id].picking == picking.value
                                             && q.handed == old(q).handed[id := packer]
      ensures picking.None? ==> q.handed == old(q).handed
    {
      ghost var q0, dropped: set<nat> := q, {};
      ghost var matching := Matching(cfg, q, barcode, warehouse, busy);
      PopStarts(q0, matching, withDest, packer);
      while true
        invariant SoFar(q0, matching, withDest, dropped) && q == Take(q0, packer, None, dropped)
        decreases |q.rows|
      {
        var left := Matching(cfg, q, barcode, warehouse, busy);
        LeftAre(cfg, q0, packer, barcode, warehouse, busy, dropped);
        if left == {} {
          PopEnds(cfg, q0, packer, barcode, warehouse, busy, withDest, dropped);
          return None;
        }
        var id := Earliest(left);
        var row := q.rows[id];
        FewerRows(q.rows, id);
        if row.picking in withDest {
          PopTakes(cfg, q0, packer, barcode, warehouse, busy, withDest, dropped, id);
          q := q.(rows := q.rows - {id}, handed := q.handed[id := packer]);
          return Some(row.picking);
        }
        PopDrops(q0, matching, withDest, dropped, id, packer);
        q := q.(rows := q.rows - {id}, discarded := q.discarded + {id});
        dropped := dropped + {id};
      }
    }
  }

  /** The loop has dropped rows without destination, none dated later than a matching row left. */
  ghost predicate SoFar(q: Queue, matching: set<nat>, withDest: set<nat>, dropped: set<nat>) {
    && matching <= q.rows.Keys && dropped <= matching
    && (forall id :: id in dropped ==> q.rows[id].picking !in withDest)
    && (forall i, j :: i in dropped && j in matching && j !in dropped ==> q.rows[i].date <= q.rows[j].date)
  }

  lemma {:induction false} FewerRows(rows: map<nat, Row>, id: nat)
    requires id in rows
    ensures |rows - {id}| < |rows|
  {
    assert (rows - {id}).Keys == rows.Keys - {id};
    assert |rows.Keys - {id}| == |rows.Keys| - 1;
    assert |(rows - {id}).Keys| == |rows - {id}| && |rows.Keys| == |rows|;
  }

  lemma {:induction false} PopStarts(q: Queue, matching: set<nat>, withDest: set<nat>, packer: nat)
    requires matching <= q.rows.Keys
    ensures SoFar(q, matching, withDest, {}) && Take(q, packer, None, {}) == q
  {
    assert q.rows - {} == q.rows && q.discarded + {} == q.discarded;
  }

  /** The rows that match after some were dropped. */
  lemma {:induction false} LeftAre(cfg: Config, q: Queue, packer: nat, barcode: string, warehouse: nat, busy: set<nat>,
                                   dropped: set<nat>)
    ensures Matching(cfg, Take(q, packer, None, dropped), barcode, warehouse, busy)
            == Matching(cfg, q, barcode, warehouse, busy) - dropped
  {
  }

  lemma {:induction false} PopEnds(cfg: Config, q: Queue, packer: nat, barcode: string, warehouse: nat, busy: set<nat>,
                                   withDest: set<nat>, dropped: set<nat>)
    requires SoFar(q, Matching(cfg, q, barcode, warehouse, busy), withDest, dropped)
    requires Matching(cfg, q, barcode, warehouse, busy) - dropped == {}
    ensures Next(cfg, q, Get(packer, barcode, warehouse, busy, withDest), Take(q, packer, None, dropped))
    ensures Take(q, packer, None, dropped).handed == q.handed
  {
    var matching := Matching(cfg, q, barcode, warehouse, busy);
    forall x | x in matching ensures x in dropped {
      assert x !in matching - dropped;
    }
    assert dropped == matching;
    assert Popped(q, matching, withDest, None, dropped);
  }

  lemma {:induction false} PopTakes(cfg: Config, q: Queue, packer: nat, barcode: string, warehouse: nat, busy: set<nat>,
                                    withDest: set<nat>, dropped: set<nat>, id: nat)
    requires SoFar(q, Matching(cfg, q, barcode, warehouse, busy), withDest, dropped)
    requires id in Matching(cfg, q, barcode, warehouse, busy) - dropped && q.rows[id].picking in withDest
    requires forall j :: j in Matching(cfg, q, barcode, warehouse, busy) - dropped ==> q.rows[id].date <= q.rows[j].date
    ensures var t := Take(q, packer, None, dropped);
            var q' := t.(rows := t.rows - {id}, handed := t.handed[id := packer]);
            && Next(cfg, q, Get(packer, barcode, warehouse, busy, withDest), q')
            && q'.handed == q.handed[id := packer]
  {
    var t := Take(q, packer, None, dropped);
    var q' := t.(rows := t.rows - {id}, handed := t.handed[id := packer]);
    assert q.rows - (dropped + {}) - {id} == q.rows - (dropped + {id});
    assert q' == Take(q, packer, Some(id), dropped);
    assert Popped(q, Matching(cfg, q, barcode, warehouse, busy), withDest, Some(id), dropped);
    assert id in q.rows && q'.handed == q.handed[id := packer];
  }

  lemma {:induction false} PopDrops(q: Queue, matching: set<nat>, withDest: set<nat>, dropped: set<nat>, id: nat, packer: nat)
    requires SoFar(q, matching, withDest, dropped) && id in matching - dropped
    requires forall j :: j in matching - dropped ==> q.rows[id].date <= q.rows[j].date
    requires q.rows[id].picking !in withDest
    ensures SoFar(q, matching, withDest, dropped + {id})
    ensures var t := Take(q, packer, None, dropped);
            Take(q, packer, None, dropped + {id}) == t.(rows := t.rows - {id}, discarded := t.discarded + {id})
  {
    assert q.rows - (dropped + {}) - {id} == q.rows - (dropped + {id} + {});
    assert q.discarded + dropped + {id} == q.discarded + (dropped + {id});
  }

  // ------------------------------------------------------------------ invariant

  /** Every row ever inserted is at exactly one place, rows are of distinct pickings, and a row's
      product is the one of its picking. */
  ghost predicate Inv(cfg: Config, q: Queue) {
    && q.inserted == q.rows.Keys + q.handed.Keys + q.discarded + q.removed
    && q.rows.Keys !! q.handed.Keys && q.rows.Keys !! q.discarded && q.rows.Keys !! q.removed
    && q.handed.Keys !! q.discarded && q.handed.Keys !! q.removed && q.discarded !! q.removed
    && (forall id :: id in q.inserted ==> id < q.nextId)
    && OneRowEach(q)
    && (forall id :: id in q.rows ==>
          q.rows[id].picking in cfg.firstProduct && q.rows[id].product == cfg.firstProduct[q.rows[id].picking])
  }

  ghost predicate OneRowEach(q: Queue) {
    forall a, b :: a in q.rows && b in q.rows && a != b ==> q.rows[a].picking != q.rows[b].picking
  }

  lemma {:induction false} PutKeepsInv(cfg: Config, q: Queue, row: Row)
    requires Inv(cfg, q) && row.picking in cfg.firstProduct && row.product == cfg.firstProduct[row.picking]
    requires !Queued(q, row.picking)
    ensures Inv(cfg, Put(q, row))
  {
    assert q.nextId !in q.inserted;
  }

  lemma {:induction false} PutDoneKeepsInv(cfg: Config, q: Queue, done: seq<Done>, queued: set<nat>)
    requires Inv(cfg, q)
    requires forall i, j :: 0 <= i < j < |done| && done[i].DonePick? && done[j].DonePick? ==> done[i].picking != done[j].picking
    requires forall i :: 0 <= i < |done| && done[i].DonePick? && done[i].picking !in queued ==> !Queued(q, done[i].picking)
    ensures Inv(cfg, PutDone(cfg, q, done, queued))
    decreases |done|
  {
    if done != [] {
      var d, rest := done[0], done[1..];
      assert forall i :: 0 <= i < |rest| ==> rest[i] == done[i + 1];
      if d.DonePick? && d.picking !in queued && d.picking in cfg.firstProduct {
        var row := Row(cfg.firstProduct[d.picking], d.picking, d.warehouse, d.date);
        PutKeepsInv(cfg, q, row);
        forall i | 0 <= i < |rest| && rest[i].DonePick? && rest[i].picking !in queued
          ensures !Queued(Put(q, row), rest[i].picking)
        {
          assert done[i + 1].picking != d.picking;
        }
        PutDoneKeepsInv(cfg, Put(q, row), rest, queued);
      } else {
        PutDoneKeepsInv(cfg, q, rest, queued);
      }
    }
  }

  /** A batch of done transfers names each transfer once, as a record set does. */
  ghost predicate RecordSet(s: Step) {
    s.Complete? ==>
      forall i, j :: 0 <= i < j < |s.done| && s.done[i].DonePick? && s.done[j].DonePick? ==> s.done[i].picking != s.done[j].picking
  }

  lemma {:induction false} TakeKeepsInv(cfg: Config, q: Queue, matching: set<nat>, withDest: set<nat>,
                                        packer: nat, taken: Option<nat>, dropped: set<nat>)
    requires Inv(cfg, q) && Popped(q, matching, withDest, taken, dropped)
    ensures Inv(cfg, Take(q, packer, taken, dropped))
  {
    assert taken.Some? ==> taken.value !in dropped;
  }

  /** Every step keeps the invariant. */
  lemma {:induction false} StepKeepsInv(cfg: Config, q: Queue, s: Step, q': Queue)
    requires Inv(cfg, q) && RecordSet(s) && Next(cfg, q, s, q')
    ensures Inv(cfg, q')
  {
    match s
    case Complete(done, keepQueue) =>
      var queued := QueuedAmong(q, done);
      forall i | 0 <= i < |done| && done[i].DonePick? && done[i].picking !in queued
        ensures !Queued(q, done[i].picking)
      {
        assert done[i] in done;
      }
      PutDoneKeepsInv(cfg, q, done, queued);
    case Insert(shipping, warehouse, date) =>
      var row := RowFor(cfg, shipping, warehouse, date);
      if !Violates(q, row) {
        PutKeepsInv(cfg, q, row);
      }
    case Unhold(shipping, singles, warehouse, date) =>
      if Origins(cfg, shipping) != [] {
        UnheldIs(cfg, q, shipping, singles, warehouse, date);
        var row := RowFor(cfg, shipping, warehouse, date);
        if !Violates(q, row) {
          PutKeepsInv(cfg, q, row);
        }
      }
    case Get(packer, barcode, warehouse, busy, withDest) =>
      var matching := Matching(cfg, q, barcode, warehouse, busy);
      var taken, dropped :| Popped(q, matching, withDest, taken, dropped) && q' == Take(q, packer, taken, dropped);
      TakeKeepsInv(cfg, q, matching, withDest, packer, taken, dropped);
  }

  // ------------------------------------------------------------------ what the steps do to the rows

  /** The row is of the warehouse and its product has the barcode. */
  predicate Answers(cfg: Config, row: Row, barcode: string, warehouse: nat) {
    row.warehouse == warehouse && row.product in cfg.barcodeOf && cfg.barcodeOf[row.product] == barcode
  }

  /** The rows a scan can pop. */
  ghost predicate Open(cfg: Config, q: Queue, barcode: string, warehouse: nat, busy: set<nat>, id: nat) {
    id in q.rows && id !in busy && Answers(cfg, q.rows[id], barcode, warehouse)
  }

  /** The scan hands the row to the packer: it answers the scan, has a destination, and no open row with a
      destination is dated earlier. */
  ghost predicate HandsOut(cfg: Config, q: Queue, q': Queue, packer: nat, barcode: string, warehouse: nat, busy: set<nat>,
                           withDest: set<nat>, id: nat) {
    && Open(cfg, q, barcode, warehouse, busy, id) && q.rows[id].picking in withDest
    && q'.handed == q.handed[id := packer] && id !in q'.rows
    && (forall j :: Open(cfg, q, barcode, warehouse, busy, j) && q.rows[j].picking in withDest ==> q.rows[id].date <= q.rows[j].date)
    && (forall j :: j in q.rows && j !in q'.rows && j != id ==> q.rows[j].date <= q.rows[id].date)
  }

  /** A scan hands out a row exactly if an open row has a destination; otherwise it hands out none and drops every
      open row. The rows that are not open stay as they are, and what it drops are open rows without
      destination. */
  lemma {:induction false} ScanIs(cfg: Config, q: Queue, packer: nat, barcode: string, warehouse: nat, busy: set<nat>,
                                  withDest: set<nat>, q': Queue)
    requires Next(cfg, q, Get(packer, barcode, warehouse, busy, withDest), q')
    ensures if exists id :: Open(cfg, q, barcode, warehouse, busy, id) && q.rows[id].picking in withDest
            then exists id :: HandsOut(cfg, q, q', packer, barcode, warehouse, busy, withDest, id)
            else q'.handed == q.handed && forall id :: Open(cfg, q, barcode, warehouse, busy, id) ==> id !in q'.rows
    ensures forall j :: j in q'.rows ==> j in q.rows && q'.rows[j] == q.rows[j]
    ensures forall j :: j in q.rows && !Open(cfg, q, barcode, warehouse, busy, j) ==> j in q'.rows
    ensures forall j :: j in q'.discarded && j !in q.discarded ==>
              Open(cfg, q, barcode, warehouse, busy, j) && q.rows[j].picking !in withDest
  {
    var matching := Matching(cfg, q, barcode, warehouse, busy);
    assert forall id :: id in matching <==> Open(cfg, q, barcode, warehouse, busy, id);
    var taken, dropped :| Popped(q, matching, withDest, taken, dropped) && q' == Take(q, packer, taken, dropped);
    if taken.Some? {
      assert HandsOut(cfg, q, q', packer, barcode, warehouse, busy, withDest, taken.value);
    }
  }

  /** The transfers of the batch that `_action_done` queues, and those whose row it takes out. */
  ghost predicate Picks(cfg: Config, done: seq<Done>, picking: nat) {
    picking in cfg.firstProduct && exists i :: 0 <= i < |done| && done[i].DonePick? && done[i].picking == picking
  }

  ghost predicate Ships(cfg: Config, done: seq<Done>, picking: nat) {
    exists i :: 0 <= i < |done| && done[i].DoneOut? && done[i].shipping in cfg.originsOf
                && picking in cfg.originsOf[done[i].shipping]
  }

  /** A new row is made from a done pick transfer. */
  ghost predicate MadeFrom(cfg: Config, done: seq<Done>, row: Row) {
    && row.picking in cfg.firstProduct && row.product == cfg.firstProduct[row.picking]
    && exists i :: 0 <= i < |done| && done[i] == DonePick(row.picking, row.warehouse, row.date)
  }

  lemma {:induction false} PutDoneRows(cfg: Config, q: Queue, done: seq<Done>, queued: set<nat>)
    requires forall id :: id in q.rows ==> id < q.nextId
    ensures var q' := PutDone(cfg, q, done, queued);
            && q.nextId <= q'.nextId && (forall id :: id in q'.rows ==> id < q'.nextId)
            && (forall id :: id in q.rows ==> id in q'.rows && q'.rows[id] == q.rows[id])
            && (forall id :: id in q'.rows && id !in q.rows ==>
                  MadeFrom(cfg, done, q'.rows[id]) && q'.rows[id].picking !in queued)
            && (forall i :: 0 <= i < |done| && done[i].DonePick? && done[i].picking in cfg.firstProduct && done[i].picking !in queued
                  ==> Queued(q', done[i].picking))
    decreases |done|
  {
    if done != [] {
      var d, rest := done[0], done[1..];
      var puts := d.DonePick? && d.picking !in queued && d.picking in cfg.firstProduct;
      var next := if puts then Put(q, Row(cfg.firstProduct[d.picking], d.picking, d.warehouse, d.date)) else q;
      PutDoneRows(cfg, next, rest, queued);
      var q' := PutDone(cfg, q, done, queued);
      assert q' == PutDone(cfg, next, rest, queued);
      forall id | id in q'.rows && id !in q.rows ensures MadeFrom(cfg, done, q'.rows[id]) && q'.rows[id].picking !in queued {
        if id in next.rows {
          assert done[0] == DonePick(d.picking, d.warehouse, d.date);
        } else {
          var i :| 0 <= i < |rest| && rest[i] == DonePick(q'.rows[id].picking, q'.rows[id].warehouse, q'.rows[id].date);
          assert done[i + 1] == rest[i];
        }
      }
      forall i | 0 <= i < |done| && done[i].DonePick? && done[i].picking in cfg.firstProduct && done[i].picking !in queued
        ensures Queued(q', done[i].picking)
      {
        if i == 0 {
          assert next.rows[q.nextId].picking == d.picking && q'.rows[q.nextId] == next.rows[q.nextId];
        } else {
          assert done[i] == rest[i - 1];
        }
      }
    }
  }

  /** Completing transfers: a transfer is queued afterwards exactly if it was queued or is a done pick transfer of
      the batch, and no shipping transfer of the batch comes from it, unless the queue is to be kept. Rows that
      were there stay as they are, and new ones are made from done pick transfers that were not queued. */
  lemma {:induction false} CompletedRows(cfg: Config, q: Queue, done: seq<Done>, keepQueue: bool, picking: nat)
    requires Inv(cfg, q)
    ensures var q' := Completed(cfg, q, done, keepQueue);
            && (Queued(q', picking) <==>
                  (Queued(q, picking) || Picks(cfg, done, picking)) && (keepQueue || !Ships(cfg, done, picking)))
            && (forall id :: id in q.rows && id in q'.rows ==> q'.rows[id] == q.rows[id])
            && (forall id :: id in q'.rows && id !in q.rows ==>
                  MadeFrom(cfg, done, q'.rows[id]) && !Queued(q, q'.rows[id].picking))
            && q'.handed == q.handed
  {
    var queued := QueuedAmong(q, done);
    var q1, q' := PutDone(cfg, q, done, queued), Completed(cfg, q, done, keepQueue);
    PutDoneRows(cfg, q, done, queued);
    PutDoneKeepsHanded(cfg, q, done, queued);
    OriginsAre(cfg, done, picking);
    if Queued(q, picking) {
      var id :| id in q.rows && q.rows[id].picking == picking;
      assert q1.rows[id].picking == picking;
    }
    if Picks(cfg, done, picking) {
      var i :| 0 <= i < |done| && done[i].DonePick? && done[i].picking == picking;
      assert done[i] in done && (picking in queued ==> Queued(q, picking));
    }
    assert Queued(q1, picking) <==> Queued(q, picking) || Picks(cfg, done, picking) by {
      if id :| id in q1.rows && q1.rows[id].picking == picking && id !in q.rows {
        var i :| 0 <= i < |done| && done[i] == DonePick(picking, q1.rows[id].warehouse, q1.rows[id].date);
      } else if Queued(q1, picking) {
        var id :| id in q1.rows && q1.rows[id].picking == picking;
        assert q.rows[id].picking == picking;
      }
    }
    RemovedRows(q1, OriginsOfDone(cfg, done), picking);
    forall id | id in q'.rows && id !in q.rows ensures !Queued(q, q'.rows[id].picking) {
      var i :| 0 <= i < |done| && done[i] == DonePick(q1.rows[id].picking, q1.rows[id].warehouse, q1.rows[id].date);
      assert done[i] in done;
    }
  }

  lemma {:induction false} OriginsAre(cfg: Config, done: seq<Done>, picking: nat)
    ensures picking in OriginsOfDone(cfg, done) <==> Ships(cfg, done, picking)
  {
    if picking in OriginsOfDone(cfg, done) {
      var d :| d in done && d.DoneOut? && d.shipping in cfg.originsOf && picking in cfg.originsOf[d.shipping];
      var i :| 0 <= i < |done| && done[i] == d;
    }
    if Ships(cfg, done, picking) {
      var i :| 0 <= i < |done| && done[i].DoneOut? && done[i].shipping in cfg.originsOf && picking in cfg.originsOf[done[i].shipping];
      assert done[i] in done;
    }
  }

  lemma {:induction false} RemovedRows(q: Queue, pickings: set<nat>, picking: nat)
    ensures Queued(Remove(q, RowsOf(q, pickings)), picking) <==> Queued(q, picking) && picking !in pickings
  {
    var q' := Remove(q, RowsOf(q, pickings));
    if id :| id in q.rows && q.rows[id].picking == picking && picking !in pickings {
      assert id in q'.rows;
    }
    if id :| id in q'.rows && q'.rows[id].picking == picking {
      assert id in q.rows && q.rows[id].picking == picking;
    }
  }

  /** Inserting for a shipping transfer: refused exactly if a row of this product and transfer is there; else one
      new row holds the first pick transfer, its first product, and the warehouse and date of the shipment. */
  lemma {:induction false} InsertIs(cfg: Config, q: Queue, shipping: nat, warehouse: nat, date: int, q': Queue)
    requires Inv(cfg, q) && Next(cfg, q, Insert(shipping, warehouse, date), q')
    ensures var first := cfg.originsOf[shipping][0];
            if exists id :: id in q.rows && q.rows[id].product == cfg.firstProduct[first] && q.rows[id].picking == first
            then q' == q
            else && q'.rows == q.rows[q.nextId := Row(cfg.firstProduct[first], first, warehouse, date)] && q.nextId !in q.rows
                 && q'.handed == q.handed && q'.discarded == q.discarded && q'.removed == q.removed
  {
    assert q.nextId !in q.inserted;
  }

  // ------------------------------------------------------------------ taking a transfer off hold

  function SinglesAmong(picks: seq<nat>, singles: set<nat>): nat {
    if picks == [] then 0 else (if picks[0] in singles then 1 else 0) + SinglesAmong(picks[1..], singles)
  }

  /** Once the row is in the table the constraint refuses it again. */
  lemma {:induction false} PutForOnce(q: Queue, picks: seq<nat>, singles: set<nat>, row: Row)
    ensures PutFor(q, picks, singles, row) ==
            if SinglesAmong(picks, singles) == 0 then Some(q)
            else if SinglesAmong(picks, singles) == 1 && !Violates(q, row) then Some(Put(q, row))
            else None
    decreases |picks|
  {
    if picks != [] {
      if picks[0] !in singles {
        PutForOnce(q, picks[1..], singles, row);
      } else if !Violates(q, row) {
        PutForOnce(Put(q, row), picks[1..], singles, row);
        assert Put(q, row).rows[q.nextId] == row;
      }
    }
  }

  /** Taking a shipping transfer off hold raises exactly when two of its pick transfers or more are done and
      single, or when one is and the row of its first pick transfer is queued already. Otherwise it queues
      the first pick transfer if some pick transfer is done and single, be it the first or not. */
  lemma {:induction false} UnheldIs(cfg: Config, q: Queue, shipping: nat, singles: set<nat>, warehouse: nat, date: int)
    requires HaveProducts(cfg, shipping)
    ensures var picks, unheld := Origins(cfg, shipping), Unheld(cfg, q, shipping, singles, warehouse, date);
            var n := SinglesAmong(picks, singles);
            && (n == 0 ==> unheld == Some(q))
            && (n > 0 ==>
                  && Insertable(cfg, shipping)
                  && var row := RowFor(cfg, shipping, warehouse, date);
                     && (unheld.None? <==> n >= 2 || Violates(q, row))
                     && (unheld.Some? ==> unheld.value == Put(q, row)))
  {
    var picks := Origins(cfg, shipping);
    if picks != [] {
      assert picks[0] in picks;
      PutForOnce(q, picks, singles, RowFor(cfg, shipping, warehouse, date));
    }
  }

  /** In a reachable queue: off hold, the shipping transfer's first pick transfer is queued, and taking it off
      hold once more raises. */
  lemma {:induction false} UnheldTwice(cfg: Config, q: Queue, shipping: nat, singles: set<nat>, warehouse: nat, date: int,
                                       warehouse': nat, date': int)
    requires Inv(cfg, q) && HaveProducts(cfg, shipping) && SinglesAmong(Origins(cfg, shipping), singles) == 1
    ensures var once, first := Unheld(cfg, q, shipping, singles, warehouse, date), Origins(cfg, shipping)[0];
            && (once.None? <==> Queued(q, first))
            && (once.Some? ==> Queued(once.value, first)
                               && Unheld(cfg, once.value, shipping, singles, warehouse', date').None?)
  {
    UnheldIs(cfg, q, shipping, singles, warehouse, date);
    var row, once := RowFor(cfg, shipping, warehouse, date), Unheld(cfg, q, shipping, singles, warehouse, date);
    if once.Some? {
      assert once.value.rows[q.nextId] == row;
      UnheldIs(cfg, once.value, shipping, singles, warehouse', date');
    }
  }

  // ------------------------------------------------------------------ whole runs

  ghost predicate Run(cfg: Config, qs: seq<Queue>, steps: seq<Step>) {
    && |qs| == |steps| + 1 && qs[0] == EMPTY
    && forall i :: 0 <= i < |steps| ==> StepAt(cfg, qs, steps, i)
  }

  ghost predicate StepAt(cfg: Config, qs: seq<Queue>, steps: seq<Step>, i: nat)
    requires i < |steps| && |qs| == |steps| + 1
  {
    RecordSet(steps[i]) && Next(cfg, qs[i], steps[i], qs[i + 1])
  }

  lemma {:induction false} EmptyInv(cfg: Config)
    ensures Inv(cfg, EMPTY)
  {
  }

  lemma {:induction false} StepAtKeepsInv(cfg: Config, qs: seq<Queue>, steps: seq<Step>, i: nat)
    requires i < |steps| && |qs| == |steps| + 1 && StepAt(cfg, qs, steps, i) && Inv(cfg, qs[i])
    ensures Inv(cfg, qs[i + 1])
  {
    StepKeepsInv(cfg, qs[i], steps[i], qs[i + 1]);
  }

  /** In every reachable state the queue has at most one row for each picking, and every row ever
      inserted is queued, handed out, discarded or removed, and only one of these. */
  lemma {:induction false} ReachableQueue(cfg: Config, qs: seq<Queue>, steps: seq<Step>, n: nat)
    requires Run(cfg, qs, steps) && n <= |steps|
    ensures Inv(cfg, qs[n])
    decreases n
  {
    if n == 0 {
      EmptyInv(cfg);
    } else {
      ReachableQueue(cfg, qs, steps, n - 1);
      StepAtKeepsInv(cfg, qs, steps, n - 1);
    }
  }

  /** inserted = queued + handed out + discarded + removed */
  lemma {:induction false} ReachableCounts(cfg: Config, qs: seq<Queue>, steps: seq<Step>, n: nat)
    requires Run(cfg, qs, steps) && n <= |steps|
    ensures |qs[n].inserted| == |qs[n].rows| + |qs[n].handed| + |qs[n].discarded| + |qs[n].removed|
  {
    ReachableQueue(cfg, qs, steps, n);
    EveryRowCounted(cfg, qs[n]);
  }

  lemma {:induction false} EveryRowCounted(cfg: Config, q: Queue)
    requires Inv(cfg, q)
    ensures |q.inserted| == |q.rows| + |q.handed| + |q.discarded| + |q.removed|
  {
    assert |q.rows.Keys| == |q.rows| && |q.handed.Keys| == |q.handed|;
    var a := q.rows.Keys + q.handed.Keys;
    assert |a| == |q.rows| + |q.handed|;
    var b := a + q.discarded;
    assert |b| == |a| + |q.discarded|;
    assert q.inserted == b + q.removed;
  }

  lemma {:induction false} PutDoneKeepsHanded(cfg: Config, q: Queue, done: seq<Done>, queued: set<nat>)
    ensures PutDone(cfg, q, done, queued).handed == q.handed
    decreases |done|
  {
    if done != [] {
      var d := done[0];
      var q' := if d.DonePick? && d.picking !in queued && d.picking in cfg.firstProduct
                then Put(q, Row(cfg.firstProduct[d.picking], d.picking, d.warehouse, d.date)) else q;
      PutDoneKeepsHanded(cfg, q', done[1..], queued);
    }
  }

  /** A step leaves a handed out row with its packer. */
  lemma {:induction false} HandedStays(cfg: Config, q: Queue, s: Step, q': Queue, id: nat)
    requires Inv(cfg, q) && Next(cfg, q, s, q') && id in q.handed
    ensures id in q'.handed && q'.handed[id] == q.handed[id]
  {
    match s
    case Complete(done, keepQueue) => PutDoneKeepsHanded(cfg, q, done, QueuedAmong(q, done));
    case Insert(_, _, _) =>
    case Unhold(shipping, singles, warehouse, date) => UnheldIs(cfg, q, shipping, singles, warehouse, date);
    case Get(packer, barcode, warehouse, busy, withDest) =>
      var matching := Matching(cfg, q, barcode, warehouse, busy);
      var taken, dropped :| Popped(q, matching, withDest, taken, dropped) && q' == Take(q, packer, taken, dropped);
  }

  lemma {:induction false} HandedStaysAt(cfg: Config, qs: seq<Queue>, steps: seq<Step>, i: nat, id: nat)
    requires i < |steps| && |qs| == |steps| + 1 && StepAt(cfg, qs, steps, i) && Inv(cfg, qs[i]) && id in qs[i].handed
    ensures id in qs[i + 1].handed && qs[i + 1].handed[id] == qs[i].handed[id]
  {
    HandedStays(cfg, qs[i], steps[i], qs[i + 1], id);
  }

  /** A row that has gone to a packer stays with that packer for the rest of the run, and is in the
      queue no more: no row is handed out twice. */
  lemma {:induction false} HandedOnce(cfg: Config, qs: seq<Queue>, steps: seq<Step>, i: nat, j: nat, id: nat)
    requires Run(cfg, qs, steps) && i <= j <= |steps| && id in qs[i].handed
    ensures id in qs[j].handed && qs[j].handed[id] == qs[i].handed[id] && id !in qs[j].rows
    decreases j
  {
    ReachableQueue(cfg, qs, steps, j);
    if i < j {
      HandedOnce(cfg, qs, steps, i, j - 1, id);
      ReachableQueue(cfg, qs, steps, j - 1);
      HandedStaysAt(cfg, qs, steps, j - 1, id);
    }
  }

  /** Completing the shipping transfer of a queued picking takes its row out of the queue. */
  lemma {:induction false} CompletedLeavesQueue(cfg: Config, q: Queue, shipping: nat, p: nat)
    requires shipping in cfg.originsOf && p in cfg.originsOf[shipping]
    ensures !Queued(Completed(cfg, q, [DoneOut(shipping)], false), p)
  {
    var done := [DoneOut(shipping)];
    assert DoneOut(shipping) in done && p in OriginsOfDone(cfg, done);
  }
}
