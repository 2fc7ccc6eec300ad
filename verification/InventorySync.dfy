/** Inventory synchronisation as a log of changes that is read, sent to the stores, and emptied. */
module InventorySync {
  import opened Options
  import opened KitClosure

  datatype Rule = ExcludeCategories(categories: set<nat>)
                | ExcludeTemplates(templates: set<nat>)
                | ExcludeVariants(products: set<nat>)

  /** A store: mapped are the products of its tracked listings. */
  datatype Channel = Channel(active: bool, syncEnabled: bool, hasWarehouses: bool, hasUpdater: bool,
                             rules: seq<Rule>, mapped: set<nat>)

  /** What does not change while products move: the products, the categories each belongs to
      (with all parents), the bills of materials and the stores. */
  datatype Config = Config(products: set<nat>, categoriesOf: map<nat, set<nat>>, catalog: Catalog,
                           channels: map<nat, Channel>)

  datatype Sending = Sending(channel: nat, products: set<nat>)

  /** A stock quant of a product is inserted, updated or deleted; or a synchronisation runs. An
      empty `only` stands for no product filter. */
  datatype Event = Change(product: nat) | Sync(channel: Option<nat>, allRecords: bool, only: set<nat>)

  const SCHEDULED := Sync(None, false, {})

  datatype State = State(audit: seq<nat>, sent: seq<Sending>)

  // ------------------------------------------------------------------ what one step does

  function InTable(audit: seq<nat>): set<nat> {
    set p | p in audit
  }

  function RuleExcludes(cfg: Config, r: Rule, p: nat): bool {
    match r
    case ExcludeCategories(cs) => p in cfg.categoriesOf && cfg.categoriesOf[p] * cs != {}
    case ExcludeTemplates(ts) => p in cfg.catalog.variants && cfg.catalog.variants[p] in ts
    case ExcludeVariants(ps) => p in ps
  }

  predicate Excluded(cfg: Config, ch: Channel, p: nat) {
    exists i :: 0 <= i < |ch.rules| && RuleExcludes(cfg, ch.rules[i], p)
  }

  /** The products a synchronisation reads from the table, with the kits they affect. */
  function Picked(cfg: Config, audit: seq<nat>, only: set<nat>): set<nat> {
    Extended(cfg.catalog, (if only == {} then InTable(audit) else InTable(audit) * only) * cfg.products)
  }

  predicate SyncedByDefault(ch: Channel) {
    ch.active && ch.syncEnabled && ch.hasWarehouses
  }

  function Targets(cfg: Config, channel: Option<nat>): set<nat> {
    match channel
    case Some(id) => {id} * cfg.channels.Keys
    case None => set id | id in cfg.channels && SyncedByDefault(cfg.channels[id])
  }

  /** What a store is sent of the exported products. */
  function Exported(cfg: Config, ch: Channel, exported: set<nat>, bulk: bool): set<nat> {
    set p | p in exported + (if bulk then ch.mapped else {}) && !Excluded(cfg, ch, p)
  }

  /** New sendings of a synchronisation: one for each target that has an updater, in any order. */
  ghost predicate SendsTo(cfg: Config, targets: set<nat>, products: set<nat>, bulk: bool, sendings: seq<Sending>) {
    && (forall i :: 0 <= i < |sendings| ==>
          && sendings[i].channel in targets && sendings[i].channel in cfg.channels
          && cfg.channels[sendings[i].channel].hasUpdater
          && sendings[i].products == Exported(cfg, cfg.channels[sendings[i].channel], products, bulk))
    && (forall id :: id in targets && id in cfg.channels && cfg.channels[id].hasUpdater ==>
          exists i :: 0 <= i < |sendings| && sendings[i].channel == id)
    && (forall i, j :: 0 <= i < j < |sendings| ==> sendings[i].channel != sendings[j].channel)
  }

  /** Does the step empty the audit table? Every synchronisation does that is not for all records. */
  predicate Truncates(e: Event) {
    e.Sync? && !e.allRecords
  }

  ghost predicate Step(cfg: Config, s: State, e: Event, s': State) {
    match e
    case Change(p) =>
      s'.sent == s.sent && s'.audit == if p in s.audit then s.audit else s.audit + [p]
    case Sync(channel, allRecords, only) =>
      var products := Picked(cfg, s.audit, only);
      && s'.audit == (if allRecords then s.audit else [])
      && s.sent <= s'.sent
      && if products == {} && !allRecords then s'.sent == s.sent
         else SendsTo(cfg, Targets(cfg, channel), products, allRecords, s'.sent[|s.sent|..])
  }

  // ------------------------------------------------------------------ the code

  class SyncServer {
    const cfg: Config
    var audit: seq<nat>
    var sent: seq<Sending>

    constructor (cfg: Config)
      ensures this.cfg == cfg && Snapshot() == State([], [])
    {
      this.cfg := cfg;
      audit, sent := [], [];
    }

    function Snapshot(): State
      reads this
    {
      State(audit, sent)
    }

    /** The trigger `stock_quant_change_notify`. */
    method QuantChanged(product: nat)
      modifies this`audit
      ensures Step(cfg, old(Snapshot()), Change(product), Snapshot())
    {
      if product !in audit {
        audit := audit + [product];
      }
    }

    /** `_get_products_to_sync_inventory`: read the table, truncate it unless run manually. */
    method GetProductsToSync(only: set<nat>, runManual: bool) returns (products: set<nat>)
      modifies this`audit
      ensures products == Picked(cfg, old(audit), only)
      ensures audit == if runManual then old(audit) else []
    {
      var found := InTable(audit);
      if only != {} {
        found := found * only;
      }
      found := found * cfg.products;
      if !runManual {
        audit := [];
      }
      products := Extended(cfg.catalog, found);
    }

    /** `update_inventory` of a store that has an updater. */
    method UpdateInventory(ch: Channel, exportedProducts: set<nat>, bulkSync: bool) returns (exported: set<nat>)
      ensures exported == Exported(cfg, ch, exportedProducts, bulkSync)
    {
      exported := exportedProducts;
      if bulkSync {
        exported := exported + ch.mapped;
      }
      ghost var all := exported;
      for k := 0 to |ch.rules|
        invariant exported == set p | p in all && forall i :: 0 <= i < k ==> !RuleExcludes(cfg, ch.rules[i], p)
      {
        exported := set p | p in exported && !RuleExcludes(cfg, ch.rules[k], p);
      }
    }

    /** The loop over the stores. */
    method UpdateChannels(targets: set<nat>, products: set<nat>, bulkSync: bool) returns (ghost news: seq<Sending>)
      requires targets <= cfg.channels.Keys
      modifies this`sent
      ensures sent == old(sent) + news && SendsTo(cfg, targets, products, bulkSync, news)
    {
      var todo := targets;
      news := [];
      while todo != {}
        invariant todo <= targets && sent == old(sent) + news
        invariant SendsTo(cfg, targets - todo, products, bulkSync, news)
        decreases |todo|
      {
        var id :| id in todo;
        ghost var done := targets - todo;
        todo := todo - {id};
        assert targets - todo == done + {id};
        if cfg.channels[id].hasUpdater {
          var exported := UpdateInventory(cfg.channels[id], products, bulkSync);
          OneMoreSending(cfg, done, id, products, bulkSync, news);
          news := news + [Sending(id, exported)];
          sent := sent + [Sending(id, exported)];
        }
      }
      assert targets - todo == targets;
    }

    /** `inventory_sync` */
    method Synchronise(channel: Option<nat>, allRecords: bool, only: set<nat>)
      modifies this
      ensures Step(cfg, old(Snapshot()), Sync(channel, allRecords, only), Snapshot())
    {
      var targets := Targets(cfg, channel);
      var products := GetProductsToSync(only, allRecords);
      if products != {} || allRecords {
        ghost var news := UpdateChannels(targets, products, allRecords);
        assert sent[|old(sent)|..] == news;
      }
    }
  }

  lemma {:induction false} OneMoreSending(cfg: Config, targets: set<nat>, id: nat, products: set<nat>, bulk: bool,
                                          sendings: seq<Sending>)
    requires SendsTo(cfg, targets, products, bulk, sendings)
    requires id !in targets && id in cfg.channels && cfg.channels[id].hasUpdater
    ensures SendsTo(cfg, targets + {id}, products, bulk,
                    sendings + [Sending(id, Exported(cfg, cfg.channels[id], products, bulk))])
  {
    var more := sendings + [Sending(id, Exported(cfg, cfg.channels[id], products, bulk))];
    forall t | t in targets + {id} && t in cfg.channels && cfg.channels[t].hasUpdater
      ensures exists i :: 0 <= i < |more| && more[i].channel == t
    {
      if t == id {
        assert more[|sendings|].channel == t;
      } else {
        var i :| 0 <= i < |sendings| && sendings[i].channel == t;
        assert more[i].channel == t;
      }
    }
  }

  // ------------------------------------------------------------------ whole runs

  ghost predicate Run(cfg: Config, es: seq<Event>, ss: seq<State>) {
    && |ss| == |es| + 1 && ss[0] == State([], [])
    && forall i :: 0 <= i < |es| ==> Step(cfg, ss[i], es[i], ss[i + 1])
  }

  /** The products changed since the table was last emptied. */
  function ChangedSince(es: seq<Event>): set<nat> {
    if es == [] then {}
    else
      var e, before := es[|es| - 1], es[..|es| - 1];
      if e.Change? then ChangedSince(before) + {e.product}
      else if Truncates(e) then {} else ChangedSince(before)
  }

  /** A product is waiting exactly when it changed and nothing emptied the table after that. */
  lemma {:induction false} ChangedSinceIff(es: seq<Event>, p: nat)
    ensures p in ChangedSince(es) <==>
            exists i :: 0 <= i < |es| && es[i] == Change(p) && forall j :: i < j < |es| ==> !Truncates(es[j])
  {
    if es != [] {
      var n := |es| - 1;
      ChangedSinceIff(es[..n], p);
      assert forall i :: 0 <= i < n ==> es[..n][i] == es[i];
    }
  }

  ghost predicate WasSent(sent: seq<Sending>, id: nat, p: nat) {
    exists sending :: sending in sent && sending.channel == id && p in sending.products
  }

  ghost predicate NoDuplicates(audit: seq<nat>) {
    forall i, j :: 0 <= i < j < |audit| ==> audit[i] != audit[j]
  }

  /** In every reachable state the table holds exactly the products changed since it was last
      emptied, each once. */
  lemma {:induction false} AuditHoldsChanges(cfg: Config, es: seq<Event>, ss: seq<State>, n: nat)
    requires Run(cfg, es, ss) && n <= |es|
    ensures InTable(ss[n].audit) == ChangedSince(es[..n])
    ensures NoDuplicates(ss[n].audit)
  {
    if n == 0 {
      assert es[..0] == [];
    } else {
      AuditHoldsChanges(cfg, es, ss, n - 1);
      assert es[..n][..n - 1] == es[..n - 1];
      assert Step(cfg, ss[n - 1], es[n - 1], ss[n]);
    }
  }

  /** In every run, a scheduled synchronisation sends to every enabled store exactly the products
      changed since the table was last emptied and their kits, but those an exclude rule matches. */
  lemma {:induction false} ScheduledSyncSends(cfg: Config, es: seq<Event>, ss: seq<State>, n: nat, id: nat)
    requires Run(cfg, es, ss) && n < |es| && es[n] == SCHEDULED
    requires id in cfg.channels && SyncedByDefault(cfg.channels[id]) && cfg.channels[id].hasUpdater
    ensures var reported := Extended(cfg.catalog, ChangedSince(es[..n]) * cfg.products);
            && |ss[n].sent| <= |ss[n + 1].sent|
            && (reported == {} ==> ss[n + 1].sent == ss[n].sent)
            && (reported != {} ==>
                  Sending(id, set p | p in reported && !Excluded(cfg, cfg.channels[id], p)) in ss[n + 1].sent[|ss[n].sent|..])
  {
    AuditHoldsChanges(cfg, es, ss, n);
    var s, s' := ss[n], ss[n + 1];
    assert Step(cfg, s, es[n], s');
    var reported := Picked(cfg, s.audit, {});
    if reported != {} {
      var news := s'.sent[|s.sent|..];
      assert id in Targets(cfg, None);
      var i :| 0 <= i < |news| && news[i].channel == id;
      assert Exported(cfg, cfg.channels[id], reported, false) ==
             set p | p in reported && !Excluded(cfg, cfg.channels[id], p);
    }
  }

  /** A product changed before step n, and no synchronisation but one for all records came after that. */
  ghost predicate Waiting(es: seq<Event>, n: nat, p: nat)
    requires n <= |es|
  {
    exists i :: 0 <= i < n && es[i] == Change(p) && forall j :: i < j < n && es[j].Sync? ==> es[j].allRecords
  }

  /** The product is in the set of a variant rule, its template in that of a template rule, or one of its
      categories in that of a category rule. */
  ghost predicate Bars(cfg: Config, r: Rule, p: nat) {
    match r
    case ExcludeVariants(ps) => exists q :: q in ps && q == p
    case ExcludeTemplates(ts) => exists t :: t in ts && p in cfg.catalog.variants && cfg.catalog.variants[p] == t
    case ExcludeCategories(cs) => exists c :: c in cs && p in cfg.categoriesOf && c in cfg.categoriesOf[p]
  }

  lemma {:induction false} BarsIff(cfg: Config, r: Rule, p: nat)
    ensures Bars(cfg, r, p) <==> RuleExcludes(cfg, r, p)
  {
    if r.ExcludeCategories? && p in cfg.categoriesOf {
      var both := cfg.categoriesOf[p] * r.categories;
      assert RuleExcludes(cfg, r, p) <==> exists c :: c in both;
      assert forall c :: c in both <==> c in r.categories && c in cfg.categoriesOf[p];
    }
  }

  lemma {:induction false} BarredIff(cfg: Config, ch: Channel, p: nat)
    ensures (exists r :: r in ch.rules && Bars(cfg, r, p)) <==> Excluded(cfg, ch, p)
  {
    if r :| r in ch.rules && Bars(cfg, r, p) {
      BarsIff(cfg, r, p);
      var i :| 0 <= i < |ch.rules| && ch.rules[i] == r;
      assert RuleExcludes(cfg, ch.rules[i], p);
    }
    if Excluded(cfg, ch, p) {
      var i :| 0 <= i < |ch.rules| && RuleExcludes(cfg, ch.rules[i], p);
      BarsIff(cfg, ch.rules[i], p);
      assert ch.rules[i] in ch.rules;
    }
  }

  lemma {:induction false} WaitingIff(es: seq<Event>, n: nat, p: nat)
    requires n <= |es|
    ensures p in ChangedSince(es[..n]) <==> Waiting(es, n, p)
  {
    ChangedSinceIff(es[..n], p);
    assert forall i :: 0 <= i < n ==> es[..n][i] == es[i];
  }

  /** Every synchronisation of every run, told from what went before: it sends a product to a store exactly if
      the store is the one asked for or, if none is, active, enabled and with a warehouse; it has an updater;
      the product is among the waiting products that the filter lets through and the kits they affect, or the
      run is for all records and the product is of a tracked listing of the store; and no rule bars it. */
  lemma {:induction false} SyncSendsIff(cfg: Config, es: seq<Event>, ss: seq<State>, n: nat, id: nat, p: nat)
    requires Run(cfg, es, ss) && n < |es| && es[n].Sync? && id in cfg.channels
    ensures ss[n].sent <= ss[n + 1].sent
    ensures var ch, news, reported := cfg.channels[id], ss[n + 1].sent[|ss[n].sent|..],
              Extended(cfg.catalog, set q | q in cfg.products && Waiting(es, n, q) && (es[n].only == {} || q in es[n].only));
            && ((exists i :: 0 <= i < |news| && news[i].channel == id && p in news[i].products)
                <==> && (es[n].channel == Some(id) || (es[n].channel == None && ch.active && ch.syncEnabled && ch.hasWarehouses))
                     && ch.hasUpdater
                     && (p in reported || (es[n].allRecords && p in ch.mapped))
                     && !exists r :: r in ch.rules && Bars(cfg, r, p))
            && forall i, j :: 0 <= i < j < |news| ==> news[i].channel != news[j].channel
  {
    var s, s' := ss[n], ss[n + 1];
    assert Step(cfg, s, es[n], s');
    var found := set q | q in cfg.products && Waiting(es, n, q) && (es[n].only == {} || q in es[n].only);
    AuditHoldsChanges(cfg, es, ss, n);
    forall q ensures q in InTable(s.audit) <==> Waiting(es, n, q) {
      WaitingIff(es, n, q);
    }
    assert found == (if es[n].only == {} then InTable(s.audit) else InTable(s.audit) * es[n].only) * cfg.products;
    BarredIff(cfg, cfg.channels[id], p);
    hide Extended, Waiting, Bars, InTable, Excluded;
    SentByStep(cfg, s, s', es[n], Extended(cfg.catalog, found), id, p);
  }

  lemma {:induction false} SentByStep(cfg: Config, s: State, s': State, e: Event, products: set<nat>, id: nat, p: nat)
    requires e.Sync? && Step(cfg, s, e, s') && products == Picked(cfg, s.audit, e.only) && id in cfg.channels
    ensures s.sent <= s'.sent
    ensures var ch, news := cfg.channels[id], s'.sent[|s.sent|..];
            && ((exists i :: 0 <= i < |news| && news[i].channel == id && p in news[i].products)
                <==> && (e.channel == Some(id) || (e.channel == None && SyncedByDefault(ch))) && ch.hasUpdater
                     && (p in products || (e.allRecords && p in ch.mapped)) && !Excluded(cfg, ch, p))
            && forall i, j :: 0 <= i < j < |news| ==> news[i].channel != news[j].channel
  {
    hide Excluded, Picked;
    var news, ch := s'.sent[|s.sent|..], cfg.channels[id];
    assert id in Targets(cfg, e.channel) <==> e.channel == Some(id) || (e.channel == None && SyncedByDefault(ch));
    if products == {} && !e.allRecords {
      assert news == [];
    } else if i :| 0 <= i < |news| && news[i].channel == id {
      assert news[i].products == Exported(cfg, ch, products, e.allRecords);
      assert forall j :: 0 <= j < |news| && news[j].channel == id ==> j == i;
    }
  }

  /** No change is forgotten between scheduled synchronisations: a product changed at step i is sent
      by the scheduled run at step n when nothing emptied the table in between. */
  lemma {:induction false} ChangeIsDelivered(cfg: Config, es: seq<Event>, ss: seq<State>, i: nat, n: nat, p: nat, id: nat)
    requires Run(cfg, es, ss) && i < n < |es| && es[i] == Change(p) && es[n] == SCHEDULED
    requires forall j :: i < j < n ==> !Truncates(es[j])
    requires p in cfg.products
    requires id in cfg.channels && SyncedByDefault(cfg.channels[id]) && cfg.channels[id].hasUpdater
    requires !Excluded(cfg, cfg.channels[id], p)
    ensures WasSent(ss[n + 1].sent, id, p)
  {
    ChangedSinceIff(es[..n], p);
    assert es[..n][i] == Change(p);
    ExtendedIsLeastClosed(cfg.catalog, ChangedSince(es[..n]) * cfg.products);
    ScheduledSyncSends(cfg, es, ss, n, id);
    var reported := Extended(cfg.catalog, ChangedSince(es[..n]) * cfg.products);
    var sending := Sending(id, set q | q in reported && !Excluded(cfg, cfg.channels[id], q));
    assert sending in ss[n + 1].sent && p in sending.products;
  }

  /** A synchronisation for other products empties the table too: the change of p is sent by neither
      it nor the next scheduled run. */
  lemma {:induction false} NarrowSyncForgets(cfg: Config, ss: seq<State>, p: nat, q: nat, id: nat)
    requires Run(cfg, [Change(p), Sync(Some(id), false, {q}), SCHEDULED], ss)
    requires p != q
    ensures ss[3].sent == []
  {
    var es := [Change(p), Sync(Some(id), false, {q}), SCHEDULED];
    assert Step(cfg, ss[0], es[0], ss[1]) && Step(cfg, ss[1], es[1], ss[2]) && Step(cfg, ss[2], es[2], ss[3]);
    assert ss[1].audit == [p];
    assert InTable(ss[1].audit) * {q} == {};
    assert ({} * cfg.products) == {};
    assert Picked(cfg, ss[1].audit, {q}) == {};
    assert ss[2].audit == [] && InTable([]) == {};
    assert Picked(cfg, ss[2].audit, {}) == {};
  }
}
