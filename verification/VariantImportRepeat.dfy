/** Importing the same store data again: when an import changes nothing, and when the import after an accepted
    one does. What the first import made is found by the second, unless the template it chooses is another one,
    the mapping was deleted, or a variant without attributes was thrown out. */
module VariantImportRepeat {
  import opened Options
  import opened VariantImport
  import opened VariantImportLaws

  // ------------------------------------------------------------------ when an import changes nothing

  /** A mapped variant has a master; another one has none and is refused one. */
  predicate SettledAt(s: State, e: Env, v: StoreVariant)
    requires s.mapping.Some?
  {
    if HasId(s.mapping.value.variants, v.id) then MasterOf(e, v.sku).Some?
    else MasterOf(e, v.sku).None? && Creation(s.products, e.template, e.auto, v).Refuse?
  }

  /** The mapping is of the chosen template, holds only what the store sends, and each variant is settled. */
  ghost predicate Settled(s: State, d: StoreProduct, auto: bool) {
    var chosen := Chosen(s.products, s.alternates, d.variants);
    && d.variants != [] && chosen.Some? && s.mapping.Some? && s.mapping.value.template == chosen.value
    && AllSent(s.mapping.value.variants, d.variants)
    && forall i :: 0 <= i < |d.variants| ==> SettledAt(s, Env(s.products, s.alternates, chosen.value, auto), d.variants[i])
  }

  lemma {:induction false} ChosenIsKnown(s: State, vs: seq<StoreVariant>)
    requires Chosen(s.products, s.alternates, vs).Some?
    ensures SomeKnown(s, vs)
  {
    var carried := SmallestCarried(s.products, vs);
    if carried.Some? {
      var i :| 0 <= i < |vs| && vs[i].sku == carried.value && CarrierOf(s.products, vs[i].sku).Some?;
      assert Known(s.products, s.alternates, vs[i].sku).Some?;
    } else {
      var key := FirstAlternate(s.alternates, vs);
      var i :| 0 <= i < |vs| && vs[i].sku == key.value;
      assert Known(s.products, s.alternates, vs[i].sku).Some?;
    }
  }

  lemma {:induction false} SettledLoop(s: State, e: Env, vs: seq<StoreVariant>)
    requires s.mapping.Some? && forall i :: 0 <= i < |vs| ==> SettledAt(s, e, vs[i])
    ensures ProcessedAll(s, e, vs).Some? && ProcessedAll(s, e, vs).value.(failed := s.failed) == s
    decreases |vs|
  {
    if vs != [] {
      var next := Processed(s, e, vs[0]).value;
      assert forall i :: 0 <= i < |vs[1..]| ==> vs[1..][i] == vs[i + 1];
      assert SettledAt(s, e, vs[0]);
      assert next.products == s.products && next.mapping == s.mapping;
      hide Processed, MasterOf, Creation;
      SettledLoop(next, e, vs[1..]);
    }
  }

  /** A mapping without variants is never deleted. */
  lemma {:induction false} LoopSurvives(s: State, e: Env, vs: seq<StoreVariant>)
    requires DistinctVariants(vs) && s.mapping.Some? && s.mapping.value.variants == [] && ProcessedAll(s, e, vs).Some?
    ensures ProcessedAll(s, e, vs).value.mapping.Some?
    decreases |vs|
  {
    if vs != [] {
      var next := Processed(s, e, vs[0]).value;
      RestDistinct(vs);
      ProcessedHolds(s, e, vs[0], vs[0].id);
      if Holds(next, vs[0].id) {
        LoopHolds(next, e, vs[1..], vs[0].id);
      } else {
        LoopSurvives(next, e, vs[1..]);
      }
    }
  }

  /** A mapping that had variants and is not deleted has variants. */
  lemma {:induction false} LoopNonEmpty(s: State, e: Env, vs: seq<StoreVariant>)
    requires DistinctVariants(vs) && s.mapping.Some? && s.mapping.value.variants != [] && ProcessedAll(s, e, vs).Some?
    ensures ProcessedAll(s, e, vs).value.mapping.Some? ==> ProcessedAll(s, e, vs).value.mapping.value.variants != []
    decreases |vs|
  {
    if vs != [] {
      var next := Processed(s, e, vs[0]).value;
      RestDistinct(vs);
      if next.mapping.Some? {
        LoopNonEmpty(next, e, vs[1..]);
      }
    }
  }

  lemma {:induction false} LoopSent(s: State, e: Env, vs: seq<StoreVariant>)
    requires DistinctVariants(vs) && s.mapping.Some? && ProcessedAll(s, e, vs).Some? && e.table <= s.products
    requires AllSent(s.mapping.value.variants, vs) && ProcessedAll(s, e, vs).value.mapping.Some?
    ensures AllSent(ProcessedAll(s, e, vs).value.mapping.value.variants, vs)
  {
    forall m | m in ProcessedAll(s, e, vs).value.mapping.value.variants ensures m.storeId.Some? && Sends(vs, m.storeId.value) {
      LoopMembers(s, e, vs, m);
    }
  }

  lemma {:induction false} KeptHolds(s: State, e: Env, vs: seq<StoreVariant>)
    requires DistinctVariants(vs) && s.mapping.Some? && ProcessedAll(s, e, vs).Some? && e.table <= s.products
    requires AllSent(s.mapping.value.variants, vs) && s.mapping.value.variants != []
    ensures ProcessedAll(s, e, vs).value.mapping.Some? <==>
            exists i :: 0 <= i < |vs| && Holds(ProcessedAll(s, e, vs).value, vs[i].id)
  {
    if ProcessedAll(s, e, vs).value.mapping.Some? {
      LoopNonEmpty(s, e, vs);
      LoopSent(s, e, vs);
      SomeHeld(ProcessedAll(s, e, vs).value, vs);
    }
  }

  /** A mapping all of whose variants the store sends is deleted exactly when it had some and all store
      variants are refused. */
  lemma {:induction false} LoopDeletesIff(s: State, e: Env, vs: seq<StoreVariant>, js: seq<Verdict>)
    requires DistinctVariants(vs) && s.mapping.Some? && ProcessedAll(s, e, vs).Some? && e.table <= s.products
    requires AllSent(s.mapping.value.variants, vs) && js == Judged(s.products, e, s.mapping.value.variants, vs)
    ensures ProcessedAll(s, e, vs).value.mapping.None?
            <==> s.mapping.value.variants != [] && forall i :: 0 <= i < |vs| ==> js[i].Refuse?
  {
    hide Holds, AllSent, Processed, VerdictOn;
    var after := ProcessedAll(s, e, vs).value;
    forall i | 0 <= i < |vs| ensures Holds(after, vs[i].id) <==> !js[i].Refuse? {
      LoopHolds(s, e, vs, vs[i].id);
    }
    if s.mapping.value.variants == [] {
      LoopSurvives(s, e, vs);
    } else {
      KeptHolds(s, e, vs);
      NoneHeld(after, vs, js);
    }
  }

  lemma {:induction false} NoneHeld(s: State, vs: seq<StoreVariant>, js: seq<Verdict>)
    requires |js| == |vs| && forall i :: 0 <= i < |vs| ==> (Holds(s, vs[i].id) <==> !js[i].Refuse?)
    ensures (forall i :: 0 <= i < |vs| ==> js[i].Refuse?) <==> !exists i :: 0 <= i < |vs| && Holds(s, vs[i].id)
  {
    if exists i :: 0 <= i < |vs| && !js[i].Refuse? {
      var i :| 0 <= i < |vs| && !js[i].Refuse?;
      assert Holds(s, vs[i].id);
    }
  }

  lemma {:induction false} SomeHeld(s: State, vs: seq<StoreVariant>)
    requires s.mapping.Some? && s.mapping.value.variants != [] && AllSent(s.mapping.value.variants, vs)
    ensures exists i :: 0 <= i < |vs| && Holds(s, vs[i].id)
  {
    var ms := s.mapping.value.variants;
    assert ms[0] in ms;
    var i :| 0 <= i < |vs| && vs[i].id == ms[0].storeId.value;
    assert Holds(s, vs[i].id);
  }

  lemma {:induction false} VerdictSettled(s: State, e: Env, v: StoreVariant)
    requires s.mapping.Some?
    requires var j := VerdictOn(s.products, e, v, HasId(s.mapping.value.variants, v.id));
             !j.Make? && !j.Clash? && (HasId(s.mapping.value.variants, v.id) <==> !j.Refuse?)
    ensures SettledAt(s, e, v)
  {
  }

  lemma {:induction false} NoClash(s: State, e: Env, vs: seq<StoreVariant>, i: nat)
    requires DistinctVariants(vs) && s.mapping.Some? && ProcessedAll(s, e, vs).Some? && i < |vs|
    ensures !Judged(s.products, e, s.mapping.value.variants, vs)[i].Clash?
  {
    var js := Judged(s.products, e, s.mapping.value.variants, vs);
    LoopRaisesIff(s, e, vs);
    assert js[i] in js;
  }

  /** A loop that makes nothing and leaves the same ids mapped settles each variant. */
  lemma {:induction false} UnchangedAt(s: State, e: Env, vs: seq<StoreVariant>, i: nat)
    requires DistinctVariants(vs) && s.mapping.Some? && ProcessedAll(s, e, vs).Some? && i < |vs|
    requires ProcessedAll(s, e, vs).value.products == s.products && ProcessedAll(s, e, vs).value.mapping == s.mapping
    ensures SettledAt(s, e, vs[i])
  {
    var js := Judged(s.products, e, s.mapping.value.variants, vs);
    LoopTables(s, e, vs);
    forall k | 0 <= k < |vs| ensures !js[k].Make? {
      if js[k].Make? {
        MadeAt(s.products, e, vs, js, k);
      }
    }
    JudgedUnmade(s.products, e, s.mapping.value.variants, vs, i);
    LoopHolds(s, e, vs, vs[i].id);
    NoClash(s, e, vs, i);
    VerdictSettled(s, e, vs[i]);
  }

  lemma {:induction false} UnchangedIsSettled(s: State, d: StoreProduct, auto: bool)
    requires DistinctVariants(d.variants) && Imported(s, d, auto).Some?
    requires Imported(s, d, auto).value.(failed := s.failed) == s
    ensures Settled(s, d, auto)
  {
    var start, vs, after := Started(s, d, auto).value, d.variants, Imported(s, d, auto).value;
    PlanIs(s, d, auto);
    assert start.state.mapping.Some?;
    LoopTables(start.state, start.env, vs);
    assert Chosen(s.products, s.alternates, vs).Some?;
    assert start.state.products == s.products && start.env == Env(s.products, s.alternates, start.env.template, auto);
    if s.mapping.None? {
      LoopSurvives(start.state, start.env, vs);
    }
    LoopSent(start.state, start.env, vs);
    PurgedIs(start.env.template, Initial(s), vs);
    assert start.state == s;
    forall i | 0 <= i < |vs| ensures SettledAt(s, start.env, vs[i]) {
      UnchangedAt(s, start.env, vs, i);
    }
  }

  /** An import changes nothing but its log exactly when the mapping is settled. */
  lemma {:induction false} UnchangedIff(s: State, d: StoreProduct, auto: bool)
    requires DistinctVariants(d.variants)
    ensures Imported(s, d, auto).Some? && Imported(s, d, auto).value.(failed := s.failed) == s <==> Settled(s, d, auto)
  {
    if Settled(s, d, auto) {
      ChosenIsKnown(s, d.variants);
      PurgedIs(s.mapping.value.template, Initial(s), d.variants);
      var start := Started(s, d, auto).value;
      assert start.state == s;
      SettledLoop(s, start.env, d.variants);
    } else if Imported(s, d, auto).Some? && Imported(s, d, auto).value.(failed := s.failed) == s {
      UnchangedIsSettled(s, d, auto);
    }
  }

  // ------------------------------------------------------------------ the same data once more

  /** The store's variants have SKUs of their own. */
  ghost predicate DistinctSkus(vs: seq<StoreVariant>) {
    && (forall i :: 0 <= i < |vs| ==> vs[i].sku != 0)
    && forall i, j :: 0 <= i < j < |vs| ==> vs[i].sku != vs[j].sku
  }

  ghost predicate MadeForOne(p: Product, template: nat, vs: seq<StoreVariant>, js: seq<Verdict>)
    requires |vs| == |js|
  {
    exists i :: 0 <= i < |vs| && js[i].Make? && p == NewProduct(template, vs[i])
  }

  /** The table grew by exactly the products made, each for a variant. */
  ghost predicate Grown(e: Env, products: seq<Product>, vs: seq<StoreVariant>, js: seq<Verdict>) {
    && |vs| == |js| && e.table <= products && UniqueSkus(products) && DistinctSkus(vs)
    && (forall k :: |e.table| <= k < |products| ==> MadeForOne(products[k], e.template, vs, js))
    && (forall i :: 0 <= i < |vs| && js[i].Make? ==> NewProduct(e.template, vs[i]) in products)
    && (forall k :: 0 <= k < |e.alternates| ==> e.alternates[k].product < |e.table|)
  }

  lemma {:induction false} TableGrown(e: Env, ms: seq<Mapped>, vs: seq<StoreVariant>)
    requires DistinctSkus(vs) && UniqueSkus(TabledAll(e.table, e, vs, Judged(e.table, e, ms, vs)))
    requires forall k :: 0 <= k < |e.alternates| ==> e.alternates[k].product < |e.table|
    ensures Grown(e, TabledAll(e.table, e, vs, Judged(e.table, e, ms, vs)), vs, Judged(e.table, e, ms, vs))
  {
    var js := Judged(e.table, e, ms, vs);
    var products := TabledAll(e.table, e, vs, js);
    hide Judged, TabledAll;
    TableGrows(e.table, e, vs, js);
    forall k | |e.table| <= k < |products| ensures MadeForOne(products[k], e.template, vs, js) {
      var i := MadeFor(e.table, e, vs, js, k);
    }
    forall i | 0 <= i < |vs| && js[i].Make? ensures NewProduct(e.template, vs[i]) in products {
      MadeAt(e.table, e, vs, js, i);
    }
  }

  lemma {:induction false} AlternateInRange(alternates: seq<Alternate>, code: nat, n: nat)
    requires forall i :: 0 <= i < |alternates| ==> alternates[i].product < n
    ensures AlternateOf(alternates, code).Some? ==> AlternateOf(alternates, code).value < n
  {
    if alternates != [] {
      AlternateInRange(alternates[..|alternates| - 1], code, n);
    }
  }

  lemma {:induction false} InTable(products: seq<Product>, p: Product)
    requires p in products
    ensures p.sku.Code? ==> OwnOf(products, p.template, p.sku.n).Some? && CarrierOf(products, p.sku.n).Some?
    ensures TwinOf(products, p.template, p.values).Some?
  {
    var k :| 0 <= k < |products| && products[k] == p;
  }

  lemma {:induction false} NotMade(e: Env, products: seq<Product>, vs: seq<StoreVariant>, js: seq<Verdict>, i: nat, k: nat)
    requires Grown(e, products, vs, js) && i < |vs| && !js[i].Make? && |e.table| <= k < |products|
    ensures products[k].sku != Code(vs[i].sku)
  {
    assert MadeForOne(products[k], e.template, vs, js);
    var n :| 0 <= n < |vs| && js[n].Make? && products[k] == NewProduct(e.template, vs[n]);
  }

  /** A SKU of the store's is carried by the final table exactly when it was before or a product was made. */
  lemma {:induction false} CarriedAgain(e: Env, products: seq<Product>, vs: seq<StoreVariant>, js: seq<Verdict>, i: nat)
    requires Grown(e, products, vs, js) && i < |vs|
    ensures CarrierOf(products, vs[i].sku).Some? <==> CarrierOf(e.table, vs[i].sku).Some? || js[i].Make?
    ensures CarrierOf(e.table, vs[i].sku).Some? ==> CarrierOf(products, vs[i].sku) == CarrierOf(e.table, vs[i].sku)
  {
    var c := vs[i].sku;
    var before, later := CarrierOf(e.table, c), CarrierOf(products, c);
    if before.Some? {
      assert products[before.value].sku == Code(c) == products[later.value].sku;
    } else if js[i].Make? {
      InTable(products, NewProduct(e.template, vs[i]));
    } else if later.Some? {
      if later.value >= |e.table| {
        NotMade(e, products, vs, js, i, later.value);
      }
    }
  }

  lemma {:induction false} OwnAgain(e: Env, products: seq<Product>, vs: seq<StoreVariant>, js: seq<Verdict>, i: nat)
    requires Grown(e, products, vs, js) && i < |vs|
    ensures OwnOf(products, e.template, vs[i].sku).Some? <==> OwnOf(e.table, e.template, vs[i].sku).Some? || js[i].Make?
  {
    var before, later := OwnOf(e.table, e.template, vs[i].sku), OwnOf(products, e.template, vs[i].sku);
    if before.Some? {
      assert products[before.value] == e.table[before.value];
    } else if js[i].Make? {
      InTable(products, NewProduct(e.template, vs[i]));
    } else if later.Some? {
      if later.value >= |e.table| {
        NotMade(e, products, vs, js, i, later.value);
      }
    }
  }

  /** Unless a product was made for it, a SKU is looked up to the same product as before. */
  lemma {:induction false} KnownAgain(e: Env, products: seq<Product>, vs: seq<StoreVariant>, js: seq<Verdict>, i: nat)
    requires Grown(e, products, vs, js) && i < |vs|
    ensures var before, later := Known(e.table, e.alternates, vs[i].sku), Known(products, e.alternates, vs[i].sku);
            && (before.Some? || !js[i].Make? ==> later == before)
            && (later.Some? ==> later.value < |products|)
            && (before.Some? ==> before.value < |e.table| && products[before.value] == e.table[before.value])
  {
    CarriedAgain(e, products, vs, js, i);
    AlternateInRange(e.alternates, vs[i].sku, |e.table|);
  }

  /** After the import the SKUs that found a master find one, and those a product was made for. */
  lemma {:induction false} MasterKept(e: Env, products: seq<Product>, vs: seq<StoreVariant>, js: seq<Verdict>, i: nat)
    requires Grown(e, products, vs, js) && i < |vs|
    ensures MasterOf(e.(table := products), vs[i].sku).Some? <==> MasterOf(e, vs[i].sku).Some? || js[i].Make?
  {
    OwnAgain(e, products, vs, js, i);
    KnownAgain(e, products, vs, js, i);
    assert vs[i].sku != 0;
    hide Grown, OwnOf, Known;
  }

  /** A variant has a master after the import exactly when it was not refused. */
  lemma {:induction false} MasterAgain(e: Env, products: seq<Product>, vs: seq<StoreVariant>, js: seq<Verdict>, i: nat,
                                       table: seq<Product>, mapped: bool)
    requires Grown(e, products, vs, js) && i < |vs| && !js[i].Clash?
    requires js[i] == VerdictOn(table, e, vs[i], mapped) && table <= products
    ensures MasterOf(e.(table := products), vs[i].sku).Some? <==> !js[i].Refuse?
  {
    MasterKept(e, products, vs, js, i);
    if js[i].Link? && MasterOf(e, vs[i].sku).None? {
      var twin := TwinOf(table, e.template, vs[i].values);
      TwinIsOwn(e, products, vs[i], twin.value);
    }
  }

  lemma {:induction false} TwinIsOwn(e: Env, products: seq<Product>, v: StoreVariant, k: nat)
    requires k < |products| && products[k].template == e.template && products[k].sku == Code(v.sku) && v.sku != 0
    ensures MasterOf(e.(table := products), v.sku).Some?
  {
    InTable(products, products[k]);
  }

  /** A refused variant is refused again, unless it has no attributes. */
  lemma {:induction false} RefusedAgain(e: Env, products: seq<Product>, vs: seq<StoreVariant>, js: seq<Verdict>, i: nat,
                                        table: seq<Product>, mapped: bool)
    requires Grown(e, products, vs, js) && i < |vs| && js[i].Refuse?
    requires js[i] == VerdictOn(table, e, vs[i], mapped) && table <= products
    ensures Creation(products, e.template, e.auto, vs[i]).Refuse? <==> vs[i].values != {}
  {
    var v := vs[i];
    MasterAgain(e, products, vs, js, i, table, mapped);
    var twin, before := TwinOf(products, e.template, v.values), TwinOf(table, e.template, v.values);
    if twin.Some? && products[twin.value].sku == Code(v.sku) {
      TwinIsOwn(e, products, v, twin.value);
    }
    if before.Some? {
      assert products[before.value] == table[before.value];
    }
  }

  /** Without attributes only a mapped variant without a master is refused, and only if masters are not
      automatic. */
  lemma {:induction false} RefusedBare(e: Env, v: StoreVariant, table: seq<Product>, mapped: bool)
    requires v.values == {}
    ensures VerdictOn(table, e, v, mapped).Refuse? <==> mapped && !e.auto && MasterOf(e, v.sku).None?
  {
  }

  // ------------------------------------------------------------------ whether the template stays

  /** No SKU that got a new product and is an alternate SKU as well is the smallest one carried. */
  ghost predicate Stays(e: Env, vs: seq<StoreVariant>, js: seq<Verdict>)
    requires |js| == |vs|
  {
    forall i :: 0 <= i < |vs| && js[i].Make? && AlternateOf(e.alternates, vs[i].sku).Some? ==>
      exists j :: 0 <= j < |vs| && (js[j].Make? || CarrierOf(e.table, vs[j].sku).Some?) && vs[j].sku < vs[i].sku
  }

  /** How the template was chosen: by the first key, or because nothing was known. */
  ghost predicate ChosenFor(e: Env, vs: seq<StoreVariant>) {
    || Chosen(e.table, e.alternates, vs) == Some(e.template)
    || ((forall i :: 0 <= i < |vs| ==> AlternateOf(e.alternates, vs[i].sku).None?)
        && (forall k, i :: 0 <= k < |e.table| && 0 <= i < |vs| && e.table[k].sku == Code(vs[i].sku) ==>
              e.table[k].template == e.template))
  }

  lemma {:induction false} SmallestAgain(e: Env, products: seq<Product>, vs: seq<StoreVariant>, js: seq<Verdict>)
    returns (j: nat)
    requires Grown(e, products, vs, js) && SmallestCarried(products, vs).Some?
    ensures j < |vs| && SmallestCarried(products, vs) == Some(vs[j].sku)
    ensures js[j].Make? || CarrierOf(e.table, vs[j].sku).Some?
    ensures forall i :: 0 <= i < |vs| && (js[i].Make? || CarrierOf(e.table, vs[i].sku).Some?) ==> vs[j].sku <= vs[i].sku
  {
    var least := SmallestCarried(products, vs).value;
    j :| 0 <= j < |vs| && vs[j].sku == least && CarrierOf(products, vs[j].sku).Some?;
    forall i | 0 <= i < |vs|
      ensures CarrierOf(products, vs[i].sku).Some? <==> js[i].Make? || CarrierOf(e.table, vs[i].sku).Some?
    {
      CarriedAgain(e, products, vs, js, i);
    }
  }

  /** If the smallest SKU was carried before, it was the first key and still leads to the template. */
  lemma {:induction false} SameKey(e: Env, products: seq<Product>, vs: seq<StoreVariant>, js: seq<Verdict>, j: nat)
    requires Grown(e, products, vs, js) && ChosenFor(e, vs) && j < |vs|
    requires SmallestCarried(products, vs) == Some(vs[j].sku) && !js[j].Make? && CarrierOf(e.table, vs[j].sku).Some?
    requires forall i :: 0 <= i < |vs| && (js[i].Make? || CarrierOf(e.table, vs[i].sku).Some?) ==> vs[j].sku <= vs[i].sku
    ensures Chosen(products, e.alternates, vs) == Some(e.template)
  {
    KnownAgain(e, products, vs, js, j);
    var before := SmallestCarried(e.table, vs);
    assert before == Some(vs[j].sku);
  }

  /** If it is that of a new product, it leads to the template unless it is an alternate SKU. */
  lemma {:induction false} NewKey(e: Env, products: seq<Product>, vs: seq<StoreVariant>, js: seq<Verdict>, j: nat)
    requires Grown(e, products, vs, js) && j < |vs| && js[j].Make? && MasterOf(e, vs[j].sku).None?
    requires SmallestCarried(products, vs) == Some(vs[j].sku)
    ensures Chosen(products, e.alternates, vs) == Some(e.template) <==> AlternateOf(e.alternates, vs[j].sku).None?
  {
    var c := vs[j].sku;
    KnownAgain(e, products, vs, js, j);
    OwnAgain(e, products, vs, js, j);
    AlternateInRange(e.alternates, c, |e.table|);
    if AlternateOf(e.alternates, c).None? {
      var own, carrier := OwnOf(products, e.template, c), CarrierOf(products, c);
      assert products[own.value].sku == Code(c) == products[carrier.value].sku;
    }
  }

  /** If no SKU is carried, the first alternate SKU leads to the template as before. */
  lemma {:induction false} NoKey(e: Env, products: seq<Product>, vs: seq<StoreVariant>, js: seq<Verdict>)
    requires Grown(e, products, vs, js) && SmallestCarried(products, vs).None?
    requires Chosen(e.table, e.alternates, vs) == Some(e.template)
    ensures Chosen(products, e.alternates, vs) == Some(e.template) && Stays(e, vs, js)
  {
    forall i | 0 <= i < |vs| ensures !js[i].Make? && CarrierOf(e.table, vs[i].sku).None? {
      CarriedAgain(e, products, vs, js, i);
    }
    assert SmallestCarried(e.table, vs).None?;
    var key := FirstAlternate(e.alternates, vs);
    var i :| 0 <= i < |vs| && vs[i].sku == key.value;
    KnownAgain(e, products, vs, js, i);
  }

  /** The template chosen again is the same exactly if no new product moves the first key away. */
  lemma {:induction false} StaysIff(e: Env, products: seq<Product>, vs: seq<StoreVariant>, js: seq<Verdict>)
    requires Grown(e, products, vs, js) && ChosenFor(e, vs)
    requires forall i :: 0 <= i < |vs| && js[i].Make? ==> MasterOf(e, vs[i].sku).None?
    requires Chosen(e.table, e.alternates, vs) == Some(e.template) || SmallestCarried(products, vs).Some?
    ensures Chosen(products, e.alternates, vs) == Some(e.template) <==> Stays(e, vs, js)
  {
    if SmallestCarried(products, vs).None? {
      NoKey(e, products, vs, js);
    } else {
      var j := SmallestAgain(e, products, vs, js);
      if js[j].Make? {
        NewKey(e, products, vs, js, j);
      } else {
        SameKey(e, products, vs, js, j);
      }
      hide Chosen, SmallestCarried, MasterOf, ChosenFor;
      forall i | 0 <= i < |vs| && js[i].Make? && AlternateOf(e.alternates, vs[i].sku).Some?
        ensures vs[j].sku < vs[i].sku || i == j
      {
        if i != j {
          OtherSku(vs, i, j);
        }
      }
    }
  }

  lemma {:induction false} OtherSku(vs: seq<StoreVariant>, i: nat, j: nat)
    requires DistinctSkus(vs) && i < |vs| && j < |vs| && i != j
    ensures vs[i].sku != vs[j].sku
  {
  }

  // ------------------------------------------------------------------ main result

  /** An accepted import of data with ids and SKUs of their own. */
  ghost predicate Accepted(s: State, d: StoreProduct, auto: bool) {
    Sound(s) && DistinctVariants(d.variants) && DistinctSkus(d.variants) && Imported(s, d, auto).Some?
  }

  /** An accepted import, as its loop saw it. */
  lemma {:induction false} ImportIs(s: State, d: StoreProduct, auto: bool)
    requires Accepted(s, d, auto)
    ensures var start, once, vs, js := Started(s, d, auto).value, Imported(s, d, auto).value, d.variants, Plan(s, d, auto);
            && once.products == TabledAll(start.env.table, start.env, vs, js) && Sound(once)
            && once.alternates == s.alternates == start.env.alternates && start.env.auto == auto
            && (once.mapping.Some? ==> once.mapping.value.template == start.env.template)
            && (start.env.table == start.state.products && start.state.mapping.Some?)
            && forall i :: 0 <= i < |vs| ==> !js[i].Clash?
  {
    var start, vs, js := Started(s, d, auto).value, d.variants, Plan(s, d, auto);
    ImportedSound(s, d, auto);
    PlanIs(s, d, auto);
    LoopTables(start.state, start.env, vs);
    hide Plan, Judged, TabledAll;
    forall i | 0 <= i < |vs| ensures !js[i].Clash? {
      NoClash(start.state, start.env, vs, i);
    }
  }

  lemma {:induction false} ImportGrown(s: State, d: StoreProduct, auto: bool)
    requires Accepted(s, d, auto)
    ensures Grown(Started(s, d, auto).value.env, Imported(s, d, auto).value.products, d.variants, Plan(s, d, auto))
  {
    ImportIs(s, d, auto);
    TableGrown(Started(s, d, auto).value.env, Initial(s), d.variants);
  }

  /** Without a chosen template no SKU is known. */
  lemma {:induction false} NothingKnown(s: State, vs: seq<StoreVariant>)
    requires Sound(s) && Chosen(s.products, s.alternates, vs).None?
    ensures SmallestCarried(s.products, vs).None?
    ensures forall i :: 0 <= i < |vs| ==> AlternateOf(s.alternates, vs[i].sku).None? && CarrierOf(s.products, vs[i].sku).None?
  {
    var key := FirstKey(s.products, s.alternates, vs);
    if key.Some? {
      AlternateInRange(s.alternates, key.value, |s.products|);
    }
  }

  lemma {:induction false} UnknownFor(s: State, d: StoreProduct, e: Env, vs: seq<StoreVariant>)
    requires Sound(s) && Chosen(s.products, s.alternates, vs).None?
    requires e.table == s.products + FirstVariant(s.templates, d) && e.template == s.templates && e.alternates == s.alternates
    ensures ChosenFor(e, vs)
  {
    NothingKnown(s, vs);
    hide Chosen, SmallestCarried, Sound;
    forall k, i | 0 <= k < |e.table| && 0 <= i < |vs| && e.table[k].sku == Code(vs[i].sku)
      ensures e.table[k].template == e.template
    {
      assert CarrierOf(s.products, vs[i].sku).None?;
    }
  }

  lemma {:induction false} ImportChosenFor(s: State, d: StoreProduct, auto: bool)
    requires Accepted(s, d, auto)
    ensures ChosenFor(Started(s, d, auto).value.env, d.variants)
  {
    var e := Started(s, d, auto).value.env;
    hide Sound, Imported, DistinctVariants, DistinctSkus, Chosen;
    if Chosen(s.products, s.alternates, d.variants).None? {
      UnknownFor(s, d, e, d.variants);
    }
  }

  /** A new template has a variant without attributes at most. */
  lemma {:induction false} NoTwin(s: State, d: StoreProduct, values: set<nat>)
    requires Sound(s) && values != {}
    ensures TwinOf(s.products + FirstVariant(s.templates, d), s.templates, values).None?
  {
    var table := s.products + FirstVariant(s.templates, d);
    assert forall k :: 0 <= k < |s.products| ==> table[k].template < s.templates;
  }

  lemma {:induction false} NotRefused(e: Env, v: StoreVariant, mapped: bool)
    requires e.auto && AlternateOf(e.alternates, v.sku).None?
    requires v.values != {} ==> TwinOf(e.table, e.template, v.values).None?
    ensures var j := VerdictOn(e.table, e, v, mapped);
            j.Make? || j.Clash? || CarrierOf(e.table, v.sku).Some?
  {
    if OwnOf(e.table, e.template, v.sku).Some? {
      assert e.table[OwnOf(e.table, e.template, v.sku).value].sku == Code(v.sku);
    }
  }

  /** In a new template the first store variant is not refused, so its SKU is carried afterwards. */
  lemma {:induction false} FirstIsCarried(s: State, d: StoreProduct, auto: bool)
    requires Accepted(s, d, auto) && Chosen(s.products, s.alternates, d.variants).None?
    ensures SmallestCarried(Imported(s, d, auto).value.products, d.variants).Some?
  {
    var e, vs, js := Started(s, d, auto).value.env, d.variants, Plan(s, d, auto);
    ImportIs(s, d, auto);
    ImportGrown(s, d, auto);
    NothingKnown(s, vs);
    assert auto by { NotSomeKnown(s, vs); }
    if vs[0].values != {} {
      NoTwin(s, d, vs[0].values);
    }
    NotRefused(e, vs[0], HasId(Initial(s), vs[0].id));
    assert js[0] == VerdictOn(e.table, e, vs[0], HasId(Initial(s), vs[0].id));
    hide VerdictOn, TabledAll, Started, Imported;
    CarriedAgain(e, Imported(s, d, auto).value.products, vs, js, 0);
  }

  lemma {:induction false} NotSomeKnown(s: State, vs: seq<StoreVariant>)
    requires forall i :: 0 <= i < |vs| ==> AlternateOf(s.alternates, vs[i].sku).None? && CarrierOf(s.products, vs[i].sku).None?
    ensures !SomeKnown(s, vs)
  {
  }

  /** The import chooses the same template again exactly if it stays. */
  lemma {:induction false} TemplateAgain(s: State, d: StoreProduct, auto: bool)
    requires Accepted(s, d, auto)
    ensures var e, once := Started(s, d, auto).value.env, Imported(s, d, auto).value;
            Chosen(once.products, once.alternates, d.variants) == Some(e.template) <==> Stays(e, d.variants, Plan(s, d, auto))
  {
    var e, products, vs, js := Started(s, d, auto).value.env, Imported(s, d, auto).value.products, d.variants, Plan(s, d, auto);
    ImportIs(s, d, auto);
    ImportGrown(s, d, auto);
    ImportChosenFor(s, d, auto);
    if Chosen(s.products, s.alternates, vs).None? {
      FirstIsCarried(s, d, auto);
    }
    forall i | 0 <= i < |vs| && js[i].Make? ensures MasterOf(e, vs[i].sku).None? {
      var table := JudgedAt(e.table, e, Initial(s), vs, i);
    }
    StaysIff(e, products, vs, js);
  }

  /** A variant is settled after the import if it was not refused, or has attributes. */
  lemma {:induction false} SettledAgain(s: State, d: StoreProduct, auto: bool, i: nat)
    requires Accepted(s, d, auto) && Imported(s, d, auto).value.mapping.Some? && i < |d.variants|
    ensures var e, once := Started(s, d, auto).value.env, Imported(s, d, auto).value;
            SettledAt(once, e.(table := once.products), d.variants[i])
            <==> Plan(s, d, auto)[i].Refuse? ==> d.variants[i].values != {}
  {
    var e, once, vs, js := Started(s, d, auto).value.env, Imported(s, d, auto).value, d.variants, Plan(s, d, auto);
    var v := vs[i];
    ImportIs(s, d, auto);
    ImportGrown(s, d, auto);
    MappedOrLogged(s, d, auto, v.id);
    var table := JudgedAt(e.table, e, Initial(s), vs, i);
    hide Started, Imported, Plan, Grown, MasterOf, Creation, VerdictOn, Sound, TabledAll;
    MasterAgain(e, once.products, vs, js, i, table, HasId(Initial(s), v.id));
    if js[i].Refuse? {
      RefusedAgain(e, once.products, vs, js, i, table, HasId(Initial(s), v.id));
    }
  }

  /** The mapping survives the import unless it had variants and every store variant is refused. */
  lemma {:induction false} MappingSurvives(s: State, d: StoreProduct, auto: bool)
    requires Accepted(s, d, auto)
    ensures Imported(s, d, auto).value.mapping.Some? <==>
            Initial(s) == [] || exists i :: 0 <= i < |d.variants| && !Plan(s, d, auto)[i].Refuse?
    ensures Imported(s, d, auto).value.mapping.Some? ==> AllSent(Imported(s, d, auto).value.mapping.value.variants, d.variants)
  {
    var start, js := Started(s, d, auto).value, Plan(s, d, auto);
    PlanIs(s, d, auto);
    ImportIs(s, d, auto);
    hide Plan, Judged, TabledAll;
    LoopDeletesIff(start.state, start.env, d.variants, js);
    if Imported(s, d, auto).value.mapping.Some? {
      LoopSent(start.state, start.env, d.variants);
    }
  }

  /** A mapped variant without attributes and without a master. */
  predicate Bare(s: State, e: Env, v: StoreVariant) {
    HasId(Initial(s), v.id) && MasterOf(e, v.sku).None? && v.values == {}
  }

  /** Refused without attributes: a mapped variant without a master, if masters are not automatic. */
  lemma {:induction false} BareRefused(s: State, d: StoreProduct, auto: bool, i: nat)
    requires Accepted(s, d, auto) && i < |d.variants| && d.variants[i].values == {}
    ensures Plan(s, d, auto)[i].Refuse? <==> !auto && Bare(s, Started(s, d, auto).value.env, d.variants[i])
  {
    var e, v := Started(s, d, auto).value.env, d.variants[i];
    ImportIs(s, d, auto);
    var table := JudgedAt(e.table, e, Initial(s), d.variants, i);
    RefusedBare(e, v, table, HasId(Initial(s), v.id));
  }

  lemma {:induction false} AllSettledAgain(s: State, d: StoreProduct, auto: bool)
    requires Accepted(s, d, auto)
    ensures var e, once, vs, js := Started(s, d, auto).value.env, Imported(s, d, auto).value, d.variants, Plan(s, d, auto);
            forall i :: 0 <= i < |vs| ==>
              && (once.mapping.Some? ==>
                   (SettledAt(once, e.(table := once.products), vs[i]) <==> (js[i].Refuse? ==> vs[i].values != {})))
              && (vs[i].values == {} ==> (js[i].Refuse? <==> !auto && Bare(s, e, vs[i])))
  {
    var e, once, vs, js := Started(s, d, auto).value.env, Imported(s, d, auto).value, d.variants, Plan(s, d, auto);
    forall i | 0 <= i < |vs|
      ensures once.mapping.Some? ==>
                (SettledAt(once, e.(table := once.products), vs[i]) <==> (js[i].Refuse? ==> vs[i].values != {}))
      ensures vs[i].values == {} ==> (js[i].Refuse? <==> !auto && Bare(s, e, vs[i]))
    {
      if once.mapping.Some? {
        SettledAgain(s, d, auto, i);
      }
      if vs[i].values == {} {
        BareRefused(s, d, auto, i);
      }
    }
  }

  lemma {:induction false} SettledUnder(once: State, d: StoreProduct, e: Env, js: seq<Verdict>)
    requires |js| == |d.variants| > 0 && e.alternates == once.alternates
    requires once.mapping.Some? ==>
               once.mapping.value.template == e.template && AllSent(once.mapping.value.variants, d.variants)
    requires forall i :: 0 <= i < |js| && once.mapping.Some? ==>
               (SettledAt(once, e.(table := once.products), d.variants[i]) <==> (js[i].Refuse? ==> d.variants[i].values != {}))
    ensures Settled(once, d, e.auto)
            <==> && Chosen(once.products, once.alternates, d.variants) == Some(e.template) && once.mapping.Some?
                 && forall i :: 0 <= i < |js| && js[i].Refuse? ==> d.variants[i].values != {}
  {
    hide SettledAt, Chosen, AllSent;
    assert e.(table := once.products) == Env(once.products, once.alternates, e.template, e.auto);
  }

  /** Settled after the first import: the template is chosen again, the mapping is there, and what was refused
      has attributes. */
  lemma {:induction false} SettledAfterIff(s: State, d: StoreProduct, auto: bool)
    requires Accepted(s, d, auto)
    ensures var e, once, vs, js := Started(s, d, auto).value.env, Imported(s, d, auto).value, d.variants, Plan(s, d, auto);
            Settled(once, d, auto)
            <==> && Chosen(once.products, once.alternates, vs) == Some(e.template) && once.mapping.Some?
                 && forall i :: 0 <= i < |vs| && js[i].Refuse? ==> vs[i].values != {}
  {
    assert d.variants != [];
    ImportIs(s, d, auto);
    hide *;
    MappingSurvives(s, d, auto);
    AllSettledAgain(s, d, auto);
    SettledUnder(Imported(s, d, auto).value, d, Started(s, d, auto).value.env, Plan(s, d, auto));
  }

  /** Importing the same data again is accepted and changes nothing but the log exactly when the template
      stays, the mapping survives, and masters are automatic or no mapped variant is without attributes and
      without a master. */
  lemma {:induction false} RepeatChangesNothingIff(s: State, d: StoreProduct, auto: bool)
    requires Accepted(s, d, auto)
    ensures var e, once, js := Started(s, d, auto).value.env, Imported(s, d, auto).value, Plan(s, d, auto);
            Imported(once, d, auto).Some? && Imported(once, d, auto).value.(failed := once.failed) == once
            <==> && Stays(e, d.variants, js)
                 && (Initial(s) == [] || exists i :: 0 <= i < |js| && !js[i].Refuse?)
                 && (auto || forall i :: 0 <= i < |d.variants| ==> !Bare(s, e, d.variants[i]))
  {
    var e, once, vs, js := Started(s, d, auto).value.env, Imported(s, d, auto).value, d.variants, Plan(s, d, auto);
    assert DistinctVariants(d.variants);
    ImportIs(s, d, auto);
    hide *;
    UnchangedIff(once, d, auto);
    SettledAfterIff(s, d, auto);
    TemplateAgain(s, d, auto);
    MappingSurvives(s, d, auto);
    AllSettledAgain(s, d, auto);
  }
}
