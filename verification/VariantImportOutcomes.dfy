/** What becomes of each store variant, told from the master table it meets. */
module VariantImportOutcomes {
  import opened Options
  import opened VariantImport
  import opened VariantImportLaws

  // ------------------------------------------------------------------ the master of a SKU

  ghost predicate IsOwn(e: Env, code: nat, k: nat) {
    code != 0 && k < |e.table| && e.table[k].template == e.template && e.table[k].sku == Code(code)
  }

  ghost predicate IsAlternate(alternates: seq<Alternate>, code: nat, i: nat) {
    i < |alternates| && alternates[i].code == code
  }

  ghost predicate Carries(products: seq<Product>, code: nat, k: nat) { k < |products| && products[k].sku == Code(code) }

  /** The last of the template's own products with the SKU, if it is not empty; without one the product of the last
      alternate SKU, or else the last product with the SKU, if that is of the template. */
  ghost predicate IsMaster(e: Env, code: nat, k: nat) {
    if exists p: nat :: IsOwn(e, code, p) then IsOwn(e, code, k) && forall p: nat :: IsOwn(e, code, p) ==> p <= k
    else
      && k < |e.table| && e.table[k].template == e.template
      && if exists i: nat :: IsAlternate(e.alternates, code, i)
         then exists i: nat :: IsAlternate(e.alternates, code, i) && e.alternates[i].product == k
                          && forall j: nat :: IsAlternate(e.alternates, code, j) ==> j <= i
         else Carries(e.table, code, k) && forall p: nat :: Carries(e.table, code, p) ==> p <= k
  }

  lemma {:induction false} LastAlternate(alternates: seq<Alternate>, code: nat)
    ensures AlternateOf(alternates, code).None? ==> forall i: nat :: !IsAlternate(alternates, code, i)
    ensures AlternateOf(alternates, code).Some? ==>
              exists i: nat :: IsAlternate(alternates, code, i) && alternates[i].product == AlternateOf(alternates, code).value
                          && forall j: nat :: IsAlternate(alternates, code, j) ==> j <= i
  {
    if alternates != [] {
      var k := |alternates| - 1;
      if alternates[k].code == code {
        assert IsAlternate(alternates, code, k);
      } else {
        LastAlternate(alternates[..k], code);
        assert forall i: nat :: IsAlternate(alternates, code, i) <==> IsAlternate(alternates[..k], code, i);
      }
    }
  }

  lemma {:induction false} MasterIs(e: Env, code: nat, k: nat)
    ensures MasterOf(e, code) == Some(k) <==> IsMaster(e, code, k)
  {
    var own, carrier := OwnOf(e.table, e.template, code), CarrierOf(e.table, code);
    LastAlternate(e.alternates, code);
    assert own.None? || code == 0 ==> forall p: nat :: !IsOwn(e, code, p);
    assert own.Some? && code != 0 ==> IsOwn(e, code, own.value) && forall p: nat :: IsOwn(e, code, p) ==> p <= own.value;
    assert carrier.Some? ==> Carries(e.table, code, carrier.value) && forall p: nat :: Carries(e.table, code, p) ==> p <= carrier.value;
    assert carrier.None? ==> forall p: nat :: !Carries(e.table, code, p);
  }

  // ------------------------------------------------------------------ one store variant

  /** A variant of the template with these attributes. */
  ghost predicate IsTwin(products: seq<Product>, template: nat, values: set<nat>, k: nat) {
    k < |products| && products[k].template == template && products[k].values == values
  }

  /** The template has these attributes under another SKU. */
  ghost predicate Mismatched(products: seq<Product>, template: nat, v: StoreVariant) {
    v.values != {} && exists k: nat :: IsTwin(products, template, v.values, k) && products[k].sku != Code(v.sku)
  }

  ghost predicate HasTwin(products: seq<Product>, template: nat, v: StoreVariant) {
    exists k: nat :: IsTwin(products, template, v.values, k)
  }

  /** A new product would repeat attributes of the template or a SKU that is not empty. */
  ghost predicate Repeats(products: seq<Product>, template: nat, v: StoreVariant) {
    HasTwin(products, template, v) || (v.sku != 0 && exists k: nat :: Carries(products, v.sku, k))
  }

  ghost predicate MappedTo(s: State, id: nat, product: nat) {
    s.mapping.Some? && Mapped(Some(id), Some(product)) in s.mapping.value.variants
  }

  ghost predicate Maps(s: State, id: nat) {
    s.mapping.Some? && exists i: nat :: 0 <= i < |s.mapping.value.variants| && s.mapping.value.variants[i].storeId == Some(id)
  }

  /** Nothing but the mapping of the variant changes in the mapping. */
  ghost predicate OthersKept(s: State, id: nat, s': State) {
    forall m: Mapped :: m.storeId != Some(id) ==>
      (s.mapping.Some? && m in s.mapping.value.variants <==> s'.mapping.Some? && m in s'.mapping.value.variants)
  }

  /** Logged, and not mapped. */
  ghost predicate LoggedOnly(s: State, v: StoreVariant, s': State) {
    s'.failed == s.failed + [v.id] && s'.products == s.products && !Maps(s', v.id)
  }

  lemma {:induction false} PlacedIs(ms: seq<Mapped>, id: nat, product: nat)
    ensures Mapped(Some(id), Some(product)) in Placed(ms, id, product)
    ensures forall m: Mapped :: m.storeId != Some(id) ==> (m in ms <==> m in Placed(ms, id, product))
  {
    var placed := Placed(ms, id, product);
    if HasId(ms, id) {
      var i :| 0 <= i < |ms| && ms[i].storeId == Some(id);
      assert placed[i] == Mapped(Some(id), Some(product));
      forall m: Mapped | m.storeId != Some(id) ensures m in ms <==> m in placed {
        if m in ms {
          var j :| 0 <= j < |ms| && ms[j] == m;
          assert placed[j] == m;
        }
        if m in placed {
          var j :| 0 <= j < |placed| && placed[j] == m;
          assert ms[j] == m;
        }
      }
    }
  }

  lemma {:induction false} MapsIff(s: State, id: nat)
    ensures Maps(s, id) <==> Holds(s, id)
  {
  }

  /** With a master the variant is mapped to it, unless it is mapped already; nothing else changes. */
  lemma {:induction false} WithMaster(s: State, e: Env, v: StoreVariant, k: nat)
    requires s.mapping.Some? && IsMaster(e, v.sku, k)
    ensures Processed(s, e, v).Some?
    ensures var s' := Processed(s, e, v).value;
            && s'.products == s.products && s'.failed == s.failed && OthersKept(s, v.id, s')
            && (if Maps(s, v.id) then s' == s else MappedTo(s', v.id, k))
  {
    MasterIs(e, v.sku, k);
    MapsIff(s, v.id);
    PlacedIs(s.mapping.value.variants, v.id, k);
  }

  /** Without a master, a mapped variant is thrown out unless masters are automatic. */
  lemma {:induction false} ThrownOut(s: State, e: Env, v: StoreVariant)
    requires s.mapping.Some? && (forall k: nat :: !IsMaster(e, v.sku, k)) && Maps(s, v.id) && !e.auto
    ensures Processed(s, e, v).Some? && LoggedOnly(s, v, Processed(s, e, v).value) && OthersKept(s, v.id, Processed(s, e, v).value)
  {
    NoMaster(e, v.sku);
    RefusedIs(s, e, v);
  }

  lemma {:induction false} NoMaster(e: Env, code: nat)
    requires forall k: nat :: !IsMaster(e, code, k)
    ensures MasterOf(e, code).None?
  {
    if MasterOf(e, code).Some? {
      MasterIs(e, code, MasterOf(e, code).value);
    }
  }

  lemma {:induction false} RefusedIs(s: State, e: Env, v: StoreVariant)
    requires s.mapping.Some? && VerdictOn(s.products, e, v, HasId(s.mapping.value.variants, v.id)).Refuse?
    ensures Processed(s, e, v).Some? && LoggedOnly(s, v, Processed(s, e, v).value) && OthersKept(s, v.id, Processed(s, e, v).value)
  {
    var ms := s.mapping.value.variants;
    ProcessedHolds(s, e, v, v.id);
    MapsIff(Processed(s, e, v).value, v.id);
    WithoutMembers(ms, v.id);
  }

  lemma {:induction false} TwinIs(products: seq<Product>, template: nat, values: set<nat>, k: nat)
    requires UniqueTwins(products) && IsTwin(products, template, values, k)
    ensures TwinOf(products, template, values) == Some(k)
  {
  }

  lemma {:induction false} NoTwin(products: seq<Product>, template: nat, v: StoreVariant)
    requires !HasTwin(products, template, v)
    ensures TwinOf(products, template, v.values).None?
  {
    var twin := TwinOf(products, template, v.values);
    assert twin.Some? ==> IsTwin(products, template, v.values, twin.value);
  }

  /** Without a master, attributes that the template has under another SKU are refused, whatever the setting:
      the variant is logged and not mapped, and the import goes on. */
  lemma {:induction false} MismatchRefused(s: State, e: Env, v: StoreVariant)
    requires s.mapping.Some? && UniqueTwins(s.products)
    requires (forall k: nat :: !IsMaster(e, v.sku, k)) && Mismatched(s.products, e.template, v)
    ensures Processed(s, e, v).Some? && LoggedOnly(s, v, Processed(s, e, v).value) && OthersKept(s, v.id, Processed(s, e, v).value)
  {
    NoMaster(e, v.sku);
    var k: nat :| IsTwin(s.products, e.template, v.values, k) && s.products[k].sku != Code(v.sku);
    TwinIs(s.products, e.template, v.values, k);
    RefusedIs(s, e, v);
  }

  /** Without a master, and where masters are automatic or it has no attributes, a variant that is not refused gets
      a new product of its template, SKU and attributes; or the import raises, exactly if that product would
      repeat attributes or a SKU. */
  lemma {:induction false} NewProductIff(s: State, e: Env, v: StoreVariant)
    requires s.mapping.Some? && UniqueTwins(s.products) && forall k: nat :: !IsMaster(e, v.sku, k)
    requires (e.auto || (v.values == {} && !Maps(s, v.id))) && !Mismatched(s.products, e.template, v)
    ensures Processed(s, e, v).None? <==> Repeats(s.products, e.template, v)
    ensures !Repeats(s.products, e.template, v) ==>
              var s' := Processed(s, e, v).value;
              && s'.products == s.products + [Product(e.template, Code(v.sku), v.values)]
              && MappedTo(s', v.id, |s.products|) && s'.failed == s.failed && OthersKept(s, v.id, s')
  {
    NoMaster(e, v.sku);
    MapsIff(s, v.id);
    var twin, carrier := TwinOf(s.products, e.template, v.values), CarrierOf(s.products, v.sku);
    assert twin.Some? ==> IsTwin(s.products, e.template, v.values, twin.value);
    assert carrier.Some? ==> Carries(s.products, v.sku, carrier.value);
    if HasTwin(s.products, e.template, v) {
      var k: nat :| IsTwin(s.products, e.template, v.values, k);
      TwinIs(s.products, e.template, v.values, k);
    }
    PlacedIs(s.mapping.value.variants, v.id, |s.products|);
  }

  /** Without a master, without automatic masters and with attributes, an unmapped variant gets the variant of the
      template that has its attributes and SKU, and is logged if there is none. */
  lemma {:induction false} ExistingProductIff(s: State, e: Env, v: StoreVariant)
    requires s.mapping.Some? && UniqueTwins(s.products) && forall k: nat :: !IsMaster(e, v.sku, k)
    requires !e.auto && v.values != {} && !Maps(s, v.id)
    ensures Processed(s, e, v).Some?
    ensures forall k: nat :: IsTwin(s.products, e.template, v.values, k) && s.products[k].sku == Code(v.sku) ==>
              var s' := Processed(s, e, v).value;
              && s'.products == s.products && s'.failed == s.failed && MappedTo(s', v.id, k) && OthersKept(s, v.id, s')
    ensures (forall k: nat :: IsTwin(s.products, e.template, v.values, k) ==> s.products[k].sku != Code(v.sku)) ==>
              LoggedOnly(s, v, Processed(s, e, v).value) && OthersKept(s, v.id, Processed(s, e, v).value)
  {
    NoMaster(e, v.sku);
    MapsIff(s, v.id);
    var twin := TwinOf(s.products, e.template, v.values);
    if k: nat :| IsTwin(s.products, e.template, v.values, k) && s.products[k].sku == Code(v.sku) {
      TwinIs(s.products, e.template, v.values, k);
      PlacedIs(s.mapping.value.variants, v.id, k);
      forall j: nat | IsTwin(s.products, e.template, v.values, j) ensures j == k {
        TwinIs(s.products, e.template, v.values, j);
      }
    } else {
      assert twin.Some? ==> IsTwin(s.products, e.template, v.values, twin.value);
      RefusedIs(s, e, v);
    }
  }

  // ------------------------------------------------------------------ in the course of an import

  /** The loop over a variant more. */
  lemma {:induction false} LoopSnoc(s: State, e: Env, vs: seq<StoreVariant>, i: nat)
    requires i < |vs|
    ensures ProcessedAll(s, e, vs[..i + 1]) ==
            if ProcessedAll(s, e, vs[..i]).Some? then Processed(ProcessedAll(s, e, vs[..i]).value, e, vs[i]) else None
    decreases i
  {
    if i == 0 {
      assert vs[..1] == [vs[0]] && vs[..0] == [] && [vs[0]][1..] == [];
      if Processed(s, e, vs[0]).Some? {
        assert ProcessedAll(Processed(s, e, vs[0]).value, e, []) == Processed(s, e, vs[0]);
      }
    } else {
      assert vs[..i + 1][1..] == vs[1..][..i] && vs[..i][1..] == vs[1..][..i - 1];
      if Processed(s, e, vs[0]).Some? {
        LoopSnoc(Processed(s, e, vs[0]).value, e, vs[1..], i - 1);
      }
    }
  }

  /** The loop in two parts. */
  lemma {:induction false} LoopSplit(s: State, e: Env, vs: seq<StoreVariant>, i: nat)
    requires i <= |vs|
    ensures ProcessedAll(s, e, vs) ==
            if ProcessedAll(s, e, vs[..i]).Some? then ProcessedAll(ProcessedAll(s, e, vs[..i]).value, e, vs[i..]) else None
    decreases i
  {
    if i == 0 {
      assert vs[..0] == [] && vs[0..] == vs;
    } else {
      assert vs[..i][1..] == vs[1..][..i - 1] && vs[1..][i - 1..] == vs[i..];
      if Processed(s, e, vs[0]).Some? {
        LoopSplit(Processed(s, e, vs[0]).value, e, vs[1..], i - 1);
      }
    }
  }

  /** The state an import has reached when it comes to a store variant. */
  function Reached(s: State, d: StoreProduct, auto: bool, i: nat): Option<State>
    requires Started(s, d, auto).Some? && i <= |d.variants|
  {
    ProcessedAll(Started(s, d, auto).value.state, Started(s, d, auto).value.env, d.variants[..i])
  }

  lemma {:induction false} ReachedSound(s: State, d: StoreProduct, auto: bool, i: nat)
    requires Sound(s) && Started(s, d, auto).Some? && i < |d.variants| && Reached(s, d, auto, i).Some?
    ensures Sound(Reached(s, d, auto, i).value)
    ensures Reached(s, d, auto, i + 1) == Processed(Reached(s, d, auto, i).value, Started(s, d, auto).value.env, d.variants[i])
  {
    StartedSound(s, d, auto);
    LoopSound(Started(s, d, auto).value.state, Started(s, d, auto).value.env, d.variants[..i]);
    LoopSnoc(Started(s, d, auto).value.state, Started(s, d, auto).value.env, d.variants, i);
  }

  /** What an import does to one variant it leaves to that variant: the log keeps its entries, and the variants
      behind it neither map nor unmap it. */
  lemma {:induction false} RestKeeps(s: State, e: Env, vs: seq<StoreVariant>, i: nat, next: State)
    requires i < |vs| && DistinctVariants(vs) && ProcessedAll(s, e, vs[..i + 1]) == Some(next) && ProcessedAll(s, e, vs).Some?
    ensures next.failed <= ProcessedAll(s, e, vs).value.failed
    ensures Holds(ProcessedAll(s, e, vs).value, vs[i].id) <==> Holds(next, vs[i].id)
  {
    var rest := vs[i + 1..];
    LoopSplit(s, e, vs, i + 1);
    if next.mapping.Some? {
      assert DistinctVariants(rest) && !Sends(rest, vs[i].id);
      LoopTables(next, e, rest);
      LoopHolds(next, e, rest, vs[i].id);
    }
  }

  /** In every import: a store variant with attributes and no master, whose attributes the template has under
      another SKU when its turn comes, does not make the import raise, whatever the setting; and if the import
      is accepted the variant is logged by it and not mapped. */
  lemma {:induction false} MismatchIsLogged(s: State, d: StoreProduct, auto: bool, i: nat)
    requires Sound(s) && DistinctVariants(d.variants) && Started(s, d, auto).Some? && i < |d.variants|
    requires Reached(s, d, auto, i).Some? && Reached(s, d, auto, i).value.mapping.Some?
    requires var e, v := Started(s, d, auto).value.env, d.variants[i];
             && (forall k: nat :: !IsMaster(e, v.sku, k))
             && Mismatched(Reached(s, d, auto, i).value.products, e.template, v)
    ensures Reached(s, d, auto, i + 1).Some?
    ensures Imported(s, d, auto).Some? ==>
              var once := Imported(s, d, auto).value;
              s.failed <= once.failed && d.variants[i].id in once.failed[|s.failed|..] && !Maps(once, d.variants[i].id)
  {
    var start, e, v, before := Started(s, d, auto).value, Started(s, d, auto).value.env, d.variants[i], Reached(s, d, auto, i).value;
    ReachedSound(s, d, auto, i);
    MismatchRefused(before, e, v);
    if Imported(s, d, auto).Some? {
      var next, once := Reached(s, d, auto, i + 1).value, Imported(s, d, auto).value;
      RestKeeps(start.state, e, d.variants, i, next);
      MapsIff(once, v.id);
      MapsIff(next, v.id);
      FailedGrows(s, d, auto, i);
      assert next.failed[|s.failed|..][|before.failed| - |s.failed|] == v.id;
      assert once.failed[|before.failed|] == v.id;
    }
  }

  lemma {:induction false} FailedGrows(s: State, d: StoreProduct, auto: bool, i: nat)
    requires Started(s, d, auto).Some? && i <= |d.variants| && Reached(s, d, auto, i).Some? && DistinctVariants(d.variants)
    ensures s.failed <= Reached(s, d, auto, i).value.failed
  {
    StartIs(s, d, auto);
    var start := Started(s, d, auto).value;
    if start.state.mapping.Some? {
      assert DistinctVariants(d.variants[..i]);
      LoopTables(start.state, start.env, d.variants[..i]);
    }
  }
}
