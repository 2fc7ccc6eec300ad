/** When an import leaves two store variants on one master. */
module VariantImportMasters {
  import opened Options
  import opened VariantImport
  import opened VariantImportLaws
  import opened VariantImportRepeat

  // ------------------------------------------------------------------ the product of a mapped variant

  /** No two variants of a mapping have the same product. */
  ghost predicate MastersApart(ms: seq<Mapped>) {
    forall i, j :: 0 <= i < j < |ms| && ms[i].product.Some? ==> ms[i].product != ms[j].product
  }

  function ProductOf(ms: seq<Mapped>, id: nat): Option<nat> {
    if ms == [] then None else if ms[0].storeId == Some(id) then ms[0].product else ProductOf(ms[1..], id)
  }

  lemma {:induction false} ProductAt(ms: seq<Mapped>, k: nat)
    requires OneEach(ms) && k < |ms| && ms[k].storeId.Some?
    ensures ProductOf(ms, ms[k].storeId.value) == ms[k].product
  {
    if k > 0 {
      assert ms[0].storeId.Some? ==> ms[0].storeId != ms[k].storeId;
      assert forall i :: 0 <= i < |ms[1..]| ==> ms[1..][i] == ms[i + 1];
      ProductAt(ms[1..], k - 1);
    }
  }

  lemma {:induction false} WithoutProduct(ms: seq<Mapped>, id: nat, x: nat)
    requires x != id
    ensures ProductOf(Without(ms, id), x) == ProductOf(ms, x)
  {
    if ms != [] {
      WithoutProduct(ms[1..], id, x);
      if ms[0].storeId != Some(id) {
        assert ([ms[0]] + Without(ms[1..], id))[1..] == Without(ms[1..], id);
      } else {
        assert [] + Without(ms[1..], id) == Without(ms[1..], id);
      }
    }
  }

  lemma {:induction false} AppendedProduct(ms: seq<Mapped>, m: Mapped, x: nat)
    ensures ProductOf(ms + [m], x) == if HasId(ms, x) then ProductOf(ms, x)
                                      else if m.storeId == Some(x) then m.product else None
  {
    HasIdIn(ms, x);
    if ms == [] {
      assert [m][1..] == [] && [] + [m] == [m];
    } else {
      assert (ms + [m])[1..] == ms[1..] + [m];
      HasIdIn(ms[1..], x);
      AppendedProduct(ms[1..], m, x);
    }
  }

  lemma {:induction false} RewrittenProduct(ms: seq<Mapped>, id: nat, product: nat, x: nat)
    ensures ProductOf(WithProduct(ms, id, product), x) == if x == id && HasId(ms, id) then Some(product) else ProductOf(ms, x)
  {
    HasIdIn(ms, id);
    if ms != [] {
      HasIdIn(ms[1..], id);
      assert WithProduct(ms, id, product)[1..] == WithProduct(ms[1..], id, product);
      RewrittenProduct(ms[1..], id, product, x);
    }
  }

  lemma {:induction false} NoProduct(ms: seq<Mapped>, x: nat)
    requires !HasId(ms, x)
    ensures ProductOf(ms, x) == None
  {
    HasIdIn(ms, x);
    if ms != [] {
      HasIdIn(ms[1..], x);
      NoProduct(ms[1..], x);
    }
  }

  lemma {:induction false} PlacedProduct(ms: seq<Mapped>, id: nat, product: nat, x: nat)
    ensures ProductOf(Placed(ms, id, product), x) == if x == id then Some(product) else ProductOf(ms, x)
  {
    RewrittenProduct(ms, id, product, x);
    AppendedProduct(ms, Mapped(Some(id), Some(product)), x);
    if !HasId(ms, x) {
      NoProduct(ms, x);
    }
  }

  lemma {:induction false} KnownProduct(ms: seq<Mapped>, vs: seq<StoreVariant>, x: nat)
    requires Sends(vs, x)
    ensures ProductOf(KnownTo(ms, vs), x) == ProductOf(ms, x)
  {
    if ms != [] {
      KnownProduct(ms[1..], vs, x);
      if ms[0].storeId.Some? && Sends(vs, ms[0].storeId.value) {
        assert ([ms[0]] + KnownTo(ms[1..], vs))[1..] == KnownTo(ms[1..], vs);
      } else {
        assert [] + KnownTo(ms[1..], vs) == KnownTo(ms[1..], vs);
      }
    }
  }

  // ------------------------------------------------------------------ the products of an import

  /** The product a verdict leaves a store variant with. */
  function Outcome(products: seq<Product>, ms: seq<Mapped>, v: StoreVariant, j: Verdict): Option<nat> {
    match j
    case Keep => ProductOf(ms, v.id)
    case Link(product) => Some(product)
    case Make => Some(|products|)
    case _ => None
  }

  function Outcomes(products: seq<Product>, e: Env, ms: seq<Mapped>, vs: seq<StoreVariant>): (r: seq<Option<nat>>)
    ensures |r| == |vs|
    decreases |vs|
  {
    if vs == [] then []
    else
      var j := VerdictOn(products, e, vs[0], HasId(ms, vs[0].id));
      [Outcome(products, ms, vs[0], j)] + Outcomes(Tabled(products, e, vs[0], j), e, ms, vs[1..])
  }

  lemma {:induction false} OutcomesSame(products: seq<Product>, e: Env, ms: seq<Mapped>, ns: seq<Mapped>, vs: seq<StoreVariant>)
    requires forall i :: 0 <= i < |vs| ==> (HasId(ms, vs[i].id) <==> HasId(ns, vs[i].id))
    requires forall i :: 0 <= i < |vs| ==> ProductOf(ms, vs[i].id) == ProductOf(ns, vs[i].id)
    ensures Outcomes(products, e, ms, vs) == Outcomes(products, e, ns, vs)
    decreases |vs|
  {
    if vs != [] {
      assert forall i :: 0 <= i < |vs[1..]| ==> vs[1..][i] == vs[i + 1];
      OutcomesSame(Tabled(products, e, vs[0], VerdictOn(products, e, vs[0], HasId(ms, vs[0].id))), e, ms, ns, vs[1..]);
    }
  }

  /** The verdict and the product of a store variant come from one table. */
  lemma {:induction false} OutcomeAt(products: seq<Product>, e: Env, ms: seq<Mapped>, vs: seq<StoreVariant>, i: nat)
    returns (table: seq<Product>)
    requires i < |vs|
    ensures var j := VerdictOn(table, e, vs[i], HasId(ms, vs[i].id));
            Judged(products, e, ms, vs)[i] == j && Outcomes(products, e, ms, vs)[i] == Outcome(table, ms, vs[i], j)
    ensures products <= table && table <= TabledAll(products, e, vs, Judged(products, e, ms, vs))
    decreases |vs|
  {
    var j := VerdictOn(products, e, vs[0], HasId(ms, vs[0].id));
    var next := Tabled(products, e, vs[0], j);
    JudgedRest(products, e, ms, vs);
    hide VerdictOn, HasId, Judged, TabledAll, Outcome;
    if i == 0 {
      table := products;
      TableGrows(next, e, vs[1..], Judged(next, e, ms, vs[1..]));
      PrefixOf(products, next, TabledAll(next, e, vs[1..], Judged(next, e, ms, vs[1..])));
    } else {
      table := OutcomeAt(next, e, ms, vs[1..], i - 1);
      PrefixOf(products, next, table);
    }
  }

  lemma {:induction false} MadeAbove(products: seq<Product>, e: Env, ms: seq<Mapped>, vs: seq<StoreVariant>, k: nat)
    requires k < |vs| && Judged(products, e, ms, vs)[k].Make?
    ensures Outcomes(products, e, ms, vs)[k].Some? && Outcomes(products, e, ms, vs)[k].value >= |products|
  {
    var table := OutcomeAt(products, e, ms, vs, k);
  }

  lemma {:induction false} OutcomeRest(products: seq<Product>, e: Env, ms: seq<Mapped>, vs: seq<StoreVariant>, k: nat)
    requires 0 < k < |vs|
    ensures var next := Tabled(products, e, vs[0], VerdictOn(products, e, vs[0], HasId(ms, vs[0].id)));
            && Judged(products, e, ms, vs)[k] == Judged(next, e, ms, vs[1..])[k - 1]
            && Outcomes(products, e, ms, vs)[k] == Outcomes(next, e, ms, vs[1..])[k - 1]
  {
    hide VerdictOn, HasId, Outcome;
  }

  /** Products made for different variants are different. */
  lemma {:induction false} MakesDiffer(products: seq<Product>, e: Env, ms: seq<Mapped>, vs: seq<StoreVariant>, i: nat, k: nat)
    requires i < k < |vs| && Judged(products, e, ms, vs)[i].Make? && Judged(products, e, ms, vs)[k].Make?
    ensures Outcomes(products, e, ms, vs)[i] != Outcomes(products, e, ms, vs)[k]
    decreases |vs|
  {
    var j := VerdictOn(products, e, vs[0], HasId(ms, vs[0].id));
    var next := Tabled(products, e, vs[0], j);
    OutcomeRest(products, e, ms, vs, k);
    if i == 0 {
      MadeAbove(next, e, ms, vs[1..], k - 1);
      assert j.Make? && Outcomes(products, e, ms, vs)[0] == Some(|products|);
    } else {
      OutcomeRest(products, e, ms, vs, i);
      hide VerdictOn, HasId, Judged, Outcomes;
      MakesDiffer(next, e, ms, vs[1..], i - 1, k - 1);
    }
  }

  /** One variant: it gets the product its verdict says, and the others keep theirs. */
  lemma {:induction false} ProcessedProduct(s: State, e: Env, v: StoreVariant, x: nat)
    requires s.mapping.Some? && Processed(s, e, v).Some? && Processed(s, e, v).value.mapping.Some?
    ensures var ms, ns := s.mapping.value.variants, Processed(s, e, v).value.mapping.value.variants;
            var j := VerdictOn(s.products, e, v, HasId(ms, v.id));
            && (x != v.id ==> ProductOf(ns, x) == ProductOf(ms, x))
            && (!j.Refuse? ==> ProductOf(ns, v.id) == Outcome(s.products, ms, v, j))
  {
    var ms := s.mapping.value.variants;
    var j := VerdictOn(s.products, e, v, HasId(ms, v.id));
    hide VerdictOn;
    if x != v.id {
      WithoutProduct(ms, v.id, x);
    }
    PlacedProduct(ms, v.id, |s.products|, x);
    PlacedProduct(ms, v.id, |s.products|, v.id);
    if j.Link? {
      PlacedProduct(ms, v.id, j.product, x);
      PlacedProduct(ms, v.id, j.product, v.id);
    }
  }

  lemma {:induction false} RestOutcomes(s: State, e: Env, vs: seq<StoreVariant>)
    requires vs != [] && DistinctVariants(vs) && s.mapping.Some?
    requires Processed(s, e, vs[0]).Some? && Processed(s, e, vs[0]).value.mapping.Some?
    ensures var next := Processed(s, e, vs[0]).value;
            Outcomes(next.products, e, next.mapping.value.variants, vs[1..])
            == Outcomes(s.products, e, s.mapping.value.variants, vs)[1..]
  {
    var ms, next := s.mapping.value.variants, Processed(s, e, vs[0]).value;
    RestDistinct(vs);
    ProcessedHolds(s, e, vs[0], 0);
    forall i | 0 <= i < |vs[1..]|
      ensures HasId(ms, vs[1..][i].id) <==> HasId(next.mapping.value.variants, vs[1..][i].id)
      ensures ProductOf(ms, vs[1..][i].id) == ProductOf(next.mapping.value.variants, vs[1..][i].id)
    {
      ProcessedHolds(s, e, vs[0], vs[1..][i].id);
      ProcessedProduct(s, e, vs[0], vs[1..][i].id);
    }
    hide Processed, VerdictOn, HasId, ProductOf;
    OutcomesSame(next.products, e, ms, next.mapping.value.variants, vs[1..]);
  }

  /** What the loop leaves: each accepted variant has its product, and ids that were not sent keep theirs. */
  lemma {:induction false} LoopProducts(s: State, e: Env, vs: seq<StoreVariant>, x: nat)
    requires DistinctVariants(vs) && s.mapping.Some? && ProcessedAll(s, e, vs).Some?
    requires ProcessedAll(s, e, vs).value.mapping.Some?
    ensures var ns := ProcessedAll(s, e, vs).value.mapping.value.variants;
            var ms := s.mapping.value.variants;
            && (!Sends(vs, x) ==> ProductOf(ns, x) == ProductOf(ms, x))
            && forall i :: 0 <= i < |vs| && vs[i].id == x && !Judged(s.products, e, ms, vs)[i].Refuse? ==>
                 ProductOf(ns, x) == Outcomes(s.products, e, ms, vs)[i]
    decreases |vs|
  {
    if vs != [] {
      var next, ms := Processed(s, e, vs[0]).value, s.mapping.value.variants;
      var js, os := Judged(s.products, e, ms, vs), Outcomes(s.products, e, ms, vs);
      SendsFirst(vs, x);
      RestDistinct(vs);
      ProcessedProduct(s, e, vs[0], x);
      RestJudged(s, e, vs);
      RestOutcomes(s, e, vs);
      LoopProducts(next, e, vs[1..], x);
      hide Processed, VerdictOn, Outcome, ProductOf;
      assert forall i :: 0 < i < |vs| ==> vs[i] == vs[1..][i - 1] && js[i] == js[1..][i - 1] && os[i] == os[1..][i - 1];
    }
  }

  // ------------------------------------------------------------------ which products are shared

  /** The product there is already that a store variant will have: a mapped variant keeps its own if it has a
      master; another one gets its master, or without automatic masters the twin with its SKU. */
  function Target(s: State, e: Env, v: StoreVariant): Option<nat> {
    var master, twin := MasterOf(e, v.sku), TwinOf(e.table, e.template, v.values);
    if HasId(Initial(s), v.id) then (if master.Some? then ProductOf(Initial(s), v.id) else None)
    else if master.Some? then master
    else if !e.auto && v.values != {} && twin.Some? && e.table[twin.value].sku == Code(v.sku) then twin
    else None
  }

  /** No two store variants will have the same product. */
  ghost predicate TargetsApart(s: State, e: Env, vs: seq<StoreVariant>) {
    forall i, j :: 0 <= i < j < |vs| && Target(s, e, vs[i]).Some? ==> Target(s, e, vs[i]) != Target(s, e, vs[j])
  }

  /** Without automatic masters only products without attributes are made. */
  lemma {:induction false} BareMade(e: Env, ms: seq<Mapped>, vs: seq<StoreVariant>, k: nat)
    requires !e.auto
    requires |e.table| <= k < |TabledAll(e.table, e, vs, Judged(e.table, e, ms, vs))|
    ensures TabledAll(e.table, e, vs, Judged(e.table, e, ms, vs))[k].values == {}
  {
    var js := Judged(e.table, e, ms, vs);
    var i := MadeFor(e.table, e, vs, js, k);
    var table := JudgedAt(e.table, e, ms, vs, i);
  }

  /** So a twin with attributes is one there was before. */
  lemma {:induction false} SameTwin(e: Env, ms: seq<Mapped>, vs: seq<StoreVariant>, table: seq<Product>, values: set<nat>)
    requires !e.auto && values != {} && e.table <= table
    requires table <= TabledAll(e.table, e, vs, Judged(e.table, e, ms, vs))
    ensures TwinOf(table, e.template, values) == TwinOf(e.table, e.template, values)
  {
    var final := TabledAll(e.table, e, vs, Judged(e.table, e, ms, vs));
    forall k | |e.table| <= k < |table| ensures table[k].values == {} {
      assert table[k] == final[k];
      BareMade(e, ms, vs, k);
    }
    hide TabledAll, Judged;
    var before, later := TwinOf(e.table, e.template, values), TwinOf(table, e.template, values);
    if before.Some? {
      assert table[before.value] == e.table[before.value];
    }
    if later.Some? {
      assert later.value < |e.table|;
      assert table[later.value] == e.table[later.value];
    }
  }

  /** The products a table has before an import are those its targets are among. */
  lemma {:induction false} TargetIs(s: State, e: Env, vs: seq<StoreVariant>, i: nat)
    requires i < |vs| && !Judged(e.table, e, Initial(s), vs)[i].Clash?
    ensures var j := Judged(e.table, e, Initial(s), vs)[i];
            Target(s, e, vs[i]) == if j.Make? || j.Refuse? then None else Outcomes(e.table, e, Initial(s), vs)[i]
  {
    var ms, v := Initial(s), vs[i];
    var table := OutcomeAt(e.table, e, ms, vs, i);
    hide Judged, Outcomes, TabledAll, HasId, ProductOf;
    if !e.auto && v.values != {} {
      SameTwin(e, ms, vs, table, v.values);
      var twin := TwinOf(table, e.template, v.values);
      if twin.Some? {
        assert table[twin.value] == e.table[twin.value];
      }
    }
  }

  lemma {:induction false} TargetExists(s: State, e: Env, v: StoreVariant)
    requires ProductsExist(Initial(s), e.table)
    ensures Target(s, e, v).Some? ==> Target(s, e, v).value < |e.table|
  {
    if HasId(Initial(s), v.id) {
      ProductIn(Initial(s), v.id);
    }
  }

  lemma {:induction false} ProductIn(ms: seq<Mapped>, id: nat)
    requires HasId(ms, id)
    ensures exists m :: m in ms && m.storeId == Some(id) && m.product == ProductOf(ms, id)
  {
    HasIdIn(ms, id);
    if ms[0].storeId != Some(id) {
      HasIdIn(ms[1..], id);
      ProductIn(ms[1..], id);
    }
  }

  ghost predicate Apart(os: seq<Option<nat>>) {
    forall i, j :: 0 <= i < j < |os| && os[i].Some? ==> os[i] != os[j]
  }

  /** Products that are made are never shared, so only the targets matter. */
  lemma {:induction false} OutcomesApartIff(s: State, e: Env, vs: seq<StoreVariant>)
    requires ProductsExist(Initial(s), e.table)
    requires forall i :: 0 <= i < |vs| ==> !Judged(e.table, e, Initial(s), vs)[i].Clash?
    ensures Apart(Outcomes(e.table, e, Initial(s), vs)) <==> TargetsApart(s, e, vs)
  {
    var ms := Initial(s);
    var js, os := Judged(e.table, e, ms, vs), Outcomes(e.table, e, ms, vs);
    forall i | 0 <= i < |vs|
      ensures Target(s, e, vs[i]) == if js[i].Make? || js[i].Refuse? then None else os[i]
      ensures Target(s, e, vs[i]).Some? ==> Target(s, e, vs[i]).value < |e.table|
      ensures js[i].Make? ==> os[i].Some? && os[i].value >= |e.table|
      ensures js[i].Refuse? ==> os[i] == None
    {
      TargetIs(s, e, vs, i);
      TargetExists(s, e, vs[i]);
      if js[i].Make? {
        MadeAbove(e.table, e, ms, vs, i);
      }
      var table := OutcomeAt(e.table, e, ms, vs, i);
    }
    forall i, j | 0 <= i < j < |vs|
      ensures (os[i].Some? ==> os[i] != os[j]) <==> (Target(s, e, vs[i]).Some? ==> Target(s, e, vs[i]) != Target(s, e, vs[j]))
    {
      if js[i].Make? && js[j].Make? {
        MakesDiffer(e.table, e, ms, vs, i, j);
      }
    }
    hide Target, Judged, Outcomes;
    if TargetsApart(s, e, vs) {
      forall i, j | 0 <= i < j < |os| && os[i].Some? ensures os[i] != os[j] {
        assert Target(s, e, vs[i]).Some? ==> Target(s, e, vs[i]) != Target(s, e, vs[j]);
      }
    }
  }

  /** Distinct products, by place in the mapping or by store variant. */
  lemma {:induction false} ApartByIds(ns: seq<Mapped>, vs: seq<StoreVariant>, os: seq<Option<nat>>)
    requires OneEach(ns) && AllSent(ns, vs) && DistinctVariants(vs) && |os| == |vs|
    requires forall i :: 0 <= i < |vs| ==> os[i] == if HasId(ns, vs[i].id) then ProductOf(ns, vs[i].id) else None
    ensures MastersApart(ns) <==> Apart(os)
  {
    hide ProductOf;
    if !Apart(os) {
      var i, j :| 0 <= i < j < |os| && os[i].Some? && os[i] == os[j];
      var a :| 0 <= a < |ns| && ns[a].storeId == Some(vs[i].id);
      var b :| 0 <= b < |ns| && ns[b].storeId == Some(vs[j].id);
      ProductAt(ns, a);
      ProductAt(ns, b);
      assert a != b && ns[a].product == ns[b].product;
    }
    if !MastersApart(ns) {
      var a, b :| 0 <= a < b < |ns| && ns[a].product.Some? && ns[a].product == ns[b].product;
      assert ns[a] in ns && ns[b] in ns;
      ProductAt(ns, a);
      ProductAt(ns, b);
      var i :| 0 <= i < |vs| && vs[i].id == ns[a].storeId.value;
      var j :| 0 <= j < |vs| && vs[j].id == ns[b].storeId.value;
      assert HasId(ns, vs[i].id) && HasId(ns, vs[j].id);
      assert i != j && os[i] == os[j];
    }
  }

  lemma {:induction false} KeptOutcomes(e: Env, ms: seq<Mapped>, vs: seq<StoreVariant>)
    ensures Outcomes(e.table, e, KnownTo(ms, vs), vs) == Outcomes(e.table, e, ms, vs)
  {
    PurgedIs(e.template, ms, vs);
    forall i | 0 <= i < |vs|
      ensures HasId(ms, vs[i].id) <==> HasId(KnownTo(ms, vs), vs[i].id)
      ensures ProductOf(ms, vs[i].id) == ProductOf(KnownTo(ms, vs), vs[i].id)
    {
      assert Sends(vs, vs[i].id);
      KnownProduct(ms, vs, vs[i].id);
    }
    hide HasId, ProductOf;
    OutcomesSame(e.table, e, ms, KnownTo(ms, vs), vs);
  }

  // ------------------------------------------------------------------ main result

  /** What a store variant has after the import: the product its verdict says, or none if it is refused. */
  lemma {:induction false} FinalProduct(s: State, d: StoreProduct, auto: bool, i: nat)
    requires Sound(s) && DistinctVariants(d.variants) && Imported(s, d, auto).Some? && i < |d.variants|
    requires Imported(s, d, auto).value.mapping.Some?
    ensures var ns, id := Imported(s, d, auto).value.mapping.value.variants, d.variants[i].id;
            var e := Started(s, d, auto).value.env;
            Outcomes(e.table, e, Initial(s), d.variants)[i] == if HasId(ns, id) then ProductOf(ns, id) else None
  {
    var start, vs := Started(s, d, auto).value, d.variants;
    PlanIs(s, d, auto);
    MappedOrLogged(s, d, auto, vs[i].id);
    KeptOutcomes(start.env, Initial(s), vs);
    var table := OutcomeAt(start.env.table, start.env, Initial(s), vs, i);
    hide Started, Outcomes, Judged, TabledAll, Sound;
    LoopProducts(start.state, start.env, vs, vs[i].id);
  }

  lemma {:induction false} TableHasProducts(s: State, d: StoreProduct, auto: bool)
    requires Sound(s) && Started(s, d, auto).Some?
    ensures ProductsExist(Initial(s), Started(s, d, auto).value.env.table)
  {
    hide Chosen, Purged, Taken, SomeKnown;
  }

  /** A mapping that was deleted had all its variants refused. */
  lemma {:induction false} NoneLeft(s: State, d: StoreProduct, auto: bool)
    requires Sound(s) && DistinctVariants(d.variants) && Imported(s, d, auto).Some?
    requires Imported(s, d, auto).value.mapping.None?
    ensures var e := Started(s, d, auto).value.env; Apart(Outcomes(e.table, e, Initial(s), d.variants))
  {
    var e, vs := Started(s, d, auto).value.env, d.variants;
    PlanIs(s, d, auto);
    assert Plan(s, d, auto) == Judged(e.table, e, Initial(s), vs);
    hide Started, Imported, Plan, Judged, Outcomes, Sound, TabledAll, VerdictOn;
    forall i | 0 <= i < |vs| ensures Outcomes(e.table, e, Initial(s), vs)[i] == None {
      MappedOrLogged(s, d, auto, vs[i].id);
      var table := OutcomeAt(e.table, e, Initial(s), vs, i);
    }
  }

  /** An import leaves every mapped variant a product of its own exactly when no two store variants have the
      same target: the product a mapped one keeps, the master of a new one, or the twin it is given. */
  lemma {:induction false} MastersApartIff(s: State, d: StoreProduct, auto: bool)
    requires Sound(s) && DistinctVariants(d.variants) && Imported(s, d, auto).Some?
    ensures (Imported(s, d, auto).value.mapping.Some? ==> MastersApart(Imported(s, d, auto).value.mapping.value.variants))
            <==> TargetsApart(s, Started(s, d, auto).value.env, d.variants)
  {
    var start, vs := Started(s, d, auto).value, d.variants;
    var e := start.env;
    ImportedSound(s, d, auto);
    PlanIs(s, d, auto);
    TableHasProducts(s, d, auto);
    forall i | 0 <= i < |vs| ensures !Judged(e.table, e, Initial(s), vs)[i].Clash? {
      NoClash(start.state, e, vs, i);
    }
    OutcomesApartIff(s, e, vs);
    var os := Outcomes(e.table, e, Initial(s), vs);
    if Imported(s, d, auto).value.mapping.Some? {
      LoopSent(start.state, e, vs);
      forall i | 0 <= i < |vs|
        ensures var ns, id := Imported(s, d, auto).value.mapping.value.variants, vs[i].id;
                os[i] == if HasId(ns, id) then ProductOf(ns, id) else None
      {
        FinalProduct(s, d, auto, i);
      }
      hide Started, Imported, Judged, Outcomes, Target, Apart, HasId;
      ApartByIds(Imported(s, d, auto).value.mapping.value.variants, vs, os);
    } else {
      NoneLeft(s, d, auto);
    }
  }

  // ------------------------------------------------------------------ how masters come to be shared

  /** Two new store variants whose SKUs lead to one master share it: one SKU twice, an alternate SKU beside
      the product's own, or no SKU at all. */
  lemma {:induction false} SameMasterIsShared(s: State, d: StoreProduct, auto: bool, i: nat, j: nat)
    requires Sound(s) && DistinctVariants(d.variants) && Imported(s, d, auto).Some? && i < j < |d.variants|
    requires !HasId(Initial(s), d.variants[i].id) && !HasId(Initial(s), d.variants[j].id)
    requires var e := Started(s, d, auto).value.env;
             MasterOf(e, d.variants[i].sku).Some? && MasterOf(e, d.variants[i].sku) == MasterOf(e, d.variants[j].sku)
    ensures Imported(s, d, auto).value.mapping.Some? && !MastersApart(Imported(s, d, auto).value.mapping.value.variants)
  {
    var e := Started(s, d, auto).value.env;
    MastersApartIff(s, d, auto);
    assert Target(s, e, d.variants[i]).Some? && Target(s, e, d.variants[i]) == Target(s, e, d.variants[j]);
  }

  /** A new store variant shares the product a mapped one keeps if its SKU leads there. */
  lemma {:induction false} MasterInUseIsShared(s: State, d: StoreProduct, auto: bool, i: nat, j: nat)
    requires Sound(s) && DistinctVariants(d.variants) && Imported(s, d, auto).Some?
    requires i < |d.variants| && j < |d.variants| && i != j
    requires HasId(Initial(s), d.variants[i].id) && !HasId(Initial(s), d.variants[j].id)
    requires var e := Started(s, d, auto).value.env;
             && MasterOf(e, d.variants[i].sku).Some? && MasterOf(e, d.variants[j].sku).Some?
             && ProductOf(Initial(s), d.variants[i].id) == MasterOf(e, d.variants[j].sku)
    ensures Imported(s, d, auto).value.mapping.Some? && !MastersApart(Imported(s, d, auto).value.mapping.value.variants)
  {
    var e, low, high := Started(s, d, auto).value.env, if i < j then i else j, if i < j then j else i;
    MastersApartIff(s, d, auto);
    assert Target(s, e, d.variants[low]).Some? && Target(s, e, d.variants[low]) == Target(s, e, d.variants[high]);
  }

  /** Without SKU every new store variant has the same master: the last product without SKU, if it is of the
      template. So an import of two of them shares it. */
  lemma {:induction false} BlankSkusShare(s: State, d: StoreProduct, auto: bool, i: nat, j: nat)
    requires Sound(s) && DistinctVariants(d.variants) && Imported(s, d, auto).Some? && i < j < |d.variants|
    requires !HasId(Initial(s), d.variants[i].id) && !HasId(Initial(s), d.variants[j].id)
    requires d.variants[i].sku == d.variants[j].sku == 0 && MasterOf(Started(s, d, auto).value.env, 0).Some?
    ensures Imported(s, d, auto).value.mapping.Some? && !MastersApart(Imported(s, d, auto).value.mapping.value.variants)
  {
    SameMasterIsShared(s, d, auto, i, j);
  }

  lemma {:induction false} OwnIs(e: Env, code: nat, p: nat)
    requires UniqueSkus(e.table) && p < |e.table| && code != 0
    requires e.table[p].template == e.template && e.table[p].sku == Code(code)
    ensures MasterOf(e, code) == Some(p)
  {
    var own := OwnOf(e.table, e.template, code);
    assert own.Some? && e.table[own.value].sku == e.table[p].sku;
  }

  /** A product of the template under its own SKU and under an alternate one: two new store variants with
      these SKUs share it. */
  lemma {:induction false} AlternateShares(s: State, d: StoreProduct, auto: bool, i: nat, j: nat, p: nat)
    requires Sound(s) && DistinctVariants(d.variants) && Imported(s, d, auto).Some? && i < j < |d.variants|
    requires !HasId(Initial(s), d.variants[i].id) && !HasId(Initial(s), d.variants[j].id)
    requires var e := Started(s, d, auto).value.env;
             && p < |e.table| && e.table[p].template == e.template && e.table[p].sku == Code(d.variants[i].sku)
             && d.variants[i].sku != 0 && AlternateOf(s.alternates, d.variants[j].sku) == Some(p)
             && OwnOf(e.table, e.template, d.variants[j].sku).None?
    ensures Imported(s, d, auto).value.mapping.Some? && !MastersApart(Imported(s, d, auto).value.mapping.value.variants)
  {
    var e := Started(s, d, auto).value.env;
    StartIs(s, d, auto);
    StartedSound(s, d, auto);
    OwnIs(e, d.variants[i].sku, p);
    assert MasterOf(e, d.variants[j].sku) == Some(p);
    hide Started, Imported, Sound, MasterOf;
    SameMasterIsShared(s, d, auto, i, j);
  }

  lemma {:induction false} TargetCarries(s: State, e: Env, v: StoreVariant)
    requires !HasId(Initial(s), v.id) && AlternateOf(e.alternates, v.sku).None?
    ensures Target(s, e, v).Some? ==>
              Target(s, e, v).value < |e.table| && e.table[Target(s, e, v).value].sku == Code(v.sku)
  {
  }

  /** A first import of variants with SKUs of their own, none an alternate one, shares no master. */
  lemma {:induction false} FirstImportApart(s: State, d: StoreProduct, auto: bool)
    requires Sound(s) && DistinctVariants(d.variants) && DistinctSkus(d.variants) && Imported(s, d, auto).Some?
    requires Initial(s) == [] && forall i :: 0 <= i < |d.variants| ==> AlternateOf(s.alternates, d.variants[i].sku).None?
    ensures Imported(s, d, auto).value.mapping.Some? ==> MastersApart(Imported(s, d, auto).value.mapping.value.variants)
  {
    assert Started(s, d, auto).Some?;
    hide Started, Imported, Sound, Target, AlternateOf, MastersApart;
    var e, vs := Started(s, d, auto).value.env, d.variants;
    StartIs(s, d, auto);
    forall i, j | 0 <= i < j < |vs| && Target(s, e, vs[i]).Some? ensures Target(s, e, vs[i]) != Target(s, e, vs[j]) {
      TargetCarries(s, e, vs[i]);
      TargetCarries(s, e, vs[j]);
      assert vs[i].sku != vs[j].sku;
    }
    assert TargetsApart(s, e, vs);
    MastersApartIff(s, d, auto);
  }
}
