/** What imports keep over every run, when one raises, and what becomes of each store variant. The verdicts on
    the store variants depend on the master table alone, so they are worked out first; what the mapping goes
    through is then a matter of which variants are refused, and the products of the final table are those of
    the first one and those made on the way. */
module VariantImportLaws {
  import opened Options
  import opened VariantImport

  // ------------------------------------------------------------------ variants of a mapping

  ghost predicate OneEach(ms: seq<Mapped>) {
    forall i, j :: 0 <= i < j < |ms| && ms[i].storeId.Some? ==> ms[i].storeId != ms[j].storeId
  }

  predicate Holds(s: State, id: nat) { s.mapping.Some? && HasId(s.mapping.value.variants, id) }

  lemma {:induction false} HasIdIn(ms: seq<Mapped>, id: nat)
    ensures HasId(ms, id) <==> exists m :: m in ms && m.storeId == Some(id)
  {
    if HasId(ms, id) {
      var i :| 0 <= i < |ms| && ms[i].storeId == Some(id);
      assert ms[i] in ms;
    }
  }

  lemma {:induction false} WithoutMembers(ms: seq<Mapped>, id: nat)
    ensures forall m :: m in Without(ms, id) <==> m in ms && m.storeId != Some(id)
  {
    if ms != [] {
      WithoutMembers(ms[1..], id);
      assert forall m :: m in ms <==> m == ms[0] || m in ms[1..];
    }
  }

  lemma {:induction false} WithoutHas(ms: seq<Mapped>, id: nat, x: nat)
    ensures HasId(Without(ms, id), x) <==> HasId(ms, x) && x != id
  {
    WithoutMembers(ms, id);
    HasIdIn(ms, x);
    HasIdIn(Without(ms, id), x);
  }

  lemma {:induction false} WithoutKeepsOne(ms: seq<Mapped>, id: nat)
    requires OneEach(ms)
    ensures OneEach(Without(ms, id))
  {
    if ms != [] {
      assert forall i :: 0 <= i < |ms[1..]| ==> ms[1..][i] == ms[i + 1];
      WithoutKeepsOne(ms[1..], id);
      WithoutMembers(ms[1..], id);
      var rest := Without(ms[1..], id);
      forall j | 0 <= j < |rest| && ms[0].storeId.Some? ensures rest[j].storeId != ms[0].storeId {
        assert rest[j] in ms[1..];
      }
    }
  }

  lemma {:induction false} NothingRemoved(ms: seq<Mapped>, id: nat)
    requires !HasId(ms, id)
    ensures Without(ms, id) == ms
  {
    if ms != [] {
      assert ms[0].storeId != Some(id);
      HasIdIn(ms, id);
      HasIdIn(ms[1..], id);
      NothingRemoved(ms[1..], id);
      assert ms == [ms[0]] + ms[1..];
    }
  }

  lemma {:induction false} PlacedHas(ms: seq<Mapped>, id: nat, product: nat, x: nat)
    ensures HasId(Placed(ms, id, product), x) <==> HasId(ms, x) || x == id
    ensures OneEach(ms) ==> OneEach(Placed(ms, id, product))
  {
    var placed := Placed(ms, id, product);
    if HasId(ms, x) {
      var i :| 0 <= i < |ms| && ms[i].storeId == Some(x);
      assert placed[i].storeId == Some(x);
    }
    if !HasId(ms, id) {
      assert placed[|ms|].storeId == Some(id);
    } else if HasId(placed, x) {
      var i :| 0 <= i < |placed| && placed[i].storeId == Some(x);
      assert ms[i].storeId == Some(x);
    }
  }

  lemma {:induction false} KnownMembers(ms: seq<Mapped>, vs: seq<StoreVariant>)
    ensures forall m :: m in KnownTo(ms, vs) <==> m in ms && m.storeId.Some? && Sends(vs, m.storeId.value)
    ensures |KnownTo(ms, vs)| == |ms| ==> KnownTo(ms, vs) == ms
  {
    if ms != [] {
      KnownMembers(ms[1..], vs);
      assert forall m :: m in ms <==> m == ms[0] || m in ms[1..];
    }
  }

  lemma {:induction false} KnownOneEach(ms: seq<Mapped>, vs: seq<StoreVariant>)
    requires OneEach(ms)
    ensures OneEach(KnownTo(ms, vs))
  {
    if ms != [] {
      var rest := KnownTo(ms[1..], vs);
      assert forall i :: 0 <= i < |ms[1..]| ==> ms[1..][i] == ms[i + 1];
      KnownOneEach(ms[1..], vs);
      KnownMembers(ms[1..], vs);
      hide KnownTo;
      forall j | 0 <= j < |rest| && ms[0].storeId.Some? ensures rest[j].storeId != ms[0].storeId {
        assert rest[j] in ms[1..];
      }
      OneMore(ms[0], rest);
    }
  }

  lemma {:induction false} OneMore(m: Mapped, rest: seq<Mapped>)
    requires OneEach(rest) && forall j :: 0 <= j < |rest| && m.storeId.Some? ==> rest[j].storeId != m.storeId
    ensures OneEach([m] + rest) && OneEach([] + rest)
  {
    assert [] + rest == rest;
  }

  ghost predicate AllSent(ms: seq<Mapped>, vs: seq<StoreVariant>) {
    forall m :: m in ms ==> m.storeId.Some? && Sends(vs, m.storeId.value)
  }

  lemma {:induction false} PurgedIs(template: nat, ms: seq<Mapped>, vs: seq<StoreVariant>)
    ensures var kept := KnownTo(ms, vs);
            && AllSent(kept, vs) && (OneEach(ms) ==> OneEach(kept))
            && (forall x: nat :: HasId(kept, x) <==> HasId(ms, x) && Sends(vs, x))
            && (Purged(template, ms, vs) == if kept == [] && ms != [] then None else Some(Mapping(template, kept)))
            && (AllSent(ms, vs) ==> kept == ms)
  {
    var kept := KnownTo(ms, vs);
    KnownMembers(ms, vs);
    if OneEach(ms) {
      KnownOneEach(ms, vs);
    }
    forall x: nat ensures HasId(kept, x) <==> HasId(ms, x) && Sends(vs, x) {
      HasIdIn(ms, x);
      HasIdIn(kept, x);
    }
    if AllSent(ms, vs) {
      AllKnown(ms, vs);
    }
  }

  lemma {:induction false} AllKnown(ms: seq<Mapped>, vs: seq<StoreVariant>)
    requires AllSent(ms, vs)
    ensures KnownTo(ms, vs) == ms
  {
    if ms != [] {
      assert ms[0] in ms && forall m :: m in ms[1..] ==> m in ms;
      AllKnown(ms[1..], vs);
      assert ms == [ms[0]] + ms[1..];
    }
  }

  ghost predicate DistinctVariants(vs: seq<StoreVariant>) {
    forall i, j :: 0 <= i < j < |vs| ==> vs[i].id != vs[j].id
  }

  lemma {:induction false} SendsFirst(vs: seq<StoreVariant>, x: nat)
    requires vs != []
    ensures Sends(vs, x) <==> vs[0].id == x || Sends(vs[1..], x)
  {
    if Sends(vs[1..], x) {
      var i :| 0 <= i < |vs[1..]| && vs[1..][i].id == x;
      assert vs[i + 1].id == x;
    }
    if Sends(vs, x) && vs[0].id != x {
      var i :| 0 <= i < |vs| && vs[i].id == x;
      assert vs[1..][i - 1].id == x;
    }
  }

  /** The first variant is not sent again, and the rest is distinct too. */
  lemma {:induction false} RestDistinct(vs: seq<StoreVariant>)
    requires vs != [] && DistinctVariants(vs)
    ensures DistinctVariants(vs[1..]) && !Sends(vs[1..], vs[0].id)
    ensures forall i :: 0 <= i < |vs[1..]| ==> vs[1..][i] == vs[i + 1] && vs[1..][i].id != vs[0].id
  {
    assert forall i :: 0 <= i < |vs[1..]| ==> vs[1..][i] == vs[i + 1];
  }

  // ------------------------------------------------------------------ the verdicts of an import

  function Tabled(products: seq<Product>, e: Env, v: StoreVariant, j: Verdict): seq<Product> {
    if j.Make? then products + [NewProduct(e.template, v)] else products
  }

  /** What becomes of each store variant, given the variants of the mapping at the start. */
  function Judged(products: seq<Product>, e: Env, ms: seq<Mapped>, vs: seq<StoreVariant>): (r: seq<Verdict>)
    ensures |r| == |vs|
    decreases |vs|
  {
    if vs == [] then []
    else
      var j := VerdictOn(products, e, vs[0], HasId(ms, vs[0].id));
      [j] + Judged(Tabled(products, e, vs[0], j), e, ms, vs[1..])
  }

  function TabledAll(products: seq<Product>, e: Env, vs: seq<StoreVariant>, js: seq<Verdict>): seq<Product>
    requires |vs| == |js|
    decreases |vs|
  {
    if vs == [] then products else TabledAll(Tabled(products, e, vs[0], js[0]), e, vs[1..], js[1..])
  }

  lemma {:induction false} JudgedSame(products: seq<Product>, e: Env, ms: seq<Mapped>, ns: seq<Mapped>, vs: seq<StoreVariant>)
    requires forall i :: 0 <= i < |vs| ==> (HasId(ms, vs[i].id) <==> HasId(ns, vs[i].id))
    ensures Judged(products, e, ms, vs) == Judged(products, e, ns, vs)
    decreases |vs|
  {
    if vs != [] {
      assert forall i :: 0 <= i < |vs[1..]| ==> vs[1..][i] == vs[i + 1];
      JudgedSame(Tabled(products, e, vs[0], VerdictOn(products, e, vs[0], HasId(ms, vs[0].id))), e, ms, ns, vs[1..]);
    }
  }

  /** The table a variant is judged by: the one at the start and what was made for the variants before it. */
  lemma {:induction false} JudgedAt(products: seq<Product>, e: Env, ms: seq<Mapped>, vs: seq<StoreVariant>, i: nat)
    returns (table: seq<Product>)
    requires i < |vs|
    ensures Judged(products, e, ms, vs)[i] == VerdictOn(table, e, vs[i], HasId(ms, vs[i].id))
    ensures products <= table && table <= TabledAll(products, e, vs, Judged(products, e, ms, vs))
    decreases |vs|
  {
    var j := VerdictOn(products, e, vs[0], HasId(ms, vs[0].id));
    var next := Tabled(products, e, vs[0], j);
    JudgedRest(products, e, ms, vs);
    hide VerdictOn, HasId, Judged, TabledAll;
    if i == 0 {
      table := products;
      TableGrows(next, e, vs[1..], Judged(next, e, ms, vs[1..]));
      PrefixOf(products, next, TabledAll(next, e, vs[1..], Judged(next, e, ms, vs[1..])));
    } else {
      table := JudgedAt(next, e, ms, vs[1..], i - 1);
      PrefixOf(products, next, table);
    }
  }

  lemma {:induction false} PrefixOf<T>(a: seq<T>, b: seq<T>, c: seq<T>)
    requires a <= b && b <= c
    ensures a <= c
  {
  }

  lemma {:induction false} JudgedRest(products: seq<Product>, e: Env, ms: seq<Mapped>, vs: seq<StoreVariant>)
    requires vs != []
    ensures var js, j := Judged(products, e, ms, vs), VerdictOn(products, e, vs[0], HasId(ms, vs[0].id));
            var next := Tabled(products, e, vs[0], j);
            && js == [j] + Judged(next, e, ms, vs[1..]) && products <= next
            && TabledAll(products, e, vs, js) == TabledAll(next, e, vs[1..], Judged(next, e, ms, vs[1..]))
  {
    var js, j := Judged(products, e, ms, vs), VerdictOn(products, e, vs[0], HasId(ms, vs[0].id));
    assert js[0] == j && js[1..] == Judged(Tabled(products, e, vs[0], j), e, ms, vs[1..]);
  }

  lemma {:induction false} JudgedUnmade(products: seq<Product>, e: Env, ms: seq<Mapped>, vs: seq<StoreVariant>, i: nat)
    requires i < |vs| && forall k :: 0 <= k < |vs| ==> !Judged(products, e, ms, vs)[k].Make?
    ensures Judged(products, e, ms, vs)[i] == VerdictOn(products, e, vs[i], HasId(ms, vs[i].id))
  {
    var table := JudgedAt(products, e, ms, vs, i);
    NothingMade(products, e, vs, Judged(products, e, ms, vs));
    assert table == products;
  }

  lemma {:induction false} TableGrows(products: seq<Product>, e: Env, vs: seq<StoreVariant>, js: seq<Verdict>)
    requires |vs| == |js|
    ensures products <= TabledAll(products, e, vs, js)
    decreases |vs|
  {
    if vs != [] {
      TableGrows(Tabled(products, e, vs[0], js[0]), e, vs[1..], js[1..]);
    }
  }

  lemma {:induction false} NothingMade(products: seq<Product>, e: Env, vs: seq<StoreVariant>, js: seq<Verdict>)
    requires |vs| == |js| && forall k :: 0 <= k < |vs| ==> !js[k].Make?
    ensures TabledAll(products, e, vs, js) == products
    decreases |vs|
  {
    if vs != [] {
      assert forall k :: 0 <= k < |vs[1..]| ==> js[1..][k] == js[k + 1];
      NothingMade(products, e, vs[1..], js[1..]);
    }
  }

  /** Made products are in the final table, and what is new there was made for a store variant. */
  lemma {:induction false} MadeAt(products: seq<Product>, e: Env, vs: seq<StoreVariant>, js: seq<Verdict>, i: nat)
    requires |vs| == |js| && i < |vs| && js[i].Make?
    ensures NewProduct(e.template, vs[i]) in TabledAll(products, e, vs, js)
    ensures |TabledAll(products, e, vs, js)| > |products|
    decreases |vs|
  {
    var next := Tabled(products, e, vs[0], js[0]);
    TableGrows(next, e, vs[1..], js[1..]);
    if i == 0 {
      assert next[|products|] in TabledAll(next, e, vs[1..], js[1..]);
    } else {
      MadeAt(next, e, vs[1..], js[1..], i - 1);
    }
  }

  lemma {:induction false} MadeFor(products: seq<Product>, e: Env, vs: seq<StoreVariant>, js: seq<Verdict>, k: nat)
    returns (i: nat)
    requires |vs| == |js| && |products| <= k < |TabledAll(products, e, vs, js)|
    ensures i < |vs| && js[i].Make? && TabledAll(products, e, vs, js)[k] == NewProduct(e.template, vs[i])
    decreases |vs|
  {
    var next := Tabled(products, e, vs[0], js[0]);
    TableGrows(next, e, vs[1..], js[1..]);
    if k < |next| {
      i := 0;
    } else {
      i := MadeFor(next, e, vs[1..], js[1..], k);
      i := i + 1;
    }
  }

  // ------------------------------------------------------------------ the loop

  /** One variant: it ends up mapped unless it is refused; the others stay as they were. */
  lemma {:induction false} ProcessedHolds(s: State, e: Env, v: StoreVariant, x: nat)
    requires s.mapping.Some? && Processed(s, e, v).Some?
    ensures var next, j := Processed(s, e, v).value, VerdictOn(s.products, e, v, HasId(s.mapping.value.variants, v.id));
            && !j.Clash? && next.products == Tabled(s.products, e, v, j)
            && next.failed == s.failed + (if j.Refuse? then [v.id] else [])
            && next.templates == s.templates && next.alternates == s.alternates
            && (next.mapping.Some? ==> next.mapping.value.template == s.mapping.value.template)
            && (Holds(next, x) <==> if x == v.id then !j.Refuse? else Holds(s, x))
  {
    var ms := s.mapping.value.variants;
    WithoutHas(ms, v.id, x);
    PlacedHas(ms, v.id, |s.products|, x);
    var j := VerdictOn(s.products, e, v, HasId(ms, v.id));
    if j.Link? {
      PlacedHas(ms, v.id, j.product, x);
    }
  }

  /** The rest is judged the same whatever became of the first variant. */
  lemma {:induction false} RestJudged(s: State, e: Env, vs: seq<StoreVariant>)
    requires vs != [] && DistinctVariants(vs) && s.mapping.Some?
    requires Processed(s, e, vs[0]).Some? && Processed(s, e, vs[0]).value.mapping.Some?
    ensures var next := Processed(s, e, vs[0]).value;
            Judged(next.products, e, next.mapping.value.variants, vs[1..])
            == Judged(s.products, e, s.mapping.value.variants, vs)[1..]
  {
    var ms, next := s.mapping.value.variants, Processed(s, e, vs[0]).value;
    RestDistinct(vs);
    forall i | 0 <= i < |vs[1..]| ensures HasId(ms, vs[1..][i].id) <==> HasId(next.mapping.value.variants, vs[1..][i].id) {
      ProcessedHolds(s, e, vs[0], vs[1..][i].id);
    }
    ProcessedHolds(s, e, vs[0], 0);
    JudgedSame(next.products, e, ms, next.mapping.value.variants, vs[1..]);
  }

  function RefusedIds(vs: seq<StoreVariant>, js: seq<Verdict>): seq<nat>
    requires |vs| == |js|
  {
    if vs == [] then [] else (if js[0].Refuse? then [vs[0].id] else []) + RefusedIds(vs[1..], js[1..])
  }

  lemma {:induction false} LastRefused(s: State, e: Env, vs: seq<StoreVariant>)
    requires vs != [] && ProcessedAll(s, e, vs).Some?
    requires Processed(s, e, vs[0]).value.mapping.None?
    ensures vs[1..] == [] && ProcessedAll(s, e, vs) == Processed(s, e, vs[0])
  {
  }

  /** What a loop that does not raise leaves in the tables. */
  lemma {:induction false} LoopTables(s: State, e: Env, vs: seq<StoreVariant>)
    requires DistinctVariants(vs) && s.mapping.Some? && ProcessedAll(s, e, vs).Some?
    ensures var after, js := ProcessedAll(s, e, vs).value, Judged(s.products, e, s.mapping.value.variants, vs);
            && after.products == TabledAll(s.products, e, vs, js) && after.failed == s.failed + RefusedIds(vs, js)
            && after.templates == s.templates && after.alternates == s.alternates
            && (after.mapping.Some? ==> after.mapping.value.template == s.mapping.value.template)
    decreases |vs|
  {
    if vs != [] {
      var next, js := Processed(s, e, vs[0]).value, Judged(s.products, e, s.mapping.value.variants, vs);
      ProcessedHolds(s, e, vs[0], 0);
      RestDistinct(vs);
      if next.mapping.Some? {
        RestJudged(s, e, vs);
        LoopTables(next, e, vs[1..]);
        hide Processed, VerdictOn, HasId;
        Grouped(s.failed, if js[0].Refuse? then [vs[0].id] else [], RefusedIds(vs[1..], js[1..]));
      } else {
        LastRefused(s, e, vs);
      }
    }
  }

  lemma {:induction false} Grouped<T>(a: seq<T>, b: seq<T>, c: seq<T>)
    ensures a + (b + c) == (a + b) + c
  {
  }

  /** Which ids it leaves mapped. */
  lemma {:induction false} LoopHolds(s: State, e: Env, vs: seq<StoreVariant>, x: nat)
    requires DistinctVariants(vs) && s.mapping.Some? && ProcessedAll(s, e, vs).Some?
    ensures var after, js := ProcessedAll(s, e, vs).value, Judged(s.products, e, s.mapping.value.variants, vs);
            && (!Sends(vs, x) ==> (Holds(after, x) <==> Holds(s, x)))
            && (forall i :: 0 <= i < |vs| && vs[i].id == x ==> (Holds(after, x) <==> !js[i].Refuse?))
    decreases |vs|
  {
    if vs != [] {
      var next, js := Processed(s, e, vs[0]).value, Judged(s.products, e, s.mapping.value.variants, vs);
      ProcessedHolds(s, e, vs[0], x);
      SendsFirst(vs, x);
      RestDistinct(vs);
      if next.mapping.Some? {
        RestJudged(s, e, vs);
        LoopHolds(next, e, vs[1..], x);
        hide Processed, VerdictOn, Holds;
        assert forall i :: 0 < i < |vs| ==> vs[i] == vs[1..][i - 1] && js[i] == js[1..][i - 1];
      } else {
        LastRefused(s, e, vs);
      }
    }
  }

  // ------------------------------------------------------------------ when an import raises

  /** The variants before an index are all refused, and the mapping has none from there on. */
  ghost predicate EmptyBefore(ms: seq<Mapped>, vs: seq<StoreVariant>, js: seq<Verdict>, k: nat)
    requires |js| == |vs|
  {
    && k < |vs|
    && (forall i :: 0 <= i < k ==> js[i].Refuse?)
    && (forall i :: k <= i < |vs| ==> !HasId(ms, vs[i].id))
  }

  /** The mapping loses all its variants before the last store variant. */
  ghost predicate Emptied(ms: seq<Mapped>, vs: seq<StoreVariant>, js: seq<Verdict>)
    requires |js| == |vs|
  {
    ms != [] && exists k :: EmptyBefore(ms, vs, js, k)
  }

  lemma {:induction false} SomeMapped(ms: seq<Mapped>, vs: seq<StoreVariant>, js: seq<Verdict>)
    requires ms != [] && AllSent(ms, vs) && |js| == |vs|
    ensures !EmptyBefore(ms, vs, js, 0)
  {
    assert ms[0] in ms;
    var i :| 0 <= i < |vs| && vs[i].id == ms[0].storeId.value;
    assert HasId(ms, vs[i].id);
  }

  lemma {:induction false} LoopRaisesIff(s: State, e: Env, vs: seq<StoreVariant>)
    requires DistinctVariants(vs) && s.mapping.Some?
    ensures var ms := s.mapping.value.variants;
            var js := Judged(s.products, e, ms, vs);
            ProcessedAll(s, e, vs).None? <==> Clash in js || (AllSent(ms, vs) && Emptied(ms, vs, js))
    decreases |vs|, 1
  {
    if vs != [] {
      var j := VerdictOn(s.products, e, vs[0], HasId(s.mapping.value.variants, vs[0].id));
      JudgedRest(s.products, e, s.mapping.value.variants, vs);
      hide VerdictOn;
      if j.Refuse? {
        RefusedStep(s, e, vs);
      } else if !j.Clash? {
        AcceptedStep(s, e, vs);
      }
    }
  }

  /** An accepted variant keeps the mapping alive for good. */
  lemma {:induction false} AcceptedStep(s: State, e: Env, vs: seq<StoreVariant>)
    requires DistinctVariants(vs) && s.mapping.Some? && vs != []
    requires var j := VerdictOn(s.products, e, vs[0], HasId(s.mapping.value.variants, vs[0].id)); !j.Refuse? && !j.Clash?
    ensures var ms := s.mapping.value.variants;
            var js := Judged(s.products, e, ms, vs);
            ProcessedAll(s, e, vs).None? <==> Clash in js || (AllSent(ms, vs) && Emptied(ms, vs, js))
    decreases |vs|, 0
  {
    var ms, next := s.mapping.value.variants, Processed(s, e, vs[0]).value;
    var js := Judged(s.products, e, ms, vs);
    ProcessedHolds(s, e, vs[0], vs[0].id);
    RestDistinct(vs);
    RestJudged(s, e, vs);
    LoopRaisesIff(next, e, vs[1..]);
    HasIdIn(next.mapping.value.variants, vs[0].id);
    assert js == [js[0]] + js[1..];
    hide VerdictOn, Processed;
    if AllSent(ms, vs) && ms != [] {
      SomeMapped(ms, vs, js);
    }
  }

  /** A refused variant leaves the rest of the loop with the other variants of the mapping. */
  lemma {:induction false} RefusedStep(s: State, e: Env, vs: seq<StoreVariant>)
    requires DistinctVariants(vs) && s.mapping.Some? && vs != []
    requires VerdictOn(s.products, e, vs[0], HasId(s.mapping.value.variants, vs[0].id)).Refuse?
    ensures var ms := s.mapping.value.variants;
            var js := Judged(s.products, e, ms, vs);
            ProcessedAll(s, e, vs).None? <==> Clash in js || (AllSent(ms, vs) && Emptied(ms, vs, js))
    decreases |vs|, 0
  {
    var ms, next := s.mapping.value.variants, Processed(s, e, vs[0]).value;
    var js, left := Judged(s.products, e, ms, vs), Without(ms, vs[0].id);
    RestDistinct(vs);
    SentSplit(ms, vs);
    assert js == [js[0]] + js[1..];
    if next.mapping.None? {
      LastThrownOut(ms, vs, js);
    } else {
      if !HasId(ms, vs[0].id) {
        NothingRemoved(ms, vs[0].id);
      }
      assert next.mapping.value.variants == left;
      RestJudged(s, e, vs);
      LoopRaisesIff(next, e, vs[1..]);
      hide VerdictOn, Processed, Judged;
      if AllSent(left, vs[1..]) {
        EmptiedSplit(ms, vs, js);
      }
    }
  }

  lemma {:induction false} LastThrownOut(ms: seq<Mapped>, vs: seq<StoreVariant>, js: seq<Verdict>)
    requires vs != [] && DistinctVariants(vs) && |js| == |vs| && js[0].Refuse?
    requires HasId(ms, vs[0].id) && Without(ms, vs[0].id) == []
    ensures AllSent(ms, vs) && (Emptied(ms, vs, js) <==> |vs| > 1)
  {
    SentSplit(ms, vs);
    forall i | 1 <= i < |vs| ensures !HasId(ms, vs[i].id) {
      WithoutHas(ms, vs[0].id, vs[i].id);
    }
    if |vs| > 1 {
      assert EmptyBefore(ms, vs, js, 1);
    }
  }

  lemma {:induction false} SentSplit(ms: seq<Mapped>, vs: seq<StoreVariant>)
    requires vs != [] && DistinctVariants(vs)
    ensures AllSent(ms, vs) <==> AllSent(Without(ms, vs[0].id), vs[1..])
  {
    var left := Without(ms, vs[0].id);
    WithoutMembers(ms, vs[0].id);
    forall x: nat ensures Sends(vs, x) <==> vs[0].id == x || Sends(vs[1..], x) {
      SendsFirst(vs, x);
    }
    if AllSent(left, vs[1..]) {
      forall m | m in ms ensures m.storeId.Some? && Sends(vs, m.storeId.value) {
        if m.storeId != Some(vs[0].id) {
          assert m in left;
        }
      }
    }
  }

  lemma {:induction false} EmptiedSplit(ms: seq<Mapped>, vs: seq<StoreVariant>, js: seq<Verdict>)
    requires vs != [] && DistinctVariants(vs) && |js| == |vs| && js[0].Refuse?
    requires ms != [] ==> Without(ms, vs[0].id) != []
    requires AllSent(Without(ms, vs[0].id), vs[1..])
    ensures Emptied(ms, vs, js) <==> Emptied(Without(ms, vs[0].id), vs[1..], js[1..])
  {
    var left, rest := Without(ms, vs[0].id), vs[1..];
    SentSplit(ms, vs);
    RestDistinct(vs);
    forall i | 0 <= i < |rest| ensures HasId(left, rest[i].id) <==> HasId(ms, vs[i + 1].id) {
      WithoutHas(ms, vs[0].id, rest[i].id);
    }
    if Emptied(ms, vs, js) {
      var k: nat :| EmptyBefore(ms, vs, js, k);
      SomeMapped(ms, vs, js);
      assert EmptyBefore(left, rest, js[1..], k - 1);
    }
    if Emptied(left, rest, js[1..]) {
      var k: nat :| EmptyBefore(left, rest, js[1..], k);
      forall i | k + 1 <= i < |vs| ensures !HasId(ms, vs[i].id) {
        assert vs[i] == rest[i - 1];
      }
      assert EmptyBefore(ms, vs, js, k + 1);
    }
  }

  /** What becomes of each store variant. */
  function Plan(s: State, d: StoreProduct, auto: bool): seq<Verdict>
    requires Started(s, d, auto).Some?
  {
    var e := Started(s, d, auto).value.env;
    Judged(e.table, e, Initial(s), d.variants)
  }

  lemma {:induction false} StartIs(s: State, d: StoreProduct, auto: bool)
    requires Started(s, d, auto).Some?
    ensures var start := Started(s, d, auto).value;
            && start.state.products == start.env.table && start.state.failed == s.failed
            && start.state.alternates == s.alternates == start.env.alternates && start.env.auto == auto
            && start.state.mapping == Purged(start.env.template, Initial(s), d.variants)
  {
    hide Chosen, Purged, SomeKnown, Taken, FirstVariant;
  }

  lemma {:induction false} KeptJudged(e: Env, ms: seq<Mapped>, vs: seq<StoreVariant>)
    ensures Judged(e.table, e, KnownTo(ms, vs), vs) == Judged(e.table, e, ms, vs)
  {
    PurgedIs(e.template, ms, vs);
    forall i | 0 <= i < |vs| ensures HasId(ms, vs[i].id) <==> HasId(KnownTo(ms, vs), vs[i].id) {
      assert Sends(vs, vs[i].id);
    }
    JudgedSame(e.table, e, ms, KnownTo(ms, vs), vs);
  }

  lemma {:induction false} PlanIs(s: State, d: StoreProduct, auto: bool)
    requires Started(s, d, auto).Some?
    ensures |Plan(s, d, auto)| == |d.variants|
    ensures var start, kept := Started(s, d, auto).value, KnownTo(Initial(s), d.variants);
            && start.state.products == start.env.table && start.state.failed == s.failed
            && start.state.alternates == s.alternates == start.env.alternates && start.env.auto == auto
            && AllSent(kept, d.variants)
            && (forall x: nat :: HasId(kept, x) <==> HasId(Initial(s), x) && Sends(d.variants, x))
            && start.state.mapping == (if kept == [] && Initial(s) != [] then None else Some(Mapping(start.env.template, kept)))
            && Judged(start.env.table, start.env, kept, d.variants) == Plan(s, d, auto)
  {
    var e := Started(s, d, auto).value.env;
    hide Started, KnownTo, Purged, HasId, Sends, Initial;
    StartIs(s, d, auto);
    PurgedIs(e.template, Initial(s), d.variants);
    KeptJudged(e, Initial(s), d.variants);
  }

  lemma {:induction false} StartedIff(s: State, d: StoreProduct, auto: bool)
    ensures Started(s, d, auto).None? <==>
            || d.variants == []
            || (!auto && !SomeKnown(s, d.variants))
            || (Chosen(s.products, s.alternates, d.variants).None? && !d.hasLines && Taken(s.products, d.sku))
  {
    hide Chosen, SomeKnown, Taken;
  }

  lemma {:induction false} LoopRaises(s: State, d: StoreProduct, auto: bool)
    requires Started(s, d, auto).Some? && DistinctVariants(d.variants) && d.variants != []
    ensures var start := Started(s, d, auto).value;
            ProcessedAll(start.state, start.env, d.variants).None?
            <==> Clash in Plan(s, d, auto) || Emptied(Initial(s), d.variants, Plan(s, d, auto))
  {
    var start, ms, vs, js := Started(s, d, auto).value, Initial(s), d.variants, Plan(s, d, auto);
    var kept := KnownTo(ms, vs);
    PlanIs(s, d, auto);
    hide Started, Plan, Judged, KnownTo;
    if start.state.mapping.None? {
      assert EmptyBefore(ms, vs, js, 0);
    } else {
      LoopRaisesIff(start.state, start.env, vs);
      SameEmptied(ms, kept, vs, js);
      hide Emptied, ProcessedAll;
    }
  }

  /** An import raises exactly when the store sends no variant; when no SKU is known and masters are not
      automatic; when a new template's first variant, or a product to be made, has a SKU or attributes that
      are taken; or when the mapping loses all its variants before the last store variant. */
  lemma {:induction false} ImportRaisesIff(s: State, d: StoreProduct, auto: bool)
    requires DistinctVariants(d.variants)
    ensures Imported(s, d, auto).None? <==>
            || d.variants == []
            || (!auto && !SomeKnown(s, d.variants))
            || (Chosen(s.products, s.alternates, d.variants).None? && !d.hasLines && Taken(s.products, d.sku))
            || Clash in Plan(s, d, auto) || Emptied(Initial(s), d.variants, Plan(s, d, auto))
  {
    StartedIff(s, d, auto);
    hide Started, Chosen, SomeKnown, Taken, Plan, Judged, Emptied, KnownTo, ProcessedAll;
    if Started(s, d, auto).Some? {
      PlanIs(s, d, auto);
      LoopRaises(s, d, auto);
    }
  }

  lemma {:induction false} SameEmptied(ms: seq<Mapped>, kept: seq<Mapped>, vs: seq<StoreVariant>, js: seq<Verdict>)
    requires |js| == |vs| && (ms != [] <==> kept != [])
    requires forall x: nat :: HasId(kept, x) <==> HasId(ms, x) && Sends(vs, x)
    ensures Emptied(ms, vs, js) <==> Emptied(kept, vs, js)
  {
    forall i | 0 <= i < |vs| ensures HasId(kept, vs[i].id) <==> HasId(ms, vs[i].id) {
      assert Sends(vs, vs[i].id);
    }
    if Emptied(ms, vs, js) {
      var k: nat :| EmptyBefore(ms, vs, js, k);
      assert EmptyBefore(kept, vs, js, k);
    }
    if Emptied(kept, vs, js) {
      var k: nat :| EmptyBefore(kept, vs, js, k);
      assert EmptyBefore(ms, vs, js, k);
    }
  }

  // ------------------------------------------------------------------ mapped or logged

  lemma {:induction false} RefusedIdsIs(vs: seq<StoreVariant>, js: seq<Verdict>, id: nat)
    requires |vs| == |js|
    ensures id in RefusedIds(vs, js) <==> exists i :: 0 <= i < |vs| && vs[i].id == id && js[i].Refuse?
  {
    if vs != [] {
      RefusedIdsIs(vs[1..], js[1..], id);
      assert forall i :: 0 <= i < |vs[1..]| ==> vs[1..][i] == vs[i + 1] && js[1..][i] == js[i + 1];
      if id in RefusedIds(vs[1..], js[1..]) {
        var i :| 0 <= i < |vs[1..]| && vs[1..][i].id == id && js[1..][i].Refuse?;
        assert vs[i + 1].id == id && js[i + 1].Refuse?;
      }
      if exists i :: 0 <= i < |vs| && vs[i].id == id && js[i].Refuse? {
        var i :| 0 <= i < |vs| && vs[i].id == id && js[i].Refuse?;
        assert i > 0 ==> vs[1..][i - 1].id == id && js[1..][i - 1].Refuse?;
      }
    }
  }

  /** After an import that does not raise every mapped variant is one the store sent, and every store
      variant is either mapped or logged as failed, never both; which of the two, the plan says. */
  lemma {:induction false} MappedOrLogged(s: State, d: StoreProduct, auto: bool, id: nat)
    requires DistinctVariants(d.variants) && Imported(s, d, auto).Some?
    ensures var after, js := Imported(s, d, auto).value, Plan(s, d, auto);
            && after.failed == s.failed + RefusedIds(d.variants, js)
            && (Holds(after, id) ==> Sends(d.variants, id))
            && (Sends(d.variants, id) ==> (Holds(after, id) <==> id !in RefusedIds(d.variants, js)))
            && (id in RefusedIds(d.variants, js) ==> Sends(d.variants, id))
            && forall i :: 0 <= i < |d.variants| && d.variants[i].id == id ==> (Holds(after, id) <==> !js[i].Refuse?)
  {
    var start, vs, js := Started(s, d, auto).value, d.variants, Plan(s, d, auto);
    PlanIs(s, d, auto);
    hide Started, Plan, Judged;
    LoopTables(start.state, start.env, vs);
    LoopHolds(start.state, start.env, vs, id);
    RefusedIdsIs(vs, js, id);
    if Sends(vs, id) {
      var i :| 0 <= i < |vs| && vs[i].id == id;
    }
  }

  /** The product has the SKU of the variant, or the variant's SKU is an alternate one of the product. */
  predicate Serves(products: seq<Product>, e: Env, m: Mapped, v: StoreVariant) {
    && m.product.Some? && m.product.value < |products|
    && products[m.product.value].template == e.template
    && (products[m.product.value].sku == Code(v.sku) || AlternateOf(e.alternates, v.sku) == m.product)
  }

  lemma {:induction false} PlacedMembers(ms: seq<Mapped>, id: nat, product: nat, m: Mapped)
    requires m in Placed(ms, id, product)
    ensures m in ms || (m.storeId == Some(id) && m.product == Some(product))
  {
    var placed := Placed(ms, id, product);
    var i :| 0 <= i < |placed| && placed[i] == m;
    if HasId(ms, id) {
      assert ms[i] in ms;
    }
  }

  lemma {:induction false} ProcessedMembers(s: State, e: Env, v: StoreVariant, m: Mapped)
    requires s.mapping.Some? && Processed(s, e, v).Some? && e.table <= s.products
    requires Processed(s, e, v).value.mapping.Some? && m in Processed(s, e, v).value.mapping.value.variants
    ensures m in s.mapping.value.variants
            || (m.storeId == Some(v.id) && Serves(Processed(s, e, v).value.products, e, m, v))
  {
    var ms := s.mapping.value.variants;
    WithoutMembers(ms, v.id);
    match VerdictOn(s.products, e, v, HasId(ms, v.id)) {
      case Link(product) => PlacedMembers(ms, v.id, product, m);
      case Make => PlacedMembers(ms, v.id, |s.products|, m);
      case _ =>
    }
  }

  lemma {:induction false} LoopMembers(s: State, e: Env, vs: seq<StoreVariant>, m: Mapped)
    requires DistinctVariants(vs) && s.mapping.Some? && ProcessedAll(s, e, vs).Some? && e.table <= s.products
    requires ProcessedAll(s, e, vs).value.mapping.Some? && m in ProcessedAll(s, e, vs).value.mapping.value.variants
    ensures m in s.mapping.value.variants
            || exists i :: 0 <= i < |vs| && m.storeId == Some(vs[i].id)
                           && Serves(ProcessedAll(s, e, vs).value.products, e, m, vs[i])
    decreases |vs|
  {
    if vs != [] {
      var next, after := Processed(s, e, vs[0]).value, ProcessedAll(s, e, vs).value;
      RestDistinct(vs);
      ProcessedHolds(s, e, vs[0], 0);
      LoopMembers(next, e, vs[1..], m);
      LoopTables(next, e, vs[1..]);
      TableGrows(next.products, e, vs[1..], Judged(next.products, e, next.mapping.value.variants, vs[1..]));
      if m in next.mapping.value.variants {
        ProcessedMembers(s, e, vs[0], m);
      } else {
        var i :| 0 <= i < |vs[1..]| && m.storeId == Some(vs[1..][i].id) && Serves(after.products, e, m, vs[1..][i]);
        assert vs[i + 1] == vs[1..][i];
      }
    }
  }

  /** A variant the import maps is mapped to a variant of the chosen template that has its SKU, or of which
      its SKU is an alternate one. */
  lemma {:induction false} MappedToItsMaster(s: State, d: StoreProduct, auto: bool, m: Mapped)
    requires DistinctVariants(d.variants) && Imported(s, d, auto).Some?
    requires Imported(s, d, auto).value.mapping.Some? && m in Imported(s, d, auto).value.mapping.value.variants
    ensures var after, e := Imported(s, d, auto).value, Started(s, d, auto).value.env;
            && after.mapping.value.template == e.template
            && (m in Initial(s) || exists i :: 0 <= i < |d.variants| && m.storeId == Some(d.variants[i].id)
                                               && Serves(after.products, e, m, d.variants[i]))
  {
    var start := Started(s, d, auto).value;
    PlanIs(s, d, auto);
    KnownMembers(Initial(s), d.variants);
    hide Started, Plan, Judged;
    LoopTables(start.state, start.env, d.variants);
    LoopMembers(start.state, start.env, d.variants, m);
  }

  // ------------------------------------------------------------------ every run of imports

  ghost predicate UniqueSkus(products: seq<Product>) {
    forall i, j :: 0 <= i < j < |products| && products[i].sku == products[j].sku ==>
      products[i].sku.Unset? || products[i].sku.n == 0
  }

  ghost predicate UniqueTwins(products: seq<Product>) {
    forall i, j :: 0 <= i < j < |products| && products[i].template == products[j].template ==>
      products[i].values != products[j].values
  }

  ghost predicate ProductsExist(ms: seq<Mapped>, products: seq<Product>) {
    forall m :: m in ms && m.product.Some? ==> m.product.value < |products|
  }

  /** No store id is mapped twice, no SKU is used twice, no template has two variants with the same
      attributes, and the templates and the products of alternate SKUs and mapped variants exist. */
  ghost predicate Sound(s: State) {
    && (s.mapping.Some? ==> OneEach(s.mapping.value.variants) && ProductsExist(s.mapping.value.variants, s.products))
    && UniqueSkus(s.products) && UniqueTwins(s.products)
    && (forall i :: 0 <= i < |s.products| ==> s.products[i].template < s.templates)
    && (forall i :: 0 <= i < |s.alternates| ==> s.alternates[i].product < |s.products|)
  }

  lemma {:induction false} ProductKeepsUnique(products: seq<Product>, template: nat, v: StoreVariant)
    requires UniqueSkus(products) && UniqueTwins(products)
    requires Made(products, template, v).Make?
    ensures UniqueSkus(products + [NewProduct(template, v)]) && UniqueTwins(products + [NewProduct(template, v)])
  {
    var one := NewProduct(template, v);
    var all := products + [one];
    forall i | 0 <= i < |products|
      ensures v.sku != 0 ==> products[i].sku != one.sku
      ensures products[i].template == template ==> products[i].values != one.values
    {
    }
    hide Made;
    assert forall i :: 0 <= i < |products| ==> all[i] == products[i];
  }

  lemma {:induction false} PlacedExist(ms: seq<Mapped>, products: seq<Product>, id: nat, product: nat)
    requires ProductsExist(ms, products) && product < |products|
    ensures ProductsExist(Placed(ms, id, product), products)
  {
    forall m | m in Placed(ms, id, product) && m.product.Some? ensures m.product.value < |products| {
      PlacedMembers(ms, id, product, m);
    }
  }

  lemma {:induction false} ProcessedSound(s: State, e: Env, v: StoreVariant)
    requires Sound(s) && Processed(s, e, v).Some? && e.template < s.templates && |e.table| <= |s.products|
    ensures Sound(Processed(s, e, v).value) && Processed(s, e, v).value.templates == s.templates
    ensures |s.products| <= |Processed(s, e, v).value.products|
  {
    var ms := s.mapping.value.variants;
    WithoutKeepsOne(ms, v.id);
    WithoutMembers(ms, v.id);
    match VerdictOn(s.products, e, v, HasId(ms, v.id)) {
      case Link(product) =>
        PlacedHas(ms, v.id, product, 0);
        PlacedExist(ms, s.products, v.id, product);
      case Make =>
        PlacedHas(ms, v.id, |s.products|, 0);
        ProductKeepsUnique(s.products, e.template, v);
        PlacedExist(ms, s.products + [NewProduct(e.template, v)], v.id, |s.products|);
      case _ =>
    }
  }

  lemma {:induction false} LoopSound(s: State, e: Env, vs: seq<StoreVariant>)
    requires Sound(s) && ProcessedAll(s, e, vs).Some? && e.template < s.templates && |e.table| <= |s.products|
    ensures Sound(ProcessedAll(s, e, vs).value)
    decreases |vs|
  {
    if vs != [] {
      ProcessedSound(s, e, vs[0]);
      hide Sound, Processed;
      LoopSound(Processed(s, e, vs[0]).value, e, vs[1..]);
    }
  }

  lemma {:induction false} FirstVariantKeepsUnique(s: State, d: StoreProduct)
    requires Sound(s) && (!d.hasLines ==> !Taken(s.products, d.sku))
    ensures var products := s.products + FirstVariant(s.templates, d);
            && UniqueSkus(products) && UniqueTwins(products)
            && forall i :: 0 <= i < |products| ==> products[i].template < s.templates + 1
  {
    var products := s.products + FirstVariant(s.templates, d);
    assert forall i :: 0 <= i < |s.products| ==> products[i] == s.products[i];
  }

  lemma {:induction false} KnownExist(ms: seq<Mapped>, vs: seq<StoreVariant>, products: seq<Product>, n: nat)
    requires n <= |products| && ProductsExist(ms, products[..n])
    ensures ProductsExist(KnownTo(ms, vs), products)
  {
    KnownMembers(ms, vs);
  }

  lemma {:induction false} StartedSound(s: State, d: StoreProduct, auto: bool)
    requires Sound(s) && Started(s, d, auto).Some?
    ensures Sound(Started(s, d, auto).value.state)
    ensures Started(s, d, auto).value.env.template < Started(s, d, auto).value.state.templates
  {
    var start := Started(s, d, auto).value;
    PurgedIs(start.env.template, Initial(s), d.variants);
    assert s.products == start.env.table[..|s.products|];
    KnownExist(Initial(s), d.variants, start.env.table, |s.products|);
    if Chosen(s.products, s.alternates, d.variants).None? {
      FirstVariantKeepsUnique(s, d);
    }
  }

  lemma {:induction false} ImportedSound(s: State, d: StoreProduct, auto: bool)
    requires Sound(s) && Imported(s, d, auto).Some?
    ensures Sound(Imported(s, d, auto).value)
  {
    StartedSound(s, d, auto);
    var start := Started(s, d, auto).value;
    StartIs(s, d, auto);
    LoopSound(start.state, start.env, d.variants);
  }

  datatype Job = Job(data: StoreProduct, auto: bool)

  /** One import after the other; one that raises changes nothing. */
  ghost predicate Run(states: seq<State>, jobs: seq<Job>) {
    && |states| == |jobs| + 1
    && forall i :: 0 <= i < |jobs| ==>
         var next := Imported(states[i], jobs[i].data, jobs[i].auto);
         states[i + 1] == if next.Some? then next.value else states[i]
  }

  /** Over every run of imports, with any data, no store id gets a second mapping and the master table keeps
      one variant for each SKU and each set of attributes. */
  lemma {:induction false} RunKeepsOne(states: seq<State>, jobs: seq<Job>, n: nat)
    requires Run(states, jobs) && n <= |jobs| && Sound(states[0])
    ensures Sound(states[n])
  {
    if n > 0 {
      RunKeepsOne(states, jobs, n - 1);
      var s, job := states[n - 1], jobs[n - 1];
      hide Sound, Imported;
      if Imported(s, job.data, job.auto).Some? {
        ImportedSound(s, job.data, job.auto);
      }
    }
  }
}
