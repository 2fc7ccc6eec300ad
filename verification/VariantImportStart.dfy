/** What an import starts from: the template it chooses or makes, and what it leaves of the mapping, told from the
    SKUs and the store ids. */
module VariantImportStart {
  import opened Options
  import opened VariantImport
  import opened VariantImportLaws
  import opened VariantImportOutcomes

  // ------------------------------------------------------------------ the template chosen

  ghost predicate Carried(products: seq<Product>, code: nat) { exists k: nat :: Carries(products, code, k) }

  ghost predicate Alternative(alternates: seq<Alternate>, code: nat) { exists i: nat :: IsAlternate(alternates, code, i) }

  /** A SKU the store sends is one of a product or an alternate one. */
  ghost predicate Knows(s: State, code: nat) { Carried(s.products, code) || Alternative(s.alternates, code) }

  ghost predicate KnowsSome(s: State, vs: seq<StoreVariant>) {
    exists i :: 0 <= i < |vs| && Knows(s, vs[i].sku)
  }

  /** The store's SKU that comes first: the smallest that a product carries, or without one that of the first alternate
      entry the store asks for. */
  ghost predicate ComesFirst(s: State, vs: seq<StoreVariant>, code: nat) {
    if exists i :: 0 <= i < |vs| && Carried(s.products, vs[i].sku)
    then Asks(vs, code) && Carried(s.products, code)
         && forall i :: 0 <= i < |vs| && Carried(s.products, vs[i].sku) ==> code <= vs[i].sku
    else exists i: nat :: IsAlternate(s.alternates, code, i) && Asks(vs, code)
                     && forall j :: 0 <= j < i ==> !Asks(vs, s.alternates[j].code)
  }

  /** The product of a SKU: that of its last alternate entry, or without one the last that carries it. */
  ghost predicate ProductOf(s: State, code: nat, p: nat) {
    if Alternative(s.alternates, code)
    then exists i: nat :: IsAlternate(s.alternates, code, i) && s.alternates[i].product == p
                     && forall j: nat :: IsAlternate(s.alternates, code, j) ==> j <= i
    else Carries(s.products, code, p) && forall k: nat :: Carries(s.products, code, k) ==> k <= p
  }

  ghost predicate ProductsAre(s: State) {
    forall i :: 0 <= i < |s.alternates| ==> s.alternates[i].product < |s.products|
  }

  lemma {:induction false} CarriedIff(products: seq<Product>, code: nat)
    ensures CarrierOf(products, code).Some? <==> Carried(products, code)
    ensures CarrierOf(products, code).Some? ==>
              && Carries(products, code, CarrierOf(products, code).value)
              && forall k: nat :: Carries(products, code, k) ==> k <= CarrierOf(products, code).value
  {
    if CarrierOf(products, code).Some? {
      assert Carries(products, code, CarrierOf(products, code).value);
    }
  }

  lemma {:induction false} KnownIs(s: State, code: nat)
    ensures Known(s.products, s.alternates, code).Some? <==> Knows(s, code)
    ensures Known(s.products, s.alternates, code).Some? ==> ProductOf(s, code, Known(s.products, s.alternates, code).value)
  {
    CarriedIff(s.products, code);
    LastAlternate(s.alternates, code);
    hide Carries, CarrierOf, AlternateOf;
  }

  lemma {:induction false} OneProduct(s: State, code: nat, p: nat, q: nat)
    requires ProductOf(s, code, p) && ProductOf(s, code, q)
    ensures p == q
  {
    hide IsAlternate;
  }

  lemma {:induction false} FirstAsked(alternates: seq<Alternate>, vs: seq<StoreVariant>)
    ensures var r := FirstAlternate(alternates, vs);
            if r.None? then forall i :: 0 <= i < |alternates| ==> !Asks(vs, alternates[i].code)
            else exists i: nat :: IsAlternate(alternates, r.value, i) && Asks(vs, r.value)
                   && forall j :: 0 <= j < i ==> !Asks(vs, alternates[j].code)
  {
    if alternates != [] {
      var k := |alternates| - 1;
      var before := alternates[..k];
      FirstAsked(before, vs);
      hide Asks;
      var rest := FirstAlternate(before, vs);
      assert forall i :: 0 <= i < k ==> before[i] == alternates[i];
      if rest.Some? {
        var i: nat :| IsAlternate(before, rest.value, i) && Asks(vs, rest.value) && forall j :: 0 <= j < i ==> !Asks(vs, before[j].code);
        assert IsAlternate(alternates, rest.value, i);
      } else {
        assert IsAlternate(alternates, alternates[k].code, k);
      }
    }
  }

  lemma {:induction false} FirstKeyIs(s: State, vs: seq<StoreVariant>)
    ensures FirstKey(s.products, s.alternates, vs).Some? <==> KnowsSome(s, vs)
    ensures FirstKey(s.products, s.alternates, vs).Some? ==> ComesFirst(s, vs, FirstKey(s.products, s.alternates, vs).value)
  {
    forall i | 0 <= i < |vs| ensures CarrierOf(s.products, vs[i].sku).Some? <==> Carried(s.products, vs[i].sku) {
      CarriedIff(s.products, vs[i].sku);
    }
    FirstAsked(s.alternates, vs);
    hide Carried, FirstAlternate, CarrierOf;
    var carried := SmallestCarried(s.products, vs);
    if carried.Some? {
      assert KnowsSome(s, vs);
    } else {
      AskedIff(s, vs);
    }
  }

  lemma {:induction false} AskedIff(s: State, vs: seq<StoreVariant>)
    requires forall i :: 0 <= i < |vs| ==> !Carried(s.products, vs[i].sku)
    ensures KnowsSome(s, vs) <==> exists i :: 0 <= i < |s.alternates| && Asks(vs, s.alternates[i].code)
  {
    if KnowsSome(s, vs) {
      var i :| 0 <= i < |vs| && Knows(s, vs[i].sku);
      var k: nat :| IsAlternate(s.alternates, vs[i].sku, k);
      assert Asks(vs, s.alternates[k].code);
    }
    if i :| 0 <= i < |s.alternates| && Asks(vs, s.alternates[i].code) {
      var k :| 0 <= k < |vs| && vs[k].sku == s.alternates[i].code;
      assert IsAlternate(s.alternates, vs[k].sku, i) && Knows(s, vs[k].sku);
    }
  }

  lemma {:induction false} OneFirst(s: State, vs: seq<StoreVariant>, a: nat, b: nat)
    requires ComesFirst(s, vs, a) && ComesFirst(s, vs, b)
    ensures a == b
  {
    if exists i :: 0 <= i < |vs| && Carried(s.products, vs[i].sku) {
      var i :| 0 <= i < |vs| && vs[i].sku == a;
      var j :| 0 <= j < |vs| && vs[j].sku == b;
    } else {
      var i: nat :| IsAlternate(s.alternates, a, i) && Asks(vs, a) && forall j :: 0 <= j < i ==> !Asks(vs, s.alternates[j].code);
      var j: nat :| IsAlternate(s.alternates, b, j) && Asks(vs, b) && forall k :: 0 <= k < j ==> !Asks(vs, s.alternates[k].code);
      hide Asks;
    }
  }

  /** The template chosen is that of the product of the SKU that comes first. */
  ghost predicate Choice(s: State, vs: seq<StoreVariant>, template: nat) {
    exists code: nat, p: nat :: ComesFirst(s, vs, code) && ProductOf(s, code, p) && p < |s.products|
                           && s.products[p].template == template
  }

  lemma {:induction false} ChosenIs(s: State, vs: seq<StoreVariant>, template: nat)
    requires ProductsAre(s)
    ensures Chosen(s.products, s.alternates, vs).Some? <==> KnowsSome(s, vs)
    ensures Chosen(s.products, s.alternates, vs) == Some(template) <==> KnowsSome(s, vs) && Choice(s, vs, template)
  {
    var key := FirstKey(s.products, s.alternates, vs);
    FirstKeyIs(s, vs);
    if key.Some? {
      var code := key.value;
      FirstIsKnown(s, vs, code);
      KnownIs(s, code);
      var p := Known(s.products, s.alternates, code).value;
      ProductIn(s, code, p);
      if Choice(s, vs, template) {
        var c: nat, q: nat :| ComesFirst(s, vs, c) && ProductOf(s, c, q) && q < |s.products| && s.products[q].template == template;
        OneFirst(s, vs, code, c);
        OneProduct(s, code, p, q);
      }
      hide ComesFirst, ProductOf, FirstKey, Known;
    }
  }

  lemma {:induction false} FirstIsKnown(s: State, vs: seq<StoreVariant>, code: nat)
    requires ComesFirst(s, vs, code)
    ensures Knows(s, code)
  {
  }

  lemma {:induction false} ProductIn(s: State, code: nat, p: nat)
    requires ProductsAre(s) && ProductOf(s, code, p)
    ensures p < |s.products|
  {
  }

  // ------------------------------------------------------------------ what the loop starts from

  /** The variants of the mapping the store still sends, as they were; the mapping itself is gone if it had variants and
      none is left. */
  ghost predicate Cleaned(s: State, vs: seq<StoreVariant>, template: nat, mapping: Option<Mapping>) {
    if s.mapping.None? then mapping == Some(Mapping(template, []))
    else
      var before := s.mapping.value.variants;
      if before != [] && (forall m :: m in before ==> !Stays(m, vs)) then mapping == None
      else mapping.Some? && mapping.value.template == template
           && forall m :: m in mapping.value.variants <==> m in before && Stays(m, vs)
  }

  predicate Stays(m: Mapped, vs: seq<StoreVariant>) {
    m.storeId.Some? && exists i :: 0 <= i < |vs| && vs[i].id == m.storeId.value
  }

  lemma {:induction false} CleanedIs(s: State, vs: seq<StoreVariant>, template: nat)
    ensures Cleaned(s, vs, template, Purged(template, Initial(s), vs))
  {
    var before := Initial(s);
    PurgedIs(template, before, vs);
    KnownMembers(before, vs);
    hide KnownTo, Purged;
    if KnownTo(before, vs) != [] {
      assert KnownTo(before, vs)[0] in KnownTo(before, vs);
    }
  }

  /** An import raises before its loop exactly if the store sends no variant; no SKU is known and masters are not
      automatic; or no SKU is known and a new template without attributes would repeat a SKU. */
  lemma {:induction false} StartRaisesIff(s: State, d: StoreProduct, auto: bool)
    requires ProductsAre(s)
    ensures Started(s, d, auto).None? <==>
            || d.variants == []
            || (!KnowsSome(s, d.variants) && (!auto || (!d.hasLines && d.sku != 0 && Carried(s.products, d.sku))))
  {
    SomeKnownIff(s, d.variants);
    ChosenIs(s, d.variants, 0);
    CarriedIff(s.products, d.sku);
    hide KnowsSome, Carried, CarrierOf, Chosen, SomeKnown;
  }

  lemma {:induction false} SomeKnownIff(s: State, vs: seq<StoreVariant>)
    ensures SomeKnown(s, vs) <==> KnowsSome(s, vs)
  {
    forall i | 0 <= i < |vs| ensures Known(s.products, s.alternates, vs[i].sku).Some? <==> Knows(s, vs[i].sku) {
      KnownIs(s, vs[i].sku);
    }
    hide Known, Knows;
  }

  /** Otherwise its loop starts from the masters there are and the template chosen, if a SKU is known; and else from a
      new template, whose first variant, unless it has attributes, carries the SKU of the store product. The mapping is
      cleaned of what the store no longer sends, and nothing else changes. */
  lemma {:induction false} StartedIs(s: State, d: StoreProduct, auto: bool)
    requires ProductsAre(s) && Started(s, d, auto).Some?
    ensures var start, e := Started(s, d, auto).value.state, Started(s, d, auto).value.env;
            && e.table == start.products && e.alternates == s.alternates && e.auto == auto
            && start.alternates == s.alternates && start.failed == s.failed
            && Cleaned(s, d.variants, e.template, start.mapping)
            && if KnowsSome(s, d.variants)
               then Choice(s, d.variants, e.template) && start.products == s.products && start.templates == s.templates
               else
                 && e.template == s.templates && start.templates == s.templates + 1
                 && start.products ==
                    if d.hasLines then s.products
                    else s.products + [Product(s.templates, if d.sku == 0 then Unset else Code(d.sku), {})]
  {
    ChosenIs(s, d.variants, 0);
    var chosen := Chosen(s.products, s.alternates, d.variants);
    if chosen.Some? {
      ChosenIs(s, d.variants, chosen.value);
      CleanedIs(s, d.variants, chosen.value);
    } else {
      CleanedIs(s, d.variants, s.templates);
    }
    hide KnowsSome, Choice, Cleaned, Chosen, SomeKnown, Purged;
    assert s.products + [] == s.products;
  }
}
