/** Inputs on which an import fails or does what its setting rules out. */
module VariantImportInputs {
  import opened Options
  import opened VariantImport
  import opened VariantImportLaws
  import opened VariantImportRepeat

  // ------------------------------------------------------------------ evaluating an import

  lemma {:induction false} CarrierIs(products: seq<Product>, code: nat, k: nat)
    requires k < |products| && products[k].sku == Code(code)
    requires forall i :: k < i < |products| ==> products[i].sku != Code(code)
    ensures CarrierOf(products, code) == Some(k)
  {
  }

  lemma {:induction false} NoCarrier(products: seq<Product>, code: nat)
    requires forall i :: 0 <= i < |products| ==> products[i].sku != Code(code)
    ensures CarrierOf(products, code) == None && forall template :: OwnOf(products, template, code) == None
  {
  }

  /** A store variant of the template whose SKU no later product has is its master. */
  lemma {:induction false} OwnMaster(e: Env, code: nat, k: nat)
    requires k < |e.table| && e.table[k].template == e.template && e.table[k].sku == Code(code)
    requires forall i :: k < i < |e.table| ==> e.table[i].sku != Code(code)
    requires AlternateOf(e.alternates, code).None?
    ensures MasterOf(e, code) == Some(k)
  {
    CarrierIs(e.table, code, k);
    var own := OwnOf(e.table, e.template, code);
    assert own == Some(k);
  }

  lemma {:induction false} NoMaster(e: Env, code: nat)
    requires forall i :: 0 <= i < |e.table| ==> e.table[i].sku != Code(code)
    requires var a := AlternateOf(e.alternates, code); a.Some? ==> a.value < |e.table| && e.table[a.value].template != e.template
    ensures MasterOf(e, code) == None
  {
    NoCarrier(e.table, code);
  }

  /** The start of an import of two or three variants into an existing template. */
  lemma {:induction false} StartedAs(s: State, d: StoreProduct, auto: bool, template: nat)
    requires d.variants != [] && Chosen(s.products, s.alternates, d.variants) == Some(template)
    requires AllSent(Initial(s), d.variants)
    ensures Started(s, d, auto) == Some(Start(s.(mapping := Some(Mapping(template, Initial(s)))),
                                              Env(s.products, s.alternates, template, auto)))
  {
    ChosenIsKnown(s, d.variants);
    PurgedIs(template, Initial(s), d.variants);
  }

  lemma {:induction false} ChosenBy(s: State, vs: seq<StoreVariant>, i: nat, k: nat)
    requires i < |vs| && k < |s.products| && CarrierOf(s.products, vs[i].sku).Some?
    requires Known(s.products, s.alternates, vs[i].sku) == Some(k)
    requires forall j :: 0 <= j < |vs| && CarrierOf(s.products, vs[j].sku).Some? ==> vs[i].sku <= vs[j].sku
    ensures Chosen(s.products, s.alternates, vs) == Some(s.products[k].template)
  {
  }

  lemma {:induction false} TwoProcessed(s: State, e: Env, v: StoreVariant, w: StoreVariant)
    ensures var next := Processed(s, e, v);
            ProcessedAll(s, e, [v, w]) == if next.None? then None else Processed(next.value, e, w)
  {
    assert [v, w][1..] == [w] && [w][1..] == [];
    var next := Processed(s, e, v);
    if next.Some? {
      assert ProcessedAll(next.value, e, [w]) ==
             if Processed(next.value, e, w).None? then None else ProcessedAll(Processed(next.value, e, w).value, e, []);
    }
  }

  /** A mapped variant without a master is thrown out when masters are not automatic. */
  lemma {:induction false} Throws(s: State, e: Env, v: StoreVariant, rest: seq<Mapped>)
    requires s.mapping.Some? && HasId(s.mapping.value.variants, v.id) && Without(s.mapping.value.variants, v.id) == rest
    requires MasterOf(e, v.sku).None? && !e.auto
    ensures Processed(s, e, v) ==
            Some(s.(failed := s.failed + [v.id], mapping := AfterUnlink(s.mapping.value.template, rest)))
  {
  }

  lemma {:induction false} Links(s: State, e: Env, v: StoreVariant, product: nat)
    requires s.mapping.Some? && !HasId(s.mapping.value.variants, v.id) && MasterOf(e, v.sku) == Some(product)
    ensures Processed(s, e, v) ==
            Some(s.(mapping := Some(s.mapping.value.(variants := s.mapping.value.variants + [Mapped(Some(v.id), Some(product))]))))
  {
  }

  lemma {:induction false} Makes(s: State, e: Env, v: StoreVariant)
    requires s.mapping.Some? && !HasId(s.mapping.value.variants, v.id) && MasterOf(e, v.sku).None?
    requires CarrierOf(s.products, v.sku).None? && TwinOf(s.products, e.template, v.values).None? && (e.auto || v.values == {})
    ensures Processed(s, e, v) ==
            Some(s.(products := s.products + [NewProduct(e.template, v)],
                    mapping := Some(s.mapping.value.(variants := s.mapping.value.variants
                                                                 + [Mapped(Some(v.id), Some(|s.products|))]))))
  {
  }

  // ------------------------------------------------------------------ the mapping emptied on the way

  /** The mapping has variant 1 only; the store sends 1, whose SKU has no master any more, then 2. */
  const LONE := Mapped(Some(1), None)
  const LOST := StoreVariant(1, 1, {4})
  const FOUND := StoreVariant(2, 2, {5})
  const EMPTYING := StoreProduct(0, true, [LOST, FOUND])

  function LoneMapped(): State {
    State([Product(0, Code(2), {5})], 1, [], Some(Mapping(0, [LONE])), [])
  }

  lemma {:induction false} LoneStarts()
    ensures Started(LoneMapped(), EMPTYING, false) == Some(Start(LoneMapped(), Env(LoneMapped().products, [], 0, false)))
  {
    var s := LoneMapped();
    CarrierIs(s.products, 2, 0);
    NoCarrier(s.products, 1);
    ChosenBy(s, EMPTYING.variants, 1, 0);
    assert EMPTYING.variants[0].id == 1;
    StartedAs(s, EMPTYING, false, 0);
  }

  /** The import raises, although variant 2 has a master. */
  lemma {:induction false} EmptiedMappingRaises()
    ensures Imported(LoneMapped(), EMPTYING, false).None?
    ensures MasterOf(Env(LoneMapped().products, [], 0, false), FOUND.sku) == Some(0)
  {
    var s, e := LoneMapped(), Env(LoneMapped().products, [], 0, false);
    LoneStarts();
    OwnMaster(e, 2, 0);
    NoMaster(e, 1);
    assert [LONE][0].storeId == Some(1) && HasId([LONE], 1);
    assert Without([LONE], 1) == [] by { assert [LONE][1..] == [] && Without([], 1) == []; }
    Throws(s, e, LOST, []);
    hide MasterOf, Started, Without;
    TwoProcessed(s, e, LOST, FOUND);
  }

  // ------------------------------------------------------------------ thrown out, then made

  const MASTER := Product(0, Code(1), {5})
  const MAPPED := Mapped(Some(1), Some(0))
  const KNOWN := StoreVariant(1, 1, {5})
  const UNKNOWN := StoreVariant(2, 2, {})
  const BOTH := StoreProduct(0, true, [KNOWN, UNKNOWN])

  /** A template with one master; the mapping holds variant 1, and variant 2 or not. */
  function OneMaster(rest: seq<Mapped>, failed: seq<nat>): State {
    State([MASTER], 1, [], Some(Mapping(0, [MAPPED] + rest)), failed)
  }

  lemma {:induction false} OneMasterStarts(rest: seq<Mapped>, failed: seq<nat>)
    requires rest == [] || rest == [Mapped(Some(2), None)]
    ensures var s := OneMaster(rest, failed);
            && Started(s, BOTH, false) == Some(Start(s, Env([MASTER], [], 0, false)))
            && MasterOf(Env([MASTER], [], 0, false), 1) == Some(0) && MasterOf(Env([MASTER], [], 0, false), 2) == None
            && Processed(s, Env([MASTER], [], 0, false), KNOWN) == Some(s)
  {
    var s := OneMaster(rest, failed);
    var vs := BOTH.variants;
    CarrierIs([MASTER], 1, 0);
    NoCarrier([MASTER], 2);
    ChosenBy(s, vs, 0, 0);
    assert vs[0].id == 1 && vs[1].id == 2;
    assert Sends(vs, 1) && Sends(vs, 2);
    StartedAs(s, BOTH, false, 0);
    OwnMaster(Env([MASTER], [], 0, false), 1, 0);
    NoMaster(Env([MASTER], [], 0, false), 2);
    assert Initial(s)[0].storeId == Some(1);
  }

  lemma {:induction false} ThrownOut()
    ensures Imported(OneMaster([Mapped(Some(2), None)], []), BOTH, false) == Some(OneMaster([], [2]))
  {
    var s, e, m := OneMaster([Mapped(Some(2), None)], []), Env([MASTER], [], 0, false), Mapped(Some(2), None);
    OneMasterStarts([m], []);
    TwoProcessed(s, e, KNOWN, UNKNOWN);
    assert [MAPPED, m] == [MAPPED] + [m] && [MAPPED, m][1].storeId == Some(2);
    assert Without([MAPPED, m], 2) == [MAPPED] by {
      assert [MAPPED, m][1..] == [m] && [m][1..] == [] && Without([], 2) == [] && Without([m], 2) == [];
    }
    Throws(s, e, UNKNOWN, [MAPPED]);
    assert [MAPPED] + [] == [MAPPED] && s.failed + [2] == [2];
  }

  lemma {:induction false} ThenMade()
    ensures Imported(OneMaster([], [2]), BOTH, false)
            == Some(State([MASTER, NewProduct(0, UNKNOWN)], 1, [], Some(Mapping(0, [MAPPED, Mapped(Some(2), Some(1))])), [2]))
  {
    var s, e := OneMaster([], [2]), Env([MASTER], [], 0, false);
    OneMasterStarts([], [2]);
    TwoProcessed(s, e, KNOWN, UNKNOWN);
    NoCarrier([MASTER], 2);
    assert [MAPPED] + [] == [MAPPED] && !HasId([MAPPED], 2);
    assert TwinOf([MASTER], 0, {}).None? by { assert 5 in MASTER.values; }
    Makes(s, e, UNKNOWN);
    assert [MASTER] + [NewProduct(0, UNKNOWN)] == [MASTER, NewProduct(0, UNKNOWN)];
    assert [MAPPED] + [Mapped(Some(2), Some(1))] == [MAPPED, Mapped(Some(2), Some(1))];
  }

  /** Without automatic masters, the mapping holds variant 2, which has no attributes and an unknown SKU: one
      import throws it out for want of a master, and the next makes that master against the setting. */
  lemma {:induction false} ThrownOutThenMade()
    ensures var s := OneMaster([Mapped(Some(2), None)], []);
            && Imported(s, BOTH, false).Some? && !Holds(Imported(s, BOTH, false).value, 2)
            && var twice := Imported(Imported(s, BOTH, false).value, BOTH, false);
               twice.Some? && Holds(twice.value, 2) && NewProduct(0, UNKNOWN) in twice.value.products
  {
    ThrownOut();
    ThenMade();
    assert [MAPPED] + [] == [MAPPED];
    var twice := Imported(OneMaster([], [2]), BOTH, false).value;
    assert twice.mapping.value.variants[1].storeId == Some(2) && twice.products[1] == NewProduct(0, UNKNOWN);
  }

  // ------------------------------------------------------------------ moved to another template

  const OTHER := Product(1, Code(9), {})
  const FIRST := StoreVariant(1, 2, {5})
  const SECOND := StoreVariant(2, 1, {6})
  const MOVING := StoreProduct(0, true, [FIRST, SECOND])

  /** SKU 1 is an alternate one of a product of another template. */
  const ALTERNATES := [Alternate(1, 1)]

  function Unmoved(): State { State([Product(0, Code(2), {5}), OTHER], 2, ALTERNATES, None, []) }

  function Moved(): State {
    State([Product(0, Code(2), {5}), OTHER, NewProduct(0, SECOND)], 2, ALTERNATES,
          Some(Mapping(0, [Mapped(Some(1), Some(0)), Mapped(Some(2), Some(2))])), [])
  }

  lemma {:induction false} AlternatesAre()
    ensures AlternateOf(ALTERNATES, 1) == Some(1) && AlternateOf(ALTERNATES, 2) == None
  {
    assert ALTERNATES[..0] == [] && AlternateOf([], 2) == None;
  }

  lemma {:induction false} UnmovedStarts()
    ensures Started(Unmoved(), MOVING, true)
            == Some(Start(Unmoved().(mapping := Some(Mapping(0, []))), Env(Unmoved().products, ALTERNATES, 0, true)))
    ensures var e := Env(Unmoved().products, ALTERNATES, 0, true); MasterOf(e, 2) == Some(0) && MasterOf(e, 1) == None
  {
    var s := Unmoved();
    AlternatesAre();
    CarrierIs(s.products, 2, 0);
    NoCarrier(s.products, 1);
    ChosenBy(s, MOVING.variants, 0, 0);
    StartedAs(s, MOVING, true, 0);
    OwnMaster(Env(s.products, ALTERNATES, 0, true), 2, 0);
    NoMaster(Env(s.products, ALTERNATES, 0, true), 1);
  }

  lemma {:induction false} FirstImport()
    ensures Imported(Unmoved(), MOVING, true) == Some(Moved())
  {
    var e, s := Env(Unmoved().products, ALTERNATES, 0, true), Unmoved().(mapping := Some(Mapping(0, [])));
    UnmovedStarts();
    TwoProcessed(s, e, FIRST, SECOND);
    NoCarrier(s.products, 1);
    assert TwinOf(s.products, 0, {6}).None? by {
      assert 5 in s.products[0].values && 5 !in {6};
    }
    Links(s, e, FIRST, 0);
    assert [] + [MAPPED] == [MAPPED] && !HasId([MAPPED], 2);
    Makes(s.(mapping := Some(Mapping(0, [MAPPED]))), e, SECOND);
    assert s.products + [NewProduct(0, SECOND)] == Moved().products;
    assert [MAPPED] + [Mapped(Some(2), Some(2))] == [MAPPED, Mapped(Some(2), Some(2))];
  }

  lemma {:induction false} MovedStarts()
    ensures Started(Moved(), MOVING, true)
            == Some(Start(Moved().(mapping := Some(Mapping(1, Initial(Moved())))), Env(Moved().products, ALTERNATES, 1, true)))
  {
    var s, vs := Moved(), MOVING.variants;
    AlternatesAre();
    CarrierIs(s.products, 2, 0);
    CarrierIs(s.products, 1, 2);
    ChosenBy(s, vs, 1, 1);
    assert vs[0].id == 1 && vs[1].id == 2 && Sends(vs, 1) && Sends(vs, 2);
    StartedAs(s, MOVING, true, 1);
  }

  lemma {:induction false} SecondImport()
    ensures Imported(Moved(), MOVING, true).None?
  {
    var e, s := Env(Moved().products, ALTERNATES, 1, true), Moved().(mapping := Some(Mapping(1, Initial(Moved()))));
    MovedStarts();
    AlternatesAre();
    CarrierIs(s.products, 2, 0);
    assert OwnOf(e.table, 1, 2).None?;
    assert MasterOf(e, 2).None?;
    assert TwinOf(s.products, 1, {5}).None? by {
      assert 5 !in OTHER.values && 5 in {5};
    }
    assert Creation(s.products, 1, true, FIRST).Clash?;
    TwoProcessed(s, e, FIRST, SECOND);
  }

  /** SKU 2 is that of a product, SKU 1 an alternate one of a product of another template. The first import
      makes a product with SKU 1; the second finds SKU 1 first, follows the alternate to the other template,
      wants a product with SKU 2 there, and raises. */
  lemma {:induction false} AlternateMovesTemplate()
    ensures Imported(Unmoved(), MOVING, true).Some? && Imported(Imported(Unmoved(), MOVING, true).value, MOVING, true).None?
  {
    FirstImport();
    SecondImport();
  }

  // ------------------------------------------------------------------ variants without SKU

  function WithoutSkus(): State {
    State([Product(0, Code(0), {4}), Product(0, Code(0), {5})], 1, [],
          Some(Mapping(0, [Mapped(Some(1), Some(0)), Mapped(Some(2), Some(1))])), [])
  }

  const NAMELESS := StoreProduct(0, true, [StoreVariant(2, 0, {5}), StoreVariant(3, 0, {6})])

  lemma {:induction false} NamelessStarts()
    ensures Started(WithoutSkus(), NAMELESS, true)
            == Some(Start(WithoutSkus().(mapping := Some(Mapping(0, [Mapped(Some(2), Some(1))]))),
                          Env(WithoutSkus().products, [], 0, true)))
    ensures MasterOf(Env(WithoutSkus().products, [], 0, true), 0) == Some(1)
  {
    var s := WithoutSkus();
    CarrierIs(s.products, 0, 1);
    ChosenBy(s, NAMELESS.variants, 0, 1);
    ChosenIsKnown(s, NAMELESS.variants);
    KeptOfTwo();
  }

  /** A new store variant without SKU is linked to the last master without SKU, whatever its attributes: two
      store variants share a master. */
  lemma {:induction false} BlankSkuSharesMaster()
    ensures Imported(WithoutSkus(), NAMELESS, true) ==
            Some(WithoutSkus().(mapping := Some(Mapping(0, [Mapped(Some(2), Some(1)), Mapped(Some(3), Some(1))]))))
  {
    var m := Mapped(Some(2), Some(1));
    var s, e := WithoutSkus().(mapping := Some(Mapping(0, [m]))), Env(WithoutSkus().products, [], 0, true);
    NamelessStarts();
    assert [m][0].storeId == Some(2) && HasId([m], 2) && !HasId([m], 3);
    Links(s, e, NAMELESS.variants[1], 1);
    assert [m] + [Mapped(Some(3), Some(1))] == [m, Mapped(Some(3), Some(1))];
    hide MasterOf, Started;
    TwoProcessed(s, e, NAMELESS.variants[0], NAMELESS.variants[1]);
  }

  lemma {:induction false} KeptOfTwo()
    ensures KnownTo(Initial(WithoutSkus()), NAMELESS.variants) == [Mapped(Some(2), Some(1))]
  {
    var ms, vs := Initial(WithoutSkus()), NAMELESS.variants;
    assert vs[0].id == 2 && Sends(vs, 2) && !Sends(vs, 1);
    assert ms[1..] == [ms[1]] && [ms[1]][1..] == [] && KnownTo([], vs) == [];
    assert KnownTo([ms[1]], vs) == [ms[1]];
  }
}
