/** Importing the variants of a store product: the master variants it finds and makes, and its mapping. */
module VariantImport {
  import opened Options

  // ------------------------------------------------------------------ the database and the store data

  /** SKUs are numbered in the order of their texts; 0 is the empty text. */
  datatype Sku = Unset | Code(n: nat)

  /** A master variant, its id being its place in the table, with its attribute values. */
  datatype Product = Product(template: nat, sku: Sku, values: set<nat>)

  /** Another SKU under which a store knows a master variant. */
  datatype Alternate = Alternate(code: nat, product: nat)

  /** A variant of the mapping; one that was never on the store has no store id. */
  datatype Mapped = Mapped(storeId: Option<nat>, product: Option<nat>)

  datatype Mapping = Mapping(template: nat, variants: seq<Mapped>)

  /** The master variants, the number of templates, the store's alternate SKUs, the mapping of the store
      product, and the store ids with a failed log entry. */
  datatype State = State(products: seq<Product>, templates: nat, alternates: seq<Alternate>,
                         mapping: Option<Mapping>, failed: seq<nat>)

  /** A variant as the store sends it; `values` are the known attribute values its options name. */
  datatype StoreVariant = StoreVariant(id: nat, sku: nat, values: set<nat>)

  datatype StoreProduct = StoreProduct(sku: nat, hasLines: bool, variants: seq<StoreVariant>)

  // ------------------------------------------------------------------ looking up masters

  /** The last product for which the test holds. */
  function Last(products: seq<Product>, test: Product -> bool): (r: Option<nat>)
    ensures r.Some? ==> r.value < |products| && test(products[r.value])
    ensures r.Some? ==> forall i :: r.value < i < |products| ==> !test(products[i])
    ensures r.None? ==> forall i :: 0 <= i < |products| ==> !test(products[i])
  {
    if products == [] then None
    else
      var k := |products| - 1;
      if test(products[k]) then Some(k) else Last(products[..k], test)
  }

  function CarrierOf(products: seq<Product>, code: nat): Option<nat> {
    Last(products, (p: Product) => p.sku == Code(code))
  }

  function OwnOf(products: seq<Product>, template: nat, code: nat): Option<nat> {
    Last(products, (p: Product) => p.template == template && p.sku == Code(code))
  }

  /** The variant of a template with these attribute values. */
  function TwinOf(products: seq<Product>, template: nat, values: set<nat>): Option<nat> {
    Last(products, (p: Product) => p.template == template && p.values == values)
  }

  function AlternateOf(alternates: seq<Alternate>, code: nat): Option<nat> {
    if alternates == [] then None
    else
      var k := |alternates| - 1;
      if alternates[k].code == code then Some(alternates[k].product) else AlternateOf(alternates[..k], code)
  }

  /** `_prepare_mapping_skus`: alternate SKUs override products. */
  function Known(products: seq<Product>, alternates: seq<Alternate>, code: nat): Option<nat> {
    if AlternateOf(alternates, code).Some? then AlternateOf(alternates, code) else CarrierOf(products, code)
  }

  predicate SomeKnown(s: State, vs: seq<StoreVariant>) {
    exists i :: 0 <= i < |vs| && Known(s.products, s.alternates, vs[i].sku).Some?
  }

  /** The smallest SKU of the store's that a product carries. */
  function SmallestCarried(products: seq<Product>, vs: seq<StoreVariant>): (r: Option<nat>)
    ensures r.Some? ==> exists i :: 0 <= i < |vs| && vs[i].sku == r.value && CarrierOf(products, vs[i].sku).Some?
    ensures forall i :: 0 <= i < |vs| && CarrierOf(products, vs[i].sku).Some? ==> r.Some? && r.value <= vs[i].sku
  {
    if vs == [] then None
    else
      var rest := SmallestCarried(products, vs[1..]);
      if CarrierOf(products, vs[0].sku).Some? && (rest.None? || vs[0].sku <= rest.value) then Some(vs[0].sku) else rest
  }

  predicate Asks(vs: seq<StoreVariant>, code: nat) {
    exists i :: 0 <= i < |vs| && vs[i].sku == code
  }

  function FirstAlternate(alternates: seq<Alternate>, vs: seq<StoreVariant>): (r: Option<nat>)
    ensures r.Some? ==> Asks(vs, r.value) && AlternateOf(alternates, r.value).Some?
    ensures r.None? ==> forall i :: 0 <= i < |vs| ==> AlternateOf(alternates, vs[i].sku).None?
  {
    if alternates == [] then None
    else
      var k := |alternates| - 1;
      var rest := FirstAlternate(alternates[..k], vs);
      if rest.Some? then rest else if Asks(vs, alternates[k].code) then Some(alternates[k].code) else None
  }

  /** The first key of the dictionary from SKUs to products: products come first, by SKU. */
  function FirstKey(products: seq<Product>, alternates: seq<Alternate>, vs: seq<StoreVariant>): Option<nat> {
    var carried := SmallestCarried(products, vs);
    if carried.Some? then carried else FirstAlternate(alternates, vs)
  }

  /** `_get_master_product_from_variant_data`: the template of the first product of the dictionary. */
  function Chosen(products: seq<Product>, alternates: seq<Alternate>, vs: seq<StoreVariant>): Option<nat> {
    var key := FirstKey(products, alternates, vs);
    if key.None? then None
    else
      var p := Known(products, alternates, key.value);
      if p.Some? && p.value < |products| then Some(products[p.value].template) else None
  }

  /** What the loop over the store variants starts from: the table the SKUs were looked up in. */
  datatype Env = Env(table: seq<Product>, alternates: seq<Alternate>, template: nat, auto: bool)

  /** The master of a SKU: one of the template's own variants, or a known product of the template. */
  function MasterOf(e: Env, code: nat): Option<nat> {
    var own, known := OwnOf(e.table, e.template, code), Known(e.table, e.alternates, code);
    if code != 0 && own.Some? then own
    else if known.Some? && known.value < |e.table| && e.table[known.value].template == e.template then known
    else None
  }

  // ------------------------------------------------------------------ one store variant

  /** A mapped variant keeps its product; a variant is linked to a product; a product is made for it; it is
      refused; or the database refuses the product. */
  datatype Verdict = Keep | Link(product: nat) | Make | Refuse | Clash

  /** No two products have the same SKU, unless it is empty. */
  predicate Taken(products: seq<Product>, code: nat) {
    code != 0 && CarrierOf(products, code).Some?
  }

  function Made(products: seq<Product>, template: nat, v: StoreVariant): Verdict {
    if TwinOf(products, template, v.values).Some? || Taken(products, v.sku) then Clash else Make
  }

  /** `_create_product_product` */
  function Creation(products: seq<Product>, template: nat, auto: bool, v: StoreVariant): Verdict {
    var twin := TwinOf(products, template, v.values);
    if v.values == {} then Made(products, template, v)
    else if twin.Some? && products[twin.value].sku != Code(v.sku) then Refuse
    else if auto then Made(products, template, v)
    else if twin.Some? then Link(twin.value)
    else Refuse
  }

  function VerdictOn(products: seq<Product>, e: Env, v: StoreVariant, mapped: bool): Verdict {
    var master := MasterOf(e, v.sku);
    if master.Some? then (if mapped then Keep else Link(master.value))
    else if mapped && !e.auto then Refuse
    else Creation(products, e.template, e.auto, v)
  }

  function NewProduct(template: nat, v: StoreVariant): Product {
    Product(template, Code(v.sku), v.values)
  }

  // ------------------------------------------------------------------ the mapping

  predicate HasId(ms: seq<Mapped>, id: nat) {
    exists i :: 0 <= i < |ms| && ms[i].storeId == Some(id)
  }

  function Without(ms: seq<Mapped>, id: nat): (r: seq<Mapped>)
    ensures |r| <= |ms|
  {
    if ms == [] then [] else (if ms[0].storeId == Some(id) then [] else [ms[0]]) + Without(ms[1..], id)
  }

  function WithProduct(ms: seq<Mapped>, id: nat, product: nat): (r: seq<Mapped>)
    ensures |r| == |ms|
  {
    seq(|ms|, i requires 0 <= i < |ms| => if ms[i].storeId == Some(id) then ms[i].(product := Some(product)) else ms[i])
  }

  /** The variant gets the product, in a new mapping variant unless it has one. */
  function Placed(ms: seq<Mapped>, id: nat, product: nat): seq<Mapped> {
    if HasId(ms, id) then WithProduct(ms, id, product) else ms + [Mapped(Some(id), Some(product))]
  }

  predicate Sends(vs: seq<StoreVariant>, id: nat) {
    exists i :: 0 <= i < |vs| && vs[i].id == id
  }

  function KnownTo(ms: seq<Mapped>, vs: seq<StoreVariant>): (r: seq<Mapped>)
    ensures |r| <= |ms|
  {
    if ms == [] then []
    else (if ms[0].storeId.Some? && Sends(vs, ms[0].storeId.value) then [ms[0]] else []) + KnownTo(ms[1..], vs)
  }

  /** Deleting variants of a mapping deletes the mapping once none is left. */
  function AfterUnlink(template: nat, rest: seq<Mapped>): Option<Mapping> {
    if rest == [] then None else Some(Mapping(template, rest))
  }

  /** `_remove_invalid_product_mapping_variant` */
  function Purged(template: nat, ms: seq<Mapped>, vs: seq<StoreVariant>): Option<Mapping> {
    if |KnownTo(ms, vs)| == |ms| then Some(Mapping(template, ms)) else AfterUnlink(template, KnownTo(ms, vs))
  }

  // ------------------------------------------------------------------ one import

  /** `_process_mapping_variant`; None when it raises, as on a mapping that was deleted. */
  function Processed(s: State, e: Env, v: StoreVariant): Option<State> {
    if s.mapping.None? then None
    else
      var t, ms := s.mapping.value.template, s.mapping.value.variants;
      match VerdictOn(s.products, e, v, HasId(ms, v.id))
      case Keep => Some(s)
      case Link(product) => Some(s.(mapping := Some(Mapping(t, Placed(ms, v.id, product)))))
      case Make => Some(s.(products := s.products + [NewProduct(e.template, v)],
                           mapping := Some(Mapping(t, Placed(ms, v.id, |s.products|)))))
      case Refuse => Some(s.(failed := s.failed + [v.id],
                             mapping := if HasId(ms, v.id) then AfterUnlink(t, Without(ms, v.id)) else s.mapping))
      case Clash => None
  }

  function ProcessedAll(s: State, e: Env, vs: seq<StoreVariant>): Option<State>
    decreases |vs|
  {
    if vs == [] then Some(s)
    else
      var next := Processed(s, e, vs[0]);
      if next.None? then None else ProcessedAll(next.value, e, vs[1..])
  }

  /** The variants the mapping has when the import starts. */
  function Initial(s: State): seq<Mapped> { if s.mapping.Some? then s.mapping.value.variants else [] }

  /** A new template without attributes has one variant at once, with the SKU of the store product. */
  function FirstVariant(template: nat, d: StoreProduct): seq<Product> {
    if d.hasLines then [] else [Product(template, if d.sku == 0 then Unset else Code(d.sku), {})]
  }

  datatype Start = Start(state: State, env: Env)

  function StartOn(s: State, products: seq<Product>, templates: nat, template: nat, vs: seq<StoreVariant>, auto: bool): Start {
    Start(s.(products := products, templates := templates, mapping := Purged(template, Initial(s), vs)),
          Env(products, s.alternates, template, auto))
  }

  /** Up to the loop over the variants; None when it raises. */
  function Started(s: State, d: StoreProduct, auto: bool): Option<Start> {
    var chosen := Chosen(s.products, s.alternates, d.variants);
    if d.variants == [] || (!auto && !SomeKnown(s, d.variants)) then None
    else if chosen.Some? then Some(StartOn(s, s.products, s.templates, chosen.value, d.variants, auto))
    else if !d.hasLines && Taken(s.products, d.sku) then None
    else Some(StartOn(s, s.products + FirstVariant(s.templates, d), s.templates + 1, s.templates, d.variants, auto))
  }

  /** One import; None when it raises, which leaves the database as it was. */
  function Imported(s: State, d: StoreProduct, auto: bool): Option<State> {
    var start := Started(s, d, auto);
    if start.None? then None else ProcessedAll(start.value.state, start.value.env, d.variants)
  }

  // ------------------------------------------------------------------ the code

  class ProductImport {
    var products: seq<Product>
    var templates: nat
    const alternates: seq<Alternate>
    var mapping: Option<Mapping>
    var failed: seq<nat>

    function Content(): State
      reads this
    {
      State(products, templates, alternates, mapping, failed)
    }

    constructor (alternates: seq<Alternate>)
      ensures Content() == State([], 0, alternates, None, [])
    {
      this.products, this.templates, this.alternates, this.mapping, this.failed := [], 0, alternates, None, [];
    }

    method Unlink(rest: seq<Mapped>)
      requires mapping.Some?
      modifies `mapping
      ensures mapping == AfterUnlink(old(mapping).value.template, rest)
    {
      mapping := Some(mapping.value.(variants := rest));
      if rest == [] {
        mapping := None;
      }
    }

    /** The product found or made, or none; false when the database refuses the new product. */
    method CreateProductProduct(template: nat, auto: bool, v: StoreVariant)
      returns (ok: bool, mismatch: bool, product: Option<nat>)
      modifies this
      ensures ok == !Creation(old(products), template, auto, v).Clash?
      ensures ok ==> match Creation(old(products), template, auto, v)
                     case Make => !mismatch && product == Some(old(|products|))
                                  && Content() == old(Content()).(products := old(products) + [NewProduct(template, v)])
                     case Link(p) => !mismatch && product == Some(p) && Content() == old(Content())
                     case _ => (mismatch || product.None?) && Content() == old(Content())
      ensures mismatch ==> Creation(old(products), template, auto, v).Refuse?
      ensures auto && ok && !mismatch ==> product.Some?
    {
      ok, mismatch, product := true, false, None;
      var twin := TwinOf(products, template, v.values);
      if v.values != {} {
        if twin.Some? && products[twin.value].sku != Code(v.sku) {
          return true, true, None;
        }
        if !auto {
          return true, false, twin;
        }
      }
      if twin.Some? || Taken(products, v.sku) {
        return false, false, None;
      }
      product := Some(|products|);
      products := products + [NewProduct(template, v)];
    }

    method ProcessExistedMappingVariant(e: Env, v: StoreVariant) returns (ok: bool)
      requires mapping.Some? && HasId(mapping.value.variants, v.id)
      modifies this
      ensures ok == Processed(old(Content()), e, v).Some?
      ensures ok ==> Content() == Processed(old(Content()), e, v).value
    {
      var ms := mapping.value.variants;
      ok := true;
      if MasterOf(e, v.sku).None? && !e.auto {
        failed := failed + [v.id];
        Unlink(Without(ms, v.id));
      } else if MasterOf(e, v.sku).None? {
        var mismatch, product;
        ok, mismatch, product := CreateProductProduct(e.template, e.auto, v);
        if mismatch {
          failed := failed + [v.id];
          Unlink(Without(ms, v.id));
        } else if ok && product.Some? {
          mapping := Some(mapping.value.(variants := WithProduct(ms, v.id, product.value)));
        }
      }
    }

    method ProcessNotExistedMappingVariant(e: Env, v: StoreVariant) returns (ok: bool)
      requires mapping.Some? && !HasId(mapping.value.variants, v.id)
      modifies this
      ensures ok == Processed(old(Content()), e, v).Some?
      ensures ok ==> Content() == Processed(old(Content()), e, v).value
    {
      var mismatch, product := false, MasterOf(e, v.sku);
      ok := true;
      if product.None? {
        ok, mismatch, product := CreateProductProduct(e.template, e.auto, v);
      }
      if ok && !mismatch && product.Some? {
        mapping := Some(mapping.value.(variants := mapping.value.variants + [Mapped(Some(v.id), product)]));
      } else if ok {
        failed := failed + [v.id];
      }
    }

    /** Finds the template of the store product, or makes one; None when it raises. */
    method ChooseTemplate(d: StoreProduct) returns (template: Option<nat>)
      modifies `products, `templates
      ensures var chosen := Chosen(old(products), alternates, d.variants);
              if chosen.Some? then template == chosen && products == old(products) && templates == old(templates)
              else if !d.hasLines && Taken(old(products), d.sku)
                then template == None && products == old(products) && templates == old(templates)
              else template == Some(old(templates)) && templates == old(templates) + 1
                   && products == old(products) + FirstVariant(old(templates), d)
    {
      template := Chosen(products, alternates, d.variants);
      if template.None? {
        if !d.hasLines && Taken(products, d.sku) {
          return None;
        }
        products := products + FirstVariant(templates, d);
        template, templates := Some(templates), templates + 1;
      }
    }

    /** Maps the store product to the template and drops the variants that the store no longer sends. */
    method Purge(template: nat, vs: seq<StoreVariant>)
      modifies `mapping
      ensures mapping == Purged(template, if old(mapping).Some? then old(mapping).value.variants else [], vs)
    {
      var ms := if mapping.Some? then mapping.value.variants else [];
      mapping := Some(Mapping(template, ms));
      var known := KnownTo(ms, vs);
      if |known| != |ms| {
        Unlink(known);
      }
    }

    /** `_sync_in_queue_job_with_manage_variants` up to its loop. */
    method StartSync(d: StoreProduct, auto: bool) returns (ok: bool, e: Env)
      modifies this
      ensures ok == Started(old(Content()), d, auto).Some?
      ensures ok ==> Start(Content(), e) == Started(old(Content()), d, auto).value
      ensures !ok ==> Content() == old(Content())
    {
      hide Chosen, SomeKnown, FirstVariant, Taken, Purged;
      ok, e := false, Env(products, alternates, templates, auto);
      if d.variants == [] || (!auto && !SomeKnown(Content(), d.variants)) {
        return;
      }
      var template := ChooseTemplate(d);
      if template.Some? {
        Purge(template.value, d.variants);
        ok, e := true, Env(products, alternates, template.value, auto);
      }
    }

    /** `_sync_in_queue_job_with_manage_variants`; false when it raises, which undoes everything. */
    method SyncInQueueJob(d: StoreProduct, auto: bool) returns (ok: bool)
      modifies this
      ensures ok == Imported(old(Content()), d, auto).Some?
      ensures Content() == if ok then Imported(old(Content()), d, auto).value else old(Content())
    {
      hide Started, ProcessedAll;
      var before := Content();
      var e;
      ok, e := StartSync(d, auto);
      if ok {
        ok := SyncVariants(e, d.variants);
        if !ok {
          products, templates, mapping, failed := before.products, before.templates, before.mapping, before.failed;
        }
      }
    }

    method SyncVariants(e: Env, vs: seq<StoreVariant>) returns (ok: bool)
      modifies this
      ensures ok == ProcessedAll(old(Content()), e, vs).Some?
      ensures ok ==> Content() == ProcessedAll(old(Content()), e, vs).value
    {
      var i := 0;
      ghost var start := Content();
      while i < |vs|
        invariant 0 <= i <= |vs|
        invariant ProcessedAll(start, e, vs) == ProcessedAll(Content(), e, vs[i..])
      {
        assert vs[i..][1..] == vs[i + 1..];
        if mapping.None? {
          return false;
        }
        if HasId(mapping.value.variants, vs[i].id) {
          ok := ProcessExistedMappingVariant(e, vs[i]);
        } else {
          ok := ProcessNotExistedMappingVariant(e, vs[i]);
        }
        if !ok {
          return false;
        }
        i := i + 1;
      }
      return true;
    }
  }
}
