/** The kits affected by a set of changed products: the recursive query over phantom bills of
    materials. */
module KitClosure {

  datatype Bom = Bom(template: nat, phantom: bool)

  datatype BomLine = BomLine(bom: nat, component: nat)

  /** The three tables the query joins; variants maps a product to its template. */
  datatype Catalog = Catalog(boms: map<nat, Bom>, bomLines: set<BomLine>, variants: map<nat, nat>)

  /** kit is a variant of a template whose phantom bill of materials uses component. */
  predicate UsesIn(c: Catalog, kit: nat, component: nat, l: BomLine) {
    && l in c.bomLines && l.component == component
    && l.bom in c.boms && c.boms[l.bom].phantom
    && kit in c.variants && c.variants[kit] == c.boms[l.bom].template
  }

  predicate Uses(c: Catalog, kit: nat, component: nat) {
    exists l :: l in c.bomLines && UsesIn(c, kit, component, l)
  }

  /** One join: the kits that use a member of s. */
  function KitsOf(c: Catalog, s: set<nat>): set<nat> {
    set kit | kit in c.variants.Keys && exists p :: p in s && Uses(c, kit, p)
  }

  /** How the database evaluates `WITH RECURSIVE ... UNION`: join the working table, keep the rows
      not found before, until there are none. */
  function Recurse(c: Catalog, work: set<nat>, found: set<nat>): (r: set<nat>)
    requires work <= found <= c.variants.Keys
    ensures found <= r <= c.variants.Keys
    decreases |c.variants.Keys - found|, work != {}
  {
    var next := KitsOf(c, work) - found;
    if next == {} then found
    else
      assert c.variants.Keys - (found + next) < c.variants.Keys - found;
      SmallerSet(c.variants.Keys - (found + next), c.variants.Keys - found);
      Recurse(c, next, found + next)
  }

  lemma {:induction false} SmallerSet(a: set<nat>, b: set<nat>)
    requires a < b
    ensures |a| < |b|
  {
    assert |b| == |a| + |b - a| by {
      assert a + (b - a) == b;
    }
    assert b - a != {};
  }

  /** `_get_products_to_sync_inventory` of the kit add-on. */
  function Extended(c: Catalog, products: set<nat>): set<nat> {
    if products == {} then products
    else
      var first := KitsOf(c, products);
      Recurse(c, first, first) + products
  }

  ghost predicate Closed(c: Catalog, s: set<nat>) {
    forall kit, p :: p in s && Uses(c, kit, p) ==> kit in s
  }

  lemma {:induction false} RecurseClosed(c: Catalog, work: set<nat>, found: set<nat>)
    requires work <= found <= c.variants.Keys
    requires forall kit, p :: p in found - work && Uses(c, kit, p) ==> kit in found
    ensures Closed(c, Recurse(c, work, found))
    decreases |c.variants.Keys - found|
  {
    var next := KitsOf(c, work) - found;
    if next == {} {
      forall kit, p | p in found && Uses(c, kit, p) ensures kit in found {
        if p in work {
          assert kit in KitsOf(c, work);
        }
      }
    } else {
      SmallerSet(c.variants.Keys - (found + next), c.variants.Keys - found);
      forall kit, p | p in (found + next) - next && Uses(c, kit, p) ensures kit in found + next {
        if p in work {
          assert kit in KitsOf(c, work);
        }
      }
      RecurseClosed(c, next, found + next);
    }
  }

  lemma {:induction false} RecurseLeast(c: Catalog, work: set<nat>, found: set<nat>, s: set<nat>)
    requires work <= found <= c.variants.Keys
    requires found <= s && Closed(c, s)
    ensures Recurse(c, work, found) <= s
    decreases |c.variants.Keys - found|
  {
    var next := KitsOf(c, work) - found;
    if next != {} {
      SmallerSet(c.variants.Keys - (found + next), c.variants.Keys - found);
      forall kit | kit in next ensures kit in s {
        var p :| p in work && Uses(c, kit, p);
      }
      RecurseLeast(c, next, found + next, s);
    }
  }

  /** The extension is the least set that holds the changed products and every kit using a member,
      for every catalog, cyclic bills of materials included. */
  lemma {:induction false} ExtendedIsLeastClosed(c: Catalog, products: set<nat>)
    ensures products <= Extended(c, products)
    ensures Closed(c, Extended(c, products))
    ensures forall s: set<nat> :: products <= s && Closed(c, s) ==> Extended(c, products) <= s
  {
    if products != {} {
      var first := KitsOf(c, products);
      var kits := Recurse(c, first, first);
      RecurseClosed(c, first, first);
      forall kit, p | p in kits + products && Uses(c, kit, p) ensures kit in kits + products {
        if p in products {
          assert kit in first;
        }
      }
      forall s: set<nat> | products <= s && Closed(c, s) ensures Extended(c, products) <= s {
        forall kit | kit in first ensures kit in s {
          var p :| p in products && Uses(c, kit, p);
        }
        RecurseLeast(c, first, first, s);
      }
    }
  }

  // ------------------------------------------------------------------ chains of kits

  /** A phantom bill of materials of the kit's template has a line for the component. */
  ghost predicate KitOf(c: Catalog, kit: nat, component: nat) {
    kit in c.variants
    && exists b: nat :: BomLine(b, component) in c.bomLines && b in c.boms && c.boms[b] == Bom(c.variants[kit], true)
  }

  lemma {:induction false} UsesIff(c: Catalog, kit: nat, component: nat)
    ensures Uses(c, kit, component) <==> KitOf(c, kit, component)
  {
    if Uses(c, kit, component) {
      var l :| l in c.bomLines && UsesIn(c, kit, component, l);
      assert BomLine(l.bom, component) == l;
    }
    if KitOf(c, kit, component) {
      var b: nat :| BomLine(b, component) in c.bomLines && b in c.boms && c.boms[b] == Bom(c.variants[kit], true);
      assert UsesIn(c, kit, component, BomLine(b, component));
    }
  }

  /** path leads from a changed product to its last element, each element a kit using the one before. */
  ghost predicate Chain(c: Catalog, products: set<nat>, path: seq<nat>) {
    && path != [] && path[0] in products
    && forall i :: 0 < i < |path| ==> KitOf(c, path[i], path[i - 1])
  }

  ghost predicate Reached(c: Catalog, products: set<nat>, p: nat) {
    exists path :: Chain(c, products, path) && path[|path| - 1] == p
  }

  lemma {:induction false} ChainExtends(c: Catalog, products: set<nat>, p: nat, kit: nat)
    requires Reached(c, products, p) && Uses(c, kit, p)
    ensures Reached(c, products, kit)
  {
    var path :| Chain(c, products, path) && path[|path| - 1] == p;
    var longer := path + [kit];
    UsesIff(c, kit, p);
    hide Uses, KitOf;
    assert Chain(c, products, longer) && longer[|longer| - 1] == kit;
  }

  lemma {:induction false} ChainInClosed(c: Catalog, products: set<nat>, path: seq<nat>, s: set<nat>, i: nat)
    requires Chain(c, products, path) && products <= s && Closed(c, s) && i < |path|
    ensures path[i] in s
  {
    if i > 0 {
      ChainInClosed(c, products, path, s, i - 1);
      UsesIff(c, path[i], path[i - 1]);
    }
  }

  /** A product is synchronised exactly when a chain of kits leads to it from a changed product. */
  lemma {:induction false} ExtendedIsReached(c: Catalog, products: set<nat>, p: nat)
    ensures p in Extended(c, products) <==> Reached(c, products, p)
  {
    ExtendedIsLeastClosed(c, products);
    if Reached(c, products, p) {
      var path :| Chain(c, products, path) && path[|path| - 1] == p;
      ChainInClosed(c, products, path, Extended(c, products), |path| - 1);
    }
    var all := Extended(c, products);
    var s := set q | q in all && Reached(c, products, q);
    forall q | q in products ensures q in s {
      assert Chain(c, products, [q]) && [q][|[q]| - 1] == q;
    }
    forall kit, q | q in s && Uses(c, kit, q) ensures kit in s {
      ChainExtends(c, products, q, kit);
    }
    assert Closed(c, s) && products <= s;
  }
}
