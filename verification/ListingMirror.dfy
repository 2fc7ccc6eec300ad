/** A listing and its sole variant: a write to either side is mirrored on the other. */
module ListingMirror {
  import opened Options

  /** The fields a listing mirrors through `_set_base_variant`. */
  datatype Field = WeightInOz | Depth | Height | Width | LstPrice | RetailPrice | SalePrice | Barcode

  const FIELDS := [WeightInOz, Depth, Height, Width, LstPrice, RetailPrice, SalePrice, Barcode]

  datatype Value = Number(n: real) | Text(s: string)

  type Values = map<Field, Value>

  datatype Status = Draft | InProgress | Published | Updated | Failed

  /** The context of a write. */
  datatype Context = Context(updateStatus: bool, updateThumbnail: bool, forSynching: bool, exportFromMaster: bool,
                             setBaseVariant: bool, setBaseTemplate: bool)

  /** The values written, whether any other field is written, an explicit state, and whether more than
      one record is written at once. */
  datatype Write = Write(vals: Values, others: bool, status: Option<Status>, together: bool)

  /** The listing's values, its variant's values, its state, and whether it is on the store. */
  datatype Listing = Listing(template: Values, variant: Values, status: Status, listed: bool)

  /** The number of digits weights and prices are stored with. */
  datatype Digits = Digits(weight: nat, price: nat)

  // ------------------------------------------------------------------ rounding

  function Pow10(d: nat): (r: nat)
    ensures r > 0
  {
    if d == 0 then 1 else 10 * Pow10(d - 1)
  }

  /** The nearest whole number, halves away from zero. */
  function Nearest(x: real): int {
    if x >= 0.0 then (x + 0.5).Floor else -((0.5 - x).Floor)
  }

  /** The nearest multiple of one u-th. */
  function Rounded(x: real, u: real): real
    requires u > 0.0
  {
    Nearest(x * u) as real / u
  }

  /** How many units of the last digit make one. */
  function Units(d: nat): (r: real)
    ensures r > 0.0
  {
    Pow10(d) as real
  }

  function RoundTo(x: real, d: nat): real { Rounded(x, Units(d)) }

  lemma {:induction false} NearestTo(k: int, rest: real)
    requires 0.0 <= rest < 0.5
    ensures (k as real + rest + 0.5).Floor == k
  {
  }

  lemma {:induction false} NearestWhole(k: int)
    ensures Nearest(k as real) == k
  {
    NearestTo(k, 0.0);
    NearestTo(-k, 0.0);
    assert 0.5 - k as real == (-k) as real + 0.0 + 0.5;
  }

  lemma {:induction false} ScaledBack(k: real, u: real)
    requires u > 0.0
    ensures k / u * u == k
  {
  }

  /** Rounding twice is rounding once. */
  lemma {:induction false} RoundedTwice(x: real, u: real)
    requires u > 0.0
    ensures Rounded(Rounded(x, u), u) == Rounded(x, u)
  {
    var k := Nearest(x * u);
    ScaledBack(k as real, u);
    NearestWhole(k);
    assert Rounded(x, u) * u == k as real;
  }

  // ------------------------------------------------------------------ values

  /** What is stored of a value written to a field. */
  function Stored(f: Field, v: Value, g: Digits): Value {
    if v.Text? then v
    else match f
      case WeightInOz => Number(RoundTo(v.n, g.weight))
      case LstPrice => Number(RoundTo(v.n, g.price))
      case RetailPrice => Number(RoundTo(v.n, g.price))
      case SalePrice => Number(RoundTo(v.n, g.price))
      case _ => v
  }

  function StoredAll(vals: Values, g: Digits): (r: Values)
    ensures r.Keys == vals.Keys
  {
    map f | f in vals :: Stored(f, vals[f], g)
  }

  lemma {:induction false} StoredTwice(f: Field, v: Value, g: Digits)
    ensures Stored(f, Stored(f, v, g), g) == Stored(f, v, g)
  {
    if v.Number? {
      RoundedTwice(v.n, Units(g.weight));
      RoundedTwice(v.n, Units(g.price));
    }
  }

  predicate Bypass(c: Context) { c.updateStatus || c.updateThumbnail }

  /** A change of at most 1e-5. */
  predicate Tiny(a: Value, b: Value) {
    a.Number? && b.Number? && -0.00001 <= a.n - b.n <= 0.00001
  }

  // ------------------------------------------------------------------ the specification

  /** What is left to write: a tiny change of weight is dropped when one record is written by a
      synchronisation. */
  function Kept(now: Values, vals: Values, c: Context, together: bool): Values {
    if !Bypass(c) && c.forSynching && !together && WeightInOz in vals && WeightInOz in now
       && Tiny(now[WeightInOz], vals[WeightInOz])
    then vals - {WeightInOz} else vals
  }

  function StatusAfter(l: Listing, c: Context, w: Write, any: bool): Status {
    if w.status.Some? then w.status.value
    else if Bypass(c) || c.exportFromMaster || c.forSynching || !any then l.status
    else if l.status == Published then Updated
    else if l.status == Failed then if l.listed then Updated else Draft
    else l.status
  }

  predicate Locked(l: Listing, c: Context) {
    l.status == InProgress && !c.forSynching && !Bypass(c)
  }

  /** A write to the listing; None when it raises. */
  function TemplateWritten(l: Listing, sole: bool, c: Context, w: Write, g: Digits): Option<Listing> {
    if Locked(l, c) then None
    else
      var kept := Kept(l.template, w.vals, c, w.together);
      var template := l.template + StoredAll(kept, g);
      var pushed := if sole && !c.setBaseTemplate && kept != map[] then Pushed(l.variant, template, c, g) else l.variant;
      Some(Listing(template, pushed, StatusAfter(l, c, w, w.others || kept != map[]), l.listed))
  }

  /** The variant's values once those of the listing are written to it. */
  function Pushed(variant: Values, template: Values, c: Context, g: Digits): Values {
    variant + StoredAll(Kept(variant, template, c, false), g)
  }

  /** A write to the variant. */
  function VariantWritten(l: Listing, sole: bool, c: Context, w: Write, g: Digits): Option<Listing> {
    var kept := Kept(l.variant, w.vals, c, w.together);
    var next := l.(variant := l.variant + StoredAll(kept, g));
    if Bypass(c) || !sole || c.setBaseVariant || kept == map[] then Some(next)
    else if Locked(l, c) then None
    else Some(Mirrored(next, c, StoredAll(kept, g), g))
  }

  // ------------------------------------------------------------------ the code

  class ProductListing {
    const sole: bool
    const digits: Digits
    var template: Values
    var variant: Values
    var status: Status
    var listed: bool

    function Content(): Listing
      reads this
    {
      Listing(template, variant, status, listed)
    }

    ghost predicate Valid()
      reads this
    {
      Total(template) && Total(variant)
    }

    constructor (sole: bool, digits: Digits, l: Listing)
      requires Total(l.template) && Total(l.variant)
      ensures this.sole == sole && this.digits == digits && Content() == l && Valid()
    {
      this.sole, this.digits := sole, digits;
      template, variant, status, listed := l.template, l.variant, l.status, l.listed;
    }

    /** `_set_base_variant`: each field of the listing is written to its sole variant. */
    method SetBaseVariant(c: Context)
      requires Valid() && !c.setBaseTemplate
      modifies this
      ensures Valid()
      ensures Content() == if sole then old(Content()).(variant := Pushed(old(variant), old(template), c, digits))
                           else old(Content())
      decreases 1, 0
    {
      if sole {
        var i := 0;
        while i < |FIELDS|
          invariant 0 <= i <= |FIELDS| && Valid()
          invariant template == old(template) && status == old(status) && listed == old(listed)
          invariant variant == Pushed(old(variant), Only(template, i), c, digits)
        {
          var f := FIELDS[i];
          PushedStep(old(variant), template, c, i, digits);
          PushOne(Content(), c, f, template[f], digits);
          var done := WriteVariant(c.(setBaseVariant := true), Write(map[f := template[f]], false, None, false));
          i := i + 1;
        }
        OnlyAll(template);
      }
    }

    /** The weight is left alone when a synchronisation of one record hardly changes it. */
    method DropWeight(now: Values, c: Context, w: Write) returns (vals: Values)
      requires WeightInOz in now
      ensures vals == Kept(now, w.vals, c, w.together)
    {
      vals := w.vals;
      if !Bypass(c) && !w.together && WeightInOz in vals && c.forSynching && Tiny(now[WeightInOz], vals[WeightInOz]) {
        vals := vals - {WeightInOz};
      }
    }

    method SetStatus(c: Context, w: Write, any: bool)
      modifies this
      ensures Content() == old(Content()).(status := StatusAfter(old(Content()), c, w, any))
    {
      if w.status.Some? {
        status := w.status.value;
      } else if !Bypass(c) && !c.exportFromMaster && !c.forSynching && any {
        if status == Published {
          status := Updated;
        } else if status == Failed {
          status := if listed then Updated else Draft;
        }
      }
    }

    /** `write` of the listing; false when it raises. */
    method WriteTemplate(c: Context, w: Write) returns (ok: bool)
      requires Valid()
      modifies this
      ensures Valid() && ok == TemplateWritten(old(Content()), sole, c, w, digits).Some?
      ensures Content() == if ok then TemplateWritten(old(Content()), sole, c, w, digits).value else old(Content())
      decreases if c.setBaseTemplate then 0 else 1, 1
    {
      var vals := DropWeight(template, c, w);
      if !Bypass(c) && !c.forSynching && status == InProgress {
        return false;
      }
      SetStatus(c, w, w.others || vals != map[]);
      template := template + StoredAll(vals, digits);
      if vals != map[] && !c.setBaseTemplate {
        SetBaseVariant(c);
      }
      return true;
    }

    /** The values written to the sole variant are written to the listing; false when that raises. */
    method UpdateTemplate(c: Context, vals: Values) returns (ok: bool)
      requires Valid() && !c.setBaseVariant && forall f :: f in vals ==> variant[f] == vals[f]
      modifies this
      ensures Valid() && ok == (vals == map[] || !Locked(old(Content()), c))
      ensures Content() == if ok && vals != map[] then Mirrored(old(Content()), c, vals, digits) else old(Content())
      decreases 1, 0
    {
      var i := 0;
      while i < |FIELDS|
        invariant 0 <= i <= |FIELDS| && Valid()
        invariant Only(vals, i) != map[] ==> !Locked(old(Content()), c)
        invariant Locked(Content(), c) ==> Locked(old(Content()), c)
        invariant Content() == if Only(vals, i) == map[] then old(Content())
                               else Mirrored(old(Content()), c, Only(vals, i), digits)
      {
        var f := FIELDS[i];
        OnlyNext(vals, i);
        if f in vals {
          MirroredStep(old(Content()), c, vals, i, digits);
          MirrorOne(Content(), sole, c, f, vals[f], digits);
          var done := WriteTemplate(c.(setBaseTemplate := true), Write(map[f := variant[f]], false, None, false));
          if !done {
            return false;
          }
        }
        i := i + 1;
      }
      OnlyAll(vals);
      return true;
    }

    /** `write` of the variant; false when it raises. */
    method WriteVariant(c: Context, w: Write) returns (ok: bool)
      requires Valid()
      modifies this
      ensures Valid() && ok == VariantWritten(old(Content()), sole, c, w, digits).Some?
      ensures Content() == if ok then VariantWritten(old(Content()), sole, c, w, digits).value else old(Content())
      decreases if c.setBaseVariant then 0 else 1, 1
    {
      var vals := DropWeight(variant, c, w);
      var saved := variant;
      variant := variant + StoredAll(vals, digits);
      ok := true;
      if !Bypass(c) && !c.setBaseVariant && sole {
        ok := UpdateTemplate(c, StoredAll(vals, digits));
        if !ok {
          variant := saved;
        }
      }
    }
  }

  /** The listing once its sole variant's new values are written back to it. */
  function Mirrored(l: Listing, c: Context, vals: Values, g: Digits): Listing {
    var back := Kept(l.template, vals, c, false);
    l.(template := l.template + StoredAll(back, g),
       status := StatusAfter(l, c, Write(back, false, None, false), back != map[]))
  }

  ghost predicate Total(vals: Values) { forall f: Field :: f in vals }

  /** The values of the first i fields. */
  function Only(vals: Values, i: nat): Values
    requires i <= |FIELDS|
  {
    map f | f in vals && f in FIELDS[..i] :: vals[f]
  }

  lemma {:induction false} OnlyAll(vals: Values)
    ensures Only(vals, |FIELDS|) == vals
  {
    assert FIELDS[..|FIELDS|] == FIELDS;
    forall f: Field ensures f in FIELDS {
      match f
      case WeightInOz => assert FIELDS[0] == f;
      case Depth => assert FIELDS[1] == f;
      case Height => assert FIELDS[2] == f;
      case Width => assert FIELDS[3] == f;
      case LstPrice => assert FIELDS[4] == f;
      case RetailPrice => assert FIELDS[5] == f;
      case SalePrice => assert FIELDS[6] == f;
      case Barcode => assert FIELDS[7] == f;
    }
  }

  lemma {:induction false} OnlyNext(vals: Values, i: nat)
    requires i < |FIELDS|
    ensures Only(vals, i + 1) == if FIELDS[i] in vals then Only(vals, i)[FIELDS[i] := vals[FIELDS[i]]] else Only(vals, i)
    ensures FIELDS[i] !in Only(vals, i)
    ensures i == 0 <==> FIELDS[i] == WeightInOz
    ensures i == 0 ==> Only(vals, i) == map[]
  {
    assert FIELDS[..i + 1] == FIELDS[..i] + [FIELDS[i]];
  }

  lemma {:induction false} KeptContext(now: Values, vals: Values, c: Context)
    ensures Kept(now, vals, c.(setBaseVariant := true), false) == Kept(now, vals, c, false)
    ensures Kept(now, vals, c.(setBaseTemplate := true), false) == Kept(now, vals, c, false)
  {
  }

  lemma {:induction false} StoredOne(vals: Values, f: Field, value: Value, g: Digits)
    ensures StoredAll(vals[f := value], g) == StoredAll(vals, g)[f := Stored(f, value, g)]
    ensures StoredAll(map[f := value], g) == map[f := Stored(f, value, g)]
  {
  }

  lemma {:induction false} MergeOne(base: Values, vals: Values, f: Field, value: Value)
    ensures base + vals[f := value] == (base + vals) + map[f := value]
  {
  }

  /** A field other than the weight is written whatever its value. */
  lemma {:induction false} KeptOther(base: Values, vals: Values, c: Context, f: Field, value: Value)
    requires f != WeightInOz
    ensures Kept(base, vals[f := value], c, false) == Kept(base, vals, c, false)[f := value]
    ensures Kept(base, map[f := value], c, false) == map[f := value]
  {
    assert (vals - {WeightInOz})[f := value] == vals[f := value] - {WeightInOz};
  }

  /** Writing field by field is writing at once. */
  lemma {:induction false} PushedStep(base: Values, vals: Values, c: Context, i: nat, g: Digits)
    requires i < |FIELDS| && Total(base) && FIELDS[i] in vals
    ensures Pushed(base, Only(vals, i + 1), c, g)
            == Pushed(Pushed(base, Only(vals, i), c, g), map[FIELDS[i] := vals[FIELDS[i]]], c, g)
  {
    var f, value := FIELDS[i], vals[FIELDS[i]];
    OnlyNext(vals, i);
    if i == 0 {
      assert Only(vals, 0) == map[] && Only(vals, 1) == map[f := value];
      assert Kept(base, map[], c, false) == map[] && base + StoredAll(map[], g) == base;
    } else {
      var kept := Kept(base, Only(vals, i), c, false);
      KeptOther(base, Only(vals, i), c, f, value);
      KeptOther(base + StoredAll(kept, g), map[], c, f, value);
      StoredOne(kept, f, value, g);
      MergeOne(base, StoredAll(kept, g), f, Stored(f, value, g));
    }
  }

  /** Pushing one field. */
  lemma {:induction false} PushOne(l: Listing, c: Context, f: Field, value: Value, g: Digits)
    ensures VariantWritten(l, true, c.(setBaseVariant := true), Write(map[f := value], false, None, false), g)
            == Some(l.(variant := Pushed(l.variant, map[f := value], c, g)))
  {
    KeptContext(l.variant, map[f := value], c);
  }

  /** Writing back one field. */
  lemma {:induction false} MirrorOne(l: Listing, sole: bool, c: Context, f: Field, value: Value, g: Digits)
    ensures TemplateWritten(l, sole, c.(setBaseTemplate := true), Write(map[f := value], false, None, false), g)
            == if Locked(l, c) then None else Some(Mirrored(l, c, map[f := value], g))
    ensures Locked(Mirrored(l, c, map[f := value], g), c) ==> Locked(l, c)
  {
    KeptContext(l.template, map[f := value], c);
  }

  lemma {:induction false} MirroredStep(l: Listing, c: Context, vals: Values, i: nat, g: Digits)
    requires i < |FIELDS| && Total(l.template) && FIELDS[i] in vals
    ensures var f := FIELDS[i];
            var now := if Only(vals, i) == map[] then l else Mirrored(l, c, Only(vals, i), g);
            Mirrored(l, c, Only(vals, i + 1), g) == Mirrored(now, c, map[f := vals[f]], g)
  {
    OnlyNext(vals, i);
    if Only(vals, i) == map[] {
      assert Only(vals, i + 1) == map[FIELDS[i] := vals[FIELDS[i]]];
    } else {
      PushedStep(l.template, vals, c, i, g);
      MirroredStatus(l, c, Only(vals, i), FIELDS[i], vals[FIELDS[i]], g);
      hide Kept, StatusAfter, StoredAll, Only;
    }
  }

  /** Once a field has been written back, the state is that of writing back all of them. */
  lemma {:induction false} MirroredStatus(l: Listing, c: Context, vals: Values, f: Field, value: Value, g: Digits)
    requires f != WeightInOz
    ensures Mirrored(l, c, vals[f := value], g).status == Mirrored(Mirrored(l, c, vals, g), c, map[f := value], g).status
  {
    hide Stored, StoredAll;
    KeptOther(l.template, vals, c, f, value);
    KeptOther(Mirrored(l, c, vals, g).template, map[], c, f, value);
    hide Kept;
    StatusTwice(l, c, Kept(l.template, vals, c, false) != map[]);
  }

  /** Once any field has been written, writing one more field leaves the state it would have left alone. */
  lemma {:induction false} StatusTwice(l: Listing, c: Context, any: bool)
    ensures var w := Write(map[], false, None, false);
            StatusAfter(l.(status := StatusAfter(l, c, w, any)), c, w, true) == StatusAfter(l, c, w, true)
  {
  }

  // ------------------------------------------------------------------ agreement

  /** Every field has a value, as it is stored. */
  ghost predicate AsStored(vals: Values, g: Digits) {
    Total(vals) && forall f: Field :: Stored(f, vals[f], g) == vals[f]
  }

  ghost predicate ListingOk(l: Listing, g: Digits) { AsStored(l.template, g) && AsStored(l.variant, g) }

  /** The listing and its variant have the same values in the mirrored fields. */
  ghost predicate Agree(l: Listing) { l.template == l.variant }

  /** A write from outside: neither side is reflecting. */
  predicate Outside(c: Context) { !c.setBaseVariant && !c.setBaseTemplate }

  /** A synchronisation writes a weight that is kept, but differs so little from the present one once it is
      rounded that the other side drops it. */
  predicate Drift(now: Values, c: Context, w: Write, g: Digits)
    requires WeightInOz in now
  {
    && c.forSynching && !Bypass(c) && WeightInOz in Kept(now, w.vals, c, w.together)
    && var stored := Stored(WeightInOz, w.vals[WeightInOz], g);
       stored != now[WeightInOz] && Tiny(now[WeightInOz], stored)
  }

  /** The write changes some mirrored field. */
  ghost predicate Changes(now: Values, vals: Values, g: Digits) {
    exists f :: f in vals && f in now && now[f] != Stored(f, vals[f], g)
  }

  lemma {:induction false} MergedAsStored(now: Values, vals: Values, g: Digits)
    requires AsStored(now, g)
    ensures AsStored(now + StoredAll(vals, g), g)
    ensures AsStored(now, g) ==> StoredAll(now, g) == now
  {
    forall f: Field ensures Stored(f, (now + StoredAll(vals, g))[f], g) == (now + StoredAll(vals, g))[f] {
      if f in vals {
        StoredTwice(f, vals[f], g);
      }
    }
  }

  /** Values equal to the listing's but for some written fields: writing these to the other side makes both
      equal, unless the weight is dropped there. */
  lemma {:induction false} OtherSide(now: Values, kept: Values, all: Values, c: Context, g: Digits)
    requires AsStored(now, g) && kept.Keys <= all.Keys
    requires forall f :: f in all ==> all[f] == (now + StoredAll(kept, g))[f]
    ensures Pushed(now, all, c, g) == now + StoredAll(kept, g)
            <==> !(c.forSynching && !Bypass(c) && WeightInOz in kept
                   && Stored(WeightInOz, kept[WeightInOz], g) != now[WeightInOz]
                   && Tiny(now[WeightInOz], Stored(WeightInOz, kept[WeightInOz], g)))
  {
    var written, pushed := now + StoredAll(kept, g), Pushed(now, all, c, g);
    MergedAsStored(now, kept, g);
    forall f: Field | f != WeightInOz ensures pushed[f] == written[f] {
      assert f in all ==> f in Kept(now, all, c, false);
    }
    assert pushed == written <==> pushed[WeightInOz] == written[WeightInOz] by {
      if pushed[WeightInOz] == written[WeightInOz] {
        assert forall f: Field :: pushed[f] == written[f];
      }
    }
  }

  lemma {:induction false} KeptIsPart(now: Values, vals: Values, c: Context, together: bool)
    ensures var kept := Kept(now, vals, c, together);
            kept.Keys <= vals.Keys && forall f :: f in kept ==> kept[f] == vals[f]
  {
  }

  /** A write to the listing keeps the two in agreement, unless it is a change of weight the variant then
      drops. */
  lemma {:induction false} TemplateKeepsAgreementIff(l: Listing, c: Context, w: Write, g: Digits)
    requires ListingOk(l, g) && Agree(l) && Outside(c)
    ensures var after := TemplateWritten(l, true, c, w, g);
            after.Some? ==> ListingOk(after.value, g) && (Agree(after.value) <==> !Drift(l.template, c, w, g))
  {
    var kept := Kept(l.template, w.vals, c, w.together);
    var template := l.template + StoredAll(kept, g);
    KeptIsPart(l.template, w.vals, c, w.together);
    MergedAsStored(l.template, kept, g);
    MergedAsStored(l.variant, Kept(l.variant, template, c, false), g);
    hide Kept, StoredAll, Stored, Tiny;
    if kept == map[] {
      assert template == l.template;
    } else {
      OtherSide(l.variant, kept, template, c, g);
    }
  }

  /** A write to the variant keeps the two in agreement, unless it changes a mirrored field under
      `update_status` or `update_thumbnail`, or is a change of weight the listing then drops. */
  lemma {:induction false} VariantKeepsAgreementIff(l: Listing, c: Context, w: Write, g: Digits)
    requires ListingOk(l, g) && Agree(l) && Outside(c)
    ensures var after := VariantWritten(l, true, c, w, g);
            after.Some? ==>
              && ListingOk(after.value, g)
              && (Agree(after.value) <==> !(Bypass(c) && Changes(l.variant, w.vals, g)) && !Drift(l.variant, c, w, g))
  {
    var kept := Kept(l.variant, w.vals, c, w.together);
    MergedAsStored(l.variant, kept, g);
    KeptIsPart(l.variant, w.vals, c, w.together);
    if Bypass(c) {
      UnmirroredIff(l.variant, w.vals, g);
    } else if kept == map[] {
      assert l.variant + StoredAll(kept, g) == l.variant;
    } else if !Locked(l, c) {
      var back := StoredAll(kept, g);
      MergedAsStored(l.template, Kept(l.template, back, c, false), g);
      hide Kept, StoredAll, Stored, Tiny;
      OtherSide(l.template, kept, back, c, g);
    }
  }

  lemma {:induction false} UnmirroredIff(now: Values, vals: Values, g: Digits)
    requires AsStored(now, g)
    ensures now + StoredAll(vals, g) == now <==> !Changes(now, vals, g)
  {
    if Changes(now, vals, g) {
      var f :| f in vals && f in now && now[f] != Stored(f, vals[f], g);
      assert (now + StoredAll(vals, g))[f] != now[f];
    }
  }

  // ------------------------------------------------------------------ which precisions drift

  /** Weights stored with at most four digits that differ do so by more than a tiny change. */
  lemma {:induction false} StoredApart(i: int, j: int, d: nat)
    requires d <= 4 && i != j
    ensures var a, b := i as real / Units(d), j as real / Units(d);
            !(-0.00001 <= a - b <= 0.00001)
  {
    assert Pow10(0) == 1 && Pow10(1) == 10 && Pow10(2) == 100 && Pow10(3) == 1000 && Pow10(4) == 10000;
    assert d == 0 || d == 1 || d == 2 || d == 3 || d == 4;
  }

  lemma {:induction false} RoundedIs(x: real, u: real) returns (k: int)
    requires u > 0.0
    ensures Rounded(x, u) == k as real / u
  {
    k := Nearest(x * u);
  }

  lemma {:induction false} RoundedApart(x: real, y: real, d: nat)
    requires d <= 4 && RoundTo(x, d) == x && RoundTo(y, d) != x
    ensures !(-0.00001 <= x - RoundTo(y, d) <= 0.00001)
  {
    var i := RoundedIs(x, Units(d));
    var j := RoundedIs(y, Units(d));
    hide Units, Rounded;
    StoredApart(i, j, d);
  }

  lemma {:induction false} CoarseNeverDrifts(now: Values, c: Context, w: Write, g: Digits)
    requires AsStored(now, g) && g.weight <= 4
    ensures !Drift(now, c, w, g)
  {
    hide RoundTo;
    if Drift(now, c, w, g) {
      var x, y := now[WeightInOz], w.vals[WeightInOz];
      assert Stored(WeightInOz, x, g) == x;
      RoundedApart(x.n, y.n, g.weight);
    }
  }

  lemma {:induction false} ScaledSum(x: real, rest: real, u: real)
    requires u > 0.0
    ensures (x + rest / u) * u == x * u + rest && x * u / u == x
  {
    ScaledBack(rest, u);
  }

  lemma {:induction false} NearestAbove(k: nat, rest: real)
    requires 0.0 <= rest < 0.5
    ensures Nearest(k as real + rest) == k
  {
    NearestTo(k, rest);
  }

  lemma {:induction false} Hundredthousandth(p: nat, u: real)
    requires u == 100000.0 * p as real
    ensures 16.00001 * u == (1600001 * p) as real
  {
  }

  /** With five digits or more 16.00001 is stored as it is, and what is a quarter of the last digit above it
      is stored as 16.00001 too. */
  lemma {:induction false} StoredAbove(d: nat, rest: real)
    requires d >= 5 && 0.0 <= rest < 0.5
    ensures RoundTo(16.00001 + rest / Units(d), d) == 16.00001
  {
    var p, u := Pow10(d - 5), Units(d);
    Pow10Split(d - 5);
    Hundredthousandth(p, u);
    RoundedAbove(1600001 * p, 16.00001, rest, u);
  }

  lemma {:induction false} RoundedAbove(k: nat, x: real, rest: real, u: real)
    requires u > 0.0 && x * u == k as real && 0.0 <= rest < 0.5
    ensures Rounded(x + rest / u, u) == x
  {
    ScaledSum(x, rest, u);
    NearestAbove(k, rest);
    hide Nearest;
    assert (x + rest / u) * u == k as real + rest;
  }

  lemma {:induction false} Pow10Split(n: nat)
    ensures Pow10(n + 5) == 100000 * Pow10(n)
  {
    assert Pow10(n + 5) == 10 * Pow10(n + 4) && Pow10(n + 4) == 10 * Pow10(n + 3) && Pow10(n + 3) == 10 * Pow10(n + 2);
    assert Pow10(n + 2) == 10 * Pow10(n + 1) && Pow10(n + 1) == 10 * Pow10(n);
  }

  /** A synchronised write of the weight alone. */
  const SYNCHING := Context(false, false, true, false, false, false)

  function WeightWrite(x: real, together: bool): Write {
    Write(map[WeightInOz := Number(x)], false, None, together)
  }

  lemma {:induction false} DriftsTo(now: Values, x: real, together: bool, g: Digits)
    requires WeightInOz in now && now[WeightInOz] == Number(16.0) && RoundTo(x, g.weight) == 16.00001
    requires together || x > 16.00001
    ensures Drift(now, SYNCHING, WeightWrite(x, together), g)
  {
    hide RoundTo;
    var vals := WeightWrite(x, together).vals;
    assert vals[WeightInOz] == Number(x) && Stored(WeightInOz, Number(x), g) == Number(16.00001);
  }

  /** With five digits or more, a weight of 16 drifts under a write of 16.00001 to several records at once,
      and under a write of a little more to one. */
  lemma {:induction false} FineDrifts(now: Values, g: Digits)
    requires WeightInOz in now && g.weight >= 5 && now[WeightInOz] == Number(16.0)
    ensures Drift(now, SYNCHING, WeightWrite(16.00001, true), g)
    ensures Drift(now, SYNCHING, WeightWrite(16.00001 + 0.25 / Units(g.weight), false), g)
  {
    hide Units, Drift, WeightWrite, AsStored, RoundTo;
    StoredAbove(g.weight, 0.0);
    StoredAbove(g.weight, 0.25);
    var u := Units(g.weight);
    assert 0.0 / u == 0.0 && 0.25 / u > 0.0;
    DriftsTo(now, 16.00001, true, g);
    DriftsTo(now, 16.00001 + 0.25 / u, false, g);
  }

  // ------------------------------------------------------------------ every run of writes

  datatype Step = ToTemplate(c: Context, w: Write) | ToVariant(c: Context, w: Write)

  /** A write that raises changes nothing. */
  function After(l: Listing, s: Step, g: Digits): Listing {
    var written := match s
      case ToTemplate(c, w) => TemplateWritten(l, true, c, w, g)
      case ToVariant(c, w) => VariantWritten(l, true, c, w, g);
    if written.Some? then written.value else l
  }

  /** Steps that come from outside, write no mirrored field of the variant under the two flags, and
      synchronise no weight unless it is stored with at most four digits. */
  predicate Plain(s: Step, g: Digits) {
    && Outside(s.c)
    && (s.ToVariant? && Bypass(s.c) ==> s.w.vals == map[])
    && (g.weight <= 4 || !s.c.forSynching || WeightInOz !in s.w.vals)
  }

  ghost predicate Run(ls: seq<Listing>, steps: seq<Step>, g: Digits) {
    |ls| == |steps| + 1 && forall i :: 0 <= i < |steps| ==> ls[i + 1] == After(ls[i], steps[i], g)
  }

  lemma {:induction false} PlainKeepsAgreement(l: Listing, s: Step, g: Digits)
    requires ListingOk(l, g) && Agree(l) && Plain(s, g)
    ensures Agree(After(l, s, g)) && ListingOk(After(l, s, g), g)
  {
    if g.weight <= 4 {
      CoarseNeverDrifts(l.template, s.c, s.w, g);
    }
    KeptIsPart(l.template, s.w.vals, s.c, s.w.together);
    hide Stored, StoredAll, Tiny;
    match s {
      case ToTemplate(c, w) => TemplateKeepsAgreementIff(l, c, w, g);
      case ToVariant(c, w) => VariantKeepsAgreementIff(l, c, w, g);
    }
  }

  /** Once in agreement, a listing and its sole variant agree after every sequence of writes to either
      side, of one record or several, including those whose tiny change of weight is dropped. */
  lemma {:induction false} RunKeepsAgreement(ls: seq<Listing>, steps: seq<Step>, g: Digits, n: nat)
    requires Run(ls, steps, g) && n <= |steps| && ListingOk(ls[0], g) && Agree(ls[0])
    requires forall i :: 0 <= i < |steps| ==> Plain(steps[i], g)
    ensures Agree(ls[n]) && ListingOk(ls[n], g)
  {
    if n > 0 {
      RunKeepsAgreement(ls, steps, g, n - 1);
      hide After, Agree, ListingOk, Plain;
      PlainKeepsAgreement(ls[n - 1], steps[n - 1], g);
    }
  }

  /** The values a write leaves on both sides: those written, as they are stored, except a dropped weight. */
  lemma {:induction false} WriteReachesBoth(l: Listing, s: Step, f: Field, g: Digits)
    requires ListingOk(l, g) && Agree(l) && Plain(s, g) && f in s.w.vals
    requires !(s.ToVariant? && Bypass(s.c))
    requires f in Kept(l.template, s.w.vals, s.c, s.w.together)
    requires !Locked(l, s.c)
    ensures ListingOk(After(l, s, g), g)
    ensures After(l, s, g).template[f] == After(l, s, g).variant[f] == Stored(f, s.w.vals[f], g)
  {
    PlainKeepsAgreement(l, s, g);
    KeptIsPart(l.template, s.w.vals, s.c, s.w.together);
    hide Kept, Stored;
  }

  // ------------------------------------------------------------------ where it fails

  /** A barcode written to the variant under `update_status` is not mirrored. */
  lemma {:induction false} StatusWriteIsNotMirrored(l: Listing, code: string, g: Digits)
    requires ListingOk(l, g) && Agree(l) && l.variant[Barcode] != Text(code)
    ensures var c := Context(true, false, false, false, false, false);
            !Agree(After(l, ToVariant(c, Write(map[Barcode := Text(code)], false, None, false)), g))
  {
    var c, vals := Context(true, false, false, false, false, false), map[Barcode := Text(code)];
    assert Barcode in vals && Barcode in l.variant && l.variant[Barcode] != Stored(Barcode, vals[Barcode], g);
    VariantKeepsAgreementIff(l, c, Write(vals, false, None, false), g);
  }

  /** With weights of five digits or more, a synchronisation that adds 0.00001 ounces to several variants at
      once, or a little more to one, leaves the listing behind. */
  lemma {:induction false} FineWeightIsNotMirrored(l: Listing, g: Digits)
    requires ListingOk(l, g) && Agree(l) && l.variant[WeightInOz] == Number(16.0) && g.weight >= 5
    ensures !Agree(After(l, ToVariant(SYNCHING, WeightWrite(16.00001, true)), g))
    ensures !Agree(After(l, ToVariant(SYNCHING, WeightWrite(16.00001 + 0.25 / Units(g.weight), false)), g))
  {
    FineDrifts(l.variant, g);
    VariantKeepsAgreementIff(l, SYNCHING, WeightWrite(16.00001, true), g);
    VariantKeepsAgreementIff(l, SYNCHING, WeightWrite(16.00001 + 0.25 / Units(g.weight), false), g);
    hide Stored, StoredAll, Tiny, Kept, Drift;
  }
}
