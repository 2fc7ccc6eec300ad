/** What one write leaves of a listing and its variant, told from the flags of its context. */
module ListingWrites {
  import opened Options
  import opened ListingMirror

  // ------------------------------------------------------------------ stored numbers

  /** k is the whole number nearest to x, the one further from zero if there are two. */
  predicate Closest(x: real, k: int) {
    if x >= 0.0 then k as real - 0.5 <= x && x < k as real + 0.5 else k as real - 0.5 < x && x <= k as real + 0.5
  }

  lemma {:induction false} NearestIs(x: real)
    ensures Closest(x, Nearest(x))
  {
  }

  /** x is closest to k last digits, of which u make one. */
  predicate Digitwise(x: real, u: real, k: int) { Closest(x * u, k) }

  /** y is x to its last digit. */
  ghost predicate ToLastDigit(x: real, u: real, y: real)
    requires u > 0.0
  {
    exists k: int :: Digitwise(x, u, k) && y == k as real / u
  }

  lemma {:induction false} RoundedIs(x: real, u: real)
    requires u > 0.0
    ensures ToLastDigit(x, u, Rounded(x, u))
  {
    NearestIs(x * u);
    assert Digitwise(x, u, Nearest(x * u));
    hide Nearest, Closest, Digitwise;
  }

  /** Weights and prices are stored to their last digit, anything else as it is. */
  lemma {:induction false} StoredIs(f: Field, v: Value, g: Digits)
    ensures v.Text? || f in {Depth, Height, Width, Barcode} ==> Stored(f, v, g) == v
    ensures v.Number? && f in {WeightInOz, LstPrice, RetailPrice, SalePrice} ==>
              && Stored(f, v, g).Number?
              && ToLastDigit(v.n, Units(if f == WeightInOz then g.weight else g.price), Stored(f, v, g).n)
  {
    if v.Number? {
      RoundedIs(v.n, Units(g.weight));
      RoundedIs(v.n, Units(g.price));
    }
    hide ToLastDigit, Rounded, Units;
  }

  /** The last digit: a tenth of the one before. */
  lemma {:induction false} UnitsAre(d: nat)
    ensures Units(0) == 1.0 && Units(d + 1) == 10.0 * Units(d)
  {
  }

  // ------------------------------------------------------------------ what is written

  /** The write changes a field: it names it, and it is not the weight of one record that a synchronisation
      hardly changes. */
  predicate Sets(now: Values, c: Context, w: Write, f: Field) {
    && f in w.vals
    && !(f == WeightInOz && c.forSynching && !c.updateStatus && !c.updateThumbnail && !w.together
         && f in now && now[f].Number? && w.vals[f].Number?
         && now[f].n - w.vals[f].n <= 0.00001 && w.vals[f].n - now[f].n <= 0.00001)
  }

  lemma {:induction false} KeptIs(now: Values, c: Context, w: Write)
    ensures forall f :: f in Kept(now, w.vals, c, w.together) <==> Sets(now, c, w, f)
    ensures forall f :: f in Kept(now, w.vals, c, w.together) ==> Kept(now, w.vals, c, w.together)[f] == w.vals[f]
  {
  }

  /** The state an ordinary write leaves. */
  predicate Edited(before: Status, listed: bool, after: Status) {
    match before
    case Published => after == Updated
    case Failed => after == if listed then Updated else Draft
    case Draft => after == Draft
    case InProgress => after == InProgress
    case Updated => after == Updated
  }

  /** The values after a write: those it sets as they are stored, the others as they were. */
  ghost predicate Wrote(now: Values, c: Context, w: Write, g: Digits, after: Values) {
    && after.Keys == now.Keys + (set f | f in w.vals && Sets(now, c, w, f))
    && forall f :: f in after ==> after[f] == if Sets(now, c, w, f) then Stored(f, w.vals[f], g) else now[f]
  }

  lemma {:induction false} WroteKept(now: Values, c: Context, w: Write, g: Digits)
    ensures Wrote(now, c, w, g, now + StoredAll(Kept(now, w.vals, c, w.together), g))
  {
    KeptIs(now, c, w);
    hide Stored;
  }

  // ------------------------------------------------------------------ a write to the listing

  /** It raises exactly while the listing is in progress, unless it synchronises or sets a status or a thumbnail. */
  lemma {:induction false} TemplateRaisesIff(l: Listing, sole: bool, c: Context, w: Write, g: Digits)
    ensures TemplateWritten(l, sole, c, w, g).None? <==>
            l.status == InProgress && !c.forSynching && !c.updateStatus && !c.updateThumbnail
  {
  }

  /** The state becomes the one written. Without one, an ordinary write that sets something makes a published
      listing updated, and a failed one updated or draft again; a write that synchronises, exports from the master,
      sets a status or a thumbnail, or sets nothing, leaves the state. */
  lemma {:induction false} TemplateStatus(l: Listing, sole: bool, c: Context, w: Write, g: Digits)
    requires TemplateWritten(l, sole, c, w, g).Some?
    ensures var after := TemplateWritten(l, sole, c, w, g).value.status;
            if w.status.Some? then after == w.status.value
            else if c.updateStatus || c.updateThumbnail || c.exportFromMaster || c.forSynching
                    || (!w.others && forall f: Field :: !Sets(l.template, c, w, f))
            then after == l.status
            else Edited(l.status, l.listed, after)
  {
    KeptIs(l.template, c, w);
    var kept := Kept(l.template, w.vals, c, w.together);
    assert kept != map[] <==> exists f: Field :: Sets(l.template, c, w, f) by {
      if f :| Sets(l.template, c, w, f) {
        assert f in kept;
      }
    }
  }

  /** The listing has the values written; a sole variant gets them all, unless the write reflects one of the variant
      or sets none of the mirrored fields, and a weight it already has but for a hundred-thousandth is left as it is
      when the write synchronises. */
  lemma {:induction false} TemplateValues(l: Listing, sole: bool, c: Context, w: Write, g: Digits)
    requires TemplateWritten(l, sole, c, w, g).Some?
    ensures var after := TemplateWritten(l, sole, c, w, g).value;
            && after.listed == l.listed && Wrote(l.template, c, w, g, after.template)
            && if sole && !c.setBaseTemplate && exists f: Field :: Sets(l.template, c, w, f)
               then Wrote(l.variant, c, Write(after.template, false, None, false), g, after.variant)
               else after.variant == l.variant
  {
    var kept := Kept(l.template, w.vals, c, w.together);
    KeptIs(l.template, c, w);
    WroteKept(l.template, c, w, g);
    assert kept != map[] <==> exists f: Field :: Sets(l.template, c, w, f) by {
      if f :| Sets(l.template, c, w, f) {
        assert f in kept;
      }
    }
    hide Wrote, Stored, Sets;
    var template := l.template + StoredAll(kept, g);
    WroteKept(l.variant, c, Write(template, false, None, false), g);
  }

  // ------------------------------------------------------------------ a write to the variant

  /** The write goes on to the listing. */
  ghost predicate Reflects(l: Listing, sole: bool, c: Context, w: Write) {
    && sole && !c.setBaseVariant && !c.updateStatus && !c.updateThumbnail && exists f: Field :: Sets(l.variant, c, w, f)
  }

  lemma {:induction false} ReflectsIff(l: Listing, sole: bool, c: Context, w: Write)
    ensures Reflects(l, sole, c, w) <==>
            !(Bypass(c) || !sole || c.setBaseVariant || Kept(l.variant, w.vals, c, w.together) == map[])
  {
    var kept := Kept(l.variant, w.vals, c, w.together);
    KeptIs(l.variant, c, w);
    if f :| Sets(l.variant, c, w, f) {
      assert f in kept;
    }
  }

  /** It raises exactly if it goes on to a listing in progress and does not synchronise. */
  lemma {:induction false} VariantRaisesIff(l: Listing, sole: bool, c: Context, w: Write, g: Digits)
    ensures VariantWritten(l, sole, c, w, g).None? <==> Reflects(l, sole, c, w) && l.status == InProgress && !c.forSynching
  {
    ReflectsIff(l, sole, c, w);
  }

  /** The values it writes back to the listing: those it set, as they are stored. */
  ghost predicate SetBack(l: Listing, c: Context, w: Write, g: Digits, back: Values) {
    && (forall f :: f in back <==> Sets(l.variant, c, w, f))
    && forall f :: f in back ==> back[f] == Stored(f, w.vals[f], g)
  }

  /** The variant has the values written. If the write goes on, the listing gets those it set, and its state is
      that of an ordinary write unless the write synchronises or exports from the master; else the listing is as it
      was. */
  lemma {:induction false} VariantValues(l: Listing, sole: bool, c: Context, w: Write, g: Digits)
    requires VariantWritten(l, sole, c, w, g).Some?
    ensures var after := VariantWritten(l, sole, c, w, g).value;
            && after.listed == l.listed && Wrote(l.variant, c, w, g, after.variant)
            && if Reflects(l, sole, c, w)
               then exists back :: SetBack(l, c, w, g, back)
                      && Wrote(l.template, c, Write(back, false, None, false), g, after.template)
                      && if c.forSynching || c.exportFromMaster then after.status == l.status
                         else Edited(l.status, l.listed, after.status)
               else after.template == l.template && after.status == l.status
  {
    ReflectsIff(l, sole, c, w);
    KeptIs(l.variant, c, w);
    WroteKept(l.variant, c, w, g);
    if Reflects(l, sole, c, w) {
      var back := StoredAll(Kept(l.variant, w.vals, c, w.together), g);
      assert SetBack(l, c, w, g, back);
      WroteKept(l.template, c, Write(back, false, None, false), g);
      assert !c.forSynching ==> Kept(l.template, back, c, false) == back && back != map[];
      hide Wrote, Stored, Sets, SetBack;
    }
  }
}
