/**
 A bread recipe and its scaling from baker's percentages to gram weights.
 */
module Recipes {
  import opened Options
  import Flours
  import Yeasts

  /** An extra ingredient beyond flour, salt, water and leavening: a free-form name and a quantity. */
  type Enrichment = (string, real)

  /**
   A recipe. `isBase` is the private marker that is true for a recipe written in baker's
   percentages and false once it has been scaled to grams.
   */
  datatype Recipe = Recipe(
    name: string,
    flour: seq<Flours.Flour>,
    salt: real,
    water: real,
    yeast: Yeasts.Yeast,
    enrichments: Option<seq<Enrichment>>,
    isBase: bool)

  /** Builds a base recipe: every argument is stored as given and the recipe is marked as percentages. */
  function New(
    name: string,
    flour: seq<Flours.Flour>,
    salt: real,
    water: real,
    yeast: Yeasts.Yeast,
    enrichments: Option<seq<Enrichment>>
  ): (r: Recipe)
    ensures r.isBase
    ensures r.name == name && r.flour == flour && r.salt == salt && r.water == water
    ensures r.yeast == yeast && r.enrichments == enrichments
  {
    Recipe(name, flour, salt, water, yeast, enrichments, true)
  }

  /** Replaces each enrichment's quantity by `h(name, quantity)`, keeping names, length and order. */
  function MapEnrichments(es: seq<Enrichment>, h: (string, real) -> real): (fs: seq<Enrichment>)
    ensures |fs| == |es|
    ensures forall i :: 0 <= i < |es| ==> fs[i].0 == es[i].0 && fs[i].1 == h(es[i].0, es[i].1)
  {
    if es == [] then [] else [(es[0].0, h(es[0].0, es[0].1))] + MapEnrichments(es[1..], h)
  }

  /** Every enrichment of `fs` has the name of the one at the same place in `es` and `k` times its quantity. */
  predicate EnrichmentsScaled(es: seq<Enrichment>, fs: seq<Enrichment>, k: real)
  {
    && |fs| == |es|
    && forall i :: 0 <= i < |es| ==> fs[i].0 == es[i].0 && fs[i].1 == k * es[i].1
  }

  /**
   `s` has the shape of `r` (the same flour variants in the same order, the same yeast
   variant, the same enrichment names in the same order, an enrichment list exactly when
   `r` has one), and each of its quantities is `k` times the matching quantity of `r`.
   */
  predicate Scaled(r: Recipe, s: Recipe, k: real)
  {
    && |s.flour| == |r.flour|
    && (forall i :: 0 <= i < |r.flour| ==>
          Flours.KindOf(s.flour[i]) == Flours.KindOf(r.flour[i]) && s.flour[i].x == k * r.flour[i].x)
    && s.salt == k * r.salt
    && s.water == k * r.water
    && Yeasts.KindOf(s.yeast) == Yeasts.KindOf(r.yeast)
    && s.yeast.x == k * r.yeast.x
    && (s.enrichments.None? <==> r.enrichments.None?)
    && (r.enrichments.Some? && s.enrichments.Some? ==>
          EnrichmentsScaled(r.enrichments.value, s.enrichments.value, k))
  }

  /**
   Scales a recipe to `grams` of flour: every quantity, in flour, salt, water, leavening
   and enrichments alike, is multiplied by `grams / 100`. The name is kept and the result
   is marked as gram weights. No check is made on `grams`.
   */
  function Remap(r: Recipe, grams: real): (s: Recipe)
    ensures Scaled(r, s, grams / 100.0)
    ensures s.name == r.name && !s.isBase
  {
    var enrichments :=
      match r.enrichments
      case None => None
      case Some(es) => Some(MapEnrichments(es, (_, q) => q * 0.01 * grams));
    Recipe(
      r.name,
      Flours.MapQuantities(r.flour, x => grams * x * 0.01),
      r.salt * grams * 0.01,
      r.water * grams * 0.01,
      Yeasts.MapQuantity(r.yeast, x => grams * x * 0.01),
      enrichments,
      false)
  }

  /** Two recipes scaled from a common one by the same factor are equal up to name and marker. */
  lemma ScaledUnique(r: Recipe, s: Recipe, t: Recipe, k: real)
    requires Scaled(r, s, k) && Scaled(r, t, k)
    requires s.name == t.name && s.isBase == t.isBase
    ensures s == t
  {
    Flours.ListsEqual(s.flour, t.flour);
    Yeasts.KindAndQuantityDetermine(s.yeast, t.yeast);
    if s.enrichments.Some? {
      var es, fs := s.enrichments.value, t.enrichments.value;
      forall i | 0 <= i < |es|
        ensures es[i] == fs[i]
      {
        assert es[i].0 == fs[i].0 && es[i].1 == fs[i].1;
      }
      assert es == fs;
    }
  }

  /** Scaling by `j` and then by `k` is scaling by `j * k`. */
  lemma ScaledCompose(r: Recipe, s: Recipe, t: Recipe, j: real, k: real)
    requires Scaled(r, s, j) && Scaled(s, t, k)
    ensures Scaled(r, t, j * k)
  {
  }

  /** Remapping twice is remapping once to the product of the two targets over 100. */
  lemma RemapCompose(r: Recipe, a: real, b: real)
    ensures Remap(Remap(r, a), b) == Remap(r, a * b / 100.0)
  {
    FactorProduct(a, b);
    RemapComposeAt(r, Remap(r, a), Remap(Remap(r, a), b), Remap(r, a * b / 100.0), a, b);
  }

  /** The factors `a / 100` and `b / 100` of two remaps compose to the factor of one remap to `a * b / 100`. */
  lemma RemapComposeAt(r: Recipe, s: Recipe, t: Recipe, u: Recipe, a: real, b: real)
    requires Scaled(r, s, a / 100.0) && Scaled(s, t, b / 100.0) && Scaled(r, u, (a * b / 100.0) / 100.0)
    requires t.name == u.name && t.isBase == u.isBase
    requires (a / 100.0) * (b / 100.0) == (a * b / 100.0) / 100.0
    ensures t == u
  {
    ScaledComposeUnique(r, s, t, u, a / 100.0, b / 100.0, (a * b / 100.0) / 100.0);
  }

  /** A recipe scaled by `j` then `k` is the one scaled by `j * k`, when name and marker agree. */
  lemma ScaledComposeUnique(r: Recipe, s: Recipe, t: Recipe, u: Recipe, j: real, k: real, m: real)
    requires Scaled(r, s, j) && Scaled(s, t, k) && Scaled(r, u, m) && j * k == m
    requires t.name == u.name && t.isBase == u.isBase
    ensures t == u
  {
    ScaledCompose(r, s, t, j, k);
    ScaledUnique(r, t, u, m);
  }

  lemma FactorProduct(a: real, b: real)
    ensures (a / 100.0) * (b / 100.0) == (a * b / 100.0) / 100.0
  {
  }

  /** Remapping to 100 grams reads every percentage directly as grams. */
  lemma RemapHundred(r: Recipe)
    ensures Remap(r, 100.0) == r.(isBase := false)
  {
    var s := r.(isBase := false);
    assert Scaled(r, s, 1.0) by {
      if r.enrichments.Some? {
        var es := r.enrichments.value;
        assert forall i :: 0 <= i < |es| ==> es[i].1 == 1.0 * es[i].1;
      }
    }
    ScaledUnique(r, Remap(r, 100.0), s, 1.0);
  }

  /** Remapping to `grams` and then to `10000 / grams` restores every quantity. */
  lemma RemapRoundTrip(r: Recipe, grams: real)
    requires grams != 0.0
    ensures Remap(Remap(r, grams), 10000.0 / grams) == r.(isBase := false)
  {
    var back := 10000.0 / grams;
    RemapCompose(r, grams, back);
    assert grams * back / 100.0 == 100.0;
    RemapHundred(r);
  }
}
