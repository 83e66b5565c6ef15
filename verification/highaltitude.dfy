/**
 Altitude compensation: per-ingredient rules that adjust gram weights for a target
 elevation in feet, and the constructor that applies them to a whole recipe. The rules
 have no lower guard, so altitudes below 3000 feet give negative banding terms.
 */
module HighAltitude {
  import opened Options
  import opened RustNumeric
  import Flours
  import Yeasts
  import Recipes

  /** A recipe adjusted for `altitude` (named `HighAltiudeRecipe` in the Rust code). */
  datatype HighAltitudeRecipe = HighAltitudeRecipe(
    name: string,
    flour: seq<Flours.Flour>,
    salt: real,
    water: real,
    yeast: Yeasts.Yeast,
    enrichments: Option<seq<Recipes.Enrichment>>,
    altitude: real,
    isBase: bool)

  const TbspFlour: real := 7.8
  const TbspLiquid: real := 14.8
  const TspHalfLiquid: real := 7.5
  const TbspSugar: real := 12.5
  const EggGrams: real := 49.8
  const Tsp: real := 4.6

  /** Flour gains one tablespoon, plus one more per full 1500-foot band above 3000 feet. */
  function FlourAtAlt(flour: real, altitude: real): (r: real)
    ensures r == flour + TbspFlour + ((altitude - 3000.0) / 1500.0).Floor as real * TbspFlour
  {
    DivEuclidIsFloor(altitude - 3000.0, 1500.0);
    flour + TbspFlour + DivEuclid(altitude - 3000.0, 1500.0) as real * TbspFlour
  }

  /** Liquid gains one tablespoon, plus half a teaspoon per full 1000-foot band above 3000 feet. */
  function LiquidAtAlt(liquid: real, altitude: real): (r: real)
    ensures r == liquid + TbspLiquid + ((altitude - 3000.0) / 1000.0).Floor as real * TspHalfLiquid
  {
    DivEuclidIsFloor(altitude - 3000.0, 1000.0);
    liquid + TbspLiquid + DivEuclid(altitude - 3000.0, 1000.0) as real * TspHalfLiquid
  }

  /** Yeast and starter lose a quarter, whatever the altitude. */
  function YeastAtAlt(yeast: real): (r: real)
    ensures r == 0.75 * yeast
    ensures 0.0 <= yeast ==> 0.0 <= r <= yeast
  {
    yeast - yeast * 0.25
  }

  /** Sweetener loses one tablespoon of sugar per full 200 units. */
  function SweetenerAtAlt(x: real): (r: real)
    ensures r == x - TbspSugar * (x / 200.0).Floor as real
  {
    DivEuclidIsFloor(x, 200.0);
    x - TbspSugar * DivEuclid(x, 200.0) as real
  }

  /**
   Second step for chemical leaveners: the altitude, truncated to whole feet, selects
   the low, medium or high multiplier; outside 3000..=8000 the quantity is unchanged.
   Because of the truncation, 5000.7 feet still falls in the low band.
   */
  function CalcLeaven(x: real, alt: real, low: real, med: real, high: real): (r: real)
    ensures 3000.0 <= alt < 5001.0 ==> r == x * low
    ensures 5001.0 <= alt < 6501.0 ==> r == x * med
    ensures 6501.0 <= alt < 8001.0 ==> r == x * high
    ensures alt < 3000.0 || 8001.0 <= alt ==> r == x
  {
    var a := Trunc(alt);
    if 3000 <= a <= 5000 then x * low
    else if 5001 <= a <= 6500 then x * med
    else if 6501 <= a <= 8000 then x * high
    else x
  }

  /**
   First step for chemical leaveners: the quantity as a truncated percentage of a
   teaspoon (4.6 g) selects one of four multiplier triples; an index outside 0..=40
   leaves the quantity unchanged. Stated on the quantity itself: the bands are
   (-0.046, 0.506), [0.506, 0.966), [0.966, 1.426) and [1.426, 1.886), the first one
   open below because truncation sends slightly negative quantities to index 0.
   */
  function ChemLeavenerAtAlt(x: real, alt: real): (r: real)
    ensures -0.046 < x < 0.506 ==> r == CalcLeaven(x, alt, 7.0 / 8.0, 0.5, 0.25)
    ensures 0.506 <= x < 0.966 ==> r == CalcLeaven(x, alt, 0.75, 0.5, 1.0 / 3.0)
    ensures 0.966 <= x < 1.426 ==> r == CalcLeaven(x, alt, 2.0 / 3.0, 1.25 / 3.0, 1.0 / 3.0)
    ensures 1.426 <= x < 1.886 ==> r == CalcLeaven(x, alt, 0.625, 0.375, 0.25)
    ensures x <= -0.046 || 1.886 <= x ==> r == x
  {
    var index := Trunc((x / Tsp) * 100.0);
    if 0 <= index <= 10 then CalcLeaven(x, alt, 7.0 / 8.0, 0.5, 0.25)
    else if 11 <= index <= 20 then CalcLeaven(x, alt, 0.75, 0.5, 1.0 / 3.0)
    else if 21 <= index <= 30 then CalcLeaven(x, alt, 2.0 / 3.0, 1.25 / 3.0, 1.0 / 3.0)
    else if 31 <= index <= 40 then CalcLeaven(x, alt, 0.625, 0.375, 0.25)
    else x
  }

  /** Adjusts an enrichment by exact match on its name; any other name keeps its quantity. */
  function EnAtAlt(name: string, x: real, alt: real): (r: real)
    ensures name !in SpecialNames ==> r == x
  {
    match name
    case "eggs" => x + EggGrams
    case "sweetener" => SweetenerAtAlt(x)
    case "fat" => LiquidAtAlt(x, alt)
    case "milk" => LiquidAtAlt(x, alt)
    case "liquid" => LiquidAtAlt(x, alt)
    case "baking soda" => ChemLeavenerAtAlt(x, alt)
    case "baking powder" => ChemLeavenerAtAlt(x, alt)
    case _ => x
  }

  /**
   Builds the altitude-adjusted recipe: each flour entry by the flour rule, water by the
   liquid rule, the leavening agent by the yeast rule, each enrichment by its name's rule;
   name and salt are kept, and the altitude is recorded.
   */
  function New(altitude: real, recipe: Recipes.Recipe): (h: HighAltitudeRecipe)
    ensures h.name == recipe.name && h.salt == recipe.salt
    ensures h.altitude == altitude && !h.isBase
    ensures |h.flour| == |recipe.flour|
    ensures forall i :: 0 <= i < |recipe.flour| ==>
      && Flours.KindOf(h.flour[i]) == Flours.KindOf(recipe.flour[i])
      && h.flour[i].x == FlourAtAlt(recipe.flour[i].x, altitude)
    ensures h.water == LiquidAtAlt(recipe.water, altitude)
    ensures Yeasts.KindOf(h.yeast) == Yeasts.KindOf(recipe.yeast)
    ensures h.yeast.x == 0.75 * recipe.yeast.x
    ensures h.enrichments.None? <==> recipe.enrichments.None?
    ensures recipe.enrichments.Some? ==>
      var es, fs := recipe.enrichments.value, h.enrichments.value;
      && |fs| == |es|
      && forall i :: 0 <= i < |es| ==> fs[i].0 == es[i].0 && fs[i].1 == EnAtAlt(es[i].0, es[i].1, altitude)
  {
    var enrichments :=
      match recipe.enrichments
      case None => None
      case Some(es) => Some(Recipes.MapEnrichments(es, (n, q) => EnAtAlt(n, q, altitude)));
    HighAltitudeRecipe(
      recipe.name,
      Flours.MapQuantities(recipe.flour, x => FlourAtAlt(x, altitude)),
      recipe.salt,
      LiquidAtAlt(recipe.water, altitude),
      Yeasts.MapQuantity(recipe.yeast, YeastAtAlt),
      enrichments,
      altitude,
      false)
  }

  /** The reference table of enrichment rules, keyed by exact name. */
  datatype Rule = AddEgg | ReduceSweetener | AdjustLiquid | AdjustChemLeavener | Keep

  const RuleTable: map<string, Rule> := map[
    "eggs" := AddEgg,
    "sweetener" := ReduceSweetener,
    "fat" := AdjustLiquid,
    "milk" := AdjustLiquid,
    "liquid" := AdjustLiquid,
    "baking soda" := AdjustChemLeavener,
    "baking powder" := AdjustChemLeavener]

  /** The enrichment names that receive a rule of their own. */
  const SpecialNames: set<string> := RuleTable.Keys

  function RuleFor(name: string): Rule
  {
    if name in RuleTable then RuleTable[name] else Keep
  }

  function ApplyRule(rule: Rule, x: real, alt: real): real
  {
    match rule
    case AddEgg => x + EggGrams
    case ReduceSweetener => SweetenerAtAlt(x)
    case AdjustLiquid => LiquidAtAlt(x, alt)
    case AdjustChemLeavener => ChemLeavenerAtAlt(x, alt)
    case Keep => x
  }

  /** Name dispatch agrees with the reference table for every name, defaulting to the identity. */
  lemma EnAtAltFollowsTable(name: string, x: real, alt: real)
    ensures EnAtAlt(name, x, alt) == ApplyRule(RuleFor(name), x, alt)
  {
  }

  /** Within the band `k` (3000 + 1500k <= altitude < 3000 + 1500(k + 1)) flour gains 7.8 * (k + 1). */
  lemma FlourBands(flour: real, altitude: real, k: int)
    requires 3000.0 + 1500.0 * k as real <= altitude < 3000.0 + 1500.0 * (k + 1) as real
    ensures FlourAtAlt(flour, altitude) == flour + 7.8 * (k + 1) as real
  {
    BandUnique(altitude - 3000.0, 1500.0, DivEuclid(altitude - 3000.0, 1500.0), k);
  }

  /** Within the band `k` (3000 + 1000k <= altitude < 3000 + 1000(k + 1)) liquid gains 14.8 + 7.5k. */
  lemma LiquidBands(liquid: real, altitude: real, k: int)
    requires 3000.0 + 1000.0 * k as real <= altitude < 3000.0 + 1000.0 * (k + 1) as real
    ensures LiquidAtAlt(liquid, altitude) == liquid + 14.8 + 7.5 * k as real
  {
    BandUnique(altitude - 3000.0, 1000.0, DivEuclid(altitude - 3000.0, 1000.0), k);
  }

  /** The amount flour gains depends only on the altitude. */
  lemma FlourGainIndependentOfFlour(f: real, g: real, altitude: real)
    ensures FlourAtAlt(f, altitude) - f == FlourAtAlt(g, altitude) - g
  {
  }

  /** The amount flour gains never shrinks as the altitude rises. */
  lemma FlourGainMonotone(flour: real, a: real, b: real)
    requires a <= b
    ensures FlourAtAlt(flour, a) <= FlourAtAlt(flour, b)
  {
    DivEuclidMonotone(a - 3000.0, b - 3000.0, 1500.0);
  }

  /** The amount liquid gains depends only on the altitude. */
  lemma LiquidGainIndependentOfLiquid(l: real, m: real, altitude: real)
    ensures LiquidAtAlt(l, altitude) - l == LiquidAtAlt(m, altitude) - m
  {
  }

  /** The amount liquid gains never shrinks as the altitude rises. */
  lemma LiquidGainMonotone(liquid: real, a: real, b: real)
    requires a <= b
    ensures LiquidAtAlt(liquid, a) <= LiquidAtAlt(liquid, b)
  {
    DivEuclidMonotone(a - 3000.0, b - 3000.0, 1000.0);
  }

  /** With no guard below 3000 feet, sea level takes flour down by 7.8 and liquid by 7.7. */
  lemma SeaLevel(flour: real, liquid: real)
    ensures FlourAtAlt(flour, 0.0) == flour - 7.8
    ensures LiquidAtAlt(liquid, 0.0) == liquid - 7.7
  {
    FlourBands(flour, 0.0, -2);
    LiquidBands(liquid, 0.0, -3);
  }

  /** Between 200k and 200(k + 1) units, sweetener loses 12.5k, at every altitude. */
  lemma SweetenerBands(x: real, alt: real, k: int)
    requires 200.0 * k as real <= x < 200.0 * (k + 1) as real
    ensures SweetenerAtAlt(x) == x - 12.5 * k as real
    ensures EnAtAlt("sweetener", x, alt) == x - 12.5 * k as real
  {
    BandUnique(x, 200.0, DivEuclid(x, 200.0), k);
  }

  /** A nonnegative sweetener quantity loses at most a sixteenth of itself and stays nonnegative. */
  lemma SweetenerBounds(x: real, alt: real)
    requires 0.0 <= x
    ensures x * 15.0 / 16.0 <= EnAtAlt("sweetener", x, alt) <= x
  {
    var k := DivEuclid(x, 200.0);
    MulMono(0.0, k as real + 1.0, 200.0);
  }

  /** Eggs gain a flat 49.8 at every altitude. */
  lemma EggsFlat(x: real, a: real, b: real)
    ensures EnAtAlt("eggs", x, a) == EnAtAlt("eggs", x, b) == x + 49.8
  {
  }

  lemma FlourExample()
    ensures FlourAtAlt(280.0, 7000.0) == 303.4
  {
    FlourBands(280.0, 7000.0, 2);
  }

  lemma LiquidExample()
    ensures LiquidAtAlt(200.0, 7000.0) == 244.8
  {
    LiquidBands(200.0, 7000.0, 4);
  }

  lemma SweetenerExample()
    ensures EnAtAlt("sweetener", 250.0, 7000.0) == 237.5
  {
    SweetenerBands(250.0, 7000.0, 1);
  }

  lemma ChemLeavenerExamples()
    ensures EnAtAlt("baking soda", 0.46, 4000.0) == 0.4025
    ensures EnAtAlt("baking soda", 2.3, 7000.0) == 2.3
    ensures EnAtAlt("baking powder", 0.46, 5000.7) == 0.4025
  {
  }

  /** The leavening agent comes out the same whatever the altitude. */
  lemma YeastIndependentOfAltitude(recipe: Recipes.Recipe, a: real, b: real)
    ensures New(a, recipe).yeast == New(b, recipe).yeast
  {
    Yeasts.KindAndQuantityDetermine(New(a, recipe).yeast, New(b, recipe).yeast);
  }

  /** An enrichment whose name has no rule of its own keeps its quantity through `New`. */
  lemma UnruledEnrichmentsKept(recipe: Recipes.Recipe, altitude: real, i: int)
    requires recipe.enrichments.Some? && 0 <= i < |recipe.enrichments.value|
    requires recipe.enrichments.value[i].0 !in SpecialNames
    ensures New(altitude, recipe).enrichments.value[i] == recipe.enrichments.value[i]
  {
  }
}
