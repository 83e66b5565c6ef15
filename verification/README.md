# bread_cli: recipe scaling and altitude adjustment, in Dafny

This project models the core of `bread_cli`, a small Rust program for bread recipes.
The core is a two-stage pipeline.

1. `Recipe::remap` scales a recipe written in baker's percentages (flour = 100) to gram
   weights for a chosen mass of flour. Every quantity is multiplied by `grams * 0.01`.
2. `HighAltiudeRecipe::new` adjusts a recipe for an altitude in feet. Each ingredient
   gets its own rule:
   - flour and liquid: a step function banded every 1500 or 1000 feet counted from 3000,
     with no guard below it;
   - yeast or starter: a flat 25% cut;
   - eggs: plus 49.8;
   - sweetener: a stepped reduction every 200 units;
   - baking soda and baking powder: two-level banding;
   - any other enrichment: unchanged.

Quantities are Dafny `real`s. Rust's `f64` operations that decide bands are written out
the way Rust computes them:
- `r as i64` rounds toward zero (`RustNumeric.Trunc`), so it is not `Floor`.
- `a.div_euclid(c)` truncates and then corrects by the sign of the remainder
  (`RustNumeric.DivEuclid`). It is proved equal to the floor of `a / c`.

Modules follow the source files:
- `Flours` (flour.rs)
- `Yeasts` (yeast.rs)
- `Recipes` (recipe.rs)
- `HighAltitude` (highaltitude.rs)
- `Pullman`: the example recipe that main.rs builds
- `RustNumeric` and `Options`: support modules

The Rust struct `HighAltiudeRecipe` is spelled `HighAltitudeRecipe` here. The private
`_base` field is `isBase`.

Three points of the code that the model follows exactly:
- The chemical-leavener index is `((x / 4.6) * 100.0) as i64` (src/highaltitude.rs:79).
  This truncates, so a quantity in (-0.046, 0) gets index 0 and falls in the first band.
- The example recipe in src/main.rs:71 names its enrichment "powdered milk". No rule
  matches that name, so it passes through the altitude step unchanged.
- The altitude-adjusted recipe is a struct of its own with an `altitude` field
  (src/highaltitude.rs:6-15).

## Model

| member | source | states |
|---|---|---|
| RustNumeric.Trunc | src/highaltitude.rs:91 | `as i64` rounds toward zero: below the input by less than 1 for nonnegative inputs, above it by less than 1 for negative ones |
| RustNumeric.DivEuclid | src/highaltitude.rs:105 | `div_euclid` by a positive divisor, computed as Rust does, returns the unique band `q` with `q*c <= a < (q+1)*c` |
| RustNumeric.Rem | src/highaltitude.rs:105 | the `f64` remainder used inside `div_euclid`: for a positive divisor it lies in [0, c) for nonnegative dividends and in (-c, 0] for negative ones |
| RustNumeric.RemMultiple | src/highaltitude.rs:105 | the remainder differs from the dividend by a whole number of divisors; with the range of `Rem` this fixes its value |
| RustNumeric.RemNegativeExactly | src/highaltitude.rs:105 | the remainder is negative exactly when the dividend is negative and not a whole multiple of the divisor, which is when `div_euclid` steps down |
| RustNumeric.DivEuclidIsFloor | src/highaltitude.rs:116 | `div_euclid` by a positive constant equals the floor of the exact quotient |
| RustNumeric.BandUnique | src/highaltitude.rs:103-105 | at most one integer band of width `c` contains a given value |
| RustNumeric.DivEuclidMonotone | src/highaltitude.rs:114-116 | the Euclidean band never decreases as the dividend grows |
| RustNumeric.FloorBand | src/highaltitude.rs:105 | the floor of `a / c` names the band of width `c` that holds `a` |
| RustNumeric.BandMonotone | src/highaltitude.rs:114-116 | the band holding a smaller value is never above the band holding a larger one |
| Flours.MapQuantity | src/recipe.rs:41-45 | the three-arm match keeps the flour's variant and applies the function to its payload |
| Flours.MapQuantities | src/highaltitude.rs:22-30 | mapping a flour list keeps its length, order and variants, and maps each entry's quantity |
| Flours.KindAndQuantityDetermine | src/flour.rs:4-8 | a flour is determined by its variant and its one quantity |
| Flours.LabelsDistinct | src/flour.rs:12-16 | the labels "ap", "bread" and "whole wheat" are pairwise distinct |
| Flours.ParseRender | src/flour.rs:10-18 | a rendered line `<label> flour: <q> grams` gives back both the variant and the quantity text |
| Flours.Render | src/flour.rs:10-18 | the line is the label, then " flour: ", then the quantity text, then " grams", with nothing else in between |
| Flours.RenderInjective | src/flour.rs:12-17 | two flours that render to the same line have the same variant and the same quantity text |
| Yeasts.KindAndQuantityDetermine | src/yeast.rs:4-7 | a leavening agent is determined by its variant and its one quantity |
| Yeasts.MapQuantity | src/recipe.rs:47-50 | the two-arm match keeps `Instant`/`Starter` and applies the function to the payload |
| Yeasts.LabelsDistinct | src/yeast.rs:11-14 | "instant yeast" and "sourdough starter" differ |
| Yeasts.ParseRender | src/yeast.rs:9-16 | a rendered line `<label>: <q>`, with no unit, gives back the variant and the quantity text |
| Yeasts.Render | src/yeast.rs:9-16 | the line is the label, then ": ", then the quantity text, with no unit |
| Yeasts.RenderInjective | src/yeast.rs:11-15 | two leavening agents that render alike have the same variant and quantity text |
| Recipes.New | src/recipe.rs:16-35 | a base recipe stores every argument as given and is marked as percentages |
| Recipes.MapEnrichments | src/recipe.rs:51-54 | mapping enrichments keeps names, length and order, and maps each quantity |
| Recipes.Remap | src/recipe.rs:37-65 | remapping keeps the name and the shape, multiplies flour, salt, water, yeast and every enrichment by `grams/100`, keeps `None` as `None`, and marks the result as grams |
| Recipes.ScaledUnique | src/recipe.rs:37-65 | the shape and a scale factor fix every field of a scaled recipe except name and marker |
| Recipes.ScaledCompose | src/recipe.rs:37-65 | scaling by `j` and then by `k` is scaling by `j*k` |
| Recipes.ScaledComposeUnique | src/recipe.rs:37-65 | a recipe scaled by `j` and then `k` is the recipe scaled by `j*k`, once name and marker agree |
| Recipes.RemapComposeAt | src/recipe.rs:37-65 | the scale factors of remaps to `a` and then `b` compose to the factor of one remap to `a*b/100`, so the two recipes coincide |
| Recipes.RemapCompose | src/recipe.rs:37-65 | `remap(remap(r, a), b) == remap(r, a*b/100)` |
| Recipes.RemapHundred | src/recipe.rs:37-65 | `remap(r, 100)` leaves every quantity, name and variant of `r` as it is; only the marker becomes grams |
| Recipes.RemapRoundTrip | src/recipe.rs:37-65 | for nonzero `g`, remapping to `g` and then to `10000/g` gives back every quantity, the name and every variant; only the marker becomes grams |
| HighAltitude.FlourAtAlt | src/highaltitude.rs:112-117 | flour gains 7.8 plus 7.8 times the floor of `(altitude - 3000) / 1500` |
| HighAltitude.LiquidAtAlt | src/highaltitude.rs:100-106 | liquid gains 14.8 plus 7.5 times the floor of `(altitude - 3000) / 1000` |
| HighAltitude.SweetenerAtAlt | src/highaltitude.rs:60-65 | sweetener loses 12.5 times the floor of `x / 200` |
| HighAltitude.YeastAtAlt | src/highaltitude.rs:108-110 | yeast becomes 0.75 of itself; a nonnegative amount never grows or turns negative |
| HighAltitude.CalcLeaven | src/highaltitude.rs:89-98 | altitudes in [3000, 5001), [5001, 6501) and [6501, 8001) select the low, medium and high multiplier; all others leave the quantity unchanged, so 5000.7 ft is low |
| HighAltitude.ChemLeavenerAtAlt | src/highaltitude.rs:76-87 | quantities in (-0.046, 0.506), [0.506, 0.966), [0.966, 1.426) and [1.426, 1.886) use the four multiplier triples; every other quantity is unchanged |
| HighAltitude.EnAtAlt | src/highaltitude.rs:59-74 | a name outside the seven recognised names leaves the quantity unchanged |
| HighAltitude.EnAtAltFollowsTable | src/highaltitude.rs:59-74 | name dispatch equals looking the name up in the reference rule table, with identity as the default |
| HighAltitude.New | src/highaltitude.rs:20-56 | the adjusted recipe keeps name, salt, flour length, order and variants, yeast variant, enrichment names and order, and `None`-ness; applies the flour, liquid, yeast and name rules; records the altitude |
| HighAltitude.FlourBands | src/highaltitude.rs:112-117 | in band `k` (3000+1500k <= alt < 3000+1500(k+1)) flour gains exactly 7.8*(k+1) |
| HighAltitude.LiquidBands | src/highaltitude.rs:100-106 | in band `k` (3000+1000k <= alt < 3000+1000(k+1)) liquid gains exactly 14.8 + 7.5k |
| HighAltitude.FlourGainIndependentOfFlour | src/highaltitude.rs:112-117 | the amount flour gains depends only on the altitude |
| HighAltitude.FlourGainMonotone | src/highaltitude.rs:112-117 | adjusted flour never decreases as altitude rises |
| HighAltitude.LiquidGainIndependentOfLiquid | src/highaltitude.rs:100-106 | the amount liquid gains depends only on the altitude |
| HighAltitude.LiquidGainMonotone | src/highaltitude.rs:100-106 | adjusted liquid never decreases as altitude rises |
| HighAltitude.SeaLevel | src/highaltitude.rs:103-116 | with no guard below 3000 ft, at 0 ft flour loses 7.8 and liquid loses 7.7 |
| HighAltitude.SweetenerBands | src/highaltitude.rs:65 | sweetener between 200k and 200(k+1) loses exactly 12.5k, at every altitude |
| HighAltitude.SweetenerBounds | src/highaltitude.rs:60-65 | nonnegative sweetener keeps at least 15/16 of itself and never grows |
| HighAltitude.EggsFlat | src/highaltitude.rs:61-64 | eggs gain 49.8 whatever the altitude |
| HighAltitude.FlourExample | src/highaltitude.rs:112-117 | 280 flour at 7000 ft becomes 303.4 |
| HighAltitude.LiquidExample | src/highaltitude.rs:100-106 | 200 water at 7000 ft becomes 244.8 |
| HighAltitude.SweetenerExample | src/highaltitude.rs:60-65 | 250 sweetener becomes 237.5 |
| HighAltitude.ChemLeavenerExamples | src/highaltitude.rs:76-98 | 0.46 baking soda at 4000 ft becomes 0.4025 and so does 0.46 baking powder at 5000.7 ft; 2.3 (index 50) stays 2.3 |
| HighAltitude.YeastIndependentOfAltitude | src/highaltitude.rs:33-36 | the adjusted leavening agent, variant and quantity, is the same at every altitude |
| HighAltitude.UnruledEnrichmentsKept | src/highaltitude.rs:37-44 | an enrichment whose name has no rule comes out of `new` identical, name and quantity |
| Pullman.At500 | src/main.rs:68-92 | the Pullman base scaled to 500 g is flour 500, salt 10, water 290, yeast 5, fat 40, eggs 20, sweetener 40, powdered milk 30 |
| Pullman.EnrichmentsAt7000 | src/main.rs:68-71 | at 7000 ft the example's fat 40 becomes 84.8 and eggs 20 becomes 69.8; sweetener 40 and powdered milk 30 are unchanged |
| Pullman.At500At7000 | src/highaltitude.rs:20-56 | the 500 g Pullman recipe adjusted for 7000 ft is flour 523.4, salt 10, water 334.8, yeast 3.75, and the enrichments above |

## Left out

- Console output: `print_recipe`, `print_altitude_recipe` and their advisory text (src/main.rs). They only print.
- Command-line parsing with `clap`: the flour mass `grams` is a plain parameter.
- IEEE-754 rounding of `f64`. Quantities are exact reals, so 0.46 / 4.6 is exactly 0.1 here, while in binary floating point it may not be.
- NaN handling and saturation at the `i64` range of `as i64`.
- Decimal formatting of `f64` inside the `Display` impls. The formatted quantity is an abstract string parameter of `Render`.
- The `Debug` and `Clone` derives, and the `&'static str` lifetimes: names are plain strings.
