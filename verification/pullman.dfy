/**
 The example recipe the command-line program builds: a Pullman loaf in baker's
 percentages, scaled to the default 500 g of flour. The program itself never adjusts it
 for altitude (that call is commented out); At500At7000 follows the scale-then-adjust
 order its comments describe, adjusting the 500 g recipe for 7000 feet.
 */
module Pullman {
  import opened Options
  import Flours
  import Yeasts
  import Recipes
  import HighAltitude

  /** 100% bread flour, 2% salt, 58% water, 1% instant yeast, and four enrichments. */
  function Base(): Recipes.Recipe
  {
    Recipes.New(
      "Pullman",
      [Flours.Bread(100.0)],
      2.0,
      58.0,
      Yeasts.Instant(1.0),
      Some([("fat", 8.0), ("eggs", 4.0), ("sweetener", 8.0), ("powdered milk", 6.0)]))
  }

  /** The Pullman recipe at 500 g of flour, as gram weights. */
  function Grams500(): Recipes.Recipe
  {
    Recipes.Recipe(
      "Pullman",
      [Flours.Bread(500.0)],
      10.0,
      290.0,
      Yeasts.Instant(5.0),
      Some([("fat", 40.0), ("eggs", 20.0), ("sweetener", 40.0), ("powdered milk", 30.0)]),
      false)
  }

  /** Scaled to 500 g of flour, every percentage becomes five times as many grams. */
  lemma At500()
    ensures Recipes.Remap(Base(), 500.0) == Grams500()
  {
    var r, t := Base(), Grams500();
    assert Recipes.Scaled(r, t, 5.0) by {
      var es, fs := r.enrichments.value, t.enrichments.value;
      assert forall i :: 0 <= i < 4 ==> fs[i].0 == es[i].0 && fs[i].1 == 5.0 * es[i].1;
    }
    Recipes.ScaledUnique(r, Recipes.Remap(r, 500.0), t, 5.0);
  }

  /** The enrichments of the 500 g recipe at 7000 feet, one rule each. */
  lemma EnrichmentsAt7000()
    ensures HighAltitude.EnAtAlt("fat", 40.0, 7000.0) == 84.8
    ensures HighAltitude.EnAtAlt("eggs", 20.0, 7000.0) == 69.8
    ensures HighAltitude.EnAtAlt("sweetener", 40.0, 7000.0) == 40.0
    ensures HighAltitude.EnAtAlt("powdered milk", 30.0, 7000.0) == 30.0
  {
    HighAltitude.LiquidBands(40.0, 7000.0, 4);
    HighAltitude.SweetenerBands(40.0, 7000.0, 0);
  }

  /**
   The 500 g recipe at 7000 feet: flour 500 + 7.8 * 3, water 290 + 14.8 + 7.5 * 4,
   yeast cut by a quarter, fat by the liquid rule, eggs plus 49.8, sweetener below
   200 unchanged, and "powdered milk", which has no rule of its own, unchanged.
   */
  function Grams500At7000(): HighAltitude.HighAltitudeRecipe
  {
    HighAltitude.HighAltitudeRecipe(
      "Pullman",
      [Flours.Bread(523.4)],
      10.0,
      334.8,
      Yeasts.Instant(3.75),
      Some([("fat", 84.8), ("eggs", 69.8), ("sweetener", 40.0), ("powdered milk", 30.0)]),
      7000.0,
      false)
  }

  lemma At500At7000()
    ensures HighAltitude.New(7000.0, Recipes.Remap(Base(), 500.0)) == Grams500At7000()
  {
    At500();
    FlourAt7000();
    YeastAt7000();
    EnrichmentListAt7000();
    HighAltitude.LiquidBands(290.0, 7000.0, 4);
  }

  lemma FlourAt7000()
    ensures HighAltitude.New(7000.0, Grams500()).flour == [Flours.Bread(523.4)]
  {
    var h := HighAltitude.New(7000.0, Grams500());
    HighAltitude.FlourBands(500.0, 7000.0, 2);
    Flours.ListsEqual(h.flour, [Flours.Bread(523.4)]);
  }

  lemma YeastAt7000()
    ensures HighAltitude.New(7000.0, Grams500()).yeast == Yeasts.Instant(3.75)
  {
    Yeasts.KindAndQuantityDetermine(HighAltitude.New(7000.0, Grams500()).yeast, Yeasts.Instant(3.75));
  }

  lemma EnrichmentListAt7000()
    ensures HighAltitude.New(7000.0, Grams500()).enrichments == Grams500At7000().enrichments
  {
    EnrichmentsAt7000();
    var es, fs := Grams500().enrichments.value, HighAltitude.New(7000.0, Grams500()).enrichments.value;
    assert es[0] == ("fat", 40.0) && fs[0] == (es[0].0, HighAltitude.EnAtAlt(es[0].0, es[0].1, 7000.0));
    assert es[1] == ("eggs", 20.0) && fs[1] == (es[1].0, HighAltitude.EnAtAlt(es[1].0, es[1].1, 7000.0));
    assert es[2] == ("sweetener", 40.0) && fs[2] == (es[2].0, HighAltitude.EnAtAlt(es[2].0, es[2].1, 7000.0));
    assert es[3] == ("powdered milk", 30.0) && fs[3] == (es[3].0, HighAltitude.EnAtAlt(es[3].0, es[3].1, 7000.0));
    assert fs == Grams500At7000().enrichments.value;
  }
}
