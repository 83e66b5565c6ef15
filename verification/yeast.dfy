/**
 The leavening agent of a recipe: commercial instant yeast or a sourdough starter,
 each carrying one quantity in the recipe's basis.
 */
module Yeasts {
  import opened Options

  datatype Yeast = Instant(x: real) | Starter(x: real)

  /** The variant tag of a `Yeast`, without its quantity. */
  datatype Kind = InstantYeast | SourdoughStarter

  function KindOf(y: Yeast): Kind
  {
    match y
    case Instant(_) => InstantYeast
    case Starter(_) => SourdoughStarter
  }

  /** A leavening agent is determined by its kind and its quantity. */
  lemma KindAndQuantityDetermine(y: Yeast, z: Yeast)
    requires KindOf(y) == KindOf(z) && y.x == z.x
    ensures y == z
  {
  }

  /** Replaces the quantity `x` of `y` by `h(x)`, keeping the variant. */
  function MapQuantity(y: Yeast, h: real -> real): (z: Yeast)
    ensures KindOf(z) == KindOf(y) && z.x == h(y.x)
  {
    match y
    case Instant(x) => Instant(h(x))
    case Starter(x) => Starter(h(x))
  }

  /** The label the `Display` impl writes before ": ". */
  function Label(k: Kind): string
  {
    match k
    case InstantYeast => "instant yeast"
    case SourdoughStarter => "sourdough starter"
  }

  function Prefix(k: Kind): string
  {
    Label(k) + ": "
  }

  /**
   The `Display` rendering of `y`; `quantity` stands for the formatted payload. No unit
   is written here: the caller that prints a recipe appends " grams".
   */
  function Render(y: Yeast, quantity: string): (s: string)
    ensures |s| == |Label(KindOf(y))| + 2 + |quantity|
    ensures s[..|Label(KindOf(y))|] == Label(KindOf(y))
    ensures s[|Label(KindOf(y))|..|Label(KindOf(y))| + 2] == ": "
    ensures s[|Label(KindOf(y))| + 2..] == quantity
  {
    Prefix(KindOf(y)) + quantity
  }

  /** Reads a rendered leavening line back into its kind and its quantity text. */
  function Parse(s: string): Option<(Kind, string)>
  {
    if Prefix(InstantYeast) <= s then Some((InstantYeast, s[|Prefix(InstantYeast)|..]))
    else if Prefix(SourdoughStarter) <= s then Some((SourdoughStarter, s[|Prefix(SourdoughStarter)|..]))
    else None
  }

  /** The two labels are distinct. */
  lemma LabelsDistinct()
    ensures Label(InstantYeast) != Label(SourdoughStarter)
  {
  }

  /** The variant and the quantity text are recoverable from a rendered line. */
  lemma ParseRender(y: Yeast, quantity: string)
    ensures Parse(Render(y, quantity)) == Some((KindOf(y), quantity))
  {
    var k := KindOf(y);
    var s := Render(y, quantity);
    assert s[..|Prefix(k)|] == Prefix(k);
    assert s[|Prefix(k)|..] == quantity;
    assert s[0] == Prefix(k)[0];
  }

  /** Rendering is injective in the variant and the quantity text. */
  lemma RenderInjective(y: Yeast, p: string, z: Yeast, q: string)
    requires Render(y, p) == Render(z, q)
    ensures KindOf(y) == KindOf(z) && p == q
  {
    ParseRender(y, p);
    ParseRender(z, q);
  }
}
