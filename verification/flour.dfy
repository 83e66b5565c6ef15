/**
 The flour variants a recipe lists. Each carries one quantity, in baker's-percentage
 points or in grams depending on the recipe it belongs to.
 */
module Flours {
  import opened Options

  datatype Flour = AP(x: real) | Bread(x: real) | WW(x: real)

  /** The variant tag of a `Flour`, without its quantity. */
  datatype Kind = AllPurpose | BreadFlour | WholeWheat

  function KindOf(f: Flour): Kind
  {
    match f
    case AP(_) => AllPurpose
    case Bread(_) => BreadFlour
    case WW(_) => WholeWheat
  }

  /** Builds the flour of kind `k` carrying `x`. */
  function Make(k: Kind, x: real): (f: Flour)
    ensures KindOf(f) == k && f.x == x
  {
    match k
    case AllPurpose => AP(x)
    case BreadFlour => Bread(x)
    case WholeWheat => WW(x)
  }

  /** A flour is determined by its kind and its quantity. */
  lemma KindAndQuantityDetermine(f: Flour, g: Flour)
    requires KindOf(f) == KindOf(g) && f.x == g.x
    ensures f == g
  {
  }

  /** Replaces the quantity `x` of `f` by `h(x)`, keeping the variant. */
  function MapQuantity(f: Flour, h: real -> real): (g: Flour)
    ensures KindOf(g) == KindOf(f) && g.x == h(f.x)
  {
    Make(KindOf(f), h(f.x))
  }

  /** Applies `h` to every entry's quantity, keeping the list's length, order and variants. */
  function MapQuantities(fs: seq<Flour>, h: real -> real): (gs: seq<Flour>)
    ensures |gs| == |fs|
    ensures forall i :: 0 <= i < |fs| ==> KindOf(gs[i]) == KindOf(fs[i]) && gs[i].x == h(fs[i].x)
  {
    if fs == [] then [] else [MapQuantity(fs[0], h)] + MapQuantities(fs[1..], h)
  }

  /** Two flour lists that agree entry by entry on kind and quantity are equal. */
  lemma ListsEqual(fs: seq<Flour>, gs: seq<Flour>)
    requires |fs| == |gs|
    requires forall i :: 0 <= i < |fs| ==> KindOf(fs[i]) == KindOf(gs[i]) && fs[i].x == gs[i].x
    ensures fs == gs
  {
    forall i | 0 <= i < |fs|
      ensures fs[i] == gs[i]
    {
      KindAndQuantityDetermine(fs[i], gs[i]);
    }
  }

  /** The label the `Display` impl writes before " flour: ". */
  function Label(k: Kind): string
  {
    match k
    case AllPurpose => "ap"
    case BreadFlour => "bread"
    case WholeWheat => "whole wheat"
  }

  function Prefix(k: Kind): string
  {
    Label(k) + " flour: "
  }

  const Unit: string := " grams"

  /**
   The `Display` rendering of `f`, where `quantity` stands for the decimal text Rust's
   formatter produces for the payload (number formatting is not modelled).
   */
  function Render(f: Flour, quantity: string): (s: string)
    ensures |s| == |Label(KindOf(f))| + 8 + |quantity| + 6
    ensures s[..|Label(KindOf(f))|] == Label(KindOf(f))
    ensures s[|Label(KindOf(f))|..|Label(KindOf(f))| + 8] == " flour: "
    ensures s[|Label(KindOf(f))| + 8..|s| - 6] == quantity
    ensures s[|s| - 6..] == " grams"
  {
    Prefix(KindOf(f)) + quantity + Unit
  }

  /** Reads a rendered flour line back into its kind and its quantity text. */
  function Parse(s: string): Option<(Kind, string)>
  {
    if |s| < |Unit| || s[|s| - |Unit|..] != Unit then None
    else
      var body := s[..|s| - |Unit|];
      if Prefix(AllPurpose) <= body then Some((AllPurpose, body[|Prefix(AllPurpose)|..]))
      else if Prefix(BreadFlour) <= body then Some((BreadFlour, body[|Prefix(BreadFlour)|..]))
      else if Prefix(WholeWheat) <= body then Some((WholeWheat, body[|Prefix(WholeWheat)|..]))
      else None
  }

  /** The three labels are pairwise distinct. */
  lemma LabelsDistinct(j: Kind, k: Kind)
    requires j != k
    ensures Label(j) != Label(k)
  {
  }

  /** The variant and the quantity text are recoverable from a rendered line. */
  lemma ParseRender(f: Flour, quantity: string)
    ensures Parse(Render(f, quantity)) == Some((KindOf(f), quantity))
  {
    var k := KindOf(f);
    var body := Prefix(k) + quantity;
    var s := Render(f, quantity);
    assert s == body + Unit;
    assert s[..|s| - |Unit|] == body;
    assert s[|s| - |Unit|..] == Unit;
    assert body[..|Prefix(k)|] == Prefix(k);
    assert body[|Prefix(k)|..] == quantity;
    assert body[0] == Prefix(k)[0];
  }

  /** Rendering is injective in the variant and the quantity text. */
  lemma RenderInjective(f: Flour, p: string, g: Flour, q: string)
    requires Render(f, p) == Render(g, q)
    ensures KindOf(f) == KindOf(g) && p == q
  {
    ParseRender(f, p);
    ParseRender(g, q);
  }
}
