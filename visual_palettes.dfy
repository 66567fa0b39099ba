/** Assets/Runtime/Materials/MaterialVisualPaletttesT0.cs: four curated base
    colours per palette, one picked by the seeded stream and then nudged in
    hue, saturation and value. */
module VisualPalettes {
  import Mathf
  import opened Rng
  import opened MaterialEnums
  import opened Colors

  const MetalPalette: seq<Color> :=
    [Rgb(0.60, 0.60, 0.62), Rgb(0.55, 0.58, 0.62), Rgb(0.55, 0.52, 0.48), Rgb(0.45, 0.48, 0.50)]

  const MetalOxidePalette: seq<Color> :=
    [Rgb(0.52, 0.25, 0.18), Rgb(0.45, 0.30, 0.15), Rgb(0.20, 0.20, 0.20), Rgb(0.35, 0.22, 0.18)]

  const StonePalette: seq<Color> :=
    [Rgb(0.55, 0.52, 0.48), Rgb(0.42, 0.42, 0.44), Rgb(0.18, 0.18, 0.20), Rgb(0.60, 0.58, 0.54)]

  const CarbonPalette: seq<Color> :=
    [Rgb(0.12, 0.12, 0.12), Rgb(0.20, 0.17, 0.14), Rgb(0.08, 0.08, 0.09), Rgb(0.18, 0.18, 0.20)]

  const LiquidPalette: seq<Color> :=
    [Rgb(0.20, 0.35, 0.45), Rgb(0.30, 0.25, 0.18), Rgb(0.20, 0.30, 0.22), Rgb(0.35, 0.35, 0.35)]

  const GasPalette: seq<Color> :=
    [Rgb(0.60, 0.70, 0.80), Rgb(0.75, 0.75, 0.75), Rgb(0.80, 0.65, 0.55), Rgb(0.70, 0.80, 0.70)]

  /** The palette switch of PickBase. */
  function PaletteFor(c: MaterialCategory, sub: MaterialSubtype): (p: seq<Color>)
  {
    match c
    case Metal => if sub == MetalOxide then MetalOxidePalette else MetalPalette
    case StoneSilicate => StonePalette
    case SedimentaryCarbon => CarbonPalette
    case Liquid => LiquidPalette
    case Gas => GasPalette
  }

  /** Every palette has four opaque in-gamut colours; among metals the oxide
      palette is picked exactly for the MetalOxide subtype, and outside metals
      the subtype plays no part. */
  lemma PaletteChoice(c: MaterialCategory, sub: MaterialSubtype, other: MaterialSubtype)
    ensures |PaletteFor(c, sub)| == 4
    ensures forall i :: 0 <= i < 4 ==> InGamut(PaletteFor(c, sub)[i]) && PaletteFor(c, sub)[i].a == 1.0
    ensures c == Metal ==> (PaletteFor(c, sub) == MetalOxidePalette <==> sub == MetalOxide)
    ensures c != Metal ==> PaletteFor(c, sub) == PaletteFor(c, other)
  {
    assert MetalPalette[0] != MetalOxidePalette[0];
  }

  /** The hue nudge (Next01() - 0.5) * 0.04. */
  function HueShift(u: real): (d: real)
    ensures 0.0 <= u < 1.0 ==> -0.02 <= d < 0.02
  {
    (u - 0.5) * 0.04
  }

  /** The saturation and value nudge (Next01() - 0.5) * 0.06. */
  function ToneShift(u: real): (d: real)
    ensures 0.0 <= u < 1.0 ==> -0.03 <= d < 0.03
  {
    (u - 0.5) * 0.06
  }

  /** The HSV colour after the nudges: hue wrapped with Mathf.Repeat(h, 1),
      saturation and value clamped. */
  function Nudged(c: Hsv, u1: real, u2: real, u3: real): (n: Hsv)
    ensures 0.0 <= n.h < 1.0 && 0.0 <= n.s <= 1.0 && 0.0 <= n.v <= 1.0
  {
    Hsv(Mathf.Repeat01(c.h + HueShift(u1)), Mathf.Clamp01(c.s + ToneShift(u2)), Mathf.Clamp01(c.v + ToneShift(u3)))
  }

  /** A colour with hue in [0,1) and saturation and value in [0,1] moves by at
      most 0.03 in saturation and value, and its hue moves by less than 0.02
      around the colour wheel. */
  lemma NudgeIsSmall(c: Hsv, u1: real, u2: real, u3: real)
    requires 0.0 <= u1 < 1.0 && 0.0 <= u2 < 1.0 && 0.0 <= u3 < 1.0
    requires 0.0 <= c.h < 1.0 && 0.0 <= c.s <= 1.0 && 0.0 <= c.v <= 1.0
    ensures var n := Nudged(c, u1, u2, u3);
            && -0.03 <= n.s - c.s <= 0.03
            && -0.03 <= n.v - c.v <= 0.03
            && var dh := n.h - c.h;
               (-0.02 <= dh < 0.02) || (-0.02 <= dh - 1.0 < 0.02) || (-0.02 <= dh + 1.0 < 0.02)
  {
    var t := c.h + HueShift(u1);
    var f := Mathf.Floor(t);
    assert -1 <= f <= 1;
  }

  /** What PickBase computes from stream state s: the palette index from
      NextInt(0, 4), then three Next01 draws for hue, saturation and value.
      The value is the HSV colour handed to Color.HSVToRGB. */
  function PickDraw(c: MaterialCategory, sub: MaterialSubtype, s: bv32, toHsv: Color -> Hsv): (d: Draw<Hsv>)
  {
    var k := DrawInt(s, 0, 4);
    var u1 := Draw01(k.state);
    var u2 := Draw01(u1.state);
    var u3 := Draw01(u2.state);
    Draw(Nudged(toHsv(PaletteFor(c, sub)[k.value]), u1.value, u2.value, u3.value), u3.state)
  }

  /** PickBase draws exactly four times, picks a colour of the palette and
      returns it nudged. */
  lemma PickDrawShape(c: MaterialCategory, sub: MaterialSubtype, s: bv32, toHsv: Color -> Hsv)
    ensures PickDraw(c, sub, s, toHsv).state == Xorshift32(Xorshift32(Xorshift32(Xorshift32(s))))
    ensures exists k :: 0 <= k < 4 &&
              PickDraw(c, sub, s, toHsv).value ==
                Nudged(toHsv(PaletteFor(c, sub)[k]),
                       Draw01(Xorshift32(s)).value,
                       Draw01(Xorshift32(Xorshift32(s))).value,
                       Draw01(Xorshift32(Xorshift32(Xorshift32(s)))).value)
  {
    var k := DrawInt(s, 0, 4);
    assert 0 <= k.value < 4;
  }

  /** PickBase(cat, subtype, ref rng). */
  method PickBase(c: MaterialCategory, sub: MaterialSubtype, rng: DeterministicRng,
                  toHsv: Color -> Hsv, fromHsv: Hsv -> Color) returns (col: Color)
    modifies rng
    ensures col == fromHsv(PickDraw(c, sub, old(rng.state), toHsv).value)
    ensures rng.state == PickDraw(c, sub, old(rng.state), toHsv).state
  {
    ghost var d := PickDraw(c, sub, rng.state, toHsv);
    ghost var kd := DrawInt(rng.state, 0, 4);
    var palette := PaletteFor(c, sub);
    assert |palette| == 4;
    var k := rng.NextInt(0, |palette|);
    assert k == kd.value && rng.state == kd.state;
    var base := palette[k];
    var u1 := rng.Next01();
    var u2 := rng.Next01();
    var u3 := rng.Next01();
    assert rng.state == d.state;
    var dh := HueShift(u1);
    var ds := ToneShift(u2);
    var dv := ToneShift(u3);
    var hsv := toHsv(base);
    var h := Mathf.Repeat01(hsv.h + dh);
    var sat := Mathf.Clamp01(hsv.s + ds);
    var val := Mathf.Clamp01(hsv.v + dv);
    assert Hsv(h, sat, val) == d.value;
    col := fromHsv(Hsv(h, sat, val));
  }
}
