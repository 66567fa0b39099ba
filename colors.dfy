/** The parts of UnityEngine.Color the visual code relies on, over real
    numbers. Color.RGBToHSV and Color.HSVToRGB have no source here; the code
    that uses them takes them as function parameters. */
module Colors {
  import Mathf

  /** UnityEngine.Color: four float components. */
  datatype Color = Color(r: real, g: real, b: real, a: real)

  /** A colour as hue, saturation and value, as Color.RGBToHSV returns them. */
  datatype Hsv = Hsv(h: real, s: real, v: real)

  /** new Color(r, g, b): alpha is 1. */
  function Rgb(r: real, g: real, b: real): (c: Color)
    ensures c.r == r && c.g == g && c.b == b && c.a == 1.0
  {
    Color(r, g, b, 1.0)
  }

  /** Every component lies in [0,1]. */
  predicate InGamut(c: Color)
  {
    0.0 <= c.r <= 1.0 && 0.0 <= c.g <= 1.0 && 0.0 <= c.b <= 1.0 && 0.0 <= c.a <= 1.0
  }

  /** Color.Lerp(x, y, t): Mathf.Lerp on each component, alpha included, with t
      clamped to [0,1]. */
  function Lerp(x: Color, y: Color, t: real): (c: Color)
    ensures t <= 0.0 ==> c == x
    ensures t >= 1.0 ==> c == y
    ensures Mathf.Min(x.r, y.r) <= c.r <= Mathf.Max(x.r, y.r)
    ensures Mathf.Min(x.g, y.g) <= c.g <= Mathf.Max(x.g, y.g)
    ensures Mathf.Min(x.b, y.b) <= c.b <= Mathf.Max(x.b, y.b)
    ensures Mathf.Min(x.a, y.a) <= c.a <= Mathf.Max(x.a, y.a)
  {
    Color(Mathf.Lerp(x.r, y.r, t), Mathf.Lerp(x.g, y.g, t), Mathf.Lerp(x.b, y.b, t), Mathf.Lerp(x.a, y.a, t))
  }

  /** Colours in gamut stay in gamut under Lerp. */
  lemma LerpInGamut(x: Color, y: Color, t: real)
    requires InGamut(x) && InGamut(y)
    ensures InGamut(Lerp(x, y, t))
  {}

  /** color * k: every component, alpha included, multiplied by k. */
  function Times(x: Color, k: real): (c: Color)
    ensures k == 1.0 ==> c == x
  {
    Color(x.r * k, x.g * k, x.b * k, x.a * k)
  }
}
