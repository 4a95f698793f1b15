/** `sb::Color` (src/rendering/color.h, src/rendering/color.cpp): an RGBA
    colour with componentwise scaling and addition. Components are `real`;
    single-precision rounding is not modelled. */
module Colors {

  datatype Color = Color(r: real, g: real, b: real, a: real)

  /** `Color()`: opaque black. */
  const DEFAULT: Color := Color(0.0, 0.0, 0.0, 1.0)

  /** The predefined colours, built by `Color(r, g, b)` with alpha 1. */
  const RED: Color := Color(1.0, 0.0, 0.0, 1.0)
  const GREEN: Color := Color(0.0, 1.0, 0.0, 1.0)
  const BLUE: Color := Color(0.0, 0.0, 1.0, 1.0)
  const YELLOW: Color := Color(1.0, 1.0, 0.0, 1.0)
  const CYAN: Color := Color(0.0, 1.0, 1.0, 1.0)
  const PURPLE: Color := Color(1.0, 0.0, 1.0, 1.0)
  const ORANGE: Color := Color(1.0, 0.5, 0.0, 1.0)
  const WHITE: Color := Color(1.0, 1.0, 1.0, 1.0)
  const BLACK: Color := Color(0.0, 0.0, 0.0, 1.0)

  /** `Color(r, g, b)`: the alpha argument defaults to 1. */
  function Rgb(r: real, g: real, b: real): Color
  {
    Color(r, g, b, 1.0)
  }

  /** `Color(uniform, a)`: a grey of the given level. */
  function Uniform(level: real, a: real): Color
  {
    Color(level, level, level, a)
  }

  /** `Color(c, a)`: `c` with its alpha replaced. */
  function WithAlpha(c: Color, a: real): Color
  {
    c.(a := a)
  }

  /** The uniform constructor is a grey with the given alpha; changing the
      alpha touches nothing else, and restoring it gives the colour back. */
  lemma ConstructorLaws(c: Color, level: real, a: real)
    ensures Uniform(level, a) == WithAlpha(Rgb(level, level, level), a)
    ensures Rgb(c.r, c.g, c.b).a == 1.0
    ensures WithAlpha(c, a).a == a && WithAlpha(c, a) == Color(c.r, c.g, c.b, a)
    ensures WithAlpha(WithAlpha(c, a), c.a) == c
  {
  }

  /** `c * factor`: colour channels scaled, alpha kept. */
  function Scale(c: Color, factor: real): Color
  {
    Color(c.r * factor, c.g * factor, c.b * factor, c.a)
  }

  /** `c + d`: colour channels added, alphas averaged. */
  function Plus(c: Color, d: Color): Color
  {
    Color(c.r + d.r, c.g + d.g, c.b + d.b, (c.a + d.a) / 2.0)
  }

  /** Scaling never touches alpha, undoes with the inverse factor, composes
      by multiplying factors, and is the identity for factor 1. */
  lemma ScaleLaws(c: Color, f: real, h: real)
    ensures Scale(c, f).a == c.a
    ensures Scale(c, 1.0) == c
    ensures Scale(Scale(c, f), h) == Scale(c, f * h)
    ensures f != 0.0 ==> Scale(Scale(c, f), 1.0 / f) == c
    ensures Scale(c, 0.0) == WithAlpha(BLACK, c.a)
  {
    assert (c.r * f) * h == c.r * (f * h);
    assert (c.g * f) * h == c.g * (f * h);
    assert (c.b * f) * h == c.b * (f * h);
  }

  /** Addition is commutative; its alpha lies between the two alphas, and
      adding a colour with the same alpha keeps that alpha. */
  lemma PlusLaws(c: Color, d: Color)
    ensures Plus(c, d) == Plus(d, c)
    ensures c.a <= d.a ==> c.a <= Plus(c, d).a <= d.a
    ensures c.a == d.a ==> Plus(c, d).a == c.a
    ensures Plus(c, c) == WithAlpha(Scale(c, 2.0), c.a)
  {
  }

  /** Scaling distributes over addition in the colour channels; alpha is the
      same either way. */
  lemma ScaleDistributes(c: Color, d: Color, f: real)
    ensures Scale(Plus(c, d), f) == Plus(Scale(c, f), Scale(d, f))
  {
  }

  /** The default is opaque black, and the uniform constructor gives white
      and black at the extremes. */
  lemma PredefinedColors()
    ensures DEFAULT == BLACK && DEFAULT.a == 1.0
    ensures RED.a == GREEN.a == BLUE.a == YELLOW.a == CYAN.a == PURPLE.a == ORANGE.a == WHITE.a == 1.0
    ensures RED == Rgb(1.0, 0.0, 0.0) && ORANGE == Rgb(1.0, 0.5, 0.0)
    ensures Uniform(1.0, 1.0) == WHITE && Uniform(0.0, 1.0) == BLACK
  {
  }

  /** The secondary colours and white are sums of the primaries, and orange
      is red plus green at half intensity. */
  lemma PrimaryMixes()
    ensures Plus(RED, GREEN) == YELLOW && Plus(GREEN, BLUE) == CYAN && Plus(RED, BLUE) == PURPLE
    ensures Plus(YELLOW, BLUE) == WHITE
    ensures Scale(GREEN, 0.5) == Rgb(0.0, 0.5, 0.0) && Plus(RED, Rgb(0.0, 0.5, 0.0)) == ORANGE
  {
  }

  /** A `Color` object updated in place by `*=` and `+=`. */
  class MutableColor {
    var r: real
    var g: real
    var b: real
    var a: real

    function Value(): Color
      reads this
    {
      Color(r, g, b, a)
    }

    constructor(c: Color)
      ensures Value() == c
    {
      r, g, b, a := c.r, c.g, c.b, c.a;
    }

    /** `c *= factor`: the object becomes the old `c * factor`. */
    method MulAssign(factor: real)
      modifies this
      ensures Value() == Scale(old(Value()), factor)
    {
      r := r * factor;
      g := g * factor;
      b := b * factor;
    }

    /** `c += d`: the object becomes the old `c + d`. */
    method AddAssign(d: Color)
      modifies this
      ensures Value() == Plus(old(Value()), d)
    {
      r := r + d.r;
      g := g + d.g;
      b := b + d.b;
      a := (a + d.a) / 2.0;
    }
  }
}
