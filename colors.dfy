/** ColorRGBA of image.hpp: a colour with real channels (doubles in the
    source), nominally in [0,1], its arithmetic, and its conversions from and
    to the 8-bit pixel formats. */
module Colors {
  import opened Pixels

  /** Clamp into [0,1], as the conversion operators do before scaling. */
  function Clamp01(v: real): (r: real)
    ensures 0.0 <= r <= 1.0
    ensures 0.0 <= v <= 1.0 ==> r == v
    ensures v < 0.0 ==> r == 0.0
    ensures v > 1.0 ==> r == 1.0
  {
    if v < 0.0 then 0.0 else if v > 1.0 then 1.0 else v
  }

  /** The float-to-uint8_t step of a conversion operator: clamp, scale by 255, truncate. */
  function Quantize(v: real): (r: Byte)
    ensures r as real <= 255.0 * Clamp01(v) < r as real + 1.0
  {
    Truncate(255.0 * Clamp01(v))
  }

  datatype ColorRGBA = ColorRGBA(r: real, g: real, b: real, a: real) {

    /** operator*(double k), and the free operator*(double, const ColorRGBA&):
        colour channels scaled, alpha kept. */
    function Times(k: real): (res: ColorRGBA)
      ensures res.a == a
      ensures k != 0.0 ==> res.DividedBy(k) == this
      ensures k == 0.0 ==> res.r == 0.0 && res.g == 0.0 && res.b == 0.0
    {
      ColorRGBA(k * r, k * g, k * b, a)
    }

    /** operator/(double k): colour channels divided, alpha kept. */
    function DividedBy(k: real): (res: ColorRGBA)
      requires k != 0.0
      ensures res.a == a
      ensures res.r * k == r && res.g * k == g && res.b * k == b
    {
      ColorRGBA(r / k, g / k, b / k, a)
    }

    /** operator+ : colour channels added, alpha averaged. */
    function Plus(other: ColorRGBA): (res: ColorRGBA)
      ensures res.a - a == other.a - res.a
      ensures res.Minus(other).r == r && res.Minus(other).g == g && res.Minus(other).b == b
    {
      ColorRGBA(r + other.r, g + other.g, b + other.b, (a + other.a) / 2.0)
    }

    /** operator- : colour channels subtracted, alpha averaged (not subtracted). */
    function Minus(other: ColorRGBA): (res: ColorRGBA)
      ensures res.a - a == other.a - res.a
      ensures res.r + other.r == r && res.g + other.g == g && res.b + other.b == b
    {
      ColorRGBA(r - other.r, g - other.g, b - other.b, (a + other.a) / 2.0)
    }

    /** operator PixelRGB(): clamp, scale by 255 and truncate each colour channel. */
    function ToPixelRGB(): (p: PixelRGB)
      ensures p.r as real <= 255.0 * Clamp01(r) < p.r as real + 1.0
      ensures p.g as real <= 255.0 * Clamp01(g) < p.g as real + 1.0
      ensures p.b as real <= 255.0 * Clamp01(b) < p.b as real + 1.0
    {
      PixelRGB(Quantize(r), Quantize(g), Quantize(b))
    }

    /** operator PixelRGBA(): the same for all four channels. */
    function ToPixelRGBA(): (p: PixelRGBA)
      ensures p.Rgb() == ToPixelRGB()
      ensures p.a as real <= 255.0 * Clamp01(a) < p.a as real + 1.0
    {
      PixelRGBA(Quantize(r), Quantize(g), Quantize(b), Quantize(a))
    }
  }

  /** ColorRGBA(double r, double g, double b): alpha takes its default 1. */
  function FromChannels(r: real, g: real, b: real): (c: ColorRGBA)
    ensures c.r == r && c.g == g && c.b == b && c.a == 1.0
    ensures c.ToPixelRGBA().a == 255
  {
    ColorRGBA(r, g, b, 1.0)
  }

  /** ColorRGBA(const PixelRGB&): each channel divided by 255, alpha 1. */
  function FromPixelRGB(p: PixelRGB): (c: ColorRGBA)
    ensures 0.0 <= c.r <= 1.0 && 0.0 <= c.g <= 1.0 && 0.0 <= c.b <= 1.0
    ensures 255.0 * c.r == p.r as real && 255.0 * c.g == p.g as real && 255.0 * c.b == p.b as real
    ensures c.a == 1.0
  {
    ColorRGBA(p.r as real / 255.0, p.g as real / 255.0, p.b as real / 255.0, 1.0)
  }

  /** ColorRGBA(const PixelRGBA&): all four channels divided by 255. */
  function FromPixelRGBA(p: PixelRGBA): (c: ColorRGBA)
    ensures FromPixelRGB(p.Rgb()).r == c.r && FromPixelRGB(p.Rgb()).g == c.g
    ensures FromPixelRGB(p.Rgb()).b == c.b
    ensures 0.0 <= c.a <= 1.0 && 255.0 * c.a == p.a as real
  {
    ColorRGBA(p.r as real / 255.0, p.g as real / 255.0, p.b as real / 255.0, p.a as real / 255.0)
  }

  /** A ColorRGBA lvalue: `*=`, `+=` and `-=` update the colour channels in
      place and, unlike `*`, `+` and `-`, leave alpha untouched. */
  class ColorRGBACell {
    var r: real
    var g: real
    var b: real
    var a: real

    function Value(): ColorRGBA
      reads this
    {
      ColorRGBA(r, g, b, a)
    }

    constructor (c: ColorRGBA)
      ensures Value() == c
    {
      r, g, b, a := c.r, c.g, c.b, c.a;
    }

    method MulAssign(k: real)
      modifies this
      ensures Value() == old(Value()).Times(k)
      ensures a == old(a)
    {
      r := r * k;
      g := g * k;
      b := b * k;
    }

    method AddAssign(other: ColorRGBA)
      modifies this
      ensures a == old(a)
      ensures Value() == old(Value()).Plus(other).(a := old(a))
    {
      r := r + other.r;
      g := g + other.g;
      b := b + other.b;
    }

    method SubAssign(other: ColorRGBA)
      modifies this
      ensures a == old(a)
      ensures Value() == old(Value()).Minus(other).(a := old(a))
    {
      r := r - other.r;
      g := g - other.g;
      b := b - other.b;
    }
  }

  // ---------------------------------------------------------------------
  // Conversion properties

  lemma {:induction false} QuantizeExact(v: Byte)
    ensures Quantize(v as real / 255.0) == v
  {
    var x := v as real / 255.0;
    assert 0.0 <= x <= 1.0;
    assert Clamp01(x) == x;
    assert 255.0 * x == v as real;
  }

  /** Pixel -> Color -> Pixel is the identity for PixelRGB. */
  lemma {:induction false} PixelRGBRoundTrip(p: PixelRGB)
    ensures FromPixelRGB(p).ToPixelRGB() == p
  {
    QuantizeExact(p.r);
    QuantizeExact(p.g);
    QuantizeExact(p.b);
  }

  /** Pixel -> Color -> Pixel is the identity for PixelRGBA, alpha included. */
  lemma {:induction false} PixelRGBARoundTrip(p: PixelRGBA)
    ensures FromPixelRGBA(p).ToPixelRGBA() == p
  {
    QuantizeExact(p.r);
    QuantizeExact(p.g);
    QuantizeExact(p.b);
    QuantizeExact(p.a);
  }

  /** Color -> Pixel -> Color loses less than one quantization step: the
      result lies in [clamped - 1/255, clamped]. */
  lemma {:induction false} ColorRoundTripError(c: ColorRGBA)
    ensures var d := FromPixelRGB(c.ToPixelRGB());
      && 0.0 <= Clamp01(c.r) - d.r < 1.0 / 255.0
      && 0.0 <= Clamp01(c.g) - d.g < 1.0 / 255.0
      && 0.0 <= Clamp01(c.b) - d.b < 1.0 / 255.0
  {
    var p := c.ToPixelRGB();
    var d := FromPixelRGB(p);
    assert 255.0 * d.r == p.r as real;
    assert 255.0 * d.g == p.g as real;
    assert 255.0 * d.b == p.b as real;
  }

  /** `+` followed by `-` of the same colour restores the colour channels,
      but alpha comes back only when both alphas were equal. */
  lemma {:induction false} PlusMinusAlpha(c: ColorRGBA, o: ColorRGBA)
    ensures c.Plus(o).Minus(o).a == c.a <==> c.a == o.a
  {
  }

  /** The compound operators keep alpha while the value operators average it:
      `c += o` and `c + o` differ in alpha exactly when the alphas differ. */
  lemma {:induction false} CompoundAlphaDiffers(c: ColorRGBA, o: ColorRGBA)
    ensures c.Plus(o).(a := c.a) == c.Plus(o) <==> c.a == o.a
    ensures c.Minus(o).(a := c.a) == c.Minus(o) <==> c.a == o.a
  {
  }
}
