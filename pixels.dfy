/** The 8-bit pixel formats of image.hpp: PixelRGB and PixelRGBA with their
    value operators, and one cell class per struct for the compound
    assignment operators, which update the channels of `*this` in place. */
module Pixels {

  /** An unsigned 8-bit channel (uint8_t). */
  type Byte = v: int | 0 <= v < 256

  function Min(a: int, b: int): int { if a <= b then a else b }
  function Max(a: int, b: int): int { if a <= b then b else a }

  /** The clamp every saturating operator applies to its int intermediate. */
  function Saturate(v: int): Byte
  {
    if v > 255 then 255 else if v < 0 then 0 else v
  }

  /** C++ `int / 2`: the quotient is truncated toward zero. */
  function HalfTowardZero(v: int): (q: int)
    ensures v >= 0 ==> 0 <= 2 * q <= v < 2 * q + 2
    ensures v < 0 ==> 2 * q - 2 < v <= 2 * q <= 0
  {
    if v >= 0 then v / 2 else -((-v) / 2)
  }

  /** The implicit conversion of an int into a uint8_t parameter: modulo 256. */
  function Narrow(v: int): (r: Byte)
    ensures (r - v) % 256 == 0
  {
    v % 256
  }

  /** The implicit float-to-uint8_t conversion of a value that fits: truncation. */
  function Truncate(v: real): (r: Byte)
    requires 0.0 <= v < 256.0
    ensures r as real <= v < r as real + 1.0
  {
    v.Floor
  }

  /** `a * k` for a factor k in [0,1], which stays within [0, a]. */
  function ScaledBy(a: real, k: real): (p: real)
    requires a >= 0.0 && 0.0 <= k <= 1.0
    ensures 0.0 <= p <= a
  {
    assert a * (1.0 - k) == a - a * k;
    a * k
  }

  /** `a / k` for a divisor k >= 1, which stays within [0, a]. */
  function QuotientBy(a: real, k: real): (q: real)
    requires a >= 0.0 && k >= 1.0
    ensures 0.0 <= q <= a
  {
    assert (a / k) * k == a;
    assert (a / k) * (k - 1.0) == a - a / k;
    a / k
  }

  /** `v * k` narrowed to a channel, for a coverage or blend factor k in [0,1]. */
  function ScaleChannel(v: Byte, k: real): (r: Byte)
    requires 0.0 <= k <= 1.0
    ensures r <= v
    ensures r as real <= v as real * k < r as real + 1.0
  {
    var x := ScaledBy(v as real, k);
    assert x == v as real * k;
    Truncate(x)
  }

  /** `v / k` narrowed to a channel, for a divisor k >= 1. */
  function DivideChannel(v: Byte, k: real): (r: Byte)
    requires k >= 1.0
    ensures r <= v
    ensures r as real <= v as real / k < r as real + 1.0
  {
    var x := QuotientBy(v as real, k);
    assert x == v as real / k;
    Truncate(x)
  }

  datatype PixelRGB = PixelRGB(r: Byte, g: Byte, b: Byte) {

    /** operator+ : each channel is the sum, saturated at 255. */
    function Plus(other: PixelRGB): (res: PixelRGB)
      ensures res.r == Min(r + other.r, 255)
      ensures res.g == Min(g + other.g, 255)
      ensures res.b == Min(b + other.b, 255)
    {
      PixelRGB(Saturate(r + other.r), Saturate(g + other.g), Saturate(b + other.b))
    }

    /** operator- : each channel is the difference, saturated at 0. */
    function Minus(other: PixelRGB): (res: PixelRGB)
      ensures res.r == Max(r - other.r, 0)
      ensures res.g == Max(g - other.g, 0)
      ensures res.b == Max(b - other.b, 0)
    {
      PixelRGB(Saturate(r - other.r), Saturate(g - other.g), Saturate(b - other.b))
    }

    /** operator*(float k), and the free operator*(float, PixelRGB&): each
        channel times k, truncated. */
    function Scaled(k: real): (res: PixelRGB)
      requires 0.0 <= k <= 1.0
      ensures res.r <= r && res.g <= g && res.b <= b
      ensures res.r as real <= r as real * k < res.r as real + 1.0
      ensures res.g as real <= g as real * k < res.g as real + 1.0
      ensures res.b as real <= b as real * k < res.b as real + 1.0
    {
      PixelRGB(ScaleChannel(r, k), ScaleChannel(g, k), ScaleChannel(b, k))
    }

    /** operator/(float k): each channel divided by k, truncated. */
    function Divided(k: real): (res: PixelRGB)
      requires k >= 1.0
      ensures res.r <= r && res.g <= g && res.b <= b
      ensures res.r as real <= r as real / k < res.r as real + 1.0
      ensures res.g as real <= g as real / k < res.g as real + 1.0
      ensures res.b as real <= b as real / k < res.b as real + 1.0
    {
      PixelRGB(DivideChannel(r, k), DivideChannel(g, k), DivideChannel(b, k))
    }
  }

  const Black := PixelRGB(0, 0, 0)

  datatype PixelRGBA = PixelRGBA(r: Byte, g: Byte, b: Byte, a: Byte) {

    /** The PixelRGB base-class part of this PixelRGBA. */
    function Rgb(): PixelRGB { PixelRGB(r, g, b) }

    /** operator+ : colour channels as for PixelRGB; alpha is the floored mean. */
    function Plus(other: PixelRGBA): (res: PixelRGBA)
      ensures res.Rgb() == Rgb().Plus(other.Rgb())
      ensures 2 * res.a <= a + other.a <= 2 * res.a + 1
      ensures Min(a, other.a) <= res.a <= Max(a, other.a)
    {
      PixelRGBA(Saturate(r + other.r), Saturate(g + other.g), Saturate(b + other.b),
                (a + other.a) / 2)
    }

    /** operator- : colour channels as for PixelRGB; alpha is the halved
        difference, truncated toward zero and narrowed modulo 256. */
    function Minus(other: PixelRGBA): (res: PixelRGBA)
      ensures res.Rgb() == Rgb().Minus(other.Rgb())
      ensures a >= other.a ==> res.a == (a - other.a) / 2
      ensures a < other.a ==> (res.a + (other.a - a) / 2) % 256 == 0
    {
      PixelRGBA(Saturate(r - other.r), Saturate(g - other.g), Saturate(b - other.b),
                Narrow(HalfTowardZero(a - other.a)))
    }

    /** operator*(float k), and the free operator*(float, PixelRGBA&): colour
        channels as for PixelRGB; alpha is kept. */
    function Scaled(k: real): (res: PixelRGBA)
      requires 0.0 <= k <= 1.0
      ensures res.Rgb() == Rgb().Scaled(k)
      ensures res.a == a
    {
      PixelRGBA(ScaleChannel(r, k), ScaleChannel(g, k), ScaleChannel(b, k), a)
    }

    /** The free operator/(float k, PixelRGBA& pix), which divides pix by k:
        colour channels as for PixelRGB; alpha is kept. */
    function Divided(k: real): (res: PixelRGBA)
      requires k >= 1.0
      ensures res.Rgb() == Rgb().Divided(k)
      ensures res.a == a
    {
      PixelRGBA(DivideChannel(r, k), DivideChannel(g, k), DivideChannel(b, k), a)
    }
  }

  /** A PixelRGB lvalue: `+=` and `-=` store into its channels what `+` and `-`
      return. */
  class PixelRGBCell {
    var r: Byte
    var g: Byte
    var b: Byte

    function Value(): PixelRGB
      reads this
    {
      PixelRGB(r, g, b)
    }

    constructor (p: PixelRGB)
      ensures Value() == p
    {
      r, g, b := p.r, p.g, p.b;
    }

    method AddAssign(other: PixelRGB)
      modifies this
      ensures Value() == old(Value()).Plus(other)
    {
      var nr := r + other.r;
      var ng := g + other.g;
      var nb := b + other.b;
      if nr > 255 { nr := 255; } else if nr < 0 { nr := 0; }
      if ng > 255 { ng := 255; } else if ng < 0 { ng := 0; }
      if nb > 255 { nb := 255; } else if nb < 0 { nb := 0; }
      r, g, b := nr, ng, nb;
    }

    method SubAssign(other: PixelRGB)
      modifies this
      ensures Value() == old(Value()).Minus(other)
    {
      var nr := r - other.r;
      var ng := g - other.g;
      var nb := b - other.b;
      if nr > 255 { nr := 255; } else if nr < 0 { nr := 0; }
      if ng > 255 { ng := 255; } else if ng < 0 { ng := 0; }
      if nb > 255 { nb := 255; } else if nb < 0 { nb := 0; }
      r, g, b := nr, ng, nb;
    }
  }

  /** A PixelRGBA lvalue: `+=` and `-=` store into its channels, alpha
      included, what `+` and `-` return. */
  class PixelRGBACell {
    var r: Byte
    var g: Byte
    var b: Byte
    var a: Byte

    function Value(): PixelRGBA
      reads this
    {
      PixelRGBA(r, g, b, a)
    }

    constructor (p: PixelRGBA)
      ensures Value() == p
    {
      r, g, b, a := p.r, p.g, p.b, p.a;
    }

    method AddAssign(other: PixelRGBA)
      modifies this
      ensures Value() == old(Value()).Plus(other)
    {
      var nr := r + other.r;
      var ng := g + other.g;
      var nb := b + other.b;
      var na := (a + other.a) / 2;
      if nr > 255 { nr := 255; } else if nr < 0 { nr := 0; }
      if ng > 255 { ng := 255; } else if ng < 0 { ng := 0; }
      if nb > 255 { nb := 255; } else if nb < 0 { nb := 0; }
      r, g, b, a := nr, ng, nb, na;
    }

    method SubAssign(other: PixelRGBA)
      modifies this
      ensures Value() == old(Value()).Minus(other)
    {
      var nr := r - other.r;
      var ng := g - other.g;
      var nb := b - other.b;
      var na := HalfTowardZero(a - other.a);
      if nr > 255 { nr := 255; } else if nr < 0 { nr := 0; }
      if ng > 255 { ng := 255; } else if ng < 0 { ng := 0; }
      if nb > 255 { nb := 255; } else if nb < 0 { nb := 0; }
      r, g, b, a := nr, ng, nb, Narrow(na);
    }
  }

  // ---------------------------------------------------------------------
  // Properties of the operators

  /** Saturation: adding to white stays white, subtracting from black stays black. */
  lemma SaturationAtTheEnds(p: PixelRGB)
    ensures PixelRGB(255, 255, 255).Plus(p) == PixelRGB(255, 255, 255)
    ensures Black.Minus(p) == Black
  {
  }

  /** A sum saturates exactly when it overflows: a channel of `p + q` is the
      exact sum if and only if that sum fits in 8 bits. */
  lemma {:induction false} PlusExactIff(p: PixelRGB, q: PixelRGB)
    ensures p.Plus(q).r == p.r + q.r <==> p.r + q.r <= 255
    ensures p.Plus(q).g == p.g + q.g <==> p.g + q.g <= 255
    ensures p.Plus(q).b == p.b + q.b <==> p.b + q.b <= 255
  {
  }

  /** Subtracting a pixel that is channel-wise no larger and adding it back
      restores the original pixel. */
  lemma MinusThenPlus(p: PixelRGB, q: PixelRGB)
    requires q.r <= p.r && q.g <= p.g && q.b <= p.b
    ensures p.Minus(q).Plus(q) == p
  {
  }

  lemma PlusCommutes(p: PixelRGB, q: PixelRGB)
    ensures p.Plus(q) == q.Plus(p)
  {
  }

  /** The scale factors 1 and 0 are the identity and the constant black. */
  lemma ScaledByOneOrZero(p: PixelRGB)
    ensures p.Scaled(1.0) == p
    ensures p.Scaled(0.0) == Black
  {
  }

  /** The blend `clr*k + cur*(1-k)` that plot_add writes, for PixelRGB. */
  function BlendRGB(clr: PixelRGB, cur: PixelRGB, k: real): PixelRGB
    requires 0.0 <= k <= 1.0
  {
    clr.Scaled(k).Plus(cur.Scaled(1.0 - k))
  }

  /** For PixelRGB the blend with k = 1 is the new colour and with k = 0 the
      current one. */
  lemma {:induction false} BlendRGBEndpoints(clr: PixelRGB, cur: PixelRGB)
    ensures BlendRGB(clr, cur, 1.0) == clr
    ensures BlendRGB(clr, cur, 0.0) == cur
  {
    ScaledByOneOrZero(clr);
    ScaledByOneOrZero(cur);
  }

  /** The same blend for PixelRGBA. */
  function BlendRGBA(clr: PixelRGBA, cur: PixelRGBA, k: real): PixelRGBA
    requires 0.0 <= k <= 1.0
  {
    clr.Scaled(k).Plus(cur.Scaled(1.0 - k))
  }

  /** For PixelRGBA the colour channels behave as for PixelRGB, but alpha is
      always averaged, so a blend with k = 1 keeps the new alpha if and only
      if the current alpha is equal to it or one more. */
  lemma {:induction false} BlendRGBAAveragesAlpha(clr: PixelRGBA, cur: PixelRGBA, k: real)
    requires 0.0 <= k <= 1.0
    ensures BlendRGBA(clr, cur, k).Rgb() == BlendRGB(clr.Rgb(), cur.Rgb(), k)
    ensures BlendRGBA(clr, cur, k).a == (clr.a + cur.a) / 2
    ensures BlendRGBA(clr, cur, 1.0).a == clr.a <==> cur.a == clr.a || cur.a == clr.a + 1
  {
    var s := clr.Scaled(k);
    var t := cur.Scaled(1.0 - k);
    assert s.Rgb() == clr.Rgb().Scaled(k);
    assert t.Rgb() == cur.Rgb().Scaled(1.0 - k);
    assert s.Plus(t).Rgb() == s.Rgb().Plus(t.Rgb());
  }

  /** The alpha of `-` wraps: 0 - 2 gives alpha 255. */
  lemma MinusAlphaWraps()
    ensures PixelRGBA(0, 0, 0, 0).Minus(PixelRGBA(0, 0, 0, 2)).a == 255
  {
  }
}
