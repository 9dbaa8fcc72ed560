/**
 * Eight-bit RGBA colours and the `darken` channel scaling used for shading.
 */
module Colors {
  /** An unsigned 8-bit channel value. */
  type Byte = x: int | 0 <= x < 256

  datatype Color = Color(r: Byte, g: Byte, b: Byte, a: Byte)

  /** raylib's palette entries used by the scene. */
  const BLACK: Color := Color(0, 0, 0, 255)
  const RED: Color := Color(230, 41, 55, 255)
  const GREEN: Color := Color(0, 228, 48, 255)
  const BLUE: Color := Color(0, 121, 241, 255)

  function Min(a: real, b: real): real { if a <= b then a else b }
  function Max(a: real, b: real): real { if a >= b then a else b }

  /**
   * One channel of `darken`: the product is capped at 255, then raised to at
   * least 0, then truncated to an integer by the `as u8` cast (the value is
   * already in [0, 255], so truncation is the floor).
   */
  function ScaleChannel(c: Byte, factor: real): (r: Byte)
    ensures c as real * factor >= 255.0 ==> r == 255
    ensures c as real * factor <= 0.0 ==> r == 0
    ensures 0.0 <= c as real * factor < 255.0 ==>
              r as real <= c as real * factor < r as real + 1.0
  {
    Max(Min(c as real * factor, 255.0), 0.0).Floor
  }

  /** Scales the colour channels by `factor`, clamped to [0, 255]; alpha is kept. */
  function Darken(color: Color, factor: real): (r: Color)
    ensures r.a == color.a
    ensures r.r == ScaleChannel(color.r, factor)
    ensures r.g == ScaleChannel(color.g, factor)
    ensures r.b == ScaleChannel(color.b, factor)
  {
    Color(ScaleChannel(color.r, factor), ScaleChannel(color.g, factor),
          ScaleChannel(color.b, factor), color.a)
  }

  /** Scaling by a larger non-negative factor never gives a darker channel. */
  lemma ScaleChannelMonotone(c: Byte, f1: real, f2: real)
    requires 0.0 <= f1 <= f2
    ensures ScaleChannel(c, f1) <= ScaleChannel(c, f2)
  {
    var u, v := c as real * f1, c as real * f2;
    assert u <= v by {
      assert v - u == c as real * (f2 - f1);
    }
    ClampMonotone(u, v);
    FloorMonotone(Max(Min(u, 255.0), 0.0), Max(Min(v, 255.0), 0.0));
  }

  /** A factor in [0, 1] never brightens a channel. */
  lemma ScaleChannelNeverBrightens(c: Byte, f: real)
    requires 0.0 <= f <= 1.0
    ensures ScaleChannel(c, f) <= c
  {
    var u := c as real * f;
    assert u <= c as real by {
      assert c as real - u == c as real * (1.0 - f);
    }
    ClampMonotone(u, c as real);
    FloorMonotone(Max(Min(u, 255.0), 0.0), Max(Min(c as real, 255.0), 0.0));
  }

  lemma ClampMonotone(u: real, v: real)
    requires u <= v
    ensures Max(Min(u, 255.0), 0.0) <= Max(Min(v, 255.0), 0.0)
  {
  }

  lemma FloorMonotone(u: real, v: real)
    requires u <= v
    ensures u.Floor <= v.Floor
  {
    assert u.Floor as real <= u <= v < v.Floor as real + 1.0;
  }

  /** Factor one is the identity on every channel, so on the whole colour. */
  lemma DarkenIdentity(color: Color)
    ensures Darken(color, 1.0) == color
  {
  }

  /** Black stays black whatever the factor. */
  lemma DarkenBlack(factor: real)
    ensures Darken(BLACK, factor) == BLACK
  {
  }

  /** A tenth of grey 100 is grey 10. */
  lemma DarkenTenthOfGrey()
    ensures Darken(Color(100, 100, 100, 255), 0.1) == Color(10, 10, 10, 255)
  {
  }

  /** Pure red at the ambient floor 0.1 gives 25.5, truncated to 25. */
  lemma DarkenRedAtAmbientFloor()
    ensures Darken(Color(255, 0, 0, 255), 0.1) == Color(25, 0, 0, 255)
  {
  }
}
