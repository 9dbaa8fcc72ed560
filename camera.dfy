/**
 * The fixed camera: at the origin, looking down +z with a 90 degree field of
 * view. A pixel maps to the view vector through the pixel centre, which is
 * then normalised.
 */
module Camera {
  import opened Vectors

  /**
   * The view vector of pixel `(x, y)` before normalisation. The half width and
   * half height are integer divisions, as in 32-bit integer arithmetic on
   * non-negative values; the depth is the real half width. Pixel rows go
   * down while view y goes up.
   */
  function ViewVector(x: nat, y: nat, width: nat, height: nat): Vector3 {
    Vector3((x - width / 2) as real + 0.5, (height / 2 - y) as real - 0.5, width as real / 2.0)
  }

  /**
   * The primary ray direction for a pixel: the view vector divided by its
   * length, or the view vector itself when that length is zero.
   */
  function RayFromPixel(x: nat, y: nat, width: nat, height: nat, sqrt: real -> real): (d: Vector3)
    ensures var v := ViewVector(x, y, width, height);
            Length(v, sqrt) != 0.0 ==> Scale(d, Length(v, sqrt)) == v
    ensures Length(ViewVector(x, y, width, height), sqrt) == 0.0 ==> d == ViewVector(x, y, width, height)
  {
    Normalize(ViewVector(x, y, width, height), sqrt)
  }

  /**
   * The 90 degree field of view: for an even width, neighbouring columns are
   * one unit apart at depth `width / 2`, and the outer edges of the first and
   * last columns lie at `-depth` and `+depth`, 45 degrees either side.
   */
  lemma FieldOfView90(x: nat, y: nat, width: nat, height: nat)
    requires width > 0 && width % 2 == 0 && x + 1 < width
    ensures ViewVector(x + 1, y, width, height).x == ViewVector(x, y, width, height).x + 1.0
    ensures ViewVector(0, y, width, height).x - 0.5 == -ViewVector(0, y, width, height).z
    ensures ViewVector(width - 1, y, width, height).x + 0.5 == ViewVector(width - 1, y, width, height).z
  {
  }

  /** For a positive width the view vector points forward, so it is never zero. */
  lemma ViewVectorForward(x: nat, y: nat, width: nat, height: nat)
    requires width > 0
    ensures ViewVector(x, y, width, height).z > 0.0
    ensures ViewVector(x, y, width, height) != Zero
  {
  }

  /**
   * For an even width the columns are placed symmetrically about the centre:
   * column `x` and its mirror `width - 1 - x` have opposite horizontal offsets.
   */
  lemma ColumnsSymmetric(x: nat, y: nat, width: nat, height: nat)
    requires x < width && width % 2 == 0
    ensures ViewVector(width - 1 - x, y, width, height).x == -ViewVector(x, y, width, height).x
  {
  }

  /**
   * For an even height the rows are placed symmetrically about the centre,
   * with row 0 at the top (positive view y).
   */
  lemma RowsSymmetric(x: nat, y: nat, width: nat, height: nat)
    requires y < height && height % 2 == 0
    ensures ViewVector(x, height - 1 - y, width, height).y == -ViewVector(x, y, width, height).y
    ensures ViewVector(x, 0, width, height).y > 0.0
  {
  }
}
