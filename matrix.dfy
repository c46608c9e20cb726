/**
 * The 3x3 matrix algebra the transformer relies on, with the entries of
 * android.graphics.Matrix, over exact reals. Only the operations the
 * transformer uses are modelled: identity, the nine-value array form
 * (getValues/setValues), concatenation, the three "post" operations
 * (translate, scale about a pivot, rotate about a pivot) and the mapping of a
 * point through an affine matrix.
 */
module Matrices {

  /**
   * A 3x3 matrix, row by row: MSCALE_X, MSKEW_X, MTRANS_X / MSKEW_Y, MSCALE_Y,
   * MTRANS_Y / MPERSP_0, MPERSP_1, MPERSP_2.
   */
  datatype Mat = Mat(scaleX: real, skewX: real, transX: real,
                     skewY: real, scaleY: real, transY: real,
                     persp0: real, persp1: real, persp2: real)

  const Identity: Mat := Mat(1.0, 0.0, 0.0, 0.0, 1.0, 0.0, 0.0, 0.0, 1.0)

  /** The nine values in the order of Matrix.getValues (index MSCALE_X = 0 ... MPERSP_2 = 8). */
  function Values(m: Mat): (v: seq<real>)
    ensures |v| == 9
    ensures v[0] == m.scaleX && v[4] == m.scaleY && v[2] == m.transX && v[5] == m.transY
  {
    [m.scaleX, m.skewX, m.transX, m.skewY, m.scaleY, m.transY, m.persp0, m.persp1, m.persp2]
  }

  /** Matrix.setValues: the first nine values, in getValues order. */
  function FromValues(v: seq<real>): (m: Mat)
    requires |v| >= 9
    ensures Values(m) == v[..9]
  {
    Mat(v[0], v[1], v[2], v[3], v[4], v[5], v[6], v[7], v[8])
  }

  /** getValues followed by setValues gives the matrix back. */
  lemma FromValuesOfValues(m: Mat)
    ensures FromValues(Values(m)) == m
  {
  }

  /** The bottom row is (0, 0, 1): the matrix has no perspective part. */
  predicate IsAffine(m: Mat) {
    m.persp0 == 0.0 && m.persp1 == 0.0 && m.persp2 == 1.0
  }

  /** Where the affine matrix m sends the point (x, y). */
  function MapPoint(m: Mat, x: real, y: real): (real, real) {
    (m.scaleX * x + m.skewX * y + m.transX, m.skewY * x + m.scaleY * y + m.transY)
  }

  /** The product a * b: the transform that applies b first and then a. */
  function Concat(a: Mat, b: Mat): (r: Mat)
    ensures IsAffine(a) && IsAffine(b) ==> IsAffine(r)
  {
    Mat(a.scaleX * b.scaleX + a.skewX * b.skewY + a.transX * b.persp0,
        a.scaleX * b.skewX + a.skewX * b.scaleY + a.transX * b.persp1,
        a.scaleX * b.transX + a.skewX * b.transY + a.transX * b.persp2,
        a.skewY * b.scaleX + a.scaleY * b.skewY + a.transY * b.persp0,
        a.skewY * b.skewX + a.scaleY * b.scaleY + a.transY * b.persp1,
        a.skewY * b.transX + a.scaleY * b.transY + a.transY * b.persp2,
        a.persp0 * b.scaleX + a.persp1 * b.skewY + a.persp2 * b.persp0,
        a.persp0 * b.skewX + a.persp1 * b.scaleY + a.persp2 * b.persp1,
        a.persp0 * b.transX + a.persp1 * b.transY + a.persp2 * b.persp2)
  }

  /** One row of a * b applied to (x, y, 1), when b is affine, regrouped around b's image (q0, q1). */
  lemma RowRegroup(a0: real, a1: real, a2: real, b0: real, b1: real, b2: real,
                   b3: real, b4: real, b5: real, x: real, y: real, q0: real, q1: real)
    requires q0 == b0 * x + b1 * y + b2 && q1 == b3 * x + b4 * y + b5
    ensures (a0 * b0 + a1 * b3) * x + (a0 * b1 + a1 * b4) * y + (a0 * b2 + a1 * b5 + a2)
         == a0 * q0 + a1 * q1 + a2
  {
    assert a0 * q0 == a0 * (b0 * x + b1 * y + b2);
    assert a1 * q1 == a1 * (b3 * x + b4 * y + b5);
  }

  /** Mapping through a * b is mapping through b and then through a. */
  lemma MapConcat(a: Mat, b: Mat, x: real, y: real)
    requires IsAffine(b)
    ensures MapPoint(Concat(a, b), x, y) == MapPoint(a, MapPoint(b, x, y).0, MapPoint(b, x, y).1)
  {
    var r := Concat(a, b);
    var q := MapPoint(b, x, y);
    RowRegroup(a.scaleX, a.skewX, a.transX, b.scaleX, b.skewX, b.transX, b.skewY, b.scaleY, b.transY, x, y, q.0, q.1);
    RowRegroup(a.skewY, a.scaleY, a.transY, b.scaleX, b.skewX, b.transX, b.skewY, b.scaleY, b.transY, x, y, q.0, q.1);
    assert r.scaleX == a.scaleX * b.scaleX + a.skewX * b.skewY && r.skewX == a.scaleX * b.skewX + a.skewX * b.scaleY
        && r.transX == a.scaleX * b.transX + a.skewX * b.transY + a.transX;
    assert r.skewY == a.skewY * b.scaleX + a.scaleY * b.skewY && r.scaleY == a.skewY * b.skewX + a.scaleY * b.scaleY
        && r.transY == a.skewY * b.transX + a.scaleY * b.transY + a.transY;
    assert MapPoint(r, x, y).0 == MapPoint(a, q.0, q.1).0;
    assert MapPoint(r, x, y).1 == MapPoint(a, q.0, q.1).1;
  }

  /** The translation matrix Skia builds for translate(dx, dy). */
  function TranslateMatrix(dx: real, dy: real): (t: Mat)
    ensures IsAffine(t)
    ensures forall x, y :: MapPoint(t, x, y) == (x + dx, y + dy)
  {
    Mat(1.0, 0.0, dx, 0.0, 1.0, dy, 0.0, 0.0, 1.0)
  }

  /** The matrix Skia builds for scale(sx, sy) about the pivot (px, py). */
  function ScaleMatrix(sx: real, sy: real, px: real, py: real): (s: Mat)
    ensures IsAffine(s)
  {
    Mat(sx, 0.0, px - sx * px, 0.0, sy, py - sy * py, 0.0, 0.0, 1.0)
  }

  /**
   * The matrix Skia builds (setSinCos) for a rotation with the given sine and
   * cosine about the pivot (px, py).
   */
  function RotateMatrix(sin: real, cos: real, px: real, py: real): (m: Mat)
    ensures IsAffine(m)
  {
    Mat(cos, -sin, sin * py + (1.0 - cos) * px,
        sin, cos, -sin * px + (1.0 - cos) * py,
        0.0, 0.0, 1.0)
  }

  /** The scaling matrix moves every point away from the pivot by the scale factors. */
  lemma ScaleMatrixMaps(sx: real, sy: real, px: real, py: real, x: real, y: real)
    ensures MapPoint(ScaleMatrix(sx, sy, px, py), x, y) == (px + sx * (x - px), py + sy * (y - py))
  {
    assert sx * (x - px) == sx * x - sx * px;
    assert sy * (y - py) == sy * y - sy * py;
    var s := ScaleMatrix(sx, sy, px, py);
    assert MapPoint(s, x, y).0 == sx * x + 0.0 * y + (px - sx * px) == px + sx * (x - px);
    assert MapPoint(s, x, y).1 == 0.0 * x + sy * y + (py - sy * py) == py + sy * (y - py);
  }

  /** The rotation matrix turns every point about the pivot. */
  lemma RotateMatrixMaps(sin: real, cos: real, px: real, py: real, x: real, y: real)
    ensures MapPoint(RotateMatrix(sin, cos, px, py), x, y)
         == (px + cos * (x - px) - sin * (y - py), py + sin * (x - px) + cos * (y - py))
  {
    assert cos * (x - px) == cos * x - cos * px;
    assert sin * (y - py) == sin * y - sin * py;
    assert sin * (x - px) == sin * x - sin * px;
    assert cos * (y - py) == cos * y - cos * py;
    assert (1.0 - cos) * px == px - cos * px;
    assert (1.0 - cos) * py == py - cos * py;
    var m := RotateMatrix(sin, cos, px, py);
    assert MapPoint(m, x, y).0 == cos * x + -sin * y + (sin * py + (1.0 - cos) * px)
                              == px + cos * (x - px) - sin * (y - py);
    assert MapPoint(m, x, y).1 == sin * x + cos * y + (-sin * px + (1.0 - cos) * py)
                              == py + sin * (x - px) + cos * (y - py);
  }

  /** Matrix.postTranslate: m is followed by the translation. */
  function PostTranslate(m: Mat, dx: real, dy: real): (r: Mat)
    ensures IsAffine(m) ==> IsAffine(r)
  {
    Concat(TranslateMatrix(dx, dy), m)
  }

  /** Matrix.postScale with a pivot: m is followed by the scaling about (px, py). */
  function PostScale(m: Mat, sx: real, sy: real, px: real, py: real): (r: Mat)
    ensures IsAffine(m) ==> IsAffine(r)
  {
    Concat(ScaleMatrix(sx, sy, px, py), m)
  }

  /**
   * Matrix.postRotate with a pivot. The sine and cosine of the angle come from
   * sinCos, which stands for the platform's trigonometry (in degrees).
   */
  function PostRotate(m: Mat, degrees: real, px: real, py: real, sinCos: real -> (real, real)): (r: Mat)
    ensures IsAffine(m) ==> IsAffine(r)
  {
    Concat(RotateMatrix(sinCos(degrees).0, sinCos(degrees).1, px, py), m)
  }
}
