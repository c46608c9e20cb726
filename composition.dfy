/**
 * The decomposed transform parameters, the normalisation of a rotation angle
 * and the composition of the five parameters into one matrix, as the
 * five-parameter setTransform of ViewContentTransformer performs them.
 */
module Composition {
  import opened Matrices

  /**
   * A rotation as the transformer receives and stores it. NoRotation stands for
   * the sentinel Float.MAX_VALUE, which means "apply no rotation step".
   */
  datatype Rotation = Degrees(deg: real) | NoRotation

  /** Float.MAX_VALUE, (2 - 2^-23) * 2^127, written out exactly. */
  const FloatMax: real := 340282346638528859811704183484516925440.0

  /** The float a Rotation stands for: the sentinel is Float.MAX_VALUE. */
  function AsFloat(r: Rotation): (f: real)
    ensures r.Degrees? ==> f == r.deg
    ensures r.NoRotation? ==> f == FloatMax
  {
    match r
    case Degrees(d) => d
    case NoRotation => FloatMax
  }

  /** The rotation a float angle stands for: Float.MAX_VALUE is the sentinel. */
  function RotationOf(f: real): (r: Rotation)
    ensures AsFloat(r) == f
    ensures r.NoRotation? <==> f == FloatMax
  {
    if f == FloatMax then NoRotation else Degrees(f)
  }

  /** No Degrees value carries Float.MAX_VALUE itself: that float always means the sentinel. */
  predicate Canonical(r: Rotation) {
    r.Degrees? ==> r.deg != FloatMax
  }

  /** Reading a canonical rotation back as a float and classifying it again gives it back. */
  lemma RotationOfAsFloat(r: Rotation)
    requires Canonical(r)
    ensures RotationOf(AsFloat(r)) == r
  {
  }

  /**
   * The stored rotation plus a relative angle, as rotate(degrees) computes it
   * in float. Float.MAX_VALUE absorbs every angle of realistic size, so a
   * stored sentinel stays the sentinel, and adding Float.MAX_VALUE to a stored
   * angle (at most 360 in size) rounds to Float.MAX_VALUE, the sentinel.
   */
  function Plus(current: Rotation, delta: real): (r: Rotation)
    ensures current.NoRotation? || delta == FloatMax ==> r.NoRotation?
    ensures current.Degrees? && delta != FloatMax ==> AsFloat(r) == current.deg + delta
  {
    match current
    case NoRotation => NoRotation
    case Degrees(c) => if delta == FloatMax then NoRotation else RotationOf(c + delta)
  }

  /** The stored rotation lies in [-360, 360] unless it is the sentinel. */
  predicate InRange(r: Rotation)
    ensures InRange(r) ==> Canonical(r)
  {
    r.Degrees? ==> -360.0 <= r.deg <= 360.0
  }

  /** The first normalisation loop: subtract 360 while the angle exceeds 360. */
  function ReduceAbove(d: real): (r: real)
    ensures r <= 360.0
    ensures d > 360.0 ==> 0.0 < r
    ensures d <= 360.0 ==> r == d
    decreases d.Floor
  {
    if d > 360.0 then ReduceAbove(d - 360.0) else d
  }

  /** The second normalisation loop: add 360 while the angle is below -360. */
  function RaiseBelow(d: real): (r: real)
    ensures -360.0 <= r
    ensures d < -360.0 ==> r < 0.0
    ensures d >= -360.0 ==> r == d
    decreases (-d).Floor
  {
    if d < -360.0 then RaiseBelow(d + 360.0) else d
  }

  /**
   * The angle the two loops leave: within [-360, 360], unchanged when already
   * there, in (0, 360] when it started above 360 and in [-360, 0) when it
   * started below -360.
   */
  function NormalizeDegrees(d: real): (r: real)
    ensures -360.0 <= r <= 360.0
    ensures -360.0 <= d <= 360.0 ==> r == d
    ensures d > 360.0 ==> 0.0 < r
    ensures d < -360.0 ==> r < 0.0
  {
    RaiseBelow(ReduceAbove(d))
  }

  lemma {:induction false} ReduceAboveTurns(d: real) returns (k: nat)
    ensures ReduceAbove(d) == d - 360.0 * k as real
    decreases d.Floor
  {
    if d > 360.0 {
      k := ReduceAboveTurns(d - 360.0);
      k := k + 1;
    } else {
      k := 0;
    }
  }

  lemma {:induction false} RaiseBelowTurns(d: real) returns (k: nat)
    ensures RaiseBelow(d) == d + 360.0 * k as real
    decreases (-d).Floor
  {
    if d < -360.0 {
      k := RaiseBelowTurns(d + 360.0);
      k := k + 1;
    } else {
      k := 0;
    }
  }

  /** Normalisation moves the angle by a whole number of turns. */
  lemma NormalizeTurns(d: real) returns (k: int)
    ensures NormalizeDegrees(d) == d + 360.0 * k as real
  {
    var down := ReduceAboveTurns(d);
    var up := RaiseBelowTurns(ReduceAbove(d));
    k := up as int - down as int;
  }

  /** Normalising twice is normalising once. */
  lemma NormalizeIdempotent(d: real)
    ensures NormalizeDegrees(NormalizeDegrees(d)) == NormalizeDegrees(d)
  {
  }

  /** setRotate(725) stores 5 and setRotate(-725) stores -5; 720 and -720 stop at 360 and -360. */
  lemma NormalizeExamples()
    ensures NormalizeDegrees(725.0) == 5.0
    ensures NormalizeDegrees(-725.0) == -5.0
    ensures NormalizeDegrees(720.0) == 360.0
    ensures NormalizeDegrees(-720.0) == -360.0
  {
  }

  /** The five decomposed parameters: translate X/Y, scale X/Y and rotation. */
  datatype Params = Params(transX: real, transY: real, scaleX: real, scaleY: real, rotate: Rotation)

  /** The rotation the transformer stores for a requested one. */
  function NormalizeRotation(r: Rotation): (s: Rotation)
    ensures InRange(s)
    ensures r.NoRotation? <==> s.NoRotation?
    ensures s == r <==> InRange(r)
  {
    match r
    case Degrees(d) => Degrees(NormalizeDegrees(d))
    case NoRotation => NoRotation
  }

  /** The parameters the transformer stores for a request. */
  function Normalized(req: Params): (p: Params)
    ensures InRange(p.rotate)
    ensures p.transX == req.transX && p.transY == req.transY
    ensures p.scaleX == req.scaleX && p.scaleY == req.scaleY
    ensures p == req <==> InRange(req.rotate)
  {
    req.(rotate := NormalizeRotation(req.rotate))
  }

  /** `n >> 1` on a Java int: division by two rounded towards negative infinity. */
  function Half(n: int): (h: int)
    ensures 2 * h <= n <= 2 * h + 1
  {
    n / 2
  }

  /** The point (x, y) moved away from the pivot (px, py) by the factors kx and ky. */
  function Dilate(x: real, y: real, kx: real, ky: real, px: real, py: real): (real, real) {
    (px + kx * (x - px), py + ky * (y - py))
  }

  /** The point (x, y) turned about the pivot (px, py) by the angle with the given sine and cosine. */
  function Turn(x: real, y: real, sin: real, cos: real, px: real, py: real): (real, real) {
    (px + cos * (x - px) - sin * (y - py), py + sin * (x - px) + cos * (y - py))
  }

  /** The scaling matrix dilates every point about its pivot. */
  lemma ScaleMatrixDilates(sx: real, sy: real, px: real, py: real, x: real, y: real)
    ensures MapPoint(ScaleMatrix(sx, sy, px, py), x, y) == Dilate(x, y, sx, sy, px, py)
  {
    ScaleMatrixMaps(sx, sy, px, py, x, y);
  }

  /** The rotation matrix turns every point about its pivot. */
  lemma RotateMatrixTurns(sin: real, cos: real, px: real, py: real, x: real, y: real)
    ensures MapPoint(RotateMatrix(sin, cos, px, py), x, y) == Turn(x, y, sin, cos, px, py)
  {
    RotateMatrixMaps(sin, cos, px, py, x, y);
  }

  /** After postTranslate a point lands where m sent it, moved by (dx, dy). */
  lemma PostTranslateMaps(m: Mat, dx: real, dy: real, x: real, y: real)
    requires IsAffine(m)
    ensures var q := MapPoint(m, x, y);
      MapPoint(PostTranslate(m, dx, dy), x, y) == (q.0 + dx, q.1 + dy)
  {
    MapConcat(TranslateMatrix(dx, dy), m, x, y);
  }

  /** After postScale a point lands where m sent it, dilated about the pivot. */
  lemma PostScaleMaps(m: Mat, sx: real, sy: real, px: real, py: real, x: real, y: real)
    requires IsAffine(m)
    ensures var q := MapPoint(m, x, y);
      MapPoint(PostScale(m, sx, sy, px, py), x, y) == Dilate(q.0, q.1, sx, sy, px, py)
  {
    var q := MapPoint(m, x, y);
    MapConcat(ScaleMatrix(sx, sy, px, py), m, x, y);
    ScaleMatrixDilates(sx, sy, px, py, q.0, q.1);
  }

  /** After postRotate a point lands where m sent it, turned about the pivot. */
  lemma PostRotateMaps(m: Mat, degrees: real, px: real, py: real, sinCos: real -> (real, real), x: real, y: real)
    requires IsAffine(m)
    ensures var q := MapPoint(m, x, y);
      MapPoint(PostRotate(m, degrees, px, py, sinCos), x, y)
        == Turn(q.0, q.1, sinCos(degrees).0, sinCos(degrees).1, px, py)
  {
    var q := MapPoint(m, x, y);
    MapConcat(RotateMatrix(sinCos(degrees).0, sinCos(degrees).1, px, py), m, x, y);
    RotateMatrixTurns(sinCos(degrees).0, sinCos(degrees).1, px, py, q.0, q.1);
  }

  /** Neither scaling nor turning about a pivot moves the pivot. */
  lemma PivotStays(kx: real, ky: real, sin: real, cos: real, px: real, py: real)
    ensures Dilate(px, py, kx, ky, px, py) == (px, py)
    ensures Turn(px, py, sin, cos, px, py) == (px, py)
  {
  }

  /**
   * From identity, translate by (tx, ty) and then scale by (kx, ky) about the
   * pivot (px, py): the first two steps of the composition.
   */
  function TranslateThenScale(tx: real, ty: real, kx: real, ky: real, px: real, py: real): (m: Mat)
    ensures IsAffine(m)
  {
    PostScale(PostTranslate(Identity, tx, ty), kx, ky, px, py)
  }

  /** The first two steps in closed form: a pure scale with the translation scaled too. */
  lemma TranslateThenScaleForm(tx: real, ty: real, kx: real, ky: real, px: real, py: real)
    ensures TranslateThenScale(tx, ty, kx, ky, px, py)
         == Mat(kx, 0.0, kx * tx + px - kx * px, 0.0, ky, ky * ty + py - ky * py, 0.0, 0.0, 1.0)
  {
  }

  /** The first two steps move a point by the translation and then scale it about the pivot. */
  lemma TranslateThenScaleMaps(tx: real, ty: real, kx: real, ky: real, px: real, py: real, x: real, y: real)
    ensures MapPoint(TranslateThenScale(tx, ty, kx, ky, px, py), x, y) == Dilate(x + tx, y + ty, kx, ky, px, py)
  {
    TranslateThenScaleForm(tx, ty, kx, ky, px, py);
    var m := Mat(kx, 0.0, kx * tx + px - kx * px, 0.0, ky, ky * ty + py - ky * py, 0.0, 0.0, 1.0);
    assert MapPoint(m, x, y).0 == kx * x + 0.0 * y + (kx * tx + px - kx * px) == px + kx * (x + tx - px);
    assert MapPoint(m, x, y).1 == 0.0 * x + ky * y + (ky * ty + py - ky * py) == py + ky * (y + ty - py);
  }

  /** The factor postScale gets on one axis: the default matrix's scale entry times the stored scale. */
  function ScaleFactor(entry: real, scale: real): real {
    entry * scale
  }

  /**
   * The composed matrix: from identity, translate by (transX, transY), then
   * scale by the default matrix's two scale entries times (scaleX, scaleY)
   * about the pivot (px, py), then, unless the rotation is the sentinel,
   * rotate about the same pivot. The transformer passes the integer centre
   * (width >> 1, height >> 1) of the view as the pivot.
   */
  function Compose(p: Params, default: Mat, px: real, py: real, sinCos: real -> (real, real)): (m: Mat)
    ensures IsAffine(m)
  {
    var scaled := TranslateThenScale(p.transX, p.transY, ScaleFactor(default.scaleX, p.scaleX), ScaleFactor(default.scaleY, p.scaleY), px, py);
    Rotated(scaled, p.rotate, px, py, sinCos)
  }

  /** The composition is the rotation step applied to the first two steps, whichever copy of the default scale entries is read. */
  lemma ComposeSteps(p: Params, default: Mat, px: real, py: real, sinCos: real -> (real, real), sx: real, sy: real)
    requires sx == default.scaleX && sy == default.scaleY
    ensures Compose(p, default, px, py, sinCos)
         == Rotated(TranslateThenScale(p.transX, p.transY, ScaleFactor(sx, p.scaleX), ScaleFactor(sy, p.scaleY), px, py), p.rotate, px, py, sinCos)
  {
  }

  /** The last step: postRotate about the pivot, skipped for the sentinel. */
  function Rotated(m: Mat, r: Rotation, px: real, py: real, sinCos: real -> (real, real)): (n: Mat)
    ensures IsAffine(m) ==> IsAffine(n)
  {
    match r
    case Degrees(d) => PostRotate(m, d, px, py, sinCos)
    case NoRotation => m
  }

  /** The rotation step is postRotate by the stored angle, or nothing for the sentinel. */
  lemma RotatedSteps(m: Mat, r: Rotation, px: real, py: real, sinCos: real -> (real, real))
    ensures r.Degrees? ==> Rotated(m, r, px, py, sinCos) == PostRotate(m, r.deg, px, py, sinCos)
    ensures r.NoRotation? ==> Rotated(m, r, px, py, sinCos) == m
  {
  }

  /** The rotation step turns the image of a point about the pivot. */
  lemma RotatedMaps(m: Mat, r: Rotation, px: real, py: real, sinCos: real -> (real, real), x: real, y: real)
    requires IsAffine(m)
    ensures r.NoRotation? ==> MapPoint(Rotated(m, r, px, py, sinCos), x, y) == MapPoint(m, x, y)
    ensures r.Degrees? ==>
      var q := MapPoint(m, x, y);
      MapPoint(Rotated(m, r, px, py, sinCos), x, y) == Turn(q.0, q.1, sinCos(r.deg).0, sinCos(r.deg).1, px, py)
  {
    match r
    case NoRotation =>
    case Degrees(d) =>
      var q := MapPoint(m, x, y);
      var rot := RotateMatrix(sinCos(d).0, sinCos(d).1, px, py);
      assert Rotated(m, r, px, py, sinCos) == Concat(rot, m);
      MapConcat(rot, m, x, y);
      RotateMatrixMaps(sinCos(d).0, sinCos(d).1, px, py, q.0, q.1);
      var t := Turn(q.0, q.1, sinCos(d).0, sinCos(d).1, px, py);
      assert MapPoint(rot, q.0, q.1).0 == t.0 && MapPoint(rot, q.0, q.1).1 == t.1;
      assert MapPoint(Rotated(m, r, px, py, sinCos), x, y) == MapPoint(rot, q.0, q.1);
  }

  /**
   * What the composed matrix does to a point: move it by the translation,
   * scale it about the pivot, then turn it about the pivot by the sine and
   * cosine of the stored angle, unless the rotation is the sentinel.
   */
  lemma ComposeMaps(p: Params, default: Mat, px: real, py: real, sinCos: real -> (real, real), x: real, y: real)
    ensures
      var q := Dilate(x + p.transX, y + p.transY, ScaleFactor(default.scaleX, p.scaleX), ScaleFactor(default.scaleY, p.scaleY), px, py);
      MapPoint(Compose(p, default, px, py, sinCos), x, y) ==
        if p.rotate.NoRotation? then q
        else Turn(q.0, q.1, sinCos(p.rotate.deg).0, sinCos(p.rotate.deg).1, px, py)
  {
    var kx := ScaleFactor(default.scaleX, p.scaleX);
    var ky := ScaleFactor(default.scaleY, p.scaleY);
    var scaled := TranslateThenScale(p.transX, p.transY, kx, ky, px, py);
    TranslateThenScaleMaps(p.transX, p.transY, kx, ky, px, py, x, y);
    assert Compose(p, default, px, py, sinCos) == Rotated(scaled, p.rotate, px, py, sinCos);
    RotatedMaps(scaled, p.rotate, px, py, sinCos, x, y);
  }

  /**
   * Without translation the pivot is a fixed point of the composed matrix,
   * whatever the scale, the default matrix and the rotation.
   */
  lemma PivotFixed(p: Params, default: Mat, px: real, py: real, sinCos: real -> (real, real))
    requires p.transX == 0.0 && p.transY == 0.0
    ensures MapPoint(Compose(p, default, px, py, sinCos), px, py) == (px, py)
  {
    var kx := ScaleFactor(default.scaleX, p.scaleX);
    var ky := ScaleFactor(default.scaleY, p.scaleY);
    assert Dilate(px + p.transX, py + p.transY, kx, ky, px, py) == (px, py) by {
      assert px + p.transX == px && py + p.transY == py;
      PivotStays(kx, ky, 0.0, 1.0, px, py);
    }
    if p.rotate.Degrees? {
      var sc := sinCos(p.rotate.deg);
      assert Turn(px, py, sc.0, sc.1, px, py) == (px, py) by {
        PivotStays(kx, ky, sc.0, sc.1, px, py);
      }
    }
    ComposeMaps(p, default, px, py, sinCos, px, py);
  }

  /** Of the default matrix, the composition reads only the two scale entries. */
  lemma ComposeReadsDefaultScaleOnly(p: Params, d1: Mat, d2: Mat, px: real, py: real, sinCos: real -> (real, real))
    requires d1.scaleX == d2.scaleX && d1.scaleY == d2.scaleY
    ensures Compose(p, d1, px, py, sinCos) == Compose(p, d2, px, py, sinCos)
  {
    ComposeSteps(p, d1, px, py, sinCos, d1.scaleX, d1.scaleY);
    ComposeSteps(p, d2, px, py, sinCos, d1.scaleX, d1.scaleY);
  }

  /**
   * With the sentinel rotation the composed matrix is exactly translate then
   * scale about the pivot; no rotation entry appears.
   */
  lemma ComposeWithoutRotation(p: Params, default: Mat, px: real, py: real, sinCos: real -> (real, real))
    requires p.rotate.NoRotation?
    ensures
      var kx := ScaleFactor(default.scaleX, p.scaleX);
      var ky := ScaleFactor(default.scaleY, p.scaleY);
      Compose(p, default, px, py, sinCos) ==
        Mat(kx, 0.0, kx * p.transX + px - kx * px, 0.0, ky, ky * p.transY + py - ky * py, 0.0, 0.0, 1.0)
  {
    TranslateThenScaleForm(p.transX, p.transY, ScaleFactor(default.scaleX, p.scaleX), ScaleFactor(default.scaleY, p.scaleY), px, py);
  }

  /**
   * A 100 x 50 view with an identity default matrix, no translation, rotation
   * 0 and scale 2: the centre (50, 25) stays put and the origin goes to
   * (-50, -25). Only sin 0 = 0 and cos 0 = 1 are assumed of the trigonometry.
   */
  lemma ScaleAboutCentreExample(sinCos: real -> (real, real))
    requires sinCos(0.0) == (0.0, 1.0)
    ensures
      var m := Compose(Params(0.0, 0.0, 2.0, 2.0, Degrees(0.0)), Identity, Half(100) as real, Half(50) as real, sinCos);
      MapPoint(m, 50.0, 25.0) == (50.0, 25.0) && MapPoint(m, 0.0, 0.0) == (-50.0, -25.0)
  {
    assert Half(100) as real == 50.0 && Half(50) as real == 25.0;
    var p := Params(0.0, 0.0, 2.0, 2.0, Degrees(0.0));
    ComposeMaps(p, Identity, 50.0, 25.0, sinCos, 50.0, 25.0);
    ComposeMaps(p, Identity, 50.0, 25.0, sinCos, 0.0, 0.0);
  }
}
