/**
 * ViewContentTransformer as an object: the five parameters, the current and
 * default matrices and the target view are fields that its methods update in
 * place. Every method is proved to leave the object in the state the
 * functions of TransformerState prescribe.
 */
module ContentTransformer {
  import opened Matrices
  import opened Composition
  import opened TransformerState

  /** An android.graphics.Matrix object a caller hands in or gets back. */
  class MatrixCell {
    var values: Mat

    constructor (m: Mat)
      ensures values == m
    {
      values := m;
    }
  }

  /** An android.graphics.PointF object. */
  class PointCell {
    var x: real
    var y: real

    constructor (x: real, y: real)
      ensures this.x == x && this.y == y
    {
      this.x := x;
      this.y := y;
    }
  }

  /** Matrix.getValues: the nine values into the first nine slots of dst. */
  method GetValues(m: Mat, dst: array<real>)
    requires dst.Length >= 9
    modifies dst
    ensures dst[..9] == Values(m) && dst[9..] == old(dst[9..])
  {
    dst[0] := m.scaleX;
    dst[1] := m.skewX;
    dst[2] := m.transX;
    dst[3] := m.skewY;
    dst[4] := m.scaleY;
    dst[5] := m.transY;
    dst[6] := m.persp0;
    dst[7] := m.persp1;
    dst[8] := m.persp2;
  }

  class ViewContentTransformer {
    /** Which of the three implementations this object is. */
    const variant: Variant
    /** The platform's sine and cosine of an angle in degrees, used by postRotate. */
    const sinCos: real -> (real, real)
    /** The nine-float scratch buffer for reading the default matrix. */
    const work: array<real>

    var view: View
    var defaultTransform: Mat
    var transform: Mat
    var transX: real
    var transY: real
    var scaleX: real
    var scaleY: real
    var rotate: Rotation
    /** How many times the transformer has pushed to its view. */
    ghost var pushes: nat

    ghost predicate Valid()
      reads this
    {
      work.Length == 9 && InRange(rotate) && Accepts(variant, view.kind)
    }

    /** The five stored parameters. */
    function Current(): Params
      reads this
    {
      Params(transX, transY, scaleX, scaleY, rotate)
    }

    /** The whole state as a value. */
    ghost function Snapshot(): State
      reads this
    {
      State(Current(), transform, defaultTransform, view, pushes)
    }

    /**
     * The constructor of each variant: zero parameters and identity matrices,
     * then updateTransform(true).
     */
    constructor (variant: Variant, view: View, sinCos: real -> (real, real))
      requires Accepts(variant, view.kind)
      ensures Valid() && fresh(work)
      ensures this.variant == variant && this.sinCos == sinCos
      ensures Snapshot() == Initial(view, variant)
    {
      this.variant := variant;
      this.sinCos := sinCos;
      work := new real[9];
      this.view := view;
      defaultTransform := Identity;
      transform := Identity;
      transX := 0.0;
      transY := 0.0;
      scaleX := 0.0;
      scaleY := 0.0;
      rotate := Degrees(0.0);
      pushes := 0;
      new;
      UpdateTransform(true);
    }

    /** newInstance: the Texture variant for a TextureView, Image for an ImageView, Default otherwise. */
    static method NewInstance(view: View, sinCos: real -> (real, real)) returns (t: ViewContentTransformer)
      ensures fresh(t) && fresh(t.work) && t.Valid()
      ensures t.variant == VariantFor(view.kind) && t.sinCos == sinCos
      ensures t.Snapshot() == Initial(view, t.variant)
    {
      match view.kind
      case TextureViewKind => t := new ViewContentTransformer(TextureVariant, view, sinCos);
      case ImageViewKind => t := new ViewContentTransformer(ImageVariant, view, sinCos);
      case OtherViewKind => t := new ViewContentTransformer(DefaultVariant, view, sinCos);
    }

    /** updateTransform: read the view's matrix back (Texture, Image); nothing for the default variant. */
    method UpdateTransform(setAsDefault: bool)
      requires Valid()
      modifies this
      ensures Valid()
      ensures Snapshot() == Refreshed(old(Snapshot()), variant, setAsDefault)
    {
      match variant
      case DefaultVariant =>
      case _ =>
        transform := view.content;
        if setAsDefault {
          defaultTransform := transform;
        }
    }

    /**
     * Hand the current matrix to the view: the view's own matrix for Texture
     * and Image, the View properties from the five parameters for the default
     * variant (internalSetTransform, scaleX set twice as written).
     */
    method PushToView()
      requires Valid()
      modifies this
      ensures Valid()
      ensures Snapshot() == old(Snapshot()).(view := Pushed(variant, old(view), transform, Current()), pushes := old(pushes) + 1)
    {
      if variant != DefaultVariant {
        view := view.(content := transform);
      } else {
        view := view.(translationX := GetTranslateX());
        view := view.(translationY := GetTranslateY());
        view := view.(pivotX := Half(view.width) as real);
        view := view.(pivotY := Half(view.height) as real);
        view := view.(rotation := GetRotation());
        view := view.(scaleX := GetScaleX());
        view := view.(scaleX := GetScaleY());
      }
      pushes := pushes + 1;
    }

    /** setTransform(Matrix): copy the matrix (identity for null) and push it. */
    method SetTransformMatrix(m: MatrixCell?)
      requires Valid()
      modifies this
      ensures Valid()
      ensures Snapshot() == Adopted(old(Snapshot()), if m == null then Identity else m.values, variant)
    {
      if m == null {
        transform := Identity;
      } else {
        transform := m.values;
      }
      PushToView();
    }

    /** setTransform(float[]): the first nine values when there are nine or more, identity otherwise; then push. */
    method SetTransformValues(a: array?<real>)
      requires Valid()
      modifies this
      ensures Valid()
      ensures Snapshot() == Adopted(old(Snapshot()), if a != null && a.Length >= 9 then FromValues(a[..]) else Identity, variant)
    {
      if a != null && a.Length >= 9 {
        transform := FromValues(a[..]);
      } else {
        transform := Identity;
      }
      PushToView();
    }

    /**
     * getTransform(Matrix): fill the given matrix, or a new one when it is
     * null. The Texture variant hands out the view's own matrix.
     */
    method GetTransformMatrix(dst: MatrixCell?) returns (r: MatrixCell)
      modifies dst
      ensures dst != null ==> r == dst
      ensures dst == null ==> fresh(r)
      ensures r.values == if variant == TextureVariant then view.content else transform
    {
      var m := if variant == TextureVariant then view.content else transform;
      if dst != null {
        dst.values := m;
        r := dst;
      } else {
        r := new MatrixCell(m);
      }
    }

    /**
     * getTransform(float[]): write the nine values into the given array when it
     * holds nine or more, leaving the rest of it alone, and return it; else
     * return a new array of nine.
     */
    method GetTransformValues(dst: array?<real>) returns (r: array<real>)
      modifies dst
      ensures r.Length >= 9 && r[..9] == Values(transform)
      ensures dst != null && dst.Length >= 9 ==> r == dst && r[9..] == old(dst[9..])
      ensures dst == null || dst.Length < 9 ==> fresh(r) && r.Length == 9
    {
      if dst != null && dst.Length >= 9 {
        r := dst;
      } else {
        r := new real[9];
      }
      GetValues(transform, r);
    }

    /** setDefault: replace the default matrix; nothing is recomposed or pushed. */
    method SetDefault(m: MatrixCell)
      requires Valid()
      modifies this
      ensures Valid()
      ensures Snapshot() == old(Snapshot()).(defaultTransform := m.values)
    {
      defaultTransform := m.values;
    }

    /** reset: setTransform(Matrix) with the default matrix. */
    method Reset()
      requires Valid()
      modifies this
      ensures Valid()
      ensures Snapshot() == Adopted(old(Snapshot()), old(defaultTransform), variant)
      ensures transform == defaultTransform
    {
      transform := defaultTransform;
      PushToView();
    }

    /**
     * The five-parameter setTransform. When any value differs from the stored
     * one: store them, bring the angle into [-360, 360] unless it is
     * Float.MAX_VALUE, rebuild the matrix from identity (translate, scale by
     * the default matrix's scale entries about the centre, rotate about the
     * centre unless Float.MAX_VALUE) and push it.
     */
    method SetTransform(transX: real, transY: real, scaleX: real, scaleY: real, degrees: real)
      requires Valid()
      modifies this, work
      ensures Valid()
      ensures Snapshot() == ApplyParams(old(Snapshot()), Params(transX, transY, scaleX, scaleY, RotationOf(degrees)), variant, sinCos)
    {
      if this.transX != transX || this.transY != transY || this.scaleX != scaleX || this.scaleY != scaleY
         || AsFloat(rotate) != degrees {
        this.scaleX := scaleX;
        this.scaleY := scaleY;
        this.transX := transX;
        this.transY := transY;
        StoreRotation(degrees);
        Recompose();
        PushToView();
      }
    }

    /** Store the requested angle, brought into [-360, 360] by whole turns unless it is Float.MAX_VALUE. */
    method StoreRotation(degrees: real)
      requires Valid()
      modifies this
      ensures Valid()
      ensures Snapshot() == old(Snapshot()).(params := old(Current()).(rotate := NormalizeRotation(RotationOf(degrees))))
    {
      var current := degrees;
      if degrees != FloatMax {
        while current > 360.0
          invariant ReduceAbove(current) == ReduceAbove(degrees)
          decreases current.Floor
        {
          current := current - 360.0;
        }
        while current < -360.0
          invariant current <= 360.0
          invariant RaiseBelow(current) == NormalizeDegrees(degrees)
          decreases (-current).Floor
        {
          current := current + 360.0;
        }
        rotate := Degrees(current);
      } else {
        rotate := NoRotation;
      }
    }

    /**
     * Rebuild the current matrix: read the default matrix's two scale entries
     * through the work buffer, multiply them by the stored scales and build
     * the matrix about the view's centre.
     */
    method Recompose()
      requires Valid()
      modifies this, work
      ensures Valid()
      ensures Snapshot() == old(Snapshot()).(transform := Compose(Current(), defaultTransform, CentreX(view), CentreY(view), sinCos))
    {
      GetValues(defaultTransform, work);
      var w2 := Half(view.width);
      var h2 := Half(view.height);
      assert work[0] == Values(defaultTransform)[0] && work[4] == Values(defaultTransform)[4];
      ComposeSteps(Current(), defaultTransform, w2 as real, h2 as real, sinCos, work[0], work[4]);
      transform := BuildMatrix(transX, transY, ScaleFactor(work[0], scaleX), ScaleFactor(work[4], scaleY), w2 as real, h2 as real, rotate, sinCos);
    }

    /**
     * reset, postTranslate, postScale about the pivot, then postRotate about
     * the pivot unless the angle is the Float.MAX_VALUE sentinel.
     */
    static method BuildMatrix(tx: real, ty: real, kx: real, ky: real, px: real, py: real,
                              rotation: Rotation, sinCos: real -> (real, real)) returns (m: Mat)
      ensures m == Rotated(TranslateThenScale(tx, ty, kx, ky, px, py), rotation, px, py, sinCos)
    {
      m := Identity;
      m := PostTranslate(m, tx, ty);
      m := PostScale(m, kx, ky, px, py);
      ghost var scaled := m;
      if rotation.Degrees? {
        m := PostRotate(m, rotation.deg, px, py, sinCos);
      }
      RotatedSteps(scaled, rotation, px, py, sinCos);
    }

    /** setTranslate: new translation, the other parameters as stored. */
    method SetTranslate(x: real, y: real)
      requires Valid()
      modifies this, work
      ensures Valid()
      ensures Snapshot() == ApplyParams(old(Snapshot()), TranslateTo(old(Current()), x, y), variant, sinCos)
    {
      RotationOfAsFloat(rotate);
      SetTransform(x, y, scaleX, scaleY, GetRotation());
    }

    /** translate: add to the translation. */
    method Translate(dx: real, dy: real)
      requires Valid()
      modifies this, work
      ensures Valid()
      ensures Snapshot() == ApplyParams(old(Snapshot()), TranslateBy(old(Current()), dx, dy), variant, sinCos)
    {
      RotationOfAsFloat(rotate);
      SetTransform(transX + dx, transY + dy, scaleX, scaleY, GetRotation());
    }

    /** setScale(scaleX, scaleY): new scales, the other parameters as stored. */
    method SetScale(sx: real, sy: real)
      requires Valid()
      modifies this, work
      ensures Valid()
      ensures Snapshot() == ApplyParams(old(Snapshot()), ScaleTo(old(Current()), sx, sy), variant, sinCos)
    {
      RotationOfAsFloat(rotate);
      SetTransform(transX, transY, sx, sy, GetRotation());
    }

    /** setScale(scale): the same scale on both axes. */
    method SetScaleUniform(s: real)
      requires Valid()
      modifies this, work
      ensures Valid()
      ensures Snapshot() == ApplyParams(old(Snapshot()), ScaleTo(old(Current()), s, s), variant, sinCos)
    {
      RotationOfAsFloat(rotate);
      SetTransform(transX, transY, s, s, GetRotation());
    }

    /** scale(scaleX, scaleY): multiply the stored scales. */
    method Scale(sx: real, sy: real)
      requires Valid()
      modifies this, work
      ensures Valid()
      ensures Snapshot() == ApplyParams(old(Snapshot()), ScaleBy(old(Current()), sx, sy), variant, sinCos)
    {
      RotationOfAsFloat(rotate);
      assert ScaleBy(Current(), sx, sy) == Current().(scaleX := scaleX * sx, scaleY := scaleY * sy);
      SetTransform(transX, transY, scaleX * sx, scaleY * sy, GetRotation());
    }

    /** scale(scale): multiply both stored scales by the same factor. */
    method ScaleUniform(s: real)
      requires Valid()
      modifies this, work
      ensures Valid()
      ensures Snapshot() == ApplyParams(old(Snapshot()), ScaleBy(old(Current()), s, s), variant, sinCos)
    {
      RotationOfAsFloat(rotate);
      assert ScaleBy(Current(), s, s) == Current().(scaleX := scaleX * s, scaleY := scaleY * s);
      SetTransform(transX, transY, scaleX * s, scaleY * s, GetRotation());
    }

    /** setRotate: a new angle (Float.MAX_VALUE for no rotation), the other parameters as stored. */
    method SetRotate(degrees: real)
      requires Valid()
      modifies this, work
      ensures Valid()
      ensures Snapshot() == ApplyParams(old(Snapshot()), RotateTo(old(Current()), degrees), variant, sinCos)
    {
      SetTransform(transX, transY, scaleX, scaleY, degrees);
    }

    /** rotate: add to the stored angle. */
    method Rotate(degrees: real)
      requires Valid()
      modifies this, work
      ensures Valid()
      ensures Snapshot() == ApplyParams(old(Snapshot()), RotateBy(old(Current()), degrees), variant, sinCos)
    {
      var sum := if rotate.NoRotation? || degrees == FloatMax then FloatMax else rotate.deg + degrees;
      RotationOfAsFloat(Plus(rotate, degrees));
      SetTransform(transX, transY, scaleX, scaleY, sum);
    }

    /** getTranslate: fill the given point, or a new one when it is null. */
    method GetTranslate(dst: PointCell?) returns (r: PointCell)
      modifies dst
      ensures dst != null ==> r == dst
      ensures dst == null ==> fresh(r)
      ensures r.x == transX && r.y == transY
    {
      if dst != null {
        dst.x := transX;
        dst.y := transY;
        r := dst;
      } else {
        r := new PointCell(transX, transY);
      }
    }

    function GetTranslateX(): real
      reads this
    {
      transX
    }

    function GetTranslateY(): real
      reads this
    {
      transY
    }

    function GetScaleX(): real
      reads this
    {
      scaleX
    }

    function GetScaleY(): real
      reads this
    {
      scaleY
    }

    /** getScale: the smaller of the two scales. */
    function GetScale(): (r: real)
      reads this
      ensures r <= scaleX && r <= scaleY
      ensures r == scaleX || r == scaleY
    {
      if scaleX <= scaleY then scaleX else scaleY
    }

    /** getRotation: the stored angle, Float.MAX_VALUE for the sentinel. */
    function GetRotation(): (r: real)
      reads this
      ensures rotate.NoRotation? ==> r == FloatMax
      ensures rotate.Degrees? ==> r == rotate.deg
    {
      AsFloat(rotate)
    }
  }
}
