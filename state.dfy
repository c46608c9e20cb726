/**
 * The transformer's state as a value, and what each of its operations does to
 * that value. The class in transformer.dfy is proved against these functions;
 * the lemmas here state what the transformer promises across calls.
 */
module TransformerState {
  import opened Matrices
  import opened Composition

  /** The kind of view a transformer is created for. */
  datatype ViewKind = TextureViewKind | ImageViewKind | OtherViewKind

  /**
   * The target view, as far as the transformer reads and writes it: its kind,
   * its size, its content matrix (the TextureView transform or the ImageView
   * image matrix) and the View properties translation, pivot, rotation and
   * scale.
   */
  datatype View = View(kind: ViewKind, width: int, height: int, content: Mat,
                       translationX: real, translationY: real,
                       pivotX: real, pivotY: real,
                       rotation: real, scaleX: real, scaleY: real)

  /** The three implementations: TextureViewTransformer, ImageViewTransformer, DefaultTransformer. */
  datatype Variant = TextureVariant | ImageVariant | DefaultVariant

  /** newInstance: the variant chosen for a view of the given kind. */
  function VariantFor(kind: ViewKind): (v: Variant)
    ensures v == TextureVariant <==> kind == TextureViewKind
    ensures v == ImageVariant <==> kind == ImageViewKind
    ensures v == DefaultVariant <==> kind == OtherViewKind
  {
    match kind
    case TextureViewKind => TextureVariant
    case ImageViewKind => ImageVariant
    case OtherViewKind => DefaultVariant
  }

  /**
   * The views each variant's constructor takes: a TextureView, an ImageView,
   * and any view for the default variant.
   */
  predicate Accepts(variant: Variant, kind: ViewKind) {
    (variant == TextureVariant ==> kind == TextureViewKind) && (variant == ImageVariant ==> kind == ImageViewKind)
  }

  /**
   * Everything the transformer holds: the five parameters, the current and the
   * default matrix, the view it drives, and how many times it has pushed to
   * that view.
   */
  datatype State = State(params: Params, transform: Mat, defaultTransform: Mat, view: View, pushes: nat)

  /** The five parameters of a new transformer: every float field starts at 0. */
  const Zero: Params := Params(0.0, 0.0, 0.0, 0.0, Degrees(0.0))

  /** The pivot of the composition, the integer centre of the view. */
  function CentreX(v: View): real {
    Half(v.width) as real
  }

  function CentreY(v: View): real {
    Half(v.height) as real
  }

  /**
   * The view after a push of matrix m with parameters p. Texture and Image
   * views take the matrix. The default variant writes the View properties from
   * the five parameters, as written: scaleX is set twice, the second time to
   * the Y scale, and scaleY is never set.
   */
  function Pushed(variant: Variant, v: View, m: Mat, p: Params): (w: View)
    ensures w.kind == v.kind && w.width == v.width && w.height == v.height
  {
    match variant
    case TextureVariant => v.(content := m)
    case ImageVariant => v.(content := m)
    case DefaultVariant =>
      v.(translationX := p.transX, translationY := p.transY,
         pivotX := CentreX(v), pivotY := CentreY(v),
         rotation := AsFloat(p.rotate), scaleX := p.scaleY)
  }

  /**
   * The raw setters and reset: the matrix is stored verbatim and pushed; the
   * five parameters and the default matrix are left alone.
   */
  function Adopted(s: State, m: Mat, variant: Variant): (r: State)
    ensures r.params == s.params && r.defaultTransform == s.defaultTransform
    ensures r.transform == m && r.pushes == s.pushes + 1
  {
    s.(transform := m, view := Pushed(variant, s.view, m, s.params), pushes := s.pushes + 1)
  }

  /**
   * The five-parameter setTransform: nothing happens when the request equals
   * the stored parameters; otherwise the normalised request is stored, the
   * matrix is composed afresh about the view's centre and pushed.
   */
  function ApplyParams(s: State, req: Params, variant: Variant, sinCos: real -> (real, real)): (r: State)
    ensures r.defaultTransform == s.defaultTransform
    ensures r.view.kind == s.view.kind && r.view.width == s.view.width && r.view.height == s.view.height
  {
    if req == s.params then s
    else
      var p := Normalized(req);
      Adopted(s.(params := p), Compose(p, s.defaultTransform, CentreX(s.view), CentreY(s.view), sinCos), variant)
  }

  /**
   * updateTransform(setAsDefault): Texture and Image read the view's matrix
   * into the current matrix, and into the default one too when asked; the
   * default variant does nothing.
   */
  function Refreshed(s: State, variant: Variant, setAsDefault: bool): (r: State)
    ensures r.params == s.params && r.view == s.view && r.pushes == s.pushes
  {
    match variant
    case DefaultVariant => s
    case _ =>
      s.(transform := s.view.content,
         defaultTransform := if setAsDefault then s.view.content else s.defaultTransform)
  }

  /** A new transformer: zero parameters, identity matrices, then updateTransform(true). */
  function Initial(view: View, variant: Variant): (s: State)
    ensures s.params == Zero && s.view == view && s.pushes == 0
  {
    Refreshed(State(Zero, Identity, Identity, view, 0), variant, true)
  }

  /**
   * The requests the public mutators route through the five-parameter setTransform:
   * each replaces the parameters it is about and passes the others on as they are.
   */
  function TranslateTo(p: Params, x: real, y: real): (r: Params)
    ensures r.transX == x && r.transY == y
    ensures r.scaleX == p.scaleX && r.scaleY == p.scaleY && r.rotate == p.rotate
  {
    p.(transX := x, transY := y)
  }

  function TranslateBy(p: Params, dx: real, dy: real): (r: Params)
    ensures r.transX - p.transX == dx && r.transY - p.transY == dy
    ensures r.scaleX == p.scaleX && r.scaleY == p.scaleY && r.rotate == p.rotate
  {
    p.(transX := p.transX + dx, transY := p.transY + dy)
  }

  function ScaleTo(p: Params, sx: real, sy: real): (r: Params)
    ensures r.scaleX == sx && r.scaleY == sy
    ensures r.transX == p.transX && r.transY == p.transY && r.rotate == p.rotate
  {
    p.(scaleX := sx, scaleY := sy)
  }

  function ScaleBy(p: Params, sx: real, sy: real): (r: Params)
    ensures p.scaleX != 0.0 ==> r.scaleX / p.scaleX == sx
    ensures p.scaleY != 0.0 ==> r.scaleY / p.scaleY == sy
    ensures p.scaleX == 0.0 ==> r.scaleX == 0.0
    ensures p.scaleY == 0.0 ==> r.scaleY == 0.0
    ensures r.transX == p.transX && r.transY == p.transY && r.rotate == p.rotate
  {
    p.(scaleX := p.scaleX * sx, scaleY := p.scaleY * sy)
  }

  function RotateTo(p: Params, degrees: real): (r: Params)
    ensures AsFloat(r.rotate) == degrees
    ensures r.transX == p.transX && r.transY == p.transY
    ensures r.scaleX == p.scaleX && r.scaleY == p.scaleY
  {
    p.(rotate := RotationOf(degrees))
  }

  function RotateBy(p: Params, degrees: real): (r: Params)
    ensures p.rotate.Degrees? && degrees != FloatMax ==> AsFloat(r.rotate) == AsFloat(p.rotate) + degrees
    ensures p.rotate.NoRotation? || degrees == FloatMax ==> r.rotate.NoRotation?
    ensures r.transX == p.transX && r.transY == p.transY
    ensures r.scaleX == p.scaleX && r.scaleY == p.scaleY
  {
    p.(rotate := Plus(p.rotate, degrees))
  }

  /** For Texture and Image, the view shows the current matrix. */
  predicate Synced(s: State, variant: Variant) {
    variant != DefaultVariant ==> s.view.content == s.transform
  }

  // ---------------------------------------------------------------------------
  // Construction and dispatch

  /**
   * A new Texture or Image transformer takes the view's matrix as both current
   * and default; a default-variant transformer keeps identity for both.
   */
  lemma InitialMatrices(view: View, variant: Variant)
    ensures variant != DefaultVariant ==>
      Initial(view, variant).transform == view.content && Initial(view, variant).defaultTransform == view.content
    ensures variant == DefaultVariant ==>
      Initial(view, variant).transform == Identity && Initial(view, variant).defaultTransform == Identity
    ensures Synced(Initial(view, variant), variant)
  {
  }

  /**
   * Because the scales start at 0, the first update of a new transformer that
   * moves only the translation composes a matrix with zero scale: it sends
   * every point to the view's centre, and the default variant sets the view's
   * scaleX to 0.
   */
  lemma FreshTranslateCollapses(view: View, variant: Variant, sinCos: real -> (real, real), x: real, y: real, a: real, b: real)
    requires x != 0.0 || y != 0.0
    ensures
      var s := Initial(view, variant);
      var r := ApplyParams(s, TranslateTo(s.params, x, y), variant, sinCos);
      MapPoint(r.transform, a, b) == (CentreX(view), CentreY(view)) &&
      (variant == DefaultVariant ==> r.view.scaleX == 0.0)
  {
    var s := Initial(view, variant);
    var req := TranslateTo(s.params, x, y);
    var px := CentreX(view);
    var py := CentreY(view);
    assert req.rotate == Degrees(0.0) && req.scaleX == 0.0 && req.scaleY == 0.0;
    ComposeMaps(req, s.defaultTransform, px, py, sinCos, a, b);
    assert ScaleFactor(s.defaultTransform.scaleX, req.scaleX) == 0.0 && ScaleFactor(s.defaultTransform.scaleY, req.scaleY) == 0.0;
    DilateByZero(a + x, b + y, px, py);
    PivotStays(0.0, 0.0, sinCos(0.0).0, sinCos(0.0).1, px, py);
  }

  /** A zero scale sends every point to the pivot. */
  lemma DilateByZero(x: real, y: real, px: real, py: real)
    ensures Dilate(x, y, 0.0, 0.0, px, py) == (px, py)
  {
    assert 0.0 * (x - px) == 0.0 && 0.0 * (y - py) == 0.0;
  }

  // ---------------------------------------------------------------------------
  // The five-parameter update

  /**
   * The update pushes exactly when the request differs from the stored
   * parameters, and an unchanged request leaves everything as it was.
   */
  lemma PushesExactlyOnChange(s: State, req: Params, variant: Variant, sinCos: real -> (real, real))
    ensures ApplyParams(s, req, variant, sinCos) == s <==> req == s.params
    ensures ApplyParams(s, req, variant, sinCos).pushes == if req == s.params then s.pushes else s.pushes + 1
  {
  }

  /** After an update the stored parameters are the normalised request. */
  lemma StoredParams(s: State, req: Params, variant: Variant, sinCos: real -> (real, real))
    requires InRange(s.params.rotate)
    ensures ApplyParams(s, req, variant, sinCos).params == Normalized(req)
  {
  }

  /**
   * After an update that does not request the sentinel, the stored rotation
   * lies in [-360, 360], differs from the requested angle by k whole turns,
   * and equals the request when that was already in range.
   */
  lemma RotationAfterUpdate(s: State, req: Params, variant: Variant, sinCos: real -> (real, real)) returns (k: int)
    requires InRange(s.params.rotate)
    requires req.rotate.Degrees?
    ensures var r := ApplyParams(s, req, variant, sinCos).params.rotate;
      r.Degrees? && -360.0 <= r.deg <= 360.0 && r.deg == req.rotate.deg + 360.0 * k as real
    ensures InRange(req.rotate) ==> ApplyParams(s, req, variant, sinCos).params.rotate == req.rotate
  {
    StoredParams(s, req, variant, sinCos);
    k := NormalizeTurns(req.rotate.deg);
  }

  /**
   * A request repeated at once changes nothing more than the push count, and
   * it pushes again exactly when its angle was out of range: setRotate(725)
   * stores 5, so the same request differs from the stored value every time.
   */
  lemma SameRequestTwice(s: State, req: Params, variant: Variant, sinCos: real -> (real, real))
    requires InRange(s.params.rotate)
    requires req != s.params
    ensures
      var s1 := ApplyParams(s, req, variant, sinCos);
      var s2 := ApplyParams(s1, req, variant, sinCos);
      s2.(pushes := s1.pushes) == s1 && (s2.pushes == s1.pushes <==> InRange(req.rotate))
  {
    var s1 := ApplyParams(s, req, variant, sinCos);
    var p := Normalized(req);
    assert s1.params == p;
    if req != p {
      var m := Compose(p, s.defaultTransform, CentreX(s.view), CentreY(s.view), sinCos);
      assert s1.transform == m;
      PushedTwice(variant, s.view, m, p);
    }
  }

  /** Pushing the same matrix and parameters twice is pushing them once. */
  lemma PushedTwice(variant: Variant, v: View, m: Mat, p: Params)
    ensures Pushed(variant, Pushed(variant, v, m, p), m, p) == Pushed(variant, v, m, p)
  {
  }

  /**
   * With the sentinel the rotation is stored verbatim and the matrix is exactly
   * translate then scale about the view's centre, with no rotation entries.
   */
  lemma SentinelUpdate(s: State, req: Params, variant: Variant, sinCos: real -> (real, real))
    requires req.rotate.NoRotation? && req != s.params
    ensures
      var r := ApplyParams(s, req, variant, sinCos);
      var kx := ScaleFactor(s.defaultTransform.scaleX, req.scaleX);
      var ky := ScaleFactor(s.defaultTransform.scaleY, req.scaleY);
      var px := CentreX(s.view);
      var py := CentreY(s.view);
      r.params.rotate == NoRotation &&
      r.transform == Mat(kx, 0.0, kx * req.transX + px - kx * px, 0.0, ky, ky * req.transY + py - ky * py, 0.0, 0.0, 1.0)
  {
    assert Normalized(req) == req;
    ComposeWithoutRotation(req, s.defaultTransform, CentreX(s.view), CentreY(s.view), sinCos);
  }

  /**
   * The composed matrix is built from scratch: two states that agree on the
   * stored parameters, on the two scale entries of the default matrix and on
   * the view's size get the same matrix from the same request, whatever their
   * current matrices and the rest of their default matrices.
   */
  lemma ComposedFromScratch(s: State, t: State, req: Params, variant: Variant, sinCos: real -> (real, real))
    requires s.params == t.params && req != s.params
    requires s.defaultTransform.scaleX == t.defaultTransform.scaleX
    requires s.defaultTransform.scaleY == t.defaultTransform.scaleY
    requires s.view.width == t.view.width && s.view.height == t.view.height
    ensures ApplyParams(s, req, variant, sinCos).transform == ApplyParams(t, req, variant, sinCos).transform
  {
    ComposeReadsDefaultScaleOnly(Normalized(req), s.defaultTransform, t.defaultTransform,
                                 CentreX(s.view), CentreY(s.view), sinCos);
  }

  /** Without translation the view's centre stays where it is, whatever the scale and rotation. */
  lemma CentreFixedAfterUpdate(s: State, req: Params, variant: Variant, sinCos: real -> (real, real))
    requires req.transX == 0.0 && req.transY == 0.0 && req != s.params
    ensures MapPoint(ApplyParams(s, req, variant, sinCos).transform, CentreX(s.view), CentreY(s.view))
         == (CentreX(s.view), CentreY(s.view))
  {
    PivotFixed(Normalized(req), s.defaultTransform, CentreX(s.view), CentreY(s.view), sinCos);
  }

  // ---------------------------------------------------------------------------
  // The mutators

  /**
   * setTranslate replaces the translation and translate adds to it; the
   * other parameters pass through unchanged.
   */
  lemma TranslateStores(s: State, variant: Variant, sinCos: real -> (real, real), a: real, b: real)
    requires InRange(s.params.rotate)
    ensures ApplyParams(s, TranslateTo(s.params, a, b), variant, sinCos).params == s.params.(transX := a, transY := b)
    ensures ApplyParams(s, TranslateBy(s.params, a, b), variant, sinCos).params
         == s.params.(transX := s.params.transX + a, transY := s.params.transY + b)
  {
    StoredParams(s, TranslateTo(s.params, a, b), variant, sinCos);
    StoredParams(s, TranslateBy(s.params, a, b), variant, sinCos);
  }

  /**
   * setScale replaces the scales and scale multiplies them; the other
   * parameters pass through unchanged.
   */
  lemma ScaleStores(s: State, variant: Variant, sinCos: real -> (real, real), a: real, b: real)
    requires InRange(s.params.rotate)
    ensures ApplyParams(s, ScaleTo(s.params, a, b), variant, sinCos).params == s.params.(scaleX := a, scaleY := b)
    ensures ApplyParams(s, ScaleBy(s.params, a, b), variant, sinCos).params
         == s.params.(scaleX := s.params.scaleX * a, scaleY := s.params.scaleY * b)
  {
    StoredParams(s, ScaleTo(s.params, a, b), variant, sinCos);
    var req := ScaleBy(s.params, a, b);
    assert Normalized(req) == s.params.(scaleX := s.params.scaleX * a, scaleY := s.params.scaleY * b);
    StoredParams(s, req, variant, sinCos);
  }

  /**
   * setRotate replaces the angle and rotate adds to it, the result being
   * normalised; the other parameters pass through unchanged.
   */
  lemma RotateStores(s: State, variant: Variant, sinCos: real -> (real, real), d: real)
    requires InRange(s.params.rotate)
    ensures ApplyParams(s, RotateTo(s.params, d), variant, sinCos).params
         == s.params.(rotate := NormalizeRotation(RotationOf(d)))
    ensures ApplyParams(s, RotateBy(s.params, d), variant, sinCos).params
         == s.params.(rotate := NormalizeRotation(Plus(s.params.rotate, d)))
  {
    StoredParams(s, RotateTo(s.params, d), variant, sinCos);
    StoredParams(s, RotateBy(s.params, d), variant, sinCos);
  }

  /** translate adds: two relative moves store the sum of their offsets. */
  lemma TranslateTwice(s: State, variant: Variant, sinCos: real -> (real, real), dx1: real, dy1: real, dx2: real, dy2: real)
    requires InRange(s.params.rotate)
    ensures
      var s1 := ApplyParams(s, TranslateBy(s.params, dx1, dy1), variant, sinCos);
      var s2 := ApplyParams(s1, TranslateBy(s1.params, dx2, dy2), variant, sinCos);
      s2.params == ApplyParams(s, TranslateBy(s.params, dx1 + dx2, dy1 + dy2), variant, sinCos).params
  {
    var s1 := ApplyParams(s, TranslateBy(s.params, dx1, dy1), variant, sinCos);
    StoredParams(s, TranslateBy(s.params, dx1, dy1), variant, sinCos);
    StoredParams(s1, TranslateBy(s1.params, dx2, dy2), variant, sinCos);
    StoredParams(s, TranslateBy(s.params, dx1 + dx2, dy1 + dy2), variant, sinCos);
  }

  /** scale multiplies: two relative scalings store the product of their factors. */
  lemma ScaleTwice(s: State, variant: Variant, sinCos: real -> (real, real), sx1: real, sy1: real, sx2: real, sy2: real)
    requires InRange(s.params.rotate)
    ensures
      var s1 := ApplyParams(s, ScaleBy(s.params, sx1, sy1), variant, sinCos);
      var s2 := ApplyParams(s1, ScaleBy(s1.params, sx2, sy2), variant, sinCos);
      s2.params == ApplyParams(s, ScaleBy(s.params, sx1 * sx2, sy1 * sy2), variant, sinCos).params
  {
    var p1 := ScaleBy(s.params, sx1, sy1);
    var s1 := ApplyParams(s, p1, variant, sinCos);
    StoredParams(s, p1, variant, sinCos);
    assert s1.params == p1;
    var p2 := ScaleBy(p1, sx2, sy2);
    StoredParams(s1, p2, variant, sinCos);
    var once := ScaleBy(s.params, sx1 * sx2, sy1 * sy2);
    StoredParams(s, once, variant, sinCos);
    ScaleByTwice(s.params, sx1, sy1, sx2, sy2);
  }

  lemma ScaleByTwice(p: Params, sx1: real, sy1: real, sx2: real, sy2: real)
    ensures ScaleBy(ScaleBy(p, sx1, sy1), sx2, sy2) == ScaleBy(p, sx1 * sx2, sy1 * sy2)
  {
    assert p.scaleX * sx1 * sx2 == p.scaleX * (sx1 * sx2);
    assert p.scaleY * sy1 * sy2 == p.scaleY * (sy1 * sy2);
  }

  /**
   * rotate adds modulo whole turns: two relative rotations store an angle
   * that differs by whole turns from the one a single rotation by the sum
   * stores (not always the same angle, since both -360 and 360 are kept).
   */
  lemma RotateTwice(s: State, variant: Variant, sinCos: real -> (real, real), d1: real, d2: real) returns (k: int)
    requires InRange(s.params.rotate) && s.params.rotate.Degrees?
    requires -FloatMax / 4.0 <= d1 <= FloatMax / 4.0 && -FloatMax / 4.0 <= d2 <= FloatMax / 4.0
    ensures
      var s1 := ApplyParams(s, RotateBy(s.params, d1), variant, sinCos);
      var s2 := ApplyParams(s1, RotateBy(s1.params, d2), variant, sinCos);
      var once := ApplyParams(s, RotateBy(s.params, d1 + d2), variant, sinCos);
      s2.params.rotate.Degrees? && once.params.rotate.Degrees? &&
      s2.params.rotate.deg == once.params.rotate.deg + 360.0 * k as real
  {
    var c := s.params.rotate.deg;
    var s1 := ApplyParams(s, RotateBy(s.params, d1), variant, sinCos);
    assert RotateBy(s.params, d1).rotate == Degrees(c + d1);
    var k1 := RotationAfterUpdate(s, RotateBy(s.params, d1), variant, sinCos);
    var r1 := s1.params.rotate.deg;
    assert r1 == c + d1 + 360.0 * k1 as real;
    assert RotateBy(s1.params, d2).rotate == Degrees(r1 + d2);
    assert RotateBy(s.params, d1 + d2).rotate == Degrees(c + (d1 + d2));
    var k2 := RotationAfterUpdate(s1, RotateBy(s1.params, d2), variant, sinCos);
    var k3 := RotationAfterUpdate(s, RotateBy(s.params, d1 + d2), variant, sinCos);
    k := k1 + k2 - k3;
  }

  // ---------------------------------------------------------------------------
  // Raw matrices, reset and the view round trip

  /**
   * Texture and Image: what is pushed is what updateTransform reads back, as
   * the current matrix and, when asked, as the default one.
   */
  lemma PushThenQuery(s: State, m: Mat, variant: Variant, setAsDefault: bool)
    requires variant != DefaultVariant
    ensures Refreshed(Adopted(s, m, variant), variant, setAsDefault).transform == m
    ensures setAsDefault ==> Refreshed(Adopted(s, m, variant), variant, setAsDefault).defaultTransform == m
    ensures !setAsDefault ==> Refreshed(Adopted(s, m, variant), variant, setAsDefault).defaultTransform == s.defaultTransform
  {
  }

  /** Every operation keeps a Texture or Image view showing the current matrix. */
  lemma SyncPreserved(s: State, variant: Variant, sinCos: real -> (real, real), req: Params, m: Mat, setAsDefault: bool)
    requires Synced(s, variant)
    ensures Synced(ApplyParams(s, req, variant, sinCos), variant)
    ensures Synced(Adopted(s, m, variant), variant)
    ensures Synced(Refreshed(s, variant, setAsDefault), variant)
  {
  }

  /**
   * The default variant pushes the five parameters, not the matrix: a raw
   * matrix, with its shear and all, does not reach the view.
   */
  lemma DefaultPushIgnoresMatrix(v: View, m1: Mat, m2: Mat, p: Params)
    ensures Pushed(DefaultVariant, v, m1, p) == Pushed(DefaultVariant, v, m2, p)
    ensures Pushed(DefaultVariant, v, m1, p).content == v.content
  {
  }

  /**
   * The default variant after setTranslate(10, 20) and setRotate(90): the view
   * has translation (10, 20), rotation 90 and its pivot at the centre; its
   * scaleX holds the stored Y scale and its scaleY is as before.
   */
  lemma DefaultScenario(s: State, sinCos: real -> (real, real))
    requires InRange(s.params.rotate) && s.params.rotate != Degrees(90.0)
    ensures
      var s1 := ApplyParams(s, TranslateTo(s.params, 10.0, 20.0), DefaultVariant, sinCos);
      var s2 := ApplyParams(s1, RotateTo(s1.params, 90.0), DefaultVariant, sinCos);
      var v := s2.view;
      v.translationX == 10.0 && v.translationY == 20.0 && v.rotation == 90.0 &&
      v.pivotX == CentreX(s.view) && v.pivotY == CentreY(s.view) &&
      v.scaleX == s.params.scaleY && v.scaleY == s.view.scaleY
  {
    var s1 := ApplyParams(s, TranslateTo(s.params, 10.0, 20.0), DefaultVariant, sinCos);
    StoredParams(s, TranslateTo(s.params, 10.0, 20.0), DefaultVariant, sinCos);
    assert s1.params.rotate == s.params.rotate;
    assert RotationOf(90.0) == Degrees(90.0);
    StoredParams(s1, RotateTo(s1.params, 90.0), DefaultVariant, sinCos);
  }
}
