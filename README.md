# ViewContentTransformer in Dafny

A model of `ViewContentTransformer` from libcommon
(`com.serenegiant.view`). This Android helper keeps five decomposed
parameters: translation X/Y, scale X/Y and a rotation in degrees. It also
keeps a current and a default 3x3 `android.graphics.Matrix`, and pushes the
current transform to its target view through one of three variants:

- `TextureViewTransformer` calls `TextureView.setTransform`.
- `ImageViewTransformer` calls `ImageView.setImageMatrix`.
- `DefaultTransformer` writes the `View` properties translation, pivot,
  rotation and scale.

The project has four modules, one per file:

- `matrix.dfy` (`Matrices`): the matrix algebra the transformer uses, over
  exact reals. It covers:
  - the nine-value array form (`getValues`/`setValues`);
  - concatenation;
  - `postTranslate`, `postScale` and `postRotate` about a pivot;
  - where an affine matrix sends a point.
- `composition.dfy` (`Composition`): the parts of the five-parameter
  `setTransform` that are pure. It covers:
  - the `Float.MAX_VALUE` rotation sentinel, modelled as a `NoRotation` case
    of `Rotation`;
  - the two normalisation loops, as recursive functions;
  - `>> 1` on the view size;
  - the composition of the five parameters into a matrix: translate, then
    scale about the centre, then rotate about the centre. The lemmas describe
    geometrically what the composed matrix does to a point.
- `state.dfy` (`TransformerState`): the whole transformer state as a value
  (`State`), and one function per operation giving the state that operation
  produces:
  - `ApplyParams`: the five-parameter update;
  - `Adopted`: the raw matrix setters and `reset`;
  - `Refreshed`: `updateTransform`;
  - `Pushed`: what each variant writes to its view.

  Its lemmas state what the transformer promises across calls.
- `transformer.dfy` (`ContentTransformer`): the transformer as a class. The
  five parameters, the two matrices, the target view and the nine-float work
  buffer are fields that the methods update in place. The rotation
  normalisation is the two `while` loops of the source, and the matrix is
  rebuilt step by step from identity. Each method is proved to leave the
  object in the state that the `TransformerState` function for it
  prescribes. `ghost var pushes` counts the pushes to the view.

Trigonometry is a parameter. `sinCos: real -> (real, real)` gives the
platform's sine and cosine of an angle in degrees, and `postRotate` builds
the rotation matrix from these two values exactly as Skia does.

Two behaviours of the code are reproduced as written:

- The normalisation loops keep both 360 and -360, so the stored angle lies
  in [-360, 360].
- The default variant calls `setScaleX` twice, the second time with the Y
  scale, and never sets the view's Y scale (`DefaultScenario`).

## Model

| member | source | states |
|---|---|---|
| Matrices.Values | common/src/main/java/com/serenegiant/view/ViewContentTransformer.java:390-397 | `getValues` lists the nine entries in `MSCALE_X .. MPERSP_2` order, so index 0 is the X scale and index 4 the Y scale that the composition reads |
| Matrices.FromValues | common/src/main/java/com/serenegiant/view/ViewContentTransformer.java:128-131 | `setValues` takes exactly the first nine values of the array (extra values are ignored) |
| Matrices.FromValuesOfValues | common/src/main/java/com/serenegiant/view/ViewContentTransformer.java:157-166 | writing a matrix out with `getValues` and reading it back with `setValues` gives the same matrix |
| Matrices.Concat | common/src/main/java/com/serenegiant/view/ViewContentTransformer.java:393-402 | the product of two affine matrices is affine |
| Matrices.MapConcat | common/src/main/java/com/serenegiant/view/ViewContentTransformer.java:393-402 | mapping a point through a post-concatenated matrix maps it through the earlier matrix, then through the new step |
| Matrices.TranslateMatrix | common/src/main/java/com/serenegiant/view/ViewContentTransformer.java:394 | the `postTranslate` step is affine and moves every point by (dx, dy) |
| Matrices.ScaleMatrixMaps | common/src/main/java/com/serenegiant/view/ViewContentTransformer.java:395-398 | the `postScale` step about a pivot moves a point away from the pivot by the scale factors |
| Matrices.RotateMatrixMaps | common/src/main/java/com/serenegiant/view/ViewContentTransformer.java:399-402 | the `postRotate` step about a pivot turns a point about the pivot by the angle's sine and cosine |
| Matrices.PostTranslate | common/src/main/java/com/serenegiant/view/ViewContentTransformer.java:394 | `postTranslate` keeps an affine matrix affine |
| Matrices.PostScale | common/src/main/java/com/serenegiant/view/ViewContentTransformer.java:395-398 | `postScale` about a pivot keeps an affine matrix affine |
| Matrices.PostRotate | common/src/main/java/com/serenegiant/view/ViewContentTransformer.java:399-402 | `postRotate` about a pivot keeps an affine matrix affine |
| Composition.AsFloat | common/src/main/java/com/serenegiant/view/ViewContentTransformer.java:338-340 | the float that `getRotation` returns: the stored angle, or `Float.MAX_VALUE` for the sentinel |
| Composition.RotationOf | common/src/main/java/com/serenegiant/view/ViewContentTransformer.java:381-382 | a requested angle is the sentinel exactly when it equals `Float.MAX_VALUE`, and reading the result back gives the requested float |
| Composition.RotationOfAsFloat | common/src/main/java/com/serenegiant/view/ViewContentTransformer.java:194-198 | passing the stored rotation back into `setTransform` (what every non-rotating mutator does) classifies it as the same rotation |
| Composition.Plus | common/src/main/java/com/serenegiant/view/ViewContentTransformer.java:328-332 | `rotate` adds the relative angle to the stored one; a stored sentinel, or a sentinel delta, gives the sentinel |
| Composition.InRange | common/src/main/java/com/serenegiant/view/ViewContentTransformer.java:382-389 | an angle in [-360, 360] is never the sentinel value |
| Composition.ReduceAbove | common/src/main/java/com/serenegiant/view/ViewContentTransformer.java:383-385 | the first loop ends at most at 360, stays positive when it ran, and leaves an angle of at most 360 alone |
| Composition.RaiseBelow | common/src/main/java/com/serenegiant/view/ViewContentTransformer.java:386-388 | the second loop ends at least at -360, stays negative when it ran, and leaves an angle of at least -360 alone |
| Composition.NormalizeDegrees | common/src/main/java/com/serenegiant/view/ViewContentTransformer.java:382-389 | after both loops the angle lies in [-360, 360]; an angle already in range is unchanged; one above 360 ends in (0, 360]; one below -360 ends in [-360, 0) |
| Composition.ReduceAboveTurns | common/src/main/java/com/serenegiant/view/ViewContentTransformer.java:383-385 | the first loop subtracts a whole number of turns |
| Composition.RaiseBelowTurns | common/src/main/java/com/serenegiant/view/ViewContentTransformer.java:386-388 | the second loop adds a whole number of turns |
| Composition.NormalizeTurns | common/src/main/java/com/serenegiant/view/ViewContentTransformer.java:382-389 | the normalised angle differs from the requested one by a whole multiple of 360 |
| Composition.NormalizeIdempotent | common/src/main/java/com/serenegiant/view/ViewContentTransformer.java:382-389 | normalising a normalised angle changes nothing |
| Composition.NormalizeExamples | common/src/main/java/com/serenegiant/view/ViewContentTransformer.java:382-389 | 725 becomes 5, -725 becomes -5, 720 becomes 360 and -720 becomes -360 |
| Composition.NormalizeRotation | common/src/main/java/com/serenegiant/view/ViewContentTransformer.java:381-389 | the stored rotation is in range, is the sentinel exactly when the request is, and equals the request exactly when the request was already in range |
| Composition.Normalized | common/src/main/java/com/serenegiant/view/ViewContentTransformer.java:377-389 | the stored parameters are the request with only the rotation normalised; they equal the request exactly when its rotation is in range |
| Composition.Half | common/src/main/java/com/serenegiant/view/ViewContentTransformer.java:391-392 | `n >> 1` is the floor of n / 2 |
| Composition.PivotStays | common/src/main/java/com/serenegiant/view/ViewContentTransformer.java:395-402 | neither scaling nor turning about a pivot moves the pivot |
| Composition.ScaleMatrixDilates | common/src/main/java/com/serenegiant/view/ViewContentTransformer.java:395-398 | the `postScale` step maps every point to its dilation about the pivot |
| Composition.RotateMatrixTurns | common/src/main/java/com/serenegiant/view/ViewContentTransformer.java:399-402 | the `postRotate` step maps every point to its turn about the pivot |
| Composition.PostTranslateMaps | common/src/main/java/com/serenegiant/view/ViewContentTransformer.java:394 | after `postTranslate` a point lands where the earlier matrix sent it, moved by (dx, dy) |
| Composition.PostScaleMaps | common/src/main/java/com/serenegiant/view/ViewContentTransformer.java:395-398 | after `postScale` a point lands where the earlier matrix sent it, dilated about the pivot |
| Composition.PostRotateMaps | common/src/main/java/com/serenegiant/view/ViewContentTransformer.java:399-402 | after `postRotate` a point lands where the earlier matrix sent it, turned about the pivot by the angle's sine and cosine |
| Composition.TranslateThenScale | common/src/main/java/com/serenegiant/view/ViewContentTransformer.java:393-398 | reset, `postTranslate`, `postScale` gives an affine matrix |
| Composition.TranslateThenScaleForm | common/src/main/java/com/serenegiant/view/ViewContentTransformer.java:393-398 | the first three steps give a pure scale whose translation column is the scaled translation plus the pivot's offset |
| Composition.TranslateThenScaleMaps | common/src/main/java/com/serenegiant/view/ViewContentTransformer.java:393-398 | the first three steps move a point by the translation, then scale it about the pivot |
| Composition.Compose | common/src/main/java/com/serenegiant/view/ViewContentTransformer.java:390-402 | the composed matrix is affine |
| Composition.Rotated | common/src/main/java/com/serenegiant/view/ViewContentTransformer.java:399-402 | the optional rotation step keeps the matrix affine |
| Composition.RotatedMaps | common/src/main/java/com/serenegiant/view/ViewContentTransformer.java:399-402 | with the sentinel a point maps as before; otherwise its image is turned about the pivot by the stored angle |
| Composition.ComposeMaps | common/src/main/java/com/serenegiant/view/ViewContentTransformer.java:390-402 | the composed matrix moves a point by the translation, scales it about the centre by the default scale entries times the stored scales, then turns it about the centre unless the rotation is the sentinel |
| Composition.PivotFixed | common/src/main/java/com/serenegiant/view/ViewContentTransformer.java:390-402 | without translation the pivot maps to itself, for any scale, default matrix and rotation (the sentinel included) |
| Composition.ComposeReadsDefaultScaleOnly | common/src/main/java/com/serenegiant/view/ViewContentTransformer.java:390-398 | the composition reads only the two scale entries of the default matrix |
| Composition.ComposeWithoutRotation | common/src/main/java/com/serenegiant/view/ViewContentTransformer.java:393-402 | with the sentinel the composed matrix is exactly translate then scale about the pivot, with no rotation entries |
| Composition.ScaleAboutCentreExample | common/src/main/java/com/serenegiant/view/ViewContentTransformer.java:390-402 | a 100 x 50 view scaled by 2 keeps its centre (50, 25) and sends the origin to (-50, -25) |
| TransformerState.VariantFor | common/src/main/java/com/serenegiant/view/ViewContentTransformer.java:47-55 | a TextureView gets the Texture variant, an ImageView the Image variant and any other view the default variant, each exactly then |
| TransformerState.Pushed | common/src/main/java/com/serenegiant/view/ViewContentTransformer.java:444-455 | a push never changes the view's kind or size; the body is the default push of lines 444-455 and the Texture and Image pushes of lines 491-504 and 546-558 |
| TransformerState.Adopted | common/src/main/java/com/serenegiant/view/ViewContentTransformer.java:117-134 | a raw set stores the matrix verbatim and pushes once; the five parameters and the default matrix are untouched |
| TransformerState.ApplyParams | common/src/main/java/com/serenegiant/view/ViewContentTransformer.java:368-407 | the five-parameter update never changes the default matrix or the view's kind and size |
| TransformerState.Refreshed | common/src/main/java/com/serenegiant/view/ViewContentTransformer.java:481-489 | `updateTransform` changes neither the parameters nor the view, and does not push; the body covers Texture (481-489), Image (536-544) and the default no-op (422-427) |
| TransformerState.Initial | common/src/main/java/com/serenegiant/view/ViewContentTransformer.java:93-97 | a new transformer has all five parameters at 0, holds its view and has pushed nothing |
| TransformerState.InitialMatrices | common/src/main/java/com/serenegiant/view/ViewContentTransformer.java:93-97 | Texture and Image start with the view's matrix as both current and default; the default variant starts with identity for both; the view shows the current matrix |
| TransformerState.FreshTranslateCollapses | common/src/main/java/com/serenegiant/view/ViewContentTransformer.java:79-97 | because the scales start at 0, the first `setTranslate` on a new transformer sends every point to the view's centre, and the default variant sets the view's scaleX to 0 |
| TransformerState.PushesExactlyOnChange | common/src/main/java/com/serenegiant/view/ViewContentTransformer.java:373-407 | the update leaves the state unchanged exactly when the request equals the stored parameters, and otherwise pushes exactly once |
| TransformerState.StoredParams | common/src/main/java/com/serenegiant/view/ViewContentTransformer.java:377-389 | after an update the stored parameters are the normalised request |
| TransformerState.RotationAfterUpdate | common/src/main/java/com/serenegiant/view/ViewContentTransformer.java:382-389 | for a non-sentinel request the stored angle lies in [-360, 360], differs from the request by whole turns, and equals the request when it was in range |
| TransformerState.SameRequestTwice | common/src/main/java/com/serenegiant/view/ViewContentTransformer.java:373-389 | repeating a request changes nothing but the push count, and it pushes again exactly when the requested angle was out of range (`setRotate(725)` recomposes every time) |
| TransformerState.SentinelUpdate | common/src/main/java/com/serenegiant/view/ViewContentTransformer.java:381-402 | with `Float.MAX_VALUE` the sentinel is stored verbatim, and the matrix is exactly translate then scale about the centre, with no rotate step |
| TransformerState.ComposedFromScratch | common/src/main/java/com/serenegiant/view/ViewContentTransformer.java:390-398 | the new matrix depends neither on the previous matrix nor on any default entry but the two scales |
| TransformerState.CentreFixedAfterUpdate | common/src/main/java/com/serenegiant/view/ViewContentTransformer.java:390-402 | after an update without translation the view's centre maps to itself |
| TransformerState.TranslateTo | common/src/main/java/com/serenegiant/view/ViewContentTransformer.java:194-198 | `setTranslate` requests the given translation and passes the current scales and rotation on unchanged |
| TransformerState.TranslateBy | common/src/main/java/com/serenegiant/view/ViewContentTransformer.java:206-210 | `translate` requests a translation that differs from the current one by exactly (dx, dy); scales and rotation pass on unchanged |
| TransformerState.ScaleTo | common/src/main/java/com/serenegiant/view/ViewContentTransformer.java:248-263 | both `setScale` overloads request the given scales (the one-argument form with equal scales) and pass translation and rotation on unchanged |
| TransformerState.ScaleBy | common/src/main/java/com/serenegiant/view/ViewContentTransformer.java:271-286 | both `scale` overloads request scales whose ratio to a non-zero current scale is the factor (a zero scale stays zero); translation and rotation pass on unchanged |
| TransformerState.RotateTo | common/src/main/java/com/serenegiant/view/ViewContentTransformer.java:317-321 | `setRotate` requests a rotation whose float value is the given degrees (`Float.MAX_VALUE` being the no-rotation sentinel); translation and scales pass on unchanged |
| TransformerState.RotateBy | common/src/main/java/com/serenegiant/view/ViewContentTransformer.java:328-332 | `rotate` requests the current angle plus the delta, and the sentinel on either side gives the sentinel; translation and scales pass on unchanged |
| TransformerState.TranslateStores | common/src/main/java/com/serenegiant/view/ViewContentTransformer.java:194-210 | `setTranslate` replaces the translation and `translate` adds to it; the scales and the rotation pass through |
| TransformerState.ScaleStores | common/src/main/java/com/serenegiant/view/ViewContentTransformer.java:248-286 | `setScale` replaces the scales and `scale` multiplies them; the translation and the rotation pass through |
| TransformerState.RotateStores | common/src/main/java/com/serenegiant/view/ViewContentTransformer.java:317-332 | `setRotate` replaces the angle and `rotate` adds to it, then normalises; translation and scales pass through |
| TransformerState.TranslateTwice | common/src/main/java/com/serenegiant/view/ViewContentTransformer.java:206-210 | two `translate` calls store the same parameters as one call by the summed offsets |
| TransformerState.ScaleTwice | common/src/main/java/com/serenegiant/view/ViewContentTransformer.java:271-286 | two `scale` calls store the same parameters as one call by the product of the factors |
| TransformerState.RotateTwice | common/src/main/java/com/serenegiant/view/ViewContentTransformer.java:328-332 | two `rotate` calls store an angle that differs by whole turns from the one a single rotation by the sum stores |
| TransformerState.PushThenQuery | common/src/main/java/com/serenegiant/view/ViewContentTransformer.java:481-504 | for Texture and Image, `updateTransform` reads back exactly the matrix pushed last, as current matrix and, when asked, as default |
| TransformerState.SyncPreserved | common/src/main/java/com/serenegiant/view/ViewContentTransformer.java:491-504 | every update, raw set and refresh keeps a Texture or Image view showing the current matrix |
| TransformerState.DefaultPushIgnoresMatrix | common/src/main/java/com/serenegiant/view/ViewContentTransformer.java:430-455 | the default variant pushes the parameters, not the matrix: two matrices give the same view, and the view's content matrix is untouched |
| TransformerState.DefaultScenario | common/src/main/java/com/serenegiant/view/ViewContentTransformer.java:444-455 | after `setTranslate(10, 20)` and `setRotate(90)` the default-variant view has translation (10, 20), rotation 90 and its pivot at the centre; its scaleX holds the Y scale and its scaleY is unchanged |
| ContentTransformer.GetValues | common/src/main/java/com/serenegiant/view/ViewContentTransformer.java:157-166 | `getValues` writes the nine entries into slots 0..8 and leaves the rest of the array alone |
| ContentTransformer.ViewContentTransformer.constructor | common/src/main/java/com/serenegiant/view/ViewContentTransformer.java:93-97 | the new object is in the state `Initial` describes |
| ContentTransformer.ViewContentTransformer.NewInstance | common/src/main/java/com/serenegiant/view/ViewContentTransformer.java:47-55 | `newInstance` returns a fresh transformer of the variant for the view's kind, in its initial state |
| ContentTransformer.ViewContentTransformer.UpdateTransform | common/src/main/java/com/serenegiant/view/ViewContentTransformer.java:481-489 | `updateTransform` leaves the state `Refreshed` gives: Texture (481-489), Image (536-544) and the default no-op (422-427) |
| ContentTransformer.ViewContentTransformer.PushToView | common/src/main/java/com/serenegiant/view/ViewContentTransformer.java:444-455 | the push updates only the view, as `Pushed` prescribes, and counts one push: the default push (444-455), `TextureView.setTransform` (491-504) and `setImageMatrix` (546-558) |
| ContentTransformer.ViewContentTransformer.SetTransformMatrix | common/src/main/java/com/serenegiant/view/ViewContentTransformer.java:117-121 | `setTransform(Matrix)` adopts the matrix, or identity for null |
| ContentTransformer.ViewContentTransformer.SetTransformValues | common/src/main/java/com/serenegiant/view/ViewContentTransformer.java:128-134 | `setTransform(float[])` adopts the first nine values when there are at least nine, and identity for null or a shorter array |
| ContentTransformer.ViewContentTransformer.GetTransformMatrix | common/src/main/java/com/serenegiant/view/ViewContentTransformer.java:142-149 | `getTransform(Matrix)` fills the given matrix or a new one; the Texture variant hands out the view's own matrix |
| ContentTransformer.ViewContentTransformer.GetTransformValues | common/src/main/java/com/serenegiant/view/ViewContentTransformer.java:157-166 | `getTransform(float[])` reuses an array of at least nine, writing slots 0..8 and leaving the rest alone; otherwise it returns a new array of nine |
| ContentTransformer.ViewContentTransformer.SetDefault | common/src/main/java/com/serenegiant/view/ViewContentTransformer.java:173-176 | `setDefault` replaces only the default matrix, with no recomposition and no push |
| ContentTransformer.ViewContentTransformer.Reset | common/src/main/java/com/serenegiant/view/ViewContentTransformer.java:183-186 | `reset` adopts the default matrix as the current one |
| ContentTransformer.ViewContentTransformer.SetTransform | common/src/main/java/com/serenegiant/view/ViewContentTransformer.java:368-407 | the five-parameter `setTransform` leaves exactly the state `ApplyParams` gives |
| ContentTransformer.ViewContentTransformer.StoreRotation | common/src/main/java/com/serenegiant/view/ViewContentTransformer.java:381-389 | the two loops store the normalised angle, and the sentinel verbatim |
| ContentTransformer.ViewContentTransformer.Recompose | common/src/main/java/com/serenegiant/view/ViewContentTransformer.java:390-402 | the matrix built through the work buffer is `Compose` of the stored parameters about the view's centre; nothing else changes |
| ContentTransformer.ViewContentTransformer.BuildMatrix | common/src/main/java/com/serenegiant/view/ViewContentTransformer.java:393-402 | reset, `postTranslate`, `postScale` and the optional `postRotate` give the rotation step applied to the translate-then-scale matrix |
| ContentTransformer.ViewContentTransformer.SetTranslate | common/src/main/java/com/serenegiant/view/ViewContentTransformer.java:194-198 | `setTranslate` is the update with the translation replaced |
| ContentTransformer.ViewContentTransformer.Translate | common/src/main/java/com/serenegiant/view/ViewContentTransformer.java:206-210 | `translate` is the update with the offsets added |
| ContentTransformer.ViewContentTransformer.SetScale | common/src/main/java/com/serenegiant/view/ViewContentTransformer.java:248-252 | `setScale(x, y)` is the update with the scales replaced |
| ContentTransformer.ViewContentTransformer.SetScaleUniform | common/src/main/java/com/serenegiant/view/ViewContentTransformer.java:259-263 | `setScale(s)` is the update with both scales set to s |
| ContentTransformer.ViewContentTransformer.Scale | common/src/main/java/com/serenegiant/view/ViewContentTransformer.java:271-275 | `scale(x, y)` is the update with the scales multiplied |
| ContentTransformer.ViewContentTransformer.ScaleUniform | common/src/main/java/com/serenegiant/view/ViewContentTransformer.java:282-286 | `scale(s)` is the update with both scales multiplied by s |
| ContentTransformer.ViewContentTransformer.SetRotate | common/src/main/java/com/serenegiant/view/ViewContentTransformer.java:317-321 | `setRotate` is the update with the angle replaced |
| ContentTransformer.ViewContentTransformer.Rotate | common/src/main/java/com/serenegiant/view/ViewContentTransformer.java:328-332 | `rotate` is the update with the angle added (the sentinel absorbing) |
| ContentTransformer.ViewContentTransformer.GetTranslate | common/src/main/java/com/serenegiant/view/ViewContentTransformer.java:217-224 | `getTranslate` fills the given point, or a new one for null, with the stored translation |
| ContentTransformer.ViewContentTransformer.GetScale | common/src/main/java/com/serenegiant/view/ViewContentTransformer.java:308-310 | `getScale` is the smaller of the two scales: no larger than either, and equal to one of them |
| ContentTransformer.ViewContentTransformer.GetRotation | common/src/main/java/com/serenegiant/view/ViewContentTransformer.java:338-340 | `getRotation` returns the stored angle, or `Float.MAX_VALUE` for the sentinel |

The getters `getTranslateX`, `getTranslateY`, `getScaleX` and `getScaleY`
(lines 230-302) are the functions `GetTranslateX`, `GetTranslateY`,
`GetScaleX` and `GetScaleY`. Each returns its field, so they carry no
contract.

## Left out

- IEEE-754 float semantics are not modelled. Every float is an exact `real`,
  with no rounding, NaN, infinities or negative zero. The stored-value
  comparison at lines 373-375 is exact real equality.
- The normalisation loops are proved to terminate on reals only. On floats,
  an angle so large that subtracting 360 leaves it unchanged makes the loop
  at lines 383-385 spin forever.
- Trigonometry inside `Matrix.postRotate` is left out: the sine and cosine
  are the parameter `sinCos`.
- `mapPoints` (lines 346-357) is left out. It only forwards to
  `android.graphics.Matrix.mapPoints`, a library that is not part of this
  model; `Matrices.MapPoint` gives the meaning of an affine matrix instead.
- `getTargetView` (lines 100-102, 477-479, 532-534) is left out. The target
  view is the field `view`.
- The view is a record value held by the transformer. A change the app makes
  to the view elsewhere (a new size, another matrix) appears only when the
  field is assigned. Aliasing between the view and other objects is not
  modelled.
- Android's own `View`, `TextureView` and `ImageView` are left out. The model
  assumes `getImageMatrix` returns the matrix last set with
  `setImageMatrix`, which holds for the `MATRIX` scale type only. Layout and
  rendering are not modelled.
- Logging (`DEBUG`, `Log.v`) is left out.
- Composition.Plus: models float absorption by `Float.MAX_VALUE` only for
  two cases, a stored sentinel and a sentinel delta. On floats,
  `MAX_VALUE + d` for a large enough negative `d` is a finite angle, and for
  a large positive one it is infinity.
- TransformerState.RotateTwice: requires both relative angles to be at most
  `Float.MAX_VALUE / 4` in size, so that neither sum hits the sentinel value
  by accident.
- TransformerState.StoredParams: requires the stored rotation to be in range
  or the sentinel. Every reachable state satisfies this, and the class keeps
  it as part of `Valid()`.
- TransformerState.RotationAfterUpdate: requires the stored rotation to be in
  range or the sentinel, as StoredParams does.
- TransformerState.TranslateStores: requires the stored rotation to be in
  range or the sentinel, as StoredParams does.
- TransformerState.ScaleStores: requires the stored rotation to be in range
  or the sentinel, as StoredParams does.
- TransformerState.RotateStores: requires the stored rotation to be in range
  or the sentinel, as StoredParams does.
- TransformerState.TranslateTwice: requires the stored rotation to be in
  range or the sentinel, as StoredParams does.
- TransformerState.ScaleTwice: requires the stored rotation to be in range or
  the sentinel, as StoredParams does.
