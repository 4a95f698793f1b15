/** The camera of rendering/camera.h and rendering/camera.cpp: an eye point, a
    target, a basis, two angles, and a view matrix rebuilt lazily from a
    two-bit dirty mask.

    The camera's geometry and matrices form a `CameraState`; the dirty mask
    `mMatrixUpdateFlags` is kept beside it, so that each operation is a
    function on the state plus the bits it sets in the mask. */
module Cameras {

  import opened Geometry
  import opened MathUtils

  /** `EMatrixUpdateFlags` (rendering/camera.h): the two dirty bits of the mask. */
  const ROTATION_UPDATED: bv32 := 1
  const TRANSLATION_UPDATED: bv32 := 2
  const BOTH_UPDATED: bv32 := 3

  /** `PI` is `glm::pi<float>()`, taken as the exact decimal; `PI_2`, `PI_3`,
      `Z_NEAR` and `Z_FAR` follow utils/types.h. */
  const PI: real := 3.14159265358979323846
  const PI_2: real := PI / 2.0
  const PI_3: real := PI * 0.33333333
  const Z_NEAR: real := 0.01
  const Z_FAR: real := 100000.0

  /** `EProjectionType`. */
  datatype ProjectionType = Orthographic | Perspective

  /** Every field of `Camera` except the dirty mask. */
  datatype CameraState = CameraState(
    orthographic: Mat44,
    perspective: Mat44,
    view: Mat44,
    rotation: Mat44,
    translation: Mat44,
    eye: Vec3,
    at: Vec3,
    up: Vec3,
    front: Vec3,
    right: Vec3,
    upReal: Vec3,
    xzAngle: real,
    yAngle: real)

  /** The rotation matrix `updateViewMatrix` builds: right, real up and the
      negated front as its first three columns. */
  function RotationMatrixOf(s: CameraState): Mat44
  {
    Mat44(Row4(s.right.x, s.upReal.x, -s.front.x, 0.0),
          Row4(s.right.y, s.upReal.y, -s.front.y, 0.0),
          Row4(s.right.z, s.upReal.z, -s.front.z, 0.0),
          Row4(0.0,       0.0,        0.0,        1.0))
  }

  /** The translation matrix `updateViewMatrix` builds: a move by minus the eye. */
  function TranslationMatrixOf(lib: MathLib, s: CameraState): Mat44
  {
    lib.translate(Neg(s.eye))
  }

  /** The view matrix a camera without a cache would compute from its current
      basis and eye. */
  function EagerView(lib: MathLib, s: CameraState): Mat44
  {
    lib.mul(RotationMatrixOf(s), TranslationMatrixOf(lib, s))
  }

  /** The cache protocol: a clear rotation bit promises an up-to-date rotation
      matrix, a clear translation bit an up-to-date translation matrix, and a
      clear mask an up-to-date product. */
  predicate CacheCoherent(lib: MathLib, s: CameraState, flags: bv32)
  {
    && (flags & ROTATION_UPDATED == 0 ==> s.rotation == RotationMatrixOf(s))
    && (flags & TRANSLATION_UPDATED == 0 ==> s.translation == TranslationMatrixOf(lib, s))
    && (flags == 0 ==> s.view == lib.mul(s.rotation, s.translation))
  }

  /** `updateViewMatrix`: rebuild each part whose bit is set and recompose the
      view (the mask is then cleared). */
  function ViewUpdated(lib: MathLib, s: CameraState, flags: bv32): CameraState
  {
    var rotation := if flags & ROTATION_UPDATED != 0 then RotationMatrixOf(s) else s.rotation;
    var translation := if flags & TRANSLATION_UPDATED != 0 then TranslationMatrixOf(lib, s) else s.translation;
    s.(rotation := rotation, translation := translation, view := lib.mul(rotation, translation))
  }

  /** The state after `getViewMatrix`: updated only when some bit is set. The
      mask is clear afterwards either way. */
  function ViewRead(lib: MathLib, s: CameraState, flags: bv32): CameraState
  {
    if flags != 0 then ViewUpdated(lib, s, flags) else s
  }

  /** The matrix `getViewMatrix` returns. */
  function ViewMatrixOf(lib: MathLib, s: CameraState, flags: bv32): Mat44
  {
    ViewRead(lib, s, flags).view
  }

  /** The heading test of `updateAngles` as written: `std::abs` wraps the
      comparison `front.z >= EPSILON`, so its 0 or 1 is what is tested. */
  predicate HeadingGuard(front: Vec3)
  {
    Abs(front.x) >= EPSILON || IntAbs(if front.z >= EPSILON then 1 else 0) != 0
  }

  function IntAbs(i: int): int { if i < 0 then -i else i }

  /** The heading test the code evidently means: the front leaves the vertical
      axis by at least EPSILON in x or in z. */
  predicate IntendedHeadingGuard(front: Vec3)
  {
    Abs(front.x) >= EPSILON || Abs(front.z) >= EPSILON
  }

  /** `updateAngles`: the heading is recomputed only past the guard, the pitch
      always (`asin` of the y component over the length). */
  function AnglesUpdated(lib: MathLib, s: CameraState): CameraState
  {
    var xz := if HeadingGuard(s.front) then lib.atan2(s.front.x, s.front.z) else s.xzAngle;
    s.(xzAngle := xz, yAngle := lib.asin(Div(lib, s.front.y, lib.length(s.front))))
  }

  /** `updateAngles` with the intended guard. */
  function IntendedAnglesUpdated(lib: MathLib, s: CameraState): CameraState
  {
    var xz := if IntendedHeadingGuard(s.front) then lib.atan2(s.front.x, s.front.z) else s.xzAngle;
    s.(xzAngle := xz, yAngle := lib.asin(Div(lib, s.front.y, lib.length(s.front))))
  }

  /** The right vector `lookAt` settles on: `front x up`, or, when that is
      exactly zero, the previous right with its y set to 0, normalised. */
  function RightFor(lib: MathLib, front: Vec3, up: Vec3, oldRight: Vec3): Vec3
  {
    var right := Cross(front, up);
    if IsZero(right) then lib.normalize(oldRight.(y := 0.0)) else right
  }

  /** The first half of `lookAt`: eye, target, normalised up and the
      normalised front towards the target. */
  function Aimed(lib: MathLib, s: CameraState, pos: Vec3, at: Vec3, up: Vec3): CameraState
  {
    s.(eye := pos, at := at, up := lib.normalize(up), front := lib.normalize(Sub(at, pos)))
  }

  /** The second half of `lookAt`: right and real up rebuilt from front and up. */
  function BasisRebuilt(lib: MathLib, s: CameraState): CameraState
  {
    var right := RightFor(lib, s.front, s.up, s.right);
    s.(right := right, upReal := Cross(right, s.front))
  }

  /** `lookAt(pos, at, up)` up to, not including, its closing `updateAngles`. */
  function Reoriented(lib: MathLib, s: CameraState, pos: Vec3, at: Vec3, up: Vec3): CameraState
  {
    BasisRebuilt(lib, Aimed(lib, s, pos, at, up))
  }

  /** The three assertions of `lookAt`, checked on the basis it has just
      rebuilt: front, right and real up each have a positive dot product
      with themselves. */
  predicate LookAtAssertionsHold(lib: MathLib, s: CameraState, pos: Vec3, at: Vec3, up: Vec3)
  {
    var r := Reoriented(lib, s, pos, at, up);
    Dot(r.front, r.front) > 0.0 && Dot(r.right, r.right) > 0.0 && Dot(r.upReal, r.upReal) > 0.0
  }

  /** `lookAt(pos, at, up)`; it sets both bits. */
  function LookedAt(lib: MathLib, s: CameraState, pos: Vec3, at: Vec3, up: Vec3): CameraState
  {
    AnglesUpdated(lib, Reoriented(lib, s, pos, at, up))
  }

  /** `rotate(angle)`: front and right turn about the real up; it sets the
      rotation bit. */
  function Rotated(lib: MathLib, s: CameraState, angle: real): CameraState
  {
    AnglesUpdated(lib, s.(front := lib.rotate(angle, s.upReal, s.front),
                          right := lib.rotate(angle, s.upReal, s.right)))
  }

  /** `rotate(axis, angle)`: the target turns about the eye. */
  function RotatedAbout(lib: MathLib, s: CameraState, axis: Vec3, angle: real): CameraState
  {
    LookedAt(lib, s, s.eye, TurnedTarget(lib, s, axis, angle), s.up)
  }

  /** The target `rotate(axis, angle)` passes to `lookAt`. */
  function TurnedTarget(lib: MathLib, s: CameraState, axis: Vec3, angle: real): Vec3
  {
    Add(s.eye, lib.rotate(angle, lib.normalize(axis), Sub(s.at, s.eye)))
  }

  /** `rotateAround(angle)`: the eye turns about the target. */
  function Orbited(lib: MathLib, s: CameraState, angle: real): CameraState
  {
    LookedAt(lib, s, OrbitEye(lib, s, angle), s.at, s.up)
  }

  /** The eye `rotateAround(angle)` passes to `lookAt`. */
  function OrbitEye(lib: MathLib, s: CameraState, angle: real): Vec3
  {
    Add(s.at, lib.rotate(angle, s.upReal, Sub(s.eye, s.at)))
  }

  /** The pitch `mouseLook` aims at: the old pitch minus `dtY`, clamped to
      [-PI_2, PI_2]. */
  function MouseLookPitch(s: CameraState, dtY: real): (p: real)
    ensures -PI_2 <= p <= PI_2
    ensures -PI_2 <= s.yAngle - dtY <= PI_2 ==> p == s.yAngle - dtY
    ensures s.yAngle - dtY < -PI_2 ==> p == -PI_2
    ensures s.yAngle - dtY > PI_2 ==> p == PI_2
  {
    Clamp(s.yAngle - dtY, -PI_2, PI_2)
  }

  /** The target `mouseLook` builds: at the old distance from the eye, in the
      direction given by the new heading and the clamped pitch. */
  function MouseLookTarget(lib: MathLib, s: CameraState, dtX: real, dtY: real): Vec3
  {
    var angleXZ := s.xzAngle - dtX;
    var angleY := MouseLookPitch(s, dtY);
    var len := lib.length(Sub(s.at, s.eye));
    Add(s.eye, Vec3(len * lib.sin(angleXZ) * lib.cos(angleY),
                    len * lib.sin(angleY),
                    len * lib.cos(angleXZ) * lib.cos(angleY)))
  }

  /** `mouseLook(dtX, dtY)`: look from the same eye at the new target. */
  function MouseLooked(lib: MathLib, s: CameraState, dtX: real, dtY: real): CameraState
  {
    LookedAt(lib, s, s.eye, MouseLookTarget(lib, s, dtX, dtY), s.up)
  }

  /** The common effect of `move`, `strafe`, `ascend` and `moveRelative`: eye
      and target shift by the same offset; each sets the translation bit. */
  function Translated(s: CameraState, delta: Vec3): CameraState
  {
    s.(eye := Add(s.eye, delta), at := Add(s.at, delta))
  }

  /** The offset of `moveRelative(delta)`: delta's components along right, real
      up and front. */
  function RelativeOffset(lib: MathLib, s: CameraState, delta: Vec3): Vec3
  {
    Add(Add(Scale(lib.normalize(s.right), delta.x), Scale(lib.normalize(s.upReal), delta.y)),
        Scale(lib.normalize(s.front), delta.z))
  }

  /** `setOrthographicMatrix`. */
  function WithOrthographic(lib: MathLib, s: CameraState, left: real, right: real, bottom: real,
                            top: real, near: real, far: real): CameraState
  {
    s.(orthographic := lib.ortho(left, right, bottom, top, near, far))
  }

  /** `setPerspectiveMatrix`. */
  function WithPerspective(lib: MathLib, s: CameraState, fov: real, aspectRatio: real,
                           near: real, far: real): CameraState
  {
    s.(perspective := lib.perspective(fov, aspectRatio, near, far))
  }

  /** The fields as the member initialisers leave them, before the body runs
      (a default-constructed matrix is the identity). */
  function Unset(): CameraState
  {
    CameraState(IDENTITY, IDENTITY, IDENTITY, IDENTITY, IDENTITY,
                Vec3(0.0, 0.0, 0.0), Vec3(0.0, 0.0, -1.0), Vec3(0.0, 1.0, 0.0),
                Vec3(0.0, 0.0, -1.0), Vec3(1.0, 0.0, 0.0), Vec3(0.0, 1.0, 0.0),
                0.0, 0.0)
  }

  /** The state the constructor's two projection setters leave, before its
      `lookAt`. */
  function Projected(lib: MathLib): CameraState
  {
    WithPerspective(lib, WithOrthographic(lib, Unset(), -1.0, 1.0, -1.0, 1.0, -1.0, 1.0),
                    PI_3, 1.33, Z_NEAR, Z_FAR)
  }

  /** The state `Camera()` leaves: default projections, then `lookAt` with the
      initial eye, target and up. Its mask is `BOTH_UPDATED`. */
  function Initial(lib: MathLib): CameraState
  {
    var s := Projected(lib);
    LookedAt(lib, s, s.eye, s.at, s.up)
  }

  /** `mask | bits`, the update `|=` makes to the mask. */
  function WithBits(mask: bv32, bits: bv32): bv32 { mask | bits }

  /** Setting bits in the mask sets them and leaves every other bit alone. */
  lemma SetBitsFacts(f: bv32, bits: bv32)
    ensures (f | bits) & bits == bits
    ensures (f | bits) & !bits == f & !bits
  {
  }

  /** The two flags are distinct single bits: setting one never sets the other. */
  lemma FlagsDistinct(f: bv32)
    ensures ROTATION_UPDATED & TRANSLATION_UPDATED == 0
    ensures ROTATION_UPDATED | TRANSLATION_UPDATED == BOTH_UPDATED
    ensures (f | ROTATION_UPDATED) & TRANSLATION_UPDATED == f & TRANSLATION_UPDATED
    ensures (f | TRANSLATION_UPDATED) & ROTATION_UPDATED == f & ROTATION_UPDATED
  {
  }

  /** `updateAngles` changes the two angles and nothing else: the heading only
      past the guard, the pitch always. */
  lemma AnglesUpdateEffect(lib: MathLib, s: CameraState)
    ensures var r := AnglesUpdated(lib, s);
      && r == s.(xzAngle := r.xzAngle, yAngle := r.yAngle)
      && (HeadingGuard(s.front) ==> r.xzAngle == lib.atan2(s.front.x, s.front.z))
      && (!HeadingGuard(s.front) ==> r.xzAngle == s.xzAngle)
      && r.yAngle == lib.asin(Div(lib, s.front.y, lib.length(s.front)))
  {
  }

  /** `lookAt(pos, at, up)` stores pos and at exactly and the normalised up,
      rebuilds front, right (falling back on the flattened old right when
      `front x up` is zero) and real up from them, and touches no matrix. */
  lemma LookAtEffect(lib: MathLib, s: CameraState, pos: Vec3, at: Vec3, up: Vec3)
    ensures var r := LookedAt(lib, s, pos, at, up);
      && r.eye == pos && r.at == at && r.up == lib.normalize(up)
      && r.front == lib.normalize(Sub(at, pos))
      && (!IsZero(Cross(r.front, r.up)) ==> r.right == Cross(r.front, r.up))
      && (IsZero(Cross(r.front, r.up)) ==> r.right == lib.normalize(s.right.(y := 0.0)))
      && r.upReal == Cross(r.right, r.front)
      && r.orthographic == s.orthographic && r.perspective == s.perspective
      && r.view == s.view && r.rotation == s.rotation && r.translation == s.translation
  {
  }

  /** After `lookAt` sets both bits the cache is coherent, whatever it was. */
  lemma LookAtKeepsCoherent(lib: MathLib, s: CameraState, flags: bv32, pos: Vec3, at: Vec3, up: Vec3)
    ensures CacheCoherent(lib, LookedAt(lib, s, pos, at, up), WithBits(flags, BOTH_UPDATED))
  {
    SetBitsFacts(flags, BOTH_UPDATED);
  }

  /** `rotate(angle)` turns front and right about the real up and keeps eye,
      at, up and real up: `at` no longer need lie along the new front. */
  lemma RotateEffect(lib: MathLib, s: CameraState, angle: real)
    ensures var r := Rotated(lib, s, angle);
      && r.front == lib.rotate(angle, s.upReal, s.front)
      && r.right == lib.rotate(angle, s.upReal, s.right)
      && r.eye == s.eye && r.at == s.at && r.up == s.up && r.upReal == s.upReal
      && r.orthographic == s.orthographic && r.perspective == s.perspective
      && r.view == s.view && r.rotation == s.rotation && r.translation == s.translation
  {
  }

  /** Setting the rotation bit after `rotate` keeps the cache coherent: the eye,
      and so the translation matrix, did not move. */
  lemma RotateKeepsCoherent(lib: MathLib, s: CameraState, flags: bv32, angle: real)
    requires CacheCoherent(lib, s, flags)
    ensures CacheCoherent(lib, Rotated(lib, s, angle), WithBits(flags, ROTATION_UPDATED))
  {
    SetBitsFacts(flags, ROTATION_UPDATED);
    FlagsDistinct(flags);
  }

  /** `rotate(axis, angle)` keeps the eye and turns the target about it. */
  lemma RotateAboutEffect(lib: MathLib, s: CameraState, axis: Vec3, angle: real)
    ensures RotatedAbout(lib, s, axis, angle).eye == s.eye
    ensures RotatedAbout(lib, s, axis, angle).at
              == Add(s.eye, lib.rotate(angle, lib.normalize(axis), Sub(s.at, s.eye)))
  {
    LookAtEffect(lib, s, s.eye, Add(s.eye, lib.rotate(angle, lib.normalize(axis), Sub(s.at, s.eye))), s.up);
  }

  /** `rotateAround(angle)` keeps the target and turns the eye about it. */
  lemma OrbitEffect(lib: MathLib, s: CameraState, angle: real)
    ensures Orbited(lib, s, angle).at == s.at
    ensures Orbited(lib, s, angle).eye == Add(s.at, lib.rotate(angle, s.upReal, Sub(s.eye, s.at)))
  {
    LookAtEffect(lib, s, Add(s.at, lib.rotate(angle, s.upReal, Sub(s.eye, s.at))), s.at, s.up);
  }

  /** `mouseLook(dtX, dtY)` keeps the eye and aims at a target built from the
      clamped pitch. */
  lemma MouseLookEffect(lib: MathLib, s: CameraState, dtX: real, dtY: real)
    ensures MouseLooked(lib, s, dtX, dtY).eye == s.eye
    ensures MouseLooked(lib, s, dtX, dtY).at == MouseLookTarget(lib, s, dtX, dtY)
  {
    LookAtEffect(lib, s, s.eye, MouseLookTarget(lib, s, dtX, dtY), s.up);
  }

  /** The translation operations shift eye and target alike, so the vector from
      eye to target is unchanged; basis, angles and matrices stay. */
  lemma TranslateEffect(s: CameraState, delta: Vec3)
    ensures var r := Translated(s, delta);
      && r.eye == Add(s.eye, delta)
      && Sub(r.at, r.eye) == Sub(s.at, s.eye)
      && r.front == s.front && r.right == s.right && r.upReal == s.upReal && r.up == s.up
      && r.xzAngle == s.xzAngle && r.yAngle == s.yAngle
      && r.orthographic == s.orthographic && r.perspective == s.perspective
      && r.view == s.view && r.rotation == s.rotation && r.translation == s.translation
  {
    SubAddCancel(s.at, s.eye, delta);
  }

  /** Setting the translation bit after a translation keeps the cache coherent:
      the basis, and so the rotation matrix, did not change. */
  lemma TranslateKeepsCoherent(lib: MathLib, s: CameraState, flags: bv32, delta: Vec3)
    requires CacheCoherent(lib, s, flags)
    ensures CacheCoherent(lib, Translated(s, delta), WithBits(flags, TRANSLATION_UPDATED))
  {
    SetBitsFacts(flags, TRANSLATION_UPDATED);
    FlagsDistinct(flags);
  }

  /** The projection setters replace their matrix and nothing else, and leave
      the cache as coherent as it was. */
  lemma ProjectionSettersEffect(lib: MathLib, s: CameraState, flags: bv32, l: real, r: real,
                                b: real, t: real, n: real, f: real, fov: real, aspect: real)
    ensures WithOrthographic(lib, s, l, r, b, t, n, f).orthographic == lib.ortho(l, r, b, t, n, f)
    ensures WithOrthographic(lib, s, l, r, b, t, n, f).(orthographic := s.orthographic) == s
    ensures WithPerspective(lib, s, fov, aspect, n, f).perspective == lib.perspective(fov, aspect, n, f)
    ensures WithPerspective(lib, s, fov, aspect, n, f).(perspective := s.perspective) == s
    ensures CacheCoherent(lib, s, flags) ==> CacheCoherent(lib, WithOrthographic(lib, s, l, r, b, t, n, f), flags)
    ensures CacheCoherent(lib, s, flags) ==> CacheCoherent(lib, WithPerspective(lib, s, fov, aspect, n, f), flags)
  {
  }

  /** `updateViewMatrix` rebuilds exactly the parts whose bit is set and touches
      nothing else; on a coherent camera its view is the view computed from
      scratch, and the cache stays coherent with the mask cleared. */
  lemma ViewUpdateEffect(lib: MathLib, s: CameraState, flags: bv32)
    ensures var r := ViewUpdated(lib, s, flags);
      && r.rotation == (if flags & ROTATION_UPDATED != 0 then RotationMatrixOf(s) else s.rotation)
      && r.translation == (if flags & TRANSLATION_UPDATED != 0 then TranslationMatrixOf(lib, s) else s.translation)
      && r.view == lib.mul(r.rotation, r.translation)
      && r == s.(view := r.view, rotation := r.rotation, translation := r.translation)
    ensures CacheCoherent(lib, s, flags) ==>
              CacheCoherent(lib, ViewUpdated(lib, s, flags), 0) && ViewUpdated(lib, s, flags).view == EagerView(lib, s)
  {
  }

  /** On a coherent camera the lazily cached view is the view computed from
      scratch, whichever bits are set. */
  lemma ViewMatrixIsEager(lib: MathLib, s: CameraState, flags: bv32)
    requires CacheCoherent(lib, s, flags)
    ensures ViewMatrixOf(lib, s, flags) == EagerView(lib, s)
    ensures CacheCoherent(lib, ViewRead(lib, s, flags), 0)
  {
    if flags == 0 {
      assert flags & ROTATION_UPDATED == 0 && flags & TRANSLATION_UPDATED == 0;
    } else {
      ViewUpdateEffect(lib, s, flags);
    }
  }

  /** Reading the view twice with no mutator in between returns the same
      matrix, and the second read changes nothing. */
  lemma ViewReadIdempotent(lib: MathLib, s: CameraState, flags: bv32)
    ensures ViewRead(lib, ViewRead(lib, s, flags), 0) == ViewRead(lib, s, flags)
    ensures ViewMatrixOf(lib, ViewRead(lib, s, flags), 0) == ViewMatrixOf(lib, s, flags)
  {
  }

  /** A clear mask means nothing to rebuild: `getViewMatrix` changes nothing. */
  lemma CleanReadChangesNothing(lib: MathLib, s: CameraState)
    ensures ViewRead(lib, s, 0) == s && ViewMatrixOf(lib, s, 0) == s.view
  {
  }

  /** A new camera looks from the origin down -z with the default projections;
      with both bits set its cache is coherent. */
  lemma InitialState(lib: MathLib)
    ensures Initial(lib).eye == Vec3(0.0, 0.0, 0.0)
    ensures Initial(lib).at == Vec3(0.0, 0.0, -1.0)
    ensures Initial(lib).up == lib.normalize(Vec3(0.0, 1.0, 0.0))
    ensures Initial(lib).orthographic == lib.ortho(-1.0, 1.0, -1.0, 1.0, -1.0, 1.0)
    ensures Initial(lib).perspective == lib.perspective(PI_3, 1.33, Z_NEAR, Z_FAR)
    ensures CacheCoherent(lib, Initial(lib), BOTH_UPDATED)
  {
    var s := Projected(lib);
    LookAtEffect(lib, s, s.eye, s.at, s.up);
    LookAtKeepsCoherent(lib, s, 0, s.eye, s.at, s.up);
  }

  /** The heading guard as written lets `front.z` through only when it is at
      least EPSILON, never when it is at most -EPSILON. */
  lemma HeadingGuardAsWritten(front: Vec3)
    ensures HeadingGuard(front) <==> Abs(front.x) >= EPSILON || front.z >= EPSILON
  {
  }

  /** The default front (0, 0, -1) fails the guard as written but passes the
      intended one: when normalising the unit vector (0, 0, -1) gives it back,
      the constructor's `lookAt` keeps heading 0 for a camera that faces -z,
      whatever `atan2` computes. */
  lemma HeadingGuardMissesNegativeZ(lib: MathLib)
    requires lib.normalize(Vec3(0.0, 0.0, -1.0)) == Vec3(0.0, 0.0, -1.0)
    ensures !HeadingGuard(Vec3(0.0, 0.0, -1.0))
    ensures IntendedHeadingGuard(Vec3(0.0, 0.0, -1.0))
    ensures Initial(lib).xzAngle == 0.0
  {
    var s := Projected(lib);
    assert s.xzAngle == 0.0;
    assert Sub(s.at, s.eye) == Vec3(0.0, 0.0, -1.0);
    var r := Reoriented(lib, s, s.eye, s.at, s.up);
    assert r.front == Vec3(0.0, 0.0, -1.0) && r.xzAngle == 0.0;
    assert !HeadingGuard(r.front);
  }

  /** With the intended guard the heading is recomputed for every front that
      leaves the vertical axis, facing +z or -z alike; it recomputes wherever
      the guard as written does, and the pitch is the same. */
  lemma IntendedAnglesUpdateEffect(lib: MathLib, s: CameraState)
    ensures var r := IntendedAnglesUpdated(lib, s);
      && r == s.(xzAngle := r.xzAngle, yAngle := r.yAngle)
      && (IntendedHeadingGuard(s.front) ==> r.xzAngle == lib.atan2(s.front.x, s.front.z))
      && (!IntendedHeadingGuard(s.front) ==> r.xzAngle == s.xzAngle)
      && r.yAngle == AnglesUpdated(lib, s).yAngle
    ensures IntendedHeadingGuard(s.front) == IntendedHeadingGuard(s.front.(z := -s.front.z))
    ensures HeadingGuard(s.front) ==> IntendedHeadingGuard(s.front)
  {
  }

  /** `lookAt` with the eye on the target normalises the zero vector for its
      front; unless that yields a vector with positive square (NaN or zero
      compare false), the first assertion fails, whatever the up vector. */
  lemma {:induction false} LookAtOwnEyeFails(lib: MathLib, s: CameraState, pos: Vec3, up: Vec3)
    requires !(Dot(lib.normalize(Vec3(0.0, 0.0, 0.0)), lib.normalize(Vec3(0.0, 0.0, 0.0))) > 0.0)
    ensures !LookAtAssertionsHold(lib, s, pos, pos, up)
  {
    assert Sub(pos, pos) == Vec3(0.0, 0.0, 0.0);
    assert Reoriented(lib, s, pos, pos, up).front == lib.normalize(Vec3(0.0, 0.0, 0.0));
  }

  /** A zero front or a zero right fails the assertions: a zero right also
      makes the real up, its cross product with the front, zero. */
  lemma {:induction false} CollapsedBasisFails(lib: MathLib, s: CameraState, pos: Vec3, at: Vec3, up: Vec3)
    ensures var r := Reoriented(lib, s, pos, at, up);
      (IsZero(r.front) || IsZero(r.right)) ==> !LookAtAssertionsHold(lib, s, pos, at, up)
    ensures var r := Reoriented(lib, s, pos, at, up);
      IsZero(r.right) ==> IsZero(r.upReal)
  {
    var r := Reoriented(lib, s, pos, at, up);
    if IsZero(r.front) {
      ZeroVectorFacts(r.front, r.front);
    }
    if IsZero(r.right) {
      ZeroVectorFacts(r.right, r.front);
    }
  }

  /** The constructor's `lookAt` from the origin towards -z with up +y keeps
      all three assertions, when normalising those unit vectors returns them:
      its basis is right +x, real up +y, front -z. */
  lemma {:induction false} InitialLookAtHolds(lib: MathLib)
    requires lib.normalize(Vec3(0.0, 0.0, -1.0)) == Vec3(0.0, 0.0, -1.0)
    requires lib.normalize(Vec3(0.0, 1.0, 0.0)) == Vec3(0.0, 1.0, 0.0)
    ensures LookAtAssertionsHold(lib, Projected(lib), Vec3(0.0, 0.0, 0.0), Vec3(0.0, 0.0, -1.0), Vec3(0.0, 1.0, 0.0))
    ensures var r := Reoriented(lib, Projected(lib), Vec3(0.0, 0.0, 0.0), Vec3(0.0, 0.0, -1.0), Vec3(0.0, 1.0, 0.0));
      r.front == Vec3(0.0, 0.0, -1.0) && r.right == Vec3(1.0, 0.0, 0.0) && r.upReal == Vec3(0.0, 1.0, 0.0)
  {
    InitialBasis(lib, Projected(lib));
    UnitBasisHolds(lib, Projected(lib), Vec3(0.0, 0.0, 0.0), Vec3(0.0, 0.0, -1.0), Vec3(0.0, 1.0, 0.0));
  }

  /** The basis of the constructor's `lookAt`, from any state: the matrices
      play no part in it. */
  lemma InitialBasis(lib: MathLib, s: CameraState)
    requires lib.normalize(Vec3(0.0, 0.0, -1.0)) == Vec3(0.0, 0.0, -1.0)
    requires lib.normalize(Vec3(0.0, 1.0, 0.0)) == Vec3(0.0, 1.0, 0.0)
    ensures var r := Reoriented(lib, s, Vec3(0.0, 0.0, 0.0), Vec3(0.0, 0.0, -1.0), Vec3(0.0, 1.0, 0.0));
      r.front == Vec3(0.0, 0.0, -1.0) && r.right == Vec3(1.0, 0.0, 0.0) && r.upReal == Vec3(0.0, 1.0, 0.0)
  {
    assert Sub(Vec3(0.0, 0.0, -1.0), Vec3(0.0, 0.0, 0.0)) == Vec3(0.0, 0.0, -1.0);
    InitialRebuilt(lib, Aimed(lib, s, Vec3(0.0, 0.0, 0.0), Vec3(0.0, 0.0, -1.0), Vec3(0.0, 1.0, 0.0)));
  }

  /** A basis made of the unit axes passes the three assertions. */
  lemma UnitBasisHolds(lib: MathLib, s: CameraState, pos: Vec3, at: Vec3, up: Vec3)
    requires var r := Reoriented(lib, s, pos, at, up);
      r.front == Vec3(0.0, 0.0, -1.0) && r.right == Vec3(1.0, 0.0, 0.0) && r.upReal == Vec3(0.0, 1.0, 0.0)
    ensures LookAtAssertionsHold(lib, s, pos, at, up)
  {
    var r := Reoriented(lib, s, pos, at, up);
    AxisLength(r.front);
    AxisLength(r.right);
    AxisLength(r.upReal);
  }

  /** Rebuilding from front -z and up +y gives right +x and real up +y. */
  lemma InitialRebuilt(lib: MathLib, a: CameraState)
    requires a.front == Vec3(0.0, 0.0, -1.0) && a.up == Vec3(0.0, 1.0, 0.0)
    ensures var r := BasisRebuilt(lib, a);
      r.front == Vec3(0.0, 0.0, -1.0) && r.right == Vec3(1.0, 0.0, 0.0) && r.upReal == Vec3(0.0, 1.0, 0.0)
  {
    InitialRight(lib, a.right);
    UpOfRightForward();
  }

  /** Looking down -z with up +y, the right vector is +x, whatever the
      previous right was. */
  lemma InitialRight(lib: MathLib, oldRight: Vec3)
    ensures RightFor(lib, Vec3(0.0, 0.0, -1.0), Vec3(0.0, 1.0, 0.0), oldRight) == Vec3(1.0, 0.0, 0.0)
  {
    RightOfForward();
  }

  /** `Camera`: the fields of the C++ class, with the foreign numerics fixed at
      construction. */
  class Camera {
    const lib: MathLib
    var orthographic: Mat44
    var perspective: Mat44
    var view: Mat44
    var rotation: Mat44
    var translation: Mat44
    var eye: Vec3
    var at: Vec3
    var up: Vec3
    var front: Vec3
    var right: Vec3
    var upReal: Vec3
    var xzAngle: real
    var yAngle: real
    var flags: bv32
    /** Whether some `lookAt` has failed one of its assertions. */
    var assertionViolated: bool

    function State(): CameraState
      reads this
    {
      CameraState(orthographic, perspective, view, rotation, translation,
                  eye, at, up, front, right, upReal, xzAngle, yAngle)
    }

    predicate Valid()
      reads this
    {
      CacheCoherent(lib, State(), flags)
    }

    constructor (lib: MathLib)
      ensures this.lib == lib && State() == Initial(lib) && flags == BOTH_UPDATED && Valid()
      ensures assertionViolated == !LookAtAssertionsHold(lib, Projected(lib), Vec3(0.0, 0.0, 0.0), Vec3(0.0, 0.0, -1.0), Vec3(0.0, 1.0, 0.0))
    {
      this.lib := lib;
      orthographic, perspective, view, rotation, translation := IDENTITY, IDENTITY, IDENTITY, IDENTITY, IDENTITY;
      eye := Vec3(0.0, 0.0, 0.0);
      at := Vec3(0.0, 0.0, -1.0);
      up := Vec3(0.0, 1.0, 0.0);
      front := Vec3(0.0, 0.0, -1.0);
      right := Vec3(1.0, 0.0, 0.0);
      upReal := Vec3(0.0, 1.0, 0.0);
      xzAngle, yAngle, flags := 0.0, 0.0, 0;
      assertionViolated := false;
      new;
      assert State() == Unset();
      SetOrthographicMatrix(-1.0, 1.0, -1.0, 1.0, -1.0, 1.0);
      SetPerspectiveMatrix(PI_3, 1.33, Z_NEAR, Z_FAR);
      ghost var s := State();
      assert s == Projected(lib);
      LookAt(eye, at, up);
      assert State() == LookedAt(lib, s, s.eye, s.at, s.up);
      InitialState(lib);
    }

    method SetOrthographicMatrix(left: real, right: real, bottom: real, top: real, near: real, far: real)
      modifies this
      ensures assertionViolated == old(assertionViolated)
      ensures State() == WithOrthographic(lib, old(State()), left, right, bottom, top, near, far)
      ensures flags == old(flags)
    {
      orthographic := lib.ortho(left, right, bottom, top, near, far);
    }

    method SetPerspectiveMatrix(fov: real, aspectRatio: real, near: real, far: real)
      modifies this
      ensures assertionViolated == old(assertionViolated)
      ensures State() == WithPerspective(lib, old(State()), fov, aspectRatio, near, far)
      ensures flags == old(flags)
    {
      perspective := lib.perspective(fov, aspectRatio, near, far);
    }

    method UpdateViewMatrix()
      modifies this
      ensures assertionViolated == old(assertionViolated)
      ensures State() == ViewUpdated(lib, old(State()), old(flags)) && flags == 0
    {
      if flags & ROTATION_UPDATED != 0 {
        rotation := Mat44(Row4(right.x, upReal.x, -front.x, 0.0),
                          Row4(right.y, upReal.y, -front.y, 0.0),
                          Row4(right.z, upReal.z, -front.z, 0.0),
                          Row4(0.0,     0.0,      0.0,      1.0));
      }
      if flags & TRANSLATION_UPDATED != 0 {
        translation := lib.translate(Neg(eye));
      }
      flags := 0;
      view := lib.mul(rotation, translation);
    }

    /** `getViewMatrix`: rebuild only if some bit is set. */
    method GetViewMatrix() returns (m: Mat44)
      requires Valid()
      modifies this
      ensures assertionViolated == old(assertionViolated)
      ensures m == ViewMatrixOf(lib, old(State()), old(flags))
      ensures State() == ViewRead(lib, old(State()), old(flags)) && flags == 0
      ensures m == EagerView(lib, old(State())) && Valid()
    {
      ghost var s, f := State(), flags;
      if flags != 0 {
        UpdateViewMatrix();
      }
      m := view;
      ViewMatrixIsEager(lib, s, f);
    }

    /** `getViewProjectionMatrix`: the orthographic matrix alone, or the
        perspective matrix times the (possibly rebuilt) view. */
    method GetViewProjectionMatrix(projection: ProjectionType) returns (m: Mat44)
      requires Valid()
      modifies this
      ensures assertionViolated == old(assertionViolated)
      ensures projection == Orthographic ==>
                m == old(orthographic) && State() == old(State()) && flags == old(flags)
      ensures projection == Perspective ==>
                && m == lib.mul(old(perspective), ViewMatrixOf(lib, old(State()), old(flags)))
                && State() == ViewRead(lib, old(State()), old(flags)) && flags == 0
      ensures Valid()
    {
      if projection == Orthographic {
        return orthographic;
      }
      var v := GetViewMatrix();
      m := lib.mul(perspective, v);
    }

    method LookAt(pos: Vec3, at: Vec3, up: Vec3)
      modifies this
      ensures assertionViolated == (old(assertionViolated) || !LookAtAssertionsHold(lib, old(State()), pos, at, up))
      ensures State() == LookedAt(lib, old(State()), pos, at, up)
      ensures flags == WithBits(old(flags), BOTH_UPDATED)
      ensures Valid()
    {
      ghost var s, f := State(), flags;
      Aim(pos, at, up);
      RebuildBasis();
      assert State() == Reoriented(lib, s, pos, at, up);
      CheckBasis();
      MarkUpdated(BOTH_UPDATED);
      UpdateAngles();
      LookAtKeepsCoherent(lib, s, f, pos, at, up);
    }

    /** The three assertions of `lookAt`, recorded rather than enforced. */
    method CheckBasis()
      modifies this
      ensures assertionViolated ==
                (old(assertionViolated) || !(Dot(front, front) > 0.0 && Dot(right, right) > 0.0 && Dot(upReal, upReal) > 0.0))
      ensures State() == old(State()) && flags == old(flags)
    {
      if !(Dot(front, front) > 0.0 && Dot(right, right) > 0.0 && Dot(upReal, upReal) > 0.0) {
        assertionViolated := true;
      }
    }

    /** The assignments of `lookAt` up to the front. */
    method Aim(pos: Vec3, at: Vec3, up: Vec3)
      modifies this
      ensures assertionViolated == old(assertionViolated)
      ensures State() == Aimed(lib, old(State()), pos, at, up)
      ensures flags == old(flags)
    {
      eye := pos;
      this.at := at;
      this.up := lib.normalize(up);
      front := lib.normalize(Sub(this.at, eye));
    }

    /** The assignments of `lookAt` from the right vector on. */
    method RebuildBasis()
      modifies this
      ensures assertionViolated == old(assertionViolated)
      ensures State() == BasisRebuilt(lib, old(State()))
      ensures flags == old(flags)
    {
      var oldRight := right;
      right := Cross(front, up);
      if IsZero(right) {
        oldRight := oldRight.(y := 0.0);
        right := lib.normalize(oldRight);
      }
      upReal := Cross(right, front);
    }

    method Rotate(angle: real)
      requires Valid()
      modifies this
      ensures assertionViolated == old(assertionViolated)
      ensures State() == Rotated(lib, old(State()), angle)
      ensures flags == WithBits(old(flags), ROTATION_UPDATED)
      ensures Valid()
    {
      ghost var s, f := State(), flags;
      front := lib.rotate(angle, upReal, front);
      right := lib.rotate(angle, upReal, right);
      MarkUpdated(ROTATION_UPDATED);
      assert State() == s.(front := lib.rotate(angle, s.upReal, s.front),
                           right := lib.rotate(angle, s.upReal, s.right));
      UpdateAngles();
      assert State() == Rotated(lib, s, angle);
      RotateKeepsCoherent(lib, s, f, angle);
    }

    method RotateAbout(axis: Vec3, angle: real)
      modifies this
      ensures assertionViolated == (old(assertionViolated) || !LookAtAssertionsHold(lib, old(State()), old(eye), TurnedTarget(lib, old(State()), axis, angle), old(up)))
      ensures State() == RotatedAbout(lib, old(State()), axis, angle)
      ensures flags == WithBits(old(flags), BOTH_UPDATED)
      ensures Valid()
    {
      LookAt(eye, Add(eye, lib.rotate(angle, lib.normalize(axis), Sub(at, eye))), up);
    }

    method RotateAround(angle: real)
      modifies this
      ensures assertionViolated == (old(assertionViolated) || !LookAtAssertionsHold(lib, old(State()), OrbitEye(lib, old(State()), angle), old(at), old(up)))
      ensures State() == Orbited(lib, old(State()), angle)
      ensures flags == WithBits(old(flags), BOTH_UPDATED)
      ensures Valid()
    {
      LookAt(Add(at, lib.rotate(angle, upReal, Sub(eye, at))), at, up);
    }

    method MouseLook(dtX: real, dtY: real)
      modifies this
      ensures assertionViolated == (old(assertionViolated) || !LookAtAssertionsHold(lib, old(State()), old(eye), MouseLookTarget(lib, old(State()), dtX, dtY), old(up)))
      ensures State() == MouseLooked(lib, old(State()), dtX, dtY)
      ensures flags == WithBits(old(flags), BOTH_UPDATED)
      ensures Valid()
    {
      var angleXZ := xzAngle;
      var angleY := yAngle;
      angleXZ := angleXZ - dtX;
      angleY := angleY - dtY;
      angleY := Clamp(angleY, -PI_2, PI_2);
      var len := lib.length(Sub(at, eye));
      var target := Add(eye, Vec3(len * lib.sin(angleXZ) * lib.cos(angleY),
                                  len * lib.sin(angleY),
                                  len * lib.cos(angleXZ) * lib.cos(angleY)));
      assert target == MouseLookTarget(lib, State(), dtX, dtY);
      LookAt(eye, target, up);
    }

    /** `move(distance)`: along the normalised front. */
    method Move(distance: real)
      requires Valid()
      modifies this
      ensures assertionViolated == old(assertionViolated)
      ensures State() == Translated(old(State()), Scale(lib.normalize(old(front)), distance))
      ensures flags == WithBits(old(flags), TRANSLATION_UPDATED)
      ensures Valid()
    {
      var delta := Scale(lib.normalize(front), distance);
      MoveBy(delta);
    }

    /** `move(delta)`: by a world-space offset. */
    method MoveBy(delta: Vec3)
      requires Valid()
      modifies this
      ensures assertionViolated == old(assertionViolated)
      ensures State() == Translated(old(State()), delta)
      ensures flags == WithBits(old(flags), TRANSLATION_UPDATED)
      ensures Valid()
    {
      ghost var s, f := State(), flags;
      eye := Add(eye, delta);
      at := Add(at, delta);
      MarkUpdated(TRANSLATION_UPDATED);
      TranslateKeepsCoherent(lib, s, f, delta);
      assert State() == Translated(s, delta);
    }

    method Strafe(distance: real)
      requires Valid()
      modifies this
      ensures assertionViolated == old(assertionViolated)
      ensures State() == Translated(old(State()), Scale(lib.normalize(old(right)), distance))
      ensures flags == WithBits(old(flags), TRANSLATION_UPDATED)
      ensures Valid()
    {
      var delta := Scale(lib.normalize(right), distance);
      MoveBy(delta);
    }

    method Ascend(distance: real)
      requires Valid()
      modifies this
      ensures assertionViolated == old(assertionViolated)
      ensures State() == Translated(old(State()), Scale(lib.normalize(old(upReal)), distance))
      ensures flags == WithBits(old(flags), TRANSLATION_UPDATED)
      ensures Valid()
    {
      var delta := Scale(lib.normalize(upReal), distance);
      MoveBy(delta);
    }

    /** `moveRelative(delta)`: delta is given in (right, real up, front). */
    method MoveRelative(delta: Vec3)
      requires Valid()
      modifies this
      ensures assertionViolated == old(assertionViolated)
      ensures State() == Translated(old(State()), RelativeOffset(lib, old(State()), delta))
      ensures flags == WithBits(old(flags), TRANSLATION_UPDATED)
      ensures Valid()
    {
      var d := Add(Add(Scale(lib.normalize(right), delta.x), Scale(lib.normalize(upReal), delta.y)),
                   Scale(lib.normalize(front), delta.z));
      MoveBy(d);
    }

    /** `mFlags |= bits`. */
    method MarkUpdated(bits: bv32)
      modifies this
      ensures assertionViolated == old(assertionViolated)
      ensures State() == old(State())
      ensures flags == WithBits(old(flags), bits)
    {
      flags := flags | bits;
    }

    method UpdateAngles()
      modifies this
      ensures assertionViolated == old(assertionViolated)
      ensures State() == AnglesUpdated(lib, old(State())) && flags == old(flags)
    {
      if Abs(front.x) >= EPSILON || IntAbs(if front.z >= EPSILON then 1 else 0) != 0 {
        xzAngle := lib.atan2(front.x, front.z);
      }
      yAngle := lib.asin(Div(lib, front.y, lib.length(front)));
    }
  }
}
