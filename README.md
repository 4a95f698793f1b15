# the-game: windowing and camera core in Dafny

This project models the decision-making core of a small C++ windowing and
camera shim and proves what its code promises:

- **Camera** (`Cameras`): eye, target, basis, two angles, and a view matrix
  that is rebuilt lazily from a two-bit dirty mask. It models the cache
  protocol, which bit each mutator sets, the translation arithmetic, and the
  heading guard of `updateAngles` as written. The three assertions of
  `lookAt` are recorded in a flag rather than enforced. The geometry is exact `real`
  arithmetic. The foreign numerics (`normalized`, `atan2`, `asin`, `sinf`,
  `cosf`, quaternion rotation, `glm::translate`, matrix products and
  projections) are a record of functions passed in (`Geometry.MathLib`), so
  every camera result holds whatever those functions compute.
- **Events** (`Events`): the `Event` tagged union, its factories, and the
  private constructors with the outcome of their assertions.
- **Event pump** (`Windows`, `NativeWindow`):
  - the Linux X11 translation and the Win32 `wndProc` rules;
  - the ignore flags that make every other pointer motion a recentring;
  - the FIFO that `getEvent` fills, then pops at most one event from;
  - the GLX framebuffer-config choice and `translateKey`.
- **GL availability check** (`Rendering`): the table of entry points and the
  required/optional count of `initGLEW`.
- **Strings** (`Strings`): both `split` overloads, plus the narrow/wide
  copies.
- **Integer utilities** (`MathUtils`, `Bits32`, `Bits64`, `PowerOf2U32`,
  `PowerOf2U64`):
  - `clamp`;
  - `nextPowerOf2` over `bv32`/`bv64`, including its wrap-around to 0.
- **Singleton lifecycle** (`Singletons`).
- **Colour arithmetic** (`Colors`).
- **Logger newline rule** (`Logging`): the in-place termination of the
  1024-character buffer.
- **Main loop** (`MainLoop`): the window's open state at each `getEvent`
  call of `main`.

Objects the source updates in place are classes:

- `Cameras.Camera`;
- `Windows.Window`;
- `Singletons.Singleton`;
- `Colors.MutableColor`;
- the buffer of `Logging`, an `array<char>`.

Each method is proved against a specification function of the old state
(`State() == Spec(old(State()))`). The lemmas about those functions carry
the properties.

## Model

| member | source | states |
|---|---|---|
| MathUtils.Clamp | src/utils/math.h:19-22 | Result within [min, max] when min <= max; value unchanged inside the range; min below it, max above it |
| MathUtils.ClampIdempotent | src/utils/math.h:19-22 | Clamping twice is clamping once |
| PowerOf2U32.NextPowerOf2U32RoundsUp | src/utils/math.cpp:27-37 | For 1..2^31 the result is a power of two r with r/2 < v <= r; 0 and values above 2^31 wrap to 0 |
| PowerOf2U32.RoundsUpToBounds32 | src/utils/math.cpp:27-37 | The bitwise characterisation gives power of two, r >> 1 < v and v <= r |
| PowerOf2U32.RoundsUpUnique32 | src/utils/math.cpp:27-37 | At most one value rounds a given input up, so the result is the least power of two >= v |
| PowerOf2U32.PowerOf2Fixed32 | src/utils/math.cpp:29-36 | A power of two maps to itself |
| PowerOf2U32.NextPowerOf2Idempotent32 | src/utils/math.cpp:27-37 | Applying nextPowerOf2 twice equals applying it once, wrapped inputs included |
| PowerOf2U32.Smear32 | src/utils/math.cpp:30-34 | The five `value \|= value >> k` steps; SmearIsLowMask32 shows they turn a word into the mask of all bits up to its top bit |
| PowerOf2U32.NextPowerOf2U32 | src/utils/math.cpp:27-37 | nextPowerOf2<uint32_t>: wrapping decrement, smear, wrapping increment; its meaning is RoundsUpTo32, proved by NextPowerOf2U32RoundsUp |
| PowerOf2U32.RoundsUpTo32 | src/utils/math.cpp:27-37 | The independent definition of rounding up on 32 bits: a power of two r whose bit lies just above the top bit of value - 1, or 0 for inputs 0 and above 2^31 |
| PowerOf2U64.NextPowerOf2U64RoundsUp | src/utils/math.cpp:39-50 | The 64-bit version, with the extra shift by 32: a power of two r with r/2 < v <= r for 1..2^63, else 0 |
| PowerOf2U64.RoundsUpToBounds64 | src/utils/math.cpp:39-50 | Arithmetic bounds r >> 1 < v <= r from the bitwise characterisation |
| PowerOf2U64.RoundsUpUnique64 | src/utils/math.cpp:39-50 | The 64-bit result is the unique least power of two >= v |
| PowerOf2U64.PowerOf2Fixed64 | src/utils/math.cpp:41-48 | A power of two maps to itself |
| PowerOf2U64.NextPowerOf2Idempotent64 | src/utils/math.cpp:39-50 | Idempotent on every 64-bit input |
| PowerOf2U64.Smear64 | src/utils/math.cpp:42-47 | The six smear steps, the last a shift by 32; SmearIsLowMask64 shows they give the mask of all bits up to the top bit |
| PowerOf2U64.NextPowerOf2U64 | src/utils/math.cpp:39-50 | nextPowerOf2<uint64_t>: wrapping decrement, smear, wrapping increment; its meaning is RoundsUpTo64, proved by NextPowerOf2U64RoundsUp |
| PowerOf2U64.RoundsUpTo64 | src/utils/math.cpp:39-50 | The independent definition of rounding up on 64 bits, with 0 for inputs 0 and above 2^63 |
| Geometry.SubAddCancel | src/rendering/camera.cpp:160-206 | Adding one offset to eye and target keeps at - eye |
| Cameras.MouseLookPitch | src/rendering/camera.cpp:140-142 | The new pitch is old pitch - dtY, clamped into [-PI_2, PI_2] |
| Cameras.SetBitsFacts | src/rendering/camera.cpp:108 | `mask |= bits` sets those bits and leaves every other bit alone |
| Cameras.FlagsDistinct | src/rendering/camera.h:93-97 | The rotation and translation bits are distinct powers of two; setting one never sets the other |
| Cameras.AnglesUpdateEffect | src/rendering/camera.cpp:208-217 | updateAngles changes only the angles: heading recomputed exactly past the guard, pitch always |
| Cameras.LookAtEffect | src/rendering/camera.cpp:85-110 | lookAt stores pos, at and the normalised up, rebuilds front, right (fallback when front x up is zero) and upReal, and touches no matrix |
| Cameras.LookAtKeepsCoherent | src/rendering/camera.cpp:108 | After lookAt sets both bits the cache is coherent, from any state |
| Cameras.RotateEffect | src/rendering/camera.cpp:112-121 | rotate(angle) turns front and right only; eye, at, up and upReal stay, so at goes stale |
| Cameras.RotateKeepsCoherent | src/rendering/camera.cpp:112-121 | Setting only the rotation bit after rotate keeps a coherent cache coherent |
| Cameras.RotateAboutEffect | src/rendering/camera.cpp:123-127 | rotate(axis, angle) keeps the eye and turns the target about it |
| Cameras.OrbitEffect | src/rendering/camera.cpp:129-133 | rotateAround keeps the target and turns the eye about it |
| Cameras.MouseLookEffect | src/rendering/camera.cpp:135-158 | mouseLook keeps the eye and aims at the target built from the clamped pitch |
| Cameras.TranslateEffect | src/rendering/camera.cpp:160-206 | The translations add the same offset to eye and at, so at - eye is unchanged; basis, angles and matrices stay |
| Cameras.TranslateKeepsCoherent | src/rendering/camera.cpp:160-206 | Setting only the translation bit after a translation keeps a coherent cache coherent |
| Cameras.ProjectionSettersEffect | src/rendering/camera.cpp:30-48 | The projection setters replace their matrix only and keep the cache as coherent as it was |
| Cameras.ViewUpdateEffect | src/rendering/camera.cpp:50-73 | updateViewMatrix rebuilds exactly the parts whose bit is set and recomposes the view; on a coherent cache the view is the one computed from scratch |
| Cameras.ViewMatrixIsEager | src/rendering/camera.cpp:76-83 | On a coherent camera the matrix getViewMatrix returns equals the eagerly computed view, whichever bits are set |
| Cameras.ViewReadIdempotent | src/rendering/camera.cpp:76-83 | Two reads with no mutator in between return the same matrix; the second read changes nothing |
| Cameras.CleanReadChangesNothing | src/rendering/camera.cpp:78-82 | With a clear mask getViewMatrix changes nothing and returns the cached view |
| Cameras.InitialState | src/rendering/camera.cpp:8-28 | A new camera has eye (0,0,0), at (0,0,-1), normalised up, the default projections, and a coherent cache with both bits set |
| Cameras.HeadingGuardAsWritten | src/rendering/camera.cpp:210-211 | The guard holds exactly when \|front.x\| >= EPSILON or front.z >= EPSILON; a front toward -z never passes by z |
| Cameras.HeadingGuardMissesNegativeZ | src/rendering/camera.cpp:210-212 | The default front (0,0,-1) fails the guard as written but passes the intended one; the new camera keeps heading 0 |
| Cameras.IntendedAnglesUpdateEffect | src/rendering/camera.cpp:208-217 | With \|front.z\| in the guard, the heading is recomputed symmetrically in z, wherever the guard as written recomputes it |
| Cameras.LookAtOwnEyeFails | src/rendering/camera.cpp:85-104 | lookAt with pos == at fails its first assertion whenever normalising the zero vector gives no vector of positive length (zero or NaN) |
| Cameras.CollapsedBasisFails | src/rendering/camera.cpp:93-106 | A zero front or zero right fails the assertions; a zero right makes the real up zero too |
| Cameras.InitialLookAtHolds | src/rendering/camera.cpp:8-28 | The constructor's lookAt builds right +x, real up +y, front -z and keeps all three assertions, when normalising unit vectors returns them |
| Cameras.InitialBasis | src/rendering/camera.cpp:85-102 | From any state, lookAt from the origin towards -z with up +y builds front -z, right +x and real up +y, when normalize fixes those unit vectors |
| Cameras.InitialRebuilt | src/rendering/camera.cpp:93-102 | Rebuilding from front -z and up +y gives right +x and real up +y |
| Cameras.InitialRight | src/rendering/camera.cpp:93-100 | Looking down -z with up +y, front x up is +x, so the zero fallback is not taken, whatever the previous right |
| Cameras.UnitBasisHolds | src/rendering/camera.cpp:104-106 | A rebuilt basis made of the unit axes passes all three assertions |
| Cameras.RotationMatrixOf | src/rendering/camera.cpp:52-65 | The rotation matrix of the `#if 1` branch: right, real up and minus front as its first three columns, the last row (0, 0, 0, 1) |
| Cameras.TranslationMatrixOf | src/rendering/camera.cpp:67-69 | The translation matrix: glm::translate of minus the eye |
| Cameras.EagerView | src/rendering/camera.cpp:50-73 | The reference view without a cache: rotation times translation, both rebuilt from the current basis and eye; ViewMatrixIsEager compares getViewMatrix with it |
| Cameras.CacheCoherent | src/rendering/camera.cpp:50-83 | The cache protocol: a clear rotation bit means the rotation matrix is current, a clear translation bit the translation matrix, and a clear mask the view product |
| Cameras.ViewUpdated | src/rendering/camera.cpp:50-73 | updateViewMatrix: rebuild the rotation matrix if its bit is set, the translation matrix if its bit is set, then the view as their product; ViewUpdateEffect states what this means |
| Cameras.ViewRead | src/rendering/camera.cpp:76-83 | getViewMatrix's state change: ViewUpdated when some bit is set, the state unchanged otherwise |
| Cameras.ViewMatrixOf | src/rendering/camera.cpp:76-83 | The matrix getViewMatrix returns: the view field after ViewRead |
| Cameras.HeadingGuard | src/rendering/camera.cpp:210-211 | The guard as written: \|front.x\| >= EPSILON, or the absolute value of the 0/1 result of front.z >= EPSILON is non-zero |
| Cameras.IntendedHeadingGuard | src/rendering/camera.cpp:210-211 | The guard as meant: \|front.x\| >= EPSILON or \|front.z\| >= EPSILON |
| Cameras.AnglesUpdated | src/rendering/camera.cpp:208-217 | updateAngles: heading atan2(front.x, front.z) past the guard, else kept; pitch asin(front.y / length(front)), with a zero length going to the float division model |
| Cameras.IntendedAnglesUpdated | src/rendering/camera.cpp:208-217 | updateAngles with the intended guard |
| Cameras.RightFor | src/rendering/camera.cpp:93-100 | The right vector lookAt settles on: front x up, or, when that is exactly zero, the previous right with y set to 0, normalised |
| Cameras.Aimed | src/rendering/camera.cpp:87-91 | The first half of lookAt: eye and target stored, up normalised, front the normalised target minus eye |
| Cameras.BasisRebuilt | src/rendering/camera.cpp:93-102 | The second half of lookAt: right from RightFor, real up as right x front |
| Cameras.Reoriented | src/rendering/camera.cpp:85-102 | lookAt up to its assertions: Aimed, then BasisRebuilt |
| Cameras.LookAtAssertionsHold | src/rendering/camera.cpp:104-106 | The three assertions on the rebuilt basis: front, right and real up each have a positive dot product with itself |
| Cameras.LookedAt | src/rendering/camera.cpp:85-110 | lookAt: Reoriented, then updateAngles; LookAtEffect states what this changes |
| Cameras.Rotated | src/rendering/camera.cpp:112-121 | rotate(angle): front and right turned about the real up by the foreign quaternion rotation, then updateAngles |
| Cameras.TurnedTarget | src/rendering/camera.cpp:123-126 | The target rotate(axis, angle) passes to lookAt: eye plus (at - eye) turned about the normalised axis |
| Cameras.RotatedAbout | src/rendering/camera.cpp:123-127 | rotate(axis, angle): lookAt from the same eye at TurnedTarget with the stored up |
| Cameras.OrbitEye | src/rendering/camera.cpp:129-132 | The eye rotateAround(angle) passes to lookAt: at plus (eye - at) turned about the real up |
| Cameras.Orbited | src/rendering/camera.cpp:129-133 | rotateAround(angle): lookAt from OrbitEye at the same target with the stored up |
| Cameras.MouseLookTarget | src/rendering/camera.cpp:135-147 | The target mouseLook builds: the old distance from the eye along the new heading (old minus dtX) and the clamped pitch |
| Cameras.MouseLooked | src/rendering/camera.cpp:135-158 | mouseLook: lookAt from the same eye at MouseLookTarget with the stored up |
| Cameras.Translated | src/rendering/camera.cpp:160-206 | The common effect of the four translations: the same offset added to eye and target |
| Cameras.RelativeOffset | src/rendering/camera.cpp:195-200 | The offset of moveRelative: delta.x along the normalised right, delta.y along the normalised real up, delta.z along the normalised front |
| Cameras.WithOrthographic | src/rendering/camera.cpp:30-39 | setOrthographicMatrix: the orthographic matrix replaced by the foreign ortho of the six bounds |
| Cameras.WithPerspective | src/rendering/camera.cpp:41-48 | setPerspectiveMatrix: the perspective matrix replaced by the foreign perspective of fov, aspect ratio, near and far |
| Cameras.Unset | src/rendering/camera.cpp:8-22 | The member initialisers: identity matrices, eye 0, target and front -z, up and real up +y, right +x, both angles 0 |
| Cameras.Projected | src/rendering/camera.cpp:8-25 | The state after the constructor's two setters, with their default arguments |
| Cameras.Initial | src/rendering/camera.cpp:8-28 | The state the constructor leaves: lookAt(eye, at, up) on Projected; InitialState states what it holds |
| Cameras.WithBits | src/rendering/camera.cpp:108 | `mask \| bits`; SetBitsFacts states that it sets those bits and keeps the others |
| Cameras.Camera.constructor | src/rendering/camera.cpp:8-28 | The state is Initial, the mask has both bits set, and the cache is coherent; the assertion flag records whether the constructor's lookAt failed its assertions |
| Cameras.Camera.SetOrthographicMatrix | src/rendering/camera.cpp:30-39 | Only the orthographic matrix changes; the mask is unchanged |
| Cameras.Camera.SetPerspectiveMatrix | src/rendering/camera.cpp:41-48 | Only the perspective matrix changes; the mask is unchanged |
| Cameras.Camera.UpdateViewMatrix | src/rendering/camera.cpp:50-73 | New state is ViewUpdated of the old state and mask; the mask is cleared |
| Cameras.Camera.GetViewMatrix | src/rendering/camera.cpp:76-83 | Returns the eagerly computed view, clears the mask, keeps the cache coherent |
| Cameras.Camera.GetViewProjectionMatrix | src/rendering/camera.h:41-48 | Orthographic: that matrix alone, nothing changes. Perspective: perspective times the view, with the mask cleared |
| Cameras.Camera.LookAt | src/rendering/camera.cpp:85-110 | New state is LookedAt of the old one; both bits set; cache coherent; the assertion flag is raised exactly when one of the three assertions fails on the rebuilt basis |
| Cameras.Camera.CheckBasis | src/rendering/camera.cpp:104-106 | The flag is raised exactly when front, right or real up has a non-positive dot product with itself; nothing else changes |
| Cameras.Camera.Aim | src/rendering/camera.cpp:87-91 | The state becomes Aimed of the old state; mask and flag unchanged |
| Cameras.Camera.RebuildBasis | src/rendering/camera.cpp:93-102 | The state becomes BasisRebuilt of the old state; mask and flag unchanged |
| Cameras.Camera.MarkUpdated | src/rendering/camera.cpp:108 | The mask becomes old mask \| bits; state and flag unchanged |
| Cameras.Camera.Rotate | src/rendering/camera.cpp:112-121 | New state is Rotated of the old one; only the rotation bit added; cache coherent |
| Cameras.Camera.RotateAbout | src/rendering/camera.cpp:123-127 | New state is RotatedAbout of the old one; both bits set; lookAt's assertions checked on the turned target |
| Cameras.Camera.RotateAround | src/rendering/camera.cpp:129-133 | New state is Orbited of the old one; both bits set; lookAt's assertions checked on the orbited eye |
| Cameras.Camera.MouseLook | src/rendering/camera.cpp:135-158 | New state is MouseLooked of the old one; both bits set; lookAt's assertions checked on the new target |
| Cameras.Camera.Move | src/rendering/camera.cpp:160-167 | Eye and target move by the normalised front times the distance; only the translation bit added |
| Cameras.Camera.MoveBy | src/rendering/camera.cpp:169-175 | Eye and target move by delta; only the translation bit added; cache coherent |
| Cameras.Camera.Strafe | src/rendering/camera.cpp:177-184 | Eye and target move along the normalised right; only the translation bit added |
| Cameras.Camera.Ascend | src/rendering/camera.cpp:186-193 | Eye and target move along the normalised real up; only the translation bit added |
| Cameras.Camera.MoveRelative | src/rendering/camera.cpp:195-206 | Eye and target move by delta taken in (right, upReal, front); only the translation bit added |
| Cameras.Camera.UpdateAngles | src/rendering/camera.cpp:208-217 | New state is AnglesUpdated of the old one; the mask is unchanged |
| Events.ToUnsigned | src/window/window.cpp:106-107 | int to unsigned: unchanged when non-negative, plus 2^32 when negative |
| Events.Ordinal | src/window/event.h:266-279 | Enumerators promote to 0..9, and only Invalid promotes to 0 |
| Events.DefaultEvent | src/window/event.h:300-303 | A default event has type Invalid and a zeroed union |
| Events.FactoryOutcomes | src/window/event.h:305-404 | Every factory except windowResizedEvent keeps its constructor's assertion; every factory except windowClosedEvent yields the type it is named for |
| Events.FactoryPayloads | src/window/event.h:305-404 | Each factory stores position and button, delta, key, size or focus exactly as passed |
| Events.ResizeFactoryFails | src/window/event.h:334-338 | windowResizedEvent stores the size, then trips the constructor's assertion on every input; with the break it would not |
| Events.PointEventAccepts | src/window/event.h:364-382 | The point constructor keeps its assertion exactly for MouseMoved as written, and for MouseMoved or WindowResized with the break |
| Events.WindowClosedIsWheel | src/window/event.h:343-346 | windowClosedEvent() equals mouseWheelEvent(9), not a WindowClosed event |
| Events.IntendedClosedIsDistinct | src/window/event.h:343-346 | The intended closed event has type WindowClosed and differs from every wheel event |
| Events.OrdinalInjective | src/window/event.h:266-279 | Distinct types promote to distinct integers |
| Events.ButtonEvent | src/window/event.h:349-362 | The button constructor: stores button and position, and keeps its assertion exactly for MousePressed or MouseReleased |
| Events.PointEvent | src/window/event.h:364-382 | The point constructor as written: MouseMoved stores the position and keeps the assertion; WindowResized stores the size and fails it by falling through; any other type fails it |
| Events.IntendedPointEvent | src/window/event.h:364-382 | The point constructor with a break after the resize case: WindowResized keeps its assertion |
| Events.WheelEvent | src/window/event.h:384-389 | Event(int): type MouseWheel with the delta; no assertion |
| Events.KeyEvent | src/window/event.h:391-397 | Event(Key, bool): KeyPressed or KeyReleased by the flag, with the key |
| Events.FocusEvent | src/window/event.h:399-404 | Event(bool): WindowFocus with the flag |
| Events.MouseMovedEvent | src/window/event.h:305-309 | mouseMovedEvent: the point constructor with MouseMoved |
| Events.MousePressedEvent | src/window/event.h:310-315 | mousePressedEvent: the button constructor with MousePressed |
| Events.MouseReleasedEvent | src/window/event.h:316-321 | mouseReleasedEvent: the button constructor with MouseReleased |
| Events.MouseWheelEvent | src/window/event.h:322-325 | mouseWheelEvent: Event(int) |
| Events.KeyPressedEvent | src/window/event.h:326-329 | keyPressedEvent: Event(code, true) |
| Events.KeyReleasedEvent | src/window/event.h:330-333 | keyReleasedEvent: Event(code, false) |
| Events.WindowResizedEvent | src/window/event.h:334-338 | windowResizedEvent: the object the point constructor builds for WindowResized, whose assertion fails (ResizeFactoryFails) |
| Events.WindowFocusEvent | src/window/event.h:339-342 | windowFocusEvent: Event(bool) |
| Events.WindowClosedEvent | src/window/event.h:343-346 | windowClosedEvent as written: Event(int) on the promoted enumerator, a wheel event (WindowClosedIsWheel) |
| Events.IntendedWindowClosedEvent | src/window/event.h:343-346 | windowClosedEvent as meant: type WindowClosed with a zeroed union |
| Events.Construct | src/window/event.h:305-346 | The private constructor each factory calls, with its arguments; FactoryOutcomes and FactoryPayloads state the results |
| Events.Intended | src/window/event.h:305-346 | The type each factory is named for; FactoryOutcomes compares it with the type built |
| NativeWindow.MaxSamples | src/window/native_window_handle.cpp:19-41 | The maximum is >= 0, bounds every eligible config's samples, and is attained when positive |
| NativeWindow.Eligible | src/window/native_window_handle.cpp:25-34 | A config the loop can pick: it has a visual and non-zero sample buffers |
| NativeWindow.ChooseBestFBConfig | src/window/native_window_handle.cpp:13-44 | Returns a valid index; when some eligible config has samples > 0, the earliest config attaining the maximum; otherwise index 0 |
| NativeWindow.TranslateKey | src/window/native_window_handle.cpp:139-149 | Any code other than VK_SHIFT is unchanged; VK_SHIFT becomes VK_LSHIFT exactly when the key state shifted right by 4 is non-zero, else VK_RSHIFT |
| NativeWindow.LoWord | src/window/native_window_handle.cpp:181 | LOWORD is below 2^16 |
| NativeWindow.HiWord | src/window/native_window_handle.cpp:181 | HIWORD is below 2^16 |
| NativeWindow.WordsRoundTrip | src/window/native_window_handle.cpp:181-202 | LOWORD and HIWORD recover the two halves of a packed LPARAM |
| NativeWindow.XButtonBits | src/window/native_window_handle.cpp:205 | `w & 0x60` is non-zero: bit 5 or bit 6 of w is set |
| NativeWindow.XButton1Bit | src/window/native_window_handle.cpp:206 | `w & 0x20` is non-zero |
| NativeWindow.XButtonOf | src/window/native_window_handle.cpp:204-219 | The X button a message names: VK_XBUTTON1 when bit 0x20 is set, otherwise VK_XBUTTON2 |
| NativeWindow.WndProc | src/window/native_window_handle.cpp:151-269 | wndProc: nothing before the Window pointer is stored; then one event per handled message as the switch pushes it; the ignore flag of WM_MOUSEMOVE; WM_CLOSE drops the handle; WndProcShape, XButtonRule, MouseMoveRule and SizeRule state its rules |
| NativeWindow.WndProcShape | src/window/native_window_handle.cpp:151-269 | At most one event per message and none before the Window pointer is stored; only WM_CLOSE drops the handle; only WM_CREATE stores the pointer |
| NativeWindow.XButtonRule | src/window/native_window_handle.cpp:204-219 | An X button event is pushed exactly when w & 0x60 is set; X1 when bit 0x20 is set, otherwise X2 |
| NativeWindow.MouseMoveRule | src/window/native_window_handle.cpp:227-249 | With ignore set it is cleared and nothing is pushed; otherwise a move is pushed and ignore is set (with a recentring) exactly when the cursor is locked |
| NativeWindow.SizeRule | src/window/native_window_handle.cpp:253-259 | WM_SIZE pushes a resize exactly for SIZE_RESTORED or SIZE_MAXIMIZED |
| NativeWindow.LockedMovesAlternate | src/window/native_window_handle.cpp:227-249 | With the cursor locked, two moves in a row push exactly one event and restore the state |
| NativeWindow.Pump | src/window/window.cpp:277-282 | Message loop: at most one event per message, and nothing from a closed window |
| NativeWindow.ReadsDroppedHandle | src/window/window.cpp:277-282 | The loop as written: after a dispatch that drops the handle, the next PeekMessage reads through it |
| NativeWindow.DroppedHandleIffClosed | src/window/window.cpp:278 | From an open window, the loop as written reads the dropped handle exactly when the guarded loop ends closed |
| NativeWindow.CloseReadsDroppedHandle | src/window/native_window_handle.cpp:260-263 | One WM_CLOSE pushes the closed event, drops the handle, and the next PeekMessage reads it |
| NativeWindow.PumpWithoutClose | src/window/window.cpp:278-282 | Without WM_CLOSE every message is dispatched and the window stays open |
| Windows.TranslateShape | src/window/window.cpp:91-153 | Each handled X event pushes exactly one event, others none; only a locked motion touches ignore or warps |
| Windows.ButtonMapping | src/window/window.cpp:104-125 | Press below Button4 gives MousePressed(x, y, button), Button4 gives wheel -1, higher gives wheel +1; release always MouseReleased with the raw button |
| Windows.CountHandled | src/window/window.cpp:91-153 | The number of handled events is at most the number of events |
| Windows.DrainCount | src/window/window.cpp:87-154 | The drain pushes exactly one event per handled X event |
| Windows.DrainSnoc | src/window/window.cpp:87-154 | Draining one more event appends what the loop body makes of it |
| Windows.DrainAppend | src/window/window.cpp:87-154 | Draining a then b equals draining a + b: events in delivery order, with the flag carried over |
| Windows.UnlockedDrainKeepsFlag | src/window/window.cpp:130-140 | With the cursor unlocked, ignore keeps its value and nothing warps |
| Windows.LockedMotionsWarpEveryOther | src/window/window.cpp:126-141 | With the cursor locked, n motions push n moves, warp (n+1)/2 times, and leave ignore set exactly when n is odd |
| Windows.DrainStep | src/window/window.cpp:87-154 | One more pass of the loop body is one more drained event |
| Windows.PumpStep | src/window/window.cpp:278-282 | Pumping from an open window is dispatching the first message, then pumping the rest |
| Windows.PumpDone | src/window/window.cpp:278 | An exhausted run or a closed window leaves the state unchanged |
| Windows.CreatedWindowReceivesInput | src/window/window.cpp:273-292 | A newly created window's pump queues a key press and a click, in order, and stays open |
| Windows.Translate | src/window/window.cpp:91-153 | One pass of the switch of the Linux getEvent: the event pushed for each handled type, the new ignore flag and whether XWarpPointer runs; TranslateShape and ButtonMapping state its rules |
| Windows.Handled | src/window/window.cpp:91-153 | The X event types the switch has a case for: all but the default |
| Windows.Drain | src/window/window.cpp:87-154 | The XPending loop over the pending X events in delivery order: events pushed, final ignore flag, number of warps |
| Windows.Created | src/window/window.cpp:11-26 | The state the constructor leaves: open and attached exactly when creation succeeded, cursor unlocked, empty queue, both ignore flags clear, no recentring |
| Windows.AfterStep | src/window/window.cpp:91-153 | The window state after one pass: the step's events appended, its ignore flag taken, a warp counted |
| Windows.AfterDrain | src/window/window.cpp:87-154 | The window state after the drain: the drained events appended, its ignore flag taken, its warps counted |
| Windows.AfterDispatch | src/window/native_window_handle.cpp:173-266 | The window state after one wndProc call: its events appended, its attach, open and ignore flags taken, a recentring counted |
| Windows.AfterPump | src/window/window.cpp:277-282 | The window state after the message loop: the pushed events appended, the final flags taken, the recentrings counted |
| Windows.Window.constructor | src/window/window.cpp:11-26 | Open exactly when creation succeeded; cursor unlocked; empty queue; attached to its native window exactly when created, since WM_CREATE arrives inside CreateWindowEx |
| Windows.Window.Close | src/window/window.cpp:39-42 | Drops the handle and changes nothing else |
| Windows.Window.IsOpened | src/window/window.cpp:44-47 | Reports whether the handle is held |
| Windows.Window.LockCursor | src/window/window.cpp:49-52 | Stores the flag and changes nothing else |
| Windows.Window.Push | src/window/window.cpp:95 | Appends the events to the back of the queue, in order |
| Windows.Window.HandleXEvent | src/window/window.cpp:91-153 | New state is AfterStep of the old state and the translated step |
| Windows.Window.PopEvent | src/window/window.cpp:156-162 | With a non-empty queue: returns the old front and removes it. Otherwise: returns false, e untouched, nothing changes |
| Windows.Window.DrainPending | src/window/window.cpp:87-154 | New state is AfterDrain of the old state and the drain of all pending events |
| Windows.Window.GetEvent | src/window/window.cpp:85-163 | Drains every pending event first, then pops at most one: true with the front exactly when the drained queue is non-empty |
| Windows.Window.WndProc | src/window/native_window_handle.cpp:151-269 | New state is AfterDispatch of the old state and the wndProc rules |
| Windows.Window.Apply | src/window/native_window_handle.cpp:173-266 | Appends the pushed events and takes the new flags, counting a recentring |
| Windows.Window.PumpMessages | src/window/window.cpp:277-282 | New state is AfterPump of the old state and the guarded message loop |
| Windows.Window.GetEventWin32 | src/window/window.cpp:273-292 | Pumps every message first (until WM_CLOSE), then pops at most one; true exactly when the queue is non-empty |
| Rendering.CountMissing | src/rendering/renderer.cpp:158-174 | The count is at most the table's length |
| Rendering.FunctionTable | src/rendering/renderer.cpp:117-156 | The table has 34 entries, and exactly entries 6, 7, 11, 15 and 16 are optional |
| Rendering.StatusOf | src/rendering/renderer.cpp:160-168 | What is logged for one entry: OK when present, NOT AVAILABLE as a warning when optional, as an error when required |
| Rendering.RequiredAndMissing | src/rendering/renderer.cpp:163-167 | An entry that increments the counter: required and absent |
| Rendering.CountMissingZero | src/rendering/renderer.cpp:176-180 | The count is zero exactly when no required entry is missing |
| Rendering.OptionalIrrelevant | src/rendering/renderer.cpp:163-164 | Drivers that agree on the required entries give the same count |
| Rendering.CheckFunctions | src/rendering/renderer.cpp:158-174 | One status per entry in table order, and the count equals CountMissing |
| Rendering.InitGlew | src/rendering/renderer.cpp:96-180 | False with nothing examined when glewInit fails; otherwise every entry reported and true iff no required entry is missing |
| Strings.Narrow | src/utils/string.cpp:10-13 | Narrowing keeps values in char range and is congruent mod 256 |
| Strings.ToWString | src/utils/string.cpp:15-18 | Same length; each char widened with its value |
| Strings.ToString | src/utils/string.cpp:10-13 | Same length; each wchar_t narrowed |
| Strings.NarrowWidenRoundTrip | src/utils/string.cpp:10-18 | toString(toWString(s)) == s |
| Strings.WidenNarrowRoundTrip | src/utils/string.cpp:10-18 | toWString(toString(w)) == w exactly when every character fits in a char |
| Strings.Find | src/utils/string.cpp:25 | find returns the first index at or after from holding c, or npos when there is none |
| Strings.SplitCharFrom | src/utils/string.cpp:24-33 | At least one piece from any loop state |
| Strings.SplitChar | src/utils/string.cpp:20-36 | The loop returns SplitCharAsWritten |
| Strings.SplitCharAsWritten | src/utils/string.cpp:20-36 | split(str, c) as written: the loop from prev 0 and at npos, then the tail from prev; SplitCharShape and SplitCharDropsFirstPiece state what it returns |
| Strings.SplitCharIntended | src/utils/string.cpp:20-36 | split(str, c) with prev past the separator and empty pieces skipped; SplitCharIntendedPieces states what it returns |
| Strings.PiecesStartWithSeparator | src/utils/string.cpp:27-31 | From a state whose prev is a separator, every piece starts with that separator |
| Strings.SplitCharShape | src/utils/string.cpp:24-33 | At least one piece; [str] when c does not occur; every piece after the first starts with c |
| Strings.SplitCharDropsFirstPiece | src/utils/string.cpp:27-31 | split("a,b", ',') is [",b"] as written, ["a", "b"] with the fix |
| Strings.SplitCharIntendedFrom | src/utils/string.cpp:24-33 | The corrected loop returns at least one piece |
| Strings.SplitCharIntendedFromClean | src/utils/string.cpp:24-33 | No piece of the corrected split holds c |
| Strings.SplitCharIntendedFromJoin | src/utils/string.cpp:24-33 | The corrected pieces joined are the text with c removed |
| Strings.SplitCharIntendedPieces | src/utils/string.cpp:20-36 | Corrected split(str, c): clean pieces that join to str without c |
| Strings.Filter | src/utils/string.cpp:44-59 | Removing separators never lengthens |
| Strings.SplitByLoop | src/utils/string.cpp:38-62 | The loop returns SplitBy |
| Strings.SplitByFrom | src/utils/string.cpp:44-59 | The pieces split(str, isSeparator) pushes from a loop state on: a piece at each separator that ends a non-empty run, prev moved past a separator at prev, and the non-empty tail |
| Strings.SplitBy | src/utils/string.cpp:38-62 | split(str, isSeparator): SplitByFrom from prev 0, at 0; SplitByPieces states what it returns |
| Strings.SplitByFromNonEmpty | src/utils/string.cpp:48-51 | No piece is empty |
| Strings.SplitByFromClean | src/utils/string.cpp:45-55 | No piece holds a separator |
| Strings.SplitByFromJoin | src/utils/string.cpp:44-59 | The pieces joined are the text with the separators removed |
| Strings.SplitByPieces | src/utils/string.cpp:38-62 | split(str, pred): non-empty, separator-free pieces that join to str without separators |
| Strings.SplitByAllSeparators | src/utils/string.cpp:57-59 | An empty or all-separator string splits into no pieces |
| Singletons.Construct | src/utils/singleton.h:45-49 | Every new T takes the next instance number |
| Singletons.Get | src/utils/singleton.h:15-23 | get(): the current instance when mPtr is set, otherwise a new one stored in mPtr; GetEffect states this |
| Singletons.Reset | src/utils/singleton.h:25-32 | reset() as written: with mPtr set, new T runs while mPtr still holds the deleted instance, then mPtr takes the new one; without it, nothing |
| Singletons.ResetIntended | src/utils/singleton.h:25-32 | reset() with mPtr cleared before new T |
| Singletons.Release | src/utils/singleton.h:34-39 | release(): mPtr becomes null |
| Singletons.GetEffect | src/utils/singleton.h:15-23 | get() returns the existing instance unchanged, or builds exactly one new one; mPtr is then non-null and is the result |
| Singletons.GetIdempotent | src/utils/singleton.h:15-23 | A second get() returns the same instance and changes nothing |
| Singletons.ReleaseEffect | src/utils/singleton.h:34-39 | release() leaves mPtr null and is idempotent |
| Singletons.ResetAsWritten | src/utils/singleton.h:25-32 | reset() does nothing without an instance; with one it installs a new instance but violates the constructor's assertion |
| Singletons.ResetIntendedKeepsAssertion | src/utils/singleton.h:25-32 | Clearing mPtr before new T keeps the assertion and otherwise has the same effect |
| Singletons.ReleaseThenGet | src/utils/singleton.h:15-39 | release() then get() is the corrected reset and never violates the assertion |
| Singletons.Singleton.constructor | src/utils/singleton.h:53 | mPtr starts null |
| Singletons.Singleton.New | src/utils/singleton.h:45-49 | Builds the next instance; the assertion is violated when mPtr is set |
| Singletons.Singleton.GetInstance | src/utils/singleton.h:15-23 | State and result are those of Get |
| Singletons.Singleton.ResetInstance | src/utils/singleton.h:25-32 | State is that of reset as written |
| Singletons.Singleton.ReleaseInstance | src/utils/singleton.h:34-39 | mPtr becomes null |
| Colors.ConstructorLaws | src/rendering/color.cpp:21-31 | The uniform constructor is a grey with the given alpha; the alpha-change constructor copies r, g, b and takes the new alpha |
| Colors.Rgb | src/rendering/color.cpp:25-27 | Color(r, g, b) with the default alpha 1 |
| Colors.Uniform | src/rendering/color.cpp:21-23 | Color(uniform, a): the same level in all three channels |
| Colors.WithAlpha | src/rendering/color.cpp:29-31 | Color(c, a): the channels of c with alpha a |
| Colors.Scale | src/rendering/color.cpp:33-36 | operator*: the three channels times the factor, alpha kept; ScaleLaws states its laws |
| Colors.Plus | src/rendering/color.cpp:46-49 | operator+: the channels added, the alphas averaged; PlusLaws states its laws |
| Colors.PredefinedColors | src/rendering/color.cpp:6-19 | The default is black with alpha 1, equal to the predefined black; every predefined colour is opaque; the uniform constructor gives white and black |
| Colors.PrimaryMixes | src/rendering/color.cpp:6-14 | Yellow, cyan, purple and white are sums of the primaries under operator+; orange is red plus half-intensity green |
| Colors.ScaleLaws | src/rendering/color.cpp:33-36 | operator* keeps alpha, is the identity for 1, composes by multiplying factors, and is undone by the inverse factor |
| Colors.PlusLaws | src/rendering/color.cpp:46-49 | operator+ is commutative; its alpha is the average and lies between the two alphas |
| Colors.ScaleDistributes | src/rendering/color.cpp:33-49 | Scaling distributes over addition |
| Colors.MutableColor.constructor | src/rendering/color.cpp:25-27 | The object holds the given components |
| Colors.MutableColor.MulAssign | src/rendering/color.cpp:38-44 | c *= f leaves c equal to the old c * f |
| Colors.MutableColor.AddAssign | src/rendering/color.cpp:51-58 | c += d leaves c equal to the old c + d |
| Logging.NewlineRule | src/utils/logger.cpp:49-54 | Only positions bytes_written and bytes_written+1 can change, to '\n' then '\0'. This happens only when 0 < bytes_written, bytes_written + 1 < 1024 and the text does not end in '\n'. Everything before bytes_written is kept |
| Logging.CStringUpTo | src/utils/logger.cpp:56 | The printed string ends at the first NUL |
| Logging.CString | src/utils/logger.cpp:56 | What `%s` prints of the buffer: everything before the first NUL |
| Logging.AppendsNewline | src/utils/logger.cpp:49-51 | The guard: bytes_written > 0, bytes_written + 1 < 1024, and the last character written is not a newline |
| Logging.Message | src/utils/logger.cpp:46-56 | The text log prints: the formatted text plus a newline when it is non-empty, has at most 1022 characters and does not end in one, otherwise what fits of it; MessageLaws states its laws |
| Logging.MessageLaws | src/utils/logger.cpp:46-56 | The printed text fits the buffer and starts with as much of the text as fits. It ends in a newline when the text has at most 1022 characters. Text already ending in '\n' is printed unchanged |
| Logging.Vsnprintf | src/utils/logger.cpp:48 | Copies as much of the text as fits before a NUL and returns the full length |
| Logging.TerminateLine | src/utils/logger.cpp:49-54 | The buffer becomes NewlineRule of the old buffer |
| Logging.Log | src/utils/logger.cpp:40-58 | The text printed is Message of the formatted text |
| MainLoop.FirstKeyPress | src/main.cpp:13-17 | The index of the first KeyPressed among the returned events, or their count; no earlier event is a key press |
| MainLoop.CallsAsWritten | src/main.cpp:10-21 | The window's open state at each getEvent call of the inner loop as written, ending with the call on the closed window |
| MainLoop.CallsIntended | src/main.cpp:10-21 | The same with isOpened() in the inner condition: no call once the window is closed |
| MainLoop.AsWrittenPollsClosed | src/main.cpp:13-21 | The inner loop calls getEvent on the closed window exactly when some KeyPressed is returned, on the call right after the first one |
| MainLoop.KeyPressPollsClosed | src/main.cpp:13-17 | A single key press makes the second getEvent call find the window closed |
| MainLoop.IntendedPollsOpenOnly | src/main.cpp:10-21 | With isOpened() in the inner condition every getEvent call finds the window open, and the loop stops right after the first key press |

## Left out

- Native window and context creation and teardown are inputs: `Window.constructor` takes whether creation succeeded, and `ChooseBestFBConfig` takes the GLX attributes.
- `create` passes `&windowObject`, which is declared nowhere, as the creation parameter; the model takes it to be the owning `Window`. Messages that `ShowWindow` and `UpdateWindow` send during creation (`WM_SIZE`, `WM_ACTIVATEAPP`) are not modelled, so a new window's queue starts empty.
- `getSize`, `hasFocus`, `setTitle`, `showCursor`, `resize`, `setFullscreen` and the GL wrappers are thin foreign calls, so they are not modelled. The viewport update in `WM_SIZE` and the target of `XWarpPointer`/`SetCursorPos` are left out for the same reason; only the fact that a recentring happened is counted.
- The camera accessors and projection getters are plain reads of `State()`. They have no members of their own.
- Float rounding is not modelled. The camera and the colours use exact `real` arithmetic, and the foreign numerics are arbitrary functions. Nothing is claimed about orthonormality of the basis.
- The Win32 path of `native_window_handle.cpp` does not build as written. Each error, and the reading the model gives it:
  - `WM_KEYDOWN` (line 175) lacks a closing parenthesis: read as its `WM_KEYUP` twin, with a press.
  - `WM_XBUTTONUP` (line 217) passes no button to `mouseReleasedEvent`: read as `btn`, as in `WM_XBUTTONDOWN`.
  - `WM_MOUSEWHEEL` (lines 220-226) calls `mouseWheelEvent` with three arguments: not modelled; the message falls under `Other` and pushes nothing.
  - `WM_MOUSEMOVE` (lines 240 and 244) reads `wndPtr->mWnd`, and `Window` has no such member (window.h:46-56): the recentring is counted, and its target is left out.
  - `translateKey` (line 147) passes the scoped enumerator `Key::LShift` (event.h:149) to `GetKeyState(int)`: read as the key state of `VK_LSHIFT`, which is an input.
  - `wndProc`, a free function in an anonymous namespace, reads `Window`'s private `mEvents`, `mLockCursor`, `mHandle` and `mRenderer`, and only `NativeWindowHandle` is a friend (window.h:46-47): the members are read as if accessible.
- The Win32 button names the code uses are not the Win32 enumerators; the model uses the VK codes.
- Windows.Window.GetEvent and Windows.Window.GetEventWin32: require an open window. The Linux version reads through the handle (`XPending(mHandle->display)`), and the Win32 version asserts the handle. A call on a closed window is undefined behaviour and is not modelled; `MainLoop` records when `main` makes such a call.
- `TranslateMessage`/`WM_CHAR` and the messages that reach `DefWindowProc` produce no events.
- The function-local statics `ignore` of both `getEvent` loops are fields of the one `Window`. This assumes a single window.
- Logging in the event code and in `initGLEW` (including each entry's extra message) is output only.
- The escape sequences, prefixes and colours `log` prints around the buffer are not modelled, and neither are `vsnprintf`'s format directives or encoding errors. The formatted text is an input.
- Logging.Vsnprintf, Logging.Log and Logging.Message count characters, not bytes: a text with characters outside ASCII would be cut at a different place by the 1024-byte buffer.
- Logging.Log: requires the formatted text to contain no NUL character. It treats the text as a C string.
- `toString`/`toWString` use a 32-bit signed `wchar_t` (as on Linux); the 16-bit Windows `wchar_t` is not modelled.
- `readFile` (file I/O) and the stream-based templates of `string.h` are not modelled.
- `matrixOrthographic`/`matrixPerspective` and the glm wrappers are foreign functions of `MathLib`.
- The singleton's `delete`/`new` are modelled only as the null or non-null state of `mPtr` plus instance numbers. No memory is modelled.
- The `uint32_t` counter of `initGLEW` is an unbounded `nat`. The table has 34 entries, so it cannot wrap.

## Findings

| source | as written | input that shows it | evidently intended | confidence | as-written member | corrected member |
|---|---|---|---|---|---|---|
| src/rendering/camera.cpp:210-211 | `std::abs(mFront.z >= math::EPSILON)` takes the absolute value of a comparison | front (0, 0, -1), the default camera | `std::abs(mFront.z) >= math::EPSILON` | high, not executed | Cameras.HeadingGuardMissesNegativeZ | Cameras.IntendedAnglesUpdateEffect |
| src/window/event.h:375-380 | the `WindowResized` case has no `break` and falls into `assert(!"invalid event type")` | `windowResizedEvent(640, 480)` | a `break` after storing the size | high, not executed | Events.ResizeFactoryFails | Events.PointEventAccepts |
| src/window/event.h:343-346 | `Event(WindowClosed)` selects `Event(int)` and yields a wheel event with delta 9 | `windowClosedEvent()` | an event of type `WindowClosed` | high, not executed | Events.WindowClosedIsWheel | Events.IntendedClosedIsDistinct |
| src/utils/string.cpp:27-31 | `prev = at` together with the test `at != prev + 1` | `split("a,b", ',')` gives `[",b"]` | `prev = at + 1`, skipping empty pieces | high, not executed | Strings.SplitCharDropsFirstPiece | Strings.SplitCharIntendedPieces |
| src/window/window.cpp:278 | after `WM_CLOSE` clears `mHandle` (native_window_handle.cpp:262), the loop calls `PeekMessage(&msg, mHandle->window, ...)` again | a single `WM_CLOSE` to an open window | stop the loop once the handle is dropped | medium, not executed | NativeWindow.CloseReadsDroppedHandle | NativeWindow.DroppedHandleIffClosed |
| src/utils/singleton.h:29-30 | `reset()` runs `new T` while `mPtr` still holds the deleted pointer, so the constructor's `assert(!mPtr)` fails | `get()` then `reset()` | `mPtr = NULL` before `new T` | high, not executed | Singletons.ResetAsWritten | Singletons.ResetIntendedKeepsAssertion |
| src/main.cpp:13-17 | after a `KeyPressed` calls `window.close()`, the inner `while (window.getEvent(event))` calls `getEvent` again on the closed window, which reads through the null handle | any key press | `while (window.isOpened() && window.getEvent(event))` | high, not executed | MainLoop.AsWrittenPollsClosed | MainLoop.IntendedPollsOpenOnly |

The camera, event factories, `split(str, c)` and singleton classes follow
the code as written. Their corrected definitions are separate members,
and the intended property is proved about each. The Win32 message loop
uses the corrected loop, which stops once the handle is dropped.
