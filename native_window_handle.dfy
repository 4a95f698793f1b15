/** The platform-dependent pieces of src/window/native_window_handle.cpp that
    are decisions rather than foreign calls: the GLX framebuffer-config choice,
    the Win32 key translation and the Win32 message-to-event rules of
    `wndProc`. What the foreign calls report (visual, sample attributes, key
    state, client size) is an input. */
module NativeWindow {

  import opened Events

  // ---------------------------------------------------------------------
  // chooseBestFBConfig (Linux)
  // ---------------------------------------------------------------------

  /** What GLX reports for one config: whether `glXGetVisualFromFBConfig`
      gives a visual, and its `GLX_SAMPLE_BUFFERS` and `GLX_SAMPLES`. */
  datatype FBConfigInfo = FBConfigInfo(hasVisual: bool, sampleBuffers: int, samples: int)

  /** A config the loop may pick: it has a visual and sample buffers. */
  predicate Eligible(c: FBConfigInfo)
  {
    c.hasVisual && c.sampleBuffers != 0
  }

  function Max(a: int, b: int): int { if a < b then b else a }

  /** The largest sample count among eligible configs, or 0 (the initial
      `bestNumSamp`) when none exceeds it. */
  function MaxSamples(cs: seq<FBConfigInfo>): (m: int)
    ensures m >= 0
    ensures forall j :: 0 <= j < |cs| && Eligible(cs[j]) ==> cs[j].samples <= m
    ensures m > 0 ==> exists j :: 0 <= j < |cs| && Eligible(cs[j]) && cs[j].samples == m
  {
    if cs == [] then 0
    else
      var last := cs[|cs| - 1];
      var m := MaxSamples(cs[..|cs| - 1]);
      assert forall j :: 0 <= j < |cs| - 1 ==> cs[..|cs| - 1][j] == cs[j];
      Max(m, if Eligible(last) then last.samples else 0)
  }

  /** Extending the prefix by one config folds that config into the maximum. */
  lemma {:induction false} MaxSamplesStep(cs: seq<FBConfigInfo>, i: nat)
    requires i < |cs|
    ensures MaxSamples(cs[..i + 1]) == Max(MaxSamples(cs[..i]), if Eligible(cs[i]) then cs[i].samples else 0)
  {
    assert cs[..i + 1][..i] == cs[..i];
  }

  /** No eligible config in a prefix has more samples than the prefix's maximum. */
  lemma {:induction false} BelowMaxSamples(cs: seq<FBConfigInfo>, i: nat, j: nat)
    requires j < i <= |cs| && Eligible(cs[j])
    ensures cs[j].samples <= MaxSamples(cs[..i])
  {
    assert cs[..i][j] == cs[j];
  }

  /** A config attaining `best` samples among the eligible ones. */
  predicate Attains(c: FBConfigInfo, best: int)
  {
    Eligible(c) && c.samples == best
  }

  /** `chooseBestFBConfig`: the index of the config returned. The best is
      replaced only by an eligible config with strictly more samples, so the
      result is the earliest config attaining the maximum, or index 0 when no
      eligible config has a positive sample count. */
  method ChooseBestFBConfig(configs: seq<FBConfigInfo>) returns (best: nat)
    requires |configs| > 0
    ensures best < |configs|
    ensures MaxSamples(configs) > 0 ==>
              && Attains(configs[best], MaxSamples(configs))
              && forall j :: 0 <= j < best ==> !Attains(configs[j], MaxSamples(configs))
    ensures MaxSamples(configs) == 0 ==> best == 0
  {
    var bestFbcId := 0;
    var bestNumSamp := 0;
    var i := 0;
    while i < |configs|
      invariant 0 <= i <= |configs|
      invariant bestNumSamp == MaxSamples(configs[..i])
      invariant bestNumSamp == 0 ==> bestFbcId == 0
      invariant bestNumSamp > 0 ==> bestFbcId < i && Attains(configs[bestFbcId], bestNumSamp)
      invariant forall j :: 0 <= j < bestFbcId ==> !Attains(configs[j], bestNumSamp)
    {
      var c := configs[i];
      MaxSamplesStep(configs, i);
      if c.hasVisual {
        if c.sampleBuffers != 0 && c.samples > bestNumSamp {
          bestFbcId := i;
          bestNumSamp := c.samples;
          forall j | 0 <= j < i
            ensures !Attains(configs[j], bestNumSamp)
          {
            if Eligible(configs[j]) {
              BelowMaxSamples(configs, i, j);
            }
          }
        }
      }
      i := i + 1;
    }
    assert configs[..i] == configs;
    best := bestFbcId;
  }

  // ---------------------------------------------------------------------
  // translateKey (Win32)
  // ---------------------------------------------------------------------

  const VK_SHIFT: int := 0x10
  const VK_LSHIFT: int := 0xA0
  const VK_RSHIFT: int := 0xA1

  /** `translateKey(keyCode)`: the code itself, except that the generic shift
      key becomes left or right shift by `GetKeyState(...) >> 4` (an
      arithmetic shift of a signed value, which Dafny's `/ 16` matches). The
      source passes the scoped `Key::LShift` where `int` is expected, which
      does not compile; `leftShiftState` is read as the state of `VK_LSHIFT`. */
  function TranslateKey(keyCode: nat, leftShiftState: int): (k: Key)
    ensures keyCode != VK_SHIFT ==> k == keyCode
    ensures keyCode == VK_SHIFT ==> k == VK_LSHIFT || k == VK_RSHIFT
    ensures keyCode == VK_SHIFT ==> (k == VK_LSHIFT <==> leftShiftState < 0 || leftShiftState >= 16)
  {
    if keyCode != VK_SHIFT then keyCode
    else if leftShiftState / 16 != 0 then VK_LSHIFT
    else VK_RSHIFT
  }

  // ---------------------------------------------------------------------
  // wndProc (Win32)
  // ---------------------------------------------------------------------

  /** `Mouse::Button` on Windows: the VK codes of the mouse buttons. */
  const VK_LBUTTON: Button := 1
  const VK_RBUTTON: Button := 2
  const VK_MBUTTON: Button := 4
  const VK_XBUTTON1: Button := 5
  const VK_XBUTTON2: Button := 6

  const SIZE_RESTORED: nat := 0
  const SIZE_MAXIMIZED: nat := 2

  /** The window messages `wndProc` distinguishes, with their `WPARAM` `w`
      (unsigned) and `LPARAM` `l`; `KeyDown`/`KeyUp` also carry what
      `GetKeyState` reports for left shift, and `Size` what `getSize` reports. */
  datatype Message =
    | Create
    | Destroy
    | KeyDown(w: nat, leftShiftState: int)
    | KeyUp(w: nat, leftShiftState: int)
    | LButtonDown(l: int) | LButtonUp(l: int)
    | RButtonDown(l: int) | RButtonUp(l: int)
    | MButtonDown(l: int) | MButtonUp(l: int)
    | XButtonDown(w: nat, l: int) | XButtonUp(w: nat, l: int)
    | MouseMove(l: int)
    | ActivateApp(w: nat)
    | Size(w: nat, width: i32, height: i32)
    | Close
    | Other(code: nat)

  /** `LOWORD(l)` and `HIWORD(l)`: bits 0-15 and 16-31 of the parameter as an
      unsigned word (Euclidean `/` and `%` give two's-complement bits). */
  function LoWord(l: int): (r: u32)
    ensures r < 0x1_0000
  {
    l % 0x1_0000
  }

  function HiWord(l: int): (r: u32)
    ensures r < 0x1_0000
  {
    (l / 0x1_0000) % 0x1_0000
  }

  /** `w & 0x60`: bit 5 or bit 6 of `w` is set. */
  function XButtonBits(w: nat): bool { (w / 0x20) % 4 != 0 }

  /** `w & 0x20`: bit 5 of `w` is set. */
  function XButton1Bit(w: nat): bool { (w / 0x20) % 2 == 1 }

  /** The window state `wndProc` reads and writes: whether the `Window*` is
      stored in the HWND yet, whether the window holds its handle, and the
      function-local static `ignore`. */
  datatype ProcState = ProcState(attached: bool, isOpen: bool, ignore: bool)

  /** What one call of `wndProc` does: the events it pushes, the new state,
      and whether it recentred the cursor with `SetCursorPos`. */
  datatype Dispatch = Dispatch(pushed: seq<Event>, state: ProcState, warped: bool)

  /** The X button a `WM_XBUTTON*` message names. */
  function XButtonOf(w: nat): Button
  {
    if XButton1Bit(w) then VK_XBUTTON1 else VK_XBUTTON2
  }

  /** `wndProc(hwnd, msg, w, l)`. The `Window*` is read before `WM_CREATE`
      stores it, so `WM_CREATE` itself and everything before it reach only
      `DefWindowProc`. The function does not compile as written, and each
      error is given a reading: the `WM_KEYDOWN` and `WM_XBUTTONUP` branches
      (a missing parenthesis, a missing argument) take the meaning of their
      `WM_KEYUP`/`WM_XBUTTONDOWN` twins; `WM_MOUSEWHEEL` (a call with three
      arguments) is `Other`; the recentring of `WM_MOUSEMOVE`, which reads a
      member `Window` lacks, is counted without its target; and `Window`'s
      private members are read as if accessible. */
  function WndProc(msg: Message, s: ProcState, cursorLocked: bool): Dispatch
  {
    var s' := if msg.Create? then s.(attached := true) else s;
    if !s.attached then Dispatch([], s', false)
    else
      match msg
      case KeyDown(w, st) => Dispatch([KeyPressedEvent(TranslateKey(w, st))], s', false)
      case KeyUp(w, st) => Dispatch([KeyReleasedEvent(TranslateKey(w, st))], s', false)
      case LButtonDown(l) => Dispatch([MousePressedEvent(LoWord(l), HiWord(l), VK_LBUTTON)], s', false)
      case LButtonUp(l) => Dispatch([MouseReleasedEvent(LoWord(l), HiWord(l), VK_LBUTTON)], s', false)
      case RButtonDown(l) => Dispatch([MousePressedEvent(LoWord(l), HiWord(l), VK_RBUTTON)], s', false)
      case RButtonUp(l) => Dispatch([MouseReleasedEvent(LoWord(l), HiWord(l), VK_RBUTTON)], s', false)
      case MButtonDown(l) => Dispatch([MousePressedEvent(LoWord(l), HiWord(l), VK_MBUTTON)], s', false)
      case MButtonUp(l) => Dispatch([MouseReleasedEvent(LoWord(l), HiWord(l), VK_MBUTTON)], s', false)
      case XButtonDown(w, l) =>
        if XButtonBits(w) then Dispatch([MousePressedEvent(LoWord(l), HiWord(l), XButtonOf(w))], s', false)
        else Dispatch([], s', false)
      case XButtonUp(w, l) =>
        if XButtonBits(w) then Dispatch([MouseReleasedEvent(LoWord(l), HiWord(l), XButtonOf(w))], s', false)
        else Dispatch([], s', false)
      case MouseMove(l) =>
        if s.ignore then Dispatch([], s'.(ignore := false), false)
        else if cursorLocked then Dispatch([MouseMovedEvent(LoWord(l), HiWord(l))], s'.(ignore := true), true)
        else Dispatch([MouseMovedEvent(LoWord(l), HiWord(l))], s', false)
      case ActivateApp(w) => Dispatch([WindowFocusEvent(w != 0)], s', false)
      case Size(w, width, height) =>
        if w == SIZE_RESTORED || w == SIZE_MAXIMIZED then
          Dispatch([WindowResizedEvent(ToUnsigned(width), ToUnsigned(height))], s', false)
        else Dispatch([], s', false)
      case Close => Dispatch([WindowClosedEvent()], s'.(isOpen := false), false)
      case _ => Dispatch([], s', false)
  }

  /** At most one event per message; none before the window is attached; the
      handle is dropped only by `WM_CLOSE`; the stored pointer is set only by
      `WM_CREATE` and never cleared. */
  lemma WndProcShape(msg: Message, s: ProcState, locked: bool)
    ensures var d := WndProc(msg, s, locked);
      && |d.pushed| <= 1
      && (!s.attached ==> d.pushed == [] && d.state == (if msg.Create? then s.(attached := true) else s))
      && (d.state.isOpen != s.isOpen <==> s.attached && s.isOpen && msg.Close?)
      && d.state.attached == (s.attached || msg.Create?)
      && (d.warped ==> msg.MouseMove? && locked)
  {
  }

  /** `WM_XBUTTONDOWN`/`UP` push an event exactly when `w & 0x60` is set,
      naming X1 when bit 0x20 is set and X2 otherwise. */
  lemma XButtonRule(w: nat, l: int, s: ProcState, locked: bool)
    requires s.attached
    ensures var d := WndProc(XButtonDown(w, l), s, locked);
      && (d.pushed != [] <==> XButtonBits(w))
      && (XButtonBits(w) ==> d.pushed == [MousePressedEvent(LoWord(l), HiWord(l), if XButton1Bit(w) then VK_XBUTTON1 else VK_XBUTTON2)])
    ensures var d := WndProc(XButtonUp(w, l), s, locked);
      && (d.pushed != [] <==> XButtonBits(w))
      && (XButtonBits(w) ==> d.pushed == [MouseReleasedEvent(LoWord(l), HiWord(l), if XButton1Bit(w) then VK_XBUTTON1 else VK_XBUTTON2)])
  {
  }

  /** `WM_MOUSEMOVE`: with `ignore` set, it is cleared and nothing is pushed;
      otherwise a move is pushed, and `ignore` becomes set (with a recentring)
      exactly when the cursor is locked. */
  lemma MouseMoveRule(l: int, s: ProcState, locked: bool)
    requires s.attached
    ensures var d := WndProc(MouseMove(l), s, locked);
      && (s.ignore ==> d.pushed == [] && !d.state.ignore && !d.warped)
      && (!s.ignore ==> d.pushed == [MouseMovedEvent(LoWord(l), HiWord(l))]
                        && d.state.ignore == locked && d.warped == locked)
  {
  }

  /** `WM_SIZE` pushes a resize only for a restored or maximised window. */
  lemma SizeRule(w: nat, width: i32, height: i32, s: ProcState, locked: bool)
    requires s.attached
    ensures var d := WndProc(Size(w, width, height), s, locked);
      d.pushed != [] <==> w == SIZE_RESTORED || w == SIZE_MAXIMIZED
  {
  }

  /** With the cursor locked, every move that is let through is followed by
      one that is swallowed: two moves in a row push exactly one event and
      leave `ignore` as it was. */
  lemma {:induction false} LockedMovesAlternate(l1: int, l2: int, s: ProcState)
    requires s.attached
    ensures var d1 := WndProc(MouseMove(l1), s, true);
      var d2 := WndProc(MouseMove(l2), d1.state, true);
      && |d1.pushed + d2.pushed| == 1
      && d2.state == s
  {
    MouseMoveRule(l1, s, true);
    var d1 := WndProc(MouseMove(l1), s, true);
    MouseMoveRule(l2, d1.state, true);
  }

  /** `LOWORD` and `HIWORD` recover the two halves of a packed parameter. */
  lemma {:induction false} WordsRoundTrip(lo: nat, hi: nat)
    requires lo < 0x1_0000 && hi < 0x1_0000
    ensures LoWord(hi * 0x1_0000 + lo) == lo
    ensures HiWord(hi * 0x1_0000 + lo) == hi
  {
    var l := hi * 0x1_0000 + lo;
    assert l / 0x1_0000 == hi;
  }
  // ---------------------------------------------------------------------
  // The message loop of Window::getEvent (Win32)
  // ---------------------------------------------------------------------

  /** What dispatching a run of messages does: the events pushed, in order,
      the final state, and how many times the cursor was recentred. */
  datatype Pumped = Pumped(pushed: seq<Event>, state: ProcState, warps: nat)

  /** The message loop, stopping once the window has dropped its handle
      (after which `PeekMessage` has no window to ask about). */
  function Pump(msgs: seq<Message>, s: ProcState, locked: bool): (p: Pumped)
    ensures |p.pushed| <= |msgs|
    ensures !s.isOpen ==> p == Pumped([], s, 0)
    decreases |msgs|
  {
    if msgs == [] || !s.isOpen then Pumped([], s, 0)
    else
      var d := WndProc(msgs[0], s, locked);
      WndProcShape(msgs[0], s, locked);
      var rest := Pump(msgs[1..], d.state, locked);
      Pumped(d.pushed + rest.pushed, rest.state, (if d.warped then 1 else 0) + rest.warps)
  }

  /** The loop as written: every dispatch is followed by another
      `PeekMessage(&msg, mHandle->window, ...)`, so it reads through the
      handle after a `WM_CLOSE` has dropped it. */
  predicate ReadsDroppedHandle(msgs: seq<Message>, s: ProcState, locked: bool)
    decreases |msgs|
  {
    if msgs == [] then false
    else
      var d := WndProc(msgs[0], s, locked);
      !d.state.isOpen || ReadsDroppedHandle(msgs[1..], d.state, locked)
  }

  /** Starting from an open window, the loop as written reads the dropped
      handle exactly when the guarded loop ends with the window closed. */
  lemma {:induction false} DroppedHandleIffClosed(msgs: seq<Message>, s: ProcState, locked: bool)
    requires s.isOpen
    ensures ReadsDroppedHandle(msgs, s, locked) <==> !Pump(msgs, s, locked).state.isOpen
    decreases |msgs|
  {
    if msgs != [] {
      var d := WndProc(msgs[0], s, locked);
      if d.state.isOpen {
        DroppedHandleIffClosed(msgs[1..], d.state, locked);
      }
    }
  }

  /** A single `WM_CLOSE` to an attached, open window is enough. */
  lemma CloseReadsDroppedHandle(locked: bool)
    ensures ReadsDroppedHandle([Close], ProcState(true, true, false), locked)
    ensures Pump([Close], ProcState(true, true, false), locked).pushed == [WindowClosedEvent()]
  {
    var s := ProcState(true, true, false);
    var d := WndProc(Close, s, locked);
    assert [Close][1..] == [];
    assert Pump([Close][1..], d.state, locked) == Pumped([], d.state, 0);
  }

  /** Only `WM_CLOSE` ends the loop early: without it, every message is
      dispatched and the window stays open. */
  lemma {:induction false} PumpWithoutClose(msgs: seq<Message>, s: ProcState, locked: bool)
    requires s.isOpen
    requires forall k :: 0 <= k < |msgs| ==> !msgs[k].Close?
    ensures Pump(msgs, s, locked).state.isOpen
    ensures !ReadsDroppedHandle(msgs, s, locked)
    decreases |msgs|
  {
    if msgs != [] {
      var d := WndProc(msgs[0], s, locked);
      WndProcShape(msgs[0], s, locked);
      PumpWithoutClose(msgs[1..], d.state, locked);
    }
  }
}
