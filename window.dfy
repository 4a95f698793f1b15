/** `sb::Window` (src/window/window.cpp): a native handle, a cursor-lock
    flag and a FIFO of translated events. `getEvent` first moves every pending
    native event into the FIFO, translating it, and then pops at most one. */
module Windows {

  import opened Events
  import NativeWindow
  import Sequences

  // ---------------------------------------------------------------------
  // X11 translation (Linux getEvent)
  // ---------------------------------------------------------------------

  /** The X events the Linux `getEvent` distinguishes, with the fields it
      reads; `KeyPress`/`KeyRelease` carry what `XLookupKeysym` returns. */
  datatype XEvent =
    | KeyPress(keysym: Key)
    | KeyRelease(keysym: Key)
    | ButtonPress(x: i32, y: i32, button: u32)
    | ButtonRelease(x: i32, y: i32, button: u32)
    | MotionNotify(x: i32, y: i32)
    | FocusIn
    | FocusOut
    | DestroyNotify
    | OtherXEvent(code: int)

  /** One pass of the loop body: the events pushed, the new value of the
      static `ignore`, and whether `XWarpPointer` was called. */
  datatype Step = Step(pushed: seq<Event>, ignore: bool, warped: bool)

  /** The `switch (event.type)` of the Linux `getEvent`. */
  function Translate(ev: XEvent, locked: bool, ignore: bool): Step
  {
    match ev
    case KeyPress(k) => Step([KeyPressedEvent(k)], ignore, false)
    case KeyRelease(k) => Step([KeyReleasedEvent(k)], ignore, false)
    case ButtonPress(x, y, b) =>
      if b < BUTTON_X1 then Step([MousePressedEvent(ToUnsigned(x), ToUnsigned(y), b)], ignore, false)
      else Step([MouseWheelEvent(if b == BUTTON_X1 then -1 else 1)], ignore, false)
    case ButtonRelease(x, y, b) => Step([MouseReleasedEvent(ToUnsigned(x), ToUnsigned(y), b)], ignore, false)
    case MotionNotify(x, y) =>
      Step([MouseMovedEvent(ToUnsigned(x), ToUnsigned(y))],
           if locked then !ignore else ignore,
           locked && !ignore)
    case FocusIn => Step([WindowFocusEvent(true)], ignore, false)
    case FocusOut => Step([WindowFocusEvent(false)], ignore, false)
    case DestroyNotify => Step([WindowClosedEvent()], ignore, false)
    case OtherXEvent(_) => Step([], ignore, false)
  }

  /** The X events `getEvent` has a case for. */
  predicate Handled(ev: XEvent) { !ev.OtherXEvent? }

  /** Each handled event yields exactly one event, the rest none, and only a
      motion with the cursor locked touches `ignore` or warps. */
  lemma TranslateShape(ev: XEvent, locked: bool, ignore: bool)
    ensures |Translate(ev, locked, ignore).pushed| == if Handled(ev) then 1 else 0
    ensures Translate(ev, locked, ignore).ignore != ignore ==> ev.MotionNotify? && locked
    ensures Translate(ev, locked, ignore).warped ==> ev.MotionNotify? && locked && !ignore
  {
  }

  /** `ButtonPress` by button number: a press below `Button4`, wheel -1 for
      `Button4` (X1), wheel +1 above; `ButtonRelease` always a release with
      the raw button, wheel buttons included. */
  lemma ButtonMapping(x: i32, y: i32, b: u32, locked: bool, ignore: bool)
    ensures b < BUTTON_X1 ==>
      Translate(ButtonPress(x, y, b), locked, ignore).pushed == [Event(MousePressed, Mouse(ToUnsigned(x), ToUnsigned(y), b))]
    ensures b == BUTTON_X1 ==>
      Translate(ButtonPress(x, y, b), locked, ignore).pushed == [Event(MouseWheel, WheelDelta(-1))]
    ensures b > BUTTON_X1 ==>
      Translate(ButtonPress(x, y, b), locked, ignore).pushed == [Event(MouseWheel, WheelDelta(1))]
    ensures Translate(ButtonRelease(x, y, b), locked, ignore).pushed == [Event(MouseReleased, Mouse(ToUnsigned(x), ToUnsigned(y), b))]
  {
  }

  /** What draining a run of X events does. */
  datatype Drained = Drained(pushed: seq<Event>, ignore: bool, warps: nat)

  /** The `while (XPending(...))` loop over `evs`, in delivery order. */
  function Drain(evs: seq<XEvent>, locked: bool, ignore: bool): Drained
  {
    if evs == [] then Drained([], ignore, 0)
    else
      var d := Drain(evs[..|evs| - 1], locked, ignore);
      var st := Translate(evs[|evs| - 1], locked, d.ignore);
      Drained(d.pushed + st.pushed, st.ignore, d.warps + if st.warped then 1 else 0)
  }

  /** How many of `evs` have a case in the switch. */
  function CountHandled(evs: seq<XEvent>): (n: nat)
    ensures n <= |evs|
  {
    if evs == [] then 0
    else CountHandled(evs[..|evs| - 1]) + if Handled(evs[|evs| - 1]) then 1 else 0
  }

  /** The drain pushes exactly one event per handled X event. */
  lemma {:induction false} DrainCount(evs: seq<XEvent>, locked: bool, ignore: bool)
    ensures |Drain(evs, locked, ignore).pushed| == CountHandled(evs)
  {
    if evs != [] {
      DrainCount(evs[..|evs| - 1], locked, ignore);
      var d := Drain(evs[..|evs| - 1], locked, ignore);
      TranslateShape(evs[|evs| - 1], locked, d.ignore);
    }
  }

  /** Draining one more event appends what the loop body makes of it. */
  lemma {:induction false} DrainSnoc(evs: seq<XEvent>, ev: XEvent, locked: bool, ignore: bool)
    ensures var d := Drain(evs, locked, ignore);
      var st := Translate(ev, locked, d.ignore);
      Drain(evs + [ev], locked, ignore) == Drained(d.pushed + st.pushed, st.ignore, d.warps + if st.warped then 1 else 0)
  {
    assert (evs + [ev])[..|evs|] == evs;
  }

  /** Draining `a` and then `b` is draining `a + b`: the events of `b` come
      after those of `a`, and `b` starts from the flag `a` left behind. */
  lemma {:induction false} DrainAppend(a: seq<XEvent>, b: seq<XEvent>, locked: bool, ignore: bool)
    ensures var da := Drain(a, locked, ignore);
      var db := Drain(b, locked, da.ignore);
      Drain(a + b, locked, ignore) == Drained(da.pushed + db.pushed, db.ignore, da.warps + db.warps)
    decreases |b|
  {
    var da := Drain(a, locked, ignore);
    if b == [] {
      assert a + b == a;
      assert da.pushed + [] == da.pushed;
    } else {
      var b' := b[..|b| - 1];
      var last := b[|b| - 1];
      assert b == b' + [last];
      assert a + b == (a + b') + [last];
      DrainAppend(a, b', locked, ignore);
      DrainSnoc(a + b', last, locked, ignore);
      DrainSnoc(b', last, locked, da.ignore);
      var db' := Drain(b', locked, da.ignore);
      var st := Translate(last, locked, db'.ignore);
      Sequences.ConcatAssoc(da.pushed, db'.pushed, st.pushed);
    }
  }

  /** With the cursor unlocked nothing warps and `ignore` keeps its value. */
  lemma {:induction false} UnlockedDrainKeepsFlag(evs: seq<XEvent>, ignore: bool)
    ensures Drain(evs, false, ignore).ignore == ignore
    ensures Drain(evs, false, ignore).warps == 0
  {
    if evs != [] {
      UnlockedDrainKeepsFlag(evs[..|evs| - 1], ignore);
    }
  }

  predicate AllMotions(evs: seq<XEvent>)
  {
    forall k :: 0 <= k < |evs| ==> evs[k].MotionNotify?
  }

  /** With the cursor locked and `ignore` initially clear, `n` motions push
      `n` moves but warp only on every other one: `(n + 1) / 2` warps, and
      `ignore` ends set exactly when `n` is odd. */
  lemma {:induction false} LockedMotionsWarpEveryOther(evs: seq<XEvent>)
    requires AllMotions(evs)
    ensures |Drain(evs, true, false).pushed| == |evs|
    ensures Drain(evs, true, false).warps == (|evs| + 1) / 2
    ensures Drain(evs, true, false).ignore == (|evs| % 2 == 1)
  {
    if evs != [] {
      LockedMotionsWarpEveryOther(evs[..|evs| - 1]);
    }
  }

  // ---------------------------------------------------------------------
  // The window
  // ---------------------------------------------------------------------

  /** The fields of a window and the statics its event code keeps. */
  datatype WindowState = WindowState(
    isOpen: bool,
    cursorLocked: bool,
    events: seq<Event>,
    motionIgnore: bool,
    warps: nat,
    attached: bool,
    procIgnore: bool)

  /** The state `Window(width, height)` leaves: open exactly when creation
      returned a handle. On Win32, `CreateWindowEx` delivers `WM_CREATE`
      before it returns, and `wndProc` stores the `Window*` from it, so a
      created window is already attached. */
  function Created(created: bool): WindowState
  {
    WindowState(created, false, [], false, 0, created, false)
  }

  /** The state after one pass of the Linux loop body. */
  function AfterStep(s: WindowState, st: Step): WindowState
  {
    s.(events := s.events + st.pushed, motionIgnore := st.ignore,
       warps := s.warps + if st.warped then 1 else 0)
  }

  /** The state after the Linux loop has drained a run of X events. */
  function AfterDrain(s: WindowState, d: Drained): WindowState
  {
    s.(events := s.events + d.pushed, motionIgnore := d.ignore, warps := s.warps + d.warps)
  }

  /** Draining one more event is one more pass of the loop body. */
  lemma {:induction false} DrainStep(s: WindowState, evs: seq<XEvent>, i: nat)
    requires i < |evs|
    ensures var d := Drain(evs[..i], s.cursorLocked, s.motionIgnore);
      AfterDrain(s, Drain(evs[..i + 1], s.cursorLocked, s.motionIgnore))
        == AfterStep(AfterDrain(s, d), Translate(evs[i], s.cursorLocked, d.ignore))
  {
    assert evs[..i + 1][..i] == evs[..i];
    var d := Drain(evs[..i], s.cursorLocked, s.motionIgnore);
    var st := Translate(evs[i], s.cursorLocked, d.ignore);
    Sequences.ConcatAssoc(s.events, d.pushed, st.pushed);
  }

  /** The part of the window state `wndProc` reads and writes. */
  function ProcOf(s: WindowState): NativeWindow.ProcState
  {
    NativeWindow.ProcState(s.attached, s.isOpen, s.procIgnore)
  }

  /** The state after one call of `wndProc`. */
  function AfterDispatch(s: WindowState, d: NativeWindow.Dispatch): WindowState
  {
    s.(events := s.events + d.pushed, attached := d.state.attached, isOpen := d.state.isOpen,
       procIgnore := d.state.ignore, warps := s.warps + if d.warped then 1 else 0)
  }

  /** The state after the Win32 message loop. */
  function AfterPump(s: WindowState, p: NativeWindow.Pumped): WindowState
  {
    s.(events := s.events + p.pushed, attached := p.state.attached, isOpen := p.state.isOpen,
       procIgnore := p.state.ignore, warps := s.warps + p.warps)
  }

  /** Pumping a nonempty run from an open window is dispatching its first
      message and pumping the rest. */
  lemma {:induction false} PumpStep(s: WindowState, msgs: seq<NativeWindow.Message>)
    requires msgs != [] && s.isOpen
    ensures var d := NativeWindow.WndProc(msgs[0], ProcOf(s), s.cursorLocked);
      var s' := AfterDispatch(s, d);
      AfterPump(s, NativeWindow.Pump(msgs, ProcOf(s), s.cursorLocked))
        == AfterPump(s', NativeWindow.Pump(msgs[1..], ProcOf(s'), s'.cursorLocked))
  {
    var d := NativeWindow.WndProc(msgs[0], ProcOf(s), s.cursorLocked);
    var s' := AfterDispatch(s, d);
    var rest := NativeWindow.Pump(msgs[1..], ProcOf(s'), s'.cursorLocked);
    assert ProcOf(s') == d.state;
    Sequences.ConcatAssoc(s.events, d.pushed, rest.pushed);
  }

  /** Once the handle is dropped, or the run is exhausted, the loop stops. */
  lemma PumpDone(s: WindowState, msgs: seq<NativeWindow.Message>)
    requires msgs == [] || !s.isOpen
    ensures AfterPump(s, NativeWindow.Pump(msgs, ProcOf(s), s.cursorLocked)) == s
  {
    assert s.events + [] == s.events;
  }

  /** A new window's Win32 pump delivers its first messages: a key press and
      a click both reach the queue, in order, and the window stays open. */
  lemma {:induction false} CreatedWindowReceivesInput(k: nat, st: int, l: int)
    ensures var s := Created(true);
      var msgs := [NativeWindow.KeyDown(k, st), NativeWindow.LButtonDown(l)];
      var after := AfterPump(s, NativeWindow.Pump(msgs, ProcOf(s), s.cursorLocked));
      && after.events == [KeyPressedEvent(NativeWindow.TranslateKey(k, st)),
                          MousePressedEvent(NativeWindow.LoWord(l), NativeWindow.HiWord(l), NativeWindow.VK_LBUTTON)]
      && after.isOpen
  {
    var s := Created(true);
    var msgs := [NativeWindow.KeyDown(k, st), NativeWindow.LButtonDown(l)];
    var d1 := NativeWindow.WndProc(msgs[0], ProcOf(s), false);
    assert d1.pushed == [KeyPressedEvent(NativeWindow.TranslateKey(k, st))] && d1.state == ProcOf(s);
    var d2 := NativeWindow.WndProc(msgs[1], d1.state, false);
    assert d2.pushed == [MousePressedEvent(NativeWindow.LoWord(l), NativeWindow.HiWord(l), NativeWindow.VK_LBUTTON)];
    assert msgs[1..] == [NativeWindow.LButtonDown(l)] && msgs[1..][1..] == [];
    assert NativeWindow.Pump(msgs[1..][1..], d2.state, false) == NativeWindow.Pumped([], d2.state, 0);
    assert NativeWindow.Pump(msgs[1..], d1.state, false) == NativeWindow.Pumped(d2.pushed + [], d2.state, 0);
    assert NativeWindow.Pump(msgs, ProcOf(s), false) == NativeWindow.Pumped(d1.pushed + (d2.pushed + []), d2.state, 0);
  }

  class Window {
    /** `mHandle` is not null. */
    var isOpen: bool
    /** `mLockCursor`. */
    var cursorLocked: bool
    /** `mEvents`, front first. */
    var events: seq<Event>
    /** The static `ignore` of the Linux `getEvent`. */
    var motionIgnore: bool
    /** How many times the pointer was recentred (`XWarpPointer`, `SetCursorPos`). */
    var warps: nat
    /** Win32: the `Window*` is stored in the HWND (`WM_CREATE` has been seen). */
    var attached: bool
    /** The static `ignore` of the Win32 `wndProc`. */
    var procIgnore: bool

    function Snapshot(): WindowState
      reads this
    {
      WindowState(isOpen, cursorLocked, events, motionIgnore, warps, attached, procIgnore)
    }

    /** `Window(width, height)`: `created` is whether
        `NativeWindowHandle::create` returned a handle. */
    constructor(created: bool)
      ensures Snapshot() == Created(created)
    {
      isOpen := created;
      cursorLocked := false;
      events := [];
      motionIgnore := false;
      warps := 0;
      attached := created;
      procIgnore := false;
    }

    /** `close()`: drops the handle. */
    method Close()
      modifies this
      ensures Snapshot() == old(Snapshot()).(isOpen := false)
    {
      isOpen := false;
    }

    /** `isOpened()`. */
    method IsOpened() returns (r: bool)
      ensures r == isOpen
    {
      r := isOpen;
    }

    /** `lockCursor(lock)`: stores the flag. */
    method LockCursor(lock: bool)
      modifies this
      ensures Snapshot() == old(Snapshot()).(cursorLocked := lock)
    {
      cursorLocked := lock;
    }

    /** `mEvents.push` of each of `pushed`, in order. */
    method Push(pushed: seq<Event>)
      modifies this
      ensures Snapshot() == old(Snapshot()).(events := old(events) + pushed)
    {
      events := events + pushed;
    }

    /** One pass of the Linux loop body: the `switch` on the X event. */
    method HandleXEvent(ev: XEvent)
      modifies this
      ensures Snapshot() == AfterStep(old(Snapshot()), Translate(ev, old(cursorLocked), old(motionIgnore)))
    {
      match ev
      case KeyPress(k) =>
        events := events + [KeyPressedEvent(k)];
      case KeyRelease(k) =>
        events := events + [KeyReleasedEvent(k)];
      case ButtonPress(x, y, b) =>
        if b < BUTTON_X1 {
          events := events + [MousePressedEvent(ToUnsigned(x), ToUnsigned(y), b)];
        } else {
          var wheelDelta := 1;
          if b == BUTTON_X1 {
            wheelDelta := -1;
          }
          events := events + [MouseWheelEvent(wheelDelta)];
        }
      case ButtonRelease(x, y, b) =>
        events := events + [MouseReleasedEvent(ToUnsigned(x), ToUnsigned(y), b)];
      case MotionNotify(x, y) =>
        events := events + [MouseMovedEvent(ToUnsigned(x), ToUnsigned(y))];
        if cursorLocked {
          if !motionIgnore {
            warps := warps + 1;
          }
          motionIgnore := !motionIgnore;
        }
      case FocusIn =>
        events := events + [WindowFocusEvent(true)];
      case FocusOut =>
        events := events + [WindowFocusEvent(false)];
      case DestroyNotify =>
        events := events + [WindowClosedEvent()];
      case OtherXEvent(_) =>
    }

    /** The pop at the end of both `getEvent`s: the front, if any, goes to
        `e`; otherwise `e` keeps the caller's value `e0`. */
    method PopEvent(e0: Event) returns (ok: bool, e: Event)
      modifies this
      ensures ok <==> old(events) != []
      ensures ok ==> e == old(events)[0] && Snapshot() == old(Snapshot()).(events := old(events)[1..])
      ensures !ok ==> e == e0 && Snapshot() == old(Snapshot())
    {
      if |events| > 0 {
        e := events[0];
        events := events[1..];
        ok := true;
      } else {
        e := e0;
        ok := false;
      }
    }

    /** The Linux `getEvent(e)`: `pending` is what `XPending`/`XNextEvent`
        deliver during this call. The handle is dereferenced, so the window
        must be open. */
    method GetEvent(pending: seq<XEvent>, e0: Event) returns (ok: bool, e: Event)
      requires isOpen
      modifies this
      ensures var s := AfterDrain(old(Snapshot()), Drain(pending, old(cursorLocked), old(motionIgnore)));
        && (ok <==> s.events != [])
        && (ok ==> e == s.events[0] && Snapshot() == s.(events := s.events[1..]))
        && (!ok ==> e == e0 && Snapshot() == s)
    {
      DrainPending(pending);
      ok, e := PopEvent(e0);
    }

    /** The `while (XPending(...))` loop of the Linux `getEvent`. */
    method DrainPending(pending: seq<XEvent>)
      modifies this
      ensures Snapshot() == AfterDrain(old(Snapshot()), Drain(pending, old(cursorLocked), old(motionIgnore)))
    {
      ghost var s0 := Snapshot();
      var i := 0;
      while i < |pending|
        invariant 0 <= i <= |pending|
        invariant Snapshot() == AfterDrain(s0, Drain(pending[..i], s0.cursorLocked, s0.motionIgnore))
      {
        ghost var d := Drain(pending[..i], s0.cursorLocked, s0.motionIgnore);
        DrainStep(s0, pending, i);
        HandleXEvent(pending[i]);
        assert Snapshot() == AfterStep(AfterDrain(s0, d), Translate(pending[i], s0.cursorLocked, d.ignore));
        i := i + 1;
      }
      assert pending[..i] == pending;
    }

    /** `wndProc` for this window's messages: applies the rules of
        `NativeWindow.WndProc` to the window's queue and flags. */
    method WndProc(msg: NativeWindow.Message)
      modifies this
      ensures Snapshot() == AfterDispatch(old(Snapshot()), NativeWindow.WndProc(msg, ProcOf(old(Snapshot())), old(cursorLocked)))
    {
      var d := NativeWindow.WndProc(msg, ProcOf(Snapshot()), cursorLocked);
      Apply(d);
    }

    /** The effect of one `wndProc` call on the window. */
    method Apply(d: NativeWindow.Dispatch)
      modifies this
      ensures Snapshot() == AfterDispatch(old(Snapshot()), d)
    {
      Push(d.pushed);
      attached, isOpen, procIgnore := d.state.attached, d.state.isOpen, d.state.ignore;
      if d.warped {
        warps := warps + 1;
      }
    }

    /** The Win32 `getEvent(e)`: dispatches `messages` to `wndProc` until
        they run out or a `WM_CLOSE` drops the handle, then pops. */
    method GetEventWin32(messages: seq<NativeWindow.Message>, e0: Event) returns (ok: bool, e: Event)
      requires isOpen
      modifies this
      ensures var s := AfterPump(old(Snapshot()), NativeWindow.Pump(messages, ProcOf(old(Snapshot())), old(cursorLocked)));
        && (ok <==> s.events != [])
        && (ok ==> e == s.events[0] && Snapshot() == s.(events := s.events[1..]))
        && (!ok ==> e == e0 && Snapshot() == s)
    {
      PumpMessages(messages);
      ok, e := PopEvent(e0);
    }

    /** The `while (PeekMessage(...))` loop of the Win32 `getEvent`. */
    method PumpMessages(messages: seq<NativeWindow.Message>)
      modifies this
      ensures Snapshot() == AfterPump(old(Snapshot()), NativeWindow.Pump(messages, ProcOf(old(Snapshot())), old(cursorLocked)))
    {
      ghost var target := AfterPump(Snapshot(), NativeWindow.Pump(messages, ProcOf(Snapshot()), cursorLocked));
      var i := 0;
      while i < |messages| && isOpen
        invariant 0 <= i <= |messages|
        invariant AfterPump(Snapshot(), NativeWindow.Pump(messages[i..], ProcOf(Snapshot()), cursorLocked)) == target
        decreases |messages| - i
      {
        PumpStep(Snapshot(), messages[i..]);
        WndProc(messages[i]);
        assert messages[i..][1..] == messages[i + 1..];
        i := i + 1;
      }
      PumpDone(Snapshot(), messages[i..]);
    }
  }
}
