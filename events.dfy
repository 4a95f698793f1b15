/** The `Event` value type of src/window/event.h: a type tag and a union of
    payloads, built only through the static factories, which call one of five
    private constructors. Each private constructor is modelled with the
    outcome of its `assert`, so that a factory whose constructor trips its own
    assertion can be told apart from one that does not. */
module Events {

  /** C++ `unsigned` (32 bits). */
  type u32 = x: int | 0 <= x < 0x1_0000_0000

  /** C++ `int` (32 bits). */
  type i32 = x: int | -0x8000_0000 <= x < 0x8000_0000

  /** `int` to `unsigned`, wrapping modulo 2^32 as the implicit C++ conversion does. */
  function ToUnsigned(v: i32): (r: u32)
    ensures v >= 0 ==> r == v
    ensures v < 0 ==> r == v + 0x1_0000_0000
  {
    v % 0x1_0000_0000
  }

  /** `Key` and `Mouse::Button` hold platform codes (X keysyms, VK codes, X
      button numbers); the model keeps them as plain integers. */
  type Key = int
  type Button = int

  /** The X11 button numbers behind `Mouse::Button` on Linux. */
  const BUTTON_LEFT: Button := 1
  const BUTTON_MIDDLE: Button := 2
  const BUTTON_RIGHT: Button := 3
  const BUTTON_X1: Button := 4
  const BUTTON_X2: Button := 5

  /** `Event::Type`, in declaration order. */
  datatype Type =
    | Invalid
    | MouseMoved | MousePressed | MouseReleased | MouseWheel
    | KeyPressed | KeyReleased
    | WindowResized | WindowFocus | WindowClosed

  /** The value an unscoped `Event::Type` enumerator promotes to. */
  function Ordinal(t: Type): (n: nat)
    ensures n < 10
    ensures n == 0 <==> t == Invalid
  {
    match t
    case Invalid => 0
    case MouseMoved => 1
    case MousePressed => 2
    case MouseReleased => 3
    case MouseWheel => 4
    case KeyPressed => 5
    case KeyReleased => 6
    case WindowResized => 7
    case WindowFocus => 8
    case WindowClosed => 9
  }

  /** The union member last written. `data()` value-initialises the union,
      which initialises its first member, the mouse record, to zeros. */
  datatype Data =
    | Mouse(x: u32, y: u32, button: Button)
    | WheelDelta(delta: i32)
    | KeyCode(key: Key)
    | Resize(width: u32, height: u32)
    | Focus(focus: bool)

  const ZEROED: Data := Mouse(0, 0, 0)

  datatype Event = Event(kind: Type, data: Data)

  /** A private constructor's result: the object it built and whether the
      `assert` in its body holds. */
  datatype Constructed = Constructed(event: Event, assertionHolds: bool)

  /** `Event()`: type Invalid, zeroed union. */
  function DefaultEvent(): (e: Event)
    ensures e.kind == Invalid && e.data == ZEROED
  {
    Event(Invalid, ZEROED)
  }

  /** `Event(Type, Mouse::Button, unsigned, unsigned)`: asserts that the type
      is a button type, then stores button and position. */
  function ButtonEvent(kind: Type, btn: Button, x: u32, y: u32): Constructed
  {
    Constructed(Event(kind, Mouse(x, y, btn)), kind == MousePressed || kind == MouseReleased)
  }

  /** `Event(Type, unsigned, unsigned)` as written: the `WindowResized` case
      has no `break`, so it stores the size and then runs into the default
      case's `assert(!"invalid event type")`. */
  function PointEvent(kind: Type, x: u32, y: u32): Constructed
  {
    match kind
    case MouseMoved => Constructed(Event(kind, Mouse(x, y, 0)), true)
    case WindowResized => Constructed(Event(kind, Resize(x, y)), false)
    case _ => Constructed(Event(kind, ZEROED), false)
  }

  /** `Event(Type, unsigned, unsigned)` with the `break` the resize case lacks. */
  function IntendedPointEvent(kind: Type, x: u32, y: u32): Constructed
  {
    match kind
    case MouseMoved => Constructed(Event(kind, Mouse(x, y, 0)), true)
    case WindowResized => Constructed(Event(kind, Resize(x, y)), true)
    case _ => Constructed(Event(kind, ZEROED), false)
  }

  /** `Event(int)`: a wheel event with the given delta. */
  function WheelEvent(delta: i32): Constructed
  {
    Constructed(Event(MouseWheel, WheelDelta(delta)), true)
  }

  /** `Event(Key, bool)`: pressed or released, by the flag. */
  function KeyEvent(code: Key, pressed: bool): Constructed
  {
    Constructed(Event(if pressed then KeyPressed else KeyReleased, KeyCode(code)), true)
  }

  /** `Event(bool)`: a focus change. */
  function FocusEvent(focus: bool): Constructed
  {
    Constructed(Event(WindowFocus, Focus(focus)), true)
  }

  function MouseMovedEvent(x: u32, y: u32): Event { PointEvent(MouseMoved, x, y).event }
  function MousePressedEvent(x: u32, y: u32, btn: Button): Event { ButtonEvent(MousePressed, btn, x, y).event }
  function MouseReleasedEvent(x: u32, y: u32, btn: Button): Event { ButtonEvent(MouseReleased, btn, x, y).event }
  function MouseWheelEvent(delta: i32): Event { WheelEvent(delta).event }
  function KeyPressedEvent(code: Key): Event { KeyEvent(code, true).event }
  function KeyReleasedEvent(code: Key): Event { KeyEvent(code, false).event }
  function WindowFocusEvent(focus: bool): Event { FocusEvent(focus).event }

  /** `windowResizedEvent`: the object its constructor builds; in a build
      with assertions on, that constructor aborts (see `ResizeFactoryFails`). */
  function WindowResizedEvent(width: u32, height: u32): Event { PointEvent(WindowResized, width, height).event }

  /** `windowClosedEvent` as written: `Event(WindowClosed)` has no
      constructor taking a `Type`, so the enumerator promotes to `int` and
      `Event(int)` builds a wheel event whose delta is the enumerator's value. */
  function WindowClosedEvent(): Event { WheelEvent(Ordinal(WindowClosed)).event }

  /** `windowClosedEvent` as meant: a `WindowClosed` event with a zeroed union. */
  function IntendedWindowClosedEvent(): Event { Event(WindowClosed, ZEROED) }

  /** Whether a factory's constructor keeps its assertion. */
  datatype Factory =
    | MouseMovedF(x: u32, y: u32)
    | MousePressedF(px: u32, py: u32, btn: Button)
    | MouseReleasedF(rx: u32, ry: u32, rbtn: Button)
    | MouseWheelF(delta: i32)
    | KeyPressedF(pkey: Key)
    | KeyReleasedF(rkey: Key)
    | WindowResizedF(width: u32, height: u32)
    | WindowFocusF(focus: bool)
    | WindowClosedF

  /** The constructor call each factory makes. */
  function Construct(f: Factory): Constructed
  {
    match f
    case MouseMovedF(x, y) => PointEvent(MouseMoved, x, y)
    case MousePressedF(x, y, b) => ButtonEvent(MousePressed, b, x, y)
    case MouseReleasedF(x, y, b) => ButtonEvent(MouseReleased, b, x, y)
    case MouseWheelF(d) => WheelEvent(d)
    case KeyPressedF(k) => KeyEvent(k, true)
    case KeyReleasedF(k) => KeyEvent(k, false)
    case WindowResizedF(w, h) => PointEvent(WindowResized, w, h)
    case WindowFocusF(b) => FocusEvent(b)
    case WindowClosedF => WheelEvent(Ordinal(WindowClosed))
  }

  /** The type each factory is named after. */
  function Intended(f: Factory): Type
  {
    match f
    case MouseMovedF(_, _) => MouseMoved
    case MousePressedF(_, _, _) => MousePressed
    case MouseReleasedF(_, _, _) => MouseReleased
    case MouseWheelF(_) => MouseWheel
    case KeyPressedF(_) => KeyPressed
    case KeyReleasedF(_) => KeyReleased
    case WindowResizedF(_, _) => WindowResized
    case WindowFocusF(_) => WindowFocus
    case WindowClosedF => WindowClosed
  }

  /** Every factory but `windowResizedEvent` keeps its constructor's
      assertion, and every factory but `windowClosedEvent` yields the type
      it is named after. */
  lemma FactoryOutcomes(f: Factory)
    ensures Construct(f).assertionHolds <==> !f.WindowResizedF?
    ensures Construct(f).event.kind == Intended(f) <==> !f.WindowClosedF?
  {
  }

  /** The payload each factory stores: position (and button), delta, key,
      size or focus, as passed in. */
  lemma FactoryPayloads(x: u32, y: u32, b: Button, d: i32, k: Key, focus: bool)
    ensures MouseMovedEvent(x, y).data.x == x && MouseMovedEvent(x, y).data.y == y
    ensures MousePressedEvent(x, y, b).data == Mouse(x, y, b)
    ensures MouseReleasedEvent(x, y, b).data == Mouse(x, y, b)
    ensures MouseWheelEvent(d).data == WheelDelta(d)
    ensures KeyPressedEvent(k).data == KeyCode(k) && KeyReleasedEvent(k).data == KeyCode(k)
    ensures WindowResizedEvent(x, y).data == Resize(x, y)
    ensures WindowFocusEvent(focus).data == Focus(focus)
  {
  }

  /** The constructor behind `windowResizedEvent` trips its own assertion on
      every input; with the `break` it would not. */
  lemma ResizeFactoryFails(width: u32, height: u32)
    ensures !PointEvent(WindowResized, width, height).assertionHolds
    ensures IntendedPointEvent(WindowResized, width, height).assertionHolds
    ensures IntendedPointEvent(WindowResized, width, height).event == PointEvent(WindowResized, width, height).event
  {
  }

  /** `Event(Type, unsigned, unsigned)` accepts exactly the point types once
      the `break` is in place, and exactly `MouseMoved` as written. */
  lemma PointEventAccepts(kind: Type, x: u32, y: u32)
    ensures PointEvent(kind, x, y).assertionHolds <==> kind == MouseMoved
    ensures IntendedPointEvent(kind, x, y).assertionHolds <==> kind == MouseMoved || kind == WindowResized
  {
  }

  /** `windowClosedEvent()` is indistinguishable from `mouseWheelEvent(9)`,
      while the intended event is a `WindowClosed`. */
  lemma WindowClosedIsWheel()
    ensures WindowClosedEvent() == MouseWheelEvent(9)
    ensures WindowClosedEvent().kind != WindowClosed
    ensures IntendedWindowClosedEvent().kind == WindowClosed
  {
  }

  /** The intended `windowClosedEvent()` is the event its name promises: it
      keeps its assertion, matches what the other factories' naming rule
      asks for, and no wheel event, whatever its delta, is equal to it. */
  lemma IntendedClosedIsDistinct(d: i32)
    ensures IntendedWindowClosedEvent().kind == Intended(WindowClosedF)
    ensures IntendedWindowClosedEvent() != MouseWheelEvent(d)
    ensures IntendedWindowClosedEvent() != WindowClosedEvent()
  {
  }

  /** Distinct types promote to distinct integers. */
  lemma OrdinalInjective(s: Type, t: Type)
    ensures Ordinal(s) == Ordinal(t) <==> s == t
  {
  }
}
