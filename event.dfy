/**
 * The input events of cushy-gl/src/event.rs and their translation from GLFW
 * window events.  The GLFW types the translation reads are mirrored here;
 * GLFW's key enum is reduced to "a key the table maps" or `Unknown`, since
 * `Key::from_glfw` is a one-to-one renaming.
 */
module Event {
  import opened Opt
  import opened Keys

  datatype Action = Press | Release | Repeat

  /** A GLFW key: one that `Key::from_glfw` maps, or `Unknown`. */
  datatype GlfwKey = Mapped(key: Key) | Unknown

  /** The GLFW window events the translation distinguishes; `Other` stands for the rest. */
  datatype WindowEvent =
    | WKey(key: GlfwKey, scancode: int, action: Action, mods: bv8)
    | WChar(ch: char)
    | CursorPos(x: real, y: real)
    | MouseButton(button: nat, action: Action, mods: bv8)
    | Scroll(dx: real, dy: real)
    | Size(w: int, h: int)
    | Focus(focused: bool)
    | Other(tag: nat)

  /** `Event`. */
  datatype Event =
    | Char(ch: char)
    | KeyDown(key: Key, mods: Modifiers)
    | KeyUp(key: Key)
    | MouseMove(x: int, y: int)
    | MouseDown(button: nat)
    | MouseUp(button: nat)
    | MouseWheelUp
    | MouseWheelDown
    | WindowResize(w: nat, h: nat)
    | WindowFocus(focused: bool)
    | QuitRequest
    | UnknownGlfw(ev: WindowEvent)

  const I32_MIN: int := -0x8000_0000
  const I32_MAX: int := 0x7FFF_FFFF
  const U32_RANGE: int := 0x1_0000_0000

  /** Rust's `f64 as i32`: truncation toward zero, saturating at the bounds of `i32`. */
  function F64ToI32(x: real): (r: int)
    ensures I32_MIN <= r <= I32_MAX
    ensures (I32_MIN as real) <= x < ((I32_MAX + 1) as real) ==> -1.0 < x - (r as real) < 1.0
    ensures x >= 0.0 ==> 0 <= r && (r as real) <= x
    ensures x <= 0.0 ==> r <= 0 && x <= (r as real)
    ensures x >= ((I32_MAX + 1) as real) ==> r == I32_MAX
    ensures x < (I32_MIN as real) ==> r == I32_MIN
  {
    var t := if x >= 0.0 then x.Floor else -((-x).Floor);
    if t < I32_MIN then I32_MIN else if t > I32_MAX then I32_MAX else t
  }

  /** Rust's `i32 as u32`: two's-complement reinterpretation. */
  function I32ToU32(v: int): (r: nat)
    requires I32_MIN <= v <= I32_MAX
    ensures r < U32_RANGE
    ensures v >= 0 ==> r == v
    ensures v < 0 ==> r == v + U32_RANGE
  {
    v % U32_RANGE
  }

  /** `Event::key_event`: the unknown key gives nothing. */
  function KeyEvent(k: GlfwKey, a: Action, m: bv8): (r: Option<Event>)
    ensures r.None? <==> k.Unknown?
    ensures k.Mapped? && a != Release ==> r == Some(KeyDown(k.key, FromGlfwMods(m)))
    ensures k.Mapped? && a == Release ==> r == Some(KeyUp(k.key))
  {
    match k
    case Unknown => None
    case Mapped(key) =>
      var mods := FromGlfwMods(m);
      match a
      case Press => Some(KeyDown(key, mods))
      case Release => Some(KeyUp(key))
      case Repeat => Some(KeyDown(key, mods))
  }

  /** `Event::mouse_button_event`: a repeated button gives nothing. */
  function MouseButtonEvent(b: nat, a: Action): (r: Option<Event>)
    ensures r.None? <==> a == Repeat
    ensures a == Press ==> r == Some(MouseDown(b))
    ensures a == Release ==> r == Some(MouseUp(b))
  {
    match a
    case Press => Some(MouseDown(b))
    case Release => Some(MouseUp(b))
    case Repeat => None
  }

  /** `Event::mouse_wheel_event`: only a vertical step beyond one half counts. */
  function MouseWheelEvent(y: real): (r: Option<Event>)
    ensures r == Some(MouseWheelUp) <==> y > 0.5
    ensures r == Some(MouseWheelDown) <==> y < -0.5
    ensures r.None? <==> -0.5 <= y <= 0.5
  {
    if y > 0.5 then Some(MouseWheelUp)
    else if y < -0.5 then Some(MouseWheelDown)
    else None
  }

  /** GLFW reports window sizes as `i32`. */
  predicate WellFormed(ev: WindowEvent) {
    ev.Size? ==> I32_MIN <= ev.w <= I32_MAX && I32_MIN <= ev.h <= I32_MAX
  }

  /**
   * `Event::from_glfw`: only key, mouse-button and scroll events can be
   * dropped, unlisted events are passed on whole, and no GLFW event is ever
   * turned into a quit request.
   */
  function FromGlfw(ev: WindowEvent): (r: Option<Event>)
    requires WellFormed(ev)
    ensures r.None? ==> ev.WKey? || ev.MouseButton? || ev.Scroll?
    ensures r != Some(QuitRequest)
    ensures ev.Other? <==> r == Some(UnknownGlfw(ev))
  {
    match ev
    case WKey(k, _, a, m) => KeyEvent(k, a, m)
    case WChar(ch) => Some(Char(ch))
    case CursorPos(x, y) => Some(MouseMove(F64ToI32(x), F64ToI32(y)))
    case MouseButton(b, a, _) => MouseButtonEvent(b, a)
    case Scroll(_, y) => MouseWheelEvent(y)
    case Size(w, h) => Some(WindowResize(I32ToU32(w), I32ToU32(h)))
    case Focus(f) => Some(WindowFocus(f))
    case Other(_) => Some(UnknownGlfw(ev))
  }

  /** What the listed GLFW events become. */
  lemma FromGlfwCases(ev: WindowEvent)
    requires WellFormed(ev)
    ensures ev.WChar? ==> FromGlfw(ev) == Some(Char(ev.ch))
    ensures ev.Focus? ==> FromGlfw(ev) == Some(WindowFocus(ev.focused))
    ensures ev.Size? && ev.w >= 0 && ev.h >= 0 ==> FromGlfw(ev) == Some(WindowResize(ev.w, ev.h))
    ensures ev.WKey? && ev.key.Unknown? ==> FromGlfw(ev).None?
  {
  }

  // ---------------------------------------------------------------- Dispatch

  /** The `EventHandler` method a dispatch calls, with its arguments. */
  datatype HandlerCall =
    | OnChar(ch: char)
    | OnKeyDown(key: Key, mods: Modifiers)
    | OnKeyUp(key: Key)
    | OnMouseMove(x: int, y: int)
    | OnMouseDown(button: nat)
    | OnMouseUp(button: nat)
    | OnMouseWheelDown
    | OnMouseWheelUp
    | OnWindowResize(w: nat, h: nat)
    | OnWindowFocus(focused: bool)
    | OnQuitRequest
    | OnUnknownGlfwEvent(ev: WindowEvent)

  /** `Event::dispatch`: the one handler call an event makes, which identifies the event. */
  function Dispatch(e: Event): (c: HandlerCall)
    ensures EventOfCall(c) == e
  {
    match e
    case Char(ch) => OnChar(ch)
    case KeyDown(k, m) => OnKeyDown(k, m)
    case KeyUp(k) => OnKeyUp(k)
    case MouseMove(x, y) => OnMouseMove(x, y)
    case MouseDown(b) => OnMouseDown(b)
    case MouseUp(b) => OnMouseUp(b)
    case MouseWheelDown => OnMouseWheelDown
    case MouseWheelUp => OnMouseWheelUp
    case WindowResize(w, h) => OnWindowResize(w, h)
    case WindowFocus(f) => OnWindowFocus(f)
    case QuitRequest => OnQuitRequest
    case UnknownGlfw(we) => OnUnknownGlfwEvent(we)
  }

  /** The event a handler call reports, read back from the call. */
  function EventOfCall(c: HandlerCall): Event {
    match c
    case OnChar(ch) => Char(ch)
    case OnKeyDown(k, m) => KeyDown(k, m)
    case OnKeyUp(k) => KeyUp(k)
    case OnMouseMove(x, y) => MouseMove(x, y)
    case OnMouseDown(b) => MouseDown(b)
    case OnMouseUp(b) => MouseUp(b)
    case OnMouseWheelDown => MouseWheelDown
    case OnMouseWheelUp => MouseWheelUp
    case OnWindowResize(w, h) => WindowResize(w, h)
    case OnWindowFocus(f) => WindowFocus(f)
    case OnQuitRequest => QuitRequest
    case OnUnknownGlfwEvent(we) => UnknownGlfw(we)
  }

  /**
   * Every handler call is made by exactly one event: together with the
   * contract of `Dispatch`, dispatch is a bijection between events and calls.
   */
  lemma DispatchIsFaithful(c: HandlerCall)
    ensures Dispatch(EventOfCall(c)) == c
  {
  }
}
