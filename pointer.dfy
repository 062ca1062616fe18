/**
 * The pointer half of the input translator: GDK mouse buttons, wheel
 * directions and the conversion of pointer coordinates to integer pixels.
 */
module Pointer {

  /** The GDK button numbers (`GDK_BUTTON_PRIMARY`, `GDK_BUTTON_MIDDLE`, `GDK_BUTTON_SECONDARY`). */
  const BUTTON_PRIMARY: int := 1
  const BUTTON_MIDDLE: int := 2
  const BUTTON_SECONDARY: int := 3

  /** Servo's mouse buttons. */
  datatype MouseButton = Left | Right | Middle

  /** The button codes `to_mouse_button` accepts; on any other code it panics. */
  predicate IsKnownButton(code: int) {
    code == BUTTON_PRIMARY || code == BUTTON_SECONDARY || code == BUTTON_MIDDLE
  }

  /** The GDK button number of each Servo button. */
  function ButtonCode(b: MouseButton): int {
    match b
    case Left => BUTTON_PRIMARY
    case Right => BUTTON_SECONDARY
    case Middle => BUTTON_MIDDLE
  }

  /** `to_mouse_button`: the button whose GDK number is `code`. */
  function ToMouseButton(code: int): (b: MouseButton)
    requires IsKnownButton(code)
    ensures ButtonCode(b) == code
  {
    if code == BUTTON_PRIMARY then MouseButton.Left
    else if code == BUTTON_SECONDARY then MouseButton.Right
    else MouseButton.Middle
  }

  /** Every Servo button is reached from exactly its own GDK number. */
  lemma ButtonRoundTrip(b: MouseButton)
    ensures IsKnownButton(ButtonCode(b)) && ToMouseButton(ButtonCode(b)) == b
  {
  }

  /** GDK's scroll directions; `Smooth` stands for every direction other than the four. */
  datatype ScrollDirection = Up | Down | Left | Right | Smooth

  /** Servo's touch event phases, which the wheel handler reuses as scroll phases. */
  datatype TouchEventType = Down | Up | Move | Cancel

  /** Height of one scrolled line in pixels (the `f32` 38.0 in `window.rs`). */
  const LINE_HEIGHT: int := 38

  /** The phase of a wheel event: vertical directions keep their sense, all others cancel. */
  function WheelPhase(dir: ScrollDirection): (p: TouchEventType)
    ensures p == TouchEventType.Down <==> dir == ScrollDirection.Down
    ensures p == TouchEventType.Up <==> dir == ScrollDirection.Up
    ensures p != TouchEventType.Move
  {
    match dir
    case Down => TouchEventType.Down
    case Up => TouchEventType.Up
    case Left => TouchEventType.Cancel
    case Right => TouchEventType.Cancel
    case Smooth => TouchEventType.Cancel
  }

  /** The vertical delta of one wheel notch: one line, negative downwards, none otherwise. */
  function WheelDelta(p: TouchEventType): (dy: int)
    ensures dy < 0 <==> p == TouchEventType.Down
    ensures dy > 0 <==> p == TouchEventType.Up
    ensures dy == 0 || dy == LINE_HEIGHT || dy == -LINE_HEIGHT
  {
    match p
    case Down => -LINE_HEIGHT
    case Up => LINE_HEIGHT
    case _ => 0
  }

  const I32_MIN: int := -0x8000_0000
  const I32_MAX: int := 0x7fff_ffff

  /** Rust's `x as i32` for a finite `f64`: truncate toward zero, then saturate. */
  function CastToI32(x: real): (r: int)
    ensures I32_MIN <= r <= I32_MAX
    ensures x >= I32_MAX as real ==> r == I32_MAX
    ensures x <= I32_MIN as real ==> r == I32_MIN
    ensures 0.0 <= x < I32_MAX as real ==> r as real <= x < r as real + 1.0
    ensures I32_MIN as real < x <= 0.0 ==> r as real - 1.0 < x <= r as real
  {
    var t := if x >= 0.0 then x.Floor else -((-x).Floor);
    if t > I32_MAX then I32_MAX else if t < I32_MIN then I32_MIN else t
  }
}
