/** The part of Servo's `WindowEvent` vocabulary the window hands to the engine. */
module Events {
  import opened Wrappers
  import opened Keys
  import opened Modifiers
  import opened Pointer

  datatype KeyState = Pressed | Released

  /** A mouse button event at a position in the drawing area. */
  datatype MouseWindowEvent =
    | Click(button: MouseButton, x: real, y: real)
    | MouseDown(button: MouseButton, x: real, y: real)
    | MouseUp(button: MouseButton, x: real, y: real)

  /** A history traversal of some number of steps. */
  datatype TraversalDirection = Forward(steps: nat) | Back(steps: nat)

  datatype WindowEvent =
    | Refresh
    | Resize
    | Navigation(direction: TraversalDirection)
    | MouseWindowEventClass(mouse: MouseWindowEvent)
    | MouseWindowMoveEventClass(x: real, y: real)
      /** A scroll by the delta (dx, dy) in pixels at the integer origin. */
    | Scroll(dx: int, dy: int, originX: int, originY: int, phase: TouchEventType)
    | KeyEvent(ch: Option<char>, key: Key, state: KeyState, mods: set<Modifier>)
}
