/**
 * The window as the engine's host: the state its callbacks share (pointer
 * position, deferred-event queue, back/forward enablement, the sending end of
 * the check-request channel) and the handlers that translate native input
 * and forward it. Every call into the engine's `handle_events` is recorded
 * as one batch appended to `engineLog`.
 */
module Host {
  import opened Wrappers
  import opened Keys
  import opened Modifiers
  import opened Pointer
  import opened Events
  import opened History
  import EventQueue
  import Poller

  /** An optional value as a sequence of zero or one elements. */
  function AsSeq<T>(o: Option<T>): seq<T> {
    match o
    case None => []
    case Some(v) => [v]
  }

  /**
   * The event `handle_key` queues: only an Up or Down key with no character
   * and no modifier scrolls, by two lines (up is positive), at the pointer
   * position converted to integers.
   */
  function ArrowScroll(ch: Option<char>, key: Key, mods: set<Modifier>, pointer: (real, real)): (e: Option<WindowEvent>)
    ensures e != None <==> ch == None && mods == {} && (key == Key.Up || key == Key.Down)
    ensures e != None ==>
      e.value.Scroll? && e.value.dx == 0 &&
      e.value.originX == CastToI32(pointer.0) && e.value.originY == CastToI32(pointer.1) &&
      (key == Key.Down ==> e.value.dy == -2 * LINE_HEIGHT && e.value.phase == TouchEventType.Down) &&
      (key == Key.Up ==> e.value.dy == 2 * LINE_HEIGHT && e.value.phase == TouchEventType.Up)
  {
    if ch != None || mods != {} then None
    else if key == Key.Down then
      Some(Scroll(0, -LINE_HEIGHT * 2, CastToI32(pointer.0), CastToI32(pointer.1), TouchEventType.Down))
    else if key == Key.Up then
      Some(Scroll(0, LINE_HEIGHT * 2, CastToI32(pointer.0), CastToI32(pointer.1), TouchEventType.Up))
    else None
  }

  /**
   * The event the wheel handler forwards: nothing while Control is held;
   * otherwise a vertical scroll whose phase and delta follow the direction,
   * at the pointer position converted to integers.
   */
  function WheelScroll(dir: ScrollDirection, mask: bv32, pointer: (real, real)): (e: Option<WindowEvent>)
    ensures e != None <==> !Contains(mask, CONTROL_MASK)
    ensures e != None ==>
      e.value.Scroll? && e.value.dx == 0 &&
      e.value.phase == WheelPhase(dir) && e.value.dy == WheelDelta(e.value.phase) &&
      e.value.originX == CastToI32(pointer.0) && e.value.originY == CastToI32(pointer.1)
  {
    if Contains(mask, CONTROL_MASK) then None
    else
      var phase := WheelPhase(dir);
      Some(Scroll(0, WheelDelta(phase), CastToI32(pointer.0), CastToI32(pointer.1), phase))
  }

  /** An arrow key scrolls exactly like two wheel notches in the same direction, at the same origin. */
  lemma ArrowIsTwoNotches(pointer: (real, real))
    ensures var key := ArrowScroll(None, Key.Down, {}, pointer).value;
      var wheel := WheelScroll(ScrollDirection.Down, 0, pointer).value;
      key == wheel.(dy := 2 * wheel.dy)
    ensures var key := ArrowScroll(None, Key.Up, {}, pointer).value;
      var wheel := WheelScroll(ScrollDirection.Up, 0, pointer).value;
      key == wheel.(dy := 2 * wheel.dy)
  {
  }

  class Window {
    /** The last pointer position reported by a motion event. */
    var pointer: (real, real)
    /** The deferred events, oldest first (a `Vec` pushed and popped at its end). */
    var eventQueue: seq<WindowEvent>
    /** Every batch handed to the engine's `handle_events`, oldest first. */
    var engineLog: seq<seq<WindowEvent>>
    /** The `enabled` state of the back and forward actions. */
    var backEnabled: bool
    var forwardEnabled: bool
    /** Every message sent on the check-request channel to the poller, oldest first. */
    var checkRequests: seq<bool>

    /** The window only ever asks the poller to check, never to stop. */
    ghost predicate Valid()
      reads this
    {
      forall i :: 0 <= i < |checkRequests| ==> checkRequests[i]
    }

    /** A new window: pointer at the origin, nothing queued or sent, actions enabled as GIO creates them. */
    constructor ()
      ensures Valid()
      ensures pointer == (0.0, 0.0) && eventQueue == [] && engineLog == []
      ensures backEnabled && forwardEnabled && checkRequests == []
    {
      pointer := (0.0, 0.0);
      eventQueue := [];
      engineLog := [];
      backEnabled, forwardEnabled := true, true;
      checkRequests := [];
    }

    /**
     * The key-press and key-release handlers: a recognised key is forwarded
     * at once with its character and modifiers; an unrecognised one is dropped.
     */
    method KeyChanged(code: int, unicode: Option<char>, mask: bv32, state: KeyState)
      modifies this`engineLog
      ensures var t := ToKey(code, unicode);
        engineLog == old(engineLog) +
          if t.key == None then [] else [[KeyEvent(t.ch, t.key.value, state, ToModifier(mask))]]
    {
      var t := ToKey(code, unicode);
      if t.key.Some? {
        var modifier := ToModifier(mask);
        engineLog := engineLog + [[KeyEvent(t.ch, t.key.value, state, modifier)]];
      }
    }

    /** The button-press handler: one `MouseDown` at the event position. */
    method ButtonPressed(code: int, x: real, y: real)
      requires IsKnownButton(code)
      modifies this`engineLog
      ensures engineLog == old(engineLog) + [[MouseWindowEventClass(MouseDown(ToMouseButton(code), x, y))]]
    {
      var mouseEvent := MouseDown(ToMouseButton(code), x, y);
      engineLog := engineLog + [[MouseWindowEventClass(mouseEvent)]];
    }

    /** The button-release handler: `MouseUp` then `Click`, in one batch. */
    method ButtonReleased(code: int, x: real, y: real)
      requires IsKnownButton(code)
      modifies this`engineLog
      ensures var b := ToMouseButton(code);
        engineLog == old(engineLog) + [[MouseWindowEventClass(MouseUp(b, x, y)), MouseWindowEventClass(Click(b, x, y))]]
    {
      var button := ToMouseButton(code);
      var mouseUp := MouseWindowEventClass(MouseUp(button, x, y));
      var click := MouseWindowEventClass(Click(button, x, y));
      engineLog := engineLog + [[mouseUp, click]];
    }

    /** The motion handler: remember the position, then forward the move. */
    method PointerMoved(x: real, y: real)
      modifies this`pointer, this`engineLog
      ensures pointer == (x, y)
      ensures engineLog == old(engineLog) + [[MouseWindowMoveEventClass(x, y)]]
    {
      pointer := (x, y);
      engineLog := engineLog + [[MouseWindowMoveEventClass(x, y)]];
    }

    /** The resize handler: a `Resize` batch, then a `Refresh` batch. */
    method Resized()
      modifies this`engineLog
      ensures engineLog == old(engineLog) + [[Resize], [Refresh]]
    {
      engineLog := engineLog + [[Resize]];
      engineLog := engineLog + [[Refresh]];
    }

    /** The wheel handler: forwards the scroll at once unless Control is held. */
    method Scrolled(dir: ScrollDirection, mask: bv32)
      modifies this`engineLog
      ensures engineLog == old(engineLog) + if WheelScroll(dir, mask, pointer) == None then [] else [[WheelScroll(dir, mask, pointer).value]]
    {
      if !Contains(mask, CONTROL_MASK) {
        var phase := WheelPhase(dir);
        var dy := WheelDelta(phase);
        var (x, y) := pointer;
        engineLog := engineLog + [[Scroll(0, dy, CastToI32(x), CastToI32(y), phase)]];
      }
    }

    /**
     * `handle_key`, called back by the engine for keys the page did not
     * consume: an unmodified Up or Down key without a character queues a
     * scroll for the next wake; everything else leaves the queue as it was.
     */
    method HandleKey(ch: Option<char>, key: Key, mods: set<Modifier>)
      modifies this`eventQueue
      ensures eventQueue == old(eventQueue) + AsSeq(ArrowScroll(ch, key, mods, pointer))
    {
      if ch == None && mods == {} {
        var (x, y) := pointer;
        if key == Key.Down {
          eventQueue := eventQueue + [Scroll(0, -LINE_HEIGHT * 2, CastToI32(x), CastToI32(y), TouchEventType.Down)];
        } else if key == Key.Up {
          eventQueue := eventQueue + [Scroll(0, LINE_HEIGHT * 2, CastToI32(x), CastToI32(y), TouchEventType.Up)];
        }
      }
    }

    /**
     * The wake handler: flush the engine with an empty batch, then pop the
     * newest deferred event, if any, and hand it over alone.
     */
    method Wake()
      modifies this`eventQueue, this`engineLog
      ensures eventQueue == EventQueue.Wake(old(eventQueue)).queue
      ensures engineLog == old(engineLog) + EventQueue.Wake(old(eventQueue)).batches
    {
      engineLog := engineLog + [[]];
      if |eventQueue| > 0 {
        var event := eventQueue[|eventQueue| - 1];
        eventQueue := eventQueue[..|eventQueue| - 1];
        engineLog := engineLog + [[event]];
      }
    }

    /** `history_changed`: both actions are set from the snapshot alone. */
    method HistoryChanged(entries: seq<LoadData>, current: nat)
      modifies this`backEnabled, this`forwardEnabled
      ensures backEnabled == BackEnabled(entries, current)
      ensures forwardEnabled == ForwardEnabled(entries, current)
    {
      backEnabled := |entries| != 0 && current > 0;
      forwardEnabled := |entries| != 0 && current < UsizeSub(|entries|, 1);
    }

    /**
     * An activation of the back action: one step back. GIO only runs the
     * handler of an enabled action, so while `history_changed` has disabled
     * it nothing is sent.
     */
    method BackActivated()
      modifies this`engineLog
      ensures engineLog == old(engineLog) + (if backEnabled then [[Navigation(Back(1))]] else [])
    {
      if backEnabled {
        engineLog := engineLog + [[Navigation(Back(1))]];
      }
    }

    /**
     * An activation of the forward action: one step forward, sent only while
     * the action is enabled.
     */
    method ForwardActivated()
      modifies this`engineLog
      ensures engineLog == old(engineLog) + (if forwardEnabled then [[Navigation(Forward(1))]] else [])
    {
      if forwardEnabled {
        engineLog := engineLog + [[Navigation(Forward(1))]];
      }
    }

    /** `load_end` (through `maybe_change_close_button`): ask the poller for one more check. */
    method LoadEnd()
      requires Valid()
      modifies this`checkRequests
      ensures Valid()
      ensures checkRequests == old(checkRequests) + [true]
    {
      checkRequests := checkRequests + [true];
    }
  }

  /** Every check request a window sends is handled by the poller, one probe each. */
  lemma WindowRequestsAreAllHandled(w: Window)
    requires w.Valid()
    ensures Poller.StopIndex(w.checkRequests) == |w.checkRequests|
  {
  }
}
