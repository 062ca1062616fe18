# Captive-portal login window: input, navigation and connectivity model

This project models the core of a small captive-portal login window written
in Rust. The window embeds the Servo engine in a GTK window. It shows a
portal's login page and signals completion once a background probe confirms
connectivity. The model covers the parts of `src/window.rs` and `src/main.rs`
that decide something:

- **Input translator** (`Keys`, `Modifiers`, `Pointer`, `Cursors`). GDK key
  symbols map to Servo keys plus an optional non-control character. GDK
  modifier bitmasks map to Servo modifier sets. GDK button numbers map to
  Servo mouse buttons. Wheel directions map to scroll phases and deltas.
  Pointer coordinates are converted with Rust's `f64 as i32`. Servo cursors
  map to the CSS cursor keywords of section 7.1.1 of CSS Basic User
  Interface Module Level 3.
- **Event-loop bridge** (`EventQueue`, `Host.Window.Wake`). Key handling
  pushes arrow-key scrolls onto the window's deferred-event vector. Each
  wake flushes the engine with an empty batch, then pops at most one event
  from the end of the vector.
- **Window state and handlers** (`Host.Window`). These are the callbacks that
  forward input to the engine. Every `handle_events` call is recorded as one
  batch appended to `engineLog`.
- **Navigation state controller** (`History`, `Host.Window.HistoryChanged`).
  Back/forward enablement is computed from the history snapshot.
- **Connectivity poller** (`Poller`). It is a receive loop over a finite
  sequence of check requests. Each request gets one HEAD probe (section 4.3.2
  of RFC 7231). Each 200 OK (section 6.3.1 of RFC 7231) gives one confirmation.
- **Auth detector** (`AuthDetector`). `check_auth_url` classifies its single
  probe: only 302 Found (section 6.4.3 of RFC 7231) with a Location header
  (section 7.1.2 of RFC 7231) names a login page. The open and default
  activations choose the URLs the window is built with.
- **Framebuffer geometry** (`Geometry`). `framebuffer_size` and
  `window_rect` use `u32` conversions and wrapping multiplication.

External effects are inputs or logs:

- the network's answer to a probe is a `ProbeOutcome` value;
- `gdk::keyval_to_unicode` is a parameter;
- the engine is the log of batches it received;
- the GIO actions are two `enabled` booleans, and an activation runs its
  handler only while its flag is set;
- the check-request channel is the sequence of messages sent on it.

Two behaviours of the code are worth stating outright:

- The deferred-event holder is a `Vec` that `handle_key` pushes onto at its
  end (`src/window.rs:330,336`) and `wake` pops from its end
  (`src/window.rs:357`). It is therefore an unbounded stack, and with several
  events pending the newest is delivered first
  (`EventQueue.SecondPushOvertakesFirst`, `EventQueue.DrainReverses`).
- The poller's loop `while let Ok(true) = recv()` (`src/window.rs:150`) stops
  when its channel closes and also at the first `false`
  (`Poller.StopIndex`). The window never sends `false`
  (`Host.Window.Valid`), so every request it sends is probed
  (`Host.WindowRequestsAreAllHandled`).

## Model

| member | source | states |
|---|---|---|
| `Keys.ToKey` | src/window.rs:528-663 | The key is the table's entry for the code. An unrecognised code gives neither key nor character, even when it has a Unicode value. A recognised code carries the reported character exactly when that character is present and not a control character. |
| `Keys.RecognisedRange` | src/window.rs:537-661 | Only GDK symbols between 0x20 and 0xffff are recognised. |
| `Keys.LettersIgnoreCase` | src/window.rs:556-581 | An upper-case letter symbol and its lower-case symbol give the same, recognised key. |
| `Keys.ArrowKeys` | src/window.rs:592-595 | The GDK cursor keys give Servo's Up, Down, Left and Right. |
| `Modifiers.ToModifier` | src/window.rs:665-680 | A modifier is in the result exactly when its GDK flag is set. Alt is read from the Meta flag. The four tests are independent, so their order does not matter. |
| `Modifiers.EmptyMask` | src/window.rs:666 | The empty mask gives the empty modifier set (`NONE`). |
| `Modifiers.UnionOfMasks` | src/window.rs:665-680 | The modifiers of the union of two masks are the union of their modifiers. |
| `Modifiers.OtherFlagsIgnored` | src/window.rs:667-678 | Bits other than Meta, Super, Control and Shift never change the result. |
| `Pointer.ToMouseButton` | src/window.rs:519-526 | The result is the button whose GDK number is the code. Codes other than 1, 2 and 3 are excluded, because `window.rs` panics on them. |
| `Pointer.ButtonRoundTrip` | src/window.rs:521-523 | Primary gives Left, secondary gives Right and middle gives Middle, and each button comes only from its own number. |
| `Pointer.WheelPhase` | src/window.rs:448-454 | Down and Up keep their sense. Left, Right and every other direction cancel. No direction gives Move. |
| `Pointer.WheelDelta` | src/window.rs:456-461 | The delta is negative exactly for Down and positive exactly for Up. Its size is one line height or zero. |
| `Pointer.CastToI32` | src/window.rs:465-466 | The result is a 32-bit integer. It truncates toward zero inside the range and saturates outside it. |
| `Cursors.CursorName` | src/window.rs:277-313 | The `set_cursor` table: each cursor gets a non-empty keyword that neither starts nor ends with a hyphen. The two lemmas below prove the table invertible. |
| `Cursors.CursorNameRoundTrip` | src/window.rs:277-313 | Reading the keyword table backwards gives back each cursor, so the table is invertible. |
| `Cursors.CursorNamesDistinct` | src/window.rs:277-313 | No two cursors are shown with the same keyword. |
| `EventQueue.Wake` | src/window.rs:353-361 | A wake starts with the empty flush batch and delivers at most one event, in a batch of one. The remaining queue followed by the delivered event is the old queue, so earlier entries are untouched and the queue shrinks by one exactly when it was non-empty. |
| `EventQueue.PushThenWake` | src/window.rs:330-358 | After a push, the next wake delivers the pushed event and leaves the older events queued as they were. |
| `EventQueue.WakeOnEmpty` | src/window.rs:354-357 | A wake with nothing queued only flushes. |
| `EventQueue.DrainReverses` | src/window.rs:353-361 | One wake per queued event empties the queue. The engine gets two batches per wake, and the events arrive in reverse push order. |
| `EventQueue.SecondPushOvertakesFirst` | src/window.rs:326-361 | With two events pushed before a wake, the second is delivered and the first stays queued. |
| `History.UsizeSub` | src/window.rs:273 | `usize` subtraction is only defined when it cannot underflow, in a debug or a release build, and then it undoes the addition. The short-circuit guard makes `len() - 1` meet that condition. |
| `History.BackEnabled` | src/window.rs:272 | Back is enabled exactly when the history is non-empty and the current index is past the first entry, also for an index beyond the history. For an index inside the history, that is exactly when an entry precedes the current one. |
| `History.ForwardEnabled` | src/window.rs:273 | Forward is enabled exactly when an entry follows the current one, for an empty history as for any other. |
| `History.EnabledIffStepLands` | src/window.rs:269-274 | For a current index inside the history, back is enabled exactly when one step back lands on an entry, and forward exactly when one step forward does. |
| `History.EmptyHistoryDisablesBoth` | src/window.rs:272-273 | An empty history disables both actions whatever the index, and `len() - 1` is never evaluated for it. |
| `History.ThreeEntries` | src/window.rs:269-274 | With three entries, index 0 gives back disabled and forward enabled; index 2 gives the opposite. |
| `Geometry.AsU32` | src/window.rs:198-199 | `as u32` keeps the value modulo 2^32 and leaves non-negative values unchanged. |
| `Geometry.WrappingMul` | src/window.rs:199 | The result is below 2^32 and congruent to the product modulo 2^32, so it is the product reduced modulo 2^32. It is exact when the product fits. |
| `Geometry.ScaledCongruent` | src/window.rs:198-199 | Converting the scale factor and a side with `as u32` and multiplying with wrap-around agrees with the signed product modulo 2^32. |
| `Geometry.FramebufferSize` | src/window.rs:196-200 | Both sides fit in 32 bits and are congruent modulo 2^32 to the product of the scale factor and the allocation. Each is that exact product when the inputs are non-negative and the product fits. |
| `Geometry.WindowRect` | src/window.rs:202-204 | The window rectangle sits at the origin. Its sides fit in 32 bits, are congruent modulo 2^32 to the scaled allocation, and are the exact scaled allocation when the inputs are non-negative and it fits. |
| `Geometry.UnitFactor` | src/window.rs:196-200 | At scale factor 1 the framebuffer is the allocation. |
| `Geometry.DoubledFits` | src/window.rs:196-200 | At scale factor 2 every allocation below 2^31 doubles exactly. |
| `Poller.StopIndex` | src/window.rs:150 | The number of handled requests is the length of the leading run of `true` requests. It stops at the first `false` or at the end of the channel. |
| `Poller.Confirmed` | src/window.rs:152-156 | The confirmations are exactly the indices whose probe got a 200 response, in increasing order, at most one per probe. |
| `Poller.Run` | src/window.rs:149-158 | The loop sends one probe per handled request in arrival order, as many as `StopIndex`. Its confirmations are those of `Confirmed` for those probes. |
| `Poller.AllTrueRequestsAreHandled` | src/window.rs:150 | When every request is `true`, every request is probed, with no deduplication. |
| `Poller.StopIgnoresLaterRequests` | src/window.rs:150 | Requests after the first `false` are never handled. |
| `Poller.OnlyOkConfirms` | src/window.rs:152-156 | A failed probe, or a response other than 200, gives no confirmation. |
| `AuthDetector.CheckAuthUrl` | src/main.rs:88-103 | There is a login page exactly when the single probe got 302 Found with a Location header, and it is that Location. Failures, 302 without Location and all other statuses, 200 included, give none. |
| `AuthDetector.ConfirmationIsNotRedirect` | src/main.rs:92 | A response that confirms connectivity never names a login page. |
| `AuthDetector.DetectorExamples` | src/main.rs:91-102 | A 302 with a Location gives that Location. A 200, a 302 without Location and a failed request give nothing. |
| `AuthDetector.Activate` | src/main.rs:56-57 | The default activation uses the same URL as the page to show and the URL to probe. |
| `AuthDetector.Open` | src/main.rs:64-71 | A window is built exactly when the first file has a URI and probing it yields a login page. It shows that page and probes the opened URI. |
| `AuthDetector.OpenReadsFirstOnly` | src/main.rs:65 | Files after the first never change the decision. |
| `Host.ArrowScroll` | src/window.rs:323-341 | Only an Up or Down key with no character and no modifier scrolls. The scroll is two lines, up positive, with no horizontal part, at the integer pointer position. |
| `Host.WheelScroll` | src/window.rs:446-470 | Nothing is forwarded while Control is held. Otherwise the scroll has the direction's phase and that phase's delta, at the integer pointer position. |
| `Host.ArrowIsTwoNotches` | src/window.rs:326-337 | An arrow key scrolls like two wheel notches in the same direction at the same origin. |
| `Host.Window.constructor` | src/window.rs:118-129 | A new window has its pointer at the origin, nothing queued or sent, and both actions enabled. |
| `Host.Window.KeyChanged` | src/window.rs:365-393 | A recognised key is forwarded at once with its character, state and modifiers. An unrecognised key leaves the engine untouched. |
| `Host.Window.ButtonPressed` | src/window.rs:397-403 | A press forwards one `MouseDown` of the translated button at the event position. |
| `Host.Window.ButtonReleased` | src/window.rs:408-419 | A release forwards `MouseUp` then `Click` in one batch. |
| `Host.Window.PointerMoved` | src/window.rs:425-432 | A motion event stores the position and forwards one move event. |
| `Host.Window.Resized` | src/window.rs:437-440 | A resize forwards a `Resize` batch, then a `Refresh` batch. |
| `Host.Window.Scrolled` | src/window.rs:446-470 | A wheel event forwards exactly the `WheelScroll` event, or nothing while Control is held. |
| `Host.Window.HandleKey` | src/window.rs:323-341 | The deferred queue gains exactly the `ArrowScroll` event at its end. Every other input leaves it unchanged. |
| `Host.Window.Wake` | src/window.rs:353-361 | The new queue and the appended batches are those of `EventQueue.Wake` on the old queue. |
| `Host.Window.HistoryChanged` | src/window.rs:269-274 | Both enablement flags are set from the snapshot alone, by `BackEnabled` and `ForwardEnabled`. |
| `Host.Window.BackActivated` | src/window.rs:489-494 | While the back action is enabled, an activation sends exactly one `Navigation(Back(1))`. While `history_changed` has disabled it, GIO does not run the handler and nothing is sent. |
| `Host.Window.ForwardActivated` | src/window.rs:499-503 | While the forward action is enabled, an activation sends exactly one `Navigation(Forward(1))`. While it is disabled, nothing is sent. |
| `Host.Window.LoadEnd` | src/window.rs:165-167 | Each load end sends exactly one `true` check request and keeps every sent request `true`. |
| `Host.WindowRequestsAreAllHandled` | src/window.rs:257-258 | Every check request a window has sent is probed by the poller. |

## Left out

- GTK widget construction, the UI builder file, the close-button relabelling on confirmation and `add_action` wiring: user-interface plumbing with no decision in it.
- Epoxy/GL loading, dynamic symbol lookup, `make_current` and `queue_render`: foreign calls.
- Servo's internals, the `NewBrowser`/`SelectBrowser` exchange, the initial load of the auth URL and the resource path: the engine is only the log of batches it receives, and the browser id is not modelled.
- The hyper client and the network: each probe's outcome is an input, and probe timeouts are whatever that input says.
- Threads, `Arc<Mutex<Sender>>`, the glib and `mpsc` channels and the waker clone: the poller is a loop over the finite sequence of requests sent before the channel closes, and wakes are single calls. Wake coalescing is not modelled.
- `maybe_change_close_button`'s `unwrap` on a closed channel: the poller only exits on `false` or close, and the window never sends `false`.
- Screen and DPI queries, `size`, `client_window`, `set_page_title`, `allow_navigation` (always approves) and the no-op callbacks: thin wrappers over GTK, or no decision.
- `println!` logging.
- Keys.ToKey: `gdk::keyval_to_unicode` is a parameter, not modelled. Servo's `World1`, `World2`, `NavigateBackward` and `NavigateForward` are never produced, as in `window.rs`.
- Pointer.ToMouseButton: the panic on an unknown button is a precondition, so the abort path is not modelled.
- Pointer.CastToI32: reals carry no NaN, so `NaN as i32 == 0` is not modelled. Event positions are kept exact, without the `f64` to `f32` rounding of `window.rs`.
- Pointer.LINE_HEIGHT: the `f32` line height 38.0 is the integer 38, and scroll deltas are integer multiples of it.
- AuthDetector.Open: the open activation is only given a non-empty list of files, because GIO emits `open` only with at least one file. The out-of-bounds panic of `urls[0]` on an empty list is therefore not modelled.
- Geometry.WrappingMul: models a release build. A debug build panics on the overflow instead.
- Host.Window.constructor: the dummy actions, and the actions that replace them when the engine starts, are GIO actions that start enabled. Only their `enabled` flag is modelled.
