/**
 * The navigation state controller: on every history change the engine reports
 * its session history and the current index, and the back and forward
 * actions are enabled from that snapshot alone.
 */
module History {
  import opened Events

  /** One entry of the engine's session history (Servo's `LoadData`); only its URL is kept. */
  datatype LoadData = LoadData(url: string)

  /**
   * Rust's `usize` subtraction, restricted to the operands for which it cannot
   * underflow. A debug build would panic and a release build would wrap on the
   * others; the short-circuit guard before `len() - 1` keeps both away.
   */
  function UsizeSub(a: nat, b: nat): (r: nat)
    requires b <= a
    ensures r + b == a
  {
    a - b
  }

  /** Whether the back action is enabled: the history is not empty and the current entry is not the first. */
  function BackEnabled(entries: seq<LoadData>, current: nat): (r: bool)
    ensures r ==> entries != []
    ensures entries != [] && current > 0 ==> r
    ensures current < |entries| ==> (r <==> 0 <= current - 1)
  {
    |entries| != 0 && current > 0
  }

  /**
   * Whether the forward action is enabled: the history is not empty and the
   * current entry is before the last. `len() - 1` is only evaluated for a
   * non-empty history, so it never underflows.
   */
  function ForwardEnabled(entries: seq<LoadData>, current: nat): (r: bool)
    ensures r <==> current + 1 < |entries|
  {
    |entries| != 0 && current < UsizeSub(|entries|, 1)
  }

  /** The history index a traversal leads to from `current`, if it stays inside the history. */
  function Target(current: nat, dir: TraversalDirection): int {
    match dir
    case Back(n) => current - n
    case Forward(n) => current + n
  }

  /**
   * For a snapshot whose current index is inside the history, each action is
   * enabled exactly when the one-step traversal it sends lands on an entry.
   */
  lemma EnabledIffStepLands(entries: seq<LoadData>, current: nat)
    requires current < |entries|
    ensures BackEnabled(entries, current) <==> 0 <= Target(current, Back(1)) < |entries|
    ensures ForwardEnabled(entries, current) <==> 0 <= Target(current, Forward(1)) < |entries|
  {
  }

  /** An empty history disables both actions, whatever the current index. */
  lemma EmptyHistoryDisablesBoth(current: nat)
    ensures !BackEnabled([], current) && !ForwardEnabled([], current)
  {
  }

  /** A three-entry history, at its first and at its last entry. */
  lemma ThreeEntries(a: LoadData, b: LoadData, c: LoadData)
    ensures !BackEnabled([a, b, c], 0) && ForwardEnabled([a, b, c], 0)
    ensures BackEnabled([a, b, c], 2) && !ForwardEnabled([a, b, c], 2)
  {
  }
}
