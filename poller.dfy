/**
 * The connectivity poller. Its thread receives check requests in arrival
 * order and, for each `true`, sends one HEAD probe to the test URL; a 200
 * response sends one confirmation to the window. It stops at the first
 * `false` or when the request channel is closed. Here the channel is the
 * finite sequence of every request sent before it closes, and the network is
 * the sequence of outcomes the probe for each request would get.
 */
module Poller {
  import opened Probe

  /** What one blocking receive returns. */
  datatype Received = Message(request: bool) | Disconnected

  /** The `i`-th receive on a channel that carried `requests` and was then closed. */
  function Recv(requests: seq<bool>, i: nat): Received {
    if i < |requests| then Message(requests[i]) else Disconnected
  }

  /** How many requests the poller handles: those before the first `false`, or all of them. */
  function StopIndex(requests: seq<bool>): (n: nat)
    ensures n <= |requests|
    ensures forall i :: 0 <= i < n ==> requests[i]
    ensures n < |requests| ==> !requests[n]
  {
    if requests == [] || !requests[0] then 0 else 1 + StopIndex(requests[1..])
  }

  /** The indices below `n` whose probe confirms connectivity, in increasing order. */
  function Confirmed(outcomes: seq<ProbeOutcome>, n: nat): (r: seq<nat>)
    requires n <= |outcomes|
    ensures forall i: nat :: i in r <==> i < n && Confirms(outcomes[i])
    ensures forall j, k :: 0 <= j < k < |r| ==> r[j] < r[k]
    ensures |r| <= n
  {
    if n == 0 then []
    else
      var earlier := Confirmed(outcomes, n - 1);
      assert forall j :: 0 <= j < |earlier| ==> earlier[j] in earlier;
      earlier + (if Confirms(outcomes[n - 1]) then [n - 1] else [])
  }

  /**
   * The receive loop. It returns how many probes it sent, one per handled
   * request in arrival order (so requests `0 .. probes - 1`), and the indices
   * of the requests whose probe led to a confirmation.
   */
  method Run(requests: seq<bool>, outcomes: seq<ProbeOutcome>) returns (probes: nat, confirmations: seq<nat>)
    requires |outcomes| == |requests|
    ensures probes == StopIndex(requests)
    ensures confirmations == Confirmed(outcomes, probes)
  {
    probes, confirmations := 0, [];
    var received := Recv(requests, 0);
    while received == Message(true)
      invariant probes <= StopIndex(requests)
      invariant received == Recv(requests, probes)
      invariant confirmations == Confirmed(outcomes, probes)
      decreases |requests| - probes
    {
      var outcome := outcomes[probes];
      if Confirms(outcome) {
        confirmations := confirmations + [probes];
      }
      probes := probes + 1;
      received := Recv(requests, probes);
    }
  }

  /**
   * When every request is `true` (the only value the window sends), the poller
   * handles all of them: no request is skipped and none is deduplicated.
   */
  lemma AllTrueRequestsAreHandled(requests: seq<bool>)
    requires forall i :: 0 <= i < |requests| ==> requests[i]
    ensures StopIndex(requests) == |requests|
  {
  }

  /** Requests after the first `false` are never handled, whatever they are. */
  lemma {:induction false} StopIgnoresLaterRequests(before: seq<bool>, after: seq<bool>)
    requires forall i :: 0 <= i < |before| ==> before[i]
    ensures StopIndex(before + [false] + after) == |before|
  {
    if before != [] {
      assert (before + [false] + after)[1..] == before[1..] + [false] + after;
      StopIgnoresLaterRequests(before[1..], after);
    }
  }

  /** A failed probe, or a response other than 200, never confirms. */
  lemma OnlyOkConfirms(outcomes: seq<ProbeOutcome>, n: nat, i: nat)
    requires n <= |outcomes| && i < n
    requires outcomes[i] == Failed || (outcomes[i].Response? && outcomes[i].status != OK)
    ensures i !in Confirmed(outcomes, n)
  {
  }
}
