/** The daemon's poll loop: it tolerates scattered failures and stops at the first run of
    `threshold` failures in a row. */
module Daemon {
  import opened Bytes

  const U32_MAX: u32 := 0xffff_ffff

  const POLL_FAILURE_THRESHOLD: u32 := 5

  /** How many polls at the end of the history failed; `true` is a successful poll. */
  function Trailing(history: seq<bool>): (n: nat)
    ensures n <= |history|
    decreases |history|
  { if history == [] || history[|history| - 1] then 0 else 1 + Trailing(history[..|history| - 1]) }

  lemma NoTrailing()
    ensures Trailing([]) == 0
  {}

  function Saturated(n: nat): u32 { if n <= U32_MAX then n else U32_MAX }

  class PollFailureTracker {
    var consecutive: u32
    const threshold: u32

    constructor (threshold: u32)
      ensures consecutive == 0 && this.threshold == threshold
    {
      consecutive := 0;
      this.threshold := threshold;
    }

    ghost predicate Tracks(history: seq<bool>)
      reads this
    { consecutive == Saturated(Trailing(history)) }

    method RecordSuccess(ghost history: seq<bool>)
      requires Tracks(history)
      modifies this
      ensures Tracks(history + [true])
    { consecutive := 0; }

    method RecordFailure(ghost history: seq<bool>) returns (reached: bool)
      requires Tracks(history)
      modifies this
      ensures Tracks(history + [false])
      ensures reached <==> Trailing(history + [false]) >= threshold
    {
      assert (history + [false])[..|history|] == history;
      consecutive := if consecutive < U32_MAX then consecutive + 1 else U32_MAX;
      reached := consecutive >= threshold;
    }
  }

  /** The polls that a run gets to make, and whether the daemon aborted after the last of them. */
  method RunPolls(outcomes: seq<bool>, threshold: u32) returns (polled: nat, aborted: bool)
    ensures polled <= |outcomes| && (!aborted ==> polled == |outcomes|)
    ensures aborted <==> exists k :: 0 <= k < |outcomes| && Aborts(outcomes, threshold, k)
    ensures aborted ==> polled > 0 && Aborts(outcomes, threshold, polled - 1)
    ensures forall k :: 0 <= k < polled - 1 ==> !Aborts(outcomes, threshold, k)
  {
    hide Trailing;
    var failures := new PollFailureTracker(threshold);
    assert outcomes[..0] == [] && failures.Tracks([]) by { NoTrailing(); }
    for i := 0 to |outcomes|
      invariant failures.threshold == threshold && failures.Tracks(outcomes[..i])
      invariant forall k :: 0 <= k < i ==> !Aborts(outcomes, threshold, k)
    {
      ghost var history := outcomes[..i];
      assert outcomes[..i + 1] == history + [outcomes[i]];
      if outcomes[i] {
        failures.RecordSuccess(history);
      } else {
        var reached := failures.RecordFailure(history);
        if reached {
          assert Aborts(outcomes, threshold, i);
          return i + 1, true;
        }
      }
    }
    assert outcomes[..|outcomes|] == outcomes;
    return |outcomes|, false;
  }

  /** Poll `k` failed and completes a run of at least `threshold` failures. */
  predicate Aborts(outcomes: seq<bool>, threshold: u32, k: nat)
    requires k < |outcomes|
  { !outcomes[k] && Trailing(outcomes[..k + 1]) >= threshold }

  /** With a positive threshold that means: the last `threshold` polls, this one included, all
      failed. */
  lemma {:induction false} AbortsIffRun(outcomes: seq<bool>, threshold: u32, k: nat)
    requires k < |outcomes| && threshold > 0
    ensures Aborts(outcomes, threshold, k) <==>
              k + 1 >= threshold && forall j :: k + 1 - threshold <= j <= k ==> !outcomes[j]
    decreases k
  {
    assert outcomes[..k + 1][..k] == outcomes[..k];
    if threshold > 1 && k > 0 {
      AbortsIffRun(outcomes, threshold - 1, k - 1);
    }
  }

  /** Polls `k - 4` to `k` all failed. */
  predicate FailedRun(outcomes: seq<bool>, k: int)
  {
    && 5 <= k + 1 <= |outcomes|
    && forall j :: k - 4 <= j <= k ==> !outcomes[j]
  }

  /** The daemon aborts right after the first five polls in a row that failed, and otherwise never. */
  method RunDaemon(outcomes: seq<bool>) returns (polled: nat, aborted: bool)
    ensures polled <= |outcomes| && (!aborted ==> polled == |outcomes|)
    ensures aborted <==> exists k :: FailedRun(outcomes, k)
    ensures aborted ==> FailedRun(outcomes, polled - 1)
    ensures forall k :: FailedRun(outcomes, k) ==> k >= polled - 1
  {
    hide Trailing;
    polled, aborted := RunPolls(outcomes, POLL_FAILURE_THRESHOLD);
    forall k | 0 <= k < |outcomes| ensures Aborts(outcomes, POLL_FAILURE_THRESHOLD, k) <==> FailedRun(outcomes, k) {
      AbortsIffRun(outcomes, POLL_FAILURE_THRESHOLD, k);
    }
  }
}
