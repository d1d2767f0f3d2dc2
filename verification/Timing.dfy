/** What the polling loops share: the pause of the initiation loops and how pauses bound the number of polls. */
module Timing {

  /** The pause between polls and between reconfig attempts, in milliseconds. */
  const INIT_POLL := 500

  lemma {:induction false} DivideBound(n: int, poll: nat, x: nat)
    requires poll > 0 && n * poll <= x
    ensures n <= x / poll
  {
    var q := x / poll;
    assert x < (q + 1) * poll;
    assert q < n ==> (q + 1) * poll <= n * poll;
  }
}
