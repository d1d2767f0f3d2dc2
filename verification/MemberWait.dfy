/**
 * Waiting for a member to reach a state: replSetGetStatus is polled until the
 * host's row meets the target, the timeout passes, or the context ends.
 */
module MemberWait {
  import opened Wrappers
  import opened ReplicaSet
  import opened MemberPlan
  import opened Server
  import opened Timing

  datatype WaitResult = WaitResult(met: bool, everReachable: bool, observed: bool)

  const NOTHING_SEEN := WaitResult(false, false, false)

  datatype WaitEnd = WaitEnd(result: WaitResult, cancelled: bool)

  function Noted(acc: WaitResult, obs: Observation): WaitResult {
    WaitResult(obs.met, acc.everReachable || obs.reachable, true)
  }

  function Await(env: Env, w: World, ctx: nat, host: string, target: WaitTarget, deadline: nat, poll: nat,
                 acc: WaitResult): Step<WaitEnd>
    requires poll > 0
    decreases if w.clock <= deadline then deadline - w.clock + 1 else 0
  {
    var s := GetStatus(env, w);
    var res := if s.value.Errored? then acc else Noted(acc, Observe(s.value.value, host, target));
    if res.met then Step(s.world, WaitEnd(res, false))
    else if s.world.clock > deadline then Step(s.world, WaitEnd(res, false))
    else
      var p := Pause(s.world, ctx, poll);
      if p.value then Step(p.world, WaitEnd(res, true))
      else Await(env, p.world, ctx, host, target, deadline, poll, res)
  }

  // ------------------------------------------------------------- its laws

  ghost predicate RowUp(rows: seq<StatusRow>, host: string) {
    Observe(rows, host, WaitReachable).reachable
  }

  /** A status that meets a target shows the host up. */
  lemma {:induction false} MetImpliesUp(rows: seq<StatusRow>, host: string, target: WaitTarget)
    ensures Observe(rows, host, target).reachable == RowUp(rows, host)
    ensures Observe(rows, host, target).met ==> RowUp(rows, host)
  {
    if rows != [] {
      MetImpliesUp(rows[1..], host, target);
    }
  }

  /** From position n on, the log holds statuses only, and r adds to acc just what they show. */
  ghost predicate Sums(n: nat, log: seq<Event>, host: string, target: WaitTarget, acc: WaitResult, r: WaitResult) {
    && n <= |log|
    && (forall i | n <= i < |log| :: log[i].Status?)
    && (r.observed <==> acc.observed || n < |log|)
    && (r.everReachable <==> acc.everReachable || exists i :: n <= i < |log| && RowUp(log[i].rows, host))
    && (forall i | n <= i < |log| :: Observe(log[i].rows, host, target).met <==> r.met && i == |log| - 1)
    && (r.met ==> n < |log| && r.everReachable && r.observed)
  }

  lemma {:induction false} SumsOneMore(n: nat, log: seq<Event>, host: string, target: WaitTarget, acc: WaitResult,
                                       r: WaitResult)
    requires n < |log| && log[n].Status?
    requires var res := Noted(acc, Observe(log[n].rows, host, target));
             !res.met && Sums(n + 1, log, host, target, res, r)
    ensures Sums(n, log, host, target, acc, r)
  {
    MetImpliesUp(log[n].rows, host, target);
    hide Observe;
  }

  lemma {:induction false} SumsOne(log: seq<Event>, rows: seq<StatusRow>, host: string, target: WaitTarget,
                                   acc: WaitResult)
    ensures Sums(|log|, log + [Status(rows)], host, target, acc, Noted(acc, Observe(rows, host, target)))
  {
    MetImpliesUp(rows, host, target);
    hide Observe;
    assert (log + [Status(rows)])[|log|].rows == rows;
  }

  lemma {:induction false} AwaitSums(env: Env, w: World, ctx: nat, host: string, target: WaitTarget, deadline: nat,
                                     poll: nat, acc: WaitResult)
    requires poll > 0 && !acc.met
    ensures var s := Await(env, w, ctx, host, target, deadline, poll, acc);
            && Quiet(w, s.world)
            && Sums(|w.log|, s.world.log, host, target, acc, s.value.result)
            && (s.value.result.met ==> !s.value.cancelled)
    decreases if w.clock <= deadline then deadline - w.clock + 1 else 0
  {
    var s := GetStatus(env, w);
    var res := if s.value.Errored? then acc else Noted(acc, Observe(s.value.value, host, target));
    if s.value.Answered? {
      SumsOne(w.log, s.value.value, host, target, acc);
    }
    assert s.value.Errored? ==> Sums(|w.log|, s.world.log, host, target, acc, acc);
    hide Observe, Noted, Sums;
    if !res.met && s.world.clock <= deadline {
      var p := Pause(s.world, ctx, poll);
      if !p.value {
        AwaitSums(env, p.world, ctx, host, target, deadline, poll, res);
        var end := Await(env, p.world, ctx, host, target, deadline, poll, res);
        if s.value.Answered? {
          assert end.world.log[|w.log|] == s.world.log[|w.log|] == Status(s.value.value);
          SumsOneMore(|w.log|, end.world.log, host, target, acc, end.value.result);
        }
      }
    }
  }

  /**
   * The result of a wait sums up every status read during it: whether one was
   * read, whether one showed the host up, and whether the last one, and none
   * before it, met the target. Nothing is sent.
   */
  lemma {:induction false} AwaitSumsUp(env: Env, w: World, ctx: nat, host: string, target: WaitTarget, deadline: nat,
                                       poll: nat, acc: WaitResult)
    requires poll > 0 && !acc.met
    ensures var s := Await(env, w, ctx, host, target, deadline, poll, acc);
            var log, r := s.world.log, s.value.result;
            && Quiet(w, s.world)
            && (forall i | |w.log| <= i < |log| :: log[i].Status?)
            && (r.observed <==> acc.observed || |w.log| < |log|)
            && (r.everReachable <==> acc.everReachable
                                     || exists i :: |w.log| <= i < |log| && RowUp(log[i].rows, host))
            && (forall i | |w.log| <= i < |log| :: Observe(log[i].rows, host, target).met <==> r.met && i == |log| - 1)
            && (r.met ==> |w.log| < |log| && r.everReachable && r.observed && !s.value.cancelled)
  {
    AwaitSums(env, w, ctx, host, target, deadline, poll, acc);
    hide Await, Observe, RowUp;
  }

  /** A wait whose first status meets the target ends with it. */
  lemma {:induction false} AwaitMeetsAtOnce(env: Env, w: World, ctx: nat, host: string, target: WaitTarget,
                                            deadline: nat, poll: nat, acc: WaitResult)
    requires poll > 0
    requires env(w.calls).status.Answered? && Observe(env(w.calls).status.value, host, target).met
    ensures Await(env, w, ctx, host, target, deadline, poll, acc)
            == Step(GetStatus(env, w).world,
                    WaitEnd(Noted(acc, Observe(env(w.calls).status.value, host, target)), false))
  {
    hide Observe;
  }

  lemma {:induction false} AwaitPolls(env: Env, w: World, ctx: nat, host: string, target: WaitTarget, deadline: nat,
                                      poll: nat, acc: WaitResult)
    requires poll > 0
    ensures var polls := Await(env, w, ctx, host, target, deadline, poll, acc).world.calls - w.calls;
            polls >= 1 && if w.clock <= deadline then polls * poll <= deadline - w.clock + poll + poll else polls == 1
    decreases if w.clock <= deadline then deadline - w.clock + 1 else 0
  {
    hide Observe, Noted;
    var s := GetStatus(env, w);
    var res := if s.value.Errored? then acc else Noted(acc, Observe(s.value.value, host, target));
    if !res.met && s.world.clock <= deadline {
      var p := Pause(s.world, ctx, poll);
      if !p.value {
        AwaitPolls(env, p.world, ctx, host, target, deadline, poll, res);
        var rest := Await(env, p.world, ctx, host, target, deadline, poll, res).world.calls - p.world.calls;
        assert (rest + 1) * poll == rest * poll + poll;
      }
    }
  }

  /** A wait polls at most timeout / poll + 2 times. */
  lemma {:induction false} AwaitIsBounded(env: Env, w: World, ctx: nat, host: string, target: WaitTarget, timeout: nat,
                                          poll: nat)
    requires poll > 0
    ensures var s := Await(env, w, ctx, host, target, w.clock + timeout, poll, NOTHING_SEEN);
            1 <= s.world.calls - w.calls <= timeout / poll + 2
  {
    AwaitPolls(env, w, ctx, host, target, w.clock + timeout, poll, NOTHING_SEEN);
    var polls := Await(env, w, ctx, host, target, w.clock + timeout, poll, NOTHING_SEEN).world.calls - w.calls;
    assert (polls - 2) * poll == polls * poll - poll - poll;
    DivideBound(polls - 2, poll, timeout);
  }
  // ------------------------------------------------------ which polls are made

  /** When the k-th poll from w on begins, if no earlier one ends the wait. */
  ghost function PollAt(env: Env, w: World, poll: nat, k: nat): nat {
    if k == 0 then w.clock else PollAt(env, w, poll, k - 1) + env(w.calls + k - 1).took + poll
  }

  /** When its answer is in. */
  ghost function PollDone(env: Env, w: World, poll: nat, k: nat): nat {
    PollAt(env, w, poll, k) + env(w.calls + k).took
  }

  /** Time allows the k-th poll: the answers before it came by the deadline, and the pauses ended before the context. */
  ghost predicate InReach(env: Env, w: World, ctx: nat, deadline: nat, poll: nat, k: nat) {
    forall j: nat | j < k :: PollDone(env, w, poll, j) <= deadline && PollDone(env, w, poll, j) + poll < ctx
  }

  /** The k-th poll from w on is answered, and the first row named host is up and in the target state. */
  ghost predicate Shows(env: Env, w: World, host: string, target: WaitTarget, k: nat) {
    var status := env(w.calls + k).status;
    status.Answered? && RowMeets(status.value, host, target)
  }

  ghost predicate FirstNamed(rows: seq<StatusRow>, host: string, j: int) {
    0 <= j < |rows| && rows[j].name == host && forall i | 0 <= i < j :: rows[i].name != host
  }

  ghost predicate StateFits(target: WaitTarget, state: int) {
    match target
    case WaitReachable => true
    case WaitSecondary => state == 2 || state == 1
    case WaitArbiter => state == 7
  }

  ghost predicate RowMeets(rows: seq<StatusRow>, host: string, target: WaitTarget) {
    exists j :: FirstNamed(rows, host, j) && rows[j].health == 1 && StateFits(target, rows[j].state)
  }

  /** A status shows a host up exactly when the first row of that name has health 1, and met in the target's states. */
  lemma {:induction false} ObservedExactlyWhen(rows: seq<StatusRow>, host: string, target: WaitTarget)
    ensures Observe(rows, host, target).met <==> RowMeets(rows, host, target)
    ensures Observe(rows, host, target).reachable <==> RowMeets(rows, host, WaitReachable)
  {
    if rows != [] {
      var rest := rows[1..];
      ObservedExactlyWhen(rest, host, target);
      if rows[0].name == host {
        assert FirstNamed(rows, host, 0);
      } else {
        RowMeetsBehind(rows, host, target);
        RowMeetsBehind(rows, host, WaitReachable);
      }
    }
  }

  lemma {:induction false} RowMeetsBehind(rows: seq<StatusRow>, host: string, target: WaitTarget)
    requires rows != [] && rows[0].name != host
    ensures RowMeets(rows, host, target) <==> RowMeets(rows[1..], host, target)
  {
    var rest := rows[1..];
    assert forall i | 0 <= i < |rest| :: rest[i] == rows[i + 1];
    if j :| FirstNamed(rows, host, j) && rows[j].health == 1 && StateFits(target, rows[j].state) {
      assert FirstNamed(rest, host, j - 1) && rest[j - 1] == rows[j];
    }
    if j :| FirstNamed(rest, host, j) && rest[j].health == 1 && StateFits(target, rest[j].state) {
      assert FirstNamed(rows, host, j + 1) && rest[j] == rows[j + 1];
    }
  }

  /**
   * The wait ends with its k-th poll, having made them all in time: the first
   * to show the target, or, showing nothing, the first answered after the
   * deadline, or the first whose pause outlasts the context.
   */
  ghost predicate EndsWith(env: Env, w: World, ctx: nat, host: string, target: WaitTarget, deadline: nat, poll: nat,
                           k: nat, end: Step<WaitEnd>) {
    && InReach(env, w, ctx, deadline, poll, k)
    && (forall j: nat | j < k :: !Shows(env, w, host, target, j))
    && end.world.calls == w.calls + k + 1
    && (end.value.result.met <==> Shows(env, w, host, target, k))
    && (end.value.cancelled <==>
          !end.value.result.met && PollDone(env, w, poll, k) <= deadline && ctx <= PollDone(env, w, poll, k) + poll)
    && (!end.value.cancelled ==> end.world.clock == PollDone(env, w, poll, k))
    && (!end.value.result.met && !end.value.cancelled ==> PollDone(env, w, poll, k) > deadline)
    && (end.value.cancelled ==> end.world.clock >= ctx)
  }

  lemma {:induction false} AwaitEndsWith(env: Env, w: World, ctx: nat, host: string, target: WaitTarget, deadline: nat,
                                         poll: nat, acc: WaitResult) returns (k: nat)
    requires poll > 0 && !acc.met
    ensures EndsWith(env, w, ctx, host, target, deadline, poll, k,
                     Await(env, w, ctx, host, target, deadline, poll, acc))
    decreases if w.clock <= deadline then deadline - w.clock + 1 else 0
  {
    var s := GetStatus(env, w);
    var res := if s.value.Errored? then acc else Noted(acc, Observe(s.value.value, host, target));
    if s.value.Answered? {
      ObservedExactlyWhen(s.value.value, host, target);
    }
    assert PollDone(env, w, poll, 0) == s.world.clock && env(w.calls + 0) == env(w.calls);
    assert res.met <==> Shows(env, w, host, target, 0);
    hide Observe, RowMeets, Noted;
    var p := Pause(s.world, ctx, poll);
    if res.met || s.world.clock > deadline || p.value {
      k := 0;
    } else {
      var n := AwaitEndsWith(env, p.world, ctx, host, target, deadline, poll, res);
      k := n + 1;
      PollsShift(env, w, p.world, host, target, poll);
      hide Shows, PollAt, PollDone;
      OnePollMore(env, w, p.world, ctx, host, target, deadline, poll, n,
                  Await(env, p.world, ctx, host, target, deadline, poll, res));
    }
  }

  /** The polls seen from one poll later on. */
  lemma {:induction false} PollsShift(env: Env, w: World, next: World, host: string, target: WaitTarget, poll: nat)
    requires next.calls == w.calls + 1 && next.clock == w.clock + env(w.calls).took + poll
    ensures forall j: nat :: PollDone(env, next, poll, j) == PollDone(env, w, poll, j + 1)
    ensures forall j: nat :: Shows(env, next, host, target, j) <==> Shows(env, w, host, target, j + 1)
  {
    hide RowMeets;
    forall j: nat ensures PollDone(env, next, poll, j) == PollDone(env, w, poll, j + 1) {
      PollShift(env, w, next, poll, j);
    }
    forall j: nat ensures Shows(env, next, host, target, j) <==> Shows(env, w, host, target, j + 1) {
      assert next.calls + j == w.calls + (j + 1);
    }
  }

  lemma {:induction false} PollShift(env: Env, w: World, next: World, poll: nat, j: nat)
    requires next.calls == w.calls + 1 && next.clock == w.clock + env(w.calls).took + poll
    ensures PollAt(env, next, poll, j) == PollAt(env, w, poll, j + 1)
    ensures PollDone(env, next, poll, j) == PollDone(env, w, poll, j + 1)
  {
    if j > 0 {
      PollShift(env, w, next, poll, j - 1);
    }
    assert next.calls + j == w.calls + (j + 1);
    assert j > 0 ==> next.calls + j - 1 == w.calls + (j + 1) - 1;
  }

  lemma {:induction false} OnePollMore(env: Env, w: World, next: World, ctx: nat, host: string, target: WaitTarget,
                                       deadline: nat, poll: nat, n: nat, end: Step<WaitEnd>)
    requires forall j: nat :: PollDone(env, next, poll, j) == PollDone(env, w, poll, j + 1)
    requires forall j: nat :: Shows(env, next, host, target, j) <==> Shows(env, w, host, target, j + 1)
    requires next.calls == w.calls + 1
    requires PollDone(env, w, poll, 0) <= deadline && PollDone(env, w, poll, 0) + poll < ctx
    requires !Shows(env, w, host, target, 0)
    requires EndsWith(env, next, ctx, host, target, deadline, poll, n, end)
    ensures EndsWith(env, w, ctx, host, target, deadline, poll, n + 1, end)
  {
    hide PollDone, Shows;
    forall j: nat | j < n + 1
      ensures PollDone(env, w, poll, j) <= deadline && PollDone(env, w, poll, j) + poll < ctx
      ensures !Shows(env, w, host, target, j)
    {
      if j > 0 {
        assert PollDone(env, next, poll, j - 1) == PollDone(env, w, poll, j);
        assert Shows(env, next, host, target, j - 1) <==> Shows(env, w, host, target, j);
      }
    }
  }

  /**
   * A wait meets its target exactly when a poll that time allows shows it; it
   * fails to only after its deadline, and is interrupted only once the context
   * is over.
   */
  lemma {:induction false} AwaitMeetsExactlyWhen(env: Env, w: World, ctx: nat, host: string, target: WaitTarget,
                                                 deadline: nat, poll: nat)
    requires poll > 0
    ensures var s := Await(env, w, ctx, host, target, deadline, poll, NOTHING_SEEN);
            && (s.value.result.met
                <==> exists k: nat :: InReach(env, w, ctx, deadline, poll, k) && Shows(env, w, host, target, k))
            && (!s.value.result.met && !s.value.cancelled ==> s.world.clock > deadline)
            && (s.value.cancelled ==> s.world.clock >= ctx)
  {
    var n := AwaitEndsWith(env, w, ctx, host, target, deadline, poll, NOTHING_SEEN);
    hide Await, PollDone, PollAt, Shows;
    var s := Await(env, w, ctx, host, target, deadline, poll, NOTHING_SEEN);
    if k: nat :| InReach(env, w, ctx, deadline, poll, k) && Shows(env, w, host, target, k) {
      if k > n {
        assert PollDone(env, w, poll, n) <= deadline;
      }
    }
  }
}
