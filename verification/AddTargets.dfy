/**
 * What happens before any reconfig: hosts to add are waited for until they
 * accept connections, then each is inspected, and the first that must not be
 * added stops the apply.
 */
module AddTargets {
  import opened Wrappers
  import opened ReplicaSet
  import opened MemberPlan
  import opened Server

  const READY_POLL := 10000

  /** How waiting for one host ends; Inconclusive is an answer other than a failed connection. */
  datatype ReachEnd = Reached | Inconclusive(error: MongoError) | NotReady(last: MongoError)

  function AwaitReachable(env: Env, w: World, ctx: nat, hostOverride: bool, host: string, last: Option<MongoError>)
    : Step<ReachEnd>
    decreases if w.clock < ctx then ctx - w.clock else 0
  {
    var s := ProbeHost(env, w, hostOverride, host);
    if s.value.Answered? then Step(s.world, Reached)
    else
      var e := s.value.error;
      if s.world.clock < ctx && !IsConnectionError(e) then Step(s.world, Inconclusive(e))
      else
        var latest := if s.world.clock < ctx || last.None? then e else last.value;
        var p := Pause(s.world, ctx, READY_POLL);
        if p.value then Step(p.world, NotReady(latest))
        else AwaitReachable(env, p.world, ctx, hostOverride, host, Some(latest))
  }

  /** The first host that was still silent when the context ended. */
  function WaitForTargets(env: Env, w: World, ctx: nat, hostOverride: bool, todo: seq<Block>): Step<Option<string>>
    decreases todo
  {
    if todo == [] then Step(w, None)
    else
      var s := AwaitReachable(env, w, ctx, hostOverride, todo[0].host, None);
      if s.value.NotReady? then Step(s.world, Some(todo[0].host))
      else WaitForTargets(env, s.world, ctx, hostOverride, todo[1..])
  }

  /** The first host the inspection refuses. */
  function Preflight(env: Env, w: World, setName: string, hostOverride: bool, todo: seq<Block>): Step<Option<string>>
    decreases todo
  {
    if todo == [] then Step(w, None)
    else
      var s := ProbeHost(env, w, hostOverride, todo[0].host);
      if !Passes(setName, todo[0], s.value) then Step(s.world, Some(todo[0].host))
      else Preflight(env, s.world, setName, hostOverride, todo[1..])
  }

  lemma {:induction false} AwaitReachableQuiet(env: Env, w: World, ctx: nat, hostOverride: bool, host: string,
                                              last: Option<MongoError>)
    ensures Quiet(w, AwaitReachable(env, w, ctx, hostOverride, host, last).world)
    decreases if w.clock < ctx then ctx - w.clock else 0
  {
    var s := ProbeHost(env, w, hostOverride, host);
    if s.value.Errored? && !(s.world.clock < ctx && !IsConnectionError(s.value.error)) {
      var latest := if s.world.clock < ctx || last.None? then s.value.error else last.value;
      var p := Pause(s.world, ctx, READY_POLL);
      if !p.value {
        AwaitReachableQuiet(env, p.world, ctx, hostOverride, host, Some(latest));
      }
    }
  }

  lemma {:induction false} QuietTwice(a: World, b: World, c: World)
    requires Quiet(a, b) && Quiet(b, c)
    ensures Quiet(a, c)
  {
  }

  lemma {:induction false} WaitForTargetsQuiet(env: Env, w: World, ctx: nat, hostOverride: bool, todo: seq<Block>)
    ensures Quiet(w, WaitForTargets(env, w, ctx, hostOverride, todo).world)
    decreases todo
  {
    if todo != [] {
      hide AwaitReachable;
      AwaitReachableQuiet(env, w, ctx, hostOverride, todo[0].host, None);
      var s := AwaitReachable(env, w, ctx, hostOverride, todo[0].host, None);
      if !s.value.NotReady? {
        WaitForTargetsQuiet(env, s.world, ctx, hostOverride, todo[1..]);
        QuietTwice(w, s.world, WaitForTargets(env, s.world, ctx, hostOverride, todo[1..]).world);
      }
    }
  }

  /**
   * The inspection probes the hosts in block order and stops at the first it
   * refuses; it lets the apply go on exactly when every block passed.
   */
  lemma {:induction false} PreflightProbesInOrder(env: Env, w: World, setName: string, hostOverride: bool,
                                                  todo: seq<Block>, j: nat)
    ensures var s := Preflight(env, w, setName, hostOverride, todo);
            var log, probed := s.world.log, |s.world.log| - |w.log|;
            && Quiet(w, s.world)
            && probed <= |todo|
            && (j < probed ==>
                  && log[|w.log| + j].Probe? && log[|w.log| + j].host == todo[j].host
                  && (Passes(setName, todo[j], log[|w.log| + j].reply) <==> s.value.None? || j < probed - 1))
            && (s.value.None? ==> probed == |todo|)
            && (s.value.Some? ==> probed > 0 && s.value.value == todo[probed - 1].host)
    decreases todo
  {
    hide CheckAddTarget, Passes;
    if todo != [] {
      var s := ProbeHost(env, w, hostOverride, todo[0].host);
      if Passes(setName, todo[0], s.value) {
        PreflightProbesInOrder(env, s.world, setName, hostOverride, todo[1..], if j > 0 then j - 1 else 0);
        var end := Preflight(env, s.world, setName, hostOverride, todo[1..]).world;
        assert end.log[|w.log|] == s.world.log[|w.log|];
        QuietTwice(w, s.world, end);
      }
    }
  }

  /** An arbiter that passed was inspected and found addable. */
  lemma {:induction false} ArbitersAreInspected(setName: string, b: Block, reply: Reply<IsMaster>)
    requires b.arbiterOnly && Passes(setName, b, reply)
    ensures reply.Answered? && CheckAddTarget(setName, reply).AddOk?
  {
  }

  /** A host is addable exactly when it runs with --replSet and belongs to no set and is no mongos. */
  lemma {:induction false} AddableExactlyWhen(setName: string, reply: Reply<IsMaster>)
    ensures CheckAddTarget(setName, reply).AddOk?
            <==> && reply.Answered? && reply.value.isReplicaSet && reply.value.setName == "" != setName
                 && reply.value.msg != "isdbgrid"
    ensures CheckAddTarget(setName, reply).AddUnknown? <==> reply.Errored?
  {
  }

  /**
   * b's host may be added: it answered that it runs with --replSet, belongs to
   * no set and is no mongos, or it gave no answer and is to bear data.
   */
  ghost predicate Fit(setName: string, b: Block, reply: Reply<IsMaster>) {
    match reply
    case Errored(_) => !b.arbiterOnly
    case Answered(r) => r.isReplicaSet && r.setName == "" != setName && r.msg != "isdbgrid"
  }

  /** What the inspection hears of its k-th host. */
  ghost function Heard(env: Env, w: World, hostOverride: bool, k: nat): Reply<IsMaster> {
    if hostOverride then Errored(PROBE_SKIPPED) else env(w.calls + k).probe
  }

  /** The k-th host inspected is fit for its block. */
  ghost predicate FitAt(env: Env, w: World, setName: string, hostOverride: bool, todo: seq<Block>, k: int)
    requires 0 <= k < |todo|
  {
    Fit(setName, todo[k], Heard(env, w, hostOverride, k))
  }

  /** The inspection lets the apply go on exactly when every host is fit, and else names the first that is not. */
  lemma {:induction false} PreflightPassesExactlyWhen(env: Env, w: World, setName: string, hostOverride: bool,
                                                      todo: seq<Block>)
    ensures var s := Preflight(env, w, setName, hostOverride, todo);
            && (s.value.None? <==> forall k | 0 <= k < |todo| :: FitAt(env, w, setName, hostOverride, todo, k))
            && (s.value.Some? ==>
                  exists k :: && 0 <= k < |todo| && !FitAt(env, w, setName, hostOverride, todo, k)
                              && s.value.value == todo[k].host
                              && forall j | 0 <= j < k :: FitAt(env, w, setName, hostOverride, todo, j))
    decreases todo
  {
    if todo != [] {
      var rest, next := todo[1..], ProbeHost(env, w, hostOverride, todo[0].host).world;
      assert Passes(setName, todo[0], Heard(env, w, hostOverride, 0)) <==> FitAt(env, w, setName, hostOverride, todo, 0);
      forall k | 0 <= k < |rest|
        ensures FitAt(env, next, setName, hostOverride, rest, k) <==> FitAt(env, w, setName, hostOverride, todo, k + 1)
      {
        hide Fit;
        assert !hostOverride ==> next.calls + k == w.calls + (k + 1);
      }
      assert ProbeHost(env, w, hostOverride, todo[0].host).value == Heard(env, w, hostOverride, 0);
      hide Passes, Fit, Heard, FitAt, ProbeHost;
      PreflightPassesExactlyWhen(env, next, setName, hostOverride, rest);
      var s := Preflight(env, next, setName, hostOverride, rest);
      assert forall k | 0 < k < |todo| :: FitAt(env, w, setName, hostOverride, todo, k)
                                          <==> FitAt(env, next, setName, hostOverride, rest, k - 1);
    }
  }

  // ------------------------------------------------------ waiting for one host

  /** When the k-th attempt from w on begins, if no earlier one ends the wait. */
  ghost function TryAt(env: Env, w: World, k: nat): nat {
    if k == 0 then w.clock else TryAt(env, w, k - 1) + env(w.calls + k - 1).took + 10000
  }

  ghost function TryDone(env: Env, w: World, k: nat): nat {
    TryAt(env, w, k) + env(w.calls + k).took
  }

  /** The k-th attempt failed to connect: no answer, and no refused login either. */
  ghost predicate Silent(env: Env, w: World, k: nat) {
    var reply := env(w.calls + k).probe;
    reply.Errored? && match reply.error
                      case CommandError(code, networkLabel) => networkLabel && code != 13 && code != 18
                      case OtherError(mentionsAuth, transport) => transport && !mentionsAuth
  }

  /** The k-th attempt is made: the host was silent before it, and the pauses ended before the context. */
  ghost predicate Tried(env: Env, w: World, ctx: nat, k: nat) {
    forall j: nat | j < k :: Silent(env, w, j) && TryDone(env, w, j) + 10000 < ctx
  }

  /**
   * The wait ends with its k-th attempt; given up, it reports the error of the
   * last attempt that failed in time, of the first if none did.
   */
  ghost predicate ReachEndsWith(env: Env, w: World, ctx: nat, last: Option<MongoError>, k: nat, end: Step<ReachEnd>) {
    var reply := env(w.calls + k).probe;
    && Tried(env, w, ctx, k)
    && (end.value.Reached? <==> reply.Answered?)
    && (end.value.Inconclusive? <==> reply.Errored? && !Silent(env, w, k) && TryDone(env, w, k) < ctx)
    && (end.value.NotReady? ==>
          && reply.Errored? && ctx <= TryDone(env, w, k) + 10000 && ctx <= end.world.clock
          && if TryDone(env, w, k) < ctx || (k == 0 && last.None?) then end.value.last == reply.error
             else if k == 0 then end.value.last == last.value
             else env(w.calls + k - 1).probe == Errored(end.value.last))
  }

  lemma {:induction false} ReachEnds(env: Env, w: World, ctx: nat, host: string, last: Option<MongoError>)
    returns (k: nat)
    ensures ReachEndsWith(env, w, ctx, last, k, AwaitReachable(env, w, ctx, false, host, last))
    decreases if w.clock < ctx then ctx - w.clock else 0
  {
    var s := ProbeHost(env, w, false, host);
    assert TryDone(env, w, 0) == s.world.clock && env(w.calls + 0) == env(w.calls);
    k := 0;
    if Silent(env, w, 0) && s.world.clock < ctx {
      var p := Pause(s.world, ctx, READY_POLL);
      if !p.value {
        var n := ReachEnds(env, p.world, ctx, host, Some(s.value.error));
        k := n + 1;
        TriesShift(env, w, p.world);
        hide Silent, TryAt, TryDone;
        OneTryMore(env, w, p.world, ctx, last, n, AwaitReachable(env, p.world, ctx, false, host, Some(s.value.error)));
      }
    }
  }

  /** The attempts seen from one attempt later on. */
  lemma {:induction false} TriesShift(env: Env, w: World, next: World)
    requires next.calls == w.calls + 1 && next.clock == w.clock + env(w.calls).took + 10000
    ensures forall j: nat :: TryDone(env, next, j) == TryDone(env, w, j + 1)
    ensures forall j: nat :: Silent(env, next, j) <==> Silent(env, w, j + 1)
  {
    forall j: nat ensures TryDone(env, next, j) == TryDone(env, w, j + 1) {
      TryShift(env, w, next, j);
    }
    forall j: nat ensures Silent(env, next, j) <==> Silent(env, w, j + 1) {
      assert next.calls + j == w.calls + (j + 1);
    }
  }

  lemma {:induction false} TryShift(env: Env, w: World, next: World, j: nat)
    requires next.calls == w.calls + 1 && next.clock == w.clock + env(w.calls).took + 10000
    ensures TryAt(env, next, j) == TryAt(env, w, j + 1)
    ensures TryDone(env, next, j) == TryDone(env, w, j + 1)
  {
    if j > 0 {
      TryShift(env, w, next, j - 1);
    }
    assert next.calls + j == w.calls + (j + 1);
    assert j > 0 ==> next.calls + j - 1 == w.calls + (j + 1) - 1;
  }

  lemma {:induction false} OneTryMore(env: Env, w: World, next: World, ctx: nat, last: Option<MongoError>, n: nat,
                                      end: Step<ReachEnd>)
    requires forall j: nat :: TryDone(env, next, j) == TryDone(env, w, j + 1)
    requires forall j: nat :: Silent(env, next, j) <==> Silent(env, w, j + 1)
    requires next.calls == w.calls + 1 && Silent(env, w, 0) && TryDone(env, w, 0) + 10000 < ctx
    requires env(w.calls).probe.Errored?
    requires ReachEndsWith(env, next, ctx, Some(env(w.calls).probe.error), n, end)
    ensures ReachEndsWith(env, w, ctx, last, n + 1, end)
  {
    assert env(next.calls + n) == env(w.calls + (n + 1));
    assert TryDone(env, next, n) == TryDone(env, w, n + 1);
    assert Silent(env, next, n) <==> Silent(env, w, n + 1);
    hide TryDone, Silent;
    forall j: nat | j < n + 1 ensures Silent(env, w, j) && TryDone(env, w, j) + 10000 < ctx {
      if j > 0 {
        assert TryDone(env, next, j - 1) == TryDone(env, w, j);
        assert Silent(env, next, j - 1) <==> Silent(env, w, j);
      }
    }
  }

  /** The k-th attempt is the last one made in time, or the first of all, and failed with e. */
  ghost predicate LastHeard(env: Env, w: World, ctx: nat, k: nat, e: MongoError) {
    && Tried(env, w, ctx, k) && env(w.calls + k).probe == Errored(e)
    && (TryDone(env, w, k) < ctx || k == 0)
    && (Tried(env, w, ctx, k + 1) ==> TryDone(env, w, k + 1) >= ctx)
  }

  /**
   * Without host_override a host is reached exactly when an attempt that is
   * made gets an answer, and passed on undecided exactly when one fails in
   * time by anything but a failed connection; it is given up only once the
   * context is over. Under host_override nothing is waited for while the
   * context lasts.
   */
  lemma {:induction false} ReachedExactlyWhen(env: Env, w: World, ctx: nat, host: string)
    ensures var s := AwaitReachable(env, w, ctx, false, host, None);
            && (s.value.Reached? <==> exists k: nat :: Tried(env, w, ctx, k) && env(w.calls + k).probe.Answered?)
            && (s.value.Inconclusive?
                <==> exists k: nat :: && Tried(env, w, ctx, k) && env(w.calls + k).probe.Errored?
                                      && !Silent(env, w, k) && TryDone(env, w, k) < ctx)
            && (s.value.NotReady? ==> s.world.clock >= ctx)
            && (s.value.NotReady? ==> exists k: nat :: LastHeard(env, w, ctx, k, s.value.last))
    ensures AwaitReachable(env, w, ctx, true, host, None).value.NotReady? <==> ctx <= w.clock
  {
    OverriddenReach(env, w, ctx, host);
    var n := ReachEnds(env, w, ctx, host, None);
    assert Silent(env, w, n) ==> env(w.calls + n).probe.Errored?;
    hide TryDone, AwaitReachable;
    forall k: nat | Tried(env, w, ctx, k) && (env(w.calls + k).probe.Answered? || !Silent(env, w, k)) ensures k == n {
      assert k < n ==> Silent(env, w, k);
      assert k > n ==> Silent(env, w, n) && TryDone(env, w, n) + 10000 < ctx;
    }
    var s := AwaitReachable(env, w, ctx, false, host, None);
    if s.value.NotReady? {
      var k := if TryDone(env, w, n) < ctx || n == 0 then n else n - 1;
      assert n > 0 ==> Silent(env, w, n - 1) && TryDone(env, w, n - 1) + 10000 < ctx && Tried(env, w, ctx, n - 1);
      assert Tried(env, w, ctx, n + 1) ==> TryDone(env, w, n) + 10000 < ctx;
      assert LastHeard(env, w, ctx, k, s.value.last);
    }
    assert Tried(env, w, ctx, n);
    hide Silent, Tried;
  }

  lemma {:induction false} OverriddenReach(env: Env, w: World, ctx: nat, host: string)
    ensures AwaitReachable(env, w, ctx, true, host, None).value.NotReady? <==> ctx <= w.clock
  {
  }
  /** The probe of host got through: an answer, or an error other than a failed connection. */
  ghost predicate GotThrough(e: Event, host: string) {
    && e.Probe? && e.host == host
    && match e.reply
       case Answered(_) => true
       case Errored(CommandError(code, networkLabel)) => !networkLabel || code == 13 || code == 18
       case Errored(OtherError(mentionsAuth, transport)) => !transport || mentionsAuth
  }

  ghost predicate HeardBetween(before: seq<Event>, after: seq<Event>, host: string) {
    exists i :: |before| <= i < |after| && GotThrough(after[i], host)
  }

  /** A wait for a host probes that host alone until it gets through, and gives it up only once the context is over. */
  lemma {:induction false} ReachProbes(env: Env, w: World, ctx: nat, hostOverride: bool, host: string,
                                       last: Option<MongoError>)
    ensures var s := AwaitReachable(env, w, ctx, hostOverride, host, last);
            && w.log < s.world.log
            && (forall i | |w.log| <= i < |s.world.log| :: s.world.log[i].Probe? && s.world.log[i].host == host)
            && (if s.value.NotReady? then s.world.clock >= ctx else HeardBetween(w.log, s.world.log, host))
    decreases if w.clock < ctx then ctx - w.clock else 0
  {
    var s := ProbeHost(env, w, hostOverride, host);
    assert s.world.log == w.log + [Probe(host, s.value)];
    assert s.world.log[|w.log|] == Probe(host, s.value);
    if s.value.Errored? && !(s.world.clock < ctx && !IsConnectionError(s.value.error)) {
      var latest := if s.world.clock < ctx || last.None? then s.value.error else last.value;
      var p := Pause(s.world, ctx, READY_POLL);
      if !p.value {
        hide GotThrough;
        ReachProbes(env, p.world, ctx, hostOverride, host, Some(latest));
        var end := AwaitReachable(env, p.world, ctx, hostOverride, host, Some(latest)).world;
        assert end.log[|w.log|] == s.world.log[|w.log|];
      }
    } else {
      assert GotThrough(s.world.log[|w.log|], host);
    }
  }

  /**
   * Every host to add is waited for: the apply goes on only if a probe of each
   * got through, and stops at one host, the last it probed, only once the
   * context is over.
   */
  lemma {:induction false} EveryTargetIsAwaited(env: Env, w: World, ctx: nat, hostOverride: bool, todo: seq<Block>)
    ensures var s := WaitForTargets(env, w, ctx, hostOverride, todo);
            && w.log <= s.world.log
            && (s.value.None? ==> forall k | 0 <= k < |todo| :: HeardBetween(w.log, s.world.log, todo[k].host))
            && (s.value.Some? ==>
                  && s.world.clock >= ctx && |w.log| < |s.world.log|
                  && s.world.log[|s.world.log| - 1].Probe?
                  && s.world.log[|s.world.log| - 1].host == s.value.value
                  && exists b :: b in todo && b.host == s.value.value)
    decreases todo
  {
    if todo != [] {
      hide AwaitReachable, HeardBetween;
      ReachProbes(env, w, ctx, hostOverride, todo[0].host, None);
      var s := AwaitReachable(env, w, ctx, hostOverride, todo[0].host, None);
      if !s.value.NotReady? {
        EveryTargetIsAwaited(env, s.world, ctx, hostOverride, todo[1..]);
        var end := WaitForTargets(env, s.world, ctx, hostOverride, todo[1..]);
        if end.value.None? {
          HeardLonger(w.log, s.world.log, end.world.log, todo);
        }
      }
    }
  }

  lemma {:induction false} HeardLonger(a: seq<Event>, b: seq<Event>, c: seq<Event>, todo: seq<Block>)
    requires a <= b <= c && todo != [] && HeardBetween(a, b, todo[0].host)
    requires forall k | 0 <= k < |todo[1..]| :: HeardBetween(b, c, todo[1..][k].host)
    ensures forall k | 0 <= k < |todo| :: HeardBetween(a, c, todo[k].host)
  {
    hide GotThrough;
    forall k | 0 <= k < |todo| ensures HeardBetween(a, c, todo[k].host) {
      if k == 0 {
        var i :| |a| <= i < |b| && GotThrough(b[i], todo[0].host);
        assert c[i] == b[i];
      } else {
        assert todo[1..][k - 1] == todo[k];
        var i :| |b| <= i < |c| && GotThrough(c[i], todo[k].host);
      }
    }
  }
}
