/**
 * The member phase as it runs: loops over blocks, one configuration read, edit
 * and send per step. Each method is proved to do what the function of module
 * Reconciliation or AddTargets of the same purpose says.
 */
module ShardMembers {
  import opened Wrappers
  import opened ReplicaSet
  import opened MemberPlan
  import opened PlanLoops
  import opened Server
  import opened Timing
  import opened ReconfigRetry
  import opened MemberWait
  import opened AddTargets
  import opened Reconciliation
  import opened Client

  method RemoveMemberByHost(client: ReplicaSetClient, ctx: nat, host: string, timeout: nat) returns (r: Removal)
    modifies client
    ensures var s := RemoveMember(client.env, old(client.State()), ctx, host, timeout);
            client.State() == s.world && r == s.value
  {
    hide Send, GetConfig;
    var g := client.GetReplSetConfig();
    if g.Errored? {
      return RemovalFailed;
    }
    var cfg := g.value;
    var kept: seq<Member> := [];
    for i := 0 to |cfg.members|
      invariant kept == Without(cfg.members[..i], host)
    {
      assert cfg.members[..i + 1][..i] == cfg.members[..i];
      if cfg.members[i].host != host {
        kept := kept + [cfg.members[i]];
      }
    }
    assert cfg.members[..|cfg.members|] == cfg.members;
    if |kept| == |cfg.members| {
      return NothingToRemove;
    }
    cfg.members := kept;
    cfg.version := cfg.version + 1;
    var err := SetReplSetConfigWithRetry(client, ctx, cfg, timeout, Rollback(host));
    return if err.None? then Removed else RemovalFailed;
  }

  method PromoteMemberByHost(client: ReplicaSetClient, ctx: nat, o: Block, timeout: nat)
    returns (err: Option<MemberError>)
    modifies client
    ensures var s := PromoteMember(client.env, old(client.State()), ctx, o, timeout);
            client.State() == s.world && err == s.value
  {
    hide Send, GetConfig;
    var g := client.GetReplSetConfig();
    if g.Errored? {
      return Some(ReadBeforePromote(o.host));
    }
    var cfg := g.value;
    var idx := FindMember(cfg.members, o.host);
    if idx < 0 {
      return Some(NoLongerMember(o.host));
    }
    if cfg.members[idx].priority == o.priority && Votes(cfg.members[idx]) == o.votes {
      return None;
    }
    cfg.members := cfg.members[idx := cfg.members[idx].(priority := o.priority, votes := Some(o.votes))];
    cfg.version := cfg.version + 1;
    var e := SetReplSetConfigWithRetry(client, ctx, cfg, timeout, Promote(o));
    return if e.None? then None else Some(PromoteFailed(o.host));
  }

  method FindMember(members: seq<Member>, host: string) returns (idx: int)
    ensures idx == FirstAt(members, host)
  {
    for i := 0 to |members|
      invariant forall j | 0 <= j < i :: members[j].host != host
    {
      if members[i].host == host {
        FirstAtIs(members, i, host);
        return i;
      }
    }
    return -1;
  }

  lemma FirstAtIs(members: seq<Member>, i: nat, host: string)
    requires i < |members| && members[i].host == host && forall j | 0 <= j < i :: members[j].host != host
    ensures FirstAt(members, host) == i
  {
  }

  method SettleMember(client: ReplicaSetClient, ctx: nat, o: Block, timeout: nat, addedNow: bool)
    returns (r: Settlement)
    modifies client
    ensures var s := Settle(client.env, old(client.State()), ctx, o, timeout, addedNow);
            client.State() == s.world && r == s.value
  {
    hide Await, RemoveMember, PromoteMember;
    var target := WaitTargetFor(o);
    var res, cancelled := WaitForMemberState(client, ctx, o.host, target, timeout, INIT_POLL);
    var neverSeenUp := res.observed && !res.everReachable;
    if cancelled {
      if addedNow && neverSeenUp {
        var removal := RemoveMemberByHost(client, client.clock + ROLLBACK_GRACE, o.host, timeout);
        return Failed(WaitInterrupted(o.host, removal));
      }
      return Failed(WaitInterrupted(o.host, NotTried));
    }
    if !res.met {
      if !res.observed {
        return Failed(StatusUnread(o.host));
      } else if neverSeenUp && addedNow {
        var removal := RemoveMemberByHost(client, ctx, o.host, timeout);
        return Failed(NeverReachable(o.host, removal));
      } else if neverSeenUp {
        return Failed(NeverReachable(o.host, NotTried));
      } else if NeedsPromotion(o) {
        return StillSyncing(Pending(o.host, target, o.votes, o.priority, timeout));
      } else {
        return Failed(TargetMissed(o.host));
      }
    }
    if !NeedsPromotion(o) {
      return Done;
    }
    var err := PromoteMemberByHost(client, ctx, o, timeout);
    return if err.None? then Done else Failed(err.value);
  }

  /** One pass of the add loop: read, append the staged member, send, undo or settle. */
  method AddOneMember(client: ReplicaSetClient, ctx: nat, o: Block, timeout: nat) returns (r: Settlement)
    modifies client
    ensures var s := AddMember(client.env, old(client.State()), ctx, o, timeout);
            client.State() == s.world && r == s.value
  {
    hide Send, GetConfig, RemoveMember, Settle;
    var g := client.GetReplSetConfig();
    if g.Errored? {
      return Failed(ReadBeforeAdd(o.host));
    }
    var cfg := g.value;
    var id := NextMemberID(cfg.members);
    cfg.members := cfg.members + [Staged(o, id)];
    cfg.version := cfg.version + 1;
    var err := SetReplSetConfigWithRetry(client, ctx, cfg, timeout, Stage(o));
    if err.Some? {
      var removal := RemoveMemberByHost(client, ctx, o.host, timeout);
      return Failed(AddFailed(o.host, removal));
    }
    r := SettleMember(client, ctx, o, timeout, true);
  }

  /** What a loop that has gathered pending and has rest still to run will end with. */
  ghost function Onward(pending: seq<Pending>, rest: Step<PhaseEnd>): Step<PhaseEnd> {
    Step(rest.world, PhaseEnd(pending + rest.value.pending, rest.value.error))
  }

  lemma {:induction false} OnwardThen(pending: seq<Pending>, p: Pending, rest: Step<PhaseEnd>)
    ensures Onward(pending, Step(rest.world, Then(StillSyncing(p), rest.value))) == Onward(pending + [p], rest)
  {
    assert pending + ([p] + rest.value.pending) == (pending + [p]) + rest.value.pending;
  }

  method AddMembersSequentially(client: ReplicaSetClient, ctx: nat, overrides: seq<Block>, timeout: nat)
    returns (pending: seq<Pending>, err: Option<MemberError>)
    modifies client
    ensures var s := AddMembers(client.env, old(client.State()), ctx, overrides, timeout);
            client.State() == s.world && PhaseEnd(pending, err) == s.value
  {
    pending := [];
    ghost var all := AddMembers(client.env, client.State(), ctx, overrides, timeout);
    assert overrides[0..] == overrides && [] + all.value.pending == all.value.pending;
    for i := 0 to |overrides|
      invariant Onward(pending, AddMembers(client.env, client.State(), ctx, overrides[i..], timeout)) == all
    {
      hide AddMember;
      assert overrides[i..][1..] == overrides[i + 1..];
      var r := AddOneMember(client, ctx, overrides[i], timeout);
      if r.Failed? {
        return pending, Some(r.error);
      }
      if r.StillSyncing? {
        OnwardThen(pending, r.pending, AddMembers(client.env, client.State(), ctx, overrides[i + 1..], timeout));
        pending := pending + [r.pending];
      }
    }
    return pending, None;
  }

  method PromoteMembersSequentially(client: ReplicaSetClient, ctx: nat, overrides: seq<Block>, timeout: nat)
    returns (pending: seq<Pending>, err: Option<MemberError>)
    modifies client
    ensures var s := PromoteMembers(client.env, old(client.State()), ctx, overrides, timeout);
            client.State() == s.world && PhaseEnd(pending, err) == s.value
  {
    pending := [];
    ghost var all := PromoteMembers(client.env, client.State(), ctx, overrides, timeout);
    assert overrides[0..] == overrides && [] + all.value.pending == all.value.pending;
    for i := 0 to |overrides|
      invariant Onward(pending, PromoteMembers(client.env, client.State(), ctx, overrides[i..], timeout)) == all
    {
      hide Settle;
      assert overrides[i..][1..] == overrides[i + 1..];
      var r := SettleMember(client, ctx, overrides[i], timeout, false);
      if r.Failed? {
        return pending, Some(r.error);
      }
      if r.StillSyncing? {
        OnwardThen(pending, r.pending, PromoteMembers(client.env, client.State(), ctx, overrides[i + 1..], timeout));
        pending := pending + [r.pending];
      }
    }
    return pending, None;
  }

  method ReconcileMembers(client: ReplicaSetClient, ctx: nat, promotions: seq<Block>, newMembers: seq<Block>,
                          timeout: nat)
    returns (pending: seq<Pending>, err: Option<MemberError>)
    modifies client
    ensures var s := Reconcile(client.env, old(client.State()), ctx, promotions, newMembers, timeout);
            client.State() == s.world && PhaseEnd(pending, err) == s.value
  {
    hide PromoteMembers, AddMembers;
    pending, err := PromoteMembersSequentially(client, ctx, promotions, timeout);
    if err.Some? {
      return;
    }
    var added, addErr := AddMembersSequentially(client, ctx, newMembers, timeout);
    return pending + added, addErr;
  }

  // ------------------------------------------------------ before the adds

  method WaitUntilReachable(client: ReplicaSetClient, ctx: nat, hostOverride: bool, host: string)
    returns (end: ReachEnd)
    modifies client
    ensures var s := AwaitReachable(client.env, old(client.State()), ctx, hostOverride, host, None);
            client.State() == s.world && end == s.value
  {
    var last: Option<MongoError> := None;
    ghost var all := AwaitReachable(client.env, client.State(), ctx, hostOverride, host, None);
    while true
      invariant AwaitReachable(client.env, client.State(), ctx, hostOverride, host, last) == all
      decreases if client.clock < ctx then ctx - client.clock else 0
    {
      var probe := client.ProbeMember(hostOverride, host);
      if probe.Answered? {
        return Reached;
      }
      if client.clock < ctx {
        if !IsConnectionError(probe.error) {
          return Inconclusive(probe.error);
        }
        last := Some(probe.error);
      } else if last.None? {
        last := Some(probe.error);
      }
      var ended := client.Sleep(ctx, READY_POLL);
      if ended {
        return NotReady(last.value);
      }
    }
  }

  method WaitForAddTargets(client: ReplicaSetClient, ctx: nat, hostOverride: bool, overrides: seq<Block>)
    returns (notReady: Option<string>)
    modifies client
    ensures var s := WaitForTargets(client.env, old(client.State()), ctx, hostOverride, overrides);
            client.State() == s.world && notReady == s.value
  {
    ghost var all := WaitForTargets(client.env, client.State(), ctx, hostOverride, overrides);
    for i := 0 to |overrides|
      invariant WaitForTargets(client.env, client.State(), ctx, hostOverride, overrides[i..]) == all
    {
      hide AwaitReachable;
      assert overrides[i..][1..] == overrides[i + 1..];
      var end := WaitUntilReachable(client, ctx, hostOverride, overrides[i].host);
      if end.NotReady? {
        return Some(overrides[i].host);
      }
    }
    return None;
  }

  method PreflightAddTargets(client: ReplicaSetClient, setName: string, hostOverride: bool, overrides: seq<Block>)
    returns (refused: Option<string>)
    modifies client
    ensures var s := Preflight(client.env, old(client.State()), setName, hostOverride, overrides);
            client.State() == s.world && refused == s.value
  {
    ghost var all := Preflight(client.env, client.State(), setName, hostOverride, overrides);
    for i := 0 to |overrides|
      invariant Preflight(client.env, client.State(), setName, hostOverride, overrides[i..]) == all
    {
      hide ProbeHost;
      var o := overrides[i];
      assert overrides[i..][1..] == overrides[i + 1..];
      var reply := client.ProbeMember(hostOverride, o.host);
      match CheckAddTarget(setName, reply)
      case AddRefused => return Some(o.host);
      case AddUnknown =>
        if o.arbiterOnly {
          return Some(o.host);
        }
      case AddOk =>
    }
    return None;
  }
}
