/** An apply against an initialized set as it runs, proved to be Apply.ApplyOnce. */
module ShardConfig {
  import opened Wrappers
  import opened ReplicaSet
  import opened MemberPlan
  import opened PlanLoops
  import opened Server
  import opened ReconfigRetry
  import opened AddTargets
  import opened Reconciliation
  import opened Apply
  import opened Client
  import opened ShardMembers

  method ExtractMemberOverrides(raw: seq<Block>) returns (overrides: seq<Block>)
    ensures overrides == ExtractAll(raw)
  {
    overrides := [];
    for i := 0 to |raw|
      invariant |overrides| == i && forall j | 0 <= j < i :: overrides[j] == Extract(raw[j])
    {
      var m := raw[i].(tags := None);
      if raw[i].tags.Some? && |raw[i].tags.value| > 0 {
        m := m.(tags := raw[i].tags);
      }
      if m.arbiterOnly {
        m := m.(priority := 0.0);
      }
      overrides := overrides + [m];
    }
  }

  /** Waits for and inspects the hosts to add; the end of the apply if one of them stops it. */
  method PrepareTargets(client: ReplicaSetClient, setName: string, req: Request, missing: seq<Block>)
    returns (stop: Option<ApplyEnd>)
    modifies client
    ensures var s := Prepare(client.env, old(client.State()), setName, req, missing);
            client.State() == s.world && stop == s.value
  {
    hide WaitForTargets, Preflight;
    if |missing| > 0 {
      var notReady := WaitForAddTargets(client, req.ctx, req.hostOverride, missing);
      if notReady.Some? {
        return Some(TargetNotReady(notReady.value));
      }
      var refused := PreflightAddTargets(client, setName, req.hostOverride, missing);
      if refused.Some? {
        return Some(TargetRefused(refused.value));
      }
    }
    return None;
  }

  /** The member phase, then state from a final read, whether the phase failed or not. */
  method FinishUpdate(client: ReplicaSetClient, req: Request, promotions: seq<Block>, newMembers: seq<Block>)
    returns (end: ApplyEnd)
    modifies client
    ensures var s := Finish(client.env, old(client.State()), req, promotions, newMembers);
            client.State() == s.world && end == s.value
  {
    hide Reconcile, GetConfig;
    var pending, memberErr := ReconcileMembers(client, req.ctx, promotions, newMembers, req.timeout);
    var final := client.GetReplSetConfig();
    if final.Errored? {
      return StateUnread(final.error, memberErr);
    }
    var state := RSConfigMembersToState(final.value.members, BlockHosts(req.members));
    if memberErr.Some? {
      return MembersFailed(memberErr.value, state);
    }
    return Applied(pending, state);
  }

  method UpdateWithClient(client: ReplicaSetClient, req: Request) returns (end: ApplyEnd)
    modifies client
    ensures var s := ApplyOnce(client.env, old(client.State()), req);
            client.State() == s.world && end == s.value
  {
    hide Send, Finish, Prepare, GetConfig, ValidBlocks, Held, Merged, Existing, Missing, Promotions;
    client.log := [];
    var g := client.GetReplSetConfig();
    if g.Errored? {
      return ConfigUnread(g.error);
    }
    var config := g.value;
    ghost var read := config.Value();
    var overrides := ExtractMemberOverrides(req.members);
    var bad := ValidateMemberOverrides(overrides);
    if bad.Some? {
      return InvalidBlocks;
    }
    config.version := config.version + 1;
    config.settings := req.settings;
    var existing, missing := PartitionMemberOverrides(config.members, overrides);
    var stop := PrepareTargets(client, config.setName, req, missing);
    if stop.Some? {
      return stop.value;
    }
    var held, promote := HoldPromotions(config.members, existing);
    var found := config.MergeMembers(held);
    if !found {
      return MergeFailed;
    }
    assert config.Value()
        == read.(version := read.version + 1, settings := req.settings, members := Merged(read.members, held).value);
    var err := SetReplSetConfigWithRetry(client, req.ctx, config, req.timeout, SettingsAndMembers);
    if err.Some? {
      return SettingsFailed(err.value);
    }
    end := FinishUpdate(client, req, promote, missing);
  }
}
