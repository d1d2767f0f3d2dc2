/**
 * One apply of mongodb_shard_config against an initialized set: read, split
 * the blocks, wait for and inspect the hosts to add, send the settings and the
 * merged members, run the member phase, read back. The specification of
 * ShardConfig.UpdateWithClient.
 */
module Apply {
  import opened Wrappers
  import opened ReplicaSet
  import opened MemberPlan
  import opened Server
  import opened ReconfigRetry
  import opened AddTargets
  import opened Reconciliation

  /** What the configuration asks for; ctx is when the operation's context ends. */
  datatype Request = Request(settings: Settings, members: seq<Block>, hostOverride: bool, timeout: nat, ctx: nat)

  function Blocks(req: Request): seq<Block> {
    ExtractAll(req.members)
  }

  datatype ApplyEnd =
    | ConfigUnread(readError: MongoError)
    | InvalidBlocks
    | TargetNotReady(host: string)
    | TargetRefused(host: string)
    | MergeFailed
    | SettingsFailed(callError: CallError)
    | StateUnread(readError: MongoError, memberError: Option<MemberError>)
    | MembersFailed(error: MemberError, state: seq<Block>)
    | Applied(pending: seq<Pending>, state: seq<Block>)

  /** Hosts to add are waited for and inspected before anything is sent. */
  function Prepare(env: Env, w: World, setName: string, req: Request, missing: seq<Block>): Step<Option<ApplyEnd>> {
    if missing == [] then Step(w, None)
    else
      var t := WaitForTargets(env, w, req.ctx, req.hostOverride, missing);
      if t.value.Some? then Step(t.world, Some(TargetNotReady(t.value.value)))
      else
        var p := Preflight(env, t.world, setName, req.hostOverride, missing);
        Step(p.world, if p.value.Some? then Some(TargetRefused(p.value.value)) else None)
  }

  /** The member phase and the read-back that follows it, failed or not. */
  function Finish(env: Env, w: World, req: Request, promotions: seq<Block>, missing: seq<Block>): Step<ApplyEnd> {
    var r := Reconcile(env, w, req.ctx, promotions, missing, req.timeout);
    var g := GetConfig(env, r.world);
    Step(g.world,
         if g.value.Errored? then StateUnread(g.value.error, r.value.error)
         else
           var state := ReadBack(g.value.value.members, BlockHosts(req.members));
           if r.value.error.Some? then MembersFailed(r.value.error.value, state)
           else Applied(r.value.pending, state))
  }

  /** The settings reconfig and what follows it. */
  function SendAndFinish(env: Env, w: World, req: Request, cfg: Config): Step<ApplyEnd> {
    var existing, missing := Existing(cfg.members, Blocks(req)), Missing(cfg.members, Blocks(req));
    var merged := Merged(cfg.members, Held(cfg.members, existing));
    if merged.None? then Step(w, MergeFailed)
    else
      var sent := cfg.(version := cfg.version + 1, settings := req.settings, members := merged.value);
      var s := Send(env, w, req.ctx, SettingsAndMembers, sent, w.clock + req.timeout);
      if s.value.Some? then Step(s.world, SettingsFailed(s.value.value))
      else Finish(env, s.world, req, Promotions(cfg.members, existing), missing)
  }

  function ApplyOnce(env: Env, start: World, req: Request): Step<ApplyEnd> {
    var g := GetConfig(env, start.(log := []));
    if g.value.Errored? then Step(g.world, ConfigUnread(g.value.error))
    else if !ValidBlocks(Blocks(req)) then Step(g.world, InvalidBlocks)
    else
      var cfg := g.value.value;
      var p := Prepare(env, g.world, cfg.setName, req, Missing(cfg.members, Blocks(req)));
      if p.value.Some? then Step(p.world, p.value.value)
      else SendAndFinish(env, p.world, req, cfg)
  }
}
