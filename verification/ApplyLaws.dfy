/**
 * Safety, resumability and convergence of whole applies, over every server
 * behaviour.
 */
module ApplyLaws {
  import opened Wrappers
  import opened ReplicaSet
  import opened MemberPlan
  import opened MemberPlanLaws
  import opened Server
  import opened ReconfigRetry
  import opened AddTargets
  import opened Protocol
  import opened Reconciliation
  import opened ReconciliationLaws
  import opened PhaseLaws
  import opened Apply

  ghost function ApplyPlan(start: World, req: Request): Plan {
    Plan(start.config.members, Blocks(req))
  }

  /** What MongoDB guarantees of a configuration and the apply checks of the blocks: hosts are distinct. */
  ghost predicate Ready(start: World, req: Request) {
    DistinctHosts(start.config.members) && ValidBlocks(Blocks(req))
  }

  // ------------------------------------------------------ up to the settings reconfig

  lemma {:induction false} PrepareQuiet(env: Env, w: World, setName: string, req: Request, missing: seq<Block>)
    ensures Quiet(w, Prepare(env, w, setName, req, missing).world)
  {
    if missing != [] {
      hide WaitForTargets, Preflight;
      WaitForTargetsQuiet(env, w, req.ctx, req.hostOverride, missing);
      var t := WaitForTargets(env, w, req.ctx, req.hostOverride, missing);
      if t.value.None? {
        PreflightProbesInOrder(env, t.world, setName, req.hostOverride, missing, 0);
        QuietTwice(w, t.world, Preflight(env, t.world, setName, req.hostOverride, missing).world);
      }
    }
  }

  lemma {:induction false} PromotionsOf(members: seq<Member>, blocks: seq<Block>, b: Block)
    ensures b in Promotions(members, blocks) <==> b in blocks && Raises(members, b)
  {
    if blocks != [] {
      PromotionsOf(members, blocks[1..], b);
    }
  }

  lemma {:induction false} PromotionsDistinct(members: seq<Member>, blocks: seq<Block>)
    requires DistinctBlocks(blocks)
    ensures DistinctBlocks(Promotions(members, blocks))
  {
    if blocks != [] {
      PromotionsDistinct(members, blocks[1..]);
      forall b | b in Promotions(members, blocks[1..]) ensures b in blocks[1..] {
        PromotionsOf(members, blocks[1..], b);
      }
      FirstDiffers(blocks, Promotions(members, blocks[1..]));
    }
  }

  /** What the member phase of an apply is given, from the members the apply started from. */
  function Raising(members: seq<Member>, blocks: seq<Block>): seq<Block> {
    Promotions(members, Existing(members, blocks))
  }

  lemma {:induction false} RaisingOf(members: seq<Member>, blocks: seq<Block>, b: Block)
    ensures b in Raising(members, blocks) <==> b in blocks && Raises(members, b)
  {
    PromotionsOf(members, Existing(members, blocks), b);
    PartitionSplits(members, blocks, b);
  }

  // ------------------------------------------------------ the member phase in an apply

  /** From the settled members, the member phase of an apply has what it requires and does what it promises. */
  lemma {:induction false} FinishFollows(plan: Plan, env: Env, w: World, req: Request)
    requires WellFormed(plan) && Follows(plan, w)
    requires plan.blocks == Blocks(req) && w.config.members == SettledAll(plan.start, plan.blocks)
    ensures var promotions, adds := Raising(plan.start, plan.blocks), Missing(plan.start, plan.blocks);
            var s := Finish(env, w, req, promotions, adds);
            && Follows(plan, s.world)
            && (s.value.Applied? || s.value.MembersFailed? ==>
                  s.value.state == ReadBack(s.world.config.members, BlockHosts(req.members)))
            && (s.value.Applied? && s.value.pending == [] ==> s.world.config.members == Target(plan.start, plan.blocks))
  {
    hide Reconcile, History, Legal, Target, ReadBack, Settled;
    var start, blocks, live := plan.start, plan.blocks, w.config.members;
    var promotions, adds := Raising(start, blocks), Missing(start, blocks);
    assert SameHosts(start, live) by { SettledHosts(start, blocks); }
    MissingByHosts(start, live, blocks);
    PartitionDistinct(start, blocks);
    PromotionsDistinct(start, Existing(start, blocks));
    forall b | b in promotions ensures b in blocks && At(live, b.host) >= 0 {
      RaisingOf(start, blocks, b);
      AtByHosts(start, live, b.host);
    }
    PhaseFollows(plan, env, w, req.ctx, promotions, adds, req.timeout);
    var r := Reconcile(env, w, req.ctx, promotions, adds, req.timeout);
    var g := GetConfig(env, r.world);
    QuietFollows(plan, r.world, g.world);
    if r.value == PhaseEnd([], None) {
      PhaseReachesTarget(plan, r.world, req.timeout);
    }
  }

  lemma {:induction false} SettledHosts(start: seq<Member>, blocks: seq<Block>)
    ensures SameHosts(start, SettledAll(start, blocks))
  {
  }

  /** With nothing pending and no error, the member phase has carried out every block in full. */
  lemma {:induction false} PhaseReachesTarget(plan: Plan, w: World, timeout: nat)
    requires WellFormed(plan) && Follows(plan, w)
    requires var promotions, adds := Raising(plan.start, plan.blocks), Missing(plan.start, plan.blocks);
             var live, after := SettledAll(plan.start, plan.blocks), w.config.members;
             && |after| == |live| + |adds|
             && PromotedOnly(live, promotions, after[..|live|])
             && Grown(after[..|live|], adds, after)
             && Accounted(promotions + adds, [], live, after, timeout)
    ensures w.config.members == Target(plan.start, plan.blocks)
  {
    hide History, Legal, Grown, Accounted, Settled, Finished, Missing, NextId, At, Build, PromotedOnly, BlockFor;
    var start, blocks := plan.start, plan.blocks;
    var promotions, adds := Raising(start, blocks), Missing(start, blocks);
    var live, after := SettledAll(start, blocks), w.config.members;
    HistoryIsSound(plan, w.log, after);
    forall i | 0 <= i < |start| ensures after[i] == Finished(start[i], blocks) {
      PromotedIsFinished(plan, after, i, timeout);
    }
    NextIdByIds(start, after[..|live|]);
    forall j | 0 <= j < |adds| ensures after[|start| + j] == Build(adds[j], NextId(start) + j) {
      AddedIsBuilt(plan, after, j, timeout);
    }
    assert after == FinishedAll(start, blocks) + Additions(adds, NextId(start));
  }

  lemma {:induction false} PromotedIsFinished(plan: Plan, after: seq<Member>, i: nat, timeout: nat)
    requires WellFormed(plan) && Sound(plan, after) && i < |plan.start|
    requires var promotions, adds := Raising(plan.start, plan.blocks), Missing(plan.start, plan.blocks);
             var live := SettledAll(plan.start, plan.blocks);
             && PromotedOnly(live, promotions, after[..|live|])
             && Accounted(promotions + adds, [], live, after, timeout)
    ensures after[i] == Finished(plan.start[i], plan.blocks)
  {
    var start, blocks, m := plan.start, plan.blocks, plan.start[i];
    var promotions, adds := Raising(start, blocks), Missing(start, blocks);
    var live := SettledAll(start, blocks);
    assert after[..|live|][i] == after[i];
    AtIsUnique(start, i);
    AtIsUnique(after, i);
    var p := BlockFor(promotions, m.host);
    match BlockFor(blocks, m.host)
    case None =>
      if p.Some? {
        RaisingOf(start, blocks, p.value);
      }
    case Some(b) =>
      BlockForIsUnique(blocks, b);
      RaisingOf(start, blocks, b);
      if p.Some? {
        RaisingOf(start, blocks, p.value);
        BlockForIsUnique(blocks, p.value);
      }
      if Raises(start, b) && NeedsPromotion(b) {
        assert b in promotions + adds;
        AccountedAll(promotions + adds, live, after, timeout, b);
      }
  }

  lemma {:induction false} GrownAt(base: seq<Member>, todo: seq<Block>, after: seq<Member>, j: nat)
    requires Grown(base, todo, after) && |base| + j < |after|
    ensures after[|base| + j] == Staged(todo[j], NextId(base) + j) || after[|base| + j] == Build(todo[j], NextId(base) + j)
  {
  }

  /** A new member that has what its block asks for is the block's member in full, however it was staged. */
  lemma {:induction false} GrantedIsBuilt(before: seq<Member>, after: seq<Member>, k: nat, b: Block, id: int)
    requires k < |after| && DistinctHosts(after) && At(before, b.host) < 0 && Has(before, after, b)
    requires after[k] == Staged(b, id) || after[k] == Build(b, id)
    ensures after[k] == Build(b, id)
  {
    AtIsUnique(after, k);
  }

  lemma {:induction false} AddedIsBuilt(plan: Plan, after: seq<Member>, j: nat, timeout: nat)
    requires WellFormed(plan) && DistinctHosts(after)
    requires var promotions, adds := Raising(plan.start, plan.blocks), Missing(plan.start, plan.blocks);
             var live := SettledAll(plan.start, plan.blocks);
             && j < |adds| && |after| == |live| + |adds|
             && NextId(after[..|live|]) == NextId(plan.start)
             && Grown(after[..|live|], adds, after)
             && Accounted(promotions + adds, [], live, after, timeout)
    ensures var adds := Missing(plan.start, plan.blocks);
            after[|plan.start| + j] == Build(adds[j], NextId(plan.start) + j)
  {
    hide Grown, Accounted, SettledAll, Has, Missing, NextId, At, Staged, Build, DistinctHosts;
    var promotions, adds := Raising(plan.start, plan.blocks), Missing(plan.start, plan.blocks);
    var live := SettledAll(plan.start, plan.blocks);
    var b := adds[j];
    PartitionSplits(plan.start, plan.blocks, b);
    SettledHosts(plan.start, plan.blocks);
    AtByHosts(plan.start, live, b.host);
    assert b in promotions + adds;
    AccountedAll(promotions + adds, live, after, timeout, b);
    GrownAt(after[..|live|], adds, after, j);
    GrantedIsBuilt(live, after, |live| + j, b, NextId(plan.start) + j);
  }

  // ------------------------------------------------------ whole applies

  lemma {:induction false} SendAndFinishFollows(plan: Plan, env: Env, w: World, req: Request, cfg: Config)
    requires WellFormed(plan) && Follows(plan, w) && plan.blocks == Blocks(req)
    requires w.config == cfg.(version := w.config.version) && cfg.members == plan.start
    ensures var s := SendAndFinish(env, w, req, cfg);
            && Follows(plan, s.world) && w.log <= s.world.log
            && !s.value.MergeFailed?
            && (s.value.Applied? || s.value.MembersFailed? ==>
                  && s.value.state == ReadBack(s.world.config.members, BlockHosts(req.members))
                  && s.world.config.setName == cfg.setName && s.world.config.settings == req.settings)
            && (s.value.Applied? && s.value.pending == [] ==>
                  s.world.config.members == Target(plan.start, plan.blocks))
  {
    hide Send, Finish, History, Legal, Target, Merged, Held, ReadBack, Promotions;
    SettingsReconfig(plan.start, plan.blocks);
    var settled := SettledAll(plan.start, plan.blocks);
    var sent := cfg.(version := cfg.version + 1, settings := req.settings, members := settled);
    SettingsAreLegal(plan, w.log);
    SendFollows(plan, env, w, req.ctx, SettingsAndMembers, sent, w.clock + req.timeout, plan.start);
    SendOnlyMovesVersion(env, w, req.ctx, SettingsAndMembers, sent, w.clock + req.timeout);
    var s := Send(env, w, req.ctx, SettingsAndMembers, sent, w.clock + req.timeout);
    if s.value.None? {
      FinishFollows(plan, env, s.world, req);
      FinishEnds(env, s.world, req, Raising(plan.start, plan.blocks), Missing(plan.start, plan.blocks));
      FinishKeeps(env, s.world, req, Raising(plan.start, plan.blocks), Missing(plan.start, plan.blocks));
    }
  }

  lemma FinishEnds(env: Env, w: World, req: Request, promotions: seq<Block>, adds: seq<Block>)
    ensures var e := Finish(env, w, req, promotions, adds).value;
            e.StateUnread? || e.MembersFailed? || e.Applied?
  {
    hide Reconcile, ReadBack;
  }

  lemma SettingsAreLegal(plan: Plan, seen: seq<Event>)
    ensures Legal(plan, seen, SettingsAndMembers, plan.start, SettledAll(plan.start, plan.blocks))
  {
  }

  lemma {:induction false} FinishKeeps(env: Env, w: World, req: Request, promotions: seq<Block>, adds: seq<Block>)
    ensures var w' := Finish(env, w, req, promotions, adds).world;
            w.log <= w'.log && SameSet(w.config, w'.config)
  {
    hide Reconcile, ReadBack;
    MemberPhaseKinds(env, w, req.ctx, promotions, adds, req.timeout, 0);
  }

  lemma {:induction false} BeginsAtRest(plan: Plan, w: World)
    requires w.config.members == plan.start
    ensures Follows(plan, w.(log := []))
  {
  }

  /**
   * Every apply, whatever the server does, follows the protocol. A finished
   * one has the requested settings live and state read from the live members,
   * and one that left nothing pending has reached the target exactly.
   */
  lemma {:induction false} ApplyFollows(env: Env, start: World, req: Request)
    requires Ready(start, req)
    ensures var s := ApplyOnce(env, start, req);
            && Follows(ApplyPlan(start, req), s.world)
            && !s.value.MergeFailed? && !s.value.InvalidBlocks?
            && (s.value.Applied? || s.value.MembersFailed? ==>
                  && s.value.state == ReadBack(s.world.config.members, BlockHosts(req.members))
                  && s.world.config.setName == start.config.setName && s.world.config.settings == req.settings)
            && (s.value.Applied? && s.value.pending == [] ==>
                  s.world.config.members == Target(start.config.members, Blocks(req)))
  {
    hide Prepare, SendAndFinish, History, Legal, Target, ReadBack;
    var plan := ApplyPlan(start, req);
    BeginsAtRest(plan, start);
    var g := GetConfig(env, start.(log := []));
    QuietFollows(plan, start.(log := []), g.world);
    if g.value.Answered? {
      var cfg := g.value.value;
      PrepareQuiet(env, g.world, cfg.setName, req, Missing(cfg.members, Blocks(req)));
      var p := Prepare(env, g.world, cfg.setName, req, Missing(cfg.members, Blocks(req)));
      QuietFollows(plan, g.world, p.world);
      PrepareEnds(env, g.world, cfg.setName, req, Missing(cfg.members, Blocks(req)));
      if p.value.None? {
        SendAndFinishFollows(plan, env, p.world, req, cfg);
        SendAndFinishEnds(env, p.world, req, cfg);
      }
    }
  }

  lemma PrepareEnds(env: Env, w: World, setName: string, req: Request, missing: seq<Block>)
    ensures var p := Prepare(env, w, setName, req, missing);
            p.value.Some? ==> p.value.value.TargetNotReady? || p.value.value.TargetRefused?
  {
  }

  /** An apply that ends before the settings reconfig has sent nothing and changed nothing. */
  lemma {:induction false} RefusalSendsNothing(env: Env, start: World, req: Request)
    ensures var s := ApplyOnce(env, start, req);
            s.value.ConfigUnread? || s.value.InvalidBlocks? || s.value.TargetNotReady? || s.value.TargetRefused? ==>
              Quiet(start.(log := []), s.world)
    ensures ApplyOnce(env, start, req).value.InvalidBlocks? ==> !ValidBlocks(Blocks(req))
  {
    hide Prepare, SendAndFinish, ValidBlocks;
    var g := GetConfig(env, start.(log := []));
    if g.value.Answered? {
      var cfg := g.value.value;
      var missing := Missing(cfg.members, Blocks(req));
      PrepareQuiet(env, g.world, cfg.setName, req, missing);
      QuietTwice(start.(log := []), g.world, Prepare(env, g.world, cfg.setName, req, missing).world);
      PrepareEnds(env, g.world, cfg.setName, req, missing);
      SendAndFinishEnds(env, Prepare(env, g.world, cfg.setName, req, missing).world, req, cfg);
    }
  }

  /**
   * Nothing is sent before every missing host has been waited for and then
   * inspected: a probe of each got through first, and after that each was
   * probed once more, in block order.
   */
  ghost predicate AwaitedThenInspected(before: seq<Event>, log: seq<Event>, missing: seq<Block>) {
    && |before| + |missing| <= |log|
    && var n := |log| - |missing|;
       && (forall k | 0 <= k < |missing| :: HeardBetween(before, log[..n], missing[k].host))
       && forall i | n <= i < |log| :: log[i].Probe? && log[i].host == missing[i - n].host
  }

  lemma {:induction false} PreparationIsComplete(env: Env, w: World, setName: string, req: Request,
                                                 missing: seq<Block>)
    requires missing != [] && Prepare(env, w, setName, req, missing).value.None?
    ensures var log := Prepare(env, w, setName, req, missing).world.log;
            w.log <= log && AwaitedThenInspected(w.log, log, missing)
  {
    hide WaitForTargets, Preflight, HeardBetween;
    EveryTargetIsAwaited(env, w, req.ctx, req.hostOverride, missing);
    var t := WaitForTargets(env, w, req.ctx, req.hostOverride, missing);
    var log := Preflight(env, t.world, setName, req.hostOverride, missing).world.log;
    PreflightProbesInOrder(env, t.world, setName, req.hostOverride, missing, 0);
    forall i | |t.world.log| <= i < |log|
      ensures log[i].Probe? && log[i].host == missing[i - |t.world.log|].host
    {
      PreflightProbesInOrder(env, t.world, setName, req.hostOverride, missing, i - |t.world.log|);
    }
    assert w.log <= t.world.log <= log;
    assert log[..|log| - |missing|] == t.world.log;
    assert Prepare(env, w, setName, req, missing).world.log == log;
    InspectedAfter(w.log, t.world.log, log, missing);
  }

  lemma InspectedAfter(before: seq<Event>, mid: seq<Event>, log: seq<Event>, missing: seq<Block>)
    requires before <= mid <= log && |log| == |mid| + |missing|
    requires forall k | 0 <= k < |missing| :: HeardBetween(before, mid, missing[k].host)
    requires forall i | |mid| <= i < |log| :: log[i].Probe? && log[i].host == missing[i - |mid|].host
    ensures AwaitedThenInspected(before, log, missing)
  {
    assert log[..|log| - |missing|] == mid;
    hide HeardBetween;
  }

  /** The last event is a probe of b's host, for a block that is missing. */
  ghost predicate StoppedAt(log: seq<Event>, missing: seq<Block>, b: Block) {
    b in missing && log != [] && log[|log| - 1].Probe? && log[|log| - 1].host == b.host
  }

  lemma {:induction false} PreparationStopsAt(env: Env, w: World, setName: string, req: Request, missing: seq<Block>)
    ensures var s := Prepare(env, w, setName, req, missing);
            var log := s.world.log;
            s.value.Some? ==>
              match s.value.value
              case TargetNotReady(h) =>
                s.world.clock >= req.ctx && exists b :: StoppedAt(log, missing, b) && b.host == h
              case TargetRefused(h) =>
                exists b :: StoppedAt(log, missing, b) && b.host == h && !Fit(setName, b, log[|log| - 1].reply)
              case _ => false
  {
    hide WaitForTargets, Preflight, Passes, Fit;
    if missing != [] {
      var t := WaitForTargets(env, w, req.ctx, req.hostOverride, missing);
      EveryTargetIsAwaited(env, w, req.ctx, req.hostOverride, missing);
      if t.value.None? {
        var p := Preflight(env, t.world, setName, req.hostOverride, missing);
        var last := |p.world.log| - |t.world.log| - 1;
        PreflightProbesInOrder(env, t.world, setName, req.hostOverride, missing, if last < 0 then 0 else last);
        if p.value.Some? {
          var b := missing[last];
          PassesWhenFit(setName, b, p.world.log[|p.world.log| - 1].reply);
          assert StoppedAt(p.world.log, missing, b);
        }
      }
    }
  }

  /**
   * How an apply ends early: unread or with invalid blocks before anything
   * else; stopped by a missing host that was still silent when the context
   * ended, or whose answer to the last probe made it unfit.
   */
  lemma {:induction false} EarlyEndsExactlyWhen(env: Env, start: World, req: Request)
    ensures var s, read := ApplyOnce(env, start, req), env(start.calls).readError;
            var log, missing := s.world.log, Missing(start.config.members, Blocks(req));
            && (s.value.ConfigUnread? <==> read.Some?)
            && (s.value.ConfigUnread? ==> Some(s.value.readError) == read)
            && (s.value.InvalidBlocks? <==> read.None? && !ValidBlocks(Blocks(req)))
            && (s.value.TargetNotReady? ==>
                  s.world.clock >= req.ctx && exists b :: StoppedAt(log, missing, b) && b.host == s.value.host)
            && (s.value.TargetRefused? ==>
                  exists b :: && StoppedAt(log, missing, b) && b.host == s.value.host
                              && !Fit(start.config.setName, b, log[|log| - 1].reply))
  {
    hide Prepare, SendAndFinish, ValidBlocks, Missing, Fit;
    var g := GetConfig(env, start.(log := []));
    if g.value.Answered? {
      var cfg := g.value.value;
      var missing := Missing(cfg.members, Blocks(req));
      PreparationStopsAt(env, g.world, cfg.setName, req, missing);
      SendAndFinishEnds(env, Prepare(env, g.world, cfg.setName, req, missing).world, req, cfg);
    }
  }

  lemma SendAndFinishEnds(env: Env, w: World, req: Request, cfg: Config)
    ensures var e := SendAndFinish(env, w, req, cfg).value;
            !e.ConfigUnread? && !e.InvalidBlocks? && !e.TargetNotReady? && !e.TargetRefused?
  {
    hide Send, Finish, Merged, Held, Existing, Missing, Promotions;
    var existing, missing := Existing(cfg.members, Blocks(req)), Missing(cfg.members, Blocks(req));
    var merged := Merged(cfg.members, Held(cfg.members, existing));
    if merged.Some? {
      var sent := cfg.(version := cfg.version + 1, settings := req.settings, members := merged.value);
      var s := Send(env, w, req.ctx, SettingsAndMembers, sent, w.clock + req.timeout);
      FinishEnds(env, s.world, req, Promotions(cfg.members, existing), missing);
    }
  }

  // ------------------------------------------------------ the theorems about runs

  /**
   * Voting gate: in every config an apply sends, whatever the server does, a
   * member of the set it started from has no more votes than it started with,
   * and a member it added is an arbiter or has neither votes nor priority,
   * unless an earlier status of the same run showed that member up and
   * SECONDARY or PRIMARY.
   */
  lemma {:induction false} VotingGate(env: Env, start: World, req: Request, i: nat, m: Member)
    requires Ready(start, req)
    requires var log := ApplyOnce(env, start, req).world.log;
             i < |log| && log[i].Reconfig? && m in log[i].sent.members
    ensures var log := ApplyOnce(env, start, req).world.log;
            || ShownSynced(log[..i], m.host)
            || (exists j :: 0 <= j < |start.config.members| && start.config.members[j].host == m.host
                            && Votes(m) <= Votes(start.config.members[j]))
            || ((forall j | 0 <= j < |start.config.members| :: start.config.members[j].host != m.host)
                && (Flag(m.arbiterOnly) || (Votes(m) == 0 && m.priority == 0.0)))
  {
    hide ApplyOnce, History, Legal;
    ApplyFollows(env, start, req);
    var end := ApplyOnce(env, start, req).world;
    SentIsGated(ApplyPlan(start, req), end.log, end.config.members, i);
    assert Gated(ApplyPlan(start, req), end.log[..i], m);
    var k := At(start.config.members, m.host);
  }

  /**
   * Quorum overlap: whatever the server answers, any majority of the voters a
   * reconfig of the member phase met and any majority of the voters it sent
   * share a voter.
   */
  lemma {:induction false} ApplyQuorumsOverlap(env: Env, start: World, req: Request, i: nat, p: set<string>,
                                               q: set<string>)
    requires Ready(start, req)
    requires var log := ApplyOnce(env, start, req).world.log;
             && i < |log| && log[i].Reconfig? && !log[i].kind.SettingsAndMembers?
             && Majority(p, Voters(log[i].live.members)) && Majority(q, Voters(log[i].sent.members))
    ensures p * q != {}
  {
    ApplyFollows(env, start, req);
    var end := ApplyOnce(env, start, req).world;
    hide ApplyOnce, History;
    MemberStepsOverlap(ApplyPlan(start, req), end.log, end.config.members, i);
    MajoritiesMeet(Voters(end.log[i].live.members), Voters(end.log[i].sent.members), p, q);
  }

  /** The settings reconfig as an apply sends it: the requested settings, and the blocks with vote raises held. */
  ghost function SettingsConfig(cfg: Config, req: Request): Config {
    cfg.(version := cfg.version + 1, settings := req.settings, members := SettledAll(cfg.members, Blocks(req)))
  }

  /** The world in which the member phase of an apply begins, if it gets that far. */
  ghost function PhaseStart(env: Env, w: World, req: Request, cfg: Config): World {
    Send(env, w, req.ctx, SettingsAndMembers, SettingsConfig(cfg, req), w.clock + req.timeout).world
  }

  /** What an apply comes to once it has read the configuration and found its targets fit. */
  lemma {:induction false} ApplySends(env: Env, start: World, req: Request)
    requires Ready(start, req)
    ensures var g := GetConfig(env, start.(log := []));
            if g.value.Errored? then !ApplyOnce(env, start, req).value.Applied?
            else
              var cfg := g.value.value;
              var missing := Missing(cfg.members, Blocks(req));
              var p := Prepare(env, g.world, cfg.setName, req, missing);
              if p.value.Some? then !ApplyOnce(env, start, req).value.Applied?
              else ApplyOnce(env, start, req) == SendAndFinish(env, p.world, req, cfg)
  {
    var g := GetConfig(env, start.(log := []));
    if g.value.Answered? {
      var cfg := g.value.value;
      PrepareEnds(env, g.world, cfg.setName, req, Missing(cfg.members, Blocks(req)));
      hide Prepare, SendAndFinish, Missing;
    }
  }

  /** And what that comes to: the settings reconfig, then the member phase and the read-back. */
  lemma {:induction false} SettingsSend(env: Env, w: World, req: Request, cfg: Config)
    requires DistinctHosts(cfg.members) && DistinctBlocks(Blocks(req))
    ensures var s := Send(env, w, req.ctx, SettingsAndMembers, SettingsConfig(cfg, req), w.clock + req.timeout);
            && PhaseStart(env, w, req, cfg) == s.world
            && if s.value.Some? then
                 SendAndFinish(env, w, req, cfg) == Step(s.world, SettingsFailed(s.value.value))
               else SendAndFinish(env, w, req, cfg)
                    == Finish(env, s.world, req, Raising(cfg.members, Blocks(req)), Missing(cfg.members, Blocks(req)))
  {
    SettingsReconfig(cfg.members, Blocks(req));
    var existing := Existing(cfg.members, Blocks(req));
    assert Raising(cfg.members, Blocks(req)) == Promotions(cfg.members, existing);
    hide Raising, Existing, Missing, Promotions, SettledAll, Send, Finish;
    var merged := Merged(cfg.members, Held(cfg.members, existing));
    hide Merged, Held;
    assert merged.value == SettledAll(cfg.members, Blocks(req));
    assert cfg.(version := cfg.version + 1, settings := req.settings, members := merged.value) == SettingsConfig(cfg, req);
    hide SettingsConfig;
  }

  /** How the member phase and the read after it decide the end of an apply. */
  lemma {:induction false} FinishEndsExactlyWhen(env: Env, w: World, req: Request, promotions: seq<Block>, adds: seq<Block>)
    ensures var r, s := Reconcile(env, w, req.ctx, promotions, adds, req.timeout), Finish(env, w, req, promotions, adds);
            var read := env(r.world.calls).readError;
            && s.world.log == r.world.log
            && (s.value.Applied? <==> r.value.error.None? && read.None?)
            && (s.value.Applied? ==> s.value.pending == r.value.pending)
            && (s.value.MembersFailed? <==> r.value.error.Some? && read.None?)
            && (s.value.MembersFailed? ==> Some(s.value.error) == r.value.error)
            && (s.value.StateUnread? <==> read.Some?)
            && (s.value.StateUnread? ==> Some(s.value.readError) == read && s.value.memberError == r.value.error)
  {
    hide Reconcile, ReadBack;
  }

  /** The settings reconfig goes through transient errors and foreign bumps that leave it time. */
  lemma {:induction false} SettingsOutlastSetbacks(env: Env, w: World, req: Request, cfg: Config, k: nat, d: nat)
    requires DistinctHosts(cfg.members) && DistinctBlocks(Blocks(req))
    requires forall i | w.calls <= i <= w.calls + 2 * k :: Passing(env(i), d)
    requires Setbacks(env, w.calls, 2 * k + 1) + (if cfg.version + 1 <= w.config.version then 1 else 0) <= k
    requires Rounds(k, d) <= req.timeout && w.clock + Rounds(k, d) < req.ctx
    ensures var start := PhaseStart(env, w, req, cfg);
            && start.config.members == SettledAll(cfg.members, Blocks(req)) && start.config.settings == req.settings
            && SendAndFinish(env, w, req, cfg)
               == Finish(env, start, req, Raising(cfg.members, Blocks(req)), Missing(cfg.members, Blocks(req)))
  {
    var sent := SettingsConfig(cfg, req);
    assert sent.version == cfg.version + 1 && sent.members == SettledAll(cfg.members, Blocks(req));
    assert sent.settings == req.settings;
    hide *;
    SendOutlastsSetbacks(env, w, req.ctx, SettingsAndMembers, sent, w.clock + req.timeout, k, d);
    assert Send(env, w, req.ctx, SettingsAndMembers, sent, w.clock + req.timeout).value.None?;
    SettingsSend(env, w, req, cfg);
  }

  /** The waits of an apply's member phase, in order. */
  ghost function ApplyWaits(env: Env, start: World, req: Request): seq<Wait> {
    var g := GetConfig(env, start.(log := []));
    if g.value.Errored? then []
    else
      var cfg := g.value.value;
      var missing := Missing(cfg.members, Blocks(req));
      var w := Prepare(env, g.world, cfg.setName, req, missing).world;
      PhaseWaits(env, PhaseStart(env, w, req, cfg), req.ctx, Raising(cfg.members, Blocks(req)), missing, req.timeout)
  }

  /**
   * A member an apply reports as pending had its wait in that apply: it was
   * seen up, and no status of the wait showed it SECONDARY or PRIMARY.
   */
  lemma {:induction false} PendingWasSyncing(env: Env, start: World, req: Request, p: Pending)
    requires Ready(start, req)
    requires var end := ApplyOnce(env, start, req).value; end.Applied? && p in end.pending
    ensures SeenSyncing(env, ApplyWaits(env, start, req), req.ctx, req.timeout, [],
                        ApplyOnce(env, start, req).world.log, p)
  {
    var g := GetConfig(env, start.(log := []));
    ApplySends(env, start, req);
    var cfg, blocks := g.value.value, Blocks(req);
    assert cfg.members == start.config.members && DistinctBlocks(blocks);
    var raising, missing := Raising(cfg.members, blocks), Missing(cfg.members, blocks);
    var s := PhaseStart(env, Prepare(env, g.world, cfg.setName, req, missing).world, req, cfg);
    hide *;
    PhasePending(env, Prepare(env, g.world, cfg.setName, req, missing).world, req, cfg, p);
    EarlierSeen(env, PhaseWaits(env, s, req.ctx, raising, missing, req.timeout), req.ctx, req.timeout, s.log,
                ApplyOnce(env, start, req).world.log, p);
  }

  lemma {:induction false} EarlierSeen(env: Env, waits: seq<Wait>, ctx: nat, timeout: nat, before: seq<Event>,
                                       after: seq<Event>, p: Pending)
    requires SeenSyncing(env, waits, ctx, timeout, before, after, p)
    ensures SeenSyncing(env, waits, ctx, timeout, [], after, p)
  {
    SeenStays(env, waits, [], [], ctx, timeout, before, after, [], after, p);
    assert [] + waits + [] == waits;
  }

  lemma {:induction false} PhasePending(env: Env, w: World, req: Request, cfg: Config, p: Pending)
    requires DistinctHosts(cfg.members) && DistinctBlocks(Blocks(req))
    requires var end := SendAndFinish(env, w, req, cfg).value; end.Applied? && p in end.pending
    ensures var s := PhaseStart(env, w, req, cfg);
            var waits := PhaseWaits(env, s, req.ctx, Raising(cfg.members, Blocks(req)), Missing(cfg.members, Blocks(req)),
                                    req.timeout);
            SeenSyncing(env, waits, req.ctx, req.timeout, s.log, SendAndFinish(env, w, req, cfg).world.log, p)
  {
    var s := PhaseStart(env, w, req, cfg);
    var raising, missing := Raising(cfg.members, Blocks(req)), Missing(cfg.members, Blocks(req));
    hide *;
    SettingsSend(env, w, req, cfg);
    FinishEndsExactlyWhen(env, s, req, raising, missing);
    PendingInPhase(env, s, req.ctx, raising, missing, req.timeout, p);
  }

  /**
   * Nobody is lost: after any apply, and in every config it sent, the members
   * it started from are in place with their ids, hosts and slave delays,
   * hosts and ids are distinct, and whoever else is there has a block.
   */
  lemma {:induction false} ApplyIsSound(env: Env, start: World, req: Request, i: nat)
    requires Ready(start, req)
    ensures var end := ApplyOnce(env, start, req).world;
            && Sound(ApplyPlan(start, req), end.config.members)
            && (i < |end.log| && end.log[i].Reconfig? ==> Sound(ApplyPlan(start, req), end.log[i].sent.members))
  {
    hide ApplyOnce, History, Legal, Sound;
    ApplyFollows(env, start, req);
    var plan, end := ApplyPlan(start, req), ApplyOnce(env, start, req).world;
    HistoryIsSound(plan, end.log, end.config.members);
    if i < |end.log| && end.log[i].Reconfig? {
      HistoryStep(plan, end.log, end.config.members, i);
      HistoryIsSound(plan, end.log[..i], end.log[i].live.members);
      if end.log[i].sent.members != end.log[i].live.members {
        LegalKeepsSound(plan, end.log[..i], end.log[i].kind, end.log[i].live.members, end.log[i].sent.members);
      }
    }
  }

  /** However an apply ends, early or not, its members aim at the target they started with. */
  lemma {:induction false} ApplyConservesTarget(env: Env, start: World, req: Request)
    requires Ready(start, req)
    ensures var end := ApplyOnce(env, start, req).world;
            && DistinctHosts(end.config.members)
            && Target(end.config.members, Blocks(req)) == Target(start.config.members, Blocks(req))
  {
    hide ApplyOnce, History, Legal, Target;
    ApplyFollows(env, start, req);
    var plan, end := ApplyPlan(start, req), ApplyOnce(env, start, req).world;
    HistoryIsSound(plan, end.log, end.config.members);
    HistoryConservesTarget(plan, end.log, end.config.members);
  }

  /** Applies of the same blocks, one after the other, each meeting the members the one before it left. */
  ghost predicate Attempts(start: World, blocks: seq<Block>, runs: seq<(Env, World, Request)>, last: seq<Member>)
    decreases |runs|
  {
    if runs == [] then last == start.config.members
    else
      var (env, met, req) := runs[|runs| - 1];
      && Blocks(req) == blocks
      && Attempts(start, blocks, runs[..|runs| - 1], met.config.members)
      && last == ApplyOnce(env, met, req).world.config.members
  }

  lemma {:induction false} AttemptsConserveTarget(start: World, blocks: seq<Block>, runs: seq<(Env, World, Request)>,
                                                  last: seq<Member>)
    requires DistinctHosts(start.config.members) && ValidBlocks(blocks)
    requires Attempts(start, blocks, runs, last)
    ensures DistinctHosts(last) && Target(last, blocks) == Target(start.config.members, blocks)
    decreases |runs|
  {
    if runs != [] {
      hide ApplyOnce, Target;
      var (env, met, req) := runs[|runs| - 1];
      AttemptsConserveTarget(start, blocks, runs[..|runs| - 1], met.config.members);
      ApplyConservesTarget(env, met, req);
    }
  }

  /** An apply left nothing to do: it finished, with no member pending. */
  ghost predicate Finishes(env: Env, met: World, req: Request) {
    var end := ApplyOnce(env, met, req).value;
    end.Applied? && end.pending == []
  }

  /** An apply that finishes reaches the target the first of the applies before it set out for. */
  lemma {:induction false} FinishingReachesFirstTarget(start: World, blocks: seq<Block>,
                                                       runs: seq<(Env, World, Request)>, env: Env, met: World,
                                                       req: Request)
    requires DistinctHosts(start.config.members) && ValidBlocks(blocks) && Blocks(req) == blocks
    requires Attempts(start, blocks, runs, met.config.members)
    ensures Finishes(env, met, req) ==>
              ApplyOnce(env, met, req).world.config.members == Target(start.config.members, blocks)
  {
    AttemptsConserveTarget(start, blocks, runs, met.config.members);
    ApplyFollows(env, met, req);
    hide ApplyOnce, Target;
  }

  /**
   * What a finished apply leaves in state is what the user declared, so that
   * nothing remains to plan, exactly when every block that raises a live
   * member's votes is one the apply promotes.
   */
  lemma {:induction false} FinishedStateIsDeclaredExactlyWhen(env: Env, start: World, req: Request)
    requires Ready(start, req) && Finishes(env, start, req)
    ensures ExtractAll(ApplyOnce(env, start, req).value.state) == Blocks(req)
            <==> forall b | b in Blocks(req) && Raises(start.config.members, b) :: NeedsPromotion(b)
  {
    ApplyFollows(env, start, req);
    ApplyConservesTarget(env, start, req);
    assert BlockHosts(req.members) == BlockHosts(Blocks(req));
    assert DistinctBlocks(Blocks(req));
    hide ApplyOnce, Target, ExtractAll, BlockHosts, ReadBack, Raises, NeedsPromotion, DistinctHosts, DistinctBlocks;
    TargetGivesBlocksBackExactlyWhen(start.config.members, req.members);
  }

  /** Two configurations that differ in nothing but the version. */
  ghost predicate SameButVersion(a: Config, b: Config) {
    a == b.(version := a.version)
  }

  /**
   * Resumability: after any number of applies of the same blocks that were cut
   * short anywhere, by any server behaviour, an apply that completes leaves
   * exactly the members a single undisturbed apply would have left; asked for
   * the same settings of the same set, the two configurations differ in the
   * version alone.
   */
  lemma {:induction false} Resumability(start: World, blocks: seq<Block>, runs: seq<(Env, World, Request)>,
                                        env: Env, met: World, req: Request, calm: Env, calmReq: Request)
    requires DistinctHosts(start.config.members) && ValidBlocks(blocks)
    requires Blocks(req) == blocks && Blocks(calmReq) == blocks
    requires Attempts(start, blocks, runs, met.config.members)
    ensures Finishes(env, met, req) && Finishes(calm, start, calmReq) ==>
              var end, calmEnd := ApplyOnce(env, met, req).world.config, ApplyOnce(calm, start, calmReq).world.config;
              && end.members == calmEnd.members
              && (req.settings == calmReq.settings && met.config.setName == start.config.setName ==>
                    SameButVersion(end, calmEnd))
  {
    FinishingReachesFirstTarget(start, blocks, runs, env, met, req);
    FinishingReachesFirstTarget(start, blocks, [], calm, start, calmReq);
    AttemptsConserveTarget(start, blocks, runs, met.config.members);
    FinishingAppliesSettings(env, met, req);
    FinishingAppliesSettings(calm, start, calmReq);
    hide ApplyOnce, Target, Finishes;
  }

  lemma {:induction false} FinishingAppliesSettings(env: Env, met: World, req: Request)
    requires Ready(met, req)
    ensures Finishes(env, met, req) ==>
              var end := ApplyOnce(env, met, req).world.config;
              end.setName == met.config.setName && end.settings == req.settings
  {
    ApplyFollows(env, met, req);
    hide ApplyOnce;
  }

  /**
   * A set that has reached its target is left alone: whatever the server does,
   * every config a further apply sends has exactly the members it met.
   */
  lemma {:induction false} FurtherApplyChangesNoMember(env: Env, start: World, req: Request, before: seq<Member>,
                                                       i: nat)
    requires Ready(start, req) && DistinctHosts(before)
    requires start.config.members == Target(before, Blocks(req))
    ensures var end := ApplyOnce(env, start, req).world;
            && end.config.members == start.config.members
            && (i < |end.log| && end.log[i].Reconfig? ==> end.log[i].sent.members == start.config.members)
  {
    hide ApplyOnce, Target;
    ApplyFollows(env, start, req);
    TargetIsStable(before, Blocks(req));
    var plan, end := ApplyPlan(start, req), ApplyOnce(env, start, req).world;
    AtRest(plan, end.log, end.config.members);
    if i < |end.log| && end.log[i].Reconfig? {
      HistoryStep(plan, end.log, end.config.members, i);
      AtRest(plan, end.log[..i], end.log[i].live.members);
      if end.log[i].sent.members != end.log[i].live.members {
        RestingStep(plan, end.log[..i], end.log[i].kind, end.log[i].sent.members);
      }
    }
  }

  lemma {:induction false} RestingMembers(plan: Plan, i: nat)
    requires Target(plan.start, plan.blocks) == plan.start && i < |plan.start|
    ensures Missing(plan.start, plan.blocks) == []
    ensures Finished(plan.start[i], plan.blocks) == plan.start[i]
    ensures Settled(plan.start[i], plan.blocks) == plan.start[i]
  {
    assert |Target(plan.start, plan.blocks)| == |plan.start| + |Missing(plan.start, plan.blocks)|;
    assert Target(plan.start, plan.blocks)[i] == Finished(plan.start[i], plan.blocks);
  }

  lemma {:induction false} RestingStep(plan: Plan, seen: seq<Event>, kind: Kind, sent: seq<Member>)
    requires WellFormed(plan) && Target(plan.start, plan.blocks) == plan.start
    requires Legal(plan, seen, kind, plan.start, sent)
    ensures sent == plan.start
  {
    assert |Target(plan.start, plan.blocks)| == |plan.start| + |Missing(plan.start, plan.blocks)|;
    match kind
    case SettingsAndMembers =>
      forall i | 0 <= i < |plan.start| ensures sent[i] == plan.start[i] {
        RestingMembers(plan, i);
      }
    case Promote(b) =>
      RestingMembers(plan, At(plan.start, b.host));
      BlockForIsUnique(plan.blocks, b);
    case _ =>
  }

  lemma {:induction false} AtRest(plan: Plan, log: seq<Event>, members: seq<Member>)
    requires WellFormed(plan) && Target(plan.start, plan.blocks) == plan.start
    requires History(plan, log, members)
    ensures members == plan.start
    decreases |log|
  {
    if log != [] {
      hide Target, Legal;
      var before, e := log[..|log| - 1], log[|log| - 1];
      if e.Reconfig? {
        AtRest(plan, before, e.live.members);
        if e.sent.members != e.live.members {
          RestingStep(plan, before, e.kind, e.sent.members);
        }
      } else {
        AtRest(plan, before, members);
      }
    }
  }

  // ------------------------------------------------------ new members are inspected first

  /** The last probe of host in the log is the j-th event. */
  ghost predicate LastProbe(log: seq<Event>, host: string, j: int) {
    && 0 <= j < |log| && log[j].Probe? && log[j].host == host
    && forall i | j < i < |log| && log[i].Probe? :: log[i].host != host
  }

  /** b's host was probed, and when it last was, it was fit to be added. */
  ghost predicate InspectedFit(log: seq<Event>, setName: string, b: Block) {
    exists j :: LastProbe(log, b.host, j) && Fit(setName, b, log[j].reply)
  }

  ghost predicate InspectedOk(log: seq<Event>, setName: string, host: string) {
    exists j :: 0 <= j < |log| && log[j].Probe? && log[j].host == host
                && log[j].reply.Answered? && CheckAddTarget(setName, log[j].reply).AddOk?
  }

  lemma {:induction false} PassesWhenFit(setName: string, b: Block, reply: Reply<IsMaster>)
    ensures Passes(setName, b, reply) <==> Fit(setName, b, reply)
    ensures b.arbiterOnly && Fit(setName, b, reply) ==> reply.Answered? && CheckAddTarget(setName, reply).AddOk?
  {
  }

  lemma {:induction false} PreparedFit(env: Env, w: World, setName: string, req: Request, missing: seq<Block>,
                                       b: Block)
    requires Prepare(env, w, setName, req, missing).value.None? && b in missing && DistinctBlocks(missing)
    ensures InspectedFit(Prepare(env, w, setName, req, missing).world.log, setName, b)
  {
    hide WaitForTargets, Preflight, Passes, Fit;
    var t := WaitForTargets(env, w, req.ctx, req.hostOverride, missing);
    var p := Preflight(env, t.world, setName, req.hostOverride, missing);
    var k :| 0 <= k < |missing| && missing[k] == b;
    PreflightProbesInOrder(env, t.world, setName, req.hostOverride, missing, k);
    var log, at := p.world.log, |t.world.log| + k;
    PassesWhenFit(setName, b, log[at].reply);
    forall i | at < i < |log| && log[i].Probe? ensures log[i].host != b.host {
      PreflightProbesInOrder(env, t.world, setName, req.hostOverride, missing, i - |t.world.log|);
    }
    assert LastProbe(log, b.host, at);
  }

  /** From the settings reconfig on nobody is probed. */
  lemma {:induction false} NoProbesLater(env: Env, w: World, req: Request, cfg: Config, i: nat)
    requires DistinctHosts(cfg.members) && DistinctBlocks(Blocks(req))
    ensures var log := SendAndFinish(env, w, req, cfg).world.log;
            w.log <= log && (|w.log| <= i < |log| ==> !log[i].Probe?)
  {
    hide *;
    var raising, missing := Raising(cfg.members, Blocks(req)), Missing(cfg.members, Blocks(req));
    SettingsSend(env, w, req, cfg);
    SendOnlyMovesVersion(env, w, req.ctx, SettingsAndMembers, SettingsConfig(cfg, req), w.clock + req.timeout);
    var s := Send(env, w, req.ctx, SettingsAndMembers, SettingsConfig(cfg, req), w.clock + req.timeout);
    FinishEndsExactlyWhen(env, s.world, req, raising, missing);
    PhaseProbesNothing(env, s.world, req, raising, missing, i);
    AttemptsFrom(w, s.world, i);
  }

  lemma AttemptsFrom(w: World, w': World, i: nat)
    ensures Extends(w, w') ==> w.log <= w'.log
    ensures Attempt(w, w', i) <==> |w.log| <= i < |w'.log|
  {
  }

  lemma {:induction false} PhaseProbesNothing(env: Env, w: World, req: Request, promotions: seq<Block>, adds: seq<Block>,
                                              i: nat)
    ensures var log := Reconcile(env, w, req.ctx, promotions, adds, req.timeout).world.log;
            w.log <= log && (|w.log| <= i < |log| ==> !log[i].Probe?)
  {
    MemberPhaseKinds(env, w, req.ctx, promotions, adds, req.timeout, i);
    hide Reconcile;
  }

  /** An apply that sends anything has prepared first, and what it prepared is the front of its log. */
  lemma {:induction false} SendingMeansPrepared(env: Env, start: World, req: Request, i: nat)
    requires Ready(start, req)
    requires var log := ApplyOnce(env, start, req).world.log; i < |log| && log[i].Reconfig?
    ensures var g := GetConfig(env, start.(log := []));
            var missing := Missing(start.config.members, Blocks(req));
            var p := Prepare(env, g.world, start.config.setName, req, missing);
            && g.value.Answered? && p.value.None?
            && p.world.log <= ApplyOnce(env, start, req).world.log && |p.world.log| <= i
  {
    hide Prepare, SendAndFinish, History, Legal, Target, ReadBack, Missing, Extends;
    RefusalSendsNothing(env, start, req);
    var plan := ApplyPlan(start, req);
    BeginsAtRest(plan, start);
    var g := GetConfig(env, start.(log := []));
    assert g.world.log == [];
    QuietFollows(plan, start.(log := []), g.world);
    if g.value.Answered? {
      var cfg := g.value.value;
      var missing := Missing(cfg.members, Blocks(req));
      PrepareQuiet(env, g.world, cfg.setName, req, missing);
      var p := Prepare(env, g.world, cfg.setName, req, missing);
      QuietFollows(plan, g.world, p.world);
      if p.value.None? {
        SendAndFinishFollows(plan, env, p.world, req, cfg);
      }
    }
  }

  /**
   * A member new in a config that an apply sends was inspected in that very
   * run: when its host was last probed before, it answered as one that may be
   * added, or gave no answer and bears data.
   */
  lemma {:induction false} NewMemberWasInspected(env: Env, start: World, req: Request, i: nat, m: Member)
    returns (b: Block)
    requires Ready(start, req)
    requires var log := ApplyOnce(env, start, req).world.log;
             i < |log| && log[i].Reconfig? && m in log[i].sent.members
    requires At(start.config.members, m.host) < 0
    ensures b in Blocks(req) && b.host == m.host && m.arbiterOnly == Some(b.arbiterOnly)
    ensures InspectedFit(ApplyOnce(env, start, req).world.log[..i], start.config.setName, b)
  {
    hide ApplyOnce, Prepare, Fit, SendAndFinish, PhaseStart;
    var plan, end := ApplyPlan(start, req), ApplyOnce(env, start, req).world;
    ApplyIsSound(env, start, req, i);
    b := NewMemberHasBlock(plan, end.log[i].sent.members, m);
    SendingMeansPrepared(env, start, req, i);
    ApplySends(env, start, req);
    var missing := Missing(start.config.members, Blocks(req));
    var g := GetConfig(env, start.(log := []));
    PartitionSplits(start.config.members, Blocks(req), b);
    PartitionDistinct(start.config.members, Blocks(req));
    PreparedFit(env, g.world, start.config.setName, req, missing, b);
    var p := Prepare(env, g.world, start.config.setName, req, missing).world;
    forall n | |p.log| <= n < i ensures !end.log[n].Probe? {
      NoProbesLater(env, p, req, g.value.value, n);
    }
    ProbedBefore(p.log, end.log, i, start.config.setName, b);
  }

  lemma {:induction false} ProbedBefore(front: seq<Event>, log: seq<Event>, i: nat, setName: string, b: Block)
    requires front <= log && |front| <= i <= |log| && InspectedFit(front, setName, b)
    requires forall n | |front| <= n < i :: !log[n].Probe?
    ensures InspectedFit(log[..i], setName, b)
  {
    hide Fit;
    var j :| LastProbe(front, b.host, j) && Fit(setName, b, front[j].reply);
    assert LastProbe(log[..i], b.host, j) && log[..i][j] == front[j];
  }

  /**
   * A member that an apply adds as an arbiter, which votes from the start,
   * was inspected in the same run before it was sent, answered, and was found
   * addable.
   */
  lemma {:induction false} NewArbiterWasInspected(env: Env, start: World, req: Request, i: nat, m: Member)
    requires Ready(start, req)
    requires var log := ApplyOnce(env, start, req).world.log;
             i < |log| && log[i].Reconfig? && m in log[i].sent.members
    requires At(start.config.members, m.host) < 0 && Flag(m.arbiterOnly)
    ensures InspectedOk(ApplyOnce(env, start, req).world.log[..i], start.config.setName, m.host)
  {
    hide ApplyOnce, CheckAddTarget, Fit;
    var b := NewMemberWasInspected(env, start, req, i, m);
    var log := ApplyOnce(env, start, req).world.log[..i];
    var j :| LastProbe(log, b.host, j) && Fit(start.config.setName, b, log[j].reply);
    PassesWhenFit(start.config.setName, b, log[j].reply);
  }

  lemma {:induction false} NewMemberHasBlock(plan: Plan, members: seq<Member>, m: Member) returns (b: Block)
    requires Sound(plan, members) && m in members && At(plan.start, m.host) < 0
    ensures b in plan.blocks && b.host == m.host && m.arbiterOnly == Some(b.arbiterOnly)
  {
    var k :| 0 <= k < |members| && members[k] == m;
    forall i | 0 <= i < |plan.start| ensures members[i] != m {
      assert members[i].host == plan.start[i].host;
    }
    b := BlockFor(plan.blocks, m.host).value;
  }
}
