/**
 * An apply nothing goes wrong in: the hosts to add pass, every reconfig is
 * accepted and every wait of the run meets its target. It finishes, and only
 * such a run does when the server accepts everything.
 */
module CalmApply {
  import opened Wrappers
  import opened ReplicaSet
  import opened MemberPlan
  import opened MemberPlanLaws
  import opened Server
  import opened Timing
  import opened ReconfigRetry
  import opened MemberWait
  import opened AddTargets
  import opened Protocol
  import opened Reconciliation
  import opened ReconciliationLaws
  import opened PhaseLaws
  import opened Apply
  import opened ApplyLaws
  import opened ApplySteps

  /** Every host to add answers its probe as addable. */
  ghost predicate Addable(env: Env, setName: string) {
    forall i: nat :: CheckAddTarget(setName, env(i).probe).AddOk?
  }

  /**
   * What lets the hosts to add pass: they answer as addable, or under
   * host_override, where nothing is asked of them, the context is not over and
   * none of them is an arbiter.
   */
  ghost predicate Welcomes(env: Env, clock: nat, setName: string, req: Request, missing: seq<Block>) {
    missing != [] ==>
      if req.hostOverride then clock < req.ctx && forall b | b in missing :: !b.arbiterOnly
      else Addable(env, setName)
  }

  // ------------------------------------------------------ the waits of the run

  /** Each wait of these promotions met its target, begun where the one before it left off. */
  ghost predicate PromotionsMeet(env: Env, w: World, ctx: nat, todo: seq<Block>, timeout: nat)
    decreases todo
  {
    todo == []
    || (&& AwaitMember(env, w, ctx, todo[0], timeout).value.result.met
        && PromotionsMeet(env, Settle(env, w, ctx, todo[0], timeout, false).world, ctx, todo[1..], timeout))
  }

  /** Each wait of these adds met its target, begun when its member was staged. */
  ghost predicate AddsMeet(env: Env, w: World, ctx: nat, todo: seq<Block>, timeout: nat)
    decreases todo
  {
    todo == []
    || (&& GetConfig(env, w).value.Answered?
        && AwaitMember(env, StagedWorld(env, w, ctx, todo[0], timeout), ctx, todo[0], timeout).value.result.met
        && AddsMeet(env, AddMember(env, w, ctx, todo[0], timeout).world, ctx, todo[1..], timeout))
  }

  /** The hosts to add passed, and every wait of the apply met its target. */
  ghost predicate Clear(env: Env, start: World, req: Request) {
    var g := GetConfig(env, start.(log := []));
    && g.value.Answered?
    && var cfg := g.value.value;
       var raising, missing := Raising(cfg.members, Blocks(req)), Missing(cfg.members, Blocks(req));
       var p := Prepare(env, g.world, cfg.setName, req, missing);
       && p.value.None?
       && var w := PhaseStart(env, p.world, req, cfg);
          && PromotionsMeet(env, w, req.ctx, raising, req.timeout)
          && AddsMeet(env, PromoteMembers(env, w, req.ctx, raising, req.timeout).world, req.ctx, missing, req.timeout)
  }

  /** The server accepted everything, no version was bumped in front of a reconfig, and nothing held the run up. */
  ghost predicate Calm(env: Env, start: World, req: Request) {
    Accepting(env) && NoConflict(ApplyOnce(env, start, req).world.log) && Clear(env, start, req)
  }

  // ------------------------------------------------------ hosts that pass

  lemma {:induction false} CalmTargets(env: Env, w: World, ctx: nat, setName: string, todo: seq<Block>)
    requires Addable(env, setName)
    ensures WaitForTargets(env, w, ctx, false, todo).value.None?
    decreases todo
  {
    if todo != [] {
      assert CheckAddTarget(setName, env(w.calls).probe).AddOk?;
      CalmTargets(env, AwaitReachable(env, w, ctx, false, todo[0].host, None).world, ctx, setName, todo[1..]);
    }
  }

  /** Under host_override no host is waited for. */
  lemma {:induction false} OverriddenTargets(env: Env, w: World, ctx: nat, todo: seq<Block>)
    requires w.clock < ctx
    ensures WaitForTargets(env, w, ctx, true, todo).value.None?
    decreases todo
  {
    if todo != [] {
      OverriddenTargets(env, AwaitReachable(env, w, ctx, true, todo[0].host, None).world, ctx, todo[1..]);
    }
  }

  lemma {:induction false} CalmPreflight(env: Env, w: World, setName: string, todo: seq<Block>)
    requires Addable(env, setName)
    ensures Preflight(env, w, setName, false, todo).value.None?
    decreases todo
  {
    if todo != [] {
      hide CheckAddTarget;
      assert CheckAddTarget(setName, env(w.calls).probe).AddOk?;
      CalmPreflight(env, ProbeHost(env, w, false, todo[0].host).world, setName, todo[1..]);
    }
  }

  /** Under host_override data-bearing hosts pass uninspected. */
  lemma {:induction false} OverriddenPreflight(env: Env, w: World, setName: string, todo: seq<Block>)
    requires forall b | b in todo :: !b.arbiterOnly
    ensures Preflight(env, w, setName, true, todo).value.None?
    decreases todo
  {
    if todo != [] {
      assert todo[0] in todo;
      OverriddenPreflight(env, ProbeHost(env, w, true, todo[0].host).world, setName, todo[1..]);
    }
  }

  /** Hosts that are welcome are waited for and inspected without stopping the apply. */
  lemma {:induction false} WelcomeHostsPass(env: Env, w: World, setName: string, req: Request, missing: seq<Block>)
    requires Welcomes(env, w.clock, setName, req, missing)
    ensures Prepare(env, w, setName, req, missing).value.None?
  {
    if missing != [] {
      hide WaitForTargets, Preflight, Addable;
      var t := WaitForTargets(env, w, req.ctx, req.hostOverride, missing);
      if req.hostOverride {
        OverriddenTargets(env, w, req.ctx, missing);
        OverriddenPreflight(env, t.world, setName, missing);
      } else {
        CalmTargets(env, w, req.ctx, setName, missing);
        CalmPreflight(env, t.world, setName, missing);
      }
    }
  }

  // ------------------------------------------------------ waits met make a phase complete

  lemma {:induction false} EarlierNoConflict(a: seq<Event>, b: seq<Event>)
    requires NoConflict(b) && a <= b
    ensures NoConflict(a)
  {
    assert forall i | 0 <= i < |a| :: a[i] == b[i];
  }

  /** A promotion that meets no conflict succeeds. */
  lemma {:induction false} PromotionCompletes(env: Env, w: World, ctx: nat, b: Block, timeout: nat)
    requires Accepting(env) && Wants(w.config.members, b) && NeedsPromotion(b)
    requires NoConflict(PromoteMember(env, w, ctx, b, timeout).world.log)
    ensures var s := PromoteMember(env, w, ctx, b, timeout);
            s.value.None? && s.world.config.members == Given(w.config.members, b)
  {
    hide PromoteMember, Send, Promoted, Promotion, NoConflict;
    var k := At(w.config.members, b.host);
    AtIsUnique(w.config.members, k);
    assert GetConfig(env, w).value.Answered? && !Granted(w.config.members[k], b);
    var g := GetConfig(env, w);
    assert Given(w.config.members, b) == w.config.members[k := Promoted(w.config.members[k], b)];
    assert g.value.value.members == w.config.members;
    hide *;
    PromotionMembers(g.value.value, k, b);
    PromotionSends(env, w, ctx, b, timeout, k);
    SendIsAccepted(env, g.world, ctx, Promote(b), Promotion(g.value.value, k, b), g.world.clock + timeout);
  }

  /** A member whose wait met its target is settled. */
  lemma {:induction false} SettlingCompletes(env: Env, w: World, ctx: nat, b: Block, timeout: nat, addedNow: bool)
    requires Accepting(env) && Wants(w.config.members, b)
    requires NoConflict(Settle(env, w, ctx, b, timeout, addedNow).world.log)
    requires AwaitMember(env, w, ctx, b, timeout).value.result.met
    ensures var s := Settle(env, w, ctx, b, timeout, addedNow);
            s.value.Done? && s.world.config.members == Given(w.config.members, b)
  {
    SettleDoneExactlyWhen(env, w, ctx, b, timeout, addedNow);
    var a := AwaitMember(env, w, ctx, b, timeout);
    assert !NeedsPromotion(b) ==> Given(w.config.members, b) == w.config.members;
    assert a.world.config.members == w.config.members;
    hide Settle, AwaitMember, PromoteMember, Wants, Given, NoConflict, Accepting, NeedsPromotion;
    if NeedsPromotion(b) {
      PromotionCompletes(env, a.world, ctx, b, timeout);
    }
  }

  /** Promotions leave nothing pending exactly when their waits met. */
  lemma {:induction false} PromotionsComplete(env: Env, w: World, ctx: nat, todo: seq<Block>, timeout: nat)
    requires Accepting(env) && NoConflict(PromoteMembers(env, w, ctx, todo, timeout).world.log)
    requires DistinctBlocks(todo) && forall b | b in todo :: Wants(w.config.members, b)
    ensures var s := PromoteMembers(env, w, ctx, todo, timeout);
            && (PromotionsMeet(env, w, ctx, todo, timeout) <==> s.value == PhaseEnd([], None))
            && (s.value == PhaseEnd([], None) ==> SameHosts(w.config.members, s.world.config.members))
    decreases todo
  {
    if todo != [] {
      var head, rest, live := todo[0], todo[1..], w.config.members;
      var s := Settle(env, w, ctx, head, timeout, false);
      SettleDoneExactlyWhen(env, w, ctx, head, timeout, false);
      PromotionKinds(env, s.world, ctx, rest, timeout, 0);
      assert s.world.log <= PromoteMembers(env, w, ctx, todo, timeout).world.log && head in todo;
      OthersStillWant(live, todo);
      GivenKeepsHosts(live, head);
      hide Settle, AwaitMember, PromoteMember, NoConflict, Accepting, Wants, Given, NeedsPromotion;
      EarlierNoConflict(s.world.log, PromoteMembers(env, w, ctx, todo, timeout).world.log);
      if AwaitMember(env, w, ctx, head, timeout).value.result.met {
        SettlingCompletes(env, w, ctx, head, timeout, false);
        PromotionsComplete(env, s.world, ctx, rest, timeout);
      }
    }
  }

  /** An add's log goes on from the one its staging left. */
  lemma {:induction false} AddGoesOn(env: Env, w: World, ctx: nat, b: Block, timeout: nat)
    requires GetConfig(env, w).value.Answered?
    ensures StagedWorld(env, w, ctx, b, timeout).log <= AddMember(env, w, ctx, b, timeout).world.log
  {
    AddIs(env, w, ctx, b, timeout);
    var staged := StagedWorld(env, w, ctx, b, timeout);
    hide *;
    RemovalExtends(env, staged, ctx, b.host, timeout);
    SettlingExtends(env, staged, ctx, b, timeout);
  }

  lemma {:induction false} AddIs(env: Env, w: World, ctx: nat, b: Block, timeout: nat)
    requires GetConfig(env, w).value.Answered?
    ensures var staged, s := StagedWorld(env, w, ctx, b, timeout), AddMember(env, w, ctx, b, timeout);
            || s.world == RemoveMember(env, staged, ctx, b.host, timeout).world
            || s.world == Settle(env, staged, ctx, b, timeout, true).world
  {
    hide Send, Settle, RemoveMember, GetConfig, Staged, NextId;
  }

  lemma {:induction false} RemovalExtends(env: Env, w: World, ctx: nat, host: string, timeout: nat)
    ensures w.log <= RemoveMember(env, w, ctx, host, timeout).world.log
  {
    RemoveKinds(env, w, ctx, host, timeout, 0);
  }

  lemma {:induction false} SettlingExtends(env: Env, w: World, ctx: nat, b: Block, timeout: nat)
    ensures w.log <= Settle(env, w, ctx, b, timeout, true).world.log
  {
    SettleSends(env, w, ctx, b, timeout, true, 0);
    hide Settle, AwaitMember;
  }

  /** An add whose wait met its target is done. */
  lemma {:induction false} AddingCompletes(env: Env, w: World, ctx: nat, b: Block, timeout: nat)
    requires Accepting(env) && NoConflict(AddMember(env, w, ctx, b, timeout).world.log)
    requires DistinctHosts(w.config.members) && At(w.config.members, b.host) < 0
    ensures GetConfig(env, w).value.Answered?
    ensures var s, a := AddMember(env, w, ctx, b, timeout),
                        AwaitMember(env, StagedWorld(env, w, ctx, b, timeout), ctx, b, timeout);
            && (s.value.Done? <==> a.value.result.met)
            && (s.value.Done? ==>
                  SameHosts(w.config.members + [Staged(b, NextId(w.config.members))], s.world.config.members))
  {
    assert GetConfig(env, w).value.Answered?;
    hide *;
    AddGoesOn(env, w, ctx, b, timeout);
    var staged := StagedWorld(env, w, ctx, b, timeout);
    EarlierNoConflict(staged.log, AddMember(env, w, ctx, b, timeout).world.log);
    StagingIsAccepted(env, w, ctx, b, timeout);
    StagedWants(w.config.members, b);
    SettlingCompletesWhen(env, staged, ctx, b, timeout, true);
  }

  lemma {:induction false} StagingIsAccepted(env: Env, w: World, ctx: nat, b: Block, timeout: nat)
    requires Accepting(env) && GetConfig(env, w).value.Answered?
    requires NoConflict(StagedWorld(env, w, ctx, b, timeout).log)
    ensures var staged := StagedWorld(env, w, ctx, b, timeout);
            && staged.config.members == w.config.members + [Staged(b, NextId(w.config.members))]
            && AddMember(env, w, ctx, b, timeout) == Settle(env, staged, ctx, b, timeout, true)
  {
    hide *;
    AddSends(env, w, ctx, b, timeout);
    StagingLive(env, w, b);
    var g := GetConfig(env, w);
    SendIsAccepted(env, g.world, ctx, Stage(b), Staging(g.value.value, b), g.world.clock + timeout);
  }

  lemma {:induction false} SettlingCompletesWhen(env: Env, w: World, ctx: nat, b: Block, timeout: nat, addedNow: bool)
    requires Accepting(env) && Wants(w.config.members, b)
    requires NoConflict(Settle(env, w, ctx, b, timeout, addedNow).world.log)
    ensures var s := Settle(env, w, ctx, b, timeout, addedNow);
            && (s.value.Done? <==> AwaitMember(env, w, ctx, b, timeout).value.result.met)
            && (s.value.Done? ==> s.world.config.members == Given(w.config.members, b))
  {
    SettleDoneExactlyWhen(env, w, ctx, b, timeout, addedNow);
    hide *;
    if AwaitMember(env, w, ctx, b, timeout).value.result.met {
      SettlingCompletes(env, w, ctx, b, timeout, addedNow);
    }
  }

  /** Adds leave nothing pending exactly when their waits met. */
  lemma {:induction false} AddsComplete(env: Env, w: World, ctx: nat, todo: seq<Block>, timeout: nat)
    requires Accepting(env) && NoConflict(AddMembers(env, w, ctx, todo, timeout).world.log)
    requires DistinctHosts(w.config.members) && DistinctBlocks(todo)
    requires forall b | b in todo :: At(w.config.members, b.host) < 0
    ensures AddsMeet(env, w, ctx, todo, timeout) <==> AddMembers(env, w, ctx, todo, timeout).value == PhaseEnd([], None)
    decreases todo
  {
    if todo != [] {
      var head, rest := todo[0], todo[1..];
      var s := AddMember(env, w, ctx, head, timeout);
      AddKinds(env, s.world, ctx, rest, timeout, 0);
      assert s.world.log <= AddMembers(env, w, ctx, todo, timeout).world.log && head in todo;
      hide AddMember, AwaitMember, StagedWorld, GetConfig, NoConflict, Accepting, At, Staged, NextId;
      EarlierNoConflict(s.world.log, AddMembers(env, w, ctx, todo, timeout).world.log);
      AddingCompletes(env, w, ctx, head, timeout);
      if s.value.Done? {
        AddedLeavesRest(w.config.members, head, s.world.config.members, todo);
        AddsComplete(env, s.world, ctx, rest, timeout);
      }
    }
  }

  lemma {:induction false} PhaseCompletes(env: Env, w: World, ctx: nat, start: seq<Member>, blocks: seq<Block>,
                                          timeout: nat)
    requires DistinctHosts(start) && DistinctBlocks(blocks) && w.config.members == SettledAll(start, blocks)
    requires Accepting(env)
    requires NoConflict(Reconcile(env, w, ctx, Raising(start, blocks), Missing(start, blocks), timeout).world.log)
    ensures var raising, missing := Raising(start, blocks), Missing(start, blocks);
            var p := PromoteMembers(env, w, ctx, raising, timeout);
            PromotionsMeet(env, w, ctx, raising, timeout) && AddsMeet(env, p.world, ctx, missing, timeout)
            <==> Reconcile(env, w, ctx, raising, missing, timeout).value == PhaseEnd([], None)
  {
    var raising, missing := Raising(start, blocks), Missing(start, blocks);
    var p := PromoteMembers(env, w, ctx, raising, timeout);
    var a := AddMembers(env, p.world, ctx, missing, timeout);
    AddKinds(env, p.world, ctx, missing, timeout, 0);
    var r := Reconcile(env, w, ctx, raising, missing, timeout);
    PhaseIsGiven(start, blocks);
    hide PromoteMembers, AddMembers, PromotionsMeet, AddsMeet, NoConflict, Accepting, Raising, Missing, Wants, At, SettledAll;
    assert p.world.log <= r.world.log;
    EarlierNoConflict(p.world.log, r.world.log);
    PromotionsComplete(env, w, ctx, raising, timeout);
    if p.value == PhaseEnd([], None) {
      SameHostsTwice(start, w.config.members, p.world.config.members);
      AbsentByHosts(start, p.world.config.members, missing);
      SameHostsDistinct(start, p.world.config.members);
      AddsComplete(env, p.world, ctx, missing, timeout);
    }
  }

  // ------------------------------------------------------ the whole apply

  /** From the settings reconfig on: it is accepted, and the rest finishes exactly when its waits meet. */
  lemma {:induction false} SettingsOnward(env: Env, w: World, req: Request, cfg: Config)
    requires DistinctHosts(cfg.members) && DistinctBlocks(Blocks(req))
    requires Accepting(env) && NoConflict(SendAndFinish(env, w, req, cfg).world.log)
    ensures var end, start := SendAndFinish(env, w, req, cfg).value, PhaseStart(env, w, req, cfg);
            var raising, missing := Raising(cfg.members, Blocks(req)), Missing(cfg.members, Blocks(req));
            end.Applied? && end.pending == []
            <==> PromotionsMeet(env, start, req.ctx, raising, req.timeout)
                 && AddsMeet(env, PromoteMembers(env, start, req.ctx, raising, req.timeout).world, req.ctx, missing,
                             req.timeout)
  {
    AllReadable(env);
    hide *;
    var raising, missing := Raising(cfg.members, Blocks(req)), Missing(cfg.members, Blocks(req));
    var start := PhaseStart(env, w, req, cfg);
    SettingsAccepted(env, w, req, cfg);
    FinishEndsExactlyWhen(env, start, req, raising, missing);
    PhaseCompletes(env, start, req.ctx, cfg.members, Blocks(req), req.timeout);
    PhaseEnds(Reconcile(env, start, req.ctx, raising, missing, req.timeout).value);
  }

  lemma {:induction false} SettingsAccepted(env: Env, w: World, req: Request, cfg: Config)
    requires DistinctHosts(cfg.members) && DistinctBlocks(Blocks(req))
    requires Accepting(env) && NoConflict(SendAndFinish(env, w, req, cfg).world.log)
    ensures var start := PhaseStart(env, w, req, cfg);
            && start.config.members == SettledAll(cfg.members, Blocks(req))
            && SendAndFinish(env, w, req, cfg)
               == Finish(env, start, req, Raising(cfg.members, Blocks(req)), Missing(cfg.members, Blocks(req)))
  {
    SettingsMembers(cfg, req);
    hide *;
    var raising, missing := Raising(cfg.members, Blocks(req)), Missing(cfg.members, Blocks(req));
    var start := PhaseStart(env, w, req, cfg);
    SettingsSend(env, w, req, cfg);
    if Send(env, w, req.ctx, SettingsAndMembers, SettingsConfig(cfg, req), w.clock + req.timeout).value.None? {
      FinishEndsExactlyWhen(env, start, req, raising, missing);
      PhaseExtends(env, start, req, raising, missing);
      EarlierNoConflict(start.log, SendAndFinish(env, w, req, cfg).world.log);
    }
    SendIsAccepted(env, w, req.ctx, SettingsAndMembers, SettingsConfig(cfg, req), w.clock + req.timeout);
  }

  lemma AllReadable(env: Env)
    requires Accepting(env)
    ensures forall i: nat :: env(i).readError.None?
  {
  }

  lemma {:induction false} PhaseExtends(env: Env, w: World, req: Request, promotions: seq<Block>, adds: seq<Block>)
    ensures w.log <= Reconcile(env, w, req.ctx, promotions, adds, req.timeout).world.log
  {
    MemberPhaseKinds(env, w, req.ctx, promotions, adds, req.timeout, 0);
    hide Reconcile;
  }

  lemma PhaseEnds(end: PhaseEnd)
    ensures end == PhaseEnd([], None) <==> end.pending == [] && end.error.None?
  {
  }

  /**
   * When the server accepts everything and no version is bumped in front of a
   * reconfig, an apply finishes exactly when its hosts to add pass and each of
   * its waits meets its target; it then has reached the target, with one
   * settings reconfig, one per missing block, and one per promotion due.
   */
  lemma {:induction false} CalmApplyCompletes(env: Env, start: World, req: Request)
    requires Ready(start, req) && Accepting(env) && NoConflict(ApplyOnce(env, start, req).world.log)
    ensures Finishes(env, start, req) <==> Clear(env, start, req)
    ensures var s, blocks := ApplyOnce(env, start, req), Blocks(req);
            var raising, missing := Raising(start.config.members, blocks), Missing(start.config.members, blocks);
            Finishes(env, start, req) ==>
              && s.world.config.members == Target(start.config.members, blocks)
              && Reconfigs(s.world.log) == 1 + |missing| + Promoting(missing) + Promoting(raising)
  {
    ClearExactlyWhen(env, start, req);
    FinishingTakesTheStepsDue(env, start, req);
    DueIsCounted(start.config.members, Blocks(req));
    FinishingReachesTarget(env, start, req);
    hide *;
  }

  lemma {:induction false} FinishingReachesTarget(env: Env, start: World, req: Request)
    requires Ready(start, req)
    ensures Finishes(env, start, req) ==>
              ApplyOnce(env, start, req).world.config.members == Target(start.config.members, Blocks(req))
  {
    ApplyFollows(env, start, req);
    hide ApplyOnce, Target;
  }

  lemma {:induction false} ClearExactlyWhen(env: Env, start: World, req: Request)
    requires Ready(start, req) && Accepting(env) && NoConflict(ApplyOnce(env, start, req).world.log)
    ensures Finishes(env, start, req) <==> Clear(env, start, req)
  {
    ApplySends(env, start, req);
    var g := GetConfig(env, start.(log := []));
    assert g.value.Answered? && DistinctHosts(g.value.value.members) && DistinctBlocks(Blocks(req));
    var cfg := g.value.value;
    var missing := Missing(cfg.members, Blocks(req));
    var p := Prepare(env, g.world, cfg.setName, req, missing);
    hide ApplyOnce, Prepare, SendAndFinish, GetConfig, Missing, Raising, PromotionsMeet, AddsMeet, NoConflict, Accepting,
         PhaseStart, PromoteMembers;
    if p.value.None? {
      SettingsOnward(env, p.world, req, cfg);
    }
  }

  /**
   * A later apply finishes the job: after any number of applies of the same
   * blocks cut short anywhere, one that nothing goes wrong in finishes, and
   * leaves what it would have left had it come first; asked for the same
   * settings of the same set, all but the version.
   */
  lemma {:induction false} CalmApplyFinishesTheJob(start: World, blocks: seq<Block>, runs: seq<(Env, World, Request)>,
                                                   env: Env, met: World, req: Request, calm: Env, calmReq: Request)
    requires DistinctHosts(start.config.members) && ValidBlocks(blocks)
    requires Blocks(req) == blocks && Blocks(calmReq) == blocks
    requires Attempts(start, blocks, runs, met.config.members)
    ensures Calm(env, met, req) && Calm(calm, start, calmReq) ==>
              var end, calmEnd := ApplyOnce(env, met, req).world.config, ApplyOnce(calm, start, calmReq).world.config;
              && Finishes(env, met, req) && Finishes(calm, start, calmReq)
              && end.members == calmEnd.members == Target(start.config.members, blocks)
              && (req.settings == calmReq.settings && met.config.setName == start.config.setName ==>
                    SameButVersion(end, calmEnd))
  {
    AttemptsConserveTarget(start, blocks, runs, met.config.members);
    assert Ready(met, req) && Ready(start, calmReq);
    hide ApplyOnce, Target, Attempts, ValidBlocks, Ready, Finishes, Clear, NoConflict, Accepting;
    if Calm(env, met, req) && Calm(calm, start, calmReq) {
      CalmApplyCompletes(env, met, req);
      CalmApplyCompletes(calm, start, calmReq);
      Resumability(start, blocks, runs, env, met, req, calm, calmReq);
    }
  }
}
