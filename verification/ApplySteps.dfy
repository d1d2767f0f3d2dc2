/**
 * The steps of an apply: its reconfigs in order, with the resends of one step
 * taken together. An apply that finishes, whatever the server did on the way,
 * has sent exactly the steps its plan calls for.
 */
module ApplySteps {
  import opened Wrappers
  import opened ReplicaSet
  import opened MemberPlan
  import opened MemberPlanLaws
  import opened Server
  import opened Timing
  import opened ReconfigRetry
  import opened MemberWait
  import opened Protocol
  import opened Reconciliation
  import opened ReconciliationLaws
  import opened PhaseLaws
  import opened Apply
  import opened ApplyLaws

  // ------------------------------------------------------ the steps in a log

  predicate EndsWith(steps: seq<Kind>, kind: Kind) {
    steps != [] && steps[|steps| - 1] == kind
  }

  /** The kinds of the reconfigs in the log; a reconfig of the kind of the one before it is a resend. */
  function Steps(log: seq<Event>): seq<Kind> {
    if log == [] then []
    else
      var before, e := Steps(log[..|log| - 1]), log[|log| - 1];
      if !e.Reconfig? || EndsWith(before, e.kind) then before else before + [e.kind]
  }

  /** Every step was sent once. */
  ghost predicate Once(log: seq<Event>) {
    Reconfigs(log) == |Steps(log)|
  }

  /** No attempt met a version as high as its own. */
  ghost predicate NoConflict(log: seq<Event>) {
    forall i | 0 <= i < |log| && log[i].Reconfig? :: log[i].live.version < log[i].sent.version
  }

  /** The server answers every read of the configuration, and accepts every reconfig that is not stale. */
  ghost predicate Accepting(env: Env) {
    forall i: nat :: env(i).readError.None? && env(i).reconfig.Accepted?
  }

  /** If the server accepted all there was, a log without resends has been continued without one. */
  ghost predicate StaysOnce(env: Env, log: seq<Event>, log': seq<Event>) {
    log <= log' && (Accepting(env) && NoConflict(log') && Once(log) ==> Once(log'))
  }

  lemma {:induction false} StepsAppended(log: seq<Event>, e: Event)
    ensures Steps(log + [e]) == if !e.Reconfig? || EndsWith(Steps(log), e.kind) then Steps(log) else Steps(log) + [e.kind]
  {
    assert (log + [e])[..|log|] == log;
  }

  /** A piece of log without reconfigs adds no step. */
  lemma {:induction false} QuietAddsNoStep(a: seq<Event>, b: seq<Event>)
    requires a <= b && forall i | |a| <= i < |b| :: !b[i].Reconfig?
    ensures Steps(b) == Steps(a) && Reconfigs(b) == Reconfigs(a)
    decreases |b|
  {
    QuietSendsNothing(a, b);
    if a != b {
      QuietAddsNoStep(a, b[..|b| - 1]);
    }
  }

  lemma {:induction false} StaysOnceTwice(env: Env, a: seq<Event>, b: seq<Event>, c: seq<Event>)
    requires StaysOnce(env, a, b) && StaysOnce(env, b, c)
    ensures StaysOnce(env, a, c)
  {
    hide Once, Accepting;
    assert forall i | 0 <= i < |b| :: b[i] == c[i];
  }

  lemma {:induction false} QuietStaysOnce(env: Env, a: seq<Event>, b: seq<Event>)
    requires a <= b && forall i | |a| <= i < |b| :: !b[i].Reconfig?
    ensures StaysOnce(env, a, b) && Steps(b) == Steps(a)
  {
    QuietAddsNoStep(a, b);
    hide Steps, Reconfigs, NoConflict, Accepting;
  }

  // ------------------------------------------------------ one send

  /** However often it is resent, a send is one step. */
  lemma {:induction false} SendIsOneStep(env: Env, w: World, ctx: nat, kind: Kind, cfg: Config, deadline: nat)
    ensures var log := Send(env, w, ctx, kind, cfg, deadline).world.log;
            Steps(log) == if EndsWith(Steps(w.log), kind) then Steps(w.log) else Steps(w.log) + [kind]
    decreases if w.clock <= deadline then deadline - w.clock + 1 else 0
  {
    var s := Reconfigure(env, w, kind, cfg, MaxTime(deadline, w.clock));
    OneAttempt(env, w, kind, cfg, MaxTime(deadline, w.clock));
    StepsAppended(w.log, s.world.log[|w.log|]);
    hide Reconfigure, Tick, Retryable, Refresh, Steps;
    if s.value.Some? && Retryable(s.value.value) && s.world.clock <= deadline {
      var r := Refresh(env, s.world, cfg, s.value.value);
      OneRefresh(env, s.world, cfg, s.value.value);
      if r.value.Answered? {
        var p := Pause(r.world, ctx, INIT_POLL);
        if !p.value {
          SendIsOneStep(env, p.world, ctx, kind, r.value.value, deadline);
        }
      }
    }
  }

  lemma {:induction false} FirstAttemptAccepted(env: Env, w: World, kind: Kind, cfg: Config, maxTime: nat)
    requires Accepting(env)
    ensures var s := Reconfigure(env, w, kind, cfg, maxTime);
            var e := s.world.log[|w.log|];
            e.Reconfig? && (e.live.version < e.sent.version ==> s.value.None? && s.world.config == cfg)
  {
  }

  /** A send that meets no conflict is accepted at the first attempt. */
  lemma {:induction false} SendIsAccepted(env: Env, w: World, ctx: nat, kind: Kind, cfg: Config, deadline: nat)
    requires Accepting(env) && NoConflict(Send(env, w, ctx, kind, cfg, deadline).world.log)
    ensures var s := Send(env, w, ctx, kind, cfg, deadline);
            s.value.None? && s.world.config == cfg && Reconfigs(s.world.log) == Reconfigs(w.log) + 1
  {
    var first := Reconfigure(env, w, kind, cfg, MaxTime(deadline, w.clock));
    OneAttempt(env, w, kind, cfg, MaxTime(deadline, w.clock));
    FirstAttemptAccepted(env, w, kind, cfg, MaxTime(deadline, w.clock));
    SendBeginsWithAttempt(env, w, ctx, kind, cfg, deadline);
    ReconfigsAppended(w.log, first.world.log[|w.log|]);
    var log := Send(env, w, ctx, kind, cfg, deadline).world.log;
    assert log[|w.log|] == first.world.log[|w.log|];
    hide Reconfigure, Reconfigs, Accepting;
  }

  lemma {:induction false} SendStaysOnce(env: Env, w: World, ctx: nat, kind: Kind, cfg: Config, deadline: nat)
    requires !EndsWith(Steps(w.log), kind)
    ensures var log := Send(env, w, ctx, kind, cfg, deadline).world.log;
            StaysOnce(env, w.log, log) && Steps(log) == Steps(w.log) + [kind]
  {
    SendIsOneStep(env, w, ctx, kind, cfg, deadline);
    SendExtendsLog(env, w, ctx, kind, cfg, deadline);
    hide Send, Steps, Reconfigs, NoConflict, Accepting, EndsWith;
    if Accepting(env) && NoConflict(Send(env, w, ctx, kind, cfg, deadline).world.log) {
      SendIsAccepted(env, w, ctx, kind, cfg, deadline);
    }
  }

  // ------------------------------------------------------ settling, adding

  /** The promotion due for b, if one is. */
  function PromotionStep(b: Block): seq<Kind> {
    if NeedsPromotion(b) then [Promote(b)] else []
  }

  /** The configuration that promotes the k-th member to what b asks for. */
  ghost function Promotion(cfg: Config, k: nat, b: Block): Config
    requires k < |cfg.members|
  {
    cfg.(members := cfg.members[k := Promoted(cfg.members[k], b)], version := cfg.version + 1)
  }

  lemma {:induction false} PromotionSends(env: Env, w: World, ctx: nat, b: Block, timeout: nat, k: nat)
    requires k < |w.config.members| && FirstAt(w.config.members, b.host) == k && !Granted(w.config.members[k], b)
    ensures var g := GetConfig(env, w);
            && g.world.log == w.log
            && if g.value.Errored? then PromoteMember(env, w, ctx, b, timeout).value.Some?
               else
                 && g.value.value.members == w.config.members
                 && var s := Send(env, g.world, ctx, Promote(b), Promotion(g.value.value, k, b), g.world.clock + timeout);
                    && PromoteMember(env, w, ctx, b, timeout).world == s.world
                    && (PromoteMember(env, w, ctx, b, timeout).value.None? <==> s.value.None?)
  {
    hide Send, FirstAt, Promoted;
  }

  lemma {:induction false} PromotionMembers(cfg: Config, k: nat, b: Block)
    requires k < |cfg.members|
    ensures Promotion(cfg, k, b).members == cfg.members[k := Promoted(cfg.members[k], b)]
  {
  }

  lemma {:induction false} SendInstalls(env: Env, w: World, ctx: nat, kind: Kind, cfg: Config, deadline: nat)
    ensures var s := Send(env, w, ctx, kind, cfg, deadline);
            s.value.None? ==> s.world.config.members == cfg.members
  {
    SendOnlyMovesVersion(env, w, ctx, kind, cfg, deadline);
  }

  /** A promotion that succeeds is one step, after which b's member has what b asks for. */
  lemma {:induction false} PromotionIsOneStep(env: Env, w: World, ctx: nat, b: Block, timeout: nat, k: nat)
    requires k < |w.config.members| && FirstAt(w.config.members, b.host) == k && !Granted(w.config.members[k], b)
    requires !EndsWith(Steps(w.log), Promote(b)) && PromoteMember(env, w, ctx, b, timeout).value.None?
    ensures var s := PromoteMember(env, w, ctx, b, timeout);
            && StaysOnce(env, w.log, s.world.log) && Steps(s.world.log) == Steps(w.log) + [Promote(b)]
            && s.world.config.members == w.config.members[k := Promoted(w.config.members[k], b)]
  {
    hide *;
    PromotionSends(env, w, ctx, b, timeout, k);
    var g := GetConfig(env, w);
    var sent := Promotion(g.value.value, k, b);
    PromotionMembers(g.value.value, k, b);
    SendStaysOnce(env, g.world, ctx, Promote(b), sent, g.world.clock + timeout);
    SendInstalls(env, g.world, ctx, Promote(b), sent, g.world.clock + timeout);
  }

  /** A member is settled exactly when its wait met the target and the promotion, if one was due, succeeded. */
  lemma {:induction false} SettleDoneExactlyWhen(env: Env, w: World, ctx: nat, b: Block, timeout: nat, addedNow: bool)
    ensures var a, s := AwaitMember(env, w, ctx, b, timeout), Settle(env, w, ctx, b, timeout, addedNow);
            && Quiet(w, a.world)
            && (s.value.Done? <==>
                  && a.value.result.met
                  && (NeedsPromotion(b) ==> PromoteMember(env, a.world, ctx, b, timeout).value.None?))
            && (a.value.result.met ==>
                  s.world == if NeedsPromotion(b) then PromoteMember(env, a.world, ctx, b, timeout).world else a.world)
  {
    AwaitSumsUp(env, w, ctx, b.host, WaitTargetFor(b), w.clock + timeout, INIT_POLL, NOTHING_SEEN);
    hide Await, RemoveMember, PromoteMember, NeedsPromotion, Observe, RowUp;
  }

  /** b's member is there, and lacks what b asks for if that takes a promotion. */
  ghost predicate Wants(members: seq<Member>, b: Block) {
    var k := At(members, b.host);
    DistinctHosts(members) && k >= 0 && (NeedsPromotion(b) ==> !Granted(members[k], b))
  }

  /** The members once b's member has what b asks for. */
  ghost function Given(members: seq<Member>, b: Block): seq<Member> {
    var k := At(members, b.host);
    if k >= 0 && NeedsPromotion(b) then members[k := Promoted(members[k], b)] else members
  }

  lemma {:induction false} SettlingSteps(env: Env, w: World, ctx: nat, b: Block, timeout: nat, addedNow: bool)
    requires Wants(w.config.members, b) && !EndsWith(Steps(w.log), Promote(b))
    requires Settle(env, w, ctx, b, timeout, addedNow).value.Done?
    ensures var s := Settle(env, w, ctx, b, timeout, addedNow);
            && StaysOnce(env, w.log, s.world.log) && Steps(s.world.log) == Steps(w.log) + PromotionStep(b)
            && s.world.config.members == Given(w.config.members, b)
  {
    SettleDoneExactlyWhen(env, w, ctx, b, timeout, addedNow);
    var a := AwaitMember(env, w, ctx, b, timeout);
    QuietStaysOnce(env, w.log, a.world.log);
    AtIsUnique(w.config.members, At(w.config.members, b.host));
    hide Settle, AwaitMember, PromoteMember, At, FirstAt, DistinctHosts, Granted, Promoted, NeedsPromotion, StaysOnce, Steps,
         EndsWith;
    if NeedsPromotion(b) {
      PromotionIsOneStep(env, a.world, ctx, b, timeout, At(w.config.members, b.host));
      StaysOnceTwice(env, w.log, a.world.log, Settle(env, w, ctx, b, timeout, addedNow).world.log);
    }
  }

  /** A member staged for b stands last, among distinct hosts, without what b asks for if that takes a promotion. */
  lemma {:induction false} StagedWants(members: seq<Member>, b: Block)
    requires DistinctHosts(members) && At(members, b.host) < 0
    ensures var staged := members + [Staged(b, NextId(members))];
            Wants(staged, b) && SameHosts(staged, Given(staged, b))
  {
    AtAppended(members, Staged(b, NextId(members)), b.host);
  }

  lemma {:induction false} AddingSteps(env: Env, w: World, ctx: nat, b: Block, timeout: nat)
    requires DistinctHosts(w.config.members) && At(w.config.members, b.host) < 0
    requires !EndsWith(Steps(w.log), Stage(b)) && AddMember(env, w, ctx, b, timeout).value.Done?
    ensures var s := AddMember(env, w, ctx, b, timeout);
            && StaysOnce(env, w.log, s.world.log) && Steps(s.world.log) == Steps(w.log) + [Stage(b)] + PromotionStep(b)
            && SameHosts(w.config.members + [Staged(b, NextId(w.config.members))], s.world.config.members)
  {
    hide *;
    AddSettles(env, w, ctx, b, timeout);
    StagedWants(w.config.members, b);
    StagingIsOneStep(env, w, ctx, b, timeout);
    var staged := StagedWorld(env, w, ctx, b, timeout);
    NotLast(Steps(w.log), b);
    SettlingSteps(env, staged, ctx, b, timeout, true);
    StaysOnceTwice(env, w.log, staged.log, AddMember(env, w, ctx, b, timeout).world.log);
  }

  lemma {:induction false} StagingIsOneStep(env: Env, w: World, ctx: nat, b: Block, timeout: nat)
    requires !EndsWith(Steps(w.log), Stage(b)) && !AddMember(env, w, ctx, b, timeout).value.Failed?
    ensures GetConfig(env, w).value.Answered?
    ensures var staged := StagedWorld(env, w, ctx, b, timeout);
            && StaysOnce(env, w.log, staged.log) && Steps(staged.log) == Steps(w.log) + [Stage(b)]
            && staged.config.members == w.config.members + [Staged(b, NextId(w.config.members))]
  {
    hide *;
    AddReads(env, w, ctx, b, timeout);
    AddSends(env, w, ctx, b, timeout);
    StagingLive(env, w, b);
    var g := GetConfig(env, w);
    SendStaysOnce(env, g.world, ctx, Stage(b), Staging(g.value.value, b), g.world.clock + timeout);
    SendInstalls(env, g.world, ctx, Stage(b), Staging(g.value.value, b), g.world.clock + timeout);
  }

  lemma NotLast(steps: seq<Kind>, b: Block)
    ensures !EndsWith(steps + [Stage(b)], Promote(b))
  {
  }

  lemma {:induction false} StagingLive(env: Env, w: World, b: Block)
    requires GetConfig(env, w).value.Answered?
    ensures var g := GetConfig(env, w);
            && g.world.log == w.log
            && Staging(g.value.value, b).members == w.config.members + [Staged(b, NextId(w.config.members))]
  {
    hide Staged, NextId;
  }

  // ------------------------------------------------------ the member phase

  /** The steps due for members whose votes are raised, in block order. */
  function PromotionSteps(todo: seq<Block>): seq<Kind> {
    if todo == [] then [] else PromotionStep(todo[0]) + PromotionSteps(todo[1..])
  }

  /** The steps due for members that are added: staging, then the promotion if one is due. */
  function AddSteps(todo: seq<Block>): seq<Kind> {
    if todo == [] then [] else [Stage(todo[0])] + PromotionStep(todo[0]) + AddSteps(todo[1..])
  }

  /** None of the steps is for one of these blocks. */
  ghost predicate Untaken(steps: seq<Kind>, todo: seq<Block>) {
    forall b | b in todo :: Stage(b) !in steps && Promote(b) !in steps
  }

  lemma {:induction false} UntakenRest(steps: seq<Kind>, todo: seq<Block>, more: seq<Kind>)
    requires todo != [] && DistinctBlocks(todo) && Untaken(steps, todo)
    requires forall k | k in more :: k == Stage(todo[0]) || k == Promote(todo[0])
    ensures Untaken(steps + more, todo[1..])
    ensures !EndsWith(steps, Stage(todo[0])) && !EndsWith(steps, Promote(todo[0]))
  {
    FirstDiffers(todo, todo[1..]);
    assert todo[0] in todo;
    assert steps != [] ==> steps[|steps| - 1] in steps;
    forall b | b in todo[1..] ensures b in todo && b != todo[0] {
      assert b in todo;
    }
  }

  lemma {:induction false} OthersWant(members: seq<Member>, head: Block, b: Block)
    requires Wants(members, head) && Wants(members, b) && b.host != head.host
    ensures SameHosts(members, Given(members, head)) && Wants(Given(members, head), b)
  {
    AtByHosts(members, Given(members, head), b.host);
  }

  /** A run of promotions that leaves nothing pending has taken exactly the steps due. */
  lemma {:induction false} PromotingSteps(env: Env, w: World, ctx: nat, todo: seq<Block>, timeout: nat)
    requires DistinctBlocks(todo) && DistinctHosts(w.config.members) && Untaken(Steps(w.log), todo)
    requires forall b | b in todo :: Wants(w.config.members, b)
    requires PromoteMembers(env, w, ctx, todo, timeout).value == PhaseEnd([], None)
    ensures var s := PromoteMembers(env, w, ctx, todo, timeout);
            && StaysOnce(env, w.log, s.world.log) && Steps(s.world.log) == Steps(w.log) + PromotionSteps(todo)
            && SameHosts(w.config.members, s.world.config.members)
    decreases todo
  {
    if todo == [] {
      QuietStaysOnce(env, w.log, w.log);
    } else {
      var head, rest, live := todo[0], todo[1..], w.config.members;
      var s, end := Settle(env, w, ctx, head, timeout, false), PromoteMembers(env, w, ctx, todo, timeout);
      var after := PromoteMembers(env, s.world, ctx, rest, timeout);
      assert head in todo && s.value.Done? && after.value == PhaseEnd([], None) && end.world == after.world;
      assert PromotionSteps(todo) == PromotionStep(head) + PromotionSteps(rest);
      StepIsFor(head);
      hide *;
      UntakenRest(Steps(w.log), todo, PromotionStep(head));
      SettlingSteps(env, w, ctx, head, timeout, false);
      OthersStillWant(live, todo);
      GivenKeepsHosts(live, head);
      PromotingSteps(env, s.world, ctx, rest, timeout);
      StaysOnceTwice(env, w.log, s.world.log, end.world.log);
      Associates(Steps(w.log), PromotionStep(head), PromotionSteps(rest));
      SameHostsTwice(live, s.world.config.members, end.world.config.members);
    }
  }

  lemma StepIsFor(b: Block)
    ensures forall k | k in PromotionStep(b) :: k == Promote(b)
  {
  }

  lemma SameHostsTwice(a: seq<Member>, b: seq<Member>, c: seq<Member>)
    requires SameHosts(a, b) && SameHosts(b, c)
    ensures SameHosts(a, c)
  {
  }

  lemma {:induction false} OthersStillWant(members: seq<Member>, todo: seq<Block>)
    requires todo != [] && DistinctBlocks(todo) && forall b | b in todo :: Wants(members, b)
    ensures DistinctBlocks(todo[1..]) && forall b | b in todo[1..] :: Wants(Given(members, todo[0]), b)
  {
    FirstDiffers(todo, todo[1..]);
    assert todo[0] in todo;
    hide Wants, Given;
    forall b | b in todo[1..] ensures Wants(Given(members, todo[0]), b) {
      assert b in todo;
      OthersWant(members, todo[0], b);
    }
  }

  lemma {:induction false} GivenKeepsHosts(members: seq<Member>, b: Block)
    ensures SameHosts(members, Given(members, b))
    ensures DistinctHosts(members) ==> DistinctHosts(Given(members, b))
  {
  }

  /** A run of adds that leaves nothing pending has taken exactly the steps due. */
  lemma {:induction false} AddingAllSteps(env: Env, w: World, ctx: nat, todo: seq<Block>, timeout: nat)
    requires DistinctBlocks(todo) && DistinctHosts(w.config.members) && Untaken(Steps(w.log), todo)
    requires forall b | b in todo :: At(w.config.members, b.host) < 0
    requires AddMembers(env, w, ctx, todo, timeout).value == PhaseEnd([], None)
    ensures var s := AddMembers(env, w, ctx, todo, timeout);
            StaysOnce(env, w.log, s.world.log) && Steps(s.world.log) == Steps(w.log) + AddSteps(todo)
    decreases todo
  {
    if todo == [] {
      QuietStaysOnce(env, w.log, w.log);
    } else {
      var head, rest, live := todo[0], todo[1..], w.config.members;
      var s := AddMember(env, w, ctx, head, timeout);
      assert head in todo && s.value.Done? && AddMembers(env, s.world, ctx, rest, timeout).value == PhaseEnd([], None);
      var end := AddMembers(env, w, ctx, todo, timeout);
      var after := AddMembers(env, s.world, ctx, rest, timeout);
      assert end.world == after.world && AddSteps(todo) == [Stage(head)] + PromotionStep(head) + AddSteps(rest);
      StepIsFor(head);
      var steps := [Stage(head)] + PromotionStep(head);
      hide *;
      UntakenRest(Steps(w.log), todo, steps);
      AddingSteps(env, w, ctx, head, timeout);
      AddedLeavesRest(live, head, s.world.config.members, todo);
      Associates(Steps(w.log), [Stage(head)], PromotionStep(head));
      AddingAllSteps(env, s.world, ctx, rest, timeout);
      StaysOnceTwice(env, w.log, s.world.log, end.world.log);
      Associates(Steps(w.log), steps, AddSteps(rest));
    }
  }

  lemma {:induction false} AddedLeavesRest(live: seq<Member>, head: Block, after: seq<Member>, todo: seq<Block>)
    requires todo != [] && todo[0] == head && DistinctBlocks(todo) && DistinctHosts(live)
    requires forall b | b in todo :: At(live, b.host) < 0
    requires SameHosts(live + [Staged(head, NextId(live))], after)
    ensures DistinctHosts(after) && DistinctBlocks(todo[1..])
    ensures forall b | b in todo[1..] :: At(after, b.host) < 0
  {
    var x := Staged(head, NextId(live));
    assert head in todo;
    FirstDiffers(todo, todo[1..]);
    forall b | b in todo[1..] ensures At(after, b.host) < 0 {
      assert b in todo;
      AtAppended(live, x, b.host);
      AtByHosts(live + [x], after, b.host);
    }
    AtAppended(live, x, head.host);
  }

  lemma {:induction false} InPromotionSteps(todo: seq<Block>, k: Kind)
    ensures k in PromotionSteps(todo) ==> k.Promote? && k.b in todo
  {
    if todo != [] {
      InPromotionSteps(todo[1..], k);
    }
  }

  // ------------------------------------------------------ the whole apply

  /** A block that raises a live member's votes wants its promotion, if one is due. */
  lemma {:induction false} RaisesWants(start: seq<Member>, blocks: seq<Block>, b: Block)
    requires DistinctHosts(start) && DistinctBlocks(blocks) && b in blocks && Raises(start, b)
    ensures Wants(SettledAll(start, blocks), b)
  {
    SettledHosts(start, blocks);
    AtByHosts(start, SettledAll(start, blocks), b.host);
    BlockForIsUnique(blocks, b);
  }

  /** What the member phase of an apply is given. */
  lemma {:induction false} PhaseIsGiven(start: seq<Member>, blocks: seq<Block>)
    requires DistinctHosts(start) && DistinctBlocks(blocks)
    ensures var live, raising, missing := SettledAll(start, blocks), Raising(start, blocks), Missing(start, blocks);
            && SameHosts(start, live) && DistinctHosts(live) && DistinctBlocks(raising) && DistinctBlocks(missing)
            && (forall b | b in raising :: Wants(live, b))
            && (forall b | b in missing :: At(start, b.host) < 0 && b !in raising)
  {
    var raising, missing := Raising(start, blocks), Missing(start, blocks);
    SettledHosts(start, blocks);
    PartitionDistinct(start, blocks);
    PromotionsDistinct(start, Existing(start, blocks));
    hide SettledAll, Wants, Missing, Raising;
    forall b ensures b in raising <==> b in blocks && Raises(start, b) {
      RaisingOf(start, blocks, b);
    }
    forall b | b in raising ensures Wants(SettledAll(start, blocks), b) {
      RaisesWants(start, blocks, b);
    }
    forall b | b in missing ensures At(start, b.host) < 0 && b !in raising {
      PartitionSplits(start, blocks, b);
    }
  }

  lemma {:induction false} AbsentByHosts(a: seq<Member>, b: seq<Member>, todo: seq<Block>)
    requires SameHosts(a, b) && forall o | o in todo :: At(a, o.host) < 0
    ensures forall o | o in todo :: At(b, o.host) < 0
  {
    forall o | o in todo ensures At(b, o.host) < 0 {
      AtByHosts(a, b, o.host);
    }
  }

  lemma {:induction false} SettingsUntaken(todo: seq<Block>, raising: seq<Block>)
    requires forall b | b in todo :: b !in raising
    ensures Untaken([SettingsAndMembers] + PromotionSteps(raising), todo)
  {
    forall b | b in todo ensures Promote(b) !in PromotionSteps(raising) && Stage(b) !in PromotionSteps(raising) {
      InPromotionSteps(raising, Promote(b));
      InPromotionSteps(raising, Stage(b));
    }
  }

  /** A member phase that leaves nothing pending has taken exactly the steps due, promotions first. */
  lemma {:induction false} PhaseSteps(env: Env, w: World, ctx: nat, start: seq<Member>, blocks: seq<Block>, timeout: nat)
    requires DistinctHosts(start) && DistinctBlocks(blocks) && w.config.members == SettledAll(start, blocks)
    requires Steps(w.log) == [SettingsAndMembers]
    requires Reconcile(env, w, ctx, Raising(start, blocks), Missing(start, blocks), timeout).value == PhaseEnd([], None)
    ensures var s := Reconcile(env, w, ctx, Raising(start, blocks), Missing(start, blocks), timeout);
            && StaysOnce(env, w.log, s.world.log)
            && Steps(s.world.log)
               == [SettingsAndMembers] + PromotionSteps(Raising(start, blocks)) + AddSteps(Missing(start, blocks))
  {
    var raising, missing := Raising(start, blocks), Missing(start, blocks);
    var p := PromoteMembers(env, w, ctx, raising, timeout);
    var a := AddMembers(env, p.world, ctx, missing, timeout);
    assert p.value == PhaseEnd([], None) && a.value == PhaseEnd([], None)
        && Reconcile(env, w, ctx, raising, missing, timeout).world == a.world by {
      hide PromoteMembers, AddMembers, Raising, Missing;
    }
    hide *;
    PhaseIsGiven(start, blocks);
    SettingsAreFirst(raising);
    PromotingSteps(env, w, ctx, raising, timeout);
    SettingsUntaken(missing, raising);
    SameHostsTwice(start, w.config.members, p.world.config.members);
    AbsentByHosts(start, p.world.config.members, missing);
    SameHostsDistinct(start, p.world.config.members);
    AddingAllSteps(env, p.world, ctx, missing, timeout);
    StaysOnceTwice(env, w.log, p.world.log, a.world.log);
  }

  lemma SettingsAreFirst(raising: seq<Block>)
    ensures Untaken([SettingsAndMembers], raising)
  {
  }

  lemma SameHostsDistinct(a: seq<Member>, b: seq<Member>)
    requires SameHosts(a, b) && DistinctHosts(a)
    ensures DistinctHosts(b)
  {
  }

  /** The steps an apply's plan calls for: the settings, a promotion for each raise that takes one, the adds. */
  function Due(members: seq<Member>, blocks: seq<Block>): seq<Kind> {
    [SettingsAndMembers] + PromotionSteps(Raising(members, blocks)) + AddSteps(Missing(members, blocks))
  }

  /** How many of the blocks a promotion is sent for. */
  function Promoting(blocks: seq<Block>): nat {
    if blocks == [] then 0 else (if NeedsPromotion(blocks[0]) then 1 else 0) + Promoting(blocks[1..])
  }

  lemma {:induction false} CountSteps(todo: seq<Block>)
    ensures |PromotionSteps(todo)| == Promoting(todo) && |AddSteps(todo)| == |todo| + Promoting(todo)
  {
    if todo != [] {
      CountSteps(todo[1..]);
    }
  }

  lemma {:induction false} DueIsCounted(members: seq<Member>, blocks: seq<Block>)
    ensures var raising, missing := Raising(members, blocks), Missing(members, blocks);
            |Due(members, blocks)| == 1 + |missing| + Promoting(missing) + Promoting(raising)
  {
    CountSteps(Raising(members, blocks));
    CountSteps(Missing(members, blocks));
  }

  /** From the settings reconfig on, a run that leaves nothing pending has taken the steps due. */
  lemma {:induction false} StepsFromSettings(env: Env, w: World, req: Request, cfg: Config)
    requires DistinctHosts(cfg.members) && DistinctBlocks(Blocks(req))
    requires Steps(w.log) == [] && Reconfigs(w.log) == 0
    requires var end := SendAndFinish(env, w, req, cfg).value; end.Applied? && end.pending == []
    ensures var log := SendAndFinish(env, w, req, cfg).world.log;
            && Steps(log) == Due(cfg.members, Blocks(req))
            && (Accepting(env) && NoConflict(log) ==> Reconfigs(log) == |Steps(log)|)
  {
    var raising, missing := Raising(cfg.members, Blocks(req)), Missing(cfg.members, Blocks(req));
    var phase := PhaseStart(env, w, req, cfg);
    assert Due(cfg.members, Blocks(req)) == [SettingsAndMembers] + PromotionSteps(raising) + AddSteps(missing);
    hide *;
    SettingsSend(env, w, req, cfg);
    FinishEndsExactlyWhen(env, phase, req, raising, missing);
    SettingsIsOneStep(env, w, req, cfg);
    PhaseSteps(env, phase, req.ctx, cfg.members, Blocks(req), req.timeout);
    StaysOnceTwice(env, w.log, phase.log, SendAndFinish(env, w, req, cfg).world.log);
    OnceAtLast(env, w.log, SendAndFinish(env, w, req, cfg).world.log);
  }

  lemma {:induction false} SettingsIsOneStep(env: Env, w: World, req: Request, cfg: Config)
    requires Steps(w.log) == [] && Reconfigs(w.log) == 0
    requires Send(env, w, req.ctx, SettingsAndMembers, SettingsConfig(cfg, req), w.clock + req.timeout).value.None?
    ensures var phase := PhaseStart(env, w, req, cfg);
            && Once(w.log) && StaysOnce(env, w.log, phase.log) && Steps(phase.log) == [SettingsAndMembers]
            && phase.config.members == SettledAll(cfg.members, Blocks(req))
  {
    SettingsMembers(cfg, req);
    OnceAtFirst(w.log);
    var deadline := w.clock + req.timeout;
    hide *;
    FirstStep(env, w, req.ctx, SettingsConfig(cfg, req), deadline);
    PhaseStartIs(env, w, req, cfg);
  }

  lemma PhaseStartIs(env: Env, w: World, req: Request, cfg: Config)
    ensures PhaseStart(env, w, req, cfg)
            == Send(env, w, req.ctx, SettingsAndMembers, SettingsConfig(cfg, req), w.clock + req.timeout).world
  {
    hide Send, SettingsConfig;
  }

  lemma {:induction false} FirstStep(env: Env, w: World, ctx: nat, sent: Config, deadline: nat)
    requires Steps(w.log) == [] && !EndsWith(Steps(w.log), SettingsAndMembers)
    requires Send(env, w, ctx, SettingsAndMembers, sent, deadline).value.None?
    ensures var phase := Send(env, w, ctx, SettingsAndMembers, sent, deadline).world;
            && StaysOnce(env, w.log, phase.log) && Steps(phase.log) == [SettingsAndMembers]
            && phase.config.members == sent.members
  {
    hide *;
    SendStaysOnce(env, w, ctx, SettingsAndMembers, sent, deadline);
    SendInstalls(env, w, ctx, SettingsAndMembers, sent, deadline);
  }

  /**
   * Whatever the server did on the way, an apply that finishes has sent, resends
   * aside, exactly the steps its plan calls for, in order: the settings, the
   * promotions due for vote raises, then for each missing block its staging
   * and its promotion. If the server accepted every reconfig and no version
   * was bumped in front of one, it sent each step once.
   */
  lemma {:induction false} FinishingTakesTheStepsDue(env: Env, start: World, req: Request)
    requires Ready(start, req)
    ensures var log := ApplyOnce(env, start, req).world.log;
            Finishes(env, start, req) ==>
              && Steps(log) == Due(start.config.members, Blocks(req))
              && (Accepting(env) && NoConflict(log) ==> Reconfigs(log) == |Steps(log)|)
  {
    ApplySends(env, start, req);
    if Finishes(env, start, req) {
      var g := GetConfig(env, start.(log := []));
      var cfg := g.value.value;
      var missing := Missing(cfg.members, Blocks(req));
      assert cfg.members == start.config.members && g.world.log == [] && DistinctBlocks(Blocks(req));
      hide ApplyOnce, Prepare, SendAndFinish, GetConfig, Missing, Due, Accepting, NoConflict;
      var w := Prepare(env, g.world, cfg.setName, req, missing).world;
      PrepareQuiet(env, g.world, cfg.setName, req, missing);
      QuietAddsNoStep([], w.log);
      StepsFromSettings(env, w, req, cfg);
    }
  }

  lemma SettingsMembers(cfg: Config, req: Request)
    ensures SettingsConfig(cfg, req).members == SettledAll(cfg.members, Blocks(req))
  {
  }

  lemma OnceAtFirst(log: seq<Event>)
    requires Steps(log) == [] && Reconfigs(log) == 0
    ensures Once(log) && !EndsWith(Steps(log), SettingsAndMembers)
    ensures Steps(log) + [SettingsAndMembers] == [SettingsAndMembers]
  {
  }

  lemma OnceAtLast(env: Env, log: seq<Event>, log': seq<Event>)
    requires Once(log) && StaysOnce(env, log, log')
    ensures Accepting(env) && NoConflict(log') ==> Reconfigs(log') == |Steps(log')|
  {
  }
}
