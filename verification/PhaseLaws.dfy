/**
 * The member phase as a whole: which members it can leave, that it accounts
 * for every block it was given, and what a pending entry means.
 */
module PhaseLaws {
  import opened Wrappers
  import opened ReplicaSet
  import opened MemberPlan
  import opened MemberPlanLaws
  import opened Server
  import opened Timing
  import opened ReconfigRetry
  import opened MemberWait
  import opened Protocol
  import opened Reconciliation
  import opened ReconciliationLaws

  // ------------------------------------------------------ promotions

  /** after is before with some members promoted to the votes and priority of their block in todo. */
  ghost predicate PromotedOnly(before: seq<Member>, todo: seq<Block>, after: seq<Member>) {
    |after| == |before|
    && forall i | 0 <= i < |before| ::
         after[i] == before[i]
         || (var b := BlockFor(todo, before[i].host);
             b.Some? && NeedsPromotion(b.value) && after[i] == Promoted(before[i], b.value))
  }

  /** live has b's member with the votes and priority it had before. */
  ghost predicate Untouched(before: seq<Member>, live: seq<Member>, b: Block) {
    At(before, b.host) >= 0 && Waits(before, live, b)
  }

  lemma {:induction false} PromotionsKeepHosts(before: seq<Member>, todo: seq<Block>, after: seq<Member>)
    requires PromotedOnly(before, todo, after)
    ensures SameHosts(before, after)
  {
    hide BlockFor, NeedsPromotion;
  }

  lemma {:induction false} PromoteOne(live: seq<Member>, head: Block, rest: seq<Block>, mid: seq<Member>,
                                      after: seq<Member>)
    requires DistinctHosts(live) && BlockFor(rest, head.host).None?
    requires var k := At(live, head.host);
             mid == live || (k >= 0 && NeedsPromotion(head) && mid == live[k := Promoted(live[k], head)])
    requires PromotedOnly(mid, rest, after)
    ensures PromotedOnly(live, [head] + rest, after)
    ensures var k := At(live, head.host);
            SameHosts(live, mid) && At(after, head.host) == k && (k >= 0 ==> after[k] == mid[k])
  {
    assert ([head] + rest)[1..] == rest;
    PromotionsKeepHosts(mid, rest, after);
    assert SameHosts(live, mid);
    AtByHosts(live, after, head.host);
    hide Promoted, NeedsPromotion;
    forall i | 0 <= i < |live| && live[i].host == head.host ensures i == At(live, head.host) {
      AtIsUnique(live, i);
    }
  }

  lemma {:induction false} StillUntouched(before: seq<Member>, live: seq<Member>, head: Block, mid: seq<Member>,
                                          b: Block)
    requires DistinctHosts(live) && b.host != head.host && Untouched(before, live, b)
    requires var k := At(live, head.host);
             mid == live || (k >= 0 && mid == live[k := Promoted(live[k], head)])
    ensures Untouched(before, mid, b)
  {
    assert SameHosts(live, mid);
    AtByHosts(live, mid, b.host);
  }

  /** Whatever happens, promotions promote and do nothing else; without an error every block is accounted for. */
  lemma {:induction false} PromotionsFollow(plan: Plan, env: Env, w: World, ctx: nat, todo: seq<Block>, timeout: nat,
                                            before: seq<Member>)
    requires WellFormed(plan) && Follows(plan, w)
    requires DistinctBlocks(todo)
    requires forall b | b in todo :: b in plan.blocks && Untouched(before, w.config.members, b)
    ensures var s := PromoteMembers(env, w, ctx, todo, timeout);
            && Follows(plan, s.world)
            && PromotedOnly(w.config.members, todo, s.world.config.members)
            && (s.value.error.None? ==> Accounted(todo, s.value.pending, before, s.world.config.members, timeout))
    decreases todo
  {
    hide Legal, History, Settle;
    if todo != [] {
      var head, rest := todo[0], todo[1..];
      var live := w.config.members;
      assert head in todo && todo == [head] + rest;
      HistoryIsSound(plan, w.log, live);
      SettleLive(plan, env, w, ctx, head, timeout);
      var s := Settle(env, w, ctx, head, timeout, false);
      var mid := s.world.config.members;
      FirstDiffers(todo, rest);
      if s.value.Failed? {
        PromoteOne(live, head, rest, mid, mid);
      } else {
        forall b | b in rest ensures b in plan.blocks && Untouched(before, mid, b) {
          assert b in todo;
          StillUntouched(before, live, head, mid, b);
        }
        PromotionsFollow(plan, env, s.world, ctx, rest, timeout, before);
        PromoteOne(live, head, rest, mid, PromoteMembers(env, s.world, ctx, rest, timeout).world.config.members);
      }
    }
  }

  // ------------------------------------------------------ adds

  /** after is base followed by members for the first blocks of todo, each as staged or as declared. */
  ghost predicate Grown(base: seq<Member>, todo: seq<Block>, after: seq<Member>) {
    && base <= after && |after| <= |base| + |todo|
    && forall j | 0 <= j < |after| - |base| ::
         var id := NextId(base) + j;
         after[|base| + j] == Staged(todo[j], id) || after[|base| + j] == Build(todo[j], id)
  }

  lemma {:induction false} GrowOne(base: seq<Member>, head: Block, rest: seq<Block>, x: Member, after: seq<Member>)
    requires x == Staged(head, NextId(base)) || x == Build(head, NextId(base))
    requires Grown(base + [x], rest, after)
    ensures Grown(base, [head] + rest, after) && after[|base|] == x
  {
    NextIdAppended(base, x);
    assert base + [x] <= after ==> base <= after && after[|base|] == x;
    forall j | 0 <= j < |after| - |base|
      ensures var id := NextId(base) + j;
              after[|base| + j] == Staged(([head] + rest)[j], id)
              || after[|base| + j] == Build(([head] + rest)[j], id)
    {
      hide NextId, Staged, Build;
      if j > 0 {
        assert after[|base + [x]| + (j - 1)] == after[|base| + j];
        assert ([head] + rest)[j] == rest[j - 1];
      }
    }
    hide NextId, Staged, Build;
  }

  /** Whatever happens, the live members stay an unchanged prefix; without an error every block is accounted for. */
  lemma {:induction false} AddsFollow(plan: Plan, env: Env, w: World, ctx: nat, todo: seq<Block>, timeout: nat,
                                      before: seq<Member>)
    requires WellFormed(plan) && Follows(plan, w)
    requires Missing(w.config.members, plan.blocks) == todo
    requires forall b | b in todo :: At(before, b.host) < 0
    ensures var s := AddMembers(env, w, ctx, todo, timeout);
            && Follows(plan, s.world)
            && Grown(w.config.members, todo, s.world.config.members)
            && (s.value.error.None? ==>
                  && |s.world.config.members| == |w.config.members| + |todo|
                  && Accounted(todo, s.value.pending, before, s.world.config.members, timeout))
    decreases todo
  {
    if todo != [] {
      hide Legal, History, AddMember, Missing, NextId, Sound, Grown, Accounted, Waits, Has, Granted, Staged, Build, Then;
      var head, rest := todo[0], todo[1..];
      var base, id := w.config.members, NextId(w.config.members);
      assert head in todo && todo == [head] + rest;
      AddFollows(plan, env, w, ctx, head, timeout);
      var s := AddMember(env, w, ctx, head, timeout);
      if s.value.Failed? {
        GrowByOne(base, head, rest, s.world.config.members);
      } else {
        var x := if s.value.Done? then Build(head, id) else Staged(head, id);
        assert x.host == head.host by { BuiltHosts(head, id); }
        MissingAfterAdd(base, x, plan.blocks);
        AddsFollow(plan, env, s.world, ctx, rest, timeout, before);
        var end := AddMembers(env, s.world, ctx, rest, timeout);
        GrowOne(base, head, rest, x, end.world.config.members);
        if end.value.error.None? {
          AccountAdded(plan, end.world, before, base, head, rest, s.value, end.value, timeout);
        }
        ThenKeepsError(s.value, end.value);
      }
    } else {
      assert Grown(w.config.members, todo, w.config.members);
    }
  }

  lemma BuiltHosts(b: Block, id: int)
    ensures Build(b, id).host == b.host && Staged(b, id).host == b.host
  {
  }

  lemma ThenKeepsError(first: Settlement, rest: PhaseEnd)
    requires !first.Failed?
    ensures Then(first, rest).error == rest.error
  {
  }

  lemma {:induction false} GrowByOne(base: seq<Member>, head: Block, rest: seq<Block>, after: seq<Member>)
    requires || after == base || after == base + [Staged(head, NextId(base))]
             || after == base + [Build(head, NextId(base))]
    ensures Grown(base, [head] + rest, after)
  {
  }

  lemma {:induction false} AccountAdded(plan: Plan, w: World, before: seq<Member>, base: seq<Member>, head: Block,
                                        rest: seq<Block>, first: Settlement, end: PhaseEnd, timeout: nat)
    requires WellFormed(plan) && Follows(plan, w)
    requires |base| < |w.config.members| && At(before, head.host) < 0
    requires w.config.members[|base|]
             == if first.Done? then Build(head, NextId(base)) else Staged(head, NextId(base))
    requires !first.Failed?
    requires first.StillSyncing? ==> NeedsPromotion(head) && first.pending == PendingFor(head, timeout)
    requires Accounted(rest, end.pending, before, w.config.members, timeout)
    ensures Accounted([head] + rest, Then(first, end).pending, before, w.config.members, timeout)
  {
    AppendedAccounted(plan, w, before, head, |base|);
    assert ([head] + rest)[1..] == rest;
    if first.StillSyncing? {
      assert ([first.pending] + end.pending)[1..] == end.pending;
    }
  }

  lemma {:induction false} AppendedAccounted(plan: Plan, w: World, before: seq<Member>, b: Block, k: nat)
    requires WellFormed(plan) && Follows(plan, w)
    requires k < |w.config.members| && w.config.members[k].host == b.host && At(before, b.host) < 0
    ensures Granted(w.config.members[k], b) ==> Has(before, w.config.members, b)
    ensures Votes(w.config.members[k]) == 0 && w.config.members[k].priority == 0.0
            ==> Waits(before, w.config.members, b)
  {
    HistoryIsSound(plan, w.log, w.config.members);
    AtIsUnique(w.config.members, k);
  }

  // ------------------------------------------------------ the whole phase

  lemma {:induction false} PhaseFollows(plan: Plan, env: Env, w: World, ctx: nat, promotions: seq<Block>,
                                        adds: seq<Block>, timeout: nat)
    requires WellFormed(plan) && Follows(plan, w)
    requires DistinctBlocks(promotions)
    requires forall b | b in promotions :: b in plan.blocks && At(w.config.members, b.host) >= 0
    requires Missing(w.config.members, plan.blocks) == adds
    ensures var s := Reconcile(env, w, ctx, promotions, adds, timeout);
            var live, after := w.config.members, s.world.config.members;
            && Follows(plan, s.world)
            && |live| <= |after|
            && PromotedOnly(live, promotions, after[..|live|])
            && Grown(after[..|live|], adds, after)
            && (s.value.error.None? ==>
                  |after| == |live| + |adds| && Accounted(promotions + adds, s.value.pending, live, after, timeout))
  {
    hide Legal, History, AddMembers, PromoteMembers, Missing;
    var live := w.config.members;
    PromotionsFollow(plan, env, w, ctx, promotions, timeout, live);
    var p := PromoteMembers(env, w, ctx, promotions, timeout);
    var mid := p.world.config.members;
    assert mid[..|live|] == mid;
    if p.value.error.None? {
      assert SameHosts(live, mid);
      MissingByHosts(live, mid, plan.blocks);
      forall b | b in adds ensures At(live, b.host) < 0 {
        PartitionSplits(live, plan.blocks, b);
      }
      AddsFollow(plan, env, p.world, ctx, adds, timeout, live);
      var a := AddMembers(env, p.world, ctx, adds, timeout);
      var after := a.world.config.members;
      assert after[..|live|] == mid;
      if a.value.error.None? {
        HistoryIsSound(plan, a.world.log, after);
        AccountedStays(promotions, p.value.pending, live, mid, after, timeout);
        AccountedTogether(promotions, adds, p.value.pending, a.value.pending, live, after, timeout);
      }
    }
  }

  lemma {:induction false} MissingOfTwoParts(members: seq<Member>, live: seq<Block>, absent: seq<Block>)
    requires forall b | b in live :: At(members, b.host) >= 0
    requires forall b | b in absent :: At(members, b.host) < 0
    ensures Missing(members, live + absent) == absent
  {
    if live != [] {
      assert live[0] in live;
      assert (live + absent)[1..] == live[1..] + absent;
      MissingOfTwoParts(members, live[1..], absent);
    } else if absent != [] {
      assert absent[0] in absent;
      assert live + absent == absent && absent[1..] == [] + absent[1..];
      MissingOfTwoParts(members, [], absent[1..]);
    } else {
      assert live + absent == [];
    }
  }

  /** What the caller of the member phase guarantees: distinct hosts, promotions live, adds not. */
  ghost predicate PhaseInput(w: World, promotions: seq<Block>, adds: seq<Block>) {
    && DistinctHosts(w.config.members) && DistinctBlocks(promotions + adds)
    && (forall b | b in promotions :: At(w.config.members, b.host) >= 0)
    && (forall b | b in adds :: At(w.config.members, b.host) < 0)
  }

  ghost function PhasePlan(w: World, promotions: seq<Block>, adds: seq<Block>): Plan {
    Plan(w.config.members, promotions + adds)
  }

  /** The same set with the same settings. */
  ghost predicate SameSet(a: Config, b: Config) {
    a.setName == b.setName && a.settings == b.settings
  }

  /** The member phase probes no host, sends no settings reconfig, and touches neither the set's name nor its settings. */
  lemma {:induction false} MemberPhaseKinds(env: Env, w: World, ctx: nat, promotions: seq<Block>, adds: seq<Block>,
                                            timeout: nat, i: nat)
    ensures var w' := Reconcile(env, w, ctx, promotions, adds, timeout).world;
            MemberKindAt(w, w', i)
  {
    hide PromoteMembers, AddMembers;
    PromotionKinds(env, w, ctx, promotions, timeout, i);
    AddKinds(env, PromoteMembers(env, w, ctx, promotions, timeout).world, ctx, adds, timeout, i);
  }

  ghost predicate MemberKindAt(w: World, w': World, i: nat) {
    && w.log <= w'.log && SameSet(w.config, w'.config)
    && (|w.log| <= i < |w'.log| ==> !w'.log[i].Probe?)
    && (|w.log| <= i < |w'.log| && w'.log[i].Reconfig? ==>
          !w'.log[i].kind.SettingsAndMembers? && SameSet(w.config, w'.log[i].sent))
  }

  lemma {:induction false} RemoveKinds(env: Env, w: World, ctx: nat, host: string, timeout: nat, i: nat)
    ensures var w' := RemoveMember(env, w, ctx, host, timeout).world;
            && MemberKindAt(w, w', i)
            && (|w.log| <= i < |w'.log| ==> w'.log[i].Reconfig? && w'.log[i].kind == Rollback(host))
  {
    hide Send;
    var g := GetConfig(env, w);
    if g.value.Answered? {
      var cfg := g.value.value;
      SendOnlyMovesVersion(env, g.world, ctx, Rollback(host),
                           cfg.(members := Without(cfg.members, host), version := cfg.version + 1),
                           g.world.clock + timeout);
    }
  }

  lemma {:induction false} PromoteKinds(env: Env, w: World, ctx: nat, b: Block, timeout: nat, i: nat)
    ensures var w' := PromoteMember(env, w, ctx, b, timeout).world;
            && MemberKindAt(w, w', i)
            && (|w.log| <= i < |w'.log| ==> w'.log[i].Reconfig? && w'.log[i].kind == Promote(b))
  {
    hide Send;
    var g := GetConfig(env, w);
    if g.value.Answered? {
      var cfg := g.value.value;
      var k := FirstAt(cfg.members, b.host);
      if k >= 0 {
        SendOnlyMovesVersion(env, g.world, ctx, Promote(b),
                             cfg.(members := cfg.members[k := Promoted(cfg.members[k], b)], version := cfg.version + 1),
                             g.world.clock + timeout);
      }
    }
  }

  /**
   * Settling a member: its wait reads statuses only; what follows it is one
   * promotion of that member after the target was met, or the removal of that
   * member if it was added just now, at least one status was read, and every
   * status read showed it down or did not list it.
   */
  lemma {:induction false} SettleSends(env: Env, w: World, ctx: nat, b: Block, timeout: nat, addedNow: bool, i: nat)
    ensures var mid, w' := AwaitMember(env, w, ctx, b, timeout).world, Settle(env, w, ctx, b, timeout, addedNow).world;
            && w.log <= mid.log <= w'.log && MemberKindAt(w, w', i)
            && (|w.log| <= i < |mid.log| ==> w'.log[i].Status?)
            && (|mid.log| <= i < |w'.log| ==>
                  && w'.log[i].Reconfig?
                  && (|| (w'.log[i].kind == Promote(b) && NeedsPromotion(b) && ShownSynced(mid.log, b.host))
                      || (w'.log[i].kind == Rollback(b.host) && addedNow && |w.log| < |mid.log|
                          && forall j | |w.log| <= j < |mid.log| ::
                               mid.log[j].Status? && !RowUp(mid.log[j].rows, b.host))))
  {
    hide Await, RemoveMember, PromoteMember;
    AwaitSumsUp(env, w, ctx, b.host, WaitTargetFor(b), w.clock + timeout, INIT_POLL, NOTHING_SEEN);
    var a := AwaitMember(env, w, ctx, b, timeout);
    RemoveKinds(env, a.world, ctx, b.host, timeout, i);
    RemoveKinds(env, a.world, a.world.clock + ROLLBACK_GRACE, b.host, timeout, i);
    PromoteKinds(env, a.world, ctx, b, timeout, i);
    if a.value.result.met && NeedsPromotion(b) {
      MetShowsSynced(a.world.log[|a.world.log| - 1].rows, b.host);
    }
  }

  /**
   * A pending member was seen up at least once during its wait and never
   * SECONDARY or PRIMARY, and nothing was sent for it.
   */
  lemma {:induction false} PendingMeansSyncing(env: Env, w: World, ctx: nat, b: Block, timeout: nat, addedNow: bool)
    requires Settle(env, w, ctx, b, timeout, addedNow).value.StillSyncing?
    ensures var w' := Settle(env, w, ctx, b, timeout, addedNow).world;
            && w.log <= w'.log
            && (forall i | |w.log| <= i < |w'.log| ::
                  w'.log[i].Status? && !Observe(w'.log[i].rows, b.host, WaitSecondary).met)
            && (exists i :: |w.log| <= i < |w'.log| && RowUp(w'.log[i].rows, b.host))
  {
    hide Await;
    AwaitSumsUp(env, w, ctx, b.host, WaitTargetFor(b), w.clock + timeout, INIT_POLL, NOTHING_SEEN);
  }

  lemma {:induction false} PromotionKinds(env: Env, w: World, ctx: nat, todo: seq<Block>, timeout: nat, i: nat)
    ensures MemberKindAt(w, PromoteMembers(env, w, ctx, todo, timeout).world, i)
    decreases todo
  {
    if todo != [] {
      hide Settle;
      SettleSends(env, w, ctx, todo[0], timeout, false, i);
      var s := Settle(env, w, ctx, todo[0], timeout, false);
      if !s.value.Failed? {
        PromotionKinds(env, s.world, ctx, todo[1..], timeout, i);
      }
    }
  }

  lemma {:induction false} AddKinds(env: Env, w: World, ctx: nat, todo: seq<Block>, timeout: nat, i: nat)
    ensures MemberKindAt(w, AddMembers(env, w, ctx, todo, timeout).world, i)
    decreases todo
  {
    if todo != [] {
      hide AddMember;
      AddOneKinds(env, w, ctx, todo[0], timeout, i);
      var s := AddMember(env, w, ctx, todo[0], timeout);
      if !s.value.Failed? {
        AddKinds(env, s.world, ctx, todo[1..], timeout, i);
      }
    }
  }

  lemma {:induction false} AddOneKinds(env: Env, w: World, ctx: nat, b: Block, timeout: nat, i: nat)
    ensures MemberKindAt(w, AddMember(env, w, ctx, b, timeout).world, i)
  {
    hide Send, Settle, RemoveMember;
    var g := GetConfig(env, w);
    if g.value.Answered? {
      var cfg := g.value.value;
      var sent := cfg.(members := cfg.members + [Staged(b, NextId(cfg.members))], version := cfg.version + 1);
      SendOnlyMovesVersion(env, g.world, ctx, Stage(b), sent, g.world.clock + timeout);
      var s := Send(env, g.world, ctx, Stage(b), sent, g.world.clock + timeout);
      RemoveKinds(env, s.world, ctx, b.host, timeout, i);
      SettleSends(env, s.world, ctx, b, timeout, true, i);
    }
  }

  // ------------------------------------------------------ when the phase stops

  /** One block's turn: settled as a live member, or added. */
  ghost function Turn(env: Env, w: World, ctx: nat, b: Block, timeout: nat, adds: bool): Step<Settlement> {
    if adds then AddMember(env, w, ctx, b, timeout) else Settle(env, w, ctx, b, timeout, false)
  }

  /** The world in which the n-th block has its turn, those before it having had theirs. */
  ghost function Before(env: Env, w: World, ctx: nat, todo: seq<Block>, timeout: nat, adds: bool, n: nat): World
    requires n <= |todo|
  {
    if n == 0 then w else Turn(env, Before(env, w, ctx, todo, timeout, adds, n - 1), ctx, todo[n - 1], timeout, adds).world
  }

  ghost function TurnAt(env: Env, w: World, ctx: nat, todo: seq<Block>, timeout: nat, adds: bool, n: nat): Settlement
    requires n < |todo|
  {
    Turn(env, Before(env, w, ctx, todo, timeout, adds, n), ctx, todo[n], timeout, adds).value
  }

  /**
   * The blocks have their turns in order, and a member left pending stops
   * nothing: without an error none of the turns failed, and an error is that of
   * the first that did, after which nothing happened.
   */
  ghost predicate StopsAtFirst(env: Env, w: World, ctx: nat, todo: seq<Block>, timeout: nat, adds: bool,
                               end: Step<PhaseEnd>) {
    match end.value.error
    case None =>
      && (forall n | 0 <= n < |todo| :: !TurnAt(env, w, ctx, todo, timeout, adds, n).Failed?)
      && end.world == Before(env, w, ctx, todo, timeout, adds, |todo|)
    case Some(e) =>
      exists n :: && 0 <= n < |todo| && TurnAt(env, w, ctx, todo, timeout, adds, n) == Failed(e)
                  && (forall m | 0 <= m < n :: !TurnAt(env, w, ctx, todo, timeout, adds, m).Failed?)
                  && end.world == Before(env, w, ctx, todo, timeout, adds, n + 1)
  }

  lemma {:induction false} TurnsShift(env: Env, w: World, ctx: nat, todo: seq<Block>, timeout: nat, adds: bool, n: nat)
    requires n < |todo|
    ensures var next := Turn(env, w, ctx, todo[0], timeout, adds).world;
            Before(env, w, ctx, todo, timeout, adds, n + 1) == Before(env, next, ctx, todo[1..], timeout, adds, n)
    ensures n + 1 < |todo| ==>
              TurnAt(env, w, ctx, todo, timeout, adds, n + 1)
              == TurnAt(env, Turn(env, w, ctx, todo[0], timeout, adds).world, ctx, todo[1..], timeout, adds, n)
  {
    hide Turn;
    if n > 0 {
      TurnsShift(env, w, ctx, todo, timeout, adds, n - 1);
      assert todo[1..][n - 1] == todo[n];
    }
  }

  /** Each later block's turn is the same seen from the first block or from the second. */
  lemma {:induction false} LaterTurns(env: Env, w: World, ctx: nat, todo: seq<Block>, timeout: nat, adds: bool)
    requires todo != []
    ensures var next := Turn(env, w, ctx, todo[0], timeout, adds).world;
            && (forall n | 0 < n < |todo| ::
                  TurnAt(env, w, ctx, todo, timeout, adds, n) == TurnAt(env, next, ctx, todo[1..], timeout, adds, n - 1))
            && forall n | 0 < n <= |todo| ::
                 Before(env, w, ctx, todo, timeout, adds, n) == Before(env, next, ctx, todo[1..], timeout, adds, n - 1)
    ensures TurnAt(env, w, ctx, todo, timeout, adds, 0) == Turn(env, w, ctx, todo[0], timeout, adds).value
  {
    var next := Turn(env, w, ctx, todo[0], timeout, adds).world;
    hide Turn;
    assert TurnAt(env, w, ctx, todo, timeout, adds, 0) == Turn(env, w, ctx, todo[0], timeout, adds).value;
    hide TurnAt, Before;
    forall n | 0 < n <= |todo|
      ensures Before(env, w, ctx, todo, timeout, adds, n) == Before(env, next, ctx, todo[1..], timeout, adds, n - 1)
      ensures n < |todo| ==>
                TurnAt(env, w, ctx, todo, timeout, adds, n) == TurnAt(env, next, ctx, todo[1..], timeout, adds, n - 1)
    {
      TurnsShift(env, w, ctx, todo, timeout, adds, n - 1);
    }
  }

  lemma {:induction false} StopsLater(env: Env, w: World, ctx: nat, todo: seq<Block>, timeout: nat, adds: bool,
                                      rest: Step<PhaseEnd>, end: Step<PhaseEnd>)
    requires todo != []
    requires var s := Turn(env, w, ctx, todo[0], timeout, adds);
             !s.value.Failed? && StopsAtFirst(env, s.world, ctx, todo[1..], timeout, adds, rest)
    requires end.world == rest.world && end.value.error == rest.value.error
    ensures StopsAtFirst(env, w, ctx, todo, timeout, adds, end)
  {
    hide *;
    var next, later := Turn(env, w, ctx, todo[0], timeout, adds).world, todo[1..];
    LaterTurns(env, w, ctx, todo, timeout, adds);
    if rest.value.error.Some? {
      var n := FirstFailure(env, next, ctx, later, timeout, adds, rest);
      StopsAt(env, w, ctx, todo, timeout, adds, end, n + 1);
    } else {
      NoFailure(env, next, ctx, later, timeout, adds, rest);
      RunsThrough(env, w, ctx, todo, timeout, adds, end);
    }
  }

  lemma FirstFailure(env: Env, w: World, ctx: nat, todo: seq<Block>, timeout: nat, adds: bool, end: Step<PhaseEnd>)
    returns (n: nat)
    requires StopsAtFirst(env, w, ctx, todo, timeout, adds, end) && end.value.error.Some?
    ensures n < |todo| && TurnAt(env, w, ctx, todo, timeout, adds, n) == Failed(end.value.error.value)
    ensures forall m | 0 <= m < n :: !TurnAt(env, w, ctx, todo, timeout, adds, m).Failed?
    ensures end.world == Before(env, w, ctx, todo, timeout, adds, n + 1)
  {
    hide TurnAt, Before;
    n :| && n < |todo| && TurnAt(env, w, ctx, todo, timeout, adds, n) == Failed(end.value.error.value)
         && (forall m | 0 <= m < n :: !TurnAt(env, w, ctx, todo, timeout, adds, m).Failed?)
         && end.world == Before(env, w, ctx, todo, timeout, adds, n + 1);
  }

  lemma NoFailure(env: Env, w: World, ctx: nat, todo: seq<Block>, timeout: nat, adds: bool, end: Step<PhaseEnd>)
    requires StopsAtFirst(env, w, ctx, todo, timeout, adds, end) && end.value.error.None?
    ensures forall n | 0 <= n < |todo| :: !TurnAt(env, w, ctx, todo, timeout, adds, n).Failed?
    ensures end.world == Before(env, w, ctx, todo, timeout, adds, |todo|)
  {
    hide TurnAt, Before;
  }

  lemma RunsThrough(env: Env, w: World, ctx: nat, todo: seq<Block>, timeout: nat, adds: bool, end: Step<PhaseEnd>)
    requires end.value.error.None?
    requires forall n | 0 <= n < |todo| :: !TurnAt(env, w, ctx, todo, timeout, adds, n).Failed?
    requires end.world == Before(env, w, ctx, todo, timeout, adds, |todo|)
    ensures StopsAtFirst(env, w, ctx, todo, timeout, adds, end)
  {
    hide TurnAt, Before;
  }

  lemma StopsAt(env: Env, w: World, ctx: nat, todo: seq<Block>, timeout: nat, adds: bool, end: Step<PhaseEnd>,
                n: nat)
    requires n < |todo| && end.value.error.Some?
    requires TurnAt(env, w, ctx, todo, timeout, adds, n) == Failed(end.value.error.value)
    requires forall m | 0 <= m < n :: !TurnAt(env, w, ctx, todo, timeout, adds, m).Failed?
    requires end.world == Before(env, w, ctx, todo, timeout, adds, n + 1)
    ensures StopsAtFirst(env, w, ctx, todo, timeout, adds, end)
  {
    hide TurnAt, Before;
  }

  lemma {:induction false} StopsNow(env: Env, w: World, ctx: nat, todo: seq<Block>, timeout: nat, adds: bool,
                                    end: Step<PhaseEnd>)
    requires todo != []
    requires var s := Turn(env, w, ctx, todo[0], timeout, adds);
             s.value.Failed? && end.value.error == Some(s.value.error) && end.world == s.world
    ensures StopsAtFirst(env, w, ctx, todo, timeout, adds, end)
  {
    assert TurnAt(env, w, ctx, todo, timeout, adds, 0) == Failed(end.value.error.value);
    assert Before(env, w, ctx, todo, timeout, adds, 0 + 1) == end.world;
    hide Turn, TurnAt, Before;
  }

  lemma {:induction false} PromotionsStopAtFirst(env: Env, w: World, ctx: nat, todo: seq<Block>, timeout: nat)
    ensures StopsAtFirst(env, w, ctx, todo, timeout, false, PromoteMembers(env, w, ctx, todo, timeout))
    decreases todo
  {
    if todo != [] {
      var s := Settle(env, w, ctx, todo[0], timeout, false);
      assert s == Turn(env, w, ctx, todo[0], timeout, false);
      hide Settle, Turn, StopsAtFirst;
      if s.value.Failed? {
        StopsNow(env, w, ctx, todo, timeout, false, PromoteMembers(env, w, ctx, todo, timeout));
      } else {
        var rest := PromoteMembers(env, s.world, ctx, todo[1..], timeout);
        PromotionsStopAtFirst(env, s.world, ctx, todo[1..], timeout);
        ThenKeepsError(s.value, rest.value);
        StopsLater(env, w, ctx, todo, timeout, false, rest, PromoteMembers(env, w, ctx, todo, timeout));
      }
    }
  }

  lemma {:induction false} AddsStopAtFirst(env: Env, w: World, ctx: nat, todo: seq<Block>, timeout: nat)
    ensures StopsAtFirst(env, w, ctx, todo, timeout, true, AddMembers(env, w, ctx, todo, timeout))
    decreases todo
  {
    if todo != [] {
      var s := AddMember(env, w, ctx, todo[0], timeout);
      assert s == Turn(env, w, ctx, todo[0], timeout, true);
      hide AddMember, Turn, StopsAtFirst;
      if s.value.Failed? {
        StopsNow(env, w, ctx, todo, timeout, true, AddMembers(env, w, ctx, todo, timeout));
      } else {
        var rest := AddMembers(env, s.world, ctx, todo[1..], timeout);
        AddsStopAtFirst(env, s.world, ctx, todo[1..], timeout);
        ThenKeepsError(s.value, rest.value);
        StopsLater(env, w, ctx, todo, timeout, true, rest, AddMembers(env, w, ctx, todo, timeout));
      }
    }
  }

  /**
   * The member phase promotes in block order and then adds in block order,
   * past members left pending, until the first hard error: adds do not start
   * after a promotion failed.
   */
  lemma {:induction false} PhaseStopsAtFirst(env: Env, w: World, ctx: nat, promotions: seq<Block>, adds: seq<Block>,
                                             timeout: nat)
    ensures var p, s := PromoteMembers(env, w, ctx, promotions, timeout), Reconcile(env, w, ctx, promotions, adds, timeout);
            && StopsAtFirst(env, w, ctx, promotions, timeout, false, p)
            && if p.value.error.Some? then s == p
               else
                 var mid := Before(env, w, ctx, promotions, timeout, false, |promotions|);
                 StopsAtFirst(env, mid, ctx, adds, timeout, true, s)
  {
    PromotionsStopAtFirst(env, w, ctx, promotions, timeout);
    var p := PromoteMembers(env, w, ctx, promotions, timeout);
    AddsStopAtFirst(env, p.world, ctx, adds, timeout);
    hide PromoteMembers, AddMembers, Before, TurnAt;
  }

  // ------------------------------------------------------ what pending means

  /** Where a wait begins and which block it is for. */
  type Wait = (World, Block)

  /** The waits of a run of promotions, in order. */
  ghost function PromotionWaits(env: Env, w: World, ctx: nat, todo: seq<Block>, timeout: nat): seq<Wait>
    decreases todo
  {
    if todo == [] then []
    else
      var s := Settle(env, w, ctx, todo[0], timeout, false);
      [(w, todo[0])] + if s.value.Failed? then [] else PromotionWaits(env, s.world, ctx, todo[1..], timeout)
  }

  /** The world once b's member is staged. */
  ghost function StagedWorld(env: Env, w: World, ctx: nat, b: Block, timeout: nat): World
    requires GetConfig(env, w).value.Answered?
  {
    var g := GetConfig(env, w);
    Send(env, g.world, ctx, Stage(b), Staging(g.value.value, b), g.world.clock + timeout).world
  }

  /** The waits of a run of adds, up to the first that fails, in order. */
  ghost function AddWaits(env: Env, w: World, ctx: nat, todo: seq<Block>, timeout: nat): seq<Wait>
    decreases todo
  {
    if todo == [] || AddMember(env, w, ctx, todo[0], timeout).value.Failed? then []
    else
      AddReads(env, w, ctx, todo[0], timeout);
      [(StagedWorld(env, w, ctx, todo[0], timeout), todo[0])]
      + AddWaits(env, AddMember(env, w, ctx, todo[0], timeout).world, ctx, todo[1..], timeout)
  }

  /** The waits of the member phase, in order. */
  ghost function PhaseWaits(env: Env, w: World, ctx: nat, promotions: seq<Block>, adds: seq<Block>, timeout: nat)
    : seq<Wait>
  {
    PromotionWaits(env, w, ctx, promotions, timeout)
    + AddWaits(env, PromoteMembers(env, w, ctx, promotions, timeout).world, ctx, adds, timeout)
  }

  /**
   * The wait lies between two logs, read statuses only, found the host up at
   * least once and never SECONDARY or PRIMARY.
   */
  ghost predicate SyncedInVain(env: Env, wait: Wait, ctx: nat, timeout: nat, before: seq<Event>, after: seq<Event>) {
    var (w, b) := wait;
    var log := AwaitMember(env, w, ctx, b, timeout).world.log;
    && before <= w.log <= log <= after
    && (forall i | |w.log| <= i < |log| :: log[i].Status? && !Observe(log[i].rows, b.host, WaitSecondary).met)
    && exists i :: |w.log| <= i < |log| && RowUp(log[i].rows, b.host)
  }

  /** p stands for one of these waits, in which its member was syncing throughout. */
  ghost predicate SeenSyncing(env: Env, waits: seq<Wait>, ctx: nat, timeout: nat, before: seq<Event>, after: seq<Event>,
                              p: Pending)
  {
    exists i :: && 0 <= i < |waits| && p == PendingFor(waits[i].1, timeout)
                && SyncedInVain(env, waits[i], ctx, timeout, before, after)
  }

  lemma {:induction false} SeenStays(env: Env, waits: seq<Wait>, more: seq<Wait>, last: seq<Wait>, ctx: nat, timeout: nat,
                                     before: seq<Event>, after: seq<Event>, before': seq<Event>, after': seq<Event>,
                                     p: Pending)
    requires SeenSyncing(env, waits, ctx, timeout, before, after, p)
    requires before' <= before && after <= after'
    ensures SeenSyncing(env, more + waits + last, ctx, timeout, before', after', p)
  {
    var i :| && 0 <= i < |waits| && p == PendingFor(waits[i].1, timeout)
             && SyncedInVain(env, waits[i], ctx, timeout, before, after);
    assert SyncedInVain(env, waits[i], ctx, timeout, before', after') by {
      hide Observe, RowUp, AwaitMember;
    }
    assert (more + waits + last)[|more| + i] == waits[i];
  }

  lemma {:induction false} SettlePending(env: Env, w: World, ctx: nat, b: Block, timeout: nat, addedNow: bool)
    requires Settle(env, w, ctx, b, timeout, addedNow).value.StillSyncing?
    ensures var s := Settle(env, w, ctx, b, timeout, addedNow);
            s.value.pending == PendingFor(b, timeout) && SyncedInVain(env, (w, b), ctx, timeout, w.log, s.world.log)
  {
    PendingMeansSyncing(env, w, ctx, b, timeout, addedNow);
    hide AwaitMember, Observe, RowUp, RemoveMember, PromoteMember;
    assert Settle(env, w, ctx, b, timeout, addedNow).world == AwaitMember(env, w, ctx, b, timeout).world;
  }

  /** The configuration that stages b's member. */
  ghost function Staging(cfg: Config, b: Block): Config {
    cfg.(members := cfg.members + [Staged(b, NextId(cfg.members))], version := cfg.version + 1)
  }

  /** What an add comes to once the configuration is read. */
  lemma {:induction false} AddSends(env: Env, w: World, ctx: nat, b: Block, timeout: nat)
    requires GetConfig(env, w).value.Answered?
    ensures var g := GetConfig(env, w);
            var s := Send(env, g.world, ctx, Stage(b), Staging(g.value.value, b), g.world.clock + timeout);
            && StagedWorld(env, w, ctx, b, timeout) == s.world
            && if s.value.Some? then AddMember(env, w, ctx, b, timeout).value.Failed?
               else AddMember(env, w, ctx, b, timeout) == Settle(env, s.world, ctx, b, timeout, true)
  {
    hide Settle, Send, RemoveMember, GetConfig, Staged, NextId;
  }

  lemma {:induction false} AddReads(env: Env, w: World, ctx: nat, b: Block, timeout: nat)
    ensures GetConfig(env, w).world.log == w.log
    ensures !AddMember(env, w, ctx, b, timeout).value.Failed? ==> GetConfig(env, w).value.Answered?
  {
    hide Settle, Send, RemoveMember, Staged, NextId;
  }

  /** An add that did not fail was staged and then settled. */
  lemma {:induction false} AddSettles(env: Env, w: World, ctx: nat, b: Block, timeout: nat)
    requires !AddMember(env, w, ctx, b, timeout).value.Failed?
    ensures GetConfig(env, w).value.Answered?
    ensures var staged := StagedWorld(env, w, ctx, b, timeout);
            w.log <= staged.log && AddMember(env, w, ctx, b, timeout) == Settle(env, staged, ctx, b, timeout, true)
  {
    AddReads(env, w, ctx, b, timeout);
    hide *;
    AddSends(env, w, ctx, b, timeout);
    var g := GetConfig(env, w);
    SendExtendsLog(env, g.world, ctx, Stage(b), Staging(g.value.value, b), g.world.clock + timeout);
  }

  lemma {:induction false} SendExtendsLog(env: Env, w: World, ctx: nat, kind: Kind, cfg: Config, deadline: nat)
    ensures w.log <= Send(env, w, ctx, kind, cfg, deadline).world.log
  {
    SendOnlyMovesVersion(env, w, ctx, kind, cfg, deadline);
  }

  lemma {:induction false} AddPending(env: Env, w: World, ctx: nat, b: Block, timeout: nat)
    requires AddMember(env, w, ctx, b, timeout).value.StillSyncing?
    ensures var s := AddMember(env, w, ctx, b, timeout);
            && GetConfig(env, w).value.Answered? && s.value.pending == PendingFor(b, timeout)
            && SyncedInVain(env, (StagedWorld(env, w, ctx, b, timeout), b), ctx, timeout, w.log, s.world.log)
  {
    AddReads(env, w, ctx, b, timeout);
    AddSettles(env, w, ctx, b, timeout);
    hide AddMember, Settle, StagedWorld, AwaitMember, Observe, RowUp, GetConfig;
    SettlePending(env, StagedWorld(env, w, ctx, b, timeout), ctx, b, timeout, true);
  }

  lemma {:induction false} PromotionsPending(env: Env, w: World, ctx: nat, todo: seq<Block>, timeout: nat, p: Pending)
    requires p in PromoteMembers(env, w, ctx, todo, timeout).value.pending
    ensures SeenSyncing(env, PromotionWaits(env, w, ctx, todo, timeout), ctx, timeout, w.log,
                        PromoteMembers(env, w, ctx, todo, timeout).world.log, p)
    decreases todo
  {
    hide Settle, SeenSyncing, SyncedInVain;
    var s := Settle(env, w, ctx, todo[0], timeout, false);
    SettleSends(env, w, ctx, todo[0], timeout, false, 0);
    PromotionKinds(env, s.world, ctx, todo[1..], timeout, 0);
    var end := PromoteMembers(env, s.world, ctx, todo[1..], timeout);
    var rest := PromotionWaits(env, s.world, ctx, todo[1..], timeout);
    if s.value.StillSyncing? && p == s.value.pending {
      SettlePending(env, w, ctx, todo[0], timeout, false);
      SeenOne(env, (w, todo[0]), ctx, timeout, w.log, s.world.log);
      SeenStays(env, [(w, todo[0])], [], rest, ctx, timeout, w.log, s.world.log, w.log, end.world.log, p);
      assert [] + [(w, todo[0])] + rest == [(w, todo[0])] + rest;
    } else {
      PromotionsPending(env, s.world, ctx, todo[1..], timeout, p);
      SeenStays(env, rest, [(w, todo[0])], [], ctx, timeout, s.world.log, end.world.log, w.log, end.world.log, p);
      assert [(w, todo[0])] + rest + [] == [(w, todo[0])] + rest;
    }
  }

  lemma {:induction false} SeenOne(env: Env, wait: Wait, ctx: nat, timeout: nat, before: seq<Event>, after: seq<Event>)
    requires SyncedInVain(env, wait, ctx, timeout, before, after)
    ensures SeenSyncing(env, [wait], ctx, timeout, before, after, PendingFor(wait.1, timeout))
  {
    hide SyncedInVain;
    assert [wait][0] == wait;
  }

  lemma {:induction false} AddsPending(env: Env, w: World, ctx: nat, todo: seq<Block>, timeout: nat, p: Pending)
    requires p in AddMembers(env, w, ctx, todo, timeout).value.pending
    ensures SeenSyncing(env, AddWaits(env, w, ctx, todo, timeout), ctx, timeout, w.log,
                        AddMembers(env, w, ctx, todo, timeout).world.log, p)
    decreases todo
  {
    hide AddMember, SeenSyncing, SyncedInVain, StagedWorld, GetConfig;
    var s := AddMember(env, w, ctx, todo[0], timeout);
    AddReads(env, w, ctx, todo[0], timeout);
    AddOneKinds(env, w, ctx, todo[0], timeout, 0);
    AddKinds(env, s.world, ctx, todo[1..], timeout, 0);
    var end := AddMembers(env, s.world, ctx, todo[1..], timeout);
    var rest := AddWaits(env, s.world, ctx, todo[1..], timeout);
    var wait := (StagedWorld(env, w, ctx, todo[0], timeout), todo[0]);
    if s.value.StillSyncing? && p == s.value.pending {
      AddPending(env, w, ctx, todo[0], timeout);
      SeenOne(env, wait, ctx, timeout, w.log, s.world.log);
      SeenStays(env, [wait], [], rest, ctx, timeout, w.log, s.world.log, w.log, end.world.log, p);
      assert [] + [wait] + rest == [wait] + rest;
    } else {
      AddsPending(env, s.world, ctx, todo[1..], timeout, p);
      SeenStays(env, rest, [wait], [], ctx, timeout, s.world.log, end.world.log, w.log, end.world.log, p);
      assert [wait] + rest + [] == [wait] + rest;
    }
  }

  /**
   * Whoever the member phase reports as pending had its wait in that very
   * phase: the wait showed it up, and never SECONDARY or PRIMARY.
   */
  lemma {:induction false} PendingInPhase(env: Env, w: World, ctx: nat, promotions: seq<Block>, adds: seq<Block>,
                                          timeout: nat, p: Pending)
    requires p in Reconcile(env, w, ctx, promotions, adds, timeout).value.pending
    ensures SeenSyncing(env, PhaseWaits(env, w, ctx, promotions, adds, timeout), ctx, timeout, w.log,
                        Reconcile(env, w, ctx, promotions, adds, timeout).world.log, p)
  {
    hide PromoteMembers, AddMembers, SeenSyncing, PromotionWaits, AddWaits;
    var s := PromoteMembers(env, w, ctx, promotions, timeout);
    PromotionKinds(env, w, ctx, promotions, timeout, 0);
    AddKinds(env, s.world, ctx, adds, timeout, 0);
    var end := AddMembers(env, s.world, ctx, adds, timeout);
    var first, second := PromotionWaits(env, w, ctx, promotions, timeout), AddWaits(env, s.world, ctx, adds, timeout);
    if p in s.value.pending {
      PromotionsPending(env, w, ctx, promotions, timeout, p);
      SeenStays(env, first, [], second, ctx, timeout, w.log, s.world.log, w.log,
                if s.value.error.Some? then s.world.log else end.world.log, p);
      assert [] + first + second == first + second;
    } else {
      AddsPending(env, s.world, ctx, adds, timeout, p);
      SeenStays(env, second, first, [], ctx, timeout, s.world.log, end.world.log, w.log, end.world.log, p);
      assert first + second + [] == first + second;
    }
  }

  /**
   * The member phase, whatever the server answers: it follows the protocol;
   * the members it met stay an unchanged prefix but for promotions; members it
   * added come after them in block order with fresh ids; and if it reports no
   * error, every block has what it asks for or is the next pending entry. A
   * pending member was seen up in its wait, and never SECONDARY or PRIMARY.
   */
  lemma {:induction false} ReconcileAccounts(env: Env, w: World, ctx: nat, promotions: seq<Block>, adds: seq<Block>,
                                             timeout: nat)
    requires w.log == [] && PhaseInput(w, promotions, adds)
    ensures var s := Reconcile(env, w, ctx, promotions, adds, timeout);
            var live, after := w.config.members, s.world.config.members;
            && Follows(PhasePlan(w, promotions, adds), s.world)
            && |live| <= |after|
            && PromotedOnly(live, promotions, after[..|live|])
            && Grown(after[..|live|], adds, after)
            && (s.value.error.None? ==>
                  |after| == |live| + |adds| && Accounted(promotions + adds, s.value.pending, live, after, timeout))
            && forall p | p in s.value.pending ::
                 SeenSyncing(env, PhaseWaits(env, w, ctx, promotions, adds, timeout), ctx, timeout, w.log, s.world.log, p)
  {
    var plan := PhasePlan(w, promotions, adds);
    MissingOfTwoParts(w.config.members, promotions, adds);
    assert DistinctBlocks(promotions) by {
      assert forall i | 0 <= i < |promotions| :: (promotions + adds)[i] == promotions[i];
    }
    PhaseFollows(plan, env, w, ctx, promotions, adds, timeout);
    hide Reconcile, PromotedOnly, Grown, Accounted, History, SeenSyncing, PhaseWaits;
    forall p | p in Reconcile(env, w, ctx, promotions, adds, timeout).value.pending
      ensures SeenSyncing(env, PhaseWaits(env, w, ctx, promotions, adds, timeout), ctx, timeout, w.log,
                          Reconcile(env, w, ctx, promotions, adds, timeout).world.log, p)
    {
      PendingInPhase(env, w, ctx, promotions, adds, timeout, p);
    }
  }

  /**
   * Quorum overlap: in the member phase, whatever the server answers, any
   * majority of the voters a reconfig met and any majority of the voters it
   * sent share a voter.
   */
  lemma {:induction false} QuorumsOverlap(env: Env, w: World, ctx: nat, promotions: seq<Block>, adds: seq<Block>,
                                          timeout: nat, i: nat, p: set<string>, q: set<string>)
    requires w.log == [] && PhaseInput(w, promotions, adds)
    requires var log := Reconcile(env, w, ctx, promotions, adds, timeout).world.log;
             && i < |log| && log[i].Reconfig?
             && Majority(p, Voters(log[i].live.members)) && Majority(q, Voters(log[i].sent.members))
    ensures p * q != {}
  {
    hide Reconcile, Legal, History;
    ReconcileAccounts(env, w, ctx, promotions, adds, timeout);
    MemberPhaseKinds(env, w, ctx, promotions, adds, timeout, i);
    var end := Reconcile(env, w, ctx, promotions, adds, timeout).world;
    MemberStepsOverlap(PhasePlan(w, promotions, adds), end.log, end.config.members, i);
    MajoritiesMeet(Voters(end.log[i].live.members), Voters(end.log[i].sent.members), p, q);
  }

  /**
   * A rollback removes only the run's own add: given hosts that are not live,
   * the members met stay an unchanged prefix of every config sent and of what
   * is left, ids and hosts stay distinct, and a member joins under an id above
   * every id of the config it joins.
   */
  lemma {:induction false} AddsKeepTheRest(env: Env, w: World, ctx: nat, adds: seq<Block>, timeout: nat, i: nat)
    requires w.log == [] && PhaseInput(w, [], adds)
    ensures var live, end := w.config.members, AddMembers(env, w, ctx, adds, timeout).world;
            && live <= end.config.members && Grown(live, adds, end.config.members)
            && DistinctHosts(end.config.members)
            && (DistinctIds(live) ==> DistinctIds(end.config.members))
            && (i < |end.log| && end.log[i].Reconfig? ==>
                  var met, sent := end.log[i].live.members, end.log[i].sent.members;
                  && live <= sent && DistinctHosts(sent) && (DistinctIds(live) ==> DistinctIds(sent))
                  && |sent| <= |met| + 1
                  && (|sent| > |met| ==> forall m | m in met :: m.id < sent[|met|].id))
  {
    hide History, AddMembers;
    var plan := PhasePlan(w, [], adds);
    assert plan.blocks == adds;
    MissingOfTwoParts(w.config.members, [], adds);
    assert Follows(plan, w) by { EmptyHistory(plan); }
    AddsFollow(plan, env, w, ctx, adds, timeout, w.config.members);
    var end := AddMembers(env, w, ctx, adds, timeout).world;
    HistoryIsSound(plan, end.log, end.config.members);
    if i < |end.log| && end.log[i].Reconfig? {
      HistoryStep(plan, end.log, end.config.members, i);
      StepKeepsTheRest(plan, end.log[..i], end.log[i].kind, end.log[i].live.members, end.log[i].sent.members);
    }
  }

  lemma EmptyHistory(plan: Plan)
    ensures History(plan, [], plan.start)
  {
  }

  lemma {:induction false} StepKeepsTheRest(plan: Plan, seen: seq<Event>, kind: Kind, met: seq<Member>,
                                            sent: seq<Member>)
    requires WellFormed(plan) && History(plan, seen, met)
    requires forall b | b in plan.blocks :: At(plan.start, b.host) < 0
    requires sent == met || Legal(plan, seen, kind, met, sent)
    ensures plan.start <= sent && Sound(plan, sent)
    ensures |sent| <= |met| + 1 && (|sent| > |met| ==> forall m | m in met :: m.id < sent[|met|].id)
  {
    hide History, Sound;
    HistoryIsSound(plan, seen, met);
    StartStaysPrefix(plan, seen, met);
    if sent != met {
      LegalKeepsSound(plan, seen, kind, met, sent);
      LegalKeepsPrefix(plan, seen, kind, met, sent);
    }
  }
}
