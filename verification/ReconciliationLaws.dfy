/**
 * The member phase follows the protocol, and what each of its steps can leave
 * behind, whatever the server answers.
 */
module ReconciliationLaws {
  import opened Wrappers
  import opened ReplicaSet
  import opened MemberPlan
  import opened MemberPlanLaws
  import opened Server
  import opened Timing
  import opened ReconfigRetry
  import opened MemberWait
  import opened Protocol
  import opened Reconciliation

  /** The log of w took the plan's start to the live members of w by legal steps. */
  ghost predicate Follows(plan: Plan, w: World) {
    History(plan, w.log, w.config.members)
  }

  // ------------------------------------------------------ single commands

  lemma {:induction false} QuietHistory(plan: Plan, log: seq<Event>, log': seq<Event>, members: seq<Member>)
    requires History(plan, log, members) && log <= log'
    requires forall i | |log| <= i < |log'| :: !log'[i].Reconfig?
    ensures History(plan, log', members)
    decreases |log'|
  {
    if log != log' {
      QuietHistory(plan, log, log'[..|log'| - 1], members);
    }
  }

  lemma {:induction false} QuietFollows(plan: Plan, w: World, w': World)
    requires Follows(plan, w) && Quiet(w, w')
    ensures Follows(plan, w')
  {
    QuietHistory(plan, w.log, w'.log, w.config.members);
  }

  lemma {:induction false} LegalStays(plan: Plan, seen: seq<Event>, seen': seq<Event>, kind: Kind,
                                      live: seq<Member>, sent: seq<Member>)
    requires Legal(plan, seen, kind, live, sent) && seen <= seen'
    ensures Legal(plan, seen', kind, live, sent)
  {
    if kind.Promote? {
      ShownStaysShown(seen, seen', kind.b.host);
    }
  }

  lemma {:induction false} AttemptFollows(plan: Plan, env: Env, w: World, kind: Kind, cfg: Config, maxTime: nat,
                                          base: seq<Member>)
    requires Follows(plan, w) && Legal(plan, w.log, kind, base, cfg.members)
    requires w.config.members == base || w.config.members == cfg.members
    ensures var s := Reconfigure(env, w, kind, cfg, maxTime);
            && Follows(plan, s.world)
            && Legal(plan, s.world.log, kind, base, cfg.members)
            && w.log <= s.world.log
            && (s.world.config.members == base || s.world.config.members == cfg.members)
            && (s.value.None? ==> s.world.config.members == cfg.members)
  {
    hide Legal;
    var s := Reconfigure(env, w, kind, cfg, maxTime);
    HistoryAppended(plan, w.log, s.world.log[|w.log|], s.world.config.members);
    LegalStays(plan, w.log, s.world.log, kind, base, cfg.members);
  }

  /** Sending a legal step, over and over if need be, is a history, and leaves the old members or the sent ones. */
  lemma {:induction false} SendFollows(plan: Plan, env: Env, w: World, ctx: nat, kind: Kind, cfg: Config,
                                       deadline: nat, base: seq<Member>)
    requires Follows(plan, w) && Legal(plan, w.log, kind, base, cfg.members)
    requires w.config.members == base || w.config.members == cfg.members
    ensures var s := Send(env, w, ctx, kind, cfg, deadline);
            && Follows(plan, s.world)
            && w.log <= s.world.log
            && (s.world.config.members == base || s.world.config.members == cfg.members)
            && (s.value.None? ==> s.world.config.members == cfg.members)
    decreases if w.clock <= deadline then deadline - w.clock + 1 else 0
  {
    hide Legal, Reconfigure, History;
    var s := Reconfigure(env, w, kind, cfg, MaxTime(deadline, w.clock));
    AttemptFollows(plan, env, w, kind, cfg, MaxTime(deadline, w.clock), base);
    assert s.world.clock >= w.clock by { SendMovesOn(env, w, kind, cfg, MaxTime(deadline, w.clock)); }
    if s.value.Some? && Retryable(s.value.value) && s.world.clock <= deadline {
      var r := Refresh(env, s.world, cfg, s.value.value);
      if r.value.Answered? {
        var p := Pause(r.world, ctx, INIT_POLL);
        if !p.value {
          SendFollows(plan, env, p.world, ctx, kind, r.value.value, deadline, base);
        }
      }
    }
  }

  lemma SendMovesOn(env: Env, w: World, kind: Kind, cfg: Config, maxTime: nat)
    ensures Reconfigure(env, w, kind, cfg, maxTime).world.clock >= w.clock
  {
  }

  // ------------------------------------------------------ removing, promoting

  lemma {:induction false} WithoutAbsent(members: seq<Member>, host: string)
    requires At(members, host) < 0
    ensures Without(members, host) == members
  {
    if members != [] {
      WithoutAbsent(members[..|members| - 1], host);
    }
  }

  lemma {:induction false} WithoutLast(base: seq<Member>, x: Member)
    requires At(base, x.host) < 0
    ensures Without(base + [x], x.host) == base
  {
    WithoutAbsent(base, x.host);
    assert (base + [x])[..|base|] == base;
  }

  lemma {:induction false} RemoveAbsent(plan: Plan, env: Env, w: World, ctx: nat, host: string, timeout: nat)
    requires Follows(plan, w) && At(w.config.members, host) < 0
    ensures var s := RemoveMember(env, w, ctx, host, timeout);
            && Follows(plan, s.world) && s.world.config.members == w.config.members
            && (s.value.NothingToRemove? || s.value.RemovalFailed?)
  {
    WithoutAbsent(w.config.members, host);
    hide Send, History, Without, At;
    QuietFollows(plan, w, GetConfig(env, w).world);
  }

  /** Removing a host that is there sends the members without it. */
  lemma {:induction false} RemovalSends(env: Env, w: World, ctx: nat, host: string, timeout: nat, kept: seq<Member>)
    requires Without(w.config.members, host) == kept && |kept| != |w.config.members|
    requires GetConfig(env, w).value.Answered?
    ensures var g := GetConfig(env, w);
            var cfg := g.value.value;
            var s := Send(env, g.world, ctx, Rollback(host), cfg.(members := kept, version := cfg.version + 1),
                          g.world.clock + timeout);
            RemoveMember(env, w, ctx, host, timeout)
            == Step(s.world, if s.value.None? then Removed else RemovalFailed)
  {
    hide Send, Without;
  }

  /** Removing a host that is there leaves the members met or the members without it, and the latter on success. */
  lemma {:induction false} RemoveFollows(plan: Plan, env: Env, w: World, ctx: nat, host: string, timeout: nat,
                                         kept: seq<Member>)
    requires Follows(plan, w) && Legal(plan, w.log, Rollback(host), w.config.members, kept)
    requires Without(w.config.members, host) == kept && |kept| != |w.config.members|
    ensures var s := RemoveMember(env, w, ctx, host, timeout);
            && Follows(plan, s.world)
            && (s.world.config.members == kept || s.world.config.members == w.config.members)
            && !s.value.NothingToRemove?
            && (s.value.Removed? ==> s.world.config.members == kept)
  {
    hide Legal, Send, History, Without;
    var g := GetConfig(env, w);
    QuietFollows(plan, w, g.world);
    if g.value.Answered? {
      var cfg := g.value.value;
      assert cfg.members == w.config.members && g.world.config.members == w.config.members && g.world.log == w.log;
      RemovalSends(env, w, ctx, host, timeout, kept);
      hide RemoveMember, GetConfig;
      SendFollows(plan, env, g.world, ctx, Rollback(host), cfg.(members := kept, version := cfg.version + 1),
                  g.world.clock + timeout, w.config.members);
    }
  }

  /** Undoing an add takes out the member just added, or nothing. */
  lemma {:induction false} RemoveUndoesAdd(plan: Plan, env: Env, w: World, ctx: nat, timeout: nat,
                                           base: seq<Member>, x: Member)
    requires Follows(plan, w)
    requires At(base, x.host) < 0 && Legal(plan, w.log, Rollback(x.host), base + [x], base)
    requires w.config.members == base || w.config.members == base + [x]
    ensures var s := RemoveMember(env, w, ctx, x.host, timeout);
            && Follows(plan, s.world)
            && (s.world.config.members == base || s.world.config.members == w.config.members)
            && (s.value.Removed? || s.value.NothingToRemove? ==> s.world.config.members == base)
            && (s.value.NothingToRemove? ==> w.config.members == base)
            && (s.value.Removed? ==> w.config.members == base + [x])
  {
    if w.config.members == base {
      RemoveAbsent(plan, env, w, ctx, x.host, timeout);
    } else {
      WithoutLast(base, x);
      hide RemoveMember, Legal, History, Without, At;
      RemoveFollows(plan, env, w, ctx, x.host, timeout, base);
    }
  }

  ghost predicate Granted(m: Member, b: Block) {
    Votes(m) == b.votes && m.priority == b.priority
  }

  lemma {:induction false} PromoteIsLegal(plan: Plan, seen: seq<Event>, live: seq<Member>, b: Block)
    requires Sound(plan, live) && FirstAt(live, b.host) >= 0
    requires b in plan.blocks && NeedsPromotion(b) && ShownSynced(seen, b.host)
    ensures FirstAt(live, b.host) == At(live, b.host)
    ensures Legal(plan, seen, Promote(b), live,
                  live[At(live, b.host) := Promoted(live[At(live, b.host)], b)])
  {
    AtIsUnique(live, FirstAt(live, b.host));
  }

  /** Promoting a member that was shown synced changes its votes and priority, to the block's on success. */
  lemma {:induction false} PromoteFollows(plan: Plan, env: Env, w: World, ctx: nat, b: Block, timeout: nat)
    requires WellFormed(plan) && Follows(plan, w)
    requires b in plan.blocks && NeedsPromotion(b) && ShownSynced(w.log, b.host)
    ensures var s := PromoteMember(env, w, ctx, b, timeout);
            var k := At(w.config.members, b.host);
            && Follows(plan, s.world)
            && (|| s.world.config.members == w.config.members
                || (k >= 0 && s.world.config.members
                              == w.config.members[k := Promoted(w.config.members[k], b)]))
            && (s.value.None? ==> k >= 0 && Granted(s.world.config.members[k], b))
  {
    hide Send, History, Legal, Sound;
    var g := GetConfig(env, w);
    QuietFollows(plan, w, g.world);
    HistoryIsSound(plan, w.log, w.config.members);
    if g.value.Answered? {
      var cfg := g.value.value;
      var k := FirstAt(cfg.members, b.host);
      if k >= 0 {
        PromoteIsLegal(plan, g.world.log, cfg.members, b);
        var sent := cfg.(members := cfg.members[k := Promoted(cfg.members[k], b)], version := cfg.version + 1);
        SendFollows(plan, env, g.world, ctx, Promote(b), sent, g.world.clock + timeout, cfg.members);
      }
    }
  }

  // ------------------------------------------------------ settling a member

  /** A wait sends nothing; meeting the SECONDARY target leaves the proof of it in the log. */
  lemma {:induction false} AwaitFollows(plan: Plan, env: Env, w: World, ctx: nat, b: Block, timeout: nat)
    requires Follows(plan, w)
    ensures var a := AwaitMember(env, w, ctx, b, timeout);
            && Follows(plan, a.world) && Quiet(w, a.world)
            && (a.value.result.met ==> !a.value.cancelled)
            && (a.value.result.met && NeedsPromotion(b) ==> ShownSynced(a.world.log, b.host))
  {
    AwaitSumsUp(env, w, ctx, b.host, WaitTargetFor(b), w.clock + timeout, INIT_POLL, NOTHING_SEEN);
    var a := AwaitMember(env, w, ctx, b, timeout);
    QuietFollows(plan, w, a.world);
    if a.value.result.met && NeedsPromotion(b) {
      var i := |a.world.log| - 1;
      MetShowsSynced(a.world.log[i].rows, b.host);
    }
  }

  lemma {:induction false} SettleLive(plan: Plan, env: Env, w: World, ctx: nat, b: Block, timeout: nat)
    requires WellFormed(plan) && Follows(plan, w) && b in plan.blocks
    ensures var s := Settle(env, w, ctx, b, timeout, false);
            var k := At(w.config.members, b.host);
            && Follows(plan, s.world)
            && (|| s.world.config.members == w.config.members
                || (k >= 0 && NeedsPromotion(b)
                    && s.world.config.members == w.config.members[k := Promoted(w.config.members[k], b)]))
            && (s.value.Done? && NeedsPromotion(b) ==> k >= 0 && Granted(s.world.config.members[k], b))
            && (s.value.StillSyncing? ==>
                  && s.world.config.members == w.config.members
                  && NeedsPromotion(b) && s.value.pending == PendingFor(b, timeout))
  {
    AwaitFollows(plan, env, w, ctx, b, timeout);
    var a := AwaitMember(env, w, ctx, b, timeout);
    if a.value.result.met && NeedsPromotion(b) {
      PromoteFollows(plan, env, a.world, ctx, b, timeout);
    }
  }

  /** How one add may end: the member finished, staged and pending, or not there; and which, if it did not fail. */
  ghost predicate AddEnds(base: seq<Member>, b: Block, timeout: nat, after: seq<Member>, end: Settlement) {
    var staged, built := base + [Staged(b, NextId(base))], base + [Build(b, NextId(base))];
    && (after == base || after == staged || after == built)
    && (end.Done? ==> after == built)
    && (end.StillSyncing? ==> after == staged && NeedsPromotion(b) && end.pending == PendingFor(b, timeout))
  }

  /** A promotion completes a staged member, and one that needs none is complete as staged. */
  lemma StagedBecomes(b: Block, id: int)
    ensures Staged(b, id).host == b.host && Staged(b, id).id == id
    ensures if NeedsPromotion(b) then Promoted(Staged(b, id), b) == Build(b, id) else Staged(b, id) == Build(b, id)
    ensures NeedsPromotion(b) ==> !Granted(Staged(b, id), b)
  {
  }

  /** What follows a successful staging: the member is granted, left staged, or taken out again. */
  lemma {:induction false} SettleAdded(plan: Plan, env: Env, w: World, ctx: nat, b: Block, timeout: nat,
                                       base: seq<Member>)
    requires WellFormed(plan) && Follows(plan, w)
    requires Missing(base, plan.blocks) != [] && Missing(base, plan.blocks)[0] == b && At(plan.start, b.host) < 0
    requires w.config.members == base + [Staged(b, NextId(base))]
    ensures var s := Settle(env, w, ctx, b, timeout, true);
            Follows(plan, s.world) && AddEnds(base, b, timeout, s.world.config.members, s.value)
  {
    AwaitFollows(plan, env, w, ctx, b, timeout);
    var a := AwaitMember(env, w, ctx, b, timeout);
    assert a.world.config.members == w.config.members;
    hide *;
    if a.value.result.met {
      SettleMet(plan, env, w, ctx, b, timeout, base);
    } else {
      SettleUnmet(plan, env, w, ctx, b, timeout, base);
    }
  }

  lemma {:induction false} SettleMet(plan: Plan, env: Env, w: World, ctx: nat, b: Block, timeout: nat,
                                     base: seq<Member>)
    requires WellFormed(plan)
    requires Missing(base, plan.blocks) != [] && Missing(base, plan.blocks)[0] == b
    requires var a := AwaitMember(env, w, ctx, b, timeout);
             && Follows(plan, a.world) && a.world.config.members == base + [Staged(b, NextId(base))]
             && a.value.result.met && !a.value.cancelled && (NeedsPromotion(b) ==> ShownSynced(a.world.log, b.host))
    ensures var s := Settle(env, w, ctx, b, timeout, true);
            Follows(plan, s.world) && AddEnds(base, b, timeout, s.world.config.members, s.value)
  {
    SettleMetIs(env, w, ctx, b, timeout);
    StagedBecomes(b, NextId(base));
    PartitionSplits(base, plan.blocks, b);
    hide Settle, AwaitMember, PromoteMember, Missing, Staged, Build, NextId, NeedsPromotion, WellFormed, Follows, Granted,
         ShownSynced, At, Promoted;
    if NeedsPromotion(b) {
      PromotingTheAdded(plan, env, AwaitMember(env, w, ctx, b, timeout).world, ctx, b, timeout, base);
    }
  }

  lemma {:induction false} SettleUnmet(plan: Plan, env: Env, w: World, ctx: nat, b: Block, timeout: nat,
                                       base: seq<Member>)
    requires Missing(base, plan.blocks) != [] && Missing(base, plan.blocks)[0] == b && At(plan.start, b.host) < 0
    requires var a := AwaitMember(env, w, ctx, b, timeout);
             && Follows(plan, a.world) && a.world.config.members == base + [Staged(b, NextId(base))]
             && !a.value.result.met
    ensures var s := Settle(env, w, ctx, b, timeout, true);
            Follows(plan, s.world) && AddEnds(base, b, timeout, s.world.config.members, s.value)
  {
    var at := SettleUnmetIs(env, w, ctx, b, timeout);
    var a, x := AwaitMember(env, w, ctx, b, timeout).world, Staged(b, NextId(base));
    StagedBecomes(b, NextId(base));
    PartitionSplits(base, plan.blocks, b);
    RollbackIsLegal(plan, a.log, base, b);
    hide Settle, AwaitMember, RemoveMember, Missing, Staged, Build, NextId, NeedsPromotion, Follows, At, Legal;
    RemoveUndoesAdd(plan, env, a, at, timeout, base, x);
  }

  lemma {:induction false} PromotingTheAdded(plan: Plan, env: Env, w: World, ctx: nat, b: Block, timeout: nat,
                                             base: seq<Member>)
    requires WellFormed(plan) && Follows(plan, w)
    requires b in plan.blocks && NeedsPromotion(b) && ShownSynced(w.log, b.host)
    requires w.config.members == base + [Staged(b, NextId(base))]
    ensures var s := PromoteMember(env, w, ctx, b, timeout);
            && Follows(plan, s.world)
            && (s.world.config.members == w.config.members || s.world.config.members == base + [Build(b, NextId(base))])
            && (s.value.None? ==> s.world.config.members == base + [Build(b, NextId(base))])
  {
    var x, live := Staged(b, NextId(base)), w.config.members;
    AtAppended(base, x, b.host);
    StagedBecomes(b, x.id);
    PromoteFollows(plan, env, w, ctx, b, timeout);
    hide *;
    assert At(live, b.host) == |base| && live[|base|] == x;
    assert live[|base| := Promoted(x, b)] == base + [Promoted(x, b)];
  }

  /** A wait that met its target is followed by the promotion, if one is due. */
  lemma {:induction false} SettleMetIs(env: Env, w: World, ctx: nat, b: Block, timeout: nat)
    requires var a := AwaitMember(env, w, ctx, b, timeout).value; a.result.met && !a.cancelled
    ensures var a, s := AwaitMember(env, w, ctx, b, timeout), Settle(env, w, ctx, b, timeout, true);
            if !NeedsPromotion(b) then s == Step(a.world, Done)
            else
              var p := PromoteMember(env, a.world, ctx, b, timeout);
              s.world == p.world && !s.value.StillSyncing? && (s.value.Done? <==> p.value.None?)
  {
    hide AwaitMember, RemoveMember, PromoteMember, NeedsPromotion;
  }

  /** A wait that did not is followed by a rollback, in its own or in a fresh context, or by nothing. */
  lemma {:induction false} SettleUnmetIs(env: Env, w: World, ctx: nat, b: Block, timeout: nat) returns (at: nat)
    requires !AwaitMember(env, w, ctx, b, timeout).value.result.met
    ensures var a, s := AwaitMember(env, w, ctx, b, timeout), Settle(env, w, ctx, b, timeout, true);
            && !s.value.Done?
            && (s.world == a.world || s.world == RemoveMember(env, a.world, at, b.host, timeout).world)
            && (s.value.StillSyncing? ==>
                  s.world == a.world && NeedsPromotion(b) && s.value.pending == PendingFor(b, timeout))
  {
    hide AwaitMember, RemoveMember, PromoteMember, NeedsPromotion;
    var a := AwaitMember(env, w, ctx, b, timeout);
    at := if a.value.cancelled then a.world.clock + ROLLBACK_GRACE else ctx;
  }

  lemma {:induction false} RollbackIsLegal(plan: Plan, seen: seq<Event>, base: seq<Member>, b: Block)
    requires Missing(base, plan.blocks) != [] && Missing(base, plan.blocks)[0] == b && At(plan.start, b.host) < 0
    ensures Legal(plan, seen, Rollback(b.host), base + [Staged(b, NextId(base))], base)
  {
  }

  // ------------------------------------------------------ adding one member

  lemma {:induction false} AddFollows(plan: Plan, env: Env, w: World, ctx: nat, b: Block, timeout: nat)
    requires WellFormed(plan) && Follows(plan, w)
    requires Missing(w.config.members, plan.blocks) != [] && Missing(w.config.members, plan.blocks)[0] == b
    ensures var s := AddMember(env, w, ctx, b, timeout);
            Follows(plan, s.world) && AddEnds(w.config.members, b, timeout, s.world.config.members, s.value)
  {
    hide Legal, Sound, History, Settle, RemoveMember, Send;
    var base := w.config.members;
    var g := GetConfig(env, w);
    QuietFollows(plan, w, g.world);
    NotLiveNotStart(plan, w, b);
    if g.value.Answered? {
      var cfg := g.value.value;
      var x := Staged(b, NextId(base));
      var sent := cfg.(members := base + [x], version := cfg.version + 1);
      StageIsLegal(plan, g.world.log, base, b);
      SendFollows(plan, env, g.world, ctx, Stage(b), sent, g.world.clock + timeout, base);
      var s := Send(env, g.world, ctx, Stage(b), sent, g.world.clock + timeout);
      if s.value.Some? {
        RollbackIsLegal(plan, s.world.log, base, b);
        RemoveUndoesAdd(plan, env, s.world, ctx, timeout, base, x);
      } else {
        SettleAdded(plan, env, s.world, ctx, b, timeout, base);
      }
    }
  }

  lemma {:induction false} StageIsLegal(plan: Plan, seen: seq<Event>, live: seq<Member>, b: Block)
    requires Missing(live, plan.blocks) != [] && Missing(live, plan.blocks)[0] == b
    ensures Legal(plan, seen, Stage(b), live, live + [Staged(b, NextId(live))])
  {
  }

  /** A block missing from the live members was not among the start's either: nothing else is ever removed. */
  lemma {:induction false} NotLiveNotStart(plan: Plan, w: World, b: Block)
    requires WellFormed(plan) && Follows(plan, w)
    requires b in Missing(w.config.members, plan.blocks)
    ensures At(plan.start, b.host) < 0 && At(w.config.members, b.host) < 0
  {
    HistoryIsSound(plan, w.log, w.config.members);
    PartitionSplits(w.config.members, plan.blocks, b);
    forall i | 0 <= i < |plan.start| ensures plan.start[i].host != b.host {
      assert w.config.members[i].host == plan.start[i].host;
    }
  }

  // ------------------------------------------------------ accounting

  /** b's votes and priority are live, or it raised nothing a promotion would carry out. */
  ghost predicate Has(before: seq<Member>, after: seq<Member>, b: Block) {
    var k := At(after, b.host);
    k >= 0 && (At(before, b.host) < 0 || NeedsPromotion(b) ==> Granted(after[k], b))
  }

  /** b's member is live with the votes and priority it had, none if it is new. */
  ghost predicate Waits(before: seq<Member>, after: seq<Member>, b: Block) {
    var j, k := At(before, b.host), At(after, b.host);
    k >= 0 && if j < 0 then Votes(after[k]) == 0 && after[k].priority == 0.0
              else Votes(after[k]) == Votes(before[j]) && after[k].priority == before[j].priority
  }

  /** Every block has what it asks for or is the next pending entry, in block order. */
  ghost predicate Accounted(todo: seq<Block>, pending: seq<Pending>, before: seq<Member>, after: seq<Member>,
                            timeout: nat)
    decreases todo
  {
    if todo == [] then pending == []
    else
      || (&& pending != [] && pending[0] == PendingFor(todo[0], timeout) && NeedsPromotion(todo[0])
          && Waits(before, after, todo[0])
          && Accounted(todo[1..], pending[1..], before, after, timeout))
      || (Has(before, after, todo[0]) && Accounted(todo[1..], pending, before, after, timeout))
  }

  lemma {:induction false} AccountedAll(todo: seq<Block>, before: seq<Member>, after: seq<Member>, timeout: nat,
                                        b: Block)
    requires Accounted(todo, [], before, after, timeout) && b in todo
    ensures Has(before, after, b)
    decreases todo
  {
    if b != todo[0] {
      AccountedAll(todo[1..], before, after, timeout, b);
    }
  }

  lemma {:induction false} AccountedTogether(todo: seq<Block>, more: seq<Block>, pending: seq<Pending>,
                                             rest: seq<Pending>, before: seq<Member>, after: seq<Member>, timeout: nat)
    requires Accounted(todo, pending, before, after, timeout) && Accounted(more, rest, before, after, timeout)
    ensures Accounted(todo + more, pending + rest, before, after, timeout)
    decreases todo
  {
    if todo == [] {
      assert todo + more == more && pending + rest == rest;
    } else {
      assert (todo + more)[1..] == todo[1..] + more;
      if pending != [] && pending[0] == PendingFor(todo[0], timeout) && NeedsPromotion(todo[0])
         && Waits(before, after, todo[0]) && Accounted(todo[1..], pending[1..], before, after, timeout)
      {
        AccountedTogether(todo[1..], more, pending[1..], rest, before, after, timeout);
        assert (pending + rest)[1..] == pending[1..] + rest;
      } else {
        AccountedTogether(todo[1..], more, pending, rest, before, after, timeout);
      }
    }
  }

  /** Members appended later take nothing away from what was accounted for. */
  lemma {:induction false} AccountedStays(todo: seq<Block>, pending: seq<Pending>, before: seq<Member>,
                                          after: seq<Member>, after': seq<Member>, timeout: nat)
    requires Accounted(todo, pending, before, after, timeout)
    requires after <= after' && DistinctHosts(after')
    ensures Accounted(todo, pending, before, after', timeout)
    decreases todo
  {
    if todo != [] {
      var k := At(after, todo[0].host);
      if k >= 0 {
        assert after'[k] == after[k];
        AtIsUnique(after', k);
      }
      if pending != [] && pending[0] == PendingFor(todo[0], timeout) && NeedsPromotion(todo[0])
         && Waits(before, after, todo[0]) && Accounted(todo[1..], pending[1..], before, after, timeout)
      {
        AccountedStays(todo[1..], pending[1..], before, after, after', timeout);
      } else {
        AccountedStays(todo[1..], pending, before, after, after', timeout);
      }
    }
  }
}
