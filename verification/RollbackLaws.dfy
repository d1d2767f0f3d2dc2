/**
 * What an add comes to, decided by what the statuses of its wait showed: a
 * member never seen up is taken out again, one still syncing stays, and
 * transient errors stand in the way of neither.
 */
module RollbackLaws {
  import opened Wrappers
  import opened ReplicaSet
  import opened MemberPlan
  import opened Server
  import opened Timing
  import opened ReconfigRetry
  import opened MemberWait
  import opened Reconciliation
  import opened ReconciliationLaws

  // ------------------------------------------------------ how settling ends

  /** Some status read between the two logs showed host up. */
  ghost predicate SeenUp(before: seq<Event>, after: seq<Event>, host: string) {
    exists i :: |before| <= i < |after| && after[i].Status? && RowMeets(after[i].rows, host, WaitReachable)
  }

  /** The block asks for votes or a priority an arbiter cannot have. */
  ghost predicate AsksForVotes(b: Block) {
    !b.arbiterOnly && !(b.votes == 0 && b.priority == 0.0)
  }

  /** What a wait for b has to show: ARBITER for an arbiter, SECONDARY before votes, else being up. */
  ghost function Goal(b: Block): WaitTarget {
    if b.arbiterOnly then WaitArbiter else if b.votes == 0 && b.priority == 0.0 then WaitReachable else WaitSecondary
  }

  /**
   * b's wait polls every half second until the timeout, and meets its goal
   * exactly when a poll that timeout and context allow shows it.
   */
  lemma {:induction false} MemberWaitExactlyWhen(env: Env, w: World, ctx: nat, b: Block, timeout: nat)
    ensures var a := AwaitMember(env, w, ctx, b, timeout);
            && (a.value.result.met
                <==> exists k: nat :: InReach(env, w, ctx, w.clock + timeout, 500, k) && Shows(env, w, b.host, Goal(b), k))
            && (!a.value.result.met ==> a.world.clock > w.clock + timeout || (a.value.cancelled && a.world.clock >= ctx))
  {
    assert WaitTargetFor(b) == Goal(b);
    hide Await, InReach, Shows, WaitTargetFor, Goal;
    AwaitMeetsExactlyWhen(env, w, ctx, b.host, WaitTargetFor(b), w.clock + timeout, 500);
  }

  /** The rollback's own time: what is left of the operation's, or 30 seconds once it was interrupted. */
  ghost function RollbackCtx(a: Step<WaitEnd>, ctx: nat): nat {
    if a.value.cancelled then a.world.clock + 30000 else ctx
  }

  /**
   * How settling ends, by what the statuses of the wait showed. A member added
   * just now that was read and never up is taken out again, in a context of
   * its own after an interruption; otherwise a wait that was not met sends
   * nothing, and only a member that asks for votes is left pending.
   */
  lemma {:induction false} SettleEndsExactlyWhen(env: Env, w: World, ctx: nat, b: Block, timeout: nat, addedNow: bool)
    requires !AwaitMember(env, w, ctx, b, timeout).value.result.met
    ensures var a, s := AwaitMember(env, w, ctx, b, timeout), Settle(env, w, ctx, b, timeout, addedNow);
            var read, up := |w.log| < |a.world.log|, SeenUp(w.log, a.world.log, b.host);
            var rm := RemoveMember(env, a.world, RollbackCtx(a, ctx), b.host, timeout);
            if addedNow && read && !up then
              && s.world == rm.world
              && s.value == Failed(if a.value.cancelled then WaitInterrupted(b.host, rm.value)
                                   else NeverReachable(b.host, rm.value))
            else
              && s.world == a.world
              && s.value == if a.value.cancelled then Failed(WaitInterrupted(b.host, NotTried))
                            else if !read then Failed(StatusUnread(b.host))
                            else if !up then Failed(NeverReachable(b.host, NotTried))
                            else if AsksForVotes(b) then StillSyncing(Pending(b.host, WaitSecondary, b.votes, b.priority, timeout))
                            else Failed(TargetMissed(b.host))
  {
    hide Await, RemoveMember, PromoteMember, RowUp, SeenUp, Observe, Quiet;
    var a := AwaitMember(env, w, ctx, b, timeout);
    AwaitSumsUp(env, w, ctx, b.host, WaitTargetFor(b), w.clock + timeout, INIT_POLL, NOTHING_SEEN);
    UpInLog(w.log, a.world.log, b.host);
  }

  lemma {:induction false} UpInLog(before: seq<Event>, after: seq<Event>, host: string)
    requires forall i | |before| <= i < |after| :: after[i].Status?
    ensures SeenUp(before, after, host) <==> exists i :: |before| <= i < |after| && RowUp(after[i].rows, host)
  {
    forall i | |before| <= i < |after|
      ensures RowUp(after[i].rows, host) <==> RowMeets(after[i].rows, host, WaitReachable)
    {
      ObservedExactlyWhen(after[i].rows, host, WaitReachable);
    }
    hide RowMeets, RowUp;
    if i :| |before| <= i < |after| && after[i].Status? && RowMeets(after[i].rows, host, WaitReachable) {
      assert RowUp(after[i].rows, host);
    }
  }

  // ------------------------------------------------------ the rollback itself

  /** The event is a reconfig that takes host out of live and leaves base. */
  ghost predicate TakesOut(e: Event, host: string, live: seq<Member>, base: seq<Member>) {
    && e.Reconfig? && e.kind == Rollback(host)
    && e.live.members == live && e.sent.members == base
  }

  /**
   * Taking out the member added last: once the configuration is read, the next
   * event is the reconfig without it; with bearable setbacks it is gone. A
   * host that is not there has nothing sent for it.
   */
  lemma {:induction false} RemovalTakesOut(env: Env, w: World, ctx: nat, timeout: nat, base: seq<Member>, x: Member,
                                           k: nat, d: nat)
    requires At(base, x.host) < 0 && env(w.calls).readError.None?
    requires w.config.members == base || w.config.members == base + [x]
    ensures var s := RemoveMember(env, w, ctx, x.host, timeout);
            if w.config.members == base then
              s.value.NothingToRemove? && s.world.log == w.log && s.world.config.members == base
            else
              && |w.log| < |s.world.log| && TakesOut(s.world.log[|w.log|], x.host, base + [x], base)
              && (Bearable(env, w, ctx, timeout, k, d) ==> s.value.Removed? && s.world.config.members == base)
  {
    hide *;
    if w.config.members == base {
      NothingToTakeOut(env, w, ctx, x.host, timeout);
    } else {
      WithoutLast(base, x);
      LongerByOne(base, x);
      HostIsTakenOut(env, w, ctx, x.host, timeout, base, k, d);
    }
  }

  lemma {:induction false} NothingToTakeOut(env: Env, w: World, ctx: nat, host: string, timeout: nat)
    requires At(w.config.members, host) < 0 && env(w.calls).readError.None?
    ensures var s := RemoveMember(env, w, ctx, host, timeout);
            s.value.NothingToRemove? && s.world.log == w.log && s.world.config.members == w.config.members
  {
    WithoutAbsent(w.config.members, host);
    hide At, Without, Send;
  }

  lemma {:induction false} HostIsTakenOut(env: Env, w: World, ctx: nat, host: string, timeout: nat, kept: seq<Member>,
                                          k: nat, d: nat)
    requires Without(w.config.members, host) == kept && |kept| != |w.config.members|
    requires env(w.calls).readError.None?
    ensures var s := RemoveMember(env, w, ctx, host, timeout);
            && |w.log| < |s.world.log| && TakesOut(s.world.log[|w.log|], host, w.config.members, kept)
            && (Bearable(env, w, ctx, timeout, k, d) ==> s.value.Removed? && s.world.config.members == kept)
  {
    hide *;
    ReadIs(env, w);
    RemovalSends(env, w, ctx, host, timeout, kept);
    var g := GetConfig(env, w);
    var sent := g.value.value.(members := kept, version := g.value.value.version + 1);
    RollbackIsSent(env, g.world, ctx, host, sent, g.world.clock + timeout, w.config.members);
    if Bearable(env, w, ctx, timeout, k, d) {
      ReadThenSend(env, w, ctx, Rollback(host), kept, timeout, k, d);
    }
  }

  lemma LongerByOne(base: seq<Member>, x: Member)
    ensures |base + [x]| != |base|
  {
  }

  lemma ReadIs(env: Env, w: World)
    requires env(w.calls).readError.None?
    ensures var g := GetConfig(env, w);
            && g.value.Answered? && g.world.log == w.log
            && g.value.value.members == w.config.members == g.world.config.members
  {
  }

  lemma {:induction false} RollbackIsSent(env: Env, w: World, ctx: nat, host: string, cfg: Config, deadline: nat,
                                          live: seq<Member>)
    requires w.config.members == live
    ensures var log := Send(env, w, ctx, Rollback(host), cfg, deadline).world.log;
            |w.log| < |log| && TakesOut(log[|w.log|], host, live, cfg.members)
  {
    SendBeginsWithAttempt(env, w, ctx, Rollback(host), cfg, deadline);
    OneAttempt(env, w, Rollback(host), cfg, MaxTime(deadline, w.clock));
    hide Send, Reconfigure;
  }

  // ------------------------------------------------------ adds that come to nothing

  /** The world in which an add has sent its member and waits for it, or for the reason it could not. */
  ghost function StagingSent(env: Env, w: World, ctx: nat, b: Block, timeout: nat): Step<Option<CallError>>
    requires env(w.calls).readError.None?
  {
    var g := GetConfig(env, w);
    var cfg := g.value.value;
    Send(env, g.world, ctx, Stage(b),
         cfg.(members := cfg.members + [Staged(b, NextId(cfg.members))], version := cfg.version + 1),
         g.world.clock + timeout)
  }

  lemma {:induction false} StagingIs(env: Env, w: World, ctx: nat, b: Block, timeout: nat)
    requires env(w.calls).readError.None?
    ensures var s := StagingSent(env, w, ctx, b, timeout);
            var staged := w.config.members + [Staged(b, NextId(w.config.members))];
            && (s.world.config.members == w.config.members || s.world.config.members == staged)
            && (s.value.None? ==> s.world.config.members == staged)
            && if s.value.None? then AddMember(env, w, ctx, b, timeout) == Settle(env, s.world, ctx, b, timeout, true)
               else
                 var rm := RemoveMember(env, s.world, ctx, b.host, timeout);
                 AddMember(env, w, ctx, b, timeout) == Step(rm.world, Failed(AddFailed(b.host, rm.value)))
  {
    hide Send, Settle, RemoveMember, Staged, NextId;
    ReadIs(env, w);
    var g := GetConfig(env, w);
    var cfg := g.value.value;
    var sent := cfg.(members := cfg.members + [Staged(b, NextId(cfg.members))], version := cfg.version + 1);
    assert StagingSent(env, w, ctx, b, timeout) == Send(env, g.world, ctx, Stage(b), sent, g.world.clock + timeout);
    StagingAdds(env, w, ctx, b, timeout);
    hide GetConfig, StagingSent;
    SendOnlyMovesVersion(env, g.world, ctx, Stage(b), sent, g.world.clock + timeout);
  }

  lemma {:induction false} StagingAdds(env: Env, w: World, ctx: nat, b: Block, timeout: nat)
    requires env(w.calls).readError.None?
    ensures var s := StagingSent(env, w, ctx, b, timeout);
            if s.value.None? then AddMember(env, w, ctx, b, timeout) == Settle(env, s.world, ctx, b, timeout, true)
            else
              var rm := RemoveMember(env, s.world, ctx, b.host, timeout);
              AddMember(env, w, ctx, b, timeout) == Step(rm.world, Failed(AddFailed(b.host, rm.value)))
  {
    hide Send, Settle, RemoveMember, Staged, NextId;
  }

  /** The event at position i is the rollback of b's add to base. */
  ghost predicate Undoes(base: seq<Member>, b: Block, log: seq<Event>, i: nat) {
    i < |log| && TakesOut(log[i], b.host, base + [Staged(b, NextId(base))], base)
  }

  /**
   * An add whose member was read and never seen up is undone: once the
   * configuration can be read, the event right after the wait is the reconfig
   * without the member, and with bearable setbacks the add leaves exactly the
   * members it met. That holds of an interrupted wait too, whose rollback has
   * 30 seconds of its own.
   */
  lemma {:induction false} DeadAddIsUndone(env: Env, w: World, ctx: nat, b: Block, timeout: nat, k: nat, d: nat)
    requires At(w.config.members, b.host) < 0
    requires env(w.calls).readError.None? && StagingSent(env, w, ctx, b, timeout).value.None?
    requires var staged := StagingSent(env, w, ctx, b, timeout).world;
             var a := AwaitMember(env, staged, ctx, b, timeout).world;
             && |staged.log| < |a.log| && !SeenUp(staged.log, a.log, b.host)
             && env(a.calls).readError.None?
    ensures var base, staged := w.config.members, StagingSent(env, w, ctx, b, timeout).world;
            var a := AwaitMember(env, staged, ctx, b, timeout);
            var s := AddMember(env, w, ctx, b, timeout);
            && a.world.log <= s.world.log && Undoes(base, b, s.world.log, |a.world.log|)
            && (Bearable(env, a.world, RollbackCtx(a, ctx), timeout, k, d) ==>
                  && s.world.config.members == base
                  && s.value == Failed(if a.value.cancelled then WaitInterrupted(b.host, Removed)
                                       else NeverReachable(b.host, Removed)))
  {
    var base := w.config.members;
    var x := Staged(b, NextId(base));
    assert x.host == b.host;
    var staged := StagingSent(env, w, ctx, b, timeout).world;
    var a := AwaitMember(env, staged, ctx, b, timeout);
    StagingIs(env, w, ctx, b, timeout);
    NeverUpIsUnmet(env, staged, ctx, b, timeout);
    RemoveOnlyAdds(env, a.world, RollbackCtx(a, ctx), b.host, timeout);
    hide *;
    SettleEndsExactlyWhen(env, staged, ctx, b, timeout, true);
    RemovalTakesOut(env, a.world, RollbackCtx(a, ctx), timeout, base, x, k, d);
    UndoesIs(base, b, AddMember(env, w, ctx, b, timeout).world.log, |a.world.log|);
  }

  lemma UndoesIs(base: seq<Member>, b: Block, log: seq<Event>, i: nat)
    ensures Undoes(base, b, log, i)
            <==> i < |log| && TakesOut(log[i], b.host, base + [Staged(b, NextId(base))], base)
  {
  }

  lemma {:induction false} RemoveOnlyAdds(env: Env, w: World, ctx: nat, host: string, timeout: nat)
    ensures w.log <= RemoveMember(env, w, ctx, host, timeout).world.log
  {
    hide Send, Without;
    var g := GetConfig(env, w);
    if g.value.Answered? {
      var cfg := g.value.value;
      SendOnlyMovesVersion(env, g.world, ctx, Rollback(host),
                           cfg.(members := Without(cfg.members, host), version := cfg.version + 1),
                           g.world.clock + timeout);
    }
  }

  /** A wait that never showed its host up did not meet its goal, and changed no member. */
  lemma {:induction false} NeverUpIsUnmet(env: Env, w: World, ctx: nat, b: Block, timeout: nat)
    requires !SeenUp(w.log, AwaitMember(env, w, ctx, b, timeout).world.log, b.host)
    ensures var a := AwaitMember(env, w, ctx, b, timeout);
            !a.value.result.met && a.world.config.members == w.config.members && w.log <= a.world.log
  {
    var a := AwaitMember(env, w, ctx, b, timeout);
    AwaitSumsUp(env, w, ctx, b.host, WaitTargetFor(b), w.clock + timeout, INIT_POLL, NOTHING_SEEN);
    UpInLog(w.log, a.world.log, b.host);
    hide Await, RowUp, SeenUp;
  }

  /**
   * A staging that failed but was installed is undone the same way; one that
   * was not has nothing sent for it. Either way the add failed.
   */
  lemma {:induction false} FailedStagingIsUndone(env: Env, w: World, ctx: nat, b: Block, timeout: nat, k: nat, d: nat)
    requires At(w.config.members, b.host) < 0
    requires env(w.calls).readError.None? && StagingSent(env, w, ctx, b, timeout).value.Some?
    requires env(StagingSent(env, w, ctx, b, timeout).world.calls).readError.None?
    ensures var base, staged := w.config.members, StagingSent(env, w, ctx, b, timeout).world;
            var s := AddMember(env, w, ctx, b, timeout);
            && s.value.Failed? && s.value.error.AddFailed?
            && if staged.config.members == base then
                 s.world.log == staged.log && s.world.config.members == base
                 && s.value.error == AddFailed(b.host, NothingToRemove)
               else
                 && Undoes(base, b, s.world.log, |staged.log|)
                 && (Bearable(env, staged, ctx, timeout, k, d) ==>
                       s.world.config.members == base && s.value.error == AddFailed(b.host, Removed))
  {
    var base := w.config.members;
    var x := Staged(b, NextId(base));
    assert x.host == b.host;
    StagingIs(env, w, ctx, b, timeout);
    var staged := StagingSent(env, w, ctx, b, timeout).world;
    hide *;
    RemovalTakesOut(env, staged, ctx, timeout, base, x, k, d);
    UndoesIs(base, b, AddMember(env, w, ctx, b, timeout).world.log, |staged.log|);
  }

  // ------------------------------------------------------ steps that go through

  /** A staging goes through bearable setbacks. */
  lemma {:induction false} StagingOutlastsSetbacks(env: Env, w: World, ctx: nat, b: Block, timeout: nat, k: nat, d: nat)
    requires Bearable(env, w, ctx, timeout, k, d)
    ensures var s := StagingSent(env, w, ctx, b, timeout);
            s.value.None? && s.world.config.members == w.config.members + [Staged(b, NextId(w.config.members))]
  {
    hide Send, Staged, NextId;
    ReadThenSend(env, w, ctx, Stage(b), w.config.members + [Staged(b, NextId(w.config.members))], timeout, k, d);
  }

  /** And so does a promotion, which gives the named member its block's votes and priority. */
  lemma {:induction false} PromotionOutlastsSetbacks(env: Env, w: World, ctx: nat, b: Block, timeout: nat, k: nat,
                                                     d: nat)
    requires Bearable(env, w, ctx, timeout, k, d)
    requires DistinctHosts(w.config.members) && At(w.config.members, b.host) >= 0
    ensures var s, i := PromoteMember(env, w, ctx, b, timeout), At(w.config.members, b.host);
            && s.value.None? && |s.world.config.members| == |w.config.members|
            && Granted(s.world.config.members[i], b)
            && forall j | 0 <= j < |w.config.members| && j != i :: s.world.config.members[j] == w.config.members[j]
  {
    var live, i := w.config.members, At(w.config.members, b.host);
    BearableReads(env, w, ctx, timeout, k, d);
    hide *;
    PromotionIs(env, w, ctx, b, timeout);
    ReadIs(env, w);
    PromotedIsGranted(live[i], b);
    if !Granted(live[i], b) {
      ReadThenSend(env, w, ctx, Promote(b), live[i := Promoted(live[i], b)], timeout, k, d);
    }
  }

  lemma {:induction false} PromotionIs(env: Env, w: World, ctx: nat, b: Block, timeout: nat)
    requires env(w.calls).readError.None?
    requires DistinctHosts(w.config.members) && At(w.config.members, b.host) >= 0
    ensures var live, i, g := w.config.members, At(w.config.members, b.host), GetConfig(env, w);
            var sent := g.value.value.(members := live[i := Promoted(live[i], b)], version := g.value.value.version + 1);
            var s := Send(env, g.world, ctx, Promote(b), sent, g.world.clock + timeout);
            PromoteMember(env, w, ctx, b, timeout)
            == if Granted(live[i], b) then Step(g.world, None)
               else Step(s.world, if s.value.None? then None else Some(PromoteFailed(b.host)))
  {
    hide Send, At, FirstAt, Promoted, DistinctHosts;
    AtIsUnique(w.config.members, At(w.config.members, b.host));
  }

  lemma PromotedIsGranted(m: Member, b: Block)
    ensures Granted(Promoted(m, b), b)
  {
  }

  /**
   * A promotion is sent exactly when the configuration is read and lists the
   * host with other votes or another priority than its block's; it then is the
   * next event, and changes those two of that member alone.
   */
  lemma {:induction false} PromotionSentExactlyWhen(env: Env, w: World, ctx: nat, b: Block, timeout: nat)
    requires DistinctHosts(w.config.members)
    ensures var s, i := PromoteMember(env, w, ctx, b, timeout), At(w.config.members, b.host);
            var due := env(w.calls).readError.None? && i >= 0 && !Granted(w.config.members[i], b);
            && w.log <= s.world.log && (|w.log| < |s.world.log| <==> due)
            && (due ==>
                  var e := s.world.log[|w.log|];
                  e.Reconfig? && e.kind == Promote(b)
                  && e.sent.members
                     == w.config.members[i := w.config.members[i].(votes := Some(b.votes), priority := b.priority)])
            && (!due ==> s.value == if env(w.calls).readError.Some? then Some(ReadBeforePromote(b.host))
                                    else if i < 0 then Some(NoLongerMember(b.host))
                                    else None)
  {
    hide Send, Reconfigure;
    var g, i := GetConfig(env, w), At(w.config.members, b.host);
    if i >= 0 {
      AtIsUnique(w.config.members, i);
    }
    if g.value.Answered? && i >= 0 && !Granted(w.config.members[i], b) {
      var cfg := g.value.value;
      var sent := cfg.(members := cfg.members[i := Promoted(cfg.members[i], b)], version := cfg.version + 1);
      hide At, FirstAt;
      SendBeginsWithAttempt(env, g.world, ctx, Promote(b), sent, g.world.clock + timeout);
      OneAttempt(env, g.world, Promote(b), sent, MaxTime(g.world.clock + timeout, g.world.clock));
    }
  }

  lemma BearableReads(env: Env, w: World, ctx: nat, timeout: nat, k: nat, d: nat)
    requires Bearable(env, w, ctx, timeout, k, d)
    ensures env(w.calls).readError.None?
  {
  }
}
