/**
 * The member phase of an apply: promoting live members, then adding missing
 * ones, one reconfig per step, each step followed by its wait, with the
 * rollback of an add that never answered. These functions are the
 * specification of the methods in module ShardMembers.
 */
module Reconciliation {
  import opened Wrappers
  import opened ReplicaSet
  import opened MemberPlan
  import opened Server
  import opened Timing
  import opened ReconfigRetry
  import opened MemberWait

  const ROLLBACK_GRACE := 30000

  /** A member left a non-voter because it had not reached its state in time. */
  datatype Pending = Pending(host: string, target: WaitTarget, votes: int, priority: real, timeout: nat)

  function PendingFor(b: Block, timeout: nat): Pending {
    Pending(b.host, WaitTargetFor(b), b.votes, b.priority, timeout)
  }

  datatype Removal = NotTried | Removed | NothingToRemove | RemovalFailed

  datatype MemberError =
    | ReadBeforeAdd(host: string)
    | AddFailed(host: string, removal: Removal)
    | WaitInterrupted(host: string, removal: Removal)
    | StatusUnread(host: string)
    | NeverReachable(host: string, removal: Removal)
    | TargetMissed(host: string)
    | ReadBeforePromote(host: string)
    | NoLongerMember(host: string)
    | PromoteFailed(host: string)

  datatype Settlement = Done | StillSyncing(pending: Pending) | Failed(error: MemberError)

  datatype PhaseEnd = PhaseEnd(pending: seq<Pending>, error: Option<MemberError>)

  function Without(members: seq<Member>, host: string): seq<Member> {
    if members == [] then []
    else Without(members[..|members| - 1], host)
         + (if members[|members| - 1].host != host then [members[|members| - 1]] else [])
  }

  function RemoveMember(env: Env, w: World, ctx: nat, host: string, timeout: nat): Step<Removal> {
    var g := GetConfig(env, w);
    if g.value.Errored? then Step(g.world, RemovalFailed)
    else
      var cfg := g.value.value;
      var kept := Without(cfg.members, host);
      if |kept| == |cfg.members| then Step(g.world, NothingToRemove)
      else
        var s := Send(env, g.world, ctx, Rollback(host), cfg.(members := kept, version := cfg.version + 1),
                      g.world.clock + timeout);
        Step(s.world, if s.value.None? then Removed else RemovalFailed)
  }

  function PromoteMember(env: Env, w: World, ctx: nat, b: Block, timeout: nat): Step<Option<MemberError>> {
    var g := GetConfig(env, w);
    if g.value.Errored? then Step(g.world, Some(ReadBeforePromote(b.host)))
    else
      var cfg := g.value.value;
      var k := FirstAt(cfg.members, b.host);
      if k < 0 then Step(g.world, Some(NoLongerMember(b.host)))
      else if cfg.members[k].priority == b.priority && Votes(cfg.members[k]) == b.votes then Step(g.world, None)
      else
        var s := Send(env, g.world, ctx, Promote(b),
                      cfg.(members := cfg.members[k := Promoted(cfg.members[k], b)], version := cfg.version + 1),
                      g.world.clock + timeout);
        Step(s.world, if s.value.None? then None else Some(PromoteFailed(b.host)))
  }

  function AwaitMember(env: Env, w: World, ctx: nat, b: Block, timeout: nat): Step<WaitEnd> {
    Await(env, w, ctx, b.host, WaitTargetFor(b), w.clock + timeout, INIT_POLL, NOTHING_SEEN)
  }

  function Settle(env: Env, w: World, ctx: nat, b: Block, timeout: nat, addedNow: bool): Step<Settlement> {
    var a := AwaitMember(env, w, ctx, b, timeout);
    var r := a.value.result;
    var neverSeenUp := r.observed && !r.everReachable;
    if a.value.cancelled then
      if addedNow && neverSeenUp then
        var rm := RemoveMember(env, a.world, a.world.clock + ROLLBACK_GRACE, b.host, timeout);
        Step(rm.world, Failed(WaitInterrupted(b.host, rm.value)))
      else Step(a.world, Failed(WaitInterrupted(b.host, NotTried)))
    else if !r.met then
      if !r.observed then Step(a.world, Failed(StatusUnread(b.host)))
      else if neverSeenUp && addedNow then
        var rm := RemoveMember(env, a.world, ctx, b.host, timeout);
        Step(rm.world, Failed(NeverReachable(b.host, rm.value)))
      else if neverSeenUp then Step(a.world, Failed(NeverReachable(b.host, NotTried)))
      else if NeedsPromotion(b) then Step(a.world, StillSyncing(PendingFor(b, timeout)))
      else Step(a.world, Failed(TargetMissed(b.host)))
    else if !NeedsPromotion(b) then Step(a.world, Done)
    else
      var p := PromoteMember(env, a.world, ctx, b, timeout);
      Step(p.world, if p.value.None? then Done else Failed(p.value.value))
  }

  function AddMember(env: Env, w: World, ctx: nat, b: Block, timeout: nat): Step<Settlement> {
    var g := GetConfig(env, w);
    if g.value.Errored? then Step(g.world, Failed(ReadBeforeAdd(b.host)))
    else
      var cfg := g.value.value;
      var s := Send(env, g.world, ctx, Stage(b),
                    cfg.(members := cfg.members + [Staged(b, NextId(cfg.members))], version := cfg.version + 1),
                    g.world.clock + timeout);
      if s.value.Some? then
        var rm := RemoveMember(env, s.world, ctx, b.host, timeout);
        Step(rm.world, Failed(AddFailed(b.host, rm.value)))
      else Settle(env, s.world, ctx, b, timeout, true)
  }

  /** The end of a loop over blocks whose first step ended so and whose rest, run after it, ended in rest. */
  function Then(first: Settlement, rest: PhaseEnd): PhaseEnd {
    match first
    case Failed(e) => PhaseEnd([], Some(e))
    case StillSyncing(p) => PhaseEnd([p] + rest.pending, rest.error)
    case Done => rest
  }

  function AddMembers(env: Env, w: World, ctx: nat, todo: seq<Block>, timeout: nat): Step<PhaseEnd>
    decreases todo
  {
    if todo == [] then Step(w, PhaseEnd([], None))
    else
      var s := AddMember(env, w, ctx, todo[0], timeout);
      if s.value.Failed? then Step(s.world, PhaseEnd([], Some(s.value.error)))
      else
        var rest := AddMembers(env, s.world, ctx, todo[1..], timeout);
        Step(rest.world, Then(s.value, rest.value))
  }

  function PromoteMembers(env: Env, w: World, ctx: nat, todo: seq<Block>, timeout: nat): Step<PhaseEnd>
    decreases todo
  {
    if todo == [] then Step(w, PhaseEnd([], None))
    else
      var s := Settle(env, w, ctx, todo[0], timeout, false);
      if s.value.Failed? then Step(s.world, PhaseEnd([], Some(s.value.error)))
      else
        var rest := PromoteMembers(env, s.world, ctx, todo[1..], timeout);
        Step(rest.world, Then(s.value, rest.value))
  }

  function Reconcile(env: Env, w: World, ctx: nat, promotions: seq<Block>, adds: seq<Block>, timeout: nat)
    : Step<PhaseEnd>
  {
    var p := PromoteMembers(env, w, ctx, promotions, timeout);
    if p.value.error.Some? then p
    else
      var a := AddMembers(env, p.world, ctx, adds, timeout);
      Step(a.world, PhaseEnd(p.value.pending + a.value.pending, a.value.error))
  }
}
