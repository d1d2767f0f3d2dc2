/**
 * The reconciliation protocol as a state machine. A History is a log in which
 * every reconfig is one of four legal steps from the members it met. What a
 * legal history keeps is proved here once; that every apply, whatever the
 * server does, leaves a legal history is proved where the apply is defined.
 */
module Protocol {
  import opened Wrappers
  import opened ReplicaSet
  import opened MemberPlan
  import opened MemberPlanLaws
  import opened Server

  /** The members a run started from and the blocks it works toward. */
  datatype Plan = Plan(start: seq<Member>, blocks: seq<Block>)

  /** Hosts are distinct: the server sees to the members, the apply to the blocks. */
  ghost predicate WellFormed(plan: Plan) {
    DistinctHosts(plan.start) && DistinctBlocks(plan.blocks)
  }

  /** The reconfig that turns live into sent is a step of the protocol, given what was seen before it. */
  ghost predicate Legal(plan: Plan, seen: seq<Event>, kind: Kind, live: seq<Member>, sent: seq<Member>) {
    match kind
    case SettingsAndMembers =>
      live == plan.start && sent == SettledAll(live, plan.blocks)
    case Stage(b) =>
      && Missing(live, plan.blocks) != [] && Missing(live, plan.blocks)[0] == b
      && sent == live + [Staged(b, NextId(live))]
    case Promote(b) =>
      && b in plan.blocks && NeedsPromotion(b) && ShownSynced(seen, b.host)
      && At(live, b.host) >= 0
      && sent == live[At(live, b.host) := Promoted(live[At(live, b.host)], b)]
    case Rollback(host) =>
      && At(plan.start, host) < 0
      && Missing(sent, plan.blocks) != [] && Missing(sent, plan.blocks)[0].host == host
      && live == sent + [Staged(Missing(sent, plan.blocks)[0], NextId(sent))]
  }

  /**
   * The log took plan.start to members: each reconfig met the members the one
   * before it left, sent them again or a legal step from them, and was
   * installed or not.
   */
  ghost predicate History(plan: Plan, log: seq<Event>, members: seq<Member>)
    decreases |log|
  {
    if log == [] then members == plan.start
    else
      var before, e := log[..|log| - 1], log[|log| - 1];
      if e.Reconfig? then
        && History(plan, before, e.live.members)
        && (e.sent.members == e.live.members || Legal(plan, before, e.kind, e.live.members, e.sent.members))
        && (members == e.live.members || members == e.sent.members)
      else History(plan, before, members)
  }

  lemma {:induction false} HistoryAppended(plan: Plan, log: seq<Event>, e: Event, members: seq<Member>)
    requires if e.Reconfig? then
               && History(plan, log, e.live.members)
               && (e.sent.members == e.live.members || Legal(plan, log, e.kind, e.live.members, e.sent.members))
               && (members == e.live.members || members == e.sent.members)
             else History(plan, log, members)
    ensures History(plan, log + [e], members)
  {
    assert (log + [e])[..|log|] == log;
  }

  /** Every reconfig of a history was a resend or a legal step from what a shorter history left. */
  lemma {:induction false} HistoryStep(plan: Plan, log: seq<Event>, members: seq<Member>, i: nat)
    requires History(plan, log, members) && i < |log| && log[i].Reconfig?
    ensures History(plan, log[..i], log[i].live.members)
    ensures log[i].sent.members == log[i].live.members
            || Legal(plan, log[..i], log[i].kind, log[i].live.members, log[i].sent.members)
    decreases |log|
  {
    var before, e := log[..|log| - 1], log[|log| - 1];
    if i < |log| - 1 {
      assert before[..i] == log[..i];
      HistoryStep(plan, before, if e.Reconfig? then e.live.members else members, i);
    }
  }

  // -------------------------------------------------- nothing is lost or mixed up

  ghost predicate DistinctIds(members: seq<Member>) {
    forall i, j | 0 <= i < j < |members| :: members[i].id != members[j].id
  }

  /**
   * The members a run started from keep their places, ids, hosts and slave
   * delays at the front; each member after them is one the run added for the
   * block of its host.
   */
  ghost predicate Sound(plan: Plan, members: seq<Member>) {
    && |plan.start| <= |members|
    && (forall i | 0 <= i < |plan.start| ::
          && members[i].id == plan.start[i].id && members[i].host == plan.start[i].host
          && members[i].slaveDelay == plan.start[i].slaveDelay)
    && (forall i | |plan.start| <= i < |members| :: AddedFor(plan, members[i]))
    && DistinctHosts(members)
    && (DistinctIds(plan.start) ==> DistinctIds(members))
  }

  ghost predicate AddedFor(plan: Plan, m: Member) {
    && At(plan.start, m.host) < 0
    && BlockFor(plan.blocks, m.host).Some?
    && m.arbiterOnly == Some(BlockFor(plan.blocks, m.host).value.arbiterOnly)
  }

  lemma {:induction false} StageKeepsSound(plan: Plan, live: seq<Member>, b: Block)
    requires WellFormed(plan) && Sound(plan, live)
    requires b in plan.blocks && At(live, b.host) < 0
    ensures Sound(plan, live + [Staged(b, NextId(live))])
  {
    var x := Staged(b, NextId(live));
    BlockForIsUnique(plan.blocks, b);
    forall i | 0 <= i < |plan.start| ensures plan.start[i].host != b.host {
      assert live[i].host == plan.start[i].host;
    }
    assert AddedFor(plan, x);
    assert x.host == b.host && forall m | m in live :: m.host != b.host && m.id < x.id;
    hide At, NextId, Staged, BlockFor, AddedFor;
    AppendKeepsSound(plan, live, x);
  }

  lemma {:induction false} AppendKeepsSound(plan: Plan, live: seq<Member>, x: Member)
    requires Sound(plan, live) && AddedFor(plan, x)
    requires forall m | m in live :: m.host != x.host && m.id < x.id
    ensures Sound(plan, live + [x])
  {
    hide AddedFor;
    assert forall i | 0 <= i < |live| :: (live + [x])[i] == live[i] && live[i] in live;
  }

  lemma {:induction false} RollbackKeepsSound(plan: Plan, sent: seq<Member>, x: Member)
    requires Sound(plan, sent + [x]) && At(plan.start, x.host) < 0
    ensures Sound(plan, sent)
  {
    var live := sent + [x];
    assert forall i | 0 <= i < |sent| :: live[i] == sent[i];
    assert live[|sent|] == x;
    assert |sent| != |plan.start| - 1;
  }

  lemma {:induction false} LegalKeepsSound(plan: Plan, seen: seq<Event>, kind: Kind, live: seq<Member>,
                                           sent: seq<Member>)
    requires WellFormed(plan) && Sound(plan, live) && Legal(plan, seen, kind, live, sent)
    ensures Sound(plan, sent)
  {
    match kind
    case SettingsAndMembers =>
      SettledKeepsSound(plan, live);
    case Stage(b) =>
      PartitionSplits(live, plan.blocks, b);
      hide Sound, Missing, At, NextId, Staged;
      StageKeepsSound(plan, live, b);
    case Promote(b) =>
      hide Missing;
      PromotedKeepsSound(plan, live, At(live, b.host), b);
    case Rollback(host) =>
      hide Sound;
      RollbackKeepsSound(plan, sent, live[|live| - 1]);
  }

  lemma {:induction false} SettledKeepsSound(plan: Plan, live: seq<Member>)
    requires Sound(plan, live) && live == plan.start
    ensures Sound(plan, SettledAll(live, plan.blocks))
  {
    var sent := SettledAll(live, plan.blocks);
    forall i | 0 <= i < |live|
      ensures sent[i].id == live[i].id && sent[i].host == live[i].host && sent[i].slaveDelay == live[i].slaveDelay
    {
    }
    hide SettledAll, AddedFor;
  }

  lemma {:induction false} PromotedKeepsSound(plan: Plan, live: seq<Member>, k: nat, b: Block)
    requires Sound(plan, live) && k < |live|
    ensures Sound(plan, live[k := Promoted(live[k], b)])
  {
    var m := Promoted(live[k], b);
    assert AddedFor(plan, live[k]) ==> AddedFor(plan, m);
    assert m.id == live[k].id && m.host == live[k].host && m.slaveDelay == live[k].slaveDelay;
    hide AddedFor, Promoted;
  }

  lemma {:induction false} HistoryIsSound(plan: Plan, log: seq<Event>, members: seq<Member>)
    requires WellFormed(plan) && History(plan, log, members)
    ensures Sound(plan, members)
    decreases |log|
  {
    if log != [] {
      var before, e := log[..|log| - 1], log[|log| - 1];
      if e.Reconfig? {
        HistoryIsSound(plan, before, e.live.members);
        if e.sent.members != e.live.members {
          LegalKeepsSound(plan, before, e.kind, e.live.members, e.sent.members);
        }
      } else {
        HistoryIsSound(plan, before, members);
      }
    }
  }

  /** When the blocks name no member of the start, the start stays as it is: only added members ever change or go. */
  lemma {:induction false} StartStaysPrefix(plan: Plan, log: seq<Event>, members: seq<Member>)
    requires WellFormed(plan) && History(plan, log, members)
    requires forall b | b in plan.blocks :: At(plan.start, b.host) < 0
    ensures plan.start <= members
    decreases |log|
  {
    if log != [] {
      var before, e := log[..|log| - 1], log[|log| - 1];
      if e.Reconfig? {
        StartStaysPrefix(plan, before, e.live.members);
        if e.sent.members != e.live.members {
          HistoryIsSound(plan, before, e.live.members);
          LegalKeepsPrefix(plan, before, e.kind, e.live.members, e.sent.members);
        }
      } else {
        StartStaysPrefix(plan, before, members);
      }
    }
  }

  lemma {:induction false} LegalKeepsPrefix(plan: Plan, seen: seq<Event>, kind: Kind, live: seq<Member>,
                                            sent: seq<Member>)
    requires WellFormed(plan) && Sound(plan, live) && plan.start <= live
    requires forall b | b in plan.blocks :: At(plan.start, b.host) < 0
    requires Legal(plan, seen, kind, live, sent)
    ensures plan.start <= sent
  {
    match kind
    case SettingsAndMembers =>
      forall i | 0 <= i < |live| ensures sent[i] == live[i] {
        assert live[i] == plan.start[i] && At(plan.start, live[i].host) >= 0;
      }
    case Stage(b) =>
    case Promote(b) =>
      forall i | 0 <= i < |plan.start| ensures live[i].host != b.host {
        assert live[i] == plan.start[i];
      }
    case Rollback(host) =>
      LegalKeepsSound(plan, seen, kind, live, sent);
  }

  // ------------------------------------------------------ the target stays put

  lemma {:induction false} LegalConservesTarget(plan: Plan, seen: seq<Event>, kind: Kind, live: seq<Member>,
                                                sent: seq<Member>)
    requires WellFormed(plan) && Legal(plan, seen, kind, live, sent)
    ensures Target(sent, plan.blocks) == Target(live, plan.blocks)
  {
    match kind
    case SettingsAndMembers =>
      SettingsConserveTarget(live, plan.blocks);
    case Stage(b) =>
      PartitionSplits(live, plan.blocks, b);
      FinishedOfStaged(b, NextId(live), plan.blocks);
      AddConservesTarget(live, plan.blocks, Staged(b, NextId(live)));
    case Promote(b) =>
      PromotionConservesTarget(live, plan.blocks, At(live, b.host), b);
    case Rollback(host) =>
      var b := Missing(sent, plan.blocks)[0];
      PartitionSplits(sent, plan.blocks, b);
      FinishedOfStaged(b, NextId(sent), plan.blocks);
      AddConservesTarget(sent, plan.blocks, Staged(b, NextId(sent)));
  }

  /** However far a run got and whatever the server did, the members still aim at the same target. */
  lemma {:induction false} HistoryConservesTarget(plan: Plan, log: seq<Event>, members: seq<Member>)
    requires WellFormed(plan) && History(plan, log, members)
    ensures Target(members, plan.blocks) == Target(plan.start, plan.blocks)
    decreases |log|
  {
    if log != [] {
      var before, e := log[..|log| - 1], log[|log| - 1];
      if e.Reconfig? {
        HistoryConservesTarget(plan, before, e.live.members);
        if e.sent.members != e.live.members {
          LegalConservesTarget(plan, before, e.kind, e.live.members, e.sent.members);
        }
      } else {
        HistoryConservesTarget(plan, before, members);
      }
    }
  }

  // ------------------------------------------------------------ the voting gate

  /**
   * m may stand in a config sent after seen: a member of the start has no more
   * votes than it started with, an added one is an arbiter or has neither
   * votes nor priority, unless a status has shown it up and synced.
   */
  ghost predicate Gated(plan: Plan, seen: seq<Event>, m: Member) {
    || ShownSynced(seen, m.host)
    || (var k := At(plan.start, m.host);
        if k >= 0 then Votes(m) <= Votes(plan.start[k])
        else Flag(m.arbiterOnly) || (Votes(m) == 0 && m.priority == 0.0))
  }

  ghost predicate AllGated(plan: Plan, seen: seq<Event>, members: seq<Member>) {
    forall i | 0 <= i < |members| :: Gated(plan, seen, members[i])
  }

  lemma {:induction false} GatedStays(plan: Plan, seen: seq<Event>, seen': seq<Event>, members: seq<Member>)
    requires AllGated(plan, seen, members) && seen <= seen'
    ensures AllGated(plan, seen', members)
  {
    forall i | 0 <= i < |members| ensures Gated(plan, seen', members[i]) {
      if ShownSynced(seen, members[i].host) {
        ShownStaysShown(seen, seen', members[i].host);
      }
    }
  }

  lemma {:induction false} LegalIsGated(plan: Plan, seen: seq<Event>, kind: Kind, live: seq<Member>,
                                        sent: seq<Member>)
    requires WellFormed(plan) && Sound(plan, live) && AllGated(plan, seen, live)
    requires Legal(plan, seen, kind, live, sent)
    ensures AllGated(plan, seen, sent)
  {
    match kind
    case SettingsAndMembers =>
      forall i | 0 <= i < |sent| ensures Gated(plan, seen, sent[i]) {
        AtIsUnique(plan.start, i);
      }
    case Stage(b) =>
      LegalKeepsSound(plan, seen, kind, live, sent);
      var x := sent[|live|];
      assert |plan.start| <= |live| ==> AddedFor(plan, x);
      assert Gated(plan, seen, x);
      assert forall i | 0 <= i < |live| :: sent[i] == live[i];
    case Promote(b) =>
    case Rollback(host) =>
      assert forall i | 0 <= i < |sent| :: sent[i] == live[i];
  }

  lemma {:induction false} HistoryIsGated(plan: Plan, log: seq<Event>, members: seq<Member>)
    requires WellFormed(plan) && History(plan, log, members)
    ensures AllGated(plan, log, members)
    decreases |log|
  {
    if log == [] {
      forall i | 0 <= i < |members| ensures Gated(plan, log, members[i]) {
        AtIsUnique(plan.start, i);
      }
    } else {
      var before, e := log[..|log| - 1], log[|log| - 1];
      if e.Reconfig? {
        HistoryIsGated(plan, before, e.live.members);
        if e.sent.members != e.live.members {
          HistoryIsSound(plan, before, e.live.members);
          LegalIsGated(plan, before, e.kind, e.live.members, e.sent.members);
        }
      } else {
        HistoryIsGated(plan, before, members);
      }
      GatedStays(plan, before, log, members);
    }
  }

  /** The gate holds of every config sent in a history, judged by what was seen before it was sent. */
  lemma {:induction false} SentIsGated(plan: Plan, log: seq<Event>, members: seq<Member>, i: nat)
    requires WellFormed(plan) && History(plan, log, members) && i < |log| && log[i].Reconfig?
    ensures AllGated(plan, log[..i], log[i].sent.members)
  {
    HistoryStep(plan, log, members, i);
    HistoryIsGated(plan, log[..i], log[i].live.members);
    if log[i].sent.members != log[i].live.members {
      HistoryIsSound(plan, log[..i], log[i].live.members);
      LegalIsGated(plan, log[..i], log[i].kind, log[i].live.members, log[i].sent.members);
    }
  }

  // ------------------------------------------------------------- quorum overlap

  ghost function Voters(members: seq<Member>): set<string> {
    set i | 0 <= i < |members| && Votes(members[i]) > 0 :: members[i].host
  }

  ghost predicate DifferByOne(a: set<string>, b: set<string>) {
    exists h :: a - {h} == b - {h}
  }

  ghost predicate Majority(quorum: set<string>, voters: set<string>) {
    quorum <= voters && 2 * |quorum| > |voters|
  }

  lemma {:induction false} SizeWithout(s: set<string>, h: string)
    ensures |s| == |s - {h}| + (if h in s then 1 else 0)
  {
    assert s == (s - {h}) + (if h in s then {h} else {});
  }

  lemma {:induction false} DisjointSizes(p: set<string>, q: set<string>, all: set<string>)
    requires p <= all && q <= all && p * q == {}
    ensures |p| + |q| <= |all|
  {
    assert |p + q| == |p| + |q|;
    assert all == (p + q) + (all - (p + q));
  }

  /** Voter sets that differ in one member at most cannot have two majorities that miss each other. */
  lemma {:induction false} MajoritiesMeet(a: set<string>, b: set<string>, p: set<string>, q: set<string>)
    requires DifferByOne(a, b) && Majority(p, a) && Majority(q, b)
    ensures p * q != {}
  {
    var h :| a - {h} == b - {h};
    SizeWithout(a, h);
    SizeWithout(b, h);
    SizeWithout(a + b, h);
    assert (a + b) - {h} == a - {h};
    assert |p| + |q| > |a + b|;
    if p * q == {} {
      DisjointSizes(p, q, a + b);
      assert false;
    }
  }

  lemma {:induction false} VotersAppended(members: seq<Member>, x: Member)
    ensures Voters(members + [x]) == Voters(members) + (if Votes(x) > 0 then {x.host} else {})
  {
    var more := members + [x];
    forall h ensures h in Voters(more) <==> h in Voters(members) || (Votes(x) > 0 && h == x.host) {
      if h in Voters(members) {
        var i :| 0 <= i < |members| && Votes(members[i]) > 0 && members[i].host == h;
        assert more[i] == members[i];
      }
      if Votes(x) > 0 && h == x.host {
        assert more[|members|] == x;
      }
    }
  }

  lemma {:induction false} VotersPromoted(members: seq<Member>, k: nat, x: Member)
    requires k < |members| && x.host == members[k].host && DistinctHosts(members)
    ensures Voters(members[k := x]) - {x.host} == Voters(members) - {x.host}
  {
    var more := members[k := x];
    forall h | h != x.host ensures h in Voters(more) <==> h in Voters(members) {
      if h in Voters(members) {
        var i :| 0 <= i < |members| && Votes(members[i]) > 0 && members[i].host == h;
        assert more[i] == members[i];
      }
      if h in Voters(more) {
        var i :| 0 <= i < |more| && Votes(more[i]) > 0 && more[i].host == h;
        assert more[i] == members[i];
      }
    }
  }

  /** Every reconfig of the member phase changes the voters by one member at most. */
  lemma {:induction false} MemberStepsOverlap(plan: Plan, log: seq<Event>, members: seq<Member>, i: nat)
    requires WellFormed(plan) && History(plan, log, members)
    requires i < |log| && log[i].Reconfig? && !log[i].kind.SettingsAndMembers?
    ensures DifferByOne(Voters(log[i].live.members), Voters(log[i].sent.members))
  {
    var live, sent := log[i].live.members, log[i].sent.members;
    HistoryStep(plan, log, members, i);
    HistoryIsSound(plan, log[..i], live);
    if sent == live {
      assert Voters(live) - {""} == Voters(sent) - {""};
    } else {
      match log[i].kind
      case Stage(b) =>
        VotersAppended(live, Staged(b, NextId(live)));
        assert Voters(live) - {b.host} == Voters(sent) - {b.host};
      case Promote(b) =>
        var k := At(live, b.host);
        VotersPromoted(live, k, Promoted(live[k], b));
        assert Voters(live) - {b.host} == Voters(sent) - {b.host};
      case Rollback(host) =>
        VotersAppended(sent, live[|sent|]);
        assert Voters(live) - {host} == Voters(sent) - {host};
    }
  }
}
