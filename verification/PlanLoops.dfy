/**
 * The loops that compute the plan, over maps and slices, each proved to
 * compute the function of module MemberPlan or Preview that specifies it.
 */
module PlanLoops {
  import opened Wrappers
  import opened ReplicaSet
  import opened MemberPlan
  import opened Preview

  // ------------------------------------------------------ maps keyed by host

  /** byHost holds, for each host, the last of the members named so. */
  ghost predicate KeyedByHost(byHost: map<string, Member>, members: seq<Member>) {
    forall h: string :: (h in byHost <==> At(members, h) >= 0) && (h in byHost ==> byHost[h] == members[At(members, h)])
  }

  ghost predicate IndexedByHost(index: map<string, int>, members: seq<Member>) {
    forall h: string :: (h in index <==> At(members, h) >= 0) && (h in index ==> index[h] == At(members, h))
  }

  lemma {:induction false} TakeMore(members: seq<Member>, i: nat, h: string)
    requires i < |members|
    ensures At(members[..i + 1], h) == if members[i].host == h then i else At(members[..i], h)
  {
    assert members[..i + 1] == members[..i] + [members[i]];
    AtAppended(members[..i], members[i], h);
  }

  method KeyByHost(members: seq<Member>) returns (byHost: map<string, Member>)
    ensures KeyedByHost(byHost, members)
  {
    byHost := map[];
    for i := 0 to |members|
      invariant KeyedByHost(byHost, members[..i])
    {
      forall h: string ensures At(members[..i + 1], h) == if members[i].host == h then i else At(members[..i], h) {
        TakeMore(members, i, h);
      }
      byHost := byHost[members[i].host := members[i]];
    }
    assert members[..|members|] == members;
  }

  method IndexByHost(members: seq<Member>) returns (index: map<string, int>)
    ensures IndexedByHost(index, members)
  {
    index := map[];
    for i := 0 to |members|
      invariant IndexedByHost(index, members[..i])
    {
      forall h: string ensures At(members[..i + 1], h) == if members[i].host == h then i else At(members[..i], h) {
        TakeMore(members, i, h);
      }
      index := index[members[i].host := i];
    }
    assert members[..|members|] == members;
  }

  // ------------------------------------------------------ planning

  /** What is partitioned so far, and what is left, make up the whole. */
  ghost predicate Partitioning(members: seq<Member>, blocks: seq<Block>, i: nat, existing: seq<Block>,
                               missing: seq<Block>)
    requires i <= |blocks|
  {
    && existing + Existing(members, blocks[i..]) == Existing(members, blocks)
    && missing + Missing(members, blocks[i..]) == Missing(members, blocks)
  }

  lemma {:induction false} PartitionFrom(members: seq<Member>, blocks: seq<Block>, i: nat, existing: seq<Block>,
                                         missing: seq<Block>)
    requires i < |blocks| && Partitioning(members, blocks, i, existing, missing)
    ensures if At(members, blocks[i].host) >= 0 then Partitioning(members, blocks, i + 1, existing + [blocks[i]], missing)
            else Partitioning(members, blocks, i + 1, existing, missing + [blocks[i]])
  {
    assert blocks[i..][1..] == blocks[i + 1..];
    var rest, others := Existing(members, blocks[i + 1..]), Missing(members, blocks[i + 1..]);
    Reassociate(existing, blocks[i], rest);
    Reassociate(missing, blocks[i], others);
  }

  method PartitionMemberOverrides(rsMembers: seq<Member>, overrides: seq<Block>)
    returns (existing: seq<Block>, missing: seq<Block>)
    ensures existing == Existing(rsMembers, overrides) && missing == Missing(rsMembers, overrides)
  {
    var hosts := KeyByHost(rsMembers);
    existing, missing := [], [];
    assert overrides[0..] == overrides;
    for i := 0 to |overrides|
      invariant Partitioning(rsMembers, overrides, i, existing, missing)
    {
      hide Partitioning, At;
      var o := overrides[i];
      PartitionFrom(rsMembers, overrides, i, existing, missing);
      if o.host in hosts {
        existing := existing + [o];
      } else {
        missing := missing + [o];
      }
    }
    assert overrides[|overrides|..] == [];
  }

  lemma {:induction false} PromotionsFrom(members: seq<Member>, blocks: seq<Block>, i: nat, promote: seq<Block>)
    requires i < |blocks| && promote + Promotions(members, blocks[i..]) == Promotions(members, blocks)
    ensures (if Raises(members, blocks[i]) then promote + [blocks[i]] else promote)
            + Promotions(members, blocks[i + 1..]) == Promotions(members, blocks)
  {
    assert blocks[i..][1..] == blocks[i + 1..];
    Reassociate(promote, blocks[i], Promotions(members, blocks[i + 1..]));
  }

  method HoldPromotions(rsMembers: seq<Member>, overrides: seq<Block>) returns (held: seq<Block>, promote: seq<Block>)
    ensures held == Held(rsMembers, overrides) && promote == Promotions(rsMembers, overrides)
  {
    var live := KeyByHost(rsMembers);
    held, promote := [], [];
    for i := 0 to |overrides|
      invariant |held| == i && forall j | 0 <= j < i :: held[j] == HeldBlock(rsMembers, overrides[j])
      invariant promote + Promotions(rsMembers, overrides[i..]) == Promotions(rsMembers, overrides)
    {
      hide Promotions, At;
      var o := overrides[i];
      PromotionsFrom(rsMembers, overrides, i, promote);
      if o.host !in live || o.votes <= Votes(live[o.host]) {
        held := held + [o];
      } else {
        held := held + [o.(votes := Votes(live[o.host]), priority := live[o.host].priority)];
        promote := promote + [o];
      }
    }
  }

  method NextMemberID(members: seq<Member>) returns (next: int)
    ensures next == NextId(members)
  {
    next := 0;
    for i := 0 to |members|
      invariant next == NextId(members[..i])
    {
      assert members[..i + 1][..i] == members[..i];
      if members[i].id >= next {
        next := members[i].id + 1;
      }
    }
    assert members[..|members|] == members;
  }

  /** The position of the first invalid block, blank or named before, if there is one. */
  method ValidateMemberOverrides(overrides: seq<Block>) returns (bad: Option<nat>)
    ensures bad.None? <==> ValidBlocks(overrides)
    ensures bad.Some? ==>
              && bad.value < |overrides| && ValidBlocks(overrides[..bad.value])
              && (Blank(overrides[bad.value].host)
                  || exists j :: 0 <= j < bad.value && overrides[j].host == overrides[bad.value].host)
  {
    var seen: map<string, nat> := map[];
    for i := 0 to |overrides|
      invariant forall h :: h in seen ==> seen[h] < i && overrides[seen[h]].host == h
      invariant forall j | 0 <= j < i :: overrides[j].host in seen && !Blank(overrides[j].host)
      invariant forall j, k | 0 <= j < k < i :: overrides[j].host != overrides[k].host
    {
      var host := overrides[i].host;
      if Blank(host) {
        assert overrides[i] in overrides;
        return Some(i);
      }
      if host in seen {
        assert overrides[seen[host]].host == overrides[i].host;
        return Some(i);
      }
      seen := seen[host := i];
    }
    return None;
  }

  method ObserveMember(status: seq<StatusRow>, host: string, target: WaitTarget) returns (obs: Observation)
    ensures obs == Observe(status, host, target)
  {
    for i := 0 to |status|
      invariant Observe(status[i..], host, target) == Observe(status, host, target)
    {
      var m := status[i];
      assert status[i..][0] == m && status[i..][1..] == status[i + 1..];
      if m.name == host {
        if m.health != HEALTH_UP {
          return Observation(false, false);
        }
        var met := match target
          case WaitSecondary => m.state == STATE_SECONDARY || m.state == STATE_PRIMARY
          case WaitArbiter => m.state == STATE_ARBITER
          case WaitReachable => true;
        return Observation(true, met);
      }
    }
    return Observation(false, false);
  }

  method RSConfigMembersToState(members: seq<Member>, managedHosts: seq<string>) returns (state: seq<Block>)
    ensures state == ReadBack(members, managedHosts)
  {
    var byHost := KeyByHost(members);
    state := [];
    for i := 0 to |managedHosts|
      invariant state + ReadBack(members, managedHosts[i..]) == ReadBack(members, managedHosts)
    {
      assert managedHosts[i..][1..] == managedHosts[i + 1..];
      if managedHosts[i] in byHost {
        state := state + [StateOf(byHost[managedHosts[i]])];
      }
    }
  }

  // ------------------------------------------------------ the preview

  method PreviewMemberChanges(state: seq<PreviewMember>, planned: seq<PreviewMember>) returns (changes: seq<Change>)
    ensures changes == Changes(state, planned, {})
  {
    var live: map<string, PreviewMember> := map[];
    for i := 0 to |state|
      invariant forall h: string :: (h in live <==> InState(state[..i], h).Some?)
                                    && (h in live ==> InState(state[..i], h) == Some(live[h]))
    {
      assert state[..i + 1] == state[..i] + [state[i]];
      forall h: string
        ensures InState(state[..i + 1], h) == if state[i].host == h then Some(state[i]) else InState(state[..i], h)
      {
        InStateAppended(state[..i], state[i], h);
      }
      live := live[state[i].host := state[i]];
    }
    assert state[..|state|] == state;
    var seen: set<string> := {};
    changes := [];
    for i := 0 to |planned|
      invariant changes + Changes(state, planned[i..], seen) == Changes(state, planned, {})
    {
      hide InState, Changes;
      var m := planned[i];
      ChangesFrom(state, planned, seen, i, changes);
      if m.host == "" || m.host in seen {
        continue;
      }
      seen := seen + {m.host};
      if m.host !in live {
        changes := changes + [Change(m, true, !m.arbiterOnly && (m.votes != 0 || m.priority != 0.0))];
      } else if m.votes > live[m.host].votes {
        changes := changes + [Change(m, false, true)];
      }
    }
  }

  lemma {:induction false} ChangesFrom(state: seq<PreviewMember>, planned: seq<PreviewMember>, seen: set<string>, i: nat,
                                       changes: seq<Change>)
    requires i < |planned| && changes + Changes(state, planned[i..], seen) == Changes(state, planned, {})
    ensures var m := planned[i];
            var c := ChangeFor(state, m);
            if m.host == "" || m.host in seen
            then changes + Changes(state, planned[i + 1..], seen) == Changes(state, planned, {})
            else (if c.Some? then changes + [c.value] else changes) + Changes(state, planned[i + 1..], seen + {m.host})
                 == Changes(state, planned, {})
  {
    var m, rest := planned[i], planned[i + 1..];
    assert planned[i..][1..] == rest;
    var c := ChangeFor(state, m);
    hide InState, ChangeFor;
    if c.Some? {
      Reassociate(changes, c.value, Changes(state, rest, seen + {m.host}));
    }
  }

  method BuildShardConfigPreview(isCreate: bool, changes: seq<Change>) returns (cmds: seq<Line>)
    ensures cmds == PreviewLines(isCreate, changes)
  {
    cmds := [];
    if isCreate {
      cmds := cmds + [InitiateLine];
    }
    cmds := cmds + [SettingsLine];
    ghost var opening := cmds;
    assert opening == (if isCreate then [InitiateLine] else []) + [SettingsLine];
    for i := 0 to |changes|
      invariant cmds + ChangeLines(changes[i..]) == opening + ChangeLines(changes)
    {
      var c := changes[i];
      assert changes[i..][0] == c && changes[i..][1..] == changes[i + 1..];
      ghost var before, rest := cmds, ChangeLines(changes[i + 1..]);
      if c.add {
        cmds := cmds + [if c.member.arbiterOnly then AddArbiterLine(c.member.host) else AddLine(c.member.host)];
      }
      if c.promote {
        cmds := cmds + [PromoteLine(c.member.host, c.member.votes, c.member.priority)];
      }
      assert cmds == before + LinesOf(c);
      Associates(before, LinesOf(c), rest);
      hide LinesOf;
    }
    assert changes[|changes|..] == [];
  }
}
