/**
 * Laws of the plan: what the settings reconfig does to every member, that each
 * step of an apply leaves the target where it was, and that reading state back
 * undoes the merge.
 */
module MemberPlanLaws {
  import opened Wrappers
  import opened ReplicaSet
  import opened MemberPlan

  // ------------------------------------------------ the settings reconfig

  /** x is m with its own block of os written over it, or m itself if os has none. */
  ghost predicate Overlaid(m: Member, os: seq<Block>, x: Member) {
    && (forall j | 0 <= j < |os| && os[j].host == m.host :: x == Overlay(m, os[j]))
    && ((forall j | 0 <= j < |os| :: os[j].host != m.host) ==> x == m)
  }

  /** Writing blocks one by one overlays each named member with its own block and no other. */
  lemma {:induction false} MergedPointwise(members: seq<Member>, os: seq<Block>)
    requires DistinctHosts(members) && DistinctBlocks(os)
    requires forall o | o in os :: At(members, o.host) >= 0
    ensures Merged(members, os).Some?
    ensures var r := Merged(members, os).value;
            && |r| == |members|
            && forall i | 0 <= i < |members| :: Overlaid(members[i], os, r[i])
    decreases os
  {
    if os != [] {
      var o, rest := os[0], os[1..];
      assert o in os;
      var k := At(members, o.host);
      var next := members[k := Overlay(members[k], o)];
      forall p | p in rest ensures At(next, p.host) >= 0 {
        assert p in os;
        AtByHosts(members, next, p.host);
      }
      FirstDiffers(os, rest);
      MergedPointwise(next, rest);
      hide Overlay, Merged;
      var r := Merged(next, rest).value;
      forall i | 0 <= i < |members| ensures Overlaid(members[i], os, r[i]) {
        assert Overlaid(next[i], rest, r[i]);
        OverlaidStep(members[i], os, next[i], r[i]);
      }
    }
  }

  lemma {:induction false} OverlaidStep(m: Member, os: seq<Block>, next: Member, x: Member)
    requires os != [] && DistinctBlocks(os) && next == if m.host == os[0].host then Overlay(m, os[0]) else m
    requires Overlaid(next, os[1..], x)
    ensures Overlaid(m, os, x)
  {
    assert next.host == m.host;
    var rest := os[1..];
    assert forall j | 0 < j < |os| :: os[j] == rest[j - 1];
    hide Overlay;
    if m.host == os[0].host {
      assert x == next;
    }
  }

  /**
   * The settings reconfig always finds its members and makes of every live
   * member exactly Settled: its block with the vote raise held, or nothing.
   */
  lemma {:induction false} SettingsReconfig(members: seq<Member>, blocks: seq<Block>)
    requires DistinctHosts(members) && DistinctBlocks(blocks)
    ensures Merged(members, Held(members, Existing(members, blocks))) == Some(SettledAll(members, blocks))
  {
    var held := Held(members, Existing(members, blocks));
    PartitionDistinct(members, blocks);
    forall j | 0 <= j < |held| ensures At(members, held[j].host) >= 0 {
      PartitionSplits(members, blocks, Existing(members, blocks)[j]);
    }
    MergedPointwise(members, held);
    var r := Merged(members, held).value;
    forall i | 0 <= i < |members| ensures r[i] == Settled(members[i], blocks) {
      hide Merged, Held, Existing, Settled;
      SettledIsOverlaid(members, blocks, i, r[i]);
    }
    hide Merged, Held, Existing, Settled;
    assert r == SettledAll(members, blocks);
  }

  lemma {:induction false} SettledIsOverlaid(members: seq<Member>, blocks: seq<Block>, i: nat, x: Member)
    requires DistinctHosts(members) && DistinctBlocks(blocks) && i < |members|
    requires Overlaid(members[i], Held(members, Existing(members, blocks)), x)
    ensures x == Settled(members[i], blocks)
  {
    var held := Held(members, Existing(members, blocks));
    if BlockFor(blocks, members[i].host).Some? {
      var j := SomeHeldFor(members, blocks, i);
      hide Overlay, Existing, At;
      HeldFor(members, blocks, i, j);
    } else {
      hide Overlay;
      forall j | 0 <= j < |held| ensures held[j].host != members[i].host {
        PartitionSplits(members, blocks, Existing(members, blocks)[j]);
      }
    }
  }

  /** A held block that names a live member is the member's own block, pinned. */
  lemma {:induction false} HeldFor(members: seq<Member>, blocks: seq<Block>, i: nat, j: nat)
    requires DistinctHosts(members) && DistinctBlocks(blocks) && i < |members|
    requires var held := Held(members, Existing(members, blocks));
             j < |held| && held[j].host == members[i].host
    ensures Overlay(members[i], Held(members, Existing(members, blocks))[j]) == Settled(members[i], blocks)
  {
    var b := Existing(members, blocks)[j];
    AtIsUnique(members, i);
    PartitionSplits(members, blocks, b);
    BlockForIsUnique(blocks, b);
  }

  lemma {:induction false} SomeHeldFor(members: seq<Member>, blocks: seq<Block>, i: nat) returns (j: nat)
    requires DistinctHosts(members) && i < |members| && BlockFor(blocks, members[i].host).Some?
    ensures var held := Held(members, Existing(members, blocks));
            j < |held| && held[j].host == members[i].host
  {
    var b := BlockFor(blocks, members[i].host).value;
    PartitionSplits(members, blocks, b);
    j :| 0 <= j < |Existing(members, blocks)| && Existing(members, blocks)[j] == b;
  }

  /** The merge can only fail on a host outside the set, which partitioning rules out. */
  lemma {:induction false} MergeFailsOnlyOnUnknownHosts(members: seq<Member>, os: seq<Block>)
    ensures Merged(members, os).None? <==> exists o :: o in os && At(members, o.host) < 0
    decreases os
  {
    if os != [] {
      var k := At(members, os[0].host);
      if k >= 0 {
        var next := members[k := Overlay(members[k], os[0])];
        MergeFailsOnlyOnUnknownHosts(next, os[1..]);
        forall o | o in os ensures At(next, o.host) == At(members, o.host) {
          AtByHosts(members, next, o.host);
        }
        assert forall o :: o in os <==> o == os[0] || o in os[1..];
      } else {
        assert os[0] in os;
      }
    }
  }

  /**
   * The settings reconfig never raises a vote: a named member ends with the
   * smaller of its live votes and its block's, a held member keeps its
   * priority, unlisted members are untouched, and nobody's id, host, slave
   * delay or place changes.
   */
  lemma {:induction false} SettingsNeverRaiseVotes(members: seq<Member>, blocks: seq<Block>, i: nat)
    requires DistinctHosts(members) && DistinctBlocks(blocks) && i < |members|
    ensures Merged(members, Held(members, Existing(members, blocks))).Some?
    ensures var r := Merged(members, Held(members, Existing(members, blocks))).value;
            && |r| == |members|
            && r[i].id == members[i].id && r[i].host == members[i].host && r[i].slaveDelay == members[i].slaveDelay
            && (forall b | b in blocks && b.host == members[i].host ::
                  && Votes(r[i]) == (if b.votes <= Votes(members[i]) then b.votes else Votes(members[i]))
                  && r[i].priority == (if b.votes <= Votes(members[i]) then b.priority else members[i].priority)
                  && Flag(r[i].hidden) == b.hidden && Flag(r[i].arbiterOnly) == b.arbiterOnly
                  && Flag(r[i].buildIndexes) == b.buildIndexes && r[i].tags == b.tags)
            && ((forall b | b in blocks :: b.host != members[i].host) ==> r[i] == members[i])
  {
    SettingsReconfig(members, blocks);
    forall b | b in blocks && b.host == members[i].host ensures BlockFor(blocks, members[i].host) == Some(b) {
      BlockForIsUnique(blocks, b);
    }
  }

  // ------------------------------------------- the target does not move

  lemma {:induction false} FinishedOfSettled(m: Member, blocks: seq<Block>)
    ensures Finished(Settled(m, blocks), blocks) == Finished(m, blocks)
    ensures Finished(Finished(m, blocks), blocks) == Finished(m, blocks)
  {
  }

  lemma {:induction false} FinishedOfStaged(b: Block, id: int, blocks: seq<Block>)
    requires DistinctBlocks(blocks) && b in blocks
    ensures Finished(Staged(b, id), blocks) == Build(b, id) && Finished(Build(b, id), blocks) == Build(b, id)
  {
    BlockForIsUnique(blocks, b);
  }

  lemma {:induction false} SameTarget(a: seq<Member>, b: seq<Member>, blocks: seq<Block>)
    requires |a| == |b|
    requires forall i | 0 <= i < |a| :: a[i].id == b[i].id && a[i].host == b[i].host
    requires forall i | 0 <= i < |a| :: Finished(a[i], blocks) == Finished(b[i], blocks)
    ensures Target(a, blocks) == Target(b, blocks)
  {
    MissingByHosts(a, b, blocks);
    NextIdByIds(a, b);
    assert FinishedAll(a, blocks) == FinishedAll(b, blocks);
  }

  /** Holding vote raises back in the settings reconfig loses nothing. */
  lemma {:induction false} SettingsConserveTarget(members: seq<Member>, blocks: seq<Block>)
    ensures Target(SettledAll(members, blocks), blocks) == Target(members, blocks)
  {
    forall i | 0 <= i < |members|
      ensures Finished(SettledAll(members, blocks)[i], blocks) == Finished(members[i], blocks)
    {
      FinishedOfSettled(members[i], blocks);
    }
    SameTarget(SettledAll(members, blocks), members, blocks);
  }

  lemma {:induction false} PromotionConservesTarget(members: seq<Member>, blocks: seq<Block>, k: nat, b: Block)
    requires DistinctBlocks(blocks) && b in blocks && NeedsPromotion(b)
    requires k < |members| && members[k].host == b.host
    ensures Target(members[k := Promoted(members[k], b)], blocks) == Target(members, blocks)
  {
    BlockForIsUnique(blocks, b);
    SameTarget(members[k := Promoted(members[k], b)], members, blocks);
  }

  /** Adding the first missing member, in whatever form finishes as its block, lands on the target's path. */
  lemma {:induction false} AddConservesTarget(members: seq<Member>, blocks: seq<Block>, x: Member)
    requires DistinctBlocks(blocks) && Missing(members, blocks) != []
    requires var b := Missing(members, blocks)[0];
             x.host == b.host && x.id == NextId(members) && Finished(x, blocks) == Build(b, x.id)
    ensures Target(members + [x], blocks) == Target(members, blocks)
  {
    var missing := Missing(members, blocks);
    MissingAfterAdd(members, x, blocks);
    NextIdAppended(members, x);
    hide Missing, NextId, Finished, Build;
    FinishedAppended(members, x, blocks);
    AdditionsSplit(missing, x.id);
    hide FinishedAll, Additions;
    Reassociate(FinishedAll(members, blocks), Build(missing[0], x.id), Additions(missing[1..], x.id + 1));
  }

  lemma {:induction false} FinishedAppended(members: seq<Member>, x: Member, blocks: seq<Block>)
    ensures FinishedAll(members + [x], blocks) == FinishedAll(members, blocks) + [Finished(x, blocks)]
  {
    hide Finished;
  }

  lemma {:induction false} AdditionsSplit(missing: seq<Block>, id: int)
    requires missing != []
    ensures Additions(missing, id) == [Build(missing[0], id)] + Additions(missing[1..], id + 1)
  {
    hide Build;
  }

  lemma {:induction false} HostAtTarget(members: seq<Member>, blocks: seq<Block>, b: Block) returns (k: nat)
    requires b in blocks
    ensures k < |Target(members, blocks)| && Target(members, blocks)[k].host == b.host
  {
    PartitionSplits(members, blocks, b);
    var missing, id := Missing(members, blocks), NextId(members);
    hide Missing, NextId;
    if At(members, b.host) >= 0 {
      k := At(members, b.host);
      FinishingKeepsHosts(members, blocks, k);
    } else {
      var j: nat :| j < |missing| && missing[j] == b;
      AddingKeepsHosts(missing, id, j);
      k := |members| + j;
    }
    hide FinishedAll, Additions, At;
  }

  lemma {:induction false} AddingKeepsHosts(missing: seq<Block>, id: int, j: nat)
    requires j < |missing|
    ensures Additions(missing, id)[j].host == missing[j].host
  {
  }

  lemma {:induction false} FinishingKeepsHosts(members: seq<Member>, blocks: seq<Block>, k: nat)
    requires k < |members|
    ensures FinishedAll(members, blocks)[k].host == members[k].host
  {
  }

  lemma {:induction false} NothingMissingAtTarget(members: seq<Member>, blocks: seq<Block>)
    ensures Missing(Target(members, blocks), blocks) == []
  {
    var target := Target(members, blocks);
    forall b | b in blocks ensures At(target, b.host) >= 0 {
      var k := HostAtTarget(members, blocks, b);
      hide Target;
    }
    NoneMissing(target, blocks);
  }

  lemma {:induction false} TargetIsFinished(members: seq<Member>, blocks: seq<Block>, i: nat)
    requires DistinctBlocks(blocks) && i < |Target(members, blocks)|
    ensures Finished(Target(members, blocks)[i], blocks) == Target(members, blocks)[i]
  {
    if i < |members| {
      FinishedOfSettled(members[i], blocks);
    } else {
      var b := Missing(members, blocks)[i - |members|];
      PartitionSplits(members, blocks, b);
      FinishedOfStaged(b, NextId(members) + (i - |members|), blocks);
    }
  }

  /** Nothing is left to do at the target: an apply from there aims at where it stands. */
  lemma {:induction false} TargetIsStable(members: seq<Member>, blocks: seq<Block>)
    requires DistinctBlocks(blocks)
    ensures Target(Target(members, blocks), blocks) == Target(members, blocks)
  {
    var target := Target(members, blocks);
    NothingMissingAtTarget(members, blocks);
    forall i | 0 <= i < |target| ensures Finished(target[i], blocks) == target[i] {
      TargetIsFinished(members, blocks, i);
    }
    assert FinishedAll(target, blocks) == target;
  }

  /** An arbiter is staged, and merged unless its vote raise is held, with priority 0, whatever its block says. */
  lemma {:induction false} ArbitersGetNoPriority(raw: seq<Block>, b: Block, m: Member, id: int)
    requires b in ExtractAll(raw) && b.arbiterOnly
    ensures Staged(b, id).priority == 0.0 && (b.votes <= Votes(m) ==> Overlay(m, Pin(m, b)).priority == 0.0)
  {
    var i :| 0 <= i < |raw| && ExtractAll(raw)[i] == b;
    assert b == Extract(raw[i]);
  }

  // ------------------------------------------------------ reading state back

  lemma {:induction false} ReadBackOf(members: seq<Member>, blocks: seq<Block>)
    requires DistinctHosts(members)
    requires forall b | b in blocks :: At(members, b.host) >= 0
    ensures |ReadBack(members, BlockHosts(blocks))| == |blocks|
    ensures forall i | 0 <= i < |blocks| ::
              ReadBack(members, BlockHosts(blocks))[i] == StateOf(members[At(members, blocks[i].host)])
  {
    if blocks != [] {
      assert blocks[0] in blocks;
      assert BlockHosts(blocks)[1..] == BlockHosts(blocks[1..]);
      ReadBackOf(members, blocks[1..]);
    }
  }

  /** Members every block has been merged into are left alone by merging again. */
  lemma {:induction false} MergedOnceIsEnough(members: seq<Member>, merged: seq<Member>, blocks: seq<Block>)
    requires DistinctHosts(merged) && DistinctBlocks(blocks) && forall b | b in blocks :: At(merged, b.host) >= 0
    requires |merged| == |members| && forall i | 0 <= i < |merged| :: merged[i].host == members[i].host
    requires forall i, j | 0 <= i < |members| && 0 <= j < |blocks| && blocks[j].host == members[i].host ::
               merged[i] == Overlay(members[i], blocks[j])
    ensures Merged(merged, blocks) == Some(merged)
  {
    MergedPointwise(merged, blocks);
    var again := Merged(merged, blocks).value;
    hide Merged, At;
    forall i | 0 <= i < |merged| ensures again[i] == merged[i] {
      if j :| 0 <= j < |blocks| && blocks[j].host == merged[i].host {
        assert again[i] == Overlay(merged[i], blocks[j]);
        assert merged[i] == Overlay(members[i], blocks[j]);
      }
    }
    assert again == merged;
  }

  /**
   * Reading state from the merged members in block order gives the blocks
   * back, and merging that state again changes no member.
   */
  lemma {:induction false} ReadBackUndoesMerge(members: seq<Member>, raw: seq<Block>)
    requires DistinctHosts(members) && DistinctBlocks(raw)
    requires forall b | b in raw :: At(members, b.host) >= 0
    ensures var blocks := ExtractAll(raw);
            && Merged(members, blocks).Some?
            && var merged := Merged(members, blocks).value;
               var state := ReadBack(merged, BlockHosts(blocks));
               && ExtractAll(state) == blocks
               && Merged(merged, ExtractAll(state)) == Some(merged)
  {
    var blocks := ExtractAll(raw);
    assert forall i | 0 <= i < |raw| :: blocks[i].host == raw[i].host && raw[i] in raw;
    MergedPointwise(members, blocks);
    var merged := Merged(members, blocks).value;
    forall i | 0 <= i < |members| ensures merged[i].host == members[i].host {
      if j :| 0 <= j < |blocks| && blocks[j].host == members[i].host {
        assert merged[i] == Overlay(members[i], blocks[j]);
      }
    }
    forall b | b in blocks ensures At(merged, b.host) >= 0 {
      AtByHosts(members, merged, b.host);
    }
    hide Merged, ReadBack, At, Overlay;
    StateIsBlocks(members, merged, raw);
    MergedOnceIsEnough(members, merged, blocks);
  }

  /** State read from members the blocks were merged into gives the blocks back. */
  lemma {:induction false} StateIsBlocks(members: seq<Member>, merged: seq<Member>, raw: seq<Block>)
    requires SameHosts(members, merged) && DistinctHosts(merged)
    requires forall b | b in ExtractAll(raw) :: At(merged, b.host) >= 0
    requires forall i | 0 <= i < |members| :: Overlaid(members[i], ExtractAll(raw), merged[i])
    ensures ExtractAll(ReadBack(merged, BlockHosts(ExtractAll(raw)))) == ExtractAll(raw)
  {
    var blocks := ExtractAll(raw);
    ReadBackOf(merged, blocks);
    var state := ReadBack(merged, BlockHosts(blocks));
    hide ReadBack;
    forall i | 0 <= i < |blocks| ensures Extract(state[i]) == blocks[i] {
      var k := At(merged, blocks[i].host);
      AtByHosts(members, merged, blocks[i].host);
      assert blocks[i] in blocks;
      assert merged[k] == Overlay(members[k], blocks[i]);
      assert blocks[i] == Extract(raw[i]);
    }
    hide Overlay, At, Extract;
    assert ExtractAll(state) == blocks;
  }
  /** Where a block's host is at the target: in its old place, finished, or among the additions. */
  lemma {:induction false} TargetMember(members: seq<Member>, blocks: seq<Block>, b: Block)
    requires DistinctHosts(Target(members, blocks)) && DistinctBlocks(blocks) && b in blocks
    ensures var target, j := Target(members, blocks), At(members, b.host);
            var k := At(target, b.host);
            && k >= 0
            && (if j >= 0 then target[k] == Finished(members[j], blocks) else exists id :: target[k] == Build(b, id))
  {
    hide *;
    var target, j := Target(members, blocks), At(members, b.host);
    if j >= 0 {
      TargetAt(members, blocks, j);
      FinishedKeepsHost(members[j], blocks);
      AtIsUnique(target, j);
    } else {
      var missing, id := Missing(members, blocks), NextId(members);
      PartitionSplits(members, blocks, b);
      var i :| 0 <= i < |missing| && missing[i] == b;
      TargetAt(members, blocks, |members| + i);
      BuildKeepsHost(b, id + i);
      AtIsUnique(target, |members| + i);
    }
  }

  lemma TargetAt(members: seq<Member>, blocks: seq<Block>, k: nat)
    ensures var missing := Missing(members, blocks);
            && |Target(members, blocks)| == |members| + |missing|
            && (k < |members| ==> Target(members, blocks)[k] == Finished(members[k], blocks))
            && (|members| <= k < |members| + |missing| ==>
                  Target(members, blocks)[k] == Build(missing[k - |members|], NextId(members) + (k - |members|)))
  {
    hide Finished, Build, Missing, NextId;
  }

  lemma FinishedKeepsHost(m: Member, blocks: seq<Block>)
    ensures Finished(m, blocks).host == m.host
  {
  }

  lemma BuildKeepsHost(b: Block, id: int)
    ensures Build(b, id).host == b.host
  {
  }

  /** What a block's host is at the target, read back, gives the block unless its vote raise stays held. */
  lemma {:induction false} TargetReadsBack(members: seq<Member>, blocks: seq<Block>, b: Block)
    requires DistinctHosts(Target(members, blocks)) && DistinctBlocks(blocks) && b in blocks && Extract(b) == b
    ensures var target := Target(members, blocks);
            var k := At(target, b.host);
            && k >= 0
            && (Extract(StateOf(target[k])) == b <==> (Raises(members, b) ==> NeedsPromotion(b)))
  {
    TargetMember(members, blocks, b);
    var j := At(members, b.host);
    hide Target, At, DistinctHosts, DistinctBlocks;
    if j >= 0 {
      BlockForIsUnique(blocks, b);
      MemberReadsBack(members[j], b);
      hide StateOf, Extract, NeedsPromotion, Pin, Overlay;
    }
  }

  lemma {:induction false} MemberReadsBack(m: Member, b: Block)
    requires Extract(b) == b
    ensures var x := Overlay(m, if NeedsPromotion(b) then b else Pin(m, b));
            x.host == m.host && (m.host == b.host ==> (Extract(StateOf(x)) == b <==> b.votes <= Votes(m) || NeedsPromotion(b)))
  {
  }

  /**
   * State read back at the target is the blocks themselves exactly when every
   * block that raises a live member's votes is one an apply promotes.
   */
  lemma {:induction false} TargetGivesBlocksBackExactlyWhen(members: seq<Member>, raw: seq<Block>)
    requires var blocks := ExtractAll(raw); DistinctHosts(Target(members, blocks)) && DistinctBlocks(blocks)
    ensures var blocks := ExtractAll(raw);
            ExtractAll(ReadBack(Target(members, blocks), BlockHosts(blocks))) == blocks
            <==> forall b | b in blocks && Raises(members, b) :: NeedsPromotion(b)
  {
    var blocks := ExtractAll(raw);
    var target := Target(members, blocks);
    forall i | 0 <= i < |blocks|
      ensures var k := At(target, blocks[i].host);
              k >= 0 && (Extract(StateOf(target[k])) == blocks[i] <==> (Raises(members, blocks[i]) ==> NeedsPromotion(blocks[i])))
    {
      assert blocks[i] == Extract(raw[i]) && blocks[i] in blocks;
      TargetReadsBack(members, blocks, blocks[i]);
    }
    hide Target, At, Raises, NeedsPromotion, Extract, StateOf, ReadBack;
    ReadBackOf(target, blocks);
    var state := ReadBack(target, BlockHosts(blocks));
    assert forall i | 0 <= i < |blocks| :: ExtractAll(state)[i] == Extract(state[i]);
  }
}
