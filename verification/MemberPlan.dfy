/**
 * What one apply wants of the members, computed from the live members and the
 * member blocks alone: which blocks name live members, which vote raises are
 * held back, what the settings reconfig makes of every member, how a new
 * member is staged, and what an undisturbed apply ends with (Target).
 */
module MemberPlan {
  import opened Wrappers
  import opened ReplicaSet

  // ---------------------------------------------------------------- lookups

  /** The last position whose member is named host, or -1: the source's host map. */
  function At(members: seq<Member>, host: string): (k: int)
    ensures -1 <= k < |members|
    ensures k >= 0 ==> members[k].host == host
    ensures forall j | k < j < |members| :: members[j].host != host
  {
    if members == [] then -1
    else if members[|members| - 1].host == host then |members| - 1
    else At(members[..|members| - 1], host)
  }

  /** The first position whose member is named host, or -1: the source's linear search. */
  function FirstAt(members: seq<Member>, host: string): (k: int)
    ensures -1 <= k < |members|
    ensures k >= 0 ==> members[k].host == host
    ensures forall j | 0 <= j < (if k < 0 then |members| else k) :: members[j].host != host
  {
    if members == [] then -1
    else if members[0].host == host then 0
    else var k := FirstAt(members[1..], host); if k < 0 then -1 else k + 1
  }

  function BlockFor(blocks: seq<Block>, host: string): (b: Option<Block>)
    ensures b.Some? ==> b.value in blocks && b.value.host == host
    ensures b.None? ==> forall c | c in blocks :: c.host != host
  {
    if blocks == [] then None
    else if blocks[0].host == host then Some(blocks[0])
    else BlockFor(blocks[1..], host)
  }

  ghost predicate DistinctHosts(members: seq<Member>) {
    forall i, j | 0 <= i < j < |members| :: members[i].host != members[j].host
  }

  predicate DistinctBlocks(blocks: seq<Block>) {
    forall i, j | 0 <= i < j < |blocks| :: blocks[i].host != blocks[j].host
  }

  ghost predicate SameHosts(a: seq<Member>, b: seq<Member>) {
    |a| == |b| && forall i | 0 <= i < |a| :: a[i].host == b[i].host
  }

  // ------------------------------------------------- splitting and holding

  function Existing(members: seq<Member>, blocks: seq<Block>): seq<Block> {
    if blocks == [] then []
    else (if At(members, blocks[0].host) >= 0 then [blocks[0]] else []) + Existing(members, blocks[1..])
  }

  function Missing(members: seq<Member>, blocks: seq<Block>): seq<Block> {
    if blocks == [] then []
    else (if At(members, blocks[0].host) < 0 then [blocks[0]] else []) + Missing(members, blocks[1..])
  }

  /** b with its votes and priority pinned to the live ones if it would raise the votes. */
  function Pin(m: Member, b: Block): Block {
    if b.votes <= Votes(m) then b else b.(votes := Votes(m), priority := m.priority)
  }

  function HeldBlock(members: seq<Member>, b: Block): Block {
    var k := At(members, b.host);
    if k < 0 then b else Pin(members[k], b)
  }

  function Held(members: seq<Member>, blocks: seq<Block>): (held: seq<Block>)
    ensures |held| == |blocks|
  {
    seq(|blocks|, i requires 0 <= i < |blocks| => HeldBlock(members, blocks[i]))
  }

  predicate Raises(members: seq<Member>, b: Block) {
    var k := At(members, b.host);
    k >= 0 && b.votes > Votes(members[k])
  }

  function Promotions(members: seq<Member>, blocks: seq<Block>): seq<Block> {
    if blocks == [] then []
    else (if Raises(members, blocks[0]) then [blocks[0]] else []) + Promotions(members, blocks[1..])
  }

  // ------------------------------------------------------ merging, building

  /** Every field of b written onto m; the id, the host and the slave delay stay. */
  function Overlay(m: Member, b: Block): Member {
    m.(priority := b.priority,
       votes := Some(b.votes),
       hidden := Some(b.hidden),
       arbiterOnly := Some(b.arbiterOnly),
       buildIndexes := Some(b.buildIndexes),
       tags := b.tags)
  }

  /** The members after the blocks are written one after the other, or None at an unknown host. */
  function Merged(members: seq<Member>, blocks: seq<Block>): Option<seq<Member>>
    decreases blocks
  {
    if blocks == [] then Some(members)
    else
      var k := At(members, blocks[0].host);
      if k < 0 then None else Merged(members[k := Overlay(members[k], blocks[0])], blocks[1..])
  }

  /** One above the highest id in use, 0 for an empty set. */
  function NextId(members: seq<Member>): (next: int)
    ensures next >= 0
    ensures forall i | 0 <= i < |members| :: members[i].id < next
  {
    if members == [] then 0
    else
      var last, next := members[|members| - 1], NextId(members[..|members| - 1]);
      if last.id >= next then last.id + 1 else next
  }

  function Build(b: Block, id: int): Member {
    Member(id, b.host, Some(b.arbiterOnly), Some(b.buildIndexes), Some(b.hidden), b.priority, b.tags, None,
           Some(b.votes))
  }

  /** The form a new member is first added in: arbiters as declared, others without a vote. */
  function Staged(b: Block, id: int): Member {
    if b.arbiterOnly then Build(b, id) else Build(b.(votes := 0, priority := 0.0), id)
  }

  predicate NeedsPromotion(b: Block) {
    !b.arbiterOnly && (b.votes != 0 || b.priority != 0.0)
  }

  /** m with the votes and priority its block asks for, nothing else changed. */
  function Promoted(m: Member, b: Block): Member {
    m.(priority := b.priority, votes := Some(b.votes))
  }

  // ---------------------------------------------------- waiting on a member

  datatype WaitTarget = WaitReachable | WaitSecondary | WaitArbiter

  function WaitTargetFor(b: Block): WaitTarget {
    if b.arbiterOnly then WaitArbiter
    else if NeedsPromotion(b) then WaitSecondary
    else WaitReachable
  }

  datatype Observation = Observation(reachable: bool, met: bool)

  /** What the first row named host says against the target; no row counts as down. */
  function Observe(rows: seq<StatusRow>, host: string, target: WaitTarget): Observation {
    if rows == [] then Observation(false, false)
    else if rows[0].name != host then Observe(rows[1..], host, target)
    else
      var up, state := rows[0].health == HEALTH_UP, rows[0].state;
      Observation(up, up && match target
                            case WaitSecondary => state == STATE_SECONDARY || state == STATE_PRIMARY
                            case WaitArbiter => state == STATE_ARBITER
                            case WaitReachable => true)
  }

  // ------------------------------------------------- inspecting a candidate

  datatype Verdict = AddOk | AddRefused | AddUnknown

  const MONGOS_MSG := "isdbgrid"

  function CheckAddTarget(setName: string, reply: Reply<IsMaster>): Verdict {
    match reply
    case Errored(_) => AddUnknown
    case Answered(resp) =>
      if resp.msg == MONGOS_MSG then AddRefused
      else if resp.setName == setName then AddRefused
      else if resp.setName != "" then AddRefused
      else if resp.isReplicaSet then AddOk
      else AddRefused
  }

  /** The pre-flight lets b through: inspected and addable, or not inspectable but able to be staged. */
  predicate Passes(setName: string, b: Block, reply: Reply<IsMaster>) {
    match CheckAddTarget(setName, reply)
    case AddOk => true
    case AddRefused => false
    case AddUnknown => !b.arbiterOnly
  }

  // -------------------------------------------------------- reading blocks

  /** unicode.IsSpace. */
  predicate IsSpace(c: char) {
    var x := c as int;
    || 0x09 <= x <= 0x0D || x == 0x20 || x == 0x85 || x == 0xA0 || x == 0x1680
    || 0x2000 <= x <= 0x200A || x == 0x2028 || x == 0x2029 || x == 0x202F || x == 0x205F || x == 0x3000
  }

  /** strings.TrimSpace(host) is empty. */
  predicate Blank(host: string) {
    forall i | 0 <= i < |host| :: IsSpace(host[i])
  }

  predicate ValidBlocks(blocks: seq<Block>) {
    DistinctBlocks(blocks) && forall b | b in blocks :: !Blank(b.host)
  }

  /** A raw member block as the apply uses it: arbiters have priority 0, empty tags are none. */
  function Extract(raw: Block): Block {
    raw.(priority := if raw.arbiterOnly then 0.0 else raw.priority,
         tags := if raw.tags.Some? && |raw.tags.value| > 0 then raw.tags else None)
  }

  function ExtractAll(raw: seq<Block>): (blocks: seq<Block>)
    ensures |blocks| == |raw|
  {
    seq(|raw|, i requires 0 <= i < |raw| => Extract(raw[i]))
  }

  /** A live member as state records it. */
  function StateOf(m: Member): Block {
    Block(m.host, m.priority, Votes(m), Flag(m.hidden), Flag(m.arbiterOnly), Flag(m.buildIndexes),
          Some(if m.tags.Some? then m.tags.value else map[]))
  }

  /** State in the order of the managed hosts, skipping hosts not in the set. */
  function ReadBack(members: seq<Member>, hosts: seq<string>): seq<Block> {
    if hosts == [] then []
    else
      var k := At(members, hosts[0]);
      (if k >= 0 then [StateOf(members[k])] else []) + ReadBack(members, hosts[1..])
  }

  function BlockHosts(blocks: seq<Block>): (hosts: seq<string>)
    ensures |hosts| == |blocks|
  {
    seq(|blocks|, i requires 0 <= i < |blocks| => blocks[i].host)
  }

  // ----------------------------------------------- what an apply works toward

  /** A live member once the settings reconfig went in. */
  function Settled(m: Member, blocks: seq<Block>): Member {
    match BlockFor(blocks, m.host)
    case None => m
    case Some(b) => Overlay(m, Pin(m, b))
  }

  function SettledAll(members: seq<Member>, blocks: seq<Block>): (r: seq<Member>)
    ensures |r| == |members|
  {
    seq(|members|, i requires 0 <= i < |members| => Settled(members[i], blocks))
  }

  /**
   * A live member once an undisturbed apply is over: its block in full, except
   * that a vote raise no promotion will carry out (an arbiter's) stays held.
   */
  function Finished(m: Member, blocks: seq<Block>): Member {
    match BlockFor(blocks, m.host)
    case None => m
    case Some(b) => Overlay(m, if NeedsPromotion(b) then b else Pin(m, b))
  }

  function FinishedAll(members: seq<Member>, blocks: seq<Block>): (r: seq<Member>)
    ensures |r| == |members|
  {
    seq(|members|, i requires 0 <= i < |members| => Finished(members[i], blocks))
  }

  function Additions(missing: seq<Block>, id: int): (r: seq<Member>)
    ensures |r| == |missing|
  {
    seq(|missing|, i requires 0 <= i < |missing| => Build(missing[i], id + i))
  }

  /** The members an undisturbed apply of blocks turns members into. */
  function Target(members: seq<Member>, blocks: seq<Block>): seq<Member> {
    FinishedAll(members, blocks) + Additions(Missing(members, blocks), NextId(members))
  }

  // ------------------------------------------------------------ basic facts

  lemma {:induction false} AtIsUnique(members: seq<Member>, k: int)
    requires DistinctHosts(members) && 0 <= k < |members|
    ensures At(members, members[k].host) == k && FirstAt(members, members[k].host) == k
  {
    var at, first := At(members, members[k].host), FirstAt(members, members[k].host);
    assert members[at].host == members[k].host && members[first].host == members[k].host;
  }

  lemma {:induction false} AtAppended(members: seq<Member>, x: Member, host: string)
    ensures At(members + [x], host) == if x.host == host then |members| else At(members, host)
  {
    assert (members + [x])[..|members|] == members;
  }

  lemma {:induction false} AtByHosts(a: seq<Member>, b: seq<Member>, host: string)
    requires SameHosts(a, b)
    ensures At(a, host) == At(b, host)
  {
    if a != [] {
      AtByHosts(a[..|a| - 1], b[..|b| - 1], host);
    }
  }

  lemma {:induction false} BlockForIsUnique(blocks: seq<Block>, b: Block)
    requires DistinctBlocks(blocks) && b in blocks
    ensures BlockFor(blocks, b.host) == Some(b)
  {
    var c := BlockFor(blocks, b.host);
    var i :| 0 <= i < |blocks| && blocks[i] == b;
    assert c.Some?;
    var j :| 0 <= j < |blocks| && blocks[j] == c.value;
  }

  lemma {:induction false} NextIdAppended(members: seq<Member>, x: Member)
    requires x.id == NextId(members)
    ensures NextId(members + [x]) == x.id + 1
  {
    assert (members + [x])[..|members|] == members;
  }

  lemma {:induction false} NextIdByIds(a: seq<Member>, b: seq<Member>)
    requires |a| == |b| && forall i | 0 <= i < |a| :: a[i].id == b[i].id
    ensures NextId(a) == NextId(b)
  {
    if a != [] {
      NextIdByIds(a[..|a| - 1], b[..|b| - 1]);
    }
  }

  // ------------------------------------------------- which blocks are missing

  /** A block is missing exactly when its host is not live, existing exactly when it is. */
  lemma {:induction false} PartitionSplits(members: seq<Member>, blocks: seq<Block>, b: Block)
    ensures b in Missing(members, blocks) <==> b in blocks && At(members, b.host) < 0
    ensures b in Existing(members, blocks) <==> b in blocks && At(members, b.host) >= 0
  {
    if blocks != [] {
      PartitionSplits(members, blocks[1..], b);
    }
  }

  /** Both parts keep the order of the blocks. */
  lemma {:induction false} PartitionKeepsOrder(members: seq<Member>, a: seq<Block>, b: seq<Block>)
    ensures Existing(members, a + b) == Existing(members, a) + Existing(members, b)
    ensures Missing(members, a + b) == Missing(members, a) + Missing(members, b)
  {
    if a == [] {
      assert a + b == b;
    } else {
      assert (a + b)[0] == a[0] && (a + b)[1..] == a[1..] + b;
      PartitionKeepsOrder(members, a[1..], b);
      hide At;
      Associates(if At(members, a[0].host) >= 0 then [a[0]] else [], Existing(members, a[1..]), Existing(members, b));
      Associates(if At(members, a[0].host) < 0 then [a[0]] else [], Missing(members, a[1..]), Missing(members, b));
    }
  }

  lemma {:induction false} NoneMissing(members: seq<Member>, blocks: seq<Block>)
    requires forall b | b in blocks :: At(members, b.host) >= 0
    ensures Missing(members, blocks) == [] && Existing(members, blocks) == blocks
  {
    if blocks != [] {
      assert blocks[0] in blocks;
      NoneMissing(members, blocks[1..]);
    }
  }

  /** Nothing is lost or counted twice by the split. */
  lemma {:induction false} PartitionConserves(members: seq<Member>, blocks: seq<Block>)
    ensures multiset(Existing(members, blocks)) + multiset(Missing(members, blocks)) == multiset(blocks)
  {
    if blocks != [] {
      PartitionConserves(members, blocks[1..]);
      assert blocks == [blocks[0]] + blocks[1..];
    }
  }

  lemma {:induction false} PartitionDistinct(members: seq<Member>, blocks: seq<Block>)
    requires DistinctBlocks(blocks)
    ensures DistinctBlocks(Missing(members, blocks)) && DistinctBlocks(Existing(members, blocks))
  {
    if blocks != [] {
      var b, rest := blocks[0], blocks[1..];
      var missing, existing := Missing(members, rest), Existing(members, rest);
      PartitionDistinct(members, rest);
      forall c ensures c in missing || c in existing ==> c in rest {
        PartitionSplits(members, rest, c);
      }
      FirstDiffers(blocks, missing);
      FirstDiffers(blocks, existing);
      assert Missing(members, blocks) == missing || Missing(members, blocks) == [b] + missing;
      assert Existing(members, blocks) == existing || Existing(members, blocks) == [b] + existing;
      hide Missing, Existing, At;
      ConsDistinct(b, missing);
      ConsDistinct(b, existing);
    }
  }

  lemma {:induction false} ConsDistinct(b: Block, blocks: seq<Block>)
    requires DistinctBlocks(blocks) && forall c | c in blocks :: c.host != b.host
    ensures DistinctBlocks([b] + blocks)
  {
  }

  lemma {:induction false} FirstDiffers(blocks: seq<Block>, some: seq<Block>)
    requires blocks != [] && DistinctBlocks(blocks)
    requires forall b | b in some :: b in blocks[1..]
    ensures forall i | 0 <= i < |some| :: some[i].host != blocks[0].host
  {
    forall i | 0 <= i < |some| ensures some[i].host != blocks[0].host {
      assert some[i] in blocks[1..];
      var j :| 0 <= j < |blocks[1..]| && blocks[1..][j] == some[i];
      assert blocks[j + 1] == some[i];
    }
  }

  lemma {:induction false} MissingByHosts(a: seq<Member>, b: seq<Member>, blocks: seq<Block>)
    requires SameHosts(a, b)
    ensures Missing(a, blocks) == Missing(b, blocks) && Existing(a, blocks) == Existing(b, blocks)
  {
    if blocks != [] {
      AtByHosts(a, b, blocks[0].host);
      MissingByHosts(a, b, blocks[1..]);
    }
  }

  lemma {:induction false} MissingUnaffected(members: seq<Member>, x: Member, blocks: seq<Block>)
    requires forall b | b in blocks :: b.host != x.host
    ensures Missing(members + [x], blocks) == Missing(members, blocks)
  {
    if blocks != [] {
      AtAppended(members, x, blocks[0].host);
      MissingUnaffected(members, x, blocks[1..]);
    }
  }

  /** Adding the first missing member leaves exactly the other missing blocks. */
  lemma {:induction false} MissingAfterAdd(members: seq<Member>, x: Member, blocks: seq<Block>)
    requires DistinctBlocks(blocks)
    requires Missing(members, blocks) != [] && Missing(members, blocks)[0].host == x.host
    ensures Missing(members + [x], blocks) == Missing(members, blocks)[1..]
  {
    AtAppended(members, x, blocks[0].host);
    hide At;
    if At(members, blocks[0].host) < 0 {
      assert Missing(members, blocks) == [blocks[0]] + Missing(members, blocks[1..]);
      FirstDiffers(blocks, blocks[1..]);
      MissingUnaffected(members, x, blocks[1..]);
    } else {
      var b := Missing(members, blocks)[0];
      PartitionSplits(members, blocks, b);
      MissingAfterAdd(members, x, blocks[1..]);
    }
  }
}
