/**
 * The plan-time preview of an apply: which hosts it marks as added or
 * promoted, which lines it shows, and when the apply sends exactly the
 * reconfigs it shows.
 */
module Preview {
  import opened Wrappers
  import opened ReplicaSet
  import opened MemberPlan
  import opened Server
  import Timing
  import opened Apply
  import opened ApplyLaws
  import opened ReconfigRetry
  import opened MemberWait
  import opened Reconciliation
  import opened ApplySteps

  /** The part of a member block the preview needs. */
  datatype PreviewMember = PreviewMember(host: string, votes: int, priority: real, arbiterOnly: bool)

  datatype Change = Change(member: PreviewMember, add: bool, promote: bool)

  datatype Line =
    | InitiateLine
    | SettingsLine
    | AddArbiterLine(host: string)
    | AddLine(host: string)
    | PromoteLine(host: string, votes: int, priority: real)

  function Shown(b: Block): PreviewMember {
    PreviewMember(b.host, b.votes, b.priority, b.arbiterOnly)
  }

  function ShownAll(blocks: seq<Block>): (r: seq<PreviewMember>)
    ensures |r| == |blocks|
  {
    seq(|blocks|, i requires 0 <= i < |blocks| => Shown(blocks[i]))
  }

  /** The last entry of state named host: the source's live map. */
  function InState(state: seq<PreviewMember>, host: string): Option<PreviewMember> {
    if state == [] then None
    else if state[|state| - 1].host == host then Some(state[|state| - 1])
    else InState(state[..|state| - 1], host)
  }

  /** The change m calls for, if any. */
  function ChangeFor(state: seq<PreviewMember>, m: PreviewMember): Option<Change> {
    var prev := InState(state, m.host);
    if prev.None? then Some(Change(m, true, !m.arbiterOnly && (m.votes != 0 || m.priority != 0.0)))
    else if m.votes > prev.value.votes then Some(Change(m, false, true))
    else None
  }

  function Changes(state: seq<PreviewMember>, planned: seq<PreviewMember>, seen: set<string>): seq<Change>
    decreases planned
  {
    if planned == [] then []
    else
      var m, rest := planned[0], planned[1..];
      if m.host == "" || m.host in seen then Changes(state, rest, seen)
      else
        var c := ChangeFor(state, m);
        (if c.Some? then [c.value] else []) + Changes(state, rest, seen + {m.host})
  }

  function LinesOf(c: Change): seq<Line> {
    (if c.add then [if c.member.arbiterOnly then AddArbiterLine(c.member.host) else AddLine(c.member.host)] else [])
    + (if c.promote then [PromoteLine(c.member.host, c.member.votes, c.member.priority)] else [])
  }

  function ChangeLines(changes: seq<Change>): seq<Line> {
    if changes == [] then [] else LinesOf(changes[0]) + ChangeLines(changes[1..])
  }

  function PreviewLines(isCreate: bool, changes: seq<Change>): seq<Line> {
    (if isCreate then [InitiateLine] else []) + [SettingsLine] + ChangeLines(changes)
  }

  /** How many of the lines announce a reconfig. */
  function ReconfigLines(lines: seq<Line>): nat {
    if lines == [] then 0 else (if lines[0].InitiateLine? then 0 else 1) + ReconfigLines(lines[1..])
  }

  // ------------------------------------------------------ what the apply will do

  /** The same list told by the apply's own functions: missing blocks and vote raises, in block order. */
  function Announced(live: seq<Member>, raw: seq<Block>): seq<Change> {
    if raw == [] then []
    else
      (if At(live, raw[0].host) < 0 then [Change(Shown(raw[0]), true, NeedsPromotion(Extract(raw[0])))]
       else if Raises(live, Extract(raw[0])) then [Change(Shown(raw[0]), false, true)]
       else []) + Announced(live, raw[1..])
  }

  /** State knows of every host in hosts what the live members say of its votes. */
  ghost predicate Reflects(state: seq<PreviewMember>, live: seq<Member>, hosts: seq<string>) {
    forall h | h in hosts ::
      var prev, k := InState(state, h), At(live, h);
      && (prev.Some? <==> k >= 0)
      && (prev.Some? ==> prev.value.votes == Votes(live[k]))
  }

  lemma {:induction false} InStateAppended(state: seq<PreviewMember>, x: PreviewMember, host: string)
    ensures InState(state + [x], host) == if x.host == host then Some(x) else InState(state, host)
  {
    assert (state + [x])[..|state|] == state;
  }

  lemma {:induction false} InStateOf(state: seq<PreviewMember>, host: string, x: PreviewMember)
    requires forall m | m in state && m.host == host :: m == x
    requires exists m :: m in state && m.host == host
    ensures InState(state, host) == Some(x)
  {
    var last := state[|state| - 1];
    assert last in state;
    if last.host != host {
      var prefix := state[..|state| - 1];
      assert state == prefix + [last];
      InStateOf(prefix, host, x);
    }
  }

  lemma {:induction false} InStateNone(state: seq<PreviewMember>, host: string)
    requires forall m | m in state :: m.host != host
    ensures InState(state, host).None?
  {
    if state != [] {
      InStateNone(state[..|state| - 1], host);
    }
  }

  /** Whatever is read back is the live member of some managed host. */
  lemma {:induction false} ReadBackHolds(live: seq<Member>, hosts: seq<string>, m: Block)
    requires m in ReadBack(live, hosts)
    ensures m.host in hosts && At(live, m.host) >= 0 && m == StateOf(live[At(live, m.host)])
  {
    var k := At(live, hosts[0]);
    if !(k >= 0 && m == StateOf(live[k])) {
      ReadBackHolds(live, hosts[1..], m);
    }
  }

  lemma {:induction false} ReadBackFinds(live: seq<Member>, hosts: seq<string>, h: string)
    requires h in hosts && At(live, h) >= 0
    ensures StateOf(live[At(live, h)]) in ReadBack(live, hosts)
  {
    if h != hosts[0] {
      ReadBackFinds(live, hosts[1..], h);
    }
  }

  /**
   * Failed or not, an apply that ran its member phase and could read the
   * configuration leaves in state exactly the declared hosts that are live, as
   * they are live.
   */
  lemma {:induction false} RecordedStateIsLive(env: Env, start: World, req: Request, m: Block)
    requires Ready(start, req)
    requires ApplyOnce(env, start, req).value.Applied? || ApplyOnce(env, start, req).value.MembersFailed?
    ensures var end := ApplyOnce(env, start, req);
            var live := end.world.config.members;
            m in end.value.state
            <==> && (exists b :: b in req.members && b.host == m.host)
                 && At(live, m.host) >= 0 && m == StateOf(live[At(live, m.host)])
  {
    ApplyFollows(env, start, req);
    hide ApplyOnce, ReadBack, At, StateOf;
    var live, hosts := ApplyOnce(env, start, req).world.config.members, BlockHosts(req.members);
    assert forall i | 0 <= i < |hosts| :: hosts[i] == req.members[i].host;
    if m in ReadBack(live, hosts) {
      ReadBackHolds(live, hosts, m);
      var i :| 0 <= i < |hosts| && hosts[i] == m.host;
      assert req.members[i] in req.members;
    }
    if m.host in hosts && At(live, m.host) >= 0 {
      ReadBackFinds(live, hosts, m.host);
    }
    forall b | b in req.members ensures b.host in hosts {
      var i :| 0 <= i < |req.members| && req.members[i] == b;
      assert hosts[i] == b.host;
    }
  }

  /** State read back from the live members in block order reflects them. */
  lemma {:induction false} StateReflects(live: seq<Member>, hosts: seq<string>)
    ensures Reflects(ShownAll(ReadBack(live, hosts)), live, hosts)
  {
    var shown := ShownAll(ReadBack(live, hosts));
    forall h | h in hosts
      ensures InState(shown, h).Some? <==> At(live, h) >= 0
      ensures InState(shown, h).Some? ==> InState(shown, h).value.votes == Votes(live[At(live, h)])
    {
      StateReflectsHost(live, hosts, h);
    }
  }

  lemma {:induction false} StateReflectsHost(live: seq<Member>, hosts: seq<string>, h: string)
    requires h in hosts
    ensures var shown, k := ShownAll(ReadBack(live, hosts)), At(live, h);
            if k >= 0 then InState(shown, h) == Some(Shown(StateOf(live[k]))) else InState(shown, h).None?
  {
    var state := ReadBack(live, hosts);
    var shown, k := ShownAll(state), At(live, h);
    forall m | m in shown && m.host == h ensures k >= 0 && m == Shown(StateOf(live[k])) {
      var i :| 0 <= i < |shown| && shown[i] == m;
      ReadBackHolds(live, hosts, state[i]);
    }
    if k >= 0 {
      var x := StateOf(live[k]);
      ReadBackFinds(live, hosts, h);
      var i :| 0 <= i < |state| && state[i] == x;
      assert shown[i] == Shown(x) && shown[i] in shown;
      InStateOf(shown, h, Shown(x));
    } else {
      InStateNone(shown, h);
    }
  }

  /**
   * State read back over the hosts of other blocks, such as those of the last
   * apply, reflects the live members of hosts exactly when it covers every one
   * of them that is live.
   */
  lemma {:induction false} StateReflectsExactlyWhen(live: seq<Member>, managed: seq<string>, hosts: seq<string>)
    ensures Reflects(ShownAll(ReadBack(live, managed)), live, hosts)
            <==> forall h | h in hosts && At(live, h) >= 0 :: h in managed
  {
    var shown := ShownAll(ReadBack(live, managed));
    forall h | h in hosts
      ensures h in managed ==> (InState(shown, h).Some? <==> At(live, h) >= 0)
      ensures h in managed && At(live, h) >= 0 ==> InState(shown, h).value.votes == Votes(live[At(live, h)])
      ensures h !in managed ==> InState(shown, h).None?
    {
      if h in managed {
        StateReflectsHost(live, managed, h);
      } else {
        StateOmits(live, managed, h);
      }
    }
    hide InState, At, ShownAll, ReadBack;
  }

  lemma {:induction false} StateOmits(live: seq<Member>, hosts: seq<string>, h: string)
    requires h !in hosts
    ensures InState(ShownAll(ReadBack(live, hosts)), h).None?
  {
    var state := ReadBack(live, hosts);
    forall m | m in ShownAll(state) ensures m.host != h {
      var i :| 0 <= i < |state| && ShownAll(state)[i] == m;
      ReadBackHolds(live, hosts, state[i]);
    }
    InStateNone(ShownAll(state), h);
  }

  /** The preview marks exactly the missing hosts as added and exactly the held promotions and the staged adds as promoted. */
  lemma {:induction false} ChangesAreAnnounced(state: seq<PreviewMember>, live: seq<Member>, raw: seq<Block>,
                                               seen: set<string>)
    requires DistinctBlocks(raw) && forall b | b in raw :: b.host != "" && b.host !in seen
    requires Reflects(state, live, BlockHosts(raw))
    ensures Changes(state, ShownAll(raw), seen) == Announced(live, raw)
  {
    hide InState, At;
    if raw != [] {
      var b, rest := raw[0], raw[1..];
      assert b in raw && BlockHosts(raw)[0] == b.host && b.host in BlockHosts(raw);
      assert ShownAll(raw)[0] == Shown(b) && ShownAll(raw)[1..] == ShownAll(rest);
      FirstDiffers(raw, rest);
      assert forall h | h in BlockHosts(rest) :: h in BlockHosts(raw) by {
        assert BlockHosts(raw)[1..] == BlockHosts(rest);
      }
      ChangesAreAnnounced(state, live, rest, seen + {b.host});
    }
  }

  /** Entry i is the first of its host, and the host is known. */
  ghost predicate FirstKnown(planned: seq<PreviewMember>, i: int) {
    0 <= i < |planned| && planned[i].host != "" && forall j | 0 <= j < i :: planned[j].host != planned[i].host
  }

  /**
   * Of all planned blocks, unknown hosts and repeated ones included, the
   * changes are those the first block of each known host calls for.
   */
  lemma {:induction false} ChangesExactlyWhen(state: seq<PreviewMember>, planned: seq<PreviewMember>,
                                              seen: set<string>, c: Change)
    ensures c in Changes(state, planned, seen)
            <==> exists i :: FirstKnown(planned, i) && planned[i].host !in seen && ChangeFor(state, planned[i]) == Some(c)
    decreases planned
  {
    if planned != [] {
      var m, rest := planned[0], planned[1..];
      var seen' := if m.host == "" || m.host in seen then seen else seen + {m.host};
      hide ChangeFor;
      ChangesExactlyWhen(state, rest, seen', c);
      assert forall i | 0 <= i < |rest| :: rest[i] == planned[i + 1];
      forall i | 0 <= i < |rest|
        ensures FirstKnown(rest, i) && rest[i].host != m.host <==> FirstKnown(planned, i + 1)
      {
        if FirstKnown(planned, i + 1) {
          assert forall j | 0 <= j < i :: rest[j].host == planned[j + 1].host != planned[i + 1].host;
          assert planned[0].host != planned[i + 1].host;
        }
      }
      assert FirstKnown(planned, 0) <==> m.host != "";
      ChangesHead(state, planned, seen, c);
      hide FirstKnown, Changes;
      if i :| FirstKnown(planned, i) && planned[i].host !in seen && ChangeFor(state, planned[i]) == Some(c) && i != 0 {
        assert FirstKnown(rest, i - 1) && rest[i - 1].host !in seen';
      }
      if i :| FirstKnown(rest, i) && rest[i].host !in seen' && ChangeFor(state, rest[i]) == Some(c) {
        assert rest[i].host != m.host ==> FirstKnown(planned, i + 1) && planned[i + 1].host !in seen;
      }
    }
  }

  lemma {:induction false} ChangesHead(state: seq<PreviewMember>, planned: seq<PreviewMember>, seen: set<string>,
                                       c: Change)
    requires planned != []
    ensures var m, rest := planned[0], planned[1..];
            c in Changes(state, planned, seen)
            <==> if m.host == "" || m.host in seen then c in Changes(state, rest, seen)
                 else ChangeFor(state, m) == Some(c) || c in Changes(state, rest, seen + {m.host})
  {
    hide ChangeFor;
  }

  lemma {:induction false} ReconfigLinesTogether(a: seq<Line>, b: seq<Line>)
    ensures ReconfigLines(a + b) == ReconfigLines(a) + ReconfigLines(b)
  {
    if a == [] {
      assert a + b == b;
    } else {
      assert (a + b)[1..] == a[1..] + b;
      ReconfigLinesTogether(a[1..], b);
    }
  }

  lemma {:induction false} LinesTogether(a: seq<Change>, b: seq<Change>)
    ensures ReconfigLines(ChangeLines(a + b)) == ReconfigLines(ChangeLines(a)) + ReconfigLines(ChangeLines(b))
  {
    if a == [] {
      assert a + b == b;
    } else {
      assert (a + b)[1..] == a[1..] + b;
      LinesTogether(a[1..], b);
      ReconfigLinesTogether(LinesOf(a[0]), ChangeLines(a[1..] + b));
      ReconfigLinesTogether(LinesOf(a[0]), ChangeLines(a[1..]));
    }
  }

  lemma {:induction false} LinesOfOne(c: Change)
    ensures ReconfigLines(ChangeLines([c])) == (if c.add then 1 else 0) + (if c.promote then 1 else 0)
  {
    assert ChangeLines([c]) == LinesOf(c);
    if c.add && c.promote {
      assert LinesOf(c)[1..] == [PromoteLine(c.member.host, c.member.votes, c.member.priority)];
    }
  }

  /** One line per missing block, one per promotion of those, one per vote raise. */
  lemma {:induction false} AnnouncedLines(live: seq<Member>, raw: seq<Block>)
    ensures var blocks := ExtractAll(raw);
            ReconfigLines(ChangeLines(Announced(live, raw)))
            == |Missing(live, blocks)| + Promoting(Missing(live, blocks)) + |Raising(live, blocks)|
  {
    if raw != [] {
      var rest := raw[1..];
      var blocks := ExtractAll(raw);
      assert blocks[0] == Extract(raw[0]) && blocks[1..] == ExtractAll(rest);
      AnnouncedLines(live, rest);
      var head := if At(live, raw[0].host) < 0 then [Change(Shown(raw[0]), true, NeedsPromotion(Extract(raw[0])))]
                  else if Raises(live, Extract(raw[0])) then [Change(Shown(raw[0]), false, true)]
                  else [];
      LinesTogether(head, Announced(live, rest));
      if head != [] {
        LinesOfOne(head[0]);
        assert head == [head[0]];
      }
      MissingHead(live, blocks);
      PromotingHead(blocks[0], Missing(live, blocks[1..]));
    }
  }

  lemma {:induction false} MissingHead(live: seq<Member>, blocks: seq<Block>)
    requires blocks != []
    ensures var missing, rest := Missing(live, blocks), Missing(live, blocks[1..]);
            if At(live, blocks[0].host) < 0
            then missing == [blocks[0]] + rest && Raising(live, blocks) == Raising(live, blocks[1..])
            else missing == rest
                 && Raising(live, blocks)
                    == (if Raises(live, blocks[0]) then [blocks[0]] else []) + Raising(live, blocks[1..])
  {
    hide At, Raises;
    var b, rest := blocks[0], Existing(live, blocks[1..]);
    if At(live, b.host) >= 0 {
      assert Existing(live, blocks) == [b] + rest;
      assert ([b] + rest)[1..] == rest;
    } else {
      assert Existing(live, blocks) == rest;
    }
  }

  lemma PromotingHead(b: Block, rest: seq<Block>)
    ensures Promoting([b] + rest) == (if NeedsPromotion(b) then 1 else 0) + Promoting(rest)
  {
    assert ([b] + rest)[1..] == rest;
  }

  lemma {:induction false} PromotingAtMost(blocks: seq<Block>)
    ensures Promoting(blocks) <= |blocks|
    ensures Promoting(blocks) == |blocks| <==> forall b | b in blocks :: NeedsPromotion(b)
  {
    if blocks != [] {
      PromotingAtMost(blocks[1..]);
      assert forall b :: b in blocks <==> b == blocks[0] || b in blocks[1..];
    }
  }

  // ------------------------------------------------------ the preview and the apply

  /** The lines an update's plan shows, against the member blocks in state. */
  function UpdatePreview(state: seq<PreviewMember>, raw: seq<Block>): seq<Line> {
    PreviewLines(false, Changes(state, ShownAll(raw), {}))
  }

  /** What a create's plan takes for state: the member replSetInitiate makes of the first block. */
  function InitiatedState(raw: seq<Block>): seq<PreviewMember> {
    if raw == [] then [] else [Shown(raw[0]).(votes := 1, priority := 1.0)]
  }

  /** The lines a create's plan shows. */
  function CreatePreview(raw: seq<Block>): seq<Line> {
    PreviewLines(true, Changes(InitiatedState(raw), ShownAll(raw), {}))
  }

  /** Against any state that reflects the live members the blocks name, the preview has this many reconfig lines. */
  lemma {:induction false} CountPreviewLines(isCreate: bool, state: seq<PreviewMember>, live: seq<Member>, req: Request)
    requires ValidBlocks(Blocks(req)) && Reflects(state, live, BlockHosts(req.members))
    ensures var blocks := Blocks(req);
            ReconfigLines(PreviewLines(isCreate, Changes(state, ShownAll(req.members), {})))
            == 1 + |Missing(live, blocks)| + Promoting(Missing(live, blocks)) + |Raising(live, blocks)|
  {
    hide InState, Missing, Promotions, Existing, At, Changes, ShownAll;
    var raw := req.members;
    RawIsValid(raw);
    ChangesAreAnnounced(state, live, raw, {});
    AnnouncedLines(live, raw);
    var lines := ChangeLines(Announced(live, raw));
    hide Announced, ChangeLines, Reflects;
    ReconfigLinesTogether([SettingsLine], lines);
    if isCreate {
      assert [InitiateLine] + [SettingsLine] + lines == [InitiateLine] + ([SettingsLine] + lines);
      ReconfigLinesTogether([InitiateLine], [SettingsLine] + lines);
    } else {
      assert [] + [SettingsLine] + lines == [SettingsLine] + lines;
    }
  }

  lemma {:induction false} RawIsValid(raw: seq<Block>)
    requires ValidBlocks(ExtractAll(raw))
    ensures DistinctBlocks(raw) && forall b | b in raw :: b.host != ""
  {
    var blocks := ExtractAll(raw);
    assert forall i | 0 <= i < |raw| :: blocks[i].host == raw[i].host;
    forall b | b in raw ensures b.host != "" {
      var i :| 0 <= i < |raw| && raw[i] == b;
      assert blocks[i] in blocks;
      assert !Blank(blocks[i].host);
    }
  }

  /**
   * Whatever blocks state holds, as long as it reflects the live members the
   * planned blocks name, and whatever the server does: an apply that finishes
   * never takes more steps than the preview shows reconfigs, and takes exactly
   * as many if and only if every block that raises a live member's votes is
   * one the apply promotes. When the server accepts everything and no version
   * is bumped in front of a reconfig, the steps are the reconfigs sent.
   */
  lemma {:induction false} PreviewCountsReconfigs(env: Env, start: World, req: Request, isCreate: bool,
                                                  state: seq<PreviewMember>)
    requires Ready(start, req) && Finishes(env, start, req)
    requires Reflects(state, start.config.members, BlockHosts(req.members))
    ensures var log := ApplyOnce(env, start, req).world.log;
            var shown := ReconfigLines(PreviewLines(isCreate, Changes(state, ShownAll(req.members), {})));
            && |Steps(log)| <= shown
            && (|Steps(log)| == shown
                <==> forall b | b in Blocks(req) && Raises(start.config.members, b) :: NeedsPromotion(b))
            && (Accepting(env) && NoConflict(log) ==> Reconfigs(log) == |Steps(log)|)
  {
    var live, blocks := start.config.members, Blocks(req);
    assert ValidBlocks(blocks);
    hide ApplyOnce, PreviewLines, Changes, Raises, Missing, Reflects, Finishes, Steps, Due, Accepting, NoConflict, Raising,
         Ready, ValidBlocks;
    FinishingTakesTheStepsDue(env, start, req);
    DueIsCounted(live, blocks);
    CountPreviewLines(isCreate, state, live, req);
    PromotingAtMost(Raising(live, blocks));
    forall b ensures b in Raising(live, blocks) <==> b in blocks && Raises(live, b) {
      RaisingOf(live, blocks, b);
    }
  }

  /** The same of a create's preview, whose apply meets the one member the initiation made. */
  lemma {:induction false} CreatePreviewCountsReconfigs(env: Env, start: World, req: Request, initiated: Member)
    requires Ready(start, req) && Finishes(env, start, req)
    requires req.members != [] && start.config.members == [initiated]
    requires initiated.host == req.members[0].host && Votes(initiated) == 1
    ensures var log := ApplyOnce(env, start, req).world.log;
            var shown := ReconfigLines(CreatePreview(req.members));
            && |Steps(log)| <= shown
            && (|Steps(log)| == shown <==> forall b | b in Blocks(req) && Raises([initiated], b) :: NeedsPromotion(b))
            && (Accepting(env) && NoConflict(log) ==> Reconfigs(log) == |Steps(log)|)
  {
    InitiatedStateReflects(req.members, initiated);
    hide ApplyOnce, PreviewLines, Changes, Finishes, Ready, Reflects, Raises, InitiatedState, Steps, Accepting, NoConflict;
    PreviewCountsReconfigs(env, start, req, true, InitiatedState(req.members));
  }

  /**
   * On a set a server accepts, where arbiters vote, with blocks that give at
   * most one vote and leave arbiters what they are, the preview is exact.
   */
  lemma {:induction false} PreviewIsExact(env: Env, start: World, req: Request, isCreate: bool,
                                          state: seq<PreviewMember>)
    requires Ready(start, req) && Finishes(env, start, req)
    requires Reflects(state, start.config.members, BlockHosts(req.members))
    requires forall m | m in start.config.members :: Votes(m) >= if Flag(m.arbiterOnly) then 1 else 0
    requires forall b | b in Blocks(req) :: b.votes <= 1
    requires forall b, m | b in Blocks(req) && m in start.config.members && m.host == b.host ::
               b.arbiterOnly == Flag(m.arbiterOnly)
    ensures var log := ApplyOnce(env, start, req).world.log;
            && ReconfigLines(PreviewLines(isCreate, Changes(state, ShownAll(req.members), {}))) == |Steps(log)|
            && (Accepting(env) && NoConflict(log) ==> Reconfigs(log) == |Steps(log)|)
  {
    forall b | b in Blocks(req) && Raises(start.config.members, b) ensures NeedsPromotion(b) {
      var m := start.config.members[At(start.config.members, b.host)];
      assert m in start.config.members && m.host == b.host;
    }
    hide ApplyOnce, PreviewLines, Changes, Finishes, Ready, Reflects, Raises, NeedsPromotion, Steps, Accepting, NoConflict;
    PreviewCountsReconfigs(env, start, req, isCreate, state);
  }

  /**
   * The case where it is not: a live arbiter without a vote, whose block gives
   * it one. The preview shows a promotion the apply never sends.
   */
  lemma {:induction false} ArbiterRaiseIsOverstated(start: World, req: Request)
    requires start.config.members == [Member(0, "arb:1", Some(true), None, None, 0.0, None, None, Some(0))]
    requires req.members == [Block("arb:1", 0.0, 1, false, true, true, None)]
    ensures var row := StatusRow("arb:1", HEALTH_UP, STATE_ARBITER);
            var env: Env := (_: nat) => Answer(0, 0, None, 0, Accepted, Answered([row]), Errored(PROBE_SKIPPED));
            && Ready(start, req) && Finishes(env, start, req)
            && Steps(ApplyOnce(env, start, req).world.log) == [SettingsAndMembers]
            && ReconfigLines(UpdatePreview(ShownAll(ReadBack(start.config.members, ["arb:1"])), req.members)) == 2
  {
    var row := StatusRow("arb:1", HEALTH_UP, STATE_ARBITER);
    var env: Env := (_: nat) => Answer(0, 0, None, 0, Accepted, Answered([row]), Errored(PROBE_SKIPPED));
    var live, b := start.config.members, Extract(req.members[0]);
    assert Blocks(req) == [b] && BlockHosts(req.members) == ["arb:1"];
    LoneRaise(live, b);
    assert Observe([row], "arb:1", WaitTargetFor(b)).met;
    assert [b][0] == b;
    LoneRaiseFinishes(env, start, req, b);
    FinishingTakesTheStepsDue(env, start, req);
    hide ApplyOnce, Missing, At, Changes, Observe, Promotions, Promoting, Raising, ShownAll, ReadBack, Finishes, Steps;
    StateReflects(live, ["arb:1"]);
    CountPreviewLines(false, ShownAll(ReadBack(live, ["arb:1"])), live, req);
    assert PromotionSteps([b]) == PromotionStep(b) + PromotionSteps([]) == [] && AddSteps([]) == [];
  }

  /** An apply of one block, whose live member needs no promotion, finishes when its first status meets its target. */
  lemma {:induction false} LoneRaiseFinishes(env: Env, start: World, req: Request, b: Block)
    requires Ready(start, req) && Blocks(req) == [b] && !NeedsPromotion(b)
    requires Missing(start.config.members, [b]) == [] && Raising(start.config.members, [b]) == [b]
    requires forall i: nat :: env(i).bump == 0 && env(i).readError.None? && env(i).reconfig.Accepted?
    requires forall i: nat :: env(i).status.Answered? && Observe(env(i).status.value, b.host, WaitTargetFor(b)).met
    ensures Finishes(env, start, req)
  {
    ApplySends(env, start, req);
    var g := GetConfig(env, start.(log := []));
    assert env(start.calls).bump == 0 && env(start.calls).readError.None?;
    var cfg := g.value.value;
    assert cfg == start.config && g.world.config == start.config;
    assert Prepare(env, g.world, cfg.setName, req, []) == Step(g.world, None);
    SettingsSend(env, g.world, req, cfg);
    var phase := PhaseStart(env, g.world, req, cfg);
    SendAtOnce(env, g.world, req.ctx, SettingsAndMembers, SettingsConfig(cfg, req), g.world.clock + req.timeout);
    LoneRaiseIsSettled(env, phase, req.ctx, b, req.timeout);
    FinishEndsExactlyWhen(env, phase, req, [b], []);
    hide SendAndFinish, Finish, Prepare, Send, Reconcile, Missing, Raising, SettingsConfig, Observe;
  }

  lemma {:induction false} SendAtOnce(env: Env, w: World, ctx: nat, kind: Kind, cfg: Config, deadline: nat)
    requires env(w.calls).bump == 0 && env(w.calls).reconfig.Accepted? && w.config.version < cfg.version
    ensures Send(env, w, ctx, kind, cfg, deadline).value.None?
  {
  }

  lemma {:induction false} LoneRaiseIsSettled(env: Env, w: World, ctx: nat, b: Block, timeout: nat)
    requires !NeedsPromotion(b)
    requires env(w.calls).status.Answered? && Observe(env(w.calls).status.value, b.host, WaitTargetFor(b)).met
    ensures Reconcile(env, w, ctx, [b], [], timeout).value == PhaseEnd([], None)
  {
    AwaitMeetsAtOnce(env, w, ctx, b.host, WaitTargetFor(b), w.clock + timeout, Timing.INIT_POLL, NOTHING_SEEN);
    hide Await, Observe, NeedsPromotion, RemoveMember, PromoteMember;
    var s := Settle(env, w, ctx, b, timeout, false);
    assert s.value.Done?;
    hide Settle;
    assert [b][1..] == [];
    assert PromoteMembers(env, s.world, ctx, [], timeout) == Step(s.world, PhaseEnd([], None));
    assert PromoteMembers(env, w, ctx, [b], timeout).value == PhaseEnd([], None);
  }

  /** The plan for one live member whose block raises its votes and needs no promotion. */
  lemma {:induction false} LoneRaise(live: seq<Member>, b: Block)
    requires |live| == 1 && live[0].host == b.host && b.votes > Votes(live[0]) && !NeedsPromotion(b)
    requires b.host != "" && !IsSpace(b.host[0])
    ensures ValidBlocks([b]) && DistinctHosts(live)
    ensures Missing(live, [b]) == [] && Raising(live, [b]) == [b] && Promoting([b]) == 0 && Promoting([]) == 0
  {
    assert !Blank(b.host);
    assert [b][1..] == [];
    assert Existing(live, [b]) == [b] + Existing(live, []) == [b];
    assert Promotions(live, [b]) == [b] + Promotions(live, []);
  }

  /** The member the initiation makes is what a create's plan takes for state. */
  lemma {:induction false} InitiatedStateReflects(raw: seq<Block>, initiated: Member)
    requires raw != [] && initiated.host == raw[0].host && Votes(initiated) == 1
    ensures Reflects(InitiatedState(raw), [initiated], BlockHosts(raw))
  {
    forall h | h in BlockHosts(raw)
      ensures InState(InitiatedState(raw), h).Some? <==> At([initiated], h) >= 0
      ensures InState(InitiatedState(raw), h).Some? ==>
                InState(InitiatedState(raw), h).value.votes == Votes([initiated][At([initiated], h)])
    {
      InitiatedStateHas(raw, initiated, h);
    }
    hide InState, At, InitiatedState, BlockHosts;
  }

  lemma {:induction false} InitiatedStateHas(raw: seq<Block>, initiated: Member, h: string)
    requires raw != [] && initiated.host == raw[0].host && Votes(initiated) == 1
    ensures var prev, k := InState(InitiatedState(raw), h), At([initiated], h);
            if h == initiated.host then prev.Some? && prev.value.votes == 1 && k == 0 else prev.None? && k < 0
  {
    var x := Shown(raw[0]).(votes := 1, priority := 1.0);
    assert [] + [initiated] == [initiated] && [] + [x] == [x];
    InStateAppended([], x, h);
    AtAppended([], initiated, h);
  }

  /** A create's plan announces exactly what the apply that follows the initiation finds to do. */
  lemma {:induction false} CreatePreviewMatchesInitiatedSet(raw: seq<Block>, initiated: Member)
    requires raw != [] && ValidBlocks(ExtractAll(raw))
    requires initiated.host == raw[0].host && Votes(initiated) == 1
    ensures Changes(InitiatedState(raw), ShownAll(raw), {}) == Announced([initiated], raw)
  {
    RawIsValid(raw);
    InitiatedStateReflects(raw, initiated);
    hide InState, At, Changes, ChangeFor, InitiatedState, Reflects, Announced, ShownAll;
    ChangesAreAnnounced(InitiatedState(raw), [initiated], raw, {});
  }
}
