/**
 * The preview line by line: which step of the apply each line announces, and
 * that an apply that finishes takes just the steps shown, but for the vote
 * raises no promotion carries out.
 */
module PreviewSteps {
  import opened Wrappers
  import opened ReplicaSet
  import opened MemberPlan
  import opened Server
  import opened Apply
  import opened ApplyLaws
  import opened ApplySteps
  import opened Preview

  /** The line that announces a step: an arbiter by its add, a promotion with its votes and priority. */
  ghost function LineOf(step: Kind): seq<Line> {
    match step
    case SettingsAndMembers => [SettingsLine]
    case Stage(b) => [if b.arbiterOnly then AddArbiterLine(b.host) else AddLine(b.host)]
    case Promote(b) => [PromoteLine(b.host, b.votes, b.priority)]
    case Rollback(_) => []
  }

  ghost function StepLines(steps: seq<Kind>): seq<Line> {
    if steps == [] then [] else LineOf(steps[0]) + StepLines(steps[1..])
  }

  /** The promotions shown that no apply sends: a live member's vote raise its block cannot be promoted to. */
  ghost function Overstated(live: seq<Member>, raw: seq<Block>): multiset<Line> {
    if raw == [] then multiset{}
    else
      (if Raises(live, Extract(raw[0])) && !NeedsPromotion(Extract(raw[0]))
       then multiset{PromoteLine(raw[0].host, raw[0].votes, raw[0].priority)}
       else multiset{}) + Overstated(live, raw[1..])
  }

  lemma {:induction false} StepLinesTogether(a: seq<Kind>, b: seq<Kind>)
    ensures StepLines(a + b) == StepLines(a) + StepLines(b)
  {
    if a == [] {
      assert a + b == b;
    } else {
      assert (a + b)[1..] == a[1..] + b;
      StepLinesTogether(a[1..], b);
    }
  }

  lemma {:induction false} ChangeLinesTogether(a: seq<Change>, b: seq<Change>)
    ensures ChangeLines(a + b) == ChangeLines(a) + ChangeLines(b)
  {
    if a == [] {
      assert a + b == b;
    } else {
      assert (a + b)[1..] == a[1..] + b;
      ChangeLinesTogether(a[1..], b);
    }
  }

  /** What is shown first: the initiation of a create, then the settings reconfig, then the changes in block order. */
  lemma {:induction false} PreviewOpens(isCreate: bool, a: seq<Change>, b: seq<Change>)
    ensures PreviewLines(isCreate, a + b)
            == (if isCreate then [InitiateLine, SettingsLine] else [SettingsLine]) + ChangeLines(a) + ChangeLines(b)
  {
    ChangeLinesTogether(a, b);
    assert [InitiateLine] + [SettingsLine] == [InitiateLine, SettingsLine];
    assert [] + [SettingsLine] == [SettingsLine];
    hide ChangeLines;
    Associates(if isCreate then [InitiateLine, SettingsLine] else [SettingsLine], ChangeLines(a), ChangeLines(b));
  }

  /** The steps due for one block. */
  ghost function StepsFor(live: seq<Member>, b: Block): seq<Kind> {
    if At(live, b.host) < 0 then [Stage(b)] + PromotionStep(b)
    else if Raises(live, b) then PromotionStep(b)
    else []
  }

  /** The lines for one block are those of its steps, and one too many for a raise that stays held. */
  lemma {:induction false} LinesOfBlock(live: seq<Member>, raw: Block)
    ensures var b := Extract(raw);
            multiset(ChangeLines(Announced(live, [raw])))
            == multiset(StepLines(StepsFor(live, b))) + Overstated(live, [raw])
  {
    var b := Extract(raw);
    assert [raw][1..] == [];
    var announced := Announced(live, [raw]);
    OneOrTwoSteps(Stage(b), Promote(b));
    hide At, Raises, StepLines, LinesOf;
    assert Announced(live, [raw][1..]) == [];
    if announced != [] {
      assert |announced| == 1;
      assert announced == [announced[0]];
      OneChange(announced[0]);
    }
    LinesOfAdd(raw);
  }

  lemma OneChange(c: Change)
    ensures ChangeLines([c]) == LinesOf(c)
  {
    assert [c][1..] == [];
    assert LinesOf(c) + [] == LinesOf(c);
  }

  /** The lines of an added block: one that adds it in its kind, and its promotion if it needs one. */
  lemma {:induction false} LinesOfAdd(raw: Block)
    ensures var b := Extract(raw);
            LinesOf(Change(Shown(raw), true, NeedsPromotion(b)))
            == LineOf(Stage(b)) + if NeedsPromotion(b) then LineOf(Promote(b)) else []
    ensures LinesOf(Change(Shown(raw), false, true)) == [PromoteLine(raw.host, raw.votes, raw.priority)]
    ensures NeedsPromotion(Extract(raw)) ==>
              LineOf(Promote(Extract(raw))) == [PromoteLine(raw.host, raw.votes, raw.priority)]
    ensures LineOf(Stage(Extract(raw))) + [] == LineOf(Stage(Extract(raw)))
  {
  }

  lemma {:induction false} OneOrTwoSteps(a: Kind, b: Kind)
    ensures StepLines([a]) == LineOf(a) && StepLines([b]) == LineOf(b)
    ensures StepLines([a] + [b]) == LineOf(a) + LineOf(b)
    ensures StepLines([]) == [] && [a] + [] == [a]
  {
    assert [a][1..] == [] && [b][1..] == [];
    StepLinesTogether([a], [b]);
  }

  lemma {:induction false} AnnouncedHead(live: seq<Member>, raw: seq<Block>)
    requires raw != []
    ensures Announced(live, raw) == Announced(live, [raw[0]]) + Announced(live, raw[1..])
    ensures Overstated(live, raw) == Overstated(live, [raw[0]]) + Overstated(live, raw[1..])
  {
    assert [raw[0]][1..] == [];
    hide At, Raises, NeedsPromotion, Extract;
  }

  /** The steps due for the first block, taken out of those due for all. */
  lemma {:induction false} DueHead(live: seq<Member>, blocks: seq<Block>)
    requires blocks != []
    ensures multiset(StepLines(PromotionSteps(Raising(live, blocks)) + AddSteps(Missing(live, blocks))))
            == multiset(StepLines(StepsFor(live, blocks[0])))
               + multiset(StepLines(PromotionSteps(Raising(live, blocks[1..])) + AddSteps(Missing(live, blocks[1..]))))
  {
    var b, rest := blocks[0], blocks[1..];
    var raising, missing := Raising(live, rest), Missing(live, rest);
    MissingHead(live, blocks);
    StepLinesTogether(PromotionSteps(Raising(live, blocks)), AddSteps(Missing(live, blocks)));
    StepLinesTogether(PromotionSteps(raising), AddSteps(missing));
    assert ([b] + missing)[1..] == missing && ([b] + raising)[1..] == raising;
    hide Raising, Missing, StepLines, Raises, At, PromotionStep, LineOf;
    if At(live, b.host) < 0 {
      StepLinesTogether([Stage(b)] + PromotionStep(b), AddSteps(missing));
    } else if Raises(live, b) {
      StepLinesTogether(PromotionStep(b), PromotionSteps(raising));
    } else {
      assert [] + raising == raising;
      NoStepsNoLines();
    }
  }

  lemma NoStepsNoLines()
    ensures StepLines([]) == []
  {
  }

  lemma {:induction false} AnnouncedSteps(live: seq<Member>, raw: seq<Block>)
    ensures var blocks := ExtractAll(raw);
            multiset(ChangeLines(Announced(live, raw)))
            == multiset(StepLines(PromotionSteps(Raising(live, blocks)) + AddSteps(Missing(live, blocks))))
               + Overstated(live, raw)
  {
    var blocks := ExtractAll(raw);
    if raw != [] {
      var rest := raw[1..];
      assert blocks[0] == Extract(raw[0]) && blocks[1..] == ExtractAll(rest);
      AnnouncedSteps(live, rest);
      AnnouncedHead(live, raw);
      ChangeLinesTogether(Announced(live, [raw[0]]), Announced(live, rest));
      LinesOfBlock(live, raw[0]);
      DueHead(live, blocks);
    }
  }

  lemma {:induction false} OverstatedExactlyWhen(live: seq<Member>, raw: seq<Block>)
    ensures Overstated(live, raw) == multiset{}
            <==> forall b | b in ExtractAll(raw) && Raises(live, b) :: NeedsPromotion(b)
  {
    var blocks := ExtractAll(raw);
    if raw != [] {
      assert blocks[0] == Extract(raw[0]) && blocks[1..] == ExtractAll(raw[1..]);
      assert forall b :: b in blocks <==> b == blocks[0] || b in blocks[1..];
      OverstatedExactlyWhen(live, raw[1..]);
      hide Raises, NeedsPromotion, Extract;
      var line := PromoteLine(raw[0].host, raw[0].votes, raw[0].priority);
      assert Raises(live, blocks[0]) && !NeedsPromotion(blocks[0]) ==> line in Overstated(live, raw);
    }
  }

  /**
   * Whatever the server does, the lines an apply that finishes was previewed
   * with are those of the steps it takes, each as often as it is taken, and
   * besides them only promotions of vote raises that stay held, of which there
   * are none exactly when every block that raises a live member's votes is one
   * the apply promotes. A create shows the initiation as well.
   */
  lemma {:induction false} PreviewShowsTheSteps(env: Env, start: World, req: Request, isCreate: bool,
                                                state: seq<PreviewMember>)
    requires Ready(start, req) && Finishes(env, start, req)
    requires Reflects(state, start.config.members, BlockHosts(req.members))
    ensures var lines := PreviewLines(isCreate, Changes(state, ShownAll(req.members), {}));
            multiset(lines) == (if isCreate then multiset{InitiateLine} else multiset{})
                               + multiset(StepLines(Steps(ApplyOnce(env, start, req).world.log)))
                               + Overstated(start.config.members, req.members)
    ensures Overstated(start.config.members, req.members) == multiset{}
            <==> forall b | b in Blocks(req) && Raises(start.config.members, b) :: NeedsPromotion(b)
  {
    var live, raw, blocks := start.config.members, req.members, Blocks(req);
    assert ValidBlocks(blocks);
    hide ApplyOnce, Changes, Raises, Missing, Reflects, Finishes, Steps, Accepting, NoConflict, Raising, Ready,
         ValidBlocks, NeedsPromotion, Announced, ChangeLines, PromotionSteps, AddSteps, Overstated;
    RawIsValid(raw);
    ChangesAreAnnounced(state, live, raw, {});
    FinishingTakesTheStepsDue(env, start, req);
    AnnouncedSteps(live, raw);
    OverstatedExactlyWhen(live, raw);
    var later := PromotionSteps(Raising(live, blocks)) + AddSteps(Missing(live, blocks));
    Associates([SettingsAndMembers], PromotionSteps(Raising(live, blocks)), AddSteps(Missing(live, blocks)));
    assert Due(live, blocks) == [SettingsAndMembers] + later;
    OneOrTwoSteps(SettingsAndMembers, SettingsAndMembers);
    StepLinesTogether([SettingsAndMembers], later);
  }
  /** The same of a create's preview and the apply that meets the one member the initiation made. */
  lemma {:induction false} CreatePreviewShowsTheSteps(env: Env, start: World, req: Request, initiated: Member)
    requires Ready(start, req) && Finishes(env, start, req)
    requires req.members != [] && start.config.members == [initiated]
    requires initiated.host == req.members[0].host && Votes(initiated) == 1
    ensures multiset(CreatePreview(req.members))
            == multiset{InitiateLine} + multiset(StepLines(Steps(ApplyOnce(env, start, req).world.log)))
               + Overstated([initiated], req.members)
  {
    InitiatedStateReflects(req.members, initiated);
    hide ApplyOnce, PreviewLines, Changes, Finishes, Ready, Reflects, InitiatedState, Steps, StepLines, Overstated;
    PreviewShowsTheSteps(env, start, req, true, InitiatedState(req.members));
  }
}
