/** What a command of the player makes of a battle, as a value. */
module Commands {
  import opened Prelude
  import opened BattleModel
  import opened Timeline
  import opened Roster
  import opened Attack
  import opened Deeds

  /** Where a tool is aimed: at the most injured ally when it targets one ally, else at the earliest living enemy. */
  function ToolTarget(ms: seq<Member>, us: seq<Unit>, tool: Skill): (r: Option<int>)
    ensures tool.targetType == 2 ==> AimedAt(ms, ALLY, r, m => WorstOff(ms, ALLY, m))
    ensures tool.targetType != 2 ==> AimedAt(ms, ENEMY, r, m => Soonest(ms, us, ENEMY, m))
  {
    var m := if tool.targetType == 2 then MostInjured(ms, ALLY) else EarliestLiving(ms, us, Some(ENEMY));
    if m.Some? then Some(m.value.id) else None
  }

  /** All tools are aimed before the first is used. */
  function Aims(ms: seq<Member>, us: seq<Unit>, tools: seq<Skill>): (r: Option<seq<(Skill, int)>>)
    ensures r.Some? ==> |r.value| == |tools|
    decreases |tools|
  {
    if tools == [] then Some([])
    else
      var last := ToolTarget(ms, us, tools[|tools| - 1]);
      var front := Aims(ms, us, tools[..|tools| - 1]);
      if front.None? || last.None? then None else Some(front.value + [(tools[|tools| - 1], last.value)])
  }

  /** A tool without a target leaves the whole command without one. */
  lemma {:induction false} AimNext(ms: seq<Member>, us: seq<Unit>, tools: seq<Skill>, i: nat)
    requires i < |tools|
    ensures var front, target := Aims(ms, us, tools[..i]), ToolTarget(ms, us, tools[i]);
            && Aims(ms, us, tools[..i + 1])
               == (if front.None? || target.None? then None else Some(front.value + [(tools[i], target.value)]))
            && (target.None? ==> Aims(ms, us, tools).None?)
    decreases |tools|
  {
    hide ToolTarget;
    assert tools[..i + 1][..i] == tools[..i];
    if i == |tools| - 1 {
      assert tools[..i + 1] == tools;
    } else {
      var less := tools[..|tools| - 1];
      AimNext(ms, us, less, i);
      assert less[..i] == tools[..i] && less[..i + 1] == tools[..i + 1];
    }
  }

  /** The tools in order, each as a deed of the member at `k` with an action number of its own. */
  ghost function UseEach(fate: Fate, n: nat, ms: seq<Member>, us: seq<Unit>, k: nat, aims: seq<(Skill, int)>, offset: int)
    : Result<(seq<Member>, seq<Unit>), BattleError>
    requires Fit(ms, us) && Tame(fate) && k < |ms|
    decreases |aims|
  {
    if aims == [] then Ok((ms, us))
    else
      DeedKeeps(fate, n, ms, us, k, aims[0].0, aims[0].1, true, offset);
      match Deed(fate, n, ms, us, k, aims[0].0, aims[0].1, true, offset)
      case Err(e) => Err(e)
      case Ok(o) => UseEach(fate, n + 1, o.ms, o.us, k, aims[1..], offset)
  }

  /** The command of the player whose member at `k` is in front. */
  ghost function Commanded(fate: Fate, n: nat, ms: seq<Member>, us: seq<Unit>, k: nat, cmd: Command, offset: int)
    : Result<(seq<Member>, seq<Unit>), BattleError>
    requires Fit(ms, us) && Tame(fate) && k < |ms|
  {
    match cmd
    case UseSkill(skill, target) =>
      (match Deed(fate, n, ms, us, k, skill, target, false, offset)
       case Err(e) => Err(e)
       case Ok(o) => Ok((o.ms, o.us)))
    case UseTools(tools) =>
      match Aims(ms, us, tools)
      case None => Err(NoTarget)
      case Some(aims) => UseEach(fate, n, ms, us, k, aims, offset)
  }

  /** Tools are used one after the other, each from what the ones before it left and under the next action number. */
  lemma {:induction false} ToolsInTurn(fate: Fate, n: nat, ms: seq<Member>, us: seq<Unit>, k: nat, a: seq<(Skill, int)>,
                                       b: seq<(Skill, int)>, offset: int)
    requires Fit(ms, us) && Tame(fate) && k < |ms|
    ensures var first := UseEach(fate, n, ms, us, k, a, offset);
            first.Ok? ==> Fit(first.value.0, first.value.1) && k < |first.value.0|
    ensures UseEach(fate, n, ms, us, k, a + b, offset)
            == var first := UseEach(fate, n, ms, us, k, a, offset);
               if first.Err? then first else UseEach(fate, n + |a|, first.value.0, first.value.1, k, b, offset)
    decreases |a|
  {
    hide Fit, Living, Deed, Overtaken;
    UseEachKeeps(fate, n, ms, us, k, a, offset);
    if a == [] {
      assert a + b == b;
    } else {
      assert (a + b)[1..] == a[1..] + b && (a + b)[0] == a[0];
      DeedKeeps(fate, n, ms, us, k, a[0].0, a[0].1, true, offset);
      var one := Deed(fate, n, ms, us, k, a[0].0, a[0].1, true, offset);
      if one.Ok? { ToolsInTurn(fate, n + 1, one.value.ms, one.value.us, k, a[1..], b, offset); }
    }
  }

  lemma {:induction false} OneTool(fate: Fate, n: nat, ms: seq<Member>, us: seq<Unit>, k: nat, tool: Skill, target: int, offset: int)
    requires Fit(ms, us) && Tame(fate) && k < |ms|
    ensures UseEach(fate, n, ms, us, k, [(tool, target)], offset)
            == match Deed(fate, n, ms, us, k, tool, target, true, offset) case Err(e) => Err(e) case Ok(o) => Ok((o.ms, o.us))
  {
    hide Fit, Living, Deed, Overtaken;
    DeedKeeps(fate, n, ms, us, k, tool, target, true, offset);
    assert [(tool, target)][1..] == [];
  }

  lemma {:induction false} UseEachKeeps(fate: Fate, n: nat, ms: seq<Member>, us: seq<Unit>, k: nat, aims: seq<(Skill, int)>, offset: int)
    requires Fit(ms, us) && Tame(fate) && k < |ms|
    ensures var r := UseEach(fate, n, ms, us, k, aims, offset);
            && (r.Ok? ==> Fit(r.value.0, r.value.1) && SameCast(ms, r.value.0) && forall id | Living(r.value.0, id) :: Living(ms, id))
            && (r.Err? ==> r.error in {NoTarget, Refused(Unsupported), Refused(SlotsRefused)})
    decreases |aims|
  {
    hide Fit, Living, Deed, Overtaken;
    if aims != [] {
      DeedKeeps(fate, n, ms, us, k, aims[0].0, aims[0].1, true, offset);
      var one := Deed(fate, n, ms, us, k, aims[0].0, aims[0].1, true, offset);
      if one.Ok? {
        UseEachKeeps(fate, n + 1, one.value.ms, one.value.us, k, aims[1..], offset);
        var r := UseEach(fate, n + 1, one.value.ms, one.value.us, k, aims[1..], offset);
        if r.Ok? { CastTransitive(ms, one.value.ms, r.value.0); }
      }
    }
  }

  /**
   * A command keeps roster, members and hit points, revives nobody, and is refused for want of a target, for an
   * unsupported skill, for a slot delay without a gap, or, for a skill alone, exactly when its actor has been overtaken.
   */
  lemma {:induction false} CommandKeeps(fate: Fate, n: nat, ms: seq<Member>, us: seq<Unit>, k: nat, cmd: Command, offset: int)
    requires Fit(ms, us) && Tame(fate) && k < |ms|
    ensures var r := Commanded(fate, n, ms, us, k, cmd, offset);
            && (r.Ok? ==> Fit(r.value.0, r.value.1) && SameCast(ms, r.value.0) && forall id | Living(r.value.0, id) :: Living(ms, id))
            && (r.Err? ==> r.error in {NoTarget, Refused(Unsupported), Refused(SlotsRefused), Refused(TurnRefused)})
            && (r == Err(Refused(TurnRefused)) <==>
                  cmd.UseSkill? && Overtaken(fate, n, ms, us, k, cmd.skill, cmd.target, offset))
  {
    hide Fit, Living, Deed, Overtaken, UseEach, Aims;
    match cmd
    case UseSkill(skill, target) => DeedKeeps(fate, n, ms, us, k, skill, target, false, offset);
    case UseTools(tools) =>
      if Aims(ms, us, tools).Some? { UseEachKeeps(fate, n, ms, us, k, Aims(ms, us, tools).value, offset); }
  }
}
