/** What the battle reducer asks of the effect runtime and the dice, whom a skill aims at, and one deed of one member. */
module Deeds {
  import opened Prelude
  import opened Counting
  import opened BattleModel
  import opened Timeline
  import opened Roster
  import opened Attack

  /** Enemies of a wave, those with a third placement, and the cycle of its panels. */
  datatype Wave = Wave(enemies: seq<Member>, strong: set<int>, panelIds: seq<int>)

  /** What the start of a turn did to the actor: poison, regeneration, paralysis. */
  datatype Upkeep = Upkeep(hp: int, disabled: bool)

  datatype Choice = Choice(skill: Skill, provoked: Option<int>)

  /** The moments at which the effect runtime rewrites the members. */
  datatype Stage =
    | Entering(wave: nat) | Entered(wave: nat) | Request(turn: int)
    | LostTurn(action: nat) | Upkept(action: nat) | BeforeDeed(action: nat) | AfterDeed(action: nat)

  /**
   * Everything the reducer asks of the effect runtime, the enemy rules and the dice: the upkeep of an actor, the chosen
   * enemy skill and the rolls against a target, numbered by action, and the members as the runtime leaves them.
   */
  datatype Fate = Fate(upkeep: (nat, Member) -> Upkeep, choice: nat -> Choice, roll: (nat, int) -> Roll,
                       settle: (Stage, seq<Member>) -> seq<Member>)

  /** A skill at a chosen target, or several battle tools at once. */
  datatype Command = UseSkill(skill: Skill, target: int) | UseTools(tools: seq<Skill>)

  function ActionsOf(cmd: Command): nat {
    match cmd
    case UseSkill(_, _) => 1
    case UseTools(tools) => |tools|
  }

  datatype BattleError =
    | NotInBattle | NotAllyTurn | BadTools | NoMember | NoTarget | NoPanels | TooManyActions | Refused(why: AttackError)

  /** The same members in the same places; hit points, lives, gauges and speeds may differ. */
  predicate SameCast(a: seq<Member>, b: seq<Member>) {
    |a| == |b| && forall i | 0 <= i < |a| :: a[i].id == b[i].id && a[i].kind == b[i].kind && a[i].maxHp == b[i].maxHp
                                           && (a[i].enemy.Some? <==> b[i].enemy.Some?)
  }

  /** Same members, same lives. */
  predicate SameLives(a: seq<Member>, b: seq<Member>) {
    SameCast(a, b) && forall i | 0 <= i < |a| :: a[i].alive == b[i].alive
  }

  /** Effects may heal the living and change any speed, but nobody dies of them and nobody is revived. */
  ghost predicate Tame(fate: Fate) {
    && (forall stage: Stage, ms: seq<Member> {:trigger fate.settle(stage, ms)} ::
          Healthy(ms) ==> SameLives(ms, fate.settle(stage, ms)) && Healthy(fate.settle(stage, ms)))
    && (forall n: nat, m: Member {:trigger fate.upkeep(n, m)} :: 0 < m.hp <= m.maxHp ==> 0 <= fate.upkeep(n, m).hp <= m.maxHp)
  }

  /** A battle in which no effect touches a speed. */
  ghost predicate Steady(fate: Fate) {
    forall stage: Stage, ms: seq<Member> {:trigger fate.settle(stage, ms)} ::
      Healthy(ms) ==> SpeedTable(fate.settle(stage, ms)) == SpeedTable(ms)
  }

  // ----- targets -------------------------------------------------------------------------------

  function LivingIds(ms: seq<Member>, kind: Option<int>): (r: seq<int>)
    ensures forall t :: t in r <==> exists i | 0 <= i < |ms| :: ms[i].id == t && Eligible(ms[i], kind)
    ensures DistinctIds(ms) ==> Distinct(r)
  {
    if ms == [] then []
    else
      assert ms == [ms[0]] + ms[1..];
      var rest := LivingIds(ms[1..], kind);
      assert DistinctIds(ms) ==> DistinctIds(ms[1..]) && ms[0].id !in rest;
      if Eligible(ms[0], kind) then [ms[0].id] + rest else rest
  }

  /** Living members on the side that a skill aims at: 1, 2 and 4 at the actor's own, 3 and 5 at the other, 6 at either. */
  predicate Aimed(ms: seq<Member>, actorKind: int, targetType: int, t: int) {
    exists i | 0 <= i < |ms| :: ms[i].id == t
      && Eligible(ms[i], if targetType == 6 then None else Some(if targetType in {1, 2, 4} then actorKind else Opponent(actorKind)))
  }

  /** select_target_ids: single targets are what was asked for, 4 and 5 take the whole side. */
  function SelectTargets(ms: seq<Member>, us: seq<Unit>, actorKind: int, target: int, targetType: int): (r: Option<seq<int>>)
    ensures r.Some? <==>
              || (targetType in {4, 5} && exists t :: Aimed(ms, actorKind, targetType, t))
              || (targetType in {1, 2, 3, 6} && Aimed(ms, actorKind, targetType, target)
                  && (targetType == 1 ==> EarliestLiving(ms, us, None).Some? && EarliestLiving(ms, us, None).value.id == target))
    ensures r.Some? && targetType in {4, 5} ==> forall t :: t in r.value <==> Aimed(ms, actorKind, targetType, t)
    ensures r.Some? && targetType in {1, 2, 3, 6} ==> r.value == [target]
    ensures r.Some? && DistinctIds(ms) ==> Distinct(r.value)
  {
    var side := if targetType in {1, 2, 4} then actorKind else Opponent(actorKind);
    var living := LivingIds(ms, if targetType == 6 then None else Some(side));
    assert forall t :: t in living <==> Aimed(ms, actorKind, targetType, t);
    assert living != [] ==> living[0] in living;
    if targetType in {4, 5} then (if living == [] then None else Some(living))
    else if targetType in {1, 2, 3, 6} then
      if targetType == 1 && (EarliestLiving(ms, us, None).None? || EarliestLiving(ms, us, None).value.id != target) then None
      else if target !in living then None
      else Some([target])
    else None
  }

  /** A living member of the side that has lost the most hit points, with the least id among those. */
  predicate WorstOff(ms: seq<Member>, kind: int, m: Member) {
    Eligible(m, Some(kind))
    && forall i | 0 <= i < |ms| && Eligible(ms[i], Some(kind)) ::
         || m.maxHp - m.hp > ms[i].maxHp - ms[i].hp
         || (m.maxHp - m.hp == ms[i].maxHp - ms[i].hp && m.id <= ms[i].id)
  }

  /** A living member of the side whose first unit no other member's of the side precedes. */
  predicate Soonest(ms: seq<Member>, us: seq<Unit>, kind: int, m: Member) {
    Eligible(m, Some(kind)) && forall i | 0 <= i < |ms| && Eligible(ms[i], Some(kind)) :: KeyLeq(KeyOf(us, m), KeyOf(us, ms[i]))
  }

  /** The id of a member that is fit for it, or none when the side has nobody alive. */
  ghost predicate AimedAt(ms: seq<Member>, kind: int, r: Option<int>, fit: Member -> bool) {
    && (r.None? <==> forall i | 0 <= i < |ms| :: !Eligible(ms[i], Some(kind)))
    && (r.Some? ==> exists i | 0 <= i < |ms| :: ms[i].id == r.value && fit(ms[i]))
  }

  function Opponent(kind: int): int {
    if kind == ALLY then ENEMY else ALLY
  }

  /** most_injured_living_member: least hp - max_hp, then least id, among the living of a kind. */
  function MostInjured(ms: seq<Member>, kind: int): (r: Option<Member>)
    ensures r.None? <==> forall i | 0 <= i < |ms| :: !Eligible(ms[i], Some(kind))
    ensures r.Some? ==> r.value in ms && Eligible(r.value, Some(kind))
    ensures r.Some? ==> forall i | 0 <= i < |ms| && Eligible(ms[i], Some(kind)) ::
              || r.value.hp - r.value.maxHp < ms[i].hp - ms[i].maxHp
              || (r.value.hp - r.value.maxHp == ms[i].hp - ms[i].maxHp && r.value.id <= ms[i].id)
  {
    if ms == [] then None
    else
      assert ms == [ms[0]] + ms[1..];
      var rest := MostInjured(ms[1..], kind);
      var m := ms[0];
      if !Eligible(m, Some(kind)) then rest
      else if rest.None? || m.hp - m.maxHp < rest.value.hp - rest.value.maxHp
              || (m.hp - m.maxHp == rest.value.hp - rest.value.maxHp && m.id <= rest.value.id) then Some(m)
      else rest
  }

  /** An enemy skill that could hurt or delay the enemy that uses it. */
  predicate SelfAimed(skill: Skill) {
    skill.targetType !in {3, 5, 6} && (skill.effectType == DAMAGE || skill.slots != [])
  }

  /** Single targets are what was asked for; aiming at the other side never includes the actor. */
  lemma {:induction false} TargetsSpareActor(ms: seq<Member>, us: seq<Unit>, k: nat, target: int, skill: Skill, targets: seq<int>)
    requires DistinctIds(ms) && Sides(ms) && k < |ms|
    requires SelectTargets(ms, us, ms[k].kind, target, skill.targetType) == Some(targets)
    ensures skill.targetType in {3, 5} || (skill.targetType == 6 && target != ms[k].id) ==> ms[k].id !in targets
    ensures Distinct(targets) && forall t | t in targets :: Living(ms, t)
    ensures skill.targetType in {1, 2, 4} ==> forall t | t in targets :: exists i | 0 <= i < |ms| :: ms[i].id == t && ms[i].kind == ms[k].kind
  {
    UniqueMember(ms, k, ms[k].id);
    forall t | t in targets ensures Aimed(ms, ms[k].kind, skill.targetType, t) {
    }
  }

  // ----- what holds between requests -----------------------------------------------------------

  /** Catalogue facts about a wave: its enemies get ids from 11 up, enter alive and carry enemy data. */
  predicate WaveSound(w: Wave) {
    forall i | 0 <= i < |w.enemies| ::
      && w.enemies[i].id == 11 + i && w.enemies[i].kind == ENEMY && w.enemies[i].enemy.Some?
      && w.enemies[i].alive && 0 < w.enemies[i].hp <= w.enemies[i].maxHp
  }

  predicate Sides(ms: seq<Member>) {
    forall i | 0 <= i < |ms| ::
      (ms[i].kind == ALLY && ms[i].id < 11 && ms[i].enemy.None?) || (ms[i].kind == ENEMY && ms[i].enemy.Some?)
  }

  lemma {:induction false} CastKeepsSides(a: seq<Member>, b: seq<Member>)
    requires SameCast(a, b) && Sides(a)
    ensures Sides(b)
  {
  }

  lemma {:induction false} BodiesAreCast(a: seq<Member>, b: seq<Member>)
    requires SameBodies(a, b)
    ensures SameCast(a, b)
  {
  }

  lemma {:induction false} CastTransitive(a: seq<Member>, b: seq<Member>, c: seq<Member>)
    requires SameCast(a, b) && SameCast(b, c)
    ensures SameCast(a, c)
  {
  }

  /** Whatever happens to speeds, the roster depends on lives alone. */
  lemma {:induction false} LivesKeepRoster(a: seq<Member>, b: seq<Member>, us: seq<Unit>)
    requires SameLives(a, b)
    ensures (Manned(a, us) ==> Manned(b, us)) && (Sides(a) ==> Sides(b)) && BattleStatus(a) == BattleStatus(b)
    ensures forall id :: Living(a, id) <==> Living(b, id)
  {
    hide Owned, Count;
    forall id ensures Living(a, id) <==> Living(b, id) {
      if Living(a, id) {
        var i :| 0 <= i < |a| && a[i].id == id && a[i].alive;
        assert b[i].id == id && b[i].alive;
      }
      if Living(b, id) {
        var i :| 0 <= i < |b| && b[i].id == id && b[i].alive;
        assert a[i].id == id && a[i].alive;
      }
    }
    forall id ensures Staffed(a, us, id) == Staffed(b, us, id) { }
    forall kind ensures SomeAlive(a, kind) == SomeAlive(b, kind) {
      if SomeAlive(a, kind) {
        var i :| 0 <= i < |a| && a[i].alive && a[i].kind == kind;
        assert b[i].alive && b[i].kind == kind;
      }
      if SomeAlive(b, kind) {
        var i :| 0 <= i < |b| && b[i].alive && b[i].kind == kind;
        assert a[i].alive && a[i].kind == kind;
      }
    }
  }

  // ----- one deed ------------------------------------------------------------------------------

  function Rolls(fate: Fate, n: nat, targets: seq<int>): (r: seq<Roll>)
    ensures |r| == |targets|
  {
    seq(|targets|, i requires 0 <= i < |targets| => fate.roll(n, targets[i]))
  }

  /**
   * The deed of the member at `k` as a value: targets are picked, the runtime applies what precedes the action, the
   * action happens under the speeds this leaves, and the runtime applies what follows.
   */
  function Deed(fate: Fate, n: nat, ms: seq<Member>, us: seq<Unit>, k: nat, skill: Skill, target: int, tool: bool, offset: int)
    : Result<Outcome, BattleError>
    requires k < |ms|
  {
    match SelectTargets(ms, us, ms[k].kind, target, skill.targetType)
    case None => Err(NoTarget)
    case Some(targets) =>
      match Act(fate.settle(BeforeDeed(n), ms), us, ms[k].id, ms[k].kind, skill, skill.slots, targets, Rolls(fate, n, targets), tool, offset)
      case Err(e) => Err(Refused(e))
      case Ok(o) => Ok(o.(ms := fate.settle(AfterDeed(n), o.ms)))
  }

  /** Somebody else owns the least unit, under the speeds in force, by the time the actor's turn would be taken. */
  ghost predicate Overtaken(fate: Fate, n: nat, ms: seq<Member>, us: seq<Unit>, k: nat, skill: Skill, target: int, offset: int)
    requires k < |ms|
  {
    var targets := SelectTargets(ms, us, ms[k].kind, target, skill.targetType);
    var ready := fate.settle(BeforeDeed(n), ms);
    targets.Some?
    && var r := BeforeTurn(ready, us, ms[k].id, ms[k].kind, skill, skill.slots, targets.value, Rolls(fate, n, targets.value), false, offset);
       r.Ok? && !Heads(SpeedTable(ready), r.value.1, ms[k].id)
  }

  ghost predicate Fit(ms: seq<Member>, us: seq<Unit>) {
    Manned(ms, us) && Healthy(ms) && Sides(ms)
  }

  lemma {:induction false} Targeted(fate: Fate, n: nat, ms: seq<Member>, us: seq<Unit>, k: nat, skill: Skill, target: int,
                                    targets: seq<int>)
    requires Fit(ms, us) && Tame(fate) && k < |ms|
    requires SelectTargets(ms, us, ms[k].kind, target, skill.targetType) == Some(targets)
    ensures var ready := fate.settle(BeforeDeed(n), ms);
            Ready(ready, us, targets) && Find(ready, ms[k].id).Some? && SameLives(ms, ready) && Sides(ready)
  {
    hide Manned, SelectTargets;
    var ready := fate.settle(BeforeDeed(n), ms);
    LivesKeepRoster(ms, ready, us);
    MannedDistinct(ms, us);
    TargetsSpareActor(ms, us, k, target, skill, targets);
    assert ready[k].id == ms[k].id;
  }

  /**
   * A deed keeps the roster, the members and the bounds on hit points under any change of speeds, revives nobody, and
   * can be refused for want of a target, an unsupported skill, a slot delay without a gap, or exactly when the actor has
   * been overtaken.
   */
  lemma {:induction false} DeedKeeps(fate: Fate, n: nat, ms: seq<Member>, us: seq<Unit>, k: nat, skill: Skill, target: int,
                                     tool: bool, offset: int)
    requires Fit(ms, us) && Tame(fate) && k < |ms|
    ensures var r := Deed(fate, n, ms, us, k, skill, target, tool, offset);
            && (r.Ok? ==> Fit(r.value.ms, r.value.us) && SameCast(ms, r.value.ms)
                          && forall id | Living(r.value.ms, id) :: Living(ms, id))
            && (r.Err? ==> r.error in {NoTarget, Refused(Unsupported), Refused(SlotsRefused), Refused(TurnRefused)})
            && (r == Err(Refused(TurnRefused)) <==> !tool && Overtaken(fate, n, ms, us, k, skill, target, offset))
  {
    hide Manned, Act, Healthy, Sides, HpSum, SelectTargets, BeforeTurn, Heads, Living, SameCast, Ready;
    var targets := SelectTargets(ms, us, ms[k].kind, target, skill.targetType);
    if targets.Some? {
      var ts := targets.value;
      var ready := fate.settle(BeforeDeed(n), ms);
      Targeted(fate, n, ms, us, k, skill, target, ts);
      LivesKeepRoster(ms, ready, us);
      ReadyParts(ready, us, ts);
      var rolls := Rolls(fate, n, ts);
      ActionKeepsRoster(ready, us, ms[k].id, ms[k].kind, skill, skill.slots, ts, rolls, tool, offset);
      TurnRefusedExactly(ready, us, ms[k].id, ms[k].kind, skill, skill.slots, ts, rolls, tool, offset);
      var act := Act(ready, us, ms[k].id, ms[k].kind, skill, skill.slots, ts, rolls, tool, offset);
      if act.Ok? {
        var acted, after := act.value.ms, fate.settle(AfterDeed(n), act.value.ms);
        BodiesAreCast(ready, acted);
        CastKeepsSides(ready, acted);
        LivesKeepRoster(acted, after, act.value.us);
        CastTransitive(ms, ready, acted);
        CastTransitive(ms, acted, after);
      }
    }
  }

  /**
   * What a deed does, from what the runtime made of the members before it to what it makes of them afterwards: in between
   * the reported damage is what they lost, every row tells the truth about its target, and nobody else was touched.
   */
  lemma {:induction false} DeedConservesHp(fate: Fate, n: nat, ms: seq<Member>, us: seq<Unit>, k: nat, skill: Skill, target: int,
                                           tool: bool, offset: int)
    requires Fit(ms, us) && Tame(fate) && k < |ms| && Deed(fate, n, ms, us, k, skill, target, tool, offset).Ok?
    ensures var o := Deed(fate, n, ms, us, k, skill, target, tool, offset).value;
            var ready, targets := fate.settle(BeforeDeed(n), ms), SelectTargets(ms, us, ms[k].kind, target, skill.targetType);
            targets.Some? && |o.hits| == |targets.value|
            && exists acted: seq<Member> ::
                 && |acted| == |ready| && o.ms == fate.settle(AfterDeed(n), acted)
                 && o.total == (if skill.effectType == DAMAGE then HpSum(ready) - HpSum(acted) else 0)
                 && forall i | 0 <= i < |ready| ::
                      && (ready[i].id !in targets.value ==> acted[i] == ready[i])
                      && forall j | 0 <= j < |targets.value| && targets.value[j] == ready[i].id ::
                           HitReported(ready[i], acted[i], o.hits[j], fate.roll(n, targets.value[j]), skill.effectType, tool)
  {
    hide Manned, Act, Healthy, Sides, HpSum, SelectTargets, HitReported, SameCast, Ready, SameBodies;
    var targets := SelectTargets(ms, us, ms[k].kind, target, skill.targetType).value;
    var ready := fate.settle(BeforeDeed(n), ms);
    Targeted(fate, n, ms, us, k, skill, target, targets);
    var rolls := Rolls(fate, n, targets);
    ActionConservesHp(ready, us, ms[k].id, ms[k].kind, skill, skill.slots, targets, rolls, tool, offset);
    var acted := Act(ready, us, ms[k].id, ms[k].kind, skill, skill.slots, targets, rolls, tool, offset).value.ms;
    SameLength(ready, acted);
    assert forall j | 0 <= j < |targets| :: rolls[j] == fate.roll(n, targets[j]);
  }

  lemma {:induction false} SameLength(a: seq<Member>, b: seq<Member>)
    requires SameBodies(a, b)
    ensures |a| == |b|
  {
  }

  /** When a deed's actor comes back, at the speeds that the runtime has made before the deed. */
  lemma {:induction false} DeedReturns(fate: Fate, n: nat, ms: seq<Member>, us: seq<Unit>, k: nat, skill: Skill, target: int,
                                       tool: bool, offset: int)
    requires k < |ms| && Deed(fate, n, ms, us, k, skill, target, tool, offset).Ok?
    ensures var after := Deed(fate, n, ms, us, k, skill, target, tool, offset).value.us;
            var ready, targets := fate.settle(BeforeDeed(n), ms), SelectTargets(ms, us, ms[k].kind, target, skill.targetType);
            var actor, kind := ms[k].id, ms[k].kind;
            targets.Some? && Find(ready, actor).Some?
            && var before := BeforeTurn(ready, us, actor, kind, skill, skill.slots, targets.value, Rolls(fate, n, targets.value), tool, offset);
               before.Ok?
               && if tool then after == before.value.1
                  else
                    var s := Sorted(SpeedTable(ready), before.value.1);
                    var base := 57600 / Max(ready[Find(ready, actor).value].speed, 1);
                    s != [] && s[0].member == actor
                    && var later := Shift(s[1..], Max(s[0].wait, 0));
                       Has(later, actor)
                       && if kind == ENEMY then
                            CountedFromLeast(later + [Unit(actor, s[0].number, MaxWait(later, actor) + Max(base + skill.wait, 1))], after)
                          else
                            var j := LastOf(later, actor);
                            var moved := later[j := Unit(actor, later[j].number, Max(base + skill.wait, 1))];
                            Has(moved, actor)
                            && CountedFromLeast(moved + [Unit(actor, s[0].number, MinWait(moved, actor) + Max(base, 1))], after)
  {
    hide BeforeTurn, Act, Sorted, Has, MaxWait, MinWait, LastOf, CountedFromLeast, SelectTargets;
    var targets := SelectTargets(ms, us, ms[k].kind, target, skill.targetType).value;
    ActReturns(fate.settle(BeforeDeed(n), ms), us, ms[k].id, ms[k].kind, skill, skill.slots, targets, Rolls(fate, n, targets), tool, offset);
  }

  lemma {:induction false} ReadyParts(ms: seq<Member>, us: seq<Unit>, targets: seq<int>)
    requires Ready(ms, us, targets)
    ensures Manned(ms, us) && Healthy(ms)
  {
  }

  /** As long as no effect touches a speed, an actor in front is overtaken only by what it does to itself. */
  lemma {:induction false} SteadyDeed(fate: Fate, n: nat, ms: seq<Member>, us: seq<Unit>, k: nat, skill: Skill, target: int, offset: int)
    requires Fit(ms, us) && Tame(fate) && Steady(fate) && k < |ms|
    requires Heads(SpeedTable(ms), us, ms[k].id) && Overtaken(fate, n, ms, us, k, skill, target, offset)
    ensures skill.targetType !in {3, 5} && (skill.effectType == DAMAGE || skill.slots != [])
            && (skill.targetType == 6 ==> target == ms[k].id)
  {
    hide Manned, Healthy, Sides, HpSum, SelectTargets, BeforeTurn, Heads, Living;
    var ts := SelectTargets(ms, us, ms[k].kind, target, skill.targetType).value;
    Targeted(fate, n, ms, us, k, skill, target, ts);
    MannedDistinct(ms, us);
    TargetsSpareActor(ms, us, k, target, skill, ts);
    BeforeTurnKeeps(fate.settle(BeforeDeed(n), ms), us, ms[k].id, ms[k].kind, skill, skill.slots, ts, Rolls(fate, n, ts), false, offset);
  }
}
