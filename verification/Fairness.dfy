/** What whole actions do to the waiting time of a member they leave alone. */
module Fairness {
  import opened Prelude
  import opened Counting
  import opened BattleModel
  import opened Timeline
  import opened Starvation
  import opened Roster
  import opened Attack

  /** `b` is queued in `vs`, and at least one turn closer than in `us`. */
  ghost predicate Closer(us: seq<Unit>, vs: seq<Unit>, b: int) {
    Has(us, b) && Has(vs, b) && Budget(vs, b) < Budget(us, b)
  }

  /** No farther than in `us`. */
  ghost predicate NoFarther(us: seq<Unit>, vs: seq<Unit>, b: int) {
    NonNegative(vs) && Has(us, b) && Has(vs, b) && Budget(vs, b) <= Budget(us, b)
  }

  /** An ally: a member without a break gauge. */
  predicate Unbreakable(ms: seq<Member>, b: int) {
    forall i | 0 <= i < |ms| && ms[i].id == b :: ms[i].enemy.None?
  }

  lemma {:induction false} StrikesSpare(f: Front, sp: Speeds, targets: seq<int>, rolls: seq<Roll>,
                                        effectType: int, kind: int, tool: bool, offset: int, b: int)
    requires |targets| == |rolls| && NonNegative(f.us) && Has(f.us, b) && Unbreakable(f.ms, b)
    requires StrikeAll(f, sp, targets, rolls, effectType, kind, tool, offset).Ok?
    ensures NoFarther(f.us, StrikeAll(f, sp, targets, rolls, effectType, kind, tool, offset).value.us, b)
    decreases |targets|
  {
    hide Budget, Has, Owned, AfterDelay;
    if targets != [] {
      var g := StrikeOne(f, sp, targets[0], rolls[0], effectType, kind, tool, offset).value;
      StrikeSpares(f, sp, targets[0], rolls[0], effectType, kind, tool, offset, b);
      StrikesSpare(g, sp, targets[1..], rolls[1..], effectType, kind, tool, offset, b);
    }
  }

  lemma {:induction false} StrikeSpares(f: Front, sp: Speeds, target: int, roll: Roll, effectType: int, kind: int,
                                        tool: bool, offset: int, b: int)
    requires NonNegative(f.us) && Has(f.us, b) && Unbreakable(f.ms, b)
    requires StrikeOne(f, sp, target, roll, effectType, kind, tool, offset).Ok?
    ensures var g := StrikeOne(f, sp, target, roll, effectType, kind, tool, offset).value;
            NoFarther(f.us, g.us, b) && Unbreakable(g.ms, b)
  {
    hide Budget, Has, Owned, AfterDelay;
    if target != b { DelayKeepsBudget(sp, f.us, target, Max(offset, 0), b); }
  }

  lemma {:induction false} ShiftSpares(us: seq<Unit>, sp: Speeds, targets: seq<int>, slots: nat, b: int)
    requires NonNegative(us) && Has(us, b) && b !in targets && ShiftTargets(us, sp, targets, slots).Some?
    ensures NoFarther(us, ShiftTargets(us, sp, targets, slots).value, b)
    decreases |targets|
  {
    hide Budget, Has, Owned, AfterDelay;
    if targets != [] {
      var d := SlotDelay(Sorted(sp, us), targets[0], slots).value;
      DelayKeepsBudget(sp, us, targets[0], d, b);
      ShiftSpares(AfterDelay(sp, us, targets[0], d), sp, targets[1..], slots, b);
    }
  }

  lemma {:induction false} ShiftsSpare(us: seq<Unit>, sp: Speeds, targets: seq<int>, shifts: seq<nat>, b: int)
    requires NonNegative(us) && Has(us, b) && (b !in targets || shifts == []) && ShiftAll(us, sp, targets, shifts).Some?
    ensures NoFarther(us, ShiftAll(us, sp, targets, shifts).value, b)
    decreases |shifts|
  {
    hide Budget, Has, ShiftTargets;
    if shifts != [] {
      ShiftSpares(us, sp, targets, shifts[0], b);
      ShiftsSpare(ShiftTargets(us, sp, targets, shifts[0]).value, sp, targets, shifts[1..], b);
    }
  }

  /**
   * An accepted action of somebody else brings a surviving ally that it does not shift one turn closer, whatever it
   * breaks, kills or shifts otherwise.
   */
  lemma {:induction false} ActSpends(ms: seq<Member>, us: seq<Unit>, actor: int, kind: int, skill: Skill, shifts: seq<nat>,
                                     targets: seq<int>, rolls: seq<Roll>, offset: int, b: int)
    requires |targets| == |rolls| && Ready(ms, us, targets) && actor != b
    requires Act(ms, us, actor, kind, skill, shifts, targets, rolls, false, offset).Ok?
    requires Has(us, b) && Unbreakable(ms, b) && (b !in targets || shifts == [])
    requires Living(Act(ms, us, actor, kind, skill, shifts, targets, rolls, false, offset).value.ms, b)
    ensures Closer(us, Act(ms, us, actor, kind, skill, shifts, targets, rolls, false, offset).value.us, b)
  {
    hide Sorted, Owned, StrikeAll, ShiftAll, Movable, AfterTurn, Without, Living, HpSum, Manned, Has, Budget, TurnAllowed, Unbreakable;
    var sp := SpeedTable(ms);
    BeforeTurnKeeps(ms, us, actor, kind, skill, shifts, targets, rolls, false, offset);
    var start := Front(ms, us, [], [], 0);
    var f := StrikeAll(start, sp, targets, rolls, skill.effectType, kind, false, offset).value;
    MannedTimes(ms, us);
    StrikesSpare(start, sp, targets, rolls, skill.effectType, kind, false, offset, b);
    HitTargets(start, sp, targets, rolls, skill.effectType, kind, false, offset);
    MovableTargets(f.hits, f.ms, targets);
    ShiftsSpare(f.us, sp, Movable(f.hits, f.ms), shifts, b);
    var shifted := ShiftAll(f.us, sp, Movable(f.hits, f.ms), shifts).value;
    if f.killed != [] { RemovalKeepsBudget(sp, shifted, f.killed, b); }
    var left := if f.killed == [] then shifted else Without(Sorted(sp, shifted), f.killed);
    var speed := ms[Find(ms, actor).value].speed;
    TurnSpends(sp, left, actor, ActionWait(speed, skill.wait), BaseWait(speed), kind == ENEMY, b);
  }

  lemma {:induction false} MannedTimes(ms: seq<Member>, us: seq<Unit>)
    requires Manned(ms, us)
    ensures NonNegative(us) && forall b | Living(ms, b) :: Has(us, b)
  {
    hide Owned, Living;
    forall b | Living(ms, b) ensures Has(us, b) {
      assert Staffed(ms, us, b);
      OwnsSome(us, b);
    }
  }

  /** The most turns that others can take before a living member is in front. */
  function Patience(ms: seq<Member>, us: seq<Unit>, b: int): nat
    requires Has(us, b)
  {
    3 * (Lag(us, b) + 1) * LivingOthers(ms, b)
  }

  lemma {:induction false} BudgetWithinPatience(ms: seq<Member>, us: seq<Unit>, b: int)
    requires Manned(ms, us) && Living(ms, b)
    ensures Has(us, b) && Budget(us, b) <= Patience(ms, us, b)
  {
    hide Owned, Count, Living, Earliest, MinWait;
    MannedTimes(ms, us);
    forall id | Living(ms, id) ensures Owned(us, id) <= 3 {
      assert Staffed(ms, us, id);
    }
    RivalsByMember(ms, us, b);
    NoStrangers(ms, us, b);
    DueAtMostRivals(us, b, Earliest(us));
    var r, w, m := Rivals(us, b), Lag(us, b), LivingOthers(ms, b);
    assert Budget(us, b) <= r * w + r == r * (w + 1);
    MulMonotone(r, 3 * m, w + 1);
    assert 3 * m * (w + 1) == 3 * (w + 1) * m;
  }
}
