/** One action: damage, healing, breaks, deaths and the turn it costs (apply_attack_results). */
module Attack {
  import opened Prelude
  import opened Counting
  import opened BattleModel
  import opened Timeline
  import opened TurnQueue
  import opened Roster

  /** What the damage policy and the dice decided for one target. Damage is never negative: the policy clamps it at 0. */
  datatype Roll = Roll(miss: bool, damage: nat, breakDamage: nat, heal: nat)

  const DAMAGE := 1
  const HEAL := 2
  const SUPPORT := 3
  const DEBUFF := 4

  /** `slots` lists the timeline shifts among the effects of the skill. */
  datatype Skill = Skill(effectType: int, targetType: int, wait: int, slots: seq<nat>)

  datatype Hit = Hit(target: int, missed: bool, healed: int, killed: bool, newlyBroken: bool)

  datatype AttackError =
    | UnknownActor | UnknownTarget | Unsupported | BreakRefused | SlotsRefused | RemovalRefused | TurnRefused

  /** The working copies of the reducer: members, queue, reply rows, killed ids and summed damage. */
  datatype Front = Front(ms: seq<Member>, us: seq<Unit>, hits: seq<Hit>, killed: seq<int>, total: int)

  predicate Breaks(m: Member, breakDamage: nat) {
    m.enemy.Some? && m.enemy.value.breakGauge > 0 && m.enemy.value.breakGauge - breakDamage <= 0
  }

  function Healed(m: Member, heal: nat): Member {
    m.(hp := Min(Max(m.hp, 0) + heal, Max(m.maxHp, 0)))
  }

  function Struck(m: Member, damage: nat, breakDamage: nat): Member {
    var hp := Max(Max(m.hp, 0) - Min(damage, I32_MAX), 0);
    m.(hp := hp, alive := hp > 0,
       enemy := if m.enemy.None? then None
                else Some(m.enemy.value.(breakGauge := Max(Max(m.enemy.value.breakGauge, 0) - breakDamage, 0),
                                         broken := m.enemy.value.broken || Breaks(m, breakDamage))))
  }

  /** One target of one action. */
  function StrikeOne(f: Front, sp: Speeds, target: int, roll: Roll, effectType: int, kind: int, tool: bool, offset: int)
    : Result<Front, AttackError>
  {
    match Find(f.ms, target)
    case None => Err(UnknownTarget)
    case Some(k) =>
      var m := f.ms[k];
      if effectType == HEAL then
        if m.kind != kind then Err(Unsupported)
        else
          var healed := Healed(m, roll.heal);
          Ok(f.(ms := f.ms[k := healed], hits := f.hits + [Hit(target, false, healed.hp - Max(m.hp, 0), false, false)]))
      else if effectType == SUPPORT || effectType == DEBUFF then Ok(f.(hits := f.hits + [Hit(target, false, 0, false, false)]))
      else if effectType != DAMAGE then Err(Unsupported)
      else if !tool && roll.miss then Ok(f.(hits := f.hits + [Hit(target, true, 0, false, false)]))
      else
        var breakDamage := if tool then 0 else roll.breakDamage;
        var struck := Struck(m, roll.damage, breakDamage);
        var broken := Breaks(m, breakDamage);
        var g := Front(f.ms[k := struck], f.us, f.hits + [Hit(target, false, 0, !struck.alive, broken)],
                       if struck.alive then f.killed else f.killed + [target],
                       f.total + Min(Max(m.hp, 0), Min(roll.damage, I32_MAX)));
        if !struck.alive || !broken then Ok(g)
        else if 2 <= Owned(f.us, target) <= 3 then Ok(g.(us := AfterDelay(sp, f.us, target, Max(offset, 0))))
        else Err(BreakRefused)
  }

  /** The targets in order; the first refusal stops. */
  function StrikeAll(f: Front, sp: Speeds, targets: seq<int>, rolls: seq<Roll>, effectType: int, kind: int, tool: bool, offset: int)
    : Result<Front, AttackError>
    requires |targets| == |rolls|
    decreases |targets|
  {
    if targets == [] then Ok(f)
    else match StrikeOne(f, sp, targets[0], rolls[0], effectType, kind, tool, offset)
      case Err(e) => Err(e)
      case Ok(g) => StrikeAll(g, sp, targets[1..], rolls[1..], effectType, kind, tool, offset)
  }

  /** Slot delays of the living targets that were not missed: for each shift in turn, every target in turn. */
  function ShiftTargets(us: seq<Unit>, sp: Speeds, targets: seq<int>, slots: nat): Option<seq<Unit>>
    decreases |targets|
  {
    if targets == [] then Some(us)
    else
      var d := SlotDelay(Sorted(sp, us), targets[0], slots);
      if d.None? then None else ShiftTargets(AfterDelay(sp, us, targets[0], d.value), sp, targets[1..], slots)
  }

  function ShiftAll(us: seq<Unit>, sp: Speeds, targets: seq<int>, shifts: seq<nat>): Option<seq<Unit>>
    decreases |shifts|
  {
    if shifts == [] then Some(us)
    else match ShiftTargets(us, sp, targets, shifts[0])
      case None => None
      case Some(next) => ShiftAll(next, sp, targets, shifts[1..])
  }

  /** Targets that were hit, once each, and still live. */
  function Movable(hits: seq<Hit>, ms: seq<Member>): (r: seq<int>)
    ensures forall t :: t in r <==> Living(ms, t) && exists i | 0 <= i < |hits| :: hits[i].target == t && !hits[i].missed
    ensures forall i, j | 0 <= i < j < |r| :: r[i] != r[j]
  {
    if hits == [] then []
    else
      var n := |hits| - 1;
      assert hits == hits[..n] + [hits[n]];
      var rest, t := Movable(hits[..n], ms), hits[n].target;
      if hits[n].missed || !Living(ms, t) || t in rest then rest else rest + [t]
  }

  datatype Outcome = Outcome(ms: seq<Member>, us: seq<Unit>, hits: seq<Hit>, total: int)

  /** The action up to the moment the actor's turn is taken: what was struck, and the queue without delays and deaths. */
  function BeforeTurn(ms: seq<Member>, us: seq<Unit>, actor: int, kind: int, skill: Skill, shifts: seq<nat>,
                      targets: seq<int>, rolls: seq<Roll>, tool: bool, offset: int): Result<(Front, seq<Unit>), AttackError>
    requires |targets| == |rolls|
  {
    var sp := SpeedTable(ms);
    if Find(ms, actor).None? then Err(UnknownActor)
    else match StrikeAll(Front(ms, us, [], [], 0), sp, targets, rolls, skill.effectType, kind, tool, offset)
      case Err(e) => Err(e)
      case Ok(f) =>
        var shifted := ShiftAll(f.us, sp, Movable(f.hits, f.ms), shifts);
        if shifted.None? then Err(SlotsRefused)
        else
          var left := if f.killed == [] then shifted.value else Without(Sorted(sp, shifted.value), f.killed);
          if f.killed != [] && |left| == |shifted.value| then Err(RemovalRefused) else Ok((f, left))
  }

  /** The whole action as a value: what the reducer stores and replies, or why it refuses. */
  function Act(ms: seq<Member>, us: seq<Unit>, actor: int, kind: int, skill: Skill, shifts: seq<nat>,
               targets: seq<int>, rolls: seq<Roll>, tool: bool, offset: int): Result<Outcome, AttackError>
    requires |targets| == |rolls|
  {
    match BeforeTurn(ms, us, actor, kind, skill, shifts, targets, rolls, tool, offset)
    case Err(e) => Err(e)
    case Ok((f, left)) =>
      if tool then Ok(Outcome(f.ms, left, f.hits, f.total))
      else if !TurnAllowed(SpeedTable(ms), left, actor) then Err(TurnRefused)
      else
        var speed := ms[Find(ms, actor).value].speed;
        Ok(Outcome(f.ms,
                   AfterTurn(SpeedTable(ms), left, actor, ActionWait(speed, skill.wait), BaseWait(speed), kind == ENEMY),
                   f.hits, f.total))
  }

  // ----- hit points ----------------------------------------------------------------------------

  function HpSum(ms: seq<Member>): int {
    if ms == [] then 0 else ms[0].hp + HpSum(ms[1..])
  }

  /** Hit points lie between 0 and the maximum, and exactly the members with some are alive. */
  predicate Healthy(ms: seq<Member>) {
    forall i | 0 <= i < |ms| :: 0 <= ms[i].hp <= ms[i].maxHp && (ms[i].alive <==> ms[i].hp > 0)
  }

  predicate SameBodies(a: seq<Member>, b: seq<Member>) {
    |a| == |b| && forall i | 0 <= i < |a| :: a[i].id == b[i].id && a[i].kind == b[i].kind
                                           && a[i].speed == b[i].speed && a[i].maxHp == b[i].maxHp
                                           && (a[i].enemy.Some? <==> b[i].enemy.Some?)
  }

  lemma {:induction false} HpSumUpdate(ms: seq<Member>, k: nat, m: Member)
    requires k < |ms|
    ensures HpSum(ms[k := m]) == HpSum(ms) - ms[k].hp + m.hp
  {
    if k == 0 {
      assert ms[k := m] == [m] + ms[1..];
    } else {
      HpSumUpdate(ms[1..], k - 1, m);
      assert ms[k := m][1..] == ms[1..][k - 1 := m];
    }
  }

  predicate Distinct(ids: seq<int>) {
    forall i, j | 0 <= i < j < |ids| :: ids[i] != ids[j]
  }

  /** The state of the reducer after some targets of `ms`: which deaths it recorded, and what it summed up. */
  ghost predicate Consistent(ms: seq<Member>, f: Front, effectType: int) {
    && SameBodies(ms, f.ms) && Healthy(f.ms)
    && (forall id :: Living(f.ms, id) <==> Living(ms, id) && id !in f.killed)
    && f.total == (if effectType == DAMAGE then HpSum(ms) - HpSum(f.ms) else 0)
  }

  lemma {:induction false} UniqueMember(ms: seq<Member>, i: nat, id: int)
    requires DistinctIds(ms) && i < |ms| && ms[i].id == id
    ensures Find(ms, id) == Some(i) && (Living(ms, id) <==> ms[i].alive)
  {
    var k := Find(ms, id).value;
    assert k == i;
  }

  lemma {:induction false} LivingAfterUpdate(ms: seq<Member>, k: nat, m: Member)
    requires DistinctIds(ms) && k < |ms| && m.id == ms[k].id
    ensures forall id :: Living(ms[k := m], id) <==> (if id == m.id then m.alive else Living(ms, id))
  {
    forall id ensures Living(ms[k := m], id) <==> (if id == m.id then m.alive else Living(ms, id)) {
      if Living(ms[k := m], id) {
        var i :| 0 <= i < |ms| && ms[k := m][i].id == id && ms[k := m][i].alive;
        assert i == k || ms[i].id == id;
      }
      if id != m.id && Living(ms, id) {
        var i :| 0 <= i < |ms| && ms[i].id == id && ms[i].alive;
        assert ms[k := m][i].id == id && ms[k := m][i].alive;
      }
      if id == m.id && m.alive { assert ms[k := m][k].id == id; }
    }
  }

  lemma {:induction false} StrikeConsistent(ms: seq<Member>, f: Front, sp: Speeds, target: int, roll: Roll,
                                            effectType: int, kind: int, tool: bool, offset: int)
    requires DistinctIds(ms) && Consistent(ms, f, effectType) && Living(f.ms, target)
    requires StrikeOne(f, sp, target, roll, effectType, kind, tool, offset).Ok?
    ensures var g := StrikeOne(f, sp, target, roll, effectType, kind, tool, offset).value;
            && Consistent(ms, g, effectType)
            && (forall id | id != target :: Living(g.ms, id) <==> Living(f.ms, id))
            && g.killed == (if Living(g.ms, target) then f.killed else f.killed + [target])
  {
    hide AfterDelay, Owned, HpSum;
    var k := Find(f.ms, target).value;
    var g := StrikeOne(f, sp, target, roll, effectType, kind, tool, offset).value;
    assert DistinctIds(f.ms);
    assert f.ms[k].alive by {
      var i :| 0 <= i < |f.ms| && f.ms[i].id == target && f.ms[i].alive;
      UniqueMember(f.ms, i, target);
    }
    var m := g.ms[k];
    assert g.ms == f.ms[k := m];
    HpSumUpdate(f.ms, k, m);
    LivingAfterUpdate(f.ms, k, m);
  }

  /** The queue side of one target: still manned by the members before the action, and the head untouched. */
  lemma {:induction false} StrikeKeepsQueue(ms: seq<Member>, f: Front, target: int, roll: Roll,
                                            effectType: int, kind: int, tool: bool, offset: int, a: int)
    requires Manned(ms, f.us) && Living(ms, target)
    ensures var r := StrikeOne(f, SpeedTable(ms), target, roll, effectType, kind, tool, offset);
            && r != Err(BreakRefused) && (Find(f.ms, target).Some? ==> r != Err(UnknownTarget))
            && (r.Ok? ==> Manned(ms, r.value.us))
            && (r.Ok? && Heads(SpeedTable(ms), f.us, a) && (a != target || effectType != DAMAGE)
                ==> Heads(SpeedTable(ms), r.value.us, a))
  {
    hide Sorted, Owned, Heads, AfterDelay;
    assert Staffed(ms, f.us, target);
    DelayKeepsRoster(ms, f.us, target, Max(offset, 0));
    if a != target && Heads(SpeedTable(ms), f.us, a) {
      DelayKeepsHead(SpeedTable(ms), f.us, a, target, Max(offset, 0));
    }
  }

  lemma {:induction false} LivingFound(ms: seq<Member>, id: int)
    requires Living(ms, id)
    ensures Find(ms, id).Some?
  {
  }

  lemma {:induction false} StrikesKeep(ms: seq<Member>, f: Front, targets: seq<int>, rolls: seq<Roll>,
                                       effectType: int, kind: int, tool: bool, offset: int, a: int)
    requires |targets| == |rolls| && Distinct(targets) && forall t | t in targets :: Living(f.ms, t)
    requires Manned(ms, f.us) && Consistent(ms, f, effectType)
    ensures var r := StrikeAll(f, SpeedTable(ms), targets, rolls, effectType, kind, tool, offset);
            && r != Err(BreakRefused) && r != Err(UnknownTarget)
            && (r.Err? ==> r.error == Unsupported)
            && (r.Ok? ==> Consistent(ms, r.value, effectType) && Manned(ms, r.value.us))
            && (r.Ok? && Heads(SpeedTable(ms), f.us, a) && (a !in targets || effectType != DAMAGE)
                ==> Heads(SpeedTable(ms), r.value.us, a))
            && (r.Ok? ==> forall id | id in r.value.killed :: id in f.killed || id in targets)
            && (r.Ok? && effectType != DAMAGE ==> r.value.killed == f.killed)
    decreases |targets|
  {
    hide Heads, Manned, Owned, AfterDelay, HpSum, Struck, Healed;
    if targets != [] {
      var t := targets[0];
      assert Living(f.ms, t);
      assert Living(ms, t);
      LivingFound(f.ms, t);
      StrikeKeepsQueue(ms, f, t, rolls[0], effectType, kind, tool, offset, a);
      var one := StrikeOne(f, SpeedTable(ms), t, rolls[0], effectType, kind, tool, offset);
      if one.Ok? {
        MannedDistinct(ms, f.us);
        StrikeConsistent(ms, f, SpeedTable(ms), t, rolls[0], effectType, kind, tool, offset);
        forall u | u in targets[1..] ensures Living(one.value.ms, u) {
          assert u in targets && u != t;
        }
        StrikesKeep(ms, one.value, targets[1..], rolls[1..], effectType, kind, tool, offset, a);
      }
    }
  }

  lemma {:induction false} MannedDistinct(ms: seq<Member>, us: seq<Unit>)
    requires Manned(ms, us)
    ensures DistinctIds(ms)
  {
  }

  // ----- slot delays ---------------------------------------------------------------------------

  lemma {:induction false} ShiftsKeep(ms: seq<Member>, us: seq<Unit>, targets: seq<int>, slots: nat, a: int)
    requires Manned(ms, us)
    ensures var r := ShiftTargets(us, SpeedTable(ms), targets, slots);
            && (r.Some? ==> Manned(ms, r.value) && |r.value| == |us|)
            && (r.Some? && Heads(SpeedTable(ms), us, a) && a !in targets ==> Heads(SpeedTable(ms), r.value, a))
    decreases |targets|
  {
    hide Heads, Manned, AfterDelay, Owned;
    if targets != [] {
      var d := SlotDelay(Sorted(SpeedTable(ms), us), targets[0], slots);
      if d.Some? {
        DelayKeepsRoster(ms, us, targets[0], d.value);
        if Heads(SpeedTable(ms), us, a) && a != targets[0] {
          DelayKeepsHead(SpeedTable(ms), us, a, targets[0], d.value);
        }
        ShiftsKeep(ms, AfterDelay(SpeedTable(ms), us, targets[0], d.value), targets[1..], slots, a);
      }
    }
  }

  lemma {:induction false} AllShiftsKeep(ms: seq<Member>, us: seq<Unit>, targets: seq<int>, shifts: seq<nat>, a: int)
    requires Manned(ms, us)
    ensures var r := ShiftAll(us, SpeedTable(ms), targets, shifts);
            && (r.Some? ==> Manned(ms, r.value) && |r.value| == |us|)
            && (r.Some? && Heads(SpeedTable(ms), us, a) && (a !in targets || shifts == [])
                ==> Heads(SpeedTable(ms), r.value, a))
    decreases |shifts|
  {
    hide Heads, Manned, ShiftTargets;
    if shifts != [] {
      ShiftsKeep(ms, us, targets, shifts[0], a);
      var next := ShiftTargets(us, SpeedTable(ms), targets, shifts[0]);
      if next.Some? {
        AllShiftsKeep(ms, next.value, targets, shifts[1..], a);
      }
    }
  }

  // ----- the action as a whole -----------------------------------------------------------------

  lemma {:induction false} SpeedsOfBodies(a: seq<Member>, b: seq<Member>)
    requires SameBodies(a, b)
    ensures SpeedTable(a) == SpeedTable(b)
  {
    if a != [] {
      SpeedsOfBodies(a[1..], b[1..]);
    }
  }

  lemma {:induction false} HitTargets(f: Front, sp: Speeds, targets: seq<int>, rolls: seq<Roll>,
                                      effectType: int, kind: int, tool: bool, offset: int)
    requires |targets| == |rolls|
    requires StrikeAll(f, sp, targets, rolls, effectType, kind, tool, offset).Ok?
    ensures var g := StrikeAll(f, sp, targets, rolls, effectType, kind, tool, offset).value;
            |g.hits| == |f.hits| + |targets| && g.hits[..|f.hits|] == f.hits
            && forall i | 0 <= i < |targets| :: g.hits[|f.hits| + i].target == targets[i]
    decreases |targets|
  {
    hide Struck, Healed, AfterDelay, Owned;
    if targets != [] {
      var one := StrikeOne(f, sp, targets[0], rolls[0], effectType, kind, tool, offset).value;
      assert |one.hits| == |f.hits| + 1 && one.hits[..|f.hits|] == f.hits && one.hits[|f.hits|].target == targets[0];
      HitTargets(one, sp, targets[1..], rolls[1..], effectType, kind, tool, offset);
      var g := StrikeAll(f, sp, targets, rolls, effectType, kind, tool, offset).value;
      assert g.hits[..|f.hits|] == g.hits[..|one.hits|][..|f.hits|];
      forall i | 0 <= i < |targets| ensures g.hits[|f.hits| + i].target == targets[i] {
        if i == 0 { assert g.hits[|f.hits|] == g.hits[..|one.hits|][|f.hits|]; }
        else { assert g.hits[|one.hits| + (i - 1)].target == targets[1..][i - 1]; }
      }
    }
  }

  /** The actor aims away from itself, or at itself with nothing that hurts or delays. */
  predicate SparesActor(actor: int, skill: Skill, shifts: seq<nat>, targets: seq<int>) {
    actor !in targets || (skill.effectType != DAMAGE && shifts == [])
  }

  ghost predicate Ready(ms: seq<Member>, us: seq<Unit>, targets: seq<int>) {
    Manned(ms, us) && Healthy(ms) && Distinct(targets) && forall t | t in targets :: Living(ms, t)
  }

  /** Up to the turn the roster survives, nobody is revived, and an actor in front that spares itself stays in front. */
  lemma {:induction false} BeforeTurnKeeps(ms: seq<Member>, us: seq<Unit>, actor: int, kind: int, skill: Skill,
                                           shifts: seq<nat>, targets: seq<int>, rolls: seq<Roll>, tool: bool, offset: int)
    requires |targets| == |rolls| && Ready(ms, us, targets) && Find(ms, actor).Some?
    ensures var r := BeforeTurn(ms, us, actor, kind, skill, shifts, targets, rolls, tool, offset);
            && (r.Err? ==> r.error in {Unsupported, SlotsRefused})
            && (r.Ok? ==> Manned(r.value.0.ms, r.value.1) && Healthy(r.value.0.ms) && SameBodies(ms, r.value.0.ms)
                          && forall id :: Living(r.value.0.ms, id) <==> Living(ms, id) && id !in r.value.0.killed)
            && (r.Ok? && Heads(SpeedTable(ms), us, actor) && SparesActor(actor, skill, shifts, targets)
                ==> Heads(SpeedTable(ms), r.value.1, actor))
  {
    hide Sorted, Heads, Manned, AfterDelay, Owned, StrikeAll, ShiftAll, Movable, Without, Living, HpSum;
    var sp := SpeedTable(ms);
    var start := Front(ms, us, [], [], 0);
    StartConsistent(ms, us, skill.effectType);
    StrikesKeep(ms, start, targets, rolls, skill.effectType, kind, tool, offset, actor);
    var struck := StrikeAll(start, sp, targets, rolls, skill.effectType, kind, tool, offset);
    if struck.Ok? {
      var f := struck.value;
      HitTargets(start, sp, targets, rolls, skill.effectType, kind, tool, offset);
      MovableTargets(f.hits, f.ms, targets);
      AllShiftsKeep(ms, f.us, Movable(f.hits, f.ms), shifts, actor);
      var shifted := ShiftAll(f.us, sp, Movable(f.hits, f.ms), shifts);
      if shifted.Some? { ActionTail(ms, f, shifted.value, skill.effectType, actor); }
    }
  }

  /**
   * When the turn of an action is refused, under any speeds: exactly when the actor does not own the least unit of the
   * queue that delays and deaths have left.
   */
  lemma {:induction false} TurnRefusedExactly(ms: seq<Member>, us: seq<Unit>, actor: int, kind: int, skill: Skill,
                                              shifts: seq<nat>, targets: seq<int>, rolls: seq<Roll>, tool: bool, offset: int)
    requires |targets| == |rolls| && Ready(ms, us, targets) && Find(ms, actor).Some?
    ensures var r := BeforeTurn(ms, us, actor, kind, skill, shifts, targets, rolls, tool, offset);
            Act(ms, us, actor, kind, skill, shifts, targets, rolls, tool, offset) == Err(TurnRefused)
            <==> !tool && r.Ok? && !Heads(SpeedTable(ms), r.value.1, actor)
  {
    hide Sorted, Heads, Manned, BeforeTurn, AfterTurn, TurnAllowed;
    BeforeTurnKeeps(ms, us, actor, kind, skill, shifts, targets, rolls, tool, offset);
    var r := BeforeTurn(ms, us, actor, kind, skill, shifts, targets, rolls, tool, offset);
    if r.Ok? {
      var left := r.value.1;
      if left != [] { TurnAllowedExactly(r.value.0.ms, SpeedTable(ms), left, actor); }
      else { NobodyHeads(SpeedTable(ms), actor); }
    }
  }

  lemma {:induction false} NobodyHeads(sp: Speeds, a: int)
    ensures !Heads(sp, [], a) && !TurnAllowed(sp, [], a)
  {
  }

  /**
   * The roster survives an action, and the scheduler's own checks never fire: on a manned queue whose head belongs to
   * an actor that spares itself, the only refusals left are an unsupported skill and a slot delay without a gap.
   */
  lemma {:induction false} ActionKeepsRoster(ms: seq<Member>, us: seq<Unit>, actor: int, kind: int, skill: Skill,
                                             shifts: seq<nat>, targets: seq<int>, rolls: seq<Roll>, tool: bool, offset: int)
    requires |targets| == |rolls| && Ready(ms, us, targets) && Find(ms, actor).Some?
    ensures var r := Act(ms, us, actor, kind, skill, shifts, targets, rolls, tool, offset);
            && (r.Ok? ==> Manned(r.value.ms, r.value.us) && Healthy(r.value.ms) && SameBodies(ms, r.value.ms)
                          && forall id | Living(r.value.ms, id) :: Living(ms, id))
            && (r.Err? ==> r.error in {Unsupported, SlotsRefused, TurnRefused})
            && (tool || (Heads(SpeedTable(ms), us, actor) && SparesActor(actor, skill, shifts, targets))
                ==> r != Err(TurnRefused))
  {
    hide Sorted, Heads, Manned, BeforeTurn, AfterTurn, TurnAllowed, Living;
    BeforeTurnKeeps(ms, us, actor, kind, skill, shifts, targets, rolls, tool, offset);
    TurnRefusedExactly(ms, us, actor, kind, skill, shifts, targets, rolls, tool, offset);
    var r := BeforeTurn(ms, us, actor, kind, skill, shifts, targets, rolls, tool, offset);
    if r.Ok? && TurnAllowed(SpeedTable(ms), r.value.1, actor) {
      SpeedsOfBodies(ms, r.value.0.ms);
      var speed := ms[Find(ms, actor).value].speed;
      TurnKeepsRoster(r.value.0.ms, r.value.1, actor, ActionWait(speed, skill.wait), BaseWait(speed), kind == ENEMY);
    }
  }

  lemma {:induction false} StartConsistent(ms: seq<Member>, us: seq<Unit>, effectType: int)
    requires Healthy(ms)
    ensures Consistent(ms, Front(ms, us, [], [], 0), effectType)
  {
  }

  lemma {:induction false} MovableTargets(hits: seq<Hit>, ms: seq<Member>, targets: seq<int>)
    requires |hits| == |targets| && forall i | 0 <= i < |targets| :: hits[i].target == targets[i]
    ensures forall t | t in Movable(hits, ms) :: t in targets
  {
  }

  /** After the deaths are taken out of the queue it is manned again, in every branch. */
  lemma {:induction false} ActionTail(ms: seq<Member>, f: Front, shifted: seq<Unit>, effectType: int, actor: int)
    requires Manned(ms, shifted) && Consistent(ms, f, effectType)
    requires forall id | id in f.killed :: Living(ms, id)
    ensures var left := if f.killed == [] then shifted else Without(Sorted(SpeedTable(ms), shifted), f.killed);
            && Manned(f.ms, left) && Healthy(f.ms) && SameBodies(ms, f.ms)
            && (f.killed != [] ==> |left| != |shifted|)
            && (Heads(SpeedTable(ms), shifted, actor) && actor !in f.killed ==> Heads(SpeedTable(ms), left, actor))
  {
    hide Heads, HpSum, Owned, Living;
    var sp := SpeedTable(ms);
    assert DistinctIds(f.ms);
    if f.killed == [] {
      NoDeaths(ms, f.ms, shifted);
    } else {
      var s := Sorted(sp, shifted);
      SortedManned(ms, shifted);
      RemovalKeepsRoster(ms, f.ms, s, f.killed);
      Shrinks(ms, f.ms, s, f.killed);
      if Heads(sp, shifted, actor) && actor !in f.killed {
        SortedHeads(sp, shifted, actor);
        RemovalKeepsHead(sp, s, actor, f.killed);
      }
    }
  }

  lemma {:induction false} NoDeaths(ms: seq<Member>, after: seq<Member>, us: seq<Unit>)
    requires Manned(ms, us) && DistinctIds(after) && forall id :: Living(after, id) <==> Living(ms, id)
    ensures Manned(after, us)
  {
    hide Owned, Living;
    forall id ensures Staffed(after, us, id) {
      assert Staffed(ms, us, id);
    }
  }

  lemma {:induction false} SortedManned(ms: seq<Member>, us: seq<Unit>)
    requires Manned(ms, us)
    ensures Manned(ms, Sorted(SpeedTable(ms), us))
  {
    var s := Sorted(SpeedTable(ms), us);
    SortedPermutes(SpeedTable(ms), us);
    SortedWaits(SpeedTable(ms), us);
    forall id ensures Owned(us, id) == Owned(s, id) { CountPermutation(us, s, Of(id)); }
    forall id, n ensures Count(us, Slot(id, n)) == Count(s, Slot(id, n)) { CountPermutation(us, s, Slot(id, n)); }
    SlotsKeepRoster(ms, us, s);
  }

  lemma {:induction false} SortedHeads(sp: Speeds, us: seq<Unit>, a: int)
    requires Heads(sp, us, a)
    ensures Heads(sp, Sorted(sp, us), a)
  {
    hide Sorted;
    var h: Unit :| h in us && h.member == a && forall u | u in us :: Before(sp, h, u);
    SortedPermutes(sp, us);
    assert h in multiset(Sorted(sp, us));
    forall u | u in Sorted(sp, us) ensures Before(sp, h, u) {
      assert u in multiset(us);
    }
  }

  lemma {:induction false} Shrinks(before: seq<Member>, after: seq<Member>, us: seq<Unit>, ids: seq<int>)
    requires Manned(before, us) && ids != [] && Living(before, ids[0])
    ensures |Without(us, ids)| != |us|
  {
    assert Staffed(before, us, ids[0]);
    OwnsSome(us, ids[0]);
    Queue.WithoutLength(us, ids);
    RemovalKeeps(us, ids, Of(ids[0]));
    CountBounded(Without(us, ids), Of(ids[0]));
  }

  /** The head of a manned queue may always act. */
  lemma {:induction false} HeadAllowed(ms: seq<Member>, us: seq<Unit>, a: int)
    requires Manned(ms, us)
    ensures Heads(SpeedTable(ms), us, a) ==> TurnAllowed(SpeedTable(ms), us, a)
  {
    hide Sorted;
    var sp := SpeedTable(ms);
    if Heads(sp, us, a) {
      var s := Sorted(sp, us);
      HeadsIsHead(sp, us, a);
      SortedPermutes(sp, us);
      CountPermutation(us, s, Of(a));
      OwnsSome(us, a);
      assert Has(us, a) by {
        var h: Unit :| h in us && h.member == a && forall u | u in us :: Before(sp, h, u);
        var i :| 0 <= i < |us| && us[i] == h;
      }
      assert Staffed(ms, us, a);
    }
  }

  // ----- what an action does to the queue ------------------------------------------------------

  /** The targets whose break gauge the action emptied and that live on. */
  function NewlyDown(hits: seq<Hit>): (r: set<int>)
    ensures forall t :: t in r <==> exists i | 0 <= i < |hits| :: hits[i].target == t && hits[i].newlyBroken && !hits[i].killed
  {
    if hits == [] then {}
    else
      var last := hits[|hits| - 1];
      assert hits == hits[..|hits| - 1] + [last];
      NewlyDown(hits[..|hits| - 1]) + (if last.newlyBroken && !last.killed then {last.target} else {})
  }

  /** Breaking a target pushes it back by the offset, and nothing else that an action does to its targets moves the queue. */
  lemma {:induction false} StrikesPush(f: Front, sp: Speeds, targets: seq<int>, rolls: seq<Roll>,
                                       effectType: int, kind: int, tool: bool, offset: int)
    requires |targets| == |rolls| && Distinct(targets)
    requires StrikeAll(f, sp, targets, rolls, effectType, kind, tool, offset).Ok?
    ensures var g := StrikeAll(f, sp, targets, rolls, effectType, kind, tool, offset).value;
            && |g.hits| == |f.hits| + |targets|
            && multiset(g.us) == multiset(Pushed(f.us, NewlyDown(g.hits[|f.hits|..]), Max(offset, 0)))
    decreases |targets|
  {
    hide StrikeOne, Pushed, NewlyDown, Distinct;
    HitTargets(f, sp, targets, rolls, effectType, kind, tool, offset);
    var d := Max(offset, 0);
    if targets == [] {
      assert f.hits[|f.hits|..] == [];
      NobodyPushed(f.us, d);
    } else {
      var one := StrikeOne(f, sp, targets[0], rolls[0], effectType, kind, tool, offset).value;
      var g := StrikeAll(f, sp, targets, rolls, effectType, kind, tool, offset).value;
      StrikePushes(f, sp, targets[0], rolls[0], effectType, kind, tool, offset);
      RestDistinct(targets);
      StrikesPush(one, sp, targets[1..], rolls[1..], effectType, kind, tool, offset);
      HitTargets(one, sp, targets[1..], rolls[1..], effectType, kind, tool, offset);
      var rest := g.hits[|one.hits|..];
      assert g.hits[|f.hits|..] == [one.hits[|f.hits|]] + rest by {
        assert g.hits[..|one.hits|] == one.hits;
        assert g.hits[|f.hits|] == one.hits[|f.hits|];
      }
      PushedTwice(f.us, one.us, one.hits[|f.hits|], rest, targets, d);
    }
  }

  lemma {:induction false} NobodyPushed(us: seq<Unit>, d: int)
    ensures Pushed(us, NewlyDown([]), d) == us
  {
  }

  lemma {:induction false} RestDistinct(targets: seq<int>)
    requires Distinct(targets) && targets != []
    ensures Distinct(targets[1..]) && forall i | 0 <= i < |targets[1..]| :: targets[1..][i] != targets[0]
  {
  }

  lemma {:induction false} StrikePushes(f: Front, sp: Speeds, target: int, roll: Roll, effectType: int, kind: int, tool: bool, offset: int)
    requires StrikeOne(f, sp, target, roll, effectType, kind, tool, offset).Ok?
    ensures var g := StrikeOne(f, sp, target, roll, effectType, kind, tool, offset).value;
            && |g.hits| == |f.hits| + 1 && g.hits[..|f.hits|] == f.hits
            && multiset(g.us) == multiset(Pushed(f.us, NewlyDown([g.hits[|f.hits|]]), Max(offset, 0)))
  {
    hide Struck, Healed, Breaks, AfterDelay, Owned, Pushed, NewlyDown;
    var g := StrikeOne(f, sp, target, roll, effectType, kind, tool, offset).value;
    OneDown(g.hits[|f.hits|]);
    var h := g.hits[|f.hits|];
    if h.newlyBroken && !h.killed {
      DelayPushes(sp, f.us, target, Max(offset, 0));
    } else {
      NonePushed(f.us, Max(offset, 0));
    }
  }

  lemma {:induction false} OneDown(h: Hit)
    ensures NewlyDown([h]) == if h.newlyBroken && !h.killed then {h.target} else {}
  {
    assert [h][..0] == [];
  }

  lemma {:induction false} NonePushed(us: seq<Unit>, d: int)
    ensures Pushed(us, {}, d) == us
  {
  }

  lemma {:induction false} PushedTwice(us: seq<Unit>, one: seq<Unit>, h: Hit, rest: seq<Hit>, targets: seq<int>, d: int)
    requires multiset(one) == multiset(Pushed(us, NewlyDown([h]), d))
    requires targets != [] && h.target == targets[0] && |rest| == |targets| - 1
    requires forall i | 0 <= i < |rest| :: rest[i].target == targets[1..][i] && targets[1..][i] != targets[0]
    ensures multiset(Pushed(one, NewlyDown(rest), d)) == multiset(Pushed(us, NewlyDown([h] + rest), d))
  {
    var a, b := NewlyDown([h]), NewlyDown(rest);
    OneDown(h);
    assert NewlyDown([h] + rest) == a + b by {
      forall t ensures t in NewlyDown([h] + rest) <==> t in a + b {
        if t in b { var i :| 0 <= i < |rest| && rest[i].target == t && rest[i].newlyBroken && !rest[i].killed; assert ([h] + rest)[i + 1] == rest[i]; }
        if t in a { assert ([h] + rest)[0] == h; }
      }
    }
    assert a !! b;
    PushedPermutes(one, Pushed(us, a, d), b, d);
    assert Pushed(Pushed(us, a, d), b, d) == Pushed(us, a + b, d);
  }

  /**
   * The queue of an accepted action without shifts, as a bag of units: what was newly broken is pushed back by the offset,
   * the dead are gone, and everybody else is where they were, until the turn is taken.
   */
  lemma {:induction false} ActionQueue(ms: seq<Member>, us: seq<Unit>, actor: int, kind: int, skill: Skill,
                                       targets: seq<int>, rolls: seq<Roll>, tool: bool, offset: int)
    requires |targets| == |rolls| && Distinct(targets)
    requires BeforeTurn(ms, us, actor, kind, skill, [], targets, rolls, tool, offset).Ok?
    ensures var (f, left) := BeforeTurn(ms, us, actor, kind, skill, [], targets, rolls, tool, offset).value;
            forall u :: multiset(left)[u] == if u.member in f.killed then 0 else multiset(Pushed(us, NewlyDown(f.hits), Max(offset, 0)))[u]
  {
    hide StrikeAll, Movable, Pushed, NewlyDown, Without;
    var start, sp := Front(ms, us, [], [], 0), SpeedTable(ms);
    StrikesPush(start, sp, targets, rolls, skill.effectType, kind, tool, offset);
    var (f, left) := BeforeTurn(ms, us, actor, kind, skill, [], targets, rolls, tool, offset).value;
    assert f.hits[0..] == f.hits;
    SortedPermutes(sp, f.us);
    forall u ensures multiset(left)[u] == if u.member in f.killed then 0 else multiset(f.us)[u] {
      WithoutCount(Sorted(sp, f.us), f.killed, u);
    }
  }

  lemma {:induction false} WithoutCount(us: seq<Unit>, ids: seq<int>, u: Unit)
    ensures multiset(Without(us, ids))[u] == if u.member in ids then 0 else multiset(us)[u]
  {
    if us != [] {
      assert us == [us[0]] + us[1..];
      WithoutCount(us[1..], ids, u);
    }
  }

  /** Who is dead for the queue: the targets whose row says so. */
  lemma {:induction false} KilledListed(f: Front, sp: Speeds, targets: seq<int>, rolls: seq<Roll>,
                                        effectType: int, kind: int, tool: bool, offset: int, t: int)
    requires |targets| == |rolls|
    requires StrikeAll(f, sp, targets, rolls, effectType, kind, tool, offset).Ok?
    ensures var g := StrikeAll(f, sp, targets, rolls, effectType, kind, tool, offset).value;
            |g.hits| >= |f.hits|
            && (t in g.killed <==> t in f.killed || exists i | |f.hits| <= i < |g.hits| :: g.hits[i].target == t && g.hits[i].killed)
    decreases |targets|
  {
    hide StrikeOne;
    HitTargets(f, sp, targets, rolls, effectType, kind, tool, offset);
    if targets != [] {
      var one := StrikeOne(f, sp, targets[0], rolls[0], effectType, kind, tool, offset).value;
      var g := StrikeAll(f, sp, targets, rolls, effectType, kind, tool, offset).value;
      StrikeKills(f, sp, targets[0], rolls[0], effectType, kind, tool, offset, t);
      KilledListed(one, sp, targets[1..], rolls[1..], effectType, kind, tool, offset, t);
      HitTargets(one, sp, targets[1..], rolls[1..], effectType, kind, tool, offset);
      assert g.hits[|f.hits|] == one.hits[|f.hits|] by { assert g.hits[..|one.hits|] == one.hits; }
    }
  }

  lemma {:induction false} StrikeKills(f: Front, sp: Speeds, target: int, roll: Roll, effectType: int, kind: int, tool: bool,
                                       offset: int, t: int)
    requires StrikeOne(f, sp, target, roll, effectType, kind, tool, offset).Ok?
    ensures var g := StrikeOne(f, sp, target, roll, effectType, kind, tool, offset).value;
            |g.hits| == |f.hits| + 1 && (t in g.killed <==> t in f.killed || (g.hits[|f.hits|].target == t && g.hits[|f.hits|].killed))
  {
    hide Struck, Healed, Breaks, AfterDelay, Owned;
  }

  /** Shifts come one after the other, and each moves its targets in turn: no more, no fewer, in no other order. */
  lemma {:induction false} ShiftsInTurn(us: seq<Unit>, sp: Speeds, targets: seq<int>, a: seq<nat>, b: seq<nat>)
    ensures ShiftAll(us, sp, targets, a + b)
            == match ShiftAll(us, sp, targets, a) case None => None case Some(mid) => ShiftAll(mid, sp, targets, b)
    decreases |a|
  {
    hide ShiftTargets;
    if a == [] {
      assert a + b == b;
    } else {
      assert (a + b)[1..] == a[1..] + b;
      var next := ShiftTargets(us, sp, targets, a[0]);
      if next.Some? { ShiftsInTurn(next.value, sp, targets, a[1..], b); }
    }
  }

  lemma {:induction false} TargetsInTurn(us: seq<Unit>, sp: Speeds, a: seq<int>, b: seq<int>, slots: nat)
    ensures ShiftAll(us, sp, a + b, [slots])
            == match ShiftAll(us, sp, a, [slots]) case None => None case Some(mid) => ShiftAll(mid, sp, b, [slots])
    decreases |a|
  {
    hide SlotDelay, AfterDelay, ShiftTargets;
    OneShift(us, sp, a + b, slots);
    OneShift(us, sp, a, slots);
    TargetsChain(us, sp, a, b, slots);
    if ShiftTargets(us, sp, a, slots).Some? { OneShift(ShiftTargets(us, sp, a, slots).value, sp, b, slots); }
  }

  lemma {:induction false} OneShift(us: seq<Unit>, sp: Speeds, targets: seq<int>, slots: nat)
    ensures ShiftAll(us, sp, targets, [slots]) == ShiftTargets(us, sp, targets, slots)
  {
    hide ShiftTargets;
    assert [slots][1..] == [];
    if ShiftTargets(us, sp, targets, slots).Some? {
      assert ShiftAll(ShiftTargets(us, sp, targets, slots).value, sp, targets, []) == ShiftTargets(us, sp, targets, slots);
    }
  }

  lemma {:induction false} TargetsChain(us: seq<Unit>, sp: Speeds, a: seq<int>, b: seq<int>, slots: nat)
    ensures ShiftTargets(us, sp, a + b, slots)
            == match ShiftTargets(us, sp, a, slots) case None => None case Some(mid) => ShiftTargets(mid, sp, b, slots)
    decreases |a|
  {
    hide SlotDelay, AfterDelay;
    if a == [] {
      assert a + b == b;
    } else {
      assert (a + b)[1..] == a[1..] + b;
      var d := SlotDelay(Sorted(sp, us), a[0], slots);
      if d.Some? { TargetsChain(AfterDelay(sp, us, a[0], d.value), sp, a[1..], b, slots); }
    }
  }

  /** One shift of one target is the delay by slots, which SlotLanding describes. */
  lemma {:induction false} ShiftOne(us: seq<Unit>, sp: Speeds, target: int, slots: nat)
    ensures var d := SlotDelay(Sorted(sp, us), target, slots);
            ShiftAll(us, sp, [target], [slots]) == if d.None? then None else Some(AfterDelay(sp, us, target, d.value))
  {
    hide SlotDelay, AfterDelay, Sorted;
    OneShift(us, sp, [target], slots);
    assert [target][1..] == [];
  }

  /** Only targets that were hit and live on are shifted. */
  lemma {:induction false} ShiftsBeforeTurn(ms: seq<Member>, us: seq<Unit>, actor: int, kind: int, skill: Skill, shifts: seq<nat>,
                                            targets: seq<int>, rolls: seq<Roll>, tool: bool, offset: int)
    requires |targets| == |rolls| && BeforeTurn(ms, us, actor, kind, skill, shifts, targets, rolls, tool, offset).Ok?
    ensures var (f, left) := BeforeTurn(ms, us, actor, kind, skill, shifts, targets, rolls, tool, offset).value;
            var struck := StrikeAll(Front(ms, us, [], [], 0), SpeedTable(ms), targets, rolls, skill.effectType, kind, tool, offset);
            struck == Ok(f)
            && var shifted := ShiftAll(f.us, SpeedTable(ms), Movable(f.hits, f.ms), shifts);
               shifted.Some?
               && forall u :: multiset(left)[u] == if u.member in f.killed then 0 else multiset(shifted.value)[u]
  {
    hide StrikeAll, Movable, ShiftAll, Without;
    var sp := SpeedTable(ms);
    var (f, left) := BeforeTurn(ms, us, actor, kind, skill, shifts, targets, rolls, tool, offset).value;
    var shifted := ShiftAll(f.us, sp, Movable(f.hits, f.ms), shifts).value;
    SortedPermutes(sp, shifted);
    forall u ensures multiset(left)[u] == if u.member in f.killed then 0 else multiset(shifted)[u] {
      WithoutCount(Sorted(sp, shifted), f.killed, u);
    }
  }

  lemma {:induction false} ActorFound(ms: seq<Member>, us: seq<Unit>, actor: int, kind: int, skill: Skill, shifts: seq<nat>,
                                      targets: seq<int>, rolls: seq<Roll>, tool: bool, offset: int)
    requires |targets| == |rolls| && BeforeTurn(ms, us, actor, kind, skill, shifts, targets, rolls, tool, offset).Ok?
    ensures Find(ms, actor).Some?
  {
    hide StrikeAll, ShiftAll, Movable;
  }

  /**
   * When the actor of an accepted action comes back: from what delays and deaths have left of the queue, by the rule of its
   * side, at the waits that its speed and the skill make. A tool takes no turn.
   */
  lemma {:induction false} ActReturns(ms: seq<Member>, us: seq<Unit>, actor: int, kind: int, skill: Skill, shifts: seq<nat>,
                                      targets: seq<int>, rolls: seq<Roll>, tool: bool, offset: int)
    requires |targets| == |rolls| && Act(ms, us, actor, kind, skill, shifts, targets, rolls, tool, offset).Ok?
    ensures Find(ms, actor).Some?
    ensures var after := Act(ms, us, actor, kind, skill, shifts, targets, rolls, tool, offset).value.us;
            var before := BeforeTurn(ms, us, actor, kind, skill, shifts, targets, rolls, tool, offset);
            before.Ok?
            && if tool then after == before.value.1
               else
                 var s := Sorted(SpeedTable(ms), before.value.1);
                 var base := 57600 / Max(ms[Find(ms, actor).value].speed, 1);
                 s != [] && s[0].member == actor
                 && var later := Shift(s[1..], Max(s[0].wait, 0));
                    Has(later, actor)
                    && if kind == ENEMY then
                         CountedFromLeast(later + [Unit(actor, s[0].number, MaxWait(later, actor) + Max(base + skill.wait, 1))], after)
                       else
                         var k := LastOf(later, actor);
                         var moved := later[k := Unit(actor, later[k].number, Max(base + skill.wait, 1))];
                         Has(moved, actor)
                         && CountedFromLeast(moved + [Unit(actor, s[0].number, MinWait(moved, actor) + Max(base, 1))], after)
  {
    hide BeforeTurn, AfterTurn, Sorted, Owned, MaxWait, MinWait, LastOf, CountedFromLeast;
    ActorFound(ms, us, actor, kind, skill, shifts, targets, rolls, tool, offset);
    if !tool {
      var left := BeforeTurn(ms, us, actor, kind, skill, shifts, targets, rolls, tool, offset).value.1;
      var speed := ms[Find(ms, actor).value].speed;
      assert Max(ActionWait(speed, skill.wait), 1) == Max(57600 / Max(speed, 1) + skill.wait, 1);
      if kind == ENEMY { EnemyReturns(SpeedTable(ms), left, actor, ActionWait(speed, skill.wait), BaseWait(speed)); }
      else { AllyReturns(SpeedTable(ms), left, actor, ActionWait(speed, skill.wait), BaseWait(speed)); }
    }
  }

  // ----- what each target sees -----------------------------------------------------------------

  predicate Missed(effectType: int, roll: Roll, tool: bool) {
    effectType == DAMAGE && !tool && roll.miss
  }

  /** Damage lowers hit points, never below zero and never more than there were; breaking drains the gauge. */
  predicate Damaged(m: Member, n: Member, roll: Roll, tool: bool) {
    && m.hp - n.hp == Min(m.hp, Min(roll.damage, I32_MAX))
    && (n.alive <==> n.hp > 0)
    && n.enemy.Some? == m.enemy.Some?
    && (m.enemy.Some? ==>
          && Max(m.enemy.value.breakGauge, 0) - n.enemy.value.breakGauge
             == Min(Max(m.enemy.value.breakGauge, 0), if tool then 0 else roll.breakDamage)
          && (n.enemy.value.broken <==> m.enemy.value.broken || NewlyBroken(m, n)))
  }

  /** The gauge went from positive to zero. */
  predicate NewlyBroken(m: Member, n: Member) {
    m.enemy.Some? && n.enemy.Some? && m.enemy.value.breakGauge > 0 && n.enemy.value.breakGauge == 0
  }

  /** How a target and its reply row relate to the member before. */
  predicate HitReported(m: Member, n: Member, hit: Hit, roll: Roll, effectType: int, tool: bool) {
    && hit.target == m.id && (hit.missed <==> Missed(effectType, roll, tool))
    && (hit.killed <==> !n.alive) && (hit.newlyBroken <==> NewlyBroken(m, n))
    && hit.healed == (if effectType == HEAL then n.hp - m.hp else 0)
    && (if effectType == DAMAGE && !hit.missed then Damaged(m, n, roll, tool)
        else if effectType == HEAL then n == m.(hp := Min(m.hp + roll.heal, m.maxHp))
        else n == m)
  }

  lemma {:induction false} DamageReported(m: Member, roll: Roll, tool: bool)
    requires 0 < m.hp <= m.maxHp
    ensures var breakDamage := if tool then 0 else roll.breakDamage;
            var n := Struck(m, roll.damage, breakDamage);
            && Damaged(m, n, roll, tool) && (Breaks(m, breakDamage) <==> NewlyBroken(m, n)) && n.id == m.id && n.maxHp == m.maxHp
            && 0 <= n.hp <= n.maxHp && (n.alive <==> n.hp > 0)
  {
  }

  lemma {:induction false} StrikeReported(f: Front, sp: Speeds, roll: Roll, effectType: int, kind: int, tool: bool, offset: int, k: nat)
    requires k < |f.ms| && Find(f.ms, f.ms[k].id) == Some(k) && f.ms[k].alive && 0 < f.ms[k].hp <= f.ms[k].maxHp
    requires StrikeOne(f, sp, f.ms[k].id, roll, effectType, kind, tool, offset).Ok?
    ensures var g := StrikeOne(f, sp, f.ms[k].id, roll, effectType, kind, tool, offset).value;
            && |g.ms| == |f.ms| && (forall i | 0 <= i < |f.ms| && i != k :: g.ms[i] == f.ms[i]) && g.ms[k].id == f.ms[k].id
            && |g.hits| == |f.hits| + 1 && g.hits[..|f.hits|] == f.hits
            && HitReported(f.ms[k], g.ms[k], g.hits[|f.hits|], roll, effectType, tool)
            && 0 <= g.ms[k].hp <= g.ms[k].maxHp && (g.ms[k].alive <==> g.ms[k].hp > 0)
  {
    hide AfterDelay, Owned, Struck, Breaks, Damaged;
    DamageReported(f.ms[k], roll, tool);
  }

  /** Members outside the target list are untouched, and every target answers to its own roll. */
  lemma {:induction false} StrikesReported(f: Front, sp: Speeds, targets: seq<int>, rolls: seq<Roll>,
                                           effectType: int, kind: int, tool: bool, offset: int, k: nat)
    requires |targets| == |rolls| && Distinct(targets) && DistinctIds(f.ms) && Healthy(f.ms) && k < |f.ms|
    requires forall t | t in targets :: Living(f.ms, t)
    requires StrikeAll(f, sp, targets, rolls, effectType, kind, tool, offset).Ok?
    ensures var g := StrikeAll(f, sp, targets, rolls, effectType, kind, tool, offset).value;
            && |g.ms| == |f.ms| && |g.hits| == |f.hits| + |targets| && g.hits[..|f.hits|] == f.hits
            && (f.ms[k].id !in targets ==> g.ms[k] == f.ms[k])
            && forall i | 0 <= i < |targets| && targets[i] == f.ms[k].id ::
                 HitReported(f.ms[k], g.ms[k], g.hits[|f.hits| + i], rolls[i], effectType, tool)
    decreases |targets|
  {
    hide AfterDelay, Owned, HitReported, StrikeOne, Find;
    if targets != [] {
      var t := targets[0];
      assert Living(f.ms, t);
      var j :| 0 <= j < |f.ms| && f.ms[j].id == t && f.ms[j].alive;
      UniqueMember(f.ms, j, t);
      StrikeReported(f, sp, rolls[0], effectType, kind, tool, offset, j);
      var one := StrikeOne(f, sp, t, rolls[0], effectType, kind, tool, offset).value;
      StillReady(f, one, j, targets);
      StrikesReported(one, sp, targets[1..], rolls[1..], effectType, kind, tool, offset, k);
      var g := StrikeAll(f, sp, targets, rolls, effectType, kind, tool, offset).value;
      assert g == StrikeAll(one, sp, targets[1..], rolls[1..], effectType, kind, tool, offset).value;
      Prefixes(g.hits, one.hits, f.hits);
      if f.ms[k].id == t {
        assert j == k;
        assert one.ms[k].id !in targets[1..];
      } else {
        assert one.ms[k] == f.ms[k];
      }
      forall i | 0 <= i < |targets| && targets[i] == f.ms[k].id
        ensures HitReported(f.ms[k], g.ms[k], g.hits[|f.hits| + i], rolls[i], effectType, tool) {
        if i > 0 {
          assert targets[1..][i - 1] == targets[i] && rolls[1..][i - 1] == rolls[i];
          assert |one.hits| + (i - 1) == |f.hits| + i;
        }
      }
    }
  }

  lemma {:induction false} Prefixes(g: seq<Hit>, one: seq<Hit>, f: seq<Hit>)
    requires |g| >= |one| == |f| + 1 && g[..|one|] == one && one[..|f|] == f
    ensures g[..|f|] == f && g[|f|] == one[|f|]
  {
    assert g[..|f|] == g[..|one|][..|f|];
    assert g[|f|] == g[..|one|][|f|];
  }

  lemma {:induction false} StillReady(f: Front, one: Front, j: nat, targets: seq<int>)
    requires Distinct(targets) && targets != [] && DistinctIds(f.ms) && j < |f.ms| == |one.ms| && f.ms[j].id == targets[0]
    requires one.ms[j].id == f.ms[j].id && forall i | 0 <= i < |f.ms| && i != j :: one.ms[i] == f.ms[i]
    requires Healthy(f.ms) && 0 <= one.ms[j].hp <= one.ms[j].maxHp && (one.ms[j].alive <==> one.ms[j].hp > 0)
    requires forall t | t in targets :: Living(f.ms, t)
    ensures DistinctIds(one.ms) && Healthy(one.ms) && forall t | t in targets[1..] :: Living(one.ms, t)
  {
    forall t | t in targets[1..] ensures Living(one.ms, t) {
      assert t in targets && t != targets[0] && Living(f.ms, t);
      var i :| 0 <= i < |f.ms| && f.ms[i].id == t && f.ms[i].alive;
      assert one.ms[i].id == t && one.ms[i].alive;
    }
  }

  /**
   * Hit points are conserved: the reported total of a damaging action is what the members lost together, other
   * actions report nothing; hit points stay within bounds, members live exactly while they have some, and every row
   * of the reply tells the truth about its target.
   */
  lemma {:induction false} ActionConservesHp(ms: seq<Member>, us: seq<Unit>, actor: int, kind: int, skill: Skill,
                                             shifts: seq<nat>, targets: seq<int>, rolls: seq<Roll>, tool: bool, offset: int)
    requires |targets| == |rolls| && Ready(ms, us, targets)
    requires Act(ms, us, actor, kind, skill, shifts, targets, rolls, tool, offset).Ok?
    ensures var o := Act(ms, us, actor, kind, skill, shifts, targets, rolls, tool, offset).value;
            && o.total == (if skill.effectType == DAMAGE then HpSum(ms) - HpSum(o.ms) else 0)
            && Healthy(o.ms) && SameBodies(ms, o.ms) && |o.hits| == |targets|
            && forall k | 0 <= k < |ms| ::
                 && (ms[k].id !in targets ==> o.ms[k] == ms[k])
                 && forall i | 0 <= i < |targets| && targets[i] == ms[k].id ::
                      HitReported(ms[k], o.ms[k], o.hits[i], rolls[i], skill.effectType, tool)
  {
    hide Act, Manned, StrikeAll, HitReported, HpSum;
    var start := Front(ms, us, [], [], 0);
    StartConsistent(ms, us, skill.effectType);
    MannedDistinct(ms, us);
    StrikesKeep(ms, start, targets, rolls, skill.effectType, kind, tool, offset, actor);
    ActionFront(ms, us, actor, kind, skill, shifts, targets, rolls, tool, offset);
    var o := Act(ms, us, actor, kind, skill, shifts, targets, rolls, tool, offset).value;
    HitTargets(start, SpeedTable(ms), targets, rolls, skill.effectType, kind, tool, offset);
    forall k | 0 <= k < |ms|
      ensures (ms[k].id !in targets ==> o.ms[k] == ms[k])
              && forall i | 0 <= i < |targets| && targets[i] == ms[k].id ::
                   HitReported(ms[k], o.ms[k], o.hits[i], rolls[i], skill.effectType, tool) {
      StrikesReported(start, SpeedTable(ms), targets, rolls, skill.effectType, kind, tool, offset, k);
      assert |start.hits| == 0;
    }
  }

  /** Members, rows and damage of an accepted action are those of the loop over its targets. */
  lemma {:induction false} ActionFront(ms: seq<Member>, us: seq<Unit>, actor: int, kind: int, skill: Skill,
                                       shifts: seq<nat>, targets: seq<int>, rolls: seq<Roll>, tool: bool, offset: int)
    requires |targets| == |rolls|
    requires Act(ms, us, actor, kind, skill, shifts, targets, rolls, tool, offset).Ok?
    ensures var o := Act(ms, us, actor, kind, skill, shifts, targets, rolls, tool, offset).value;
            var f := StrikeAll(Front(ms, us, [], [], 0), SpeedTable(ms), targets, rolls, skill.effectType, kind, tool, offset);
            f.Ok? && o.ms == f.value.ms && o.hits == f.value.hits && o.total == f.value.total
  {
    hide Sorted, StrikeAll, ShiftAll, Movable, AfterTurn, Without;
  }
}
