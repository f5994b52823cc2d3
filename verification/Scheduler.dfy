/** The battle reducer: player commands, enemy turns, upkeep and waves until an ally must act. */
module Scheduler {
  import opened Prelude
  import opened Counting
  import opened BattleModel
  import opened Timeline
  import opened TurnQueue
  import opened Roster
  import opened Panels
  import opened Opening
  import opened Attack
  import opened Starvation
  import opened Fairness
  import opened Deeds
  import opened Commands
  import opened Front

  const MAX_ACTIONS := 10000

  // ----- waiting for a command ------------------------------------------------------------------

  /**
   * How the loop comes to wait for an ally: it was in front of `picked`, its upkeep neither killed nor disabled it, and
   * then the runtime rewrote the members once more.
   */
  ghost predicate Awaits(fate: Fate, n: nat, picked: seq<Member>, us: seq<Unit>, ms: seq<Member>) {
    exists k | 0 <= k < |picked| :: AwaitsAt(fate, n, picked, us, ms, k)
  }

  ghost predicate AwaitsAt(fate: Fate, n: nat, picked: seq<Member>, us: seq<Unit>, ms: seq<Member>, k: nat)
    requires k < |picked|
  {
    var u := fate.upkeep(n, picked[k]);
    && InFront(picked, us, k) && picked[k].kind == ALLY && !u.disabled && u.hp != 0
    && ms == fate.settle(Upkept(n), picked[k := picked[k].(hp := u.hp, alive := true)])
  }

  lemma {:induction false} UpkeepAwaits(fate: Fate, n: nat, picked: seq<Member>, us: seq<Unit>, kept: seq<Member>, k: nat)
    requires InFront(picked, us, k) && picked[k].kind == ALLY
    requires BattleState.Prepared(fate.upkeep(n, picked[k]), k, picked, us, kept, us, false)
    ensures AwaitsAt(fate, n, picked, us, fate.settle(Upkept(n), kept), k)
  {
    hide InFront;
  }

  /** In a steady battle the ally that the loop waits for is the one the next request finds. */
  lemma {:induction false} SteadyAwaits(fate: Fate, n: nat, picked: seq<Member>, us: seq<Unit>, ms: seq<Member>)
    requires Tame(fate) && Steady(fate) && Fit(picked, us) && BattleStatus(picked) == Some(InBattle) && Awaits(fate, n, picked, us, ms)
    ensures AllyFront(ms, us)
  {
    hide Manned, Sorted, Sides, EarliestLiving, BattleStatus;
    var k :| 0 <= k < |picked| && AwaitsAt(fate, n, picked, us, ms, k);
    var m := picked[k].(hp := fate.upkeep(n, picked[k]).hp, alive := true);
    var kept := picked[k := m];
    HealthyUpdate(picked, k, m);
    assert SameLives(picked, kept);
    LivesKeepRoster(picked, kept, us);
    LivesKeepRoster(kept, ms, us);
    assert SameBodies(picked, kept);
    SpeedsOfBodies(picked, kept);
    assert ms[k].id == picked[k].id && ms[k].kind == ALLY;
    FrontIsFound(ms, us, k);
  }

  lemma {:induction false} HealthyUpdate(ms: seq<Member>, k: nat, m: Member)
    requires k < |ms| && Healthy(ms) && m.maxHp == ms[k].maxHp && 0 <= m.hp <= m.maxHp && (m.alive <==> m.hp > 0)
    ensures Healthy(ms[k := m])
  {
  }

  /** A runtime whose only effect makes the second member the faster one whenever an upkeep is over. */
  function Quickening(): Fate {
    Fate((n: nat, m: Member) => Upkeep(m.hp, false), (n: nat) => Choice(Skill(SUPPORT, 3, 0, []), None),
         (n: nat, t: int) => Roll(true, 0, 0, 0),
         (stage: Stage, ms: seq<Member>) => if stage.Upkept? && |ms| == 2 then [ms[0], ms[1].(speed := ms[0].speed + 1)] else ms)
  }

  /**
   * The battle can lock. The loop waits for ally 1, which is the faster of two with a unit due now; the runtime then makes
   * enemy 11 faster. From there on every request finds the enemy in front, and by the contract of Attack is refused.
   */
  lemma {:induction false} SpeedChangeCanLock(ally: Member, foe: Member, n: nat)
    requires ally.id == 1 && ally.kind == ALLY && ally.enemy.None? && ally.alive && 0 < ally.hp <= ally.maxHp
    requires foe.id == 11 && foe.kind == ENEMY && foe.enemy.Some? && foe.alive && 0 < foe.hp <= foe.maxHp
    requires ally.speed > foe.speed
    ensures var us := [Unit(1, 1, 0), Unit(11, 1, 0), Unit(1, 2, 5), Unit(11, 2, 5)];
            var late := [ally, foe.(speed := ally.speed + 1)];
            && Tame(Quickening()) && Fit([ally, foe], us) && AllyFront([ally, foe], us)
            && Awaits(Quickening(), n, [ally, foe], us, late)
            && Fit(late, us) && BattleStatus(late) == Some(InBattle)
            && forall turn :: !AllyFront(Quickening().settle(Request(turn), late), us)
  {
    hide EarliestLiving, Sorted, InFront, Fit, BattleStatus, Healthy;
    var us := [Unit(1, 1, 0), Unit(11, 1, 0), Unit(1, 2, 5), Unit(11, 2, 5)];
    var ms, late := [ally, foe], [ally, foe.(speed := ally.speed + 1)];
    PairFit(ms, us);
    PairFit(late, us);
    PairFront(ms, us, 0);
    PairFront(late, us, 1);
    QuickeningTame();
    Overhauled(Quickening(), n, ms, late, us);
  }

  lemma {:induction false} QuickeningTame()
    ensures Tame(Quickening())
  {
    forall stage: Stage, ms: seq<Member> | Healthy(ms)
      ensures SameLives(ms, Quickening().settle(stage, ms)) && Healthy(Quickening().settle(stage, ms)) {
    }
  }

  /** An ally picked while it was in front, and an enemy in front of what the runtime made of the members. */
  lemma {:induction false} Overhauled(fate: Fate, n: nat, ms: seq<Member>, late: seq<Member>, us: seq<Unit>)
    requires |ms| == |late| == 2 && Fit(ms, us) && Fit(late, us)
    requires InFront(ms, us, 0) && ms[0].kind == ALLY && ms[0].alive && BattleStatus(ms) == Some(InBattle)
    requires InFront(late, us, 1) && late[1].kind == ENEMY
    requires fate.upkeep(n, ms[0]) == Upkeep(ms[0].hp, false) && ms[0].hp != 0 && fate.settle(Upkept(n), ms) == late
    ensures AllyFront(ms, us) && Awaits(fate, n, ms, us, late) && !AllyFront(late, us)
  {
    hide EarliestLiving, Sorted, InFront, Fit, BattleStatus;
    FitParts(ms, us);
    FitParts(late, us);
    FrontIsFound(ms, us, 0);
    FrontIsFound(late, us, 1);
    assert ms[0 := ms[0].(hp := ms[0].hp, alive := true)] == ms;
    assert AwaitsAt(fate, n, ms, us, late, 0);
  }

  lemma {:induction false} FitParts(ms: seq<Member>, us: seq<Unit>)
    requires Fit(ms, us)
    ensures Manned(ms, us) && Healthy(ms) && Sides(ms)
  {
  }

  lemma {:induction false} PairFit(ms: seq<Member>, us: seq<Unit>)
    requires |ms| == 2 && ms[0].id == 1 && ms[0].kind == ALLY && ms[0].enemy.None? && ms[0].alive && 0 < ms[0].hp <= ms[0].maxHp
    requires ms[1].id == 11 && ms[1].kind == ENEMY && ms[1].enemy.Some? && ms[1].alive && 0 < ms[1].hp <= ms[1].maxHp
    requires us == [Unit(1, 1, 0), Unit(11, 1, 0), Unit(1, 2, 5), Unit(11, 2, 5)]
    ensures Fit(ms, us) && BattleStatus(ms) == Some(InBattle)
  {
    hide Manned;
    PairManned(ms, us);
    assert SomeAlive(ms, ALLY) && SomeAlive(ms, ENEMY);
  }

  /** Of two members with a unit due now, the faster one is in front. */
  lemma {:induction false} PairFront(ms: seq<Member>, us: seq<Unit>, k: nat)
    requires |ms| == 2 && ms[0].id == 1 && ms[1].id == 11 && ms[0].alive && ms[1].alive && k < 2
    requires us == [Unit(1, 1, 0), Unit(11, 1, 0), Unit(1, 2, 5), Unit(11, 2, 5)] && ms[k].speed > ms[1 - k].speed
    ensures InFront(ms, us, k)
  {
    hide Sorted;
    TableSpeed(ms, 0);
    TableSpeed(ms, 1);
    assert us[k] in us && us[k].member == ms[k].id;
    HeadsIsHead(SpeedTable(ms), us, ms[k].id);
  }

  // ----- how long an ally waits ----------------------------------------------------------------

  predicate IsAlly(ms: seq<Member>, b: int) {
    exists i | 0 <= i < |ms| :: ms[i].id == b && ms[i].kind == ALLY
  }

  /** No enemy skill shifts the queue of the other side, and no upkeep disables `b`. */
  ghost predicate Untouched(fate: Fate, b: int) {
    && (forall n: nat :: fate.choice(n).skill.slots == [] || fate.choice(n).skill.targetType in {1, 2, 4})
    && (forall n: nat, m: Member {:trigger fate.upkeep(n, m)} :: m.id == b ==> !fate.upkeep(n, m).disabled)
  }

  /** A turn has brought `b` closer, unless it was not left alone or did not live through it. */
  ghost predicate Brings(fate: Fate, b: int, before: seq<Member>, us0: seq<Unit>, after: seq<Member>, us: seq<Unit>) {
    Untouched(fate, b) && IsAlly(before, b) && Living(after, b) ==> Closer(us0, us, b)
  }

  lemma {:induction false} AllyUnbreakable(ms: seq<Member>, b: int)
    requires DistinctIds(ms) && Sides(ms) && IsAlly(ms, b)
    ensures Unbreakable(ms, b) && forall i | 0 <= i < |ms| && ms[i].id == b :: ms[i].kind == ALLY
  {
    var i :| 0 <= i < |ms| && ms[i].id == b && ms[i].kind == ALLY;
    forall j | 0 <= j < |ms| && ms[j].id == b ensures j == i { }
  }

  /** A lost turn brings every ally closer that is not the one who loses it. */
  lemma {:induction false} LostTurnBrings(fate: Fate, n: nat, k: nat, ms0: seq<Member>, us0: seq<Unit>, ms: seq<Member>,
                                          us: seq<Unit>, b: int)
    requires Fit(ms0, us0) && InFront(ms0, us0, k) && SpeedTable(ms) == SpeedTable(ms0)
    requires BattleState.Prepared(fate.upkeep(n, ms0[k]), k, ms0, us0, ms, us, true)
    ensures Brings(fate, b, ms0, us0, ms, us)
  {
    hide Manned, Sorted, Healthy, Sides, AfterTurn, Without, Budget, Has, Living, TurnAllowed;
    if Untouched(fate, b) && IsAlly(ms0, b) && Living(ms, b) {
      MannedDistinct(ms0, us0);
      LivingAfterUpdate(ms0, k, ms[k]);
      assert ms == ms0[k := ms[k]];
      MannedTimes(ms0, us0);
      var u := fate.upkeep(n, ms0[k]);
      if b != ms[k].id {
        assert Living(ms0, b);
        if u.hp == 0 {
          DeathSpends(SpeedTable(ms), us0, [ms[k].id], b);
        } else {
          var w := BaseWait(ms[k].speed);
          TurnSpends(SpeedTable(ms), us0, ms[k].id, w, w, ms[k].kind == ENEMY, b);
        }
      }
    }
  }

  lemma {:induction false} BringsSame(fate: Fate, b: int, before: seq<Member>, ms0: seq<Member>, us0: seq<Unit>,
                                      ms1: seq<Member>, after: seq<Member>, us: seq<Unit>)
    requires SameCast(before, ms0) && Brings(fate, b, ms0, us0, ms1, us) && (Living(after, b) ==> Living(ms1, b))
    ensures Brings(fate, b, before, us0, after, us)
  {
    hide Untouched, Closer, Living;
    if IsAlly(before, b) {
      var i :| 0 <= i < |before| && before[i].id == b && before[i].kind == ALLY;
      assert ms0[i].id == b && ms0[i].kind == ALLY;
    }
  }

  /** A deed of an enemy brings every surviving ally closer. */
  lemma {:induction false} DeedBrings(fate: Fate, n: nat, ms: seq<Member>, us: seq<Unit>, k: nat, skill: Skill, target: int,
                                      offset: int, b: int)
    requires Fit(ms, us) && Tame(fate) && k < |ms| && ms[k].kind == ENEMY
    requires skill.slots == [] || skill.targetType in {1, 2, 4}
    requires Deed(fate, n, ms, us, k, skill, target, false, offset).Ok?
    ensures var o := Deed(fate, n, ms, us, k, skill, target, false, offset).value;
            IsAlly(ms, b) && Living(o.ms, b) ==> Closer(us, o.us, b)
  {
    hide Manned, Act, Healthy, HpSum, SelectTargets, Living, Closer, Has, Sides;
    var o := Deed(fate, n, ms, us, k, skill, target, false, offset).value;
    if IsAlly(ms, b) && Living(o.ms, b) {
      var ts := SelectTargets(ms, us, ms[k].kind, target, skill.targetType).value;
      var ready := fate.settle(BeforeDeed(n), ms);
      Targeted(fate, n, ms, us, k, skill, target, ts);
      MannedDistinct(ms, us);
      TargetsSpareActor(ms, us, k, target, skill, ts);
      AllyUnbreakable(ms, b);
      assert Unbreakable(ready, b);
      DeedKeeps(fate, n, ms, us, k, skill, target, false, offset);
      MannedTimes(ms, us);
      var act := Act(ready, us, ms[k].id, ms[k].kind, skill, skill.slots, ts, Rolls(fate, n, ts), false, offset).value;
      ActionKeepsRoster(ready, us, ms[k].id, ms[k].kind, skill, skill.slots, ts, Rolls(fate, n, ts), false, offset);
      LivesKeepRoster(act.ms, o.ms, o.us);
      ActSpends(ready, us, ms[k].id, ms[k].kind, skill, skill.slots, ts, Rolls(fate, n, ts), offset, b);
    }
  }

  /** The same for a whole turn: what the deed's enemy started from is what upkeep left. */
  lemma {:induction false} EnemyBrings(fate: Fate, n: nat, before: seq<Member>, ms: seq<Member>, us: seq<Unit>, k: nat,
                                       skill: Skill, target: int, offset: int, b: int)
    requires Fit(ms, us) && Tame(fate) && k < |ms| && ms[k].kind == ENEMY && skill == fate.choice(n).skill && SameCast(before, ms)
    requires Deed(fate, n, ms, us, k, skill, target, false, offset).Ok?
    ensures var o := Deed(fate, n, ms, us, k, skill, target, false, offset).value;
            Brings(fate, b, before, us, o.ms, o.us)
  {
    hide Fit, Living, Closer, Deed, IsAlly;
    var o := Deed(fate, n, ms, us, k, skill, target, false, offset).value;
    if Untouched(fate, b) {
      DeedBrings(fate, n, ms, us, k, skill, target, offset, b);
      BringsSame(fate, b, before, ms, us, o.ms, o.ms, o.us);
    }
  }

  /** In a steady battle an enemy is overtaken only by a skill that it aims at itself. */
  lemma {:induction false} SteadyEnemy(fate: Fate, n: nat, ms: seq<Member>, us: seq<Unit>, k: nat, skill: Skill, target: int, offset: int)
    requires Fit(ms, us) && Tame(fate) && Steady(fate) && InFront(ms, us, k) && (skill.targetType !in {1, 2, 3, 4} ==> target != ms[k].id)
    ensures Overtaken(fate, n, ms, us, k, skill, target, offset) ==> SelfAimed(skill)
  {
    hide Fit, Overtaken, Heads, Sorted;
    HeadsIsHead(SpeedTable(ms), us, ms[k].id);
    if Overtaken(fate, n, ms, us, k, skill, target, offset) {
      SteadyDeed(fate, n, ms, us, k, skill, target, offset);
    }
  }

  /** After `n` turns of a wave, `b` is still waiting and at least `n` turns closer than at the beginning. */
  ghost predicate Waiting(fate: Fate, b: int, ms0: seq<Member>, us0: seq<Unit>, ms: seq<Member>, us: seq<Unit>, n: int) {
    && SameCast(ms0, ms) && (Living(ms, b) ==> Living(ms0, b))
    && (Untouched(fate, b) && IsAlly(ms0, b) && Living(ms, b) ==> Has(us0, b) && Has(us, b) && n + Budget(us, b) <= Budget(us0, b))
  }

  lemma {:induction false} Starts(fate: Fate, ms: seq<Member>, us: seq<Unit>, b: int)
    requires Fit(ms, us)
    ensures Waiting(fate, b, ms, us, ms, us, 0)
  {
    hide Manned, Living, Budget, Has, IsAlly, Untouched;
    MannedTimes(ms, us);
  }

  lemma {:induction false} StillWaiting(fate: Fate, b: int, ms0: seq<Member>, us0: seq<Unit>, before: seq<Member>, queued: seq<Unit>,
                                        ms: seq<Member>, us: seq<Unit>, n: int, turn: bool)
    requires Waiting(fate, b, ms0, us0, before, queued, n) && SameCast(before, ms) && (Living(ms, b) ==> Living(before, b))
    requires if turn then Brings(fate, b, before, queued, ms, us) else us == queued
    ensures Waiting(fate, b, ms0, us0, ms, us, if turn then n + 1 else n)
  {
    hide Living, Budget, Has, Untouched;
    CastTransitive(ms0, before, ms);
    if IsAlly(ms0, b) {
      var i :| 0 <= i < |ms0| && ms0[i].id == b && ms0[i].kind == ALLY;
      assert before[i].id == b && before[i].kind == ALLY;
    }
  }

  lemma {:induction false} Patient(fate: Fate, b: int, ms0: seq<Member>, us0: seq<Unit>, ms: seq<Member>, us: seq<Unit>, n: int)
    requires Fit(ms0, us0) && Waiting(fate, b, ms0, us0, ms, us, n)
    ensures Untouched(fate, b) && IsAlly(ms0, b) && Living(ms, b) ==> Has(us0, b) && n <= Patience(ms0, us0, b)
  {
    hide Manned, Living, Budget, Has, IsAlly, Untouched, Patience;
    if Living(ms, b) { BudgetWithinPatience(ms0, us0, b); }
  }

  // ----- waiting from wave to wave -------------------------------------------------------------

  /** The part of a request that falls into one wave: where it began, its turns, and the members at its end. */
  datatype Stretch = Stretch(ms: seq<Member>, us: seq<Unit>, turns: nat, fin: seq<Member>)

  function TurnsOf(ss: seq<Stretch>): nat {
    if ss == [] then 0 else TurnsOf(ss[..|ss| - 1]) + ss[|ss| - 1].turns
  }

  /** The wave `n` is entered by the allies that ended the one before, with a queue of its own. */
  predicate Opens(fate: Fate, n: nat, w: Wave, fin: seq<Member>, s: Stretch) {
    var raw := BattleState.Allies(fin) + w.enemies;
    FastestAlly(raw).Some? && s.ms == fate.settle(Entered(n), raw)
    && s.us == Sorted(SpeedTable(raw), AllPlacements(raw, w.strong, FastestAlly(raw).value))
  }

  /** Stretches from wave `from` on, without a gap. */
  predicate Course(fate: Fate, waves: seq<Wave>, from: nat, ss: seq<Stretch>) {
    && ss != [] && from >= 1 && from + |ss| - 1 <= |waves|
    && forall j | 1 <= j < |ss| :: Opens(fate, from + j, waves[from + j - 1], ss[j - 1].fin, ss[j])
  }

  /** In each stretch `b` was queued, and the turns of the others were within its patience. */
  ghost predicate Patiently(ss: seq<Stretch>, b: int) {
    forall j | 0 <= j < |ss| :: Has(ss[j].us, b) && ss[j].turns <= Patience(ss[j].ms, ss[j].us, b)
  }

  /** The stretches that are over and the one that began with `s`. */
  predicate Logged(fate: Fate, waves: seq<Wave>, from: nat, first: Stretch, done: seq<Stretch>, s: Stretch) {
    var ss := done + [s];
    Course(fate, waves, from, ss) && ss[0].ms == first.ms && ss[0].us == first.us
  }

  lemma {:induction false} LogEnds(fate: Fate, waves: seq<Wave>, from: nat, first: Stretch, done: seq<Stretch>, s: Stretch, t: Stretch)
    requires Logged(fate, waves, from, first, done, s) && t.ms == s.ms && t.us == s.us
    ensures Logged(fate, waves, from, first, done, t) && TurnsOf(done + [t]) == TurnsOf(done) + t.turns
  {
    assert (done + [t])[..|done|] == done;
    forall j | 1 <= j < |done + [t]| ensures Opens(fate, from + j, waves[from + j - 1], (done + [t])[j - 1].fin, (done + [t])[j]) {
      assert Opens(fate, from + j, waves[from + j - 1], (done + [s])[j - 1].fin, (done + [s])[j]);
    }
  }

  lemma {:induction false} LogGoesOn(fate: Fate, waves: seq<Wave>, from: nat, first: Stretch, done: seq<Stretch>, t: Stretch, next: Stretch)
    requires Logged(fate, waves, from, first, done, t) && from + |done| < |waves|
    requires Opens(fate, from + |done| + 1, waves[from + |done|], t.fin, next)
    ensures Logged(fate, waves, from, first, done + [t], next)
  {
    hide Opens;
    var ss := done + [t];
    forall j | 1 <= j < |ss + [next]| ensures Opens(fate, from + j, waves[from + j - 1], (ss + [next])[j - 1].fin, (ss + [next])[j]) {
      if j < |ss| { assert Opens(fate, from + j, waves[from + j - 1], ss[j - 1].fin, ss[j]); }
    }
  }

  /** `b` belongs to the members of this wave if to the first, and has waited within its patience so far. */
  ghost predicate Waited(fate: Fate, b: int, first: seq<Member>, done: seq<Stretch>, ms0: seq<Member>, ms: seq<Member>) {
    && (IsAlly(first, b) ==> IsAlly(ms0, b))
    && (Untouched(fate, b) && IsAlly(first, b) && Living(ms, b) ==> Patiently(done, b))
  }

  lemma {:induction false} WaitedOn(fate: Fate, b: int, first: seq<Member>, done: seq<Stretch>, ms0: seq<Member>, us0: seq<Unit>,
                                    ms: seq<Member>, us: seq<Unit>, n: nat)
    requires Fit(ms0, us0) && Waited(fate, b, first, done, ms0, ms) && Waiting(fate, b, ms0, us0, ms, us, n)
    ensures Waited(fate, b, first, done + [Stretch(ms0, us0, n, ms)], ms, ms)
  {
    hide Fit, Living, IsAlly, Untouched, Patience, Has, Waiting;
    StillAlly(fate, b, ms0, us0, ms, us, n);
    Patient(fate, b, ms0, us0, ms, us, n);
    var ss := done + [Stretch(ms0, us0, n, ms)];
    if Untouched(fate, b) && IsAlly(first, b) && Living(ms, b) {
      forall j | 0 <= j < |ss| ensures Has(ss[j].us, b) && ss[j].turns <= Patience(ss[j].ms, ss[j].us, b) {
        if j < |done| { assert ss[j] == done[j]; }
      }
    }
  }

  lemma {:induction false} StillAlly(fate: Fate, b: int, ms0: seq<Member>, us0: seq<Unit>, ms: seq<Member>, us: seq<Unit>, n: nat)
    requires Waiting(fate, b, ms0, us0, ms, us, n)
    ensures IsAlly(ms0, b) ==> IsAlly(ms, b)
  {
    hide Living, Budget, Has, Untouched;
    if IsAlly(ms0, b) {
      var i :| 0 <= i < |ms0| && ms0[i].id == b && ms0[i].kind == ALLY;
      assert ms[i].id == b && ms[i].kind == ALLY;
    }
  }

  /** The allies go from wave to wave. */
  lemma {:induction false} AllyEnters(fate: Fate, n: nat, fin: seq<Member>, us: seq<Unit>, w: Wave, b: int)
    requires Tame(fate) && WaveSound(w) && Fit(fin, us) && BattleStatus(fin) == Some(Won)
    ensures var ms := fate.settle(Entered(n), BattleState.Allies(fin) + w.enemies);
            IsAlly(fin, b) ==> IsAlly(ms, b) && (Living(ms, b) ==> Living(fin, b))
  {
    hide WaveSound, Manned, Healthy;
    var allies := BattleState.Allies(fin);
    var raw := allies + w.enemies;
    MannedDistinct(fin, us);
    BattleState.NextMembers(fin, w);
    var ms := fate.settle(Entered(n), raw);
    assert SameLives(raw, ms);
    if IsAlly(fin, b) {
      var a := AllyStays(fin, b);
      assert raw[a].id == b && ms[a].id == b;
      if Living(ms, b) {
        var i :| 0 <= i < |ms| && ms[i].id == b && ms[i].alive;
        assert raw[i].id == raw[a].id;
        assert allies[a] in fin;
      }
    }
  }

  lemma {:induction false} AllyStays(ms: seq<Member>, b: int) returns (a: nat)
    requires IsAlly(ms, b)
    ensures a < |BattleState.Allies(ms)| && BattleState.Allies(ms)[a].id == b
  {
    var i :| 0 <= i < |ms| && ms[i].id == b && ms[i].kind == ALLY;
    if i == 0 {
      a := 0;
    } else {
      assert ms[1..][i - 1] == ms[i];
      a := AllyStays(ms[1..], b);
      if ms[0].kind == ALLY { a := a + 1; }
    }
  }

  /** The loop takes over where the command of the member in front has left the battle. */
  ghost predicate Answers(fate: Fate, n: nat, ms: seq<Member>, us: seq<Unit>, cmd: Command, offset: int, s: Stretch)
    requires Fit(ms, us) && Tame(fate)
  {
    exists k: nat | k < |ms| :: InFront(ms, us, k) && Commanded(fate, n, ms, us, k, cmd, offset) == Ok((s.ms, s.us))
  }

  // ----- the state -----------------------------------------------------------------------------

  class BattleState {
    var members: seq<Member>
    var units: seq<Unit>
    var panels: seq<Panel>
    var wave: nat
    var totalTurn: int
    var actionNumber: int
    const waves: seq<Wave>
    const panelCount: int
    const breakOffset: int
    /** Panels used up since the battle began. */
    ghost var panelsUsed: nat

    constructor (members: seq<Member>, units: seq<Unit>, panels: seq<Panel>, waves: seq<Wave>, panelCount: int, breakOffset: int)
      ensures this.members == members && this.units == units && this.panels == panels && this.waves == waves
      ensures this.panelCount == panelCount && this.breakOffset == breakOffset
      ensures wave == 1 && totalTurn == 1 && actionNumber == 1 && panelsUsed == 0
    {
      this.members, this.units, this.panels, this.waves := members, units, panels, waves;
      this.panelCount, this.breakOffset := panelCount, breakOffset;
      wave, totalTurn, actionNumber, panelsUsed := 1, 1, 1, 0;
    }

    /** apply_attack_results: the working copies are stored back only when nothing refused. */
    method ApplyAttackResults(actor: int, kind: int, skill: Skill, shifts: seq<nat>, targets: seq<int>, rolls: seq<Roll>,
                              tool: bool)
      returns (r: Result<(seq<Hit>, int), AttackError>)
      requires |targets| == |rolls|
      modifies this`members, this`units
      ensures var act := Act(old(members), old(units), actor, kind, skill, shifts, targets, rolls, tool, breakOffset);
              if act.Ok? then r == Ok((act.value.hits, act.value.total)) && members == act.value.ms && units == act.value.us
              else r == Err(act.error) && members == old(members) && units == old(units)
    {
      hide Sorted, Owned, AfterTurn, Movable;
      var sp := SpeedTable(members);
      var index := Find(members, actor);
      if index.None? { return Err(UnknownActor); }
      var queue := new Queue(units);
      var ms, hits, killed, total, e := StrikeEach(queue, sp, members, kind, skill.effectType, targets, rolls, tool);
      if e.Some? { return Err(e.value); }
      var ok := ShiftEach(queue, sp, Movable(hits, ms), shifts);
      if !ok { return Err(SlotsRefused); }
      if killed != [] {
        ghost var before := queue.units;
        var gone := queue.RemoveMembers(sp, killed);
        UnremovedLength(sp, before, killed);
        if gone.None? { return Err(RemovalRefused); }
      }
      if !tool {
        var speed := members[index.value].speed;
        var move := queue.ConsumeTurn(sp, actor, ActionWait(speed, skill.wait), BaseWait(speed), kind == ENEMY);
        if move.None? { return Err(TurnRefused); }
      }
      members, units := ms, queue.units;
      r := Ok((hits, total));
    }

    static lemma {:induction false} UnremovedLength(sp: Speeds, us: seq<Unit>, ids: seq<int>)
      ensures |Without(Sorted(sp, us), ids)| == |us| <==> Without(Sorted(sp, us), ids) == Sorted(sp, us)
    {
      Queue.WithoutLength(Sorted(sp, us), ids);
    }

    /** The loop over the targets. */
    method StrikeEach(queue: Queue, sp: Speeds, start: seq<Member>, kind: int, effectType: int,
                      targets: seq<int>, rolls: seq<Roll>, tool: bool)
      returns (ms: seq<Member>, hits: seq<Hit>, killed: seq<int>, total: int, e: Option<AttackError>)
      requires |targets| == |rolls|
      modifies queue
      ensures StrikeAll(Front(start, old(queue.units), [], [], 0), sp, targets, rolls, effectType, kind, tool, breakOffset)
              == if e.Some? then Err(e.value) else Ok(Front(ms, queue.units, hits, killed, total))
    {
      hide StrikeOne;
      ms, hits, killed, total, e := start, [], [], 0, None;
      var i := 0;
      while i < |targets|
        invariant 0 <= i <= |targets| && e.None?
        invariant StrikeAll(Front(start, old(queue.units), [], [], 0), sp, targets, rolls, effectType, kind, tool, breakOffset)
                  == StrikeAll(Front(ms, queue.units, hits, killed, total), sp, targets[i..], rolls[i..], effectType, kind, tool, breakOffset)
      {
        assert targets[i..][1..] == targets[i + 1..] && rolls[i..][1..] == rolls[i + 1..];
        ms, hits, killed, total, e := StrikeNext(queue, sp, ms, hits, killed, total, kind, effectType, targets[i], rolls[i], tool);
        if e.Some? { return; }
        i := i + 1;
      }
    }

    /** One turn of that loop. */
    method StrikeNext(queue: Queue, sp: Speeds, ms0: seq<Member>, hits0: seq<Hit>, killed0: seq<int>, total0: int,
                      kind: int, effectType: int, target: int, roll: Roll, tool: bool)
      returns (ms: seq<Member>, hits: seq<Hit>, killed: seq<int>, total: int, e: Option<AttackError>)
      modifies queue
      ensures StrikeOne(Front(ms0, old(queue.units), hits0, killed0, total0), sp, target, roll, effectType, kind, tool, breakOffset)
              == if e.Some? then Err(e.value) else Ok(Front(ms, queue.units, hits, killed, total))
    {
      hide AfterDelay, Sorted, Owned, Find;
      ms, hits, killed, total, e := ms0, hits0, killed0, total0, None;
      var at := Find(ms, target);
      if at.None? { e := Some(UnknownTarget); return; }
      var k := at.value;
      var m := ms[k];
      if effectType == HEAL {
        if m.kind != kind { e := Some(Unsupported); return; }
        var hp := Max(m.hp, 0);
        var next := Min(hp + roll.heal, Max(m.maxHp, 0));
        ms := ms[k := m.(hp := next)];
        hits := hits + [Hit(target, false, next - hp, false, false)];
        return;
      }
      if effectType == SUPPORT || effectType == DEBUFF {
        hits := hits + [Hit(target, false, 0, false, false)];
        return;
      }
      if effectType != DAMAGE { e := Some(Unsupported); return; }
      if !tool && roll.miss {
        hits := hits + [Hit(target, true, 0, false, false)];
        return;
      }
      var breakDamage := if tool then 0 else roll.breakDamage;
      var broken := Breaks(m, breakDamage);
      var struck := Struck(m, roll.damage, breakDamage);
      ms := ms[k := struck];
      if !struck.alive {
        killed := killed + [target];
      } else if broken {
        SortedOwned(sp, queue.units, target);
        var moves := queue.DelayMember(sp, target, breakOffset);
        if moves.None? { e := Some(BreakRefused); return; }
      }
      total := total + Min(Max(m.hp, 0), Min(roll.damage, I32_MAX));
      hits := hits + [Hit(target, false, 0, !struck.alive, broken)];
    }

    static lemma {:induction false} SortedOwned(sp: Speeds, us: seq<Unit>, id: int)
      ensures Owned(Sorted(sp, us), id) == Owned(us, id)
    {
      SortedPermutes(sp, us);
      CountPermutation(us, Sorted(sp, us), Of(id));
    }

    /** apply_timeline_effects: every shift in turn, every target in turn. */
    method ShiftEach(queue: Queue, sp: Speeds, targets: seq<int>, shifts: seq<nat>) returns (ok: bool)
      modifies queue
      ensures ShiftAll(old(queue.units), sp, targets, shifts) == if ok then Some(queue.units) else None
    {
      hide AfterDelay, Sorted, SlotDelay;
      var i := 0;
      while i < |shifts|
        invariant 0 <= i <= |shifts|
        invariant ShiftAll(old(queue.units), sp, targets, shifts) == ShiftAll(queue.units, sp, targets, shifts[i..])
      {
        assert shifts[i..][1..] == shifts[i + 1..];
        ghost var begun := queue.units;
        var j := 0;
        while j < |targets|
          invariant 0 <= j <= |targets|
          invariant ShiftTargets(begun, sp, targets, shifts[i]) == ShiftTargets(queue.units, sp, targets[j..], shifts[i])
        {
          assert targets[j..][1..] == targets[j + 1..];
          var moves := queue.DelayBySlots(sp, targets[j], shifts[i]);
          if moves.None? { return false; }
          j := j + 1;
        }
        i := i + 1;
      }
      ok := true;
    }

    // ----- what holds between requests ---------------------------------------------------------

    ghost predicate Sound()
      reads this
    {
      && Fit(members, units)
      && panels != [] && 1 <= wave <= |waves| && waves[wave - 1].panelIds != []
      && forall i | 0 <= i < |waves| :: WaveSound(waves[i])
    }

    predicate Over()
      reads this
    {
      BattleStatus(members) == Some(Lost) || (BattleStatus(members) == Some(Won) && wave >= |waves|)
    }

    /** The next request will find an ally in front. */
    predicate AllyToAct()
      reads this
    {
      AllyFront(members, units)
    }

    method ConsumePanel() returns (ok: bool)
      requires 1 <= wave <= |waves| && waves[wave - 1].panelIds != []
      modifies this`panels, this`panelsUsed
      ensures ok == (Advance(waves[wave - 1].panelIds, old(panels)) == Some(panels))
      ensures ok <==> old(panels) != []
      ensures ok ==> |panels| == |old(panels)| && panelsUsed == old(panelsUsed) + 1
      ensures !ok ==> panels == old(panels) && panelsUsed == old(panelsUsed)
    {
      if panels == [] { return false; }
      var ids := waves[wave - 1].panelIds;
      var next := panels[|panels| - 1].turn + 1;
      panels := panels[1..] + [Build(ids[Max(next - 1, 0) % |ids|], next)];
      panelsUsed := panelsUsed + 1;
      ok := true;
    }

    // ----- waves -------------------------------------------------------------------------------

    static function Allies(ms: seq<Member>): (r: seq<Member>)
      ensures forall i | 0 <= i < |r| :: r[i] in ms && r[i].kind == ALLY
    {
      if ms == [] then [] else (if ms[0].kind == ALLY then [ms[0]] else []) + Allies(ms[1..])
    }

    /** The allies of a list, each as often as it stands there, in the same order. */
    static lemma {:induction false} AlliesInOrder(a: seq<Member>, b: seq<Member>)
      ensures Allies(a + b) == Allies(a) + Allies(b)
      ensures forall m :: Allies([m]) == if m.kind == ALLY then [m] else []
    {
      if a == [] {
        assert a + b == b;
      } else {
        assert (a + b)[1..] == a[1..] + b;
        AlliesInOrder(a[1..], b);
      }
      forall m ensures Allies([m]) == if m.kind == ALLY then [m] else [] { assert [m][1..] == []; }
    }

    static lemma {:induction false} AlliesDistinct(ms: seq<Member>)
      requires DistinctIds(ms)
      ensures DistinctIds(Allies(ms))
    {
      if ms != [] {
        assert ms == [ms[0]] + ms[1..];
        AlliesDistinct(ms[1..]);
        assert forall i | 0 <= i < |Allies(ms[1..])| :: Allies(ms[1..])[i].id != ms[0].id;
      }
    }

    static lemma {:induction false} AlliesAlive(ms: seq<Member>)
      requires SomeAlive(ms, ALLY)
      ensures SomeAlive(Allies(ms), ALLY)
    {
      hide DistinctIds;
      var rest, r := Allies(ms[1..]), Allies(ms);
      if ms[0].alive && ms[0].kind == ALLY {
        assert r[0].alive;
      } else {
        var i :| 0 < i < |ms| && ms[i].alive && ms[i].kind == ALLY;
        assert ms[1..][i - 1].alive;
        AlliesAlive(ms[1..]);
        var j :| 0 <= j < |rest| && rest[j].alive && rest[j].kind == ALLY;
        assert r[|r| - |rest| + j] == rest[j];
      }
    }

    static lemma {:induction false} NextMembers(ms: seq<Member>, w: Wave)
      requires DistinctIds(ms) && Healthy(ms) && Sides(ms) && SomeAlive(ms, ALLY) && WaveSound(w)
      ensures var r := Allies(ms) + w.enemies;
              DistinctIds(r) && Healthy(r) && Sides(r) && SomeAlive(r, ALLY)
    {
      hide Allies;
      var a := Allies(ms);
      var r := a + w.enemies;
      AlliesDistinct(ms);
      AlliesAlive(ms);
      forall i | 0 <= i < |a| ensures 0 <= a[i].hp <= a[i].maxHp && (a[i].alive <==> a[i].hp > 0) && a[i].id < 11 {
        assert a[i] in ms;
      }
      var i :| 0 <= i < |a| && a[i].alive && a[i].kind == ALLY;
      assert r[i].alive && r[i].kind == ALLY;
      assert forall i | 0 <= i < |r| :: r[i] == if i < |a| then a[i] else w.enemies[i - |a|];
    }

    /** append_wave_members and the new panels: allies stay as they are, enemies and queue are replaced. */
    method NextWave(fate: Fate) returns (e: Option<BattleError>)
      requires Sound() && Tame(fate) && BattleStatus(members) == Some(Won) && wave < |waves|
      modifies this
      ensures e.None? ==> Sound() && wave == old(wave) + 1
                          && members == fate.settle(Entered(wave), Allies(old(members)) + waves[old(wave)].enemies)
                          && Opens(fate, wave, waves[old(wave)], old(members), Stretch(members, units, 0, members))
                          && Some(panels) == Window(waves[old(wave)].panelIds, panelCount, 1)
      ensures e.Some? ==> e == Some(NoPanels) && wave == old(wave) + 1
      ensures totalTurn == old(totalTurn) && actionNumber == old(actionNumber) && panelsUsed == old(panelsUsed)
    {
      hide Sorted, Manned, Allies, Healthy, Sides, AllPlacements;
      var w := waves[wave];
      var ms := Allies(members) + w.enemies;
      MannedDistinct(members, units);
      assert WaveSound(w);
      NextMembers(members, w);
      var us := InitialTimeline(ms, w.strong);
      var window := Window(w.panelIds, panelCount, 1);
      wave := wave + 1;
      if window.None? { return Some(NoPanels); }
      members, units, panels := ms, us.value, window.value;
      Settle(fate, Entered(wave));
      e := None;
    }

    // ----- the start of a battle ---------------------------------------------------------------

    /** What the source demands of a party: ids 1 to 10 in order, allies, hit points in bounds. */
    static predicate Party(allies: seq<Member>) {
      DistinctIds(allies) && Healthy(allies) && forall i | 0 <= i < |allies| :: allies[i].kind == ALLY && allies[i].id < 11 && allies[i].enemy.None?
    }

    /** The members that enter the first wave, as the effect runtime leaves them. */
    static function Entrants(fate: Fate, allies: seq<Member>, w: Wave): seq<Member> {
      fate.settle(Entering(1), allies + w.enemies)
    }

    /**
     * A battle begins with a sound state. It is refused exactly without waves, enemies, panels or a living ally; and when
     * no ally waits less than a whole tick, an ally is the first to act, whatever the runtime does to speeds.
     */
    static method Begin(fate: Fate, allies: seq<Member>, waves: seq<Wave>, panelCount: int, breakOffset: int) returns (st: BattleState?)
      requires Tame(fate) && Party(allies) && forall i | 0 <= i < |waves| :: WaveSound(waves[i])
      ensures st != null <==> waves != [] && waves[0].enemies != [] && waves[0].panelIds != [] && panelCount > 0 && SomeAlive(allies, ALLY)
      ensures st != null ==> fresh(st) && st.Sound() && st.Turned() && BattleStatus(st.members) == Some(InBattle)
                             && st.totalTurn == 1 && st.wave == 1 && st.waves == waves
      ensures st != null ==> var entrants := Entrants(fate, allies, waves[0]);
                             && st.members == fate.settle(Entered(1), entrants) && Opened(entrants, waves[0].strong, st.units)
                             && Some(st.panels) == Window(waves[0].panelIds, panelCount, 1)
                             && st.panelCount == panelCount && st.breakOffset == breakOffset
      ensures st != null && FastestAlly(Entrants(fate, allies, waves[0])) !in {None, Some(0)} ==> st.AllyToAct()
    {
      hide Sorted, Fit, Healthy, AllPlacements, FastestAlly, BattleStatus, Party, SomeAlive, WaveSound, Manned, AllyFront, Opened;
      if waves == [] || allies == [] || waves[0].enemies == [] { NobodyAlive(); return null; }
      var w := waves[0];
      var entering := Entrants(fate, allies, w);
      EntrantsFit(fate, allies, w);
      var us := InitialTimeline(entering, w.strong);
      var window := Window(w.panelIds, panelCount, 1);
      if us.None? || window.None? { return null; }
      var entered := fate.settle(Entered(1), entering);
      OpeningFit(fate, entering, w.strong, us.value);
      st := new BattleState(entered, us.value, window.value, waves, panelCount, breakOffset);
    }

    static lemma {:induction false} NobodyAlive()
      ensures !SomeAlive([], ALLY)
    {
    }

    /** The members of the first wave are in order before they are queued. */
    static lemma {:induction false} EntrantsFit(fate: Fate, allies: seq<Member>, w: Wave)
      requires Tame(fate) && Party(allies) && WaveSound(w) && w.enemies != []
      ensures var ms := Entrants(fate, allies, w);
              DistinctIds(ms) && Healthy(ms) && Sides(ms) && (SomeAlive(ms, ALLY) <==> SomeAlive(allies, ALLY))
              && (SomeAlive(ms, ALLY) ==> BattleStatus(ms) == Some(InBattle))
    {
      hide Party, WaveSound, Healthy, BattleStatus;
      var raw := allies + w.enemies;
      FirstMembers(allies, w);
      var ms := fate.settle(Entering(1), raw);
      assert SameLives(raw, ms);
      LivesKeepRoster(raw, ms, []);
      AliveKept(raw, ms);
    }

    /** What the runtime makes of freshly queued members is as fit as they are, and an ally opens if one does by a tick. */
    static lemma {:induction false} OpeningFit(fate: Fate, ms: seq<Member>, strong: set<int>, us: seq<Unit>)
      requires Tame(fate) && DistinctIds(ms) && Healthy(ms) && Sides(ms) && BattleStatus(ms) == Some(InBattle) && Manned(ms, us)
      requires FastestAlly(ms).Some? && us == Sorted(SpeedTable(ms), AllPlacements(ms, strong, FastestAlly(ms).value))
      ensures var entered := fate.settle(Entered(1), ms);
              && Fit(entered, us) && BattleStatus(entered) == Some(InBattle)
              && (FastestAlly(ms) != Some(0) ==> AllyFront(entered, us))
    {
      hide Manned, AllPlacements, FastestAlly, BattleStatus, Sorted, Healthy, AllyFront;
      var entered := fate.settle(Entered(1), ms);
      assert SameLives(ms, entered);
      LivesKeepRoster(ms, entered, us);
      SortedPermutes(SpeedTable(ms), AllPlacements(ms, strong, FastestAlly(ms).value));
      FastestIs(ms);
      if FastestAlly(ms) != Some(0) { AllyOpens(ms, entered, strong, us); }
    }

    static lemma {:induction false} AliveKept(a: seq<Member>, b: seq<Member>)
      requires SameLives(a, b)
      ensures SomeAlive(a, ALLY) <==> SomeAlive(b, ALLY)
    {
      if SomeAlive(a, ALLY) { var i :| 0 <= i < |a| && a[i].alive && a[i].kind == ALLY; assert b[i].alive && b[i].kind == ALLY; }
      if SomeAlive(b, ALLY) { var i :| 0 <= i < |b| && b[i].alive && b[i].kind == ALLY; assert a[i].alive && a[i].kind == ALLY; }
    }

    static lemma {:induction false} FirstMembers(allies: seq<Member>, w: Wave)
      requires Party(allies) && WaveSound(w) && w.enemies != []
      ensures var ms := allies + w.enemies;
              DistinctIds(ms) && Healthy(ms) && Sides(ms) && (SomeAlive(ms, ALLY) <==> SomeAlive(allies, ALLY))
              && (SomeAlive(ms, ALLY) ==> BattleStatus(ms) == Some(InBattle))
    {
      var ms := allies + w.enemies;
      assert forall i | 0 <= i < |ms| :: ms[i] == if i < |allies| then allies[i] else w.enemies[i - |allies|];
      if SomeAlive(allies, ALLY) {
        var i :| 0 <= i < |allies| && allies[i].alive && allies[i].kind == ALLY;
        assert ms[i].alive && ms[i].kind == ALLY;
      }
      assert ms[|allies|].alive && ms[|allies|].kind == ENEMY;
    }

    /** Between requests a battle that is no longer going on has seen a turn. */
    predicate Turned()
      reads this
    {
      totalTurn >= 1 && (BattleStatus(members) == Some(InBattle) || totalTurn >= 2)
    }

    // ----- one turn ----------------------------------------------------------------------------

    /** The effect runtime rewrites the members: any speed may change, lives may not. */
    method Settle(fate: Fate, stage: Stage)
      requires Sound() && Tame(fate)
      modifies this`members
      ensures Sound() && members == fate.settle(stage, old(members)) && SameLives(old(members), members)
    {
      hide Manned;
      var after := fate.settle(stage, members);
      assert SameLives(members, after) && Healthy(after);
      LivesKeepRoster(members, after, units);
      members := after;
    }

    /** current_actor, as a position in the member list. */
    method CurrentActor() returns (k: nat)
      requires Sound() && BattleStatus(members) == Some(InBattle)
      ensures InFront(members, units, k) && EarliestLiving(members, units, None) == Some(members[k])
    {
      hide Manned, Sorted, Healthy, Sides;
      ghost var i := SomebodyFront(members, units);
      var actor := EarliestLiving(members, units, None).value;
      MannedDistinct(members, units);
      UniqueMember(members, i, actor.id);
      k := Find(members, actor.id).value;
    }

    static lemma {:induction false} UpdateKeepsSides(ms: seq<Member>, k: nat, m: Member)
      requires k < |ms| && Healthy(ms) && Sides(ms)
      requires m.id == ms[k].id && m.kind == ms[k].kind && m.maxHp == ms[k].maxHp && (ms[k].enemy.Some? <==> m.enemy.Some?)
      requires 0 <= m.hp <= m.maxHp && (m.alive <==> m.hp > 0)
      ensures Healthy(ms[k := m]) && Sides(ms[k := m])
    {
    }

    /** An enemy that starts its turn broken gets its gauge back. */
    method Recover(k: nat)
      requires Sound() && InFront(members, units, k)
      modifies this`members
      ensures Sound() && InFront(members, units, k) && SameLives(old(members), members) && SpeedTable(members) == SpeedTable(old(members))
      ensures members == if old(members)[k].kind == ENEMY && old(members)[k].enemy.value.broken
                         then old(members)[k := old(members)[k].(enemy := Some(old(members)[k].enemy.value.(
                                breakGauge := Max(old(members)[k].enemy.value.maxBreakGauge, 1), broken := false)))]
                         else old(members)
    {
      hide Manned, Sorted;
      if members[k].kind == ENEMY && members[k].enemy.value.broken {
        ghost var before := members;
        var e := members[k].enemy.value;
        var m := members[k].(enemy := Some(e.(breakGauge := Max(e.maxBreakGauge, 1), broken := false)));
        UpdateKeepsSides(members, k, m);
        members := members[k := m];
        assert SameBodies(before, members);
        SpeedsOfBodies(before, members);
        LivesKeepRoster(before, members, units);
      }
    }

    /** What upkeep finds: a broken enemy has got up again, with a full gauge. */
    static function Restored(m: Member): Member {
      if m.kind == ENEMY && m.enemy.Some? && m.enemy.value.broken
      then m.(enemy := Some(m.enemy.value.(breakGauge := Max(m.enemy.value.maxBreakGauge, 1), broken := false)))
      else m
    }

    /** The members when the turn of the one at `k` has begun: it has the hit points and the life that upkeep leaves it, and
     * if it was a broken enemy it is whole again, even if the turn is lost. Nothing else has changed. */
    static predicate Readied(u: Upkeep, k: nat, ms0: seq<Member>, ms: seq<Member>) {
      && k < |ms0| == |ms| && (forall i | 0 <= i < |ms| && i != k :: ms[i] == ms0[i])
      && ms[k].id == ms0[k].id && ms[k].kind == ms0[k].kind && ms[k].maxHp == ms0[k].maxHp && ms[k].speed == ms0[k].speed
      && ms[k].hp == u.hp && (ms[k].alive <==> u.hp != 0)
      && (if ms0[k].kind == ENEMY && ms0[k].enemy.Some? && ms0[k].enemy.value.broken
          then ms[k].enemy == Some(Enemy(Max(ms0[k].enemy.value.maxBreakGauge, 1), ms0[k].enemy.value.maxBreakGauge, false))
          else ms[k].enemy == ms0[k].enemy)
    }

    /** The queue when the turn has begun: the dead have left it, the disabled have spent their turn. */
    static predicate Requeued(u: Upkeep, m: Member, sp: Speeds, us0: seq<Unit>, us: seq<Unit>) {
      && (u.hp == 0 ==> us == Without(Sorted(sp, us0), [m.id]))
      && (u.hp != 0 && u.disabled ==>
            TurnAllowed(sp, us0, m.id) && us == AfterTurn(sp, us0, m.id, BaseWait(m.speed), BaseWait(m.speed), m.kind == ENEMY))
      && (u.hp != 0 && !u.disabled ==> us == us0)
    }

    static lemma {:induction false} BegunTurn(u: Upkeep, k: nat, ms0: seq<Member>, us0: seq<Unit>, ms1: seq<Member>,
                                              ms: seq<Member>, us: seq<Unit>, skip: bool)
      requires k < |ms0| && ms1 == ms0[k := Restored(ms0[k])] && SpeedTable(ms) == SpeedTable(ms0) && Prepared(u, k, ms1, us0, ms, us, skip)
      ensures Readied(u, k, ms0, ms) && Requeued(u, ms0[k], SpeedTable(ms0), us0, us)
    {
      hide AfterTurn, Without, TurnAllowed, Sorted;
    }

    /** What upkeep `u` makes of the actor at `k` and of the queue. */
    static predicate Prepared(u: Upkeep, k: nat, ms0: seq<Member>, us0: seq<Unit>, ms: seq<Member>, us: seq<Unit>, skip: bool) {
      && k < |ms0| == |ms| && (skip <==> u.disabled || u.hp == 0)
      && ms == ms0[k := ms0[k].(hp := u.hp, alive := u.hp != 0)]
      && (u.hp == 0 ==> us == Without(Sorted(SpeedTable(ms), us0), [ms[k].id]))
      && (u.hp != 0 && !u.disabled ==> us == us0)
      && (u.hp != 0 && u.disabled ==>
            var w := BaseWait(ms[k].speed);
            TurnAllowed(SpeedTable(ms), us0, ms[k].id)
            && us == AfterTurn(SpeedTable(ms), us0, ms[k].id, w, w, ms[k].kind == ENEMY))
    }

    /** Upkeep at the start of a turn; a killed actor leaves the queue, a disabled one spends its turn. */
    method Prepare(fate: Fate, k: nat) returns (skip: bool)
      requires Sound() && InFront(members, units, k) && Tame(fate) && actionNumber >= 0
      modifies this`members, this`units
      ensures Sound() && SameCast(old(members), members) && SpeedTable(members) == SpeedTable(old(members))
      ensures forall id | Living(members, id) :: Living(old(members), id)
      ensures Prepared(fate.upkeep(actionNumber as nat, old(members)[k]), k, old(members), old(units), members, units, skip)
      ensures !skip ==> InFront(members, units, k) && SameLives(old(members), members) && units == old(units)
    {
      hide Manned, Sorted, AfterTurn, Without;
      ghost var before := members;
      var u := fate.upkeep(actionNumber as nat, members[k]);
      var m := members[k].(hp := u.hp, alive := u.hp != 0);
      UpdateKeepsSides(members, k, m);
      members := members[k := m];
      assert SameBodies(before, members);
      SpeedsOfBodies(before, members);
      MannedDistinct(before, units);
      LivingAfterUpdate(before, k, m);
      skip := u.disabled || u.hp == 0;
      if u.hp == 0 {
        KilledKeepsRoster(before, k, m, units);
        var queue := new Queue(units);
        var moves := queue.RemoveMembers(SpeedTable(members), [m.id]);
        units := queue.units;
      } else {
        LivesKeepRoster(before, members, units);
        if u.disabled {
          ActorAllowed(members, units, m.id);
          var queue := new Queue(units);
          var move := queue.ConsumeTurn(SpeedTable(members), m.id, BaseWait(m.speed), BaseWait(m.speed), m.kind == ENEMY);
          TurnKeepsRoster(members, units, m.id, BaseWait(m.speed), BaseWait(m.speed), m.kind == ENEMY);
          units := queue.units;
        }
      }
    }

    static lemma {:induction false} ActorAllowed(ms: seq<Member>, us: seq<Unit>, a: int)
      requires Manned(ms, us) && us != [] && Sorted(SpeedTable(ms), us)[0].member == a
      ensures TurnAllowed(SpeedTable(ms), us, a)
    {
      HeadsIsHead(SpeedTable(ms), us, a);
      HeadAllowed(ms, us, a);
    }

    static lemma {:induction false} KilledKeepsRoster(ms: seq<Member>, k: nat, m: Member, us: seq<Unit>)
      requires Manned(ms, us) && k < |ms| && m.id == ms[k].id && !m.alive && ms[k].alive && SpeedTable(ms[k := m]) == SpeedTable(ms)
      ensures Manned(ms[k := m], Without(Sorted(SpeedTable(ms), us), [m.id]))
    {
      hide Owned, Count, Sorted, Without;
      SortedManned(ms, us);
      LivingAfterUpdate(ms, k, m);
      assert DistinctIds(ms[k := m]);
      RemovalKeepsRoster(ms, ms[k := m], Sorted(SpeedTable(ms), us), [m.id]);
    }

    /** Whom an enemy aims at: itself, its most injured comrade, its provoker, or the earliest living ally. */
    static function EnemyTarget(ms: seq<Member>, us: seq<Unit>, choice: Choice, k: nat): (r: Option<int>)
      requires k < |ms|
      ensures choice.skill.targetType == 1 ==> r == Some(ms[k].id)
      ensures choice.skill.targetType in {2, 4} ==> AimedAt(ms, ENEMY, r, m => WorstOff(ms, ENEMY, m))
      ensures choice.skill.targetType == 3 && choice.provoked.Some? ==>
                r == if exists i | 0 <= i < |ms| :: Eligible(ms[i], Some(ALLY)) then choice.provoked else None
      ensures choice.skill.targetType !in {1, 2, 4} && !(choice.skill.targetType == 3 && choice.provoked.Some?) ==>
                AimedAt(ms, ALLY, r, m => Soonest(ms, us, ALLY, m))
    {
      var earliest := EarliestLiving(ms, us, Some(ALLY));
      if choice.skill.targetType == 1 then Some(ms[k].id)
      else if choice.skill.targetType in {2, 4} then
        var m := MostInjured(ms, ENEMY);
        if m.Some? then Some(m.value.id) else None
      else if earliest.None? then None
      else if choice.skill.targetType == 3 && choice.provoked.Some? then choice.provoked
      else Some(earliest.value.id)
    }

    /** The action of the member at `k`: it does its deed, and moves on by one panel after the last tool. */
    method Perform(fate: Fate, k: nat, skill: Skill, target: int, tool: bool, lastPanel: bool) returns (e: Option<BattleError>)
      requires Sound() && Tame(fate) && k < |members| && actionNumber >= 0
      modifies this`members, this`units, this`panels, this`panelsUsed
      ensures var deed := Deed(fate, actionNumber as nat, old(members), old(units), k, skill, target, tool, breakOffset);
              if deed.Err? then e == Some(deed.error)
              else e.None? && Sound() && members == deed.value.ms && units == deed.value.us
                   && panelsUsed == old(panelsUsed) + (if lastPanel then 1 else 0)
      ensures e.None? ==> if lastPanel then Some(panels) == Advance(waves[wave - 1].panelIds, old(panels)) else panels == old(panels)
      ensures e.Some? ==> panelsUsed == old(panelsUsed) && units == old(units)
                          && (e.value == NoTarget ==> members == old(members))
                          && (e.value.Refused? ==> members == fate.settle(BeforeDeed(actionNumber as nat), old(members)) && SameLives(old(members), members))
      ensures e == Some(Refused(TurnRefused)) ==> !tool && Beaten(fate, skill)
    {
      hide Manned, Sorted, Act, Healthy, Sides, HpSum, SelectTargets, BeforeTurn, Heads;
      var n := actionNumber as nat;
      var id, kind := members[k].id, members[k].kind;
      DeedKeeps(fate, n, members, units, k, skill, target, tool, breakOffset);
      var targets := SelectTargets(members, units, kind, target, skill.targetType);
      if targets.None? { return Some(NoTarget); }
      var rolls := Rolls(fate, n, targets.value);
      Settle(fate, BeforeDeed(n));
      var r := ApplyAttackResults(id, kind, skill, skill.slots, targets.value, rolls, tool);
      if r.Err? {
        e := Some(Refused(r.error));
        if r.error == TurnRefused { assert BeatenAt(fate, skill, k, targets.value); }
        return;
      }
      members := fate.settle(AfterDeed(n), members);
      if lastPanel {
        var ok := ConsumePanel();
      }
      e := None;
    }

    // ----- the loop ----------------------------------------------------------------------------

    static lemma {:induction false} InFrontParts(ms: seq<Member>, us: seq<Unit>, k: nat)
      requires InFront(ms, us, k)
      ensures k < |ms| && ms[k].alive
    {
    }

    static lemma {:induction false} SameFront(a: seq<Member>, b: seq<Member>, us: seq<Unit>, k: nat)
      requires SameLives(a, b) && SpeedTable(a) == SpeedTable(b) && InFront(a, us, k)
      ensures InFront(b, us, k)
    {
    }

    /** An ally that is left alone and lives does not lose its turn. */
    static lemma {:induction false} SkipWhy(fate: Fate, n: nat, k: nat, ms0: seq<Member>, us0: seq<Unit>, ms: seq<Member>,
                                            us: seq<Unit>, skip: bool, b: int)
      requires k < |ms0| && DistinctIds(ms0) && Prepared(fate.upkeep(n, ms0[k]), k, ms0, us0, ms, us, skip)
      ensures ms0[k].id == b && Untouched(fate, b) && Living(ms, b) ==> !skip
      ensures !skip ==> us == us0 && ms[k].alive
    {
      LivingAfterUpdate(ms0, k, ms[k]);
    }

    /**
     * The start of a turn: find the actor, restore a broken enemy, apply upkeep; a lost turn still uses up a panel. The
     * runtime then rewrites the members, so the actor need not be in front any more.
     */
    method StartTurn(fate: Fate, ghost b: int) returns (k: nat, skip: bool, ghost kept: seq<Member>)
      requires Sound() && Tame(fate) && BattleStatus(members) == Some(InBattle) && actionNumber >= 0
      modifies this`members, this`units, this`panels, this`panelsUsed
      ensures Sound() && SameCast(old(members), members) && forall id | Living(members, id) :: Living(old(members), id)
      ensures InFront(old(members), old(units), k) && k < |members| && k < |old(members)| && Healthy(kept)
      ensures var n, front := actionNumber as nat, old(members)[k];
              var u := fate.upkeep(n, Restored(front));
              && (skip <==> u.disabled || u.hp == 0)
              && Readied(u, k, old(members), kept) && Requeued(u, front, SpeedTable(old(members)), old(units), units)
              && members == fate.settle(if skip then LostTurn(n) else Upkept(n), kept)
      ensures skip ==> panelsUsed == old(panelsUsed) + 1 && Brings(fate, b, old(members), old(units), members, units)
                       && Some(panels) == Advance(waves[wave - 1].panelIds, old(panels))
      ensures !skip ==> BattleStatus(members) == Some(InBattle) && members[k].alive
                        && panelsUsed == old(panelsUsed) && panels == old(panels) && units == old(units)
                        && (Steady(fate) ==> InFront(members, units, k))
      ensures !skip && members[k].kind == ALLY ==> AwaitsAt(fate, actionNumber as nat, old(members), units, members, k)
      ensures old(members)[k].id == b && Untouched(fate, b) && members[k].kind == ALLY && Living(members, b) ==> !skip
    {
      hide Fit, EarliestLiving, Brings, AwaitsAt, InFront, Untouched, Living, BattleStatus, Readied, Requeued, Restored;
      k := CurrentActor();
      InFrontParts(members, units, k);
      skip, kept := Upkeep(fate, k, b);
      FitParts(kept, units);
      ghost var ms1 := kept;
      if skip {
        var ok := ConsumePanel();
        Settle(fate, LostTurn(actionNumber as nat));
        LivesKeepRoster(ms1, members, units);
        BringsSame(fate, b, old(members), old(members), old(units), ms1, members, units);
      } else {
        Settle(fate, Upkept(actionNumber as nat));
        LivesKeepRoster(ms1, members, units);
        InFrontParts(ms1, units, k);
        FitParts(ms1, units);
        if Steady(fate) { SameFront(ms1, members, units, k); }
      }
      CastTransitive(old(members), ms1, members);
    }

    /** A broken enemy restored, and what upkeep does. */
    method Upkeep(fate: Fate, k: nat, ghost b: int) returns (skip: bool, ghost kept: seq<Member>)
      requires Sound() && Tame(fate) && InFront(members, units, k) && actionNumber >= 0
      modifies this`members, this`units
      ensures Sound() && kept == members && SameCast(old(members), members) && k < |old(members)|
      ensures var u := fate.upkeep(actionNumber as nat, Restored(old(members)[k]));
              && (skip <==> u.disabled || u.hp == 0)
              && Readied(u, k, old(members), kept) && Requeued(u, old(members)[k], SpeedTable(old(members)), old(units), units)
      ensures forall id | Living(members, id) :: Living(old(members), id)
      ensures skip ==> Brings(fate, b, old(members), old(units), members, units)
      ensures !skip ==> BattleStatus(members) == BattleStatus(old(members)) && InFront(members, units, k) && units == old(units)
                        && SpeedTable(members) == SpeedTable(old(members))
                        && (members[k].kind == ALLY ==>
                              AwaitsAt(fate, actionNumber as nat, old(members), units, fate.settle(Upkept(actionNumber as nat), members), k))
      ensures old(members)[k].id == b && Untouched(fate, b) && Living(members, b) ==> !skip
    {
      hide Manned, Sorted, Healthy, SameBodies, Sides, AfterTurn, Brings, AwaitsAt, InFront, Untouched, Living, BattleStatus, Readied, Requeued;
      var n := actionNumber as nat;
      InFrontParts(members, units, k);
      Recover(k);
      ghost var ms0 := members;
      LivesKeepRoster(old(members), ms0, units);
      skip := Prepare(fate, k);
      kept := members;
      CastTransitive(old(members), ms0, kept);
      MannedDistinct(ms0, old(units));
      assert ms0 == old(members)[k := Restored(old(members)[k])];
      BegunTurn(fate.upkeep(n, ms0[k]), k, old(members), old(units), ms0, kept, units, skip);
      SkipWhy(fate, n, k, ms0, old(units), kept, units, skip, b);
      if skip {
        LostTurnBrings(fate, n, k, ms0, old(units), kept, units, b);
        BringsSame(fate, b, old(members), ms0, old(units), kept, kept, units);
      } else {
        LivesKeepRoster(ms0, kept, units);
        if ms0[k].kind == ALLY { UpkeepAwaits(fate, n, old(members), units, kept, k); }
      }
    }

    /** The working state in which a request was refused for a turn: the actor does not own the least unit of the queue. */
    ghost predicate Beaten(fate: Fate, skill: Skill)
      reads this
    {
      actionNumber >= 0 && exists k: nat, targets: seq<int> :: BeatenAt(fate, skill, k, targets)
    }

    ghost predicate BeatenAt(fate: Fate, skill: Skill, k: nat, targets: seq<int>)
      reads this
      requires actionNumber >= 0
    {
      k < |members|
      && var r := BeforeTurn(members, units, members[k].id, members[k].kind, skill, skill.slots, targets,
                             Rolls(fate, actionNumber as nat, targets), false, breakOffset);
         r.Ok? && !Heads(SpeedTable(members), r.value.1, members[k].id)
    }

    /** A turn of the member at `k` in front: it begins, and is lost, waits for the player, or is an enemy's deed. */
    static ghost predicate Took(fate: Fate, n: nat, offset: int, k: nat, kept: seq<Member>, ms0: seq<Member>, us0: seq<Unit>,
                                ms: seq<Member>, us: seq<Unit>, halt: bool) {
      InFront(ms0, us0, k) && |kept| == |ms0| && |fate.settle(Upkept(n), kept)| == |ms0|
      && var u := fate.upkeep(n, Restored(ms0[k]));
         var ready := fate.settle(Upkept(n), kept);
         Readied(u, k, ms0, kept)
         && if u.disabled || u.hp == 0 then
              !halt && ms == fate.settle(LostTurn(n), kept) && Requeued(u, ms0[k], SpeedTable(ms0), us0, us)
            else if ready[k].kind == ALLY then halt && ms == ready && us == us0
            else
              var choice := fate.choice(n);
              var target := EnemyTarget(ready, us0, choice, k);
              !halt && target.Some?
              && var deed := Deed(fate, n, ready, us0, k, choice.skill, target.value, false, offset);
                 deed.Ok? && ms == deed.value.ms && us == deed.value.us
    }

    /** One pass for the member in front: upkeep, then a lost turn, a halt for the player, or an enemy action. */
    method TakeTurn(fate: Fate, ghost b: int) returns (e: Option<BattleError>, halt: bool, ghost k: nat, ghost kept: seq<Member>)
      requires Sound() && Tame(fate) && BattleStatus(members) == Some(InBattle) && actionNumber >= 0
      modifies this`members, this`units, this`panels, this`panelsUsed
      ensures e.None? ==> Sound() && SameCast(old(members), members) && forall id | Living(members, id) :: Living(old(members), id)
      ensures e.None? ==> Took(fate, actionNumber as nat, breakOffset, k, kept, old(members), old(units), members, units, halt)
      ensures e.None? && halt ==> BattleStatus(members) == Some(InBattle) && panelsUsed == old(panelsUsed) && units == old(units)
                                  && Awaits(fate, actionNumber as nat, old(members), units, members)
      ensures e.None? ==> if halt then panels == old(panels) else Some(panels) == Advance(waves[wave - 1].panelIds, old(panels))
      ensures e.None? && !halt ==> panelsUsed == old(panelsUsed) + 1 && Brings(fate, b, old(members), old(units), members, units)
      ensures e.Some? ==> e.value in {NoTarget, Refused(Unsupported), Refused(SlotsRefused), Refused(TurnRefused)}
                          && (Living(members, b) ==> Living(old(members), b)) && SameCast(old(members), members)
      ensures e == Some(Refused(TurnRefused)) ==> Beaten(fate, fate.choice(actionNumber as nat).skill)
      ensures e == Some(Refused(TurnRefused)) && Steady(fate) ==> SelfAimed(fate.choice(actionNumber as nat).skill)
    {
      hide Fit, EarliestLiving, InFront, AwaitsAt, Brings, Living, Untouched, BattleStatus, SelfAimed, Beaten, Took, EnemyTarget, Deed;
      hide Readied, Requeued, Restored;
      var actor, skip;
      actor, skip, kept := StartTurn(fate, b);
      k := actor;
      ghost var n := actionNumber as nat;
      ghost var ready := fate.settle(Upkept(n), kept);
      if skip {
        TookLost(fate, n, breakOffset, k, kept, old(members), old(units), members, units);
        return None, false, k, kept;
      }
      if members[actor].kind == ALLY {
        TookHalt(fate, n, breakOffset, k, kept, old(members), old(units));
        return None, true, k, kept;
      }
      EnemyOrAlly(members, units, actor);
      e := EnemyTurn(fate, actor, old(members), b);
      halt := false;
      if e.None? { TookDeed(fate, n, breakOffset, k, kept, old(members), old(units), members, units); }
    }

    static lemma {:induction false} TookLost(fate: Fate, n: nat, offset: int, k: nat, kept: seq<Member>, ms0: seq<Member>,
                                             us0: seq<Unit>, ms: seq<Member>, us: seq<Unit>)
      requires Tame(fate) && InFront(ms0, us0, k) && k < |ms0| && Healthy(kept)
      requires var u := fate.upkeep(n, Restored(ms0[k]));
               (u.disabled || u.hp == 0) && Readied(u, k, ms0, kept) && Requeued(u, ms0[k], SpeedTable(ms0), us0, us)
      requires ms == fate.settle(LostTurn(n), kept)
      ensures Took(fate, n, offset, k, kept, ms0, us0, ms, us, false)
    {
      hide InFront, Requeued, Restored, Healthy, EnemyTarget, Deed;
      assert SameLives(kept, fate.settle(Upkept(n), kept));
    }

    static lemma {:induction false} TookHalt(fate: Fate, n: nat, offset: int, k: nat, kept: seq<Member>, ms0: seq<Member>, us0: seq<Unit>)
      requires Tame(fate) && InFront(ms0, us0, k) && k < |ms0| && Healthy(kept)
      requires var u := fate.upkeep(n, Restored(ms0[k])); !u.disabled && u.hp != 0 && Readied(u, k, ms0, kept)
      requires k < |fate.settle(Upkept(n), kept)| && fate.settle(Upkept(n), kept)[k].kind == ALLY
      ensures Took(fate, n, offset, k, kept, ms0, us0, fate.settle(Upkept(n), kept), us0, true)
    {
      hide InFront, Requeued, Restored, Healthy, EnemyTarget, Deed;
      assert SameLives(kept, fate.settle(Upkept(n), kept));
    }

    static lemma {:induction false} TookDeed(fate: Fate, n: nat, offset: int, k: nat, kept: seq<Member>, ms0: seq<Member>,
                                             us0: seq<Unit>, ms: seq<Member>, us: seq<Unit>)
      requires Tame(fate) && InFront(ms0, us0, k) && k < |ms0| && Healthy(kept)
      requires var u := fate.upkeep(n, Restored(ms0[k])); !u.disabled && u.hp != 0 && Readied(u, k, ms0, kept)
      requires var ready := fate.settle(Upkept(n), kept);
               k < |ready| && ready[k].kind == ENEMY
               && var target := EnemyTarget(ready, us0, fate.choice(n), k);
                  target.Some?
                  && var deed := Deed(fate, n, ready, us0, k, fate.choice(n).skill, target.value, false, offset);
                     deed.Ok? && ms == deed.value.ms && us == deed.value.us
      ensures Took(fate, n, offset, k, kept, ms0, us0, ms, us, false)
    {
      hide InFront, Requeued, Restored, Healthy, EnemyTarget, Deed;
      assert SameLives(kept, fate.settle(Upkept(n), kept));
    }

    /** The deed of the enemy at `k`, by the skill that was chosen for it. */
    method EnemyTurn(fate: Fate, k: nat, ghost before: seq<Member>, ghost b: int) returns (e: Option<BattleError>)
      requires Sound() && Tame(fate) && k < |members| && members[k].kind == ENEMY && actionNumber >= 0
      requires SameCast(before, members) && (Steady(fate) ==> InFront(members, units, k))
      modifies this`members, this`units, this`panels, this`panelsUsed
      ensures e.None? ==>
                var choice := fate.choice(actionNumber as nat);
                var target := EnemyTarget(old(members), old(units), choice, k);
                target.Some?
                && var deed := Deed(fate, actionNumber as nat, old(members), old(units), k, choice.skill, target.value, false, breakOffset);
                   deed.Ok? && members == deed.value.ms && units == deed.value.us
      ensures e.None? ==> Sound() && SameCast(old(members), members) && forall id | Living(members, id) :: Living(old(members), id)
      ensures e.None? ==> Some(panels) == Advance(waves[wave - 1].panelIds, old(panels))
      ensures e.None? ==> SameCast(before, members) && panelsUsed == old(panelsUsed) + 1 && Brings(fate, b, before, old(units), members, units)
      ensures e.Some? ==> e.value in {NoTarget, Refused(Unsupported), Refused(SlotsRefused), Refused(TurnRefused)}
                          && (Living(members, b) ==> Living(old(members), b)) && SameCast(before, members)
      ensures e == Some(Refused(TurnRefused)) ==> Beaten(fate, fate.choice(actionNumber as nat).skill)
      ensures e == Some(Refused(TurnRefused)) && Steady(fate) ==> SelfAimed(fate.choice(actionNumber as nat).skill)
    {
      hide Fit, EarliestLiving, MostInjured, InFront, Brings, Living, Untouched, BattleStatus, Overtaken, Heads, SelectTargets, Deed, SelfAimed, Beaten;
      ghost var begun, us := members, units;
      var n := actionNumber as nat;
      var choice := fate.choice(n);
      var target := EnemyTarget(members, units, choice, k);
      if target.None? { return Some(NoTarget); }
      DeedKeeps(fate, n, members, units, k, choice.skill, target.value, false, breakOffset);
      if Steady(fate) {
        if choice.skill.targetType !in {1, 2, 3, 4} { EarliestIsAlly(members, units, k, target.value); }
        SteadyEnemy(fate, n, members, units, k, choice.skill, target.value, breakOffset);
      }
      e := Perform(fate, k, choice.skill, target.value, false, true);
      if e.None? {
        CastTransitive(before, begun, members);
        EnemyBrings(fate, n, before, begun, us, k, choice.skill, target.value, breakOffset, b);
      } else {
        if e.value.Refused? {
          FitParts(begun, us);
          LivesKeepRoster(begun, members, us);
          CastTransitive(before, begun, members);
        }
      }
    }

    static lemma {:induction false} EnemyOrAlly(ms: seq<Member>, us: seq<Unit>, k: nat)
      requires Fit(ms, us) && k < |ms|
      ensures ms[k].kind == ALLY || ms[k].kind == ENEMY
    {
    }

    static lemma {:induction false} EarliestIsAlly(ms: seq<Member>, us: seq<Unit>, k: nat, id: int)
      requires Fit(ms, us) && k < |ms| && ms[k].kind == ENEMY
      requires EarliestLiving(ms, us, Some(ALLY)).Some? && id == EarliestLiving(ms, us, Some(ALLY)).value.id
      ensures id != ms[k].id
    {
      hide Manned, EarliestLiving;
      MannedDistinct(ms, us);
      var i :| 0 <= i < |ms| && ms[i] == EarliestLiving(ms, us, Some(ALLY)).value;
      assert i != k;
    }

    /**
     * The scheduler loop: waves, lost turns and enemy actions until the battle is over or an ally is in front. Every turn
     * counts once as a turn, once as an action and once as a panel; a wave counts as nothing. In each wave, an ally `b`
     * that nobody shifts or disables and that lives on is in front within its patience, so the limit on actions cannot
     * strike before.
     */
    method Schedule(fate: Fate, begun: nat, ghost b: int) returns (r: Result<nat, BattleError>, ghost ss: seq<Stretch>)
      requires Sound() && Tame(fate) && actionNumber >= 0
      modifies this
      ensures r.Ok? ==> Sound() && begun <= r.value && (Over() || Halted(fate))
      ensures r.Ok? && Steady(fate) ==> Over() || AllyToAct()
      ensures r.Ok? ==> var n := r.value - begun;
                        totalTurn == old(totalTurn) + n && actionNumber == old(actionNumber) + n
                        && panelsUsed == old(panelsUsed) + n
      ensures r.Ok? && r.value > begun ==> r.value <= MAX_ACTIONS
      ensures r.Err? ==> r.error in {NoMember, NoTarget, NoPanels, TooManyActions, Refused(Unsupported), Refused(SlotsRefused), Refused(TurnRefused)}
      ensures r == Err(Refused(TurnRefused)) ==> actionNumber >= 0 && Beaten(fate, fate.choice(actionNumber as nat).skill)
      ensures r == Err(Refused(TurnRefused)) && Steady(fate) ==> SelfAimed(fate.choice(actionNumber as nat).skill)
      ensures r.Ok? || r == Err(TooManyActions) ==>
                && ss != [] && Course(fate, waves, old(wave), ss) && |ss| == wave - old(wave) + 1 && ss[|ss| - 1].fin == members
                && ss[0].ms == old(members) && ss[0].us == old(units)
                && (r.Ok? ==> TurnsOf(ss) == r.value - begun) && (r.Err? ==> TurnsOf(ss) >= MAX_ACTIONS - begun)
                && (Untouched(fate, b) && IsAlly(old(members), b) && Living(members, b) ==> Patiently(ss, b))
    {
      hide Fit, EarliestLiving, Living, Untouched, IsAlly, Brings, Budget, Patience, BattleStatus, Awaits, SameCast, Has, Beaten, SelfAimed, AllyFront;
      hide Waiting, DistinctIds, Logged, Course, TurnsOf, Patiently, Opens, Took, Advance, Tame, Steady, WaveSound;
      var generated := begun;
      ghost var ms0, us0, from := members, units, begun;
      ghost var first, done := Stretch(members, units, 0, members), [];
      ss := [];
      Starts(fate, ms0, us0, b);
      LogBegins(fate, waves, wave, first);
      while true
        invariant Sound() && actionNumber >= 0 && generated >= from >= begun && wave >= old(wave)
        invariant totalTurn == old(totalTurn) + (generated - begun)
        invariant actionNumber == old(actionNumber) + (generated - begun)
        invariant panelsUsed == old(panelsUsed) + (generated - begun)
        invariant generated > begun ==> generated <= MAX_ACTIONS
        invariant Fit(ms0, us0) && Waiting(fate, b, ms0, us0, members, units, generated - from)
        invariant |done| == wave - old(wave) && TurnsOf(done) == from - begun
        invariant Logged(fate, waves, old(wave), first, done, Stretch(ms0, us0, 0, ms0))
        invariant Waited(fate, b, old(members), done, ms0, members)
        decreases |waves| - wave, MAX_ACTIONS - generated
      {
        ghost var here := Stretch(ms0, us0, generated - from, members);
        LogEnds(fate, waves, old(wave), first, done, Stretch(ms0, us0, 0, ms0), here);
        WaitedOn(fate, b, old(members), done, ms0, us0, members, units, generated - from);
        ss := done + [here];
        var status := BattleStatus(members);
        if status.None? { return Err(NoMember), ss; }
        if status == Some(Lost) { LogParts(fate, waves, old(wave), first, done, here); break; }
        if status == Some(Won) {
          if wave >= |waves| { LogParts(fate, waves, old(wave), first, done, here); break; }
          ghost var w, fin, queue := waves[wave], members, units;
          var e := NextWave(fate);
          if e.Some? { return Err(e.value), ss; }
          AllyEnters(fate, wave, fin, queue, w, b);
          LogGoesOn(fate, waves, old(wave), first, done, here, Stretch(members, units, 0, members));
          ms0, us0, from, done := members, units, generated, ss;
          Starts(fate, ms0, us0, b);
          continue;
        }
        if generated >= MAX_ACTIONS {
          LogParts(fate, waves, old(wave), first, done, here);
          return Err(TooManyActions), ss;
        }
        assert status.value.InBattle?;
        ghost var before, queued := members, units;
        FitParts(before, queued);
        ghost var k, kept;
        var e, halt;
        e, halt, k, kept := TakeTurn(fate, b);
        if e.Some? { return Err(e.value), ss; }
        StillWaiting(fate, b, ms0, us0, before, queued, members, units, generated - from, !halt);
        if halt {
          assert Halted(fate);
          here := Stretch(ms0, us0, generated - from, members);
          LogEnds(fate, waves, old(wave), first, done, Stretch(ms0, us0, 0, ms0), here);
          WaitedOn(fate, b, old(members), done, ms0, us0, members, units, generated - from);
          LogParts(fate, waves, old(wave), first, done, here);
          ss := done + [here];
          if Steady(fate) { SteadyAwaits(fate, actionNumber as nat, before, units, members); }
          break;
        }
        actionNumber := actionNumber + 1;
        totalTurn := totalTurn + 1;
        generated := generated + 1;
      }
      r := Ok(generated);
    }

    static lemma {:induction false} LogBegins(fate: Fate, waves: seq<Wave>, from: nat, first: Stretch)
      requires 1 <= from <= |waves|
      ensures Logged(fate, waves, from, first, [], first) && TurnsOf([]) == 0 && forall b :: Patiently([], b)
    {
      assert [] + [first] == [first];
    }

    static lemma {:induction false} LogParts(fate: Fate, waves: seq<Wave>, from: nat, first: Stretch, done: seq<Stretch>, s: Stretch)
      requires Logged(fate, waves, from, first, done, s)
      ensures var ss := done + [s];
              Course(fate, waves, from, ss) && ss[0].ms == first.ms && ss[0].us == first.us && ss[|ss| - 1] == s
    {
    }

    /** The loop stopped for an ally that was in front when it was picked. */
    ghost predicate Halted(fate: Fate)
      reads this
    {
      BattleStatus(members) == Some(InBattle) && actionNumber >= 0
      && exists picked :: Fit(picked, units) && BattleStatus(picked) == Some(InBattle) && Awaits(fate, actionNumber as nat, picked, units, members)
    }

    /** The targets of all tools, or none when one of them has none. */
    method Aim(tools: seq<Skill>) returns (aims: Option<seq<(Skill, int)>>)
      ensures aims == Aims(members, units, tools)
    {
      hide ToolTarget;
      var specs: seq<(Skill, int)> := [];
      var i := 0;
      while i < |tools|
        invariant 0 <= i <= |tools| && Aims(members, units, tools[..i]) == Some(specs)
      {
        var target := ToolTarget(members, units, tools[i]);
        AimNext(members, units, tools, i);
        if target.None? { return None; }
        specs := specs + [(tools[i], target.value)];
        i := i + 1;
      }
      assert tools[..i] == tools;
      aims := Some(specs);
    }

    /** The tools in order; the last of them uses up the panel. */
    method UseTools(fate: Fate, k: nat, specs: seq<(Skill, int)>) returns (e: Option<BattleError>)
      requires Sound() && Tame(fate) && k < |members| && actionNumber >= 0 && specs != []
      modifies this`members, this`units, this`panels, this`panelsUsed, this`actionNumber
      ensures e.None? ==> Sound() && panelsUsed == old(panelsUsed) + 1 && actionNumber == old(actionNumber) + |specs|
                          && Some(panels) == Advance(waves[wave - 1].panelIds, old(panels))
      ensures var r := UseEach(fate, old(actionNumber) as nat, old(members), old(units), k, specs, breakOffset);
              if r.Err? then e == Some(r.error) else e.None? && (members, units) == r.value
    {
      hide Fit, Deed, Overtaken, Sorted, Heads, Beaten, Advance, Tame, WaveSound;
      var used := 0;
      while used < |specs|
        invariant 0 <= used <= |specs| && Sound() && |members| == |old(members)|
        invariant actionNumber == old(actionNumber) + used
        invariant panelsUsed == old(panelsUsed) + (if used == |specs| then 1 else 0)
        invariant if used == |specs| then Some(panels) == Advance(waves[wave - 1].panelIds, old(panels)) else panels == old(panels)
        invariant UseEach(fate, old(actionNumber) as nat, old(members), old(units), k, specs, breakOffset)
                  == UseEach(fate, actionNumber as nat, members, units, k, specs[used..], breakOffset)
      {
        assert specs[used..][1..] == specs[used + 1..];
        DeedKeeps(fate, actionNumber as nat, members, units, k, specs[used].0, specs[used].1, true, breakOffset);
        e := Perform(fate, k, specs[used].0, specs[used].1, true, used + 1 == |specs|);
        if e.Some? { return; }
        actionNumber := actionNumber + 1;
        used := used + 1;
      }
      e := None;
    }

    /** The command of the player in front: all tools are aimed before the first is used, and share one panel. */
    method PlayerActions(fate: Fate, k: nat, cmd: Command) returns (e: Option<BattleError>)
      requires Sound() && Tame(fate) && InFront(members, units, k) && actionNumber >= 0
      requires cmd.UseTools? ==> cmd.tools != []
      modifies this`members, this`units, this`panels, this`panelsUsed, this`actionNumber
      ensures e.None? ==> Sound() && panelsUsed == old(panelsUsed) + 1 && actionNumber == old(actionNumber) + ActionsOf(cmd)
                          && Some(panels) == Advance(waves[wave - 1].panelIds, old(panels))
      ensures var r := Commanded(fate, old(actionNumber) as nat, old(members), old(units), k, cmd, breakOffset);
              if r.Err? then e == Some(r.error) else e.None? && (members, units) == r.value
      ensures e.Some? ==> e.value in {NoTarget, Refused(Unsupported), Refused(SlotsRefused), Refused(TurnRefused)}
      ensures e == Some(Refused(TurnRefused)) ==> cmd.UseSkill? && Beaten(fate, cmd.skill)
      ensures e == Some(Refused(TurnRefused)) && Steady(fate) ==>
                cmd.skill.targetType !in {3, 5} && (cmd.skill.effectType == DAMAGE || cmd.skill.slots != [])
                && (cmd.skill.targetType == 6 ==> cmd.target == old(members)[k].id)
    {
      hide Fit, Deed, Overtaken, Sorted, Heads, Beaten, ToolTarget, Advance, Tame, Steady, WaveSound;
      CommandKeeps(fate, actionNumber as nat, members, units, k, cmd, breakOffset);
      if cmd.UseSkill? {
        HeadsIsHead(SpeedTable(members), units, members[k].id);
        DeedKeeps(fate, actionNumber as nat, members, units, k, cmd.skill, cmd.target, false, breakOffset);
        if Steady(fate) && Overtaken(fate, actionNumber as nat, members, units, k, cmd.skill, cmd.target, breakOffset) {
          SteadyDeed(fate, actionNumber as nat, members, units, k, cmd.skill, cmd.target, breakOffset);
        }
        e := Perform(fate, k, cmd.skill, cmd.target, false, true);
        if e.None? { actionNumber := actionNumber + 1; }
        return;
      }
      var aimed := Aim(cmd.tools);
      if aimed.None? { return Some(NoTarget); }
      e := UseTools(fate, k, aimed.value);
    }

    /**
     * A whole attack request, under any changes of speed. The runtime first rewrites the members; the request is refused
     * exactly when no battle goes on or no ally is in front after that. Otherwise it ends with the battle over or an ally
     * awaited; the turn counter moves by exactly the panels used, and the action counter by exactly the generated actions,
     * of which a command of n tools counts n against one panel. From what the command has left of the battle, and in each
     * wave that follows, an ally `b` that nobody shifts or disables and that lives on waits no longer than its patience.
     */
    method Attack(fate: Fate, cmd: Command, toolLimit: int, ghost b: int) returns (r: Result<nat, BattleError>, ghost ss: seq<Stretch>)
      requires Sound() && Tame(fate)
      modifies this
      ensures r.Ok? ==> Sound() && Turned() && totalTurn >= 2 && (Over() || Halted(fate))
      ensures r.Ok? && Steady(fate) ==> Over() || AllyToAct()
      ensures r == Err(NotInBattle) <==> BattleStatus(old(members)) != Some(InBattle)
      ensures r == Err(NotAllyTurn) <==>
                BattleStatus(old(members)) == Some(InBattle)
                && !AllyFront(fate.settle(Request(Max(old(totalTurn), 1)), old(members)), old(units))
      ensures r.Ok? ==> var turn := Max(old(totalTurn), 1);
                        && panelsUsed > old(panelsUsed)
                        && totalTurn == turn + (panelsUsed - old(panelsUsed))
                        && actionNumber == Max(old(actionNumber), turn) + r.value
                        && r.value == (panelsUsed - old(panelsUsed) - 1) + ActionsOf(cmd)
      ensures r.Ok? || r == Err(TooManyActions) ==>
                var turn := Max(old(totalTurn), 1);
                var ready := fate.settle(Request(turn), old(members));
                && Fit(ready, old(units)) && Max(old(actionNumber), turn) >= 0 && ss != [] && Course(fate, waves, old(wave), ss)
                && Answers(fate, Max(old(actionNumber), turn) as nat, ready, old(units), cmd, breakOffset, ss[0])
                && (r.Ok? ==> TurnsOf(ss) == panelsUsed - old(panelsUsed) - 1)
                && (r.Err? ==> TurnsOf(ss) >= 10000 - ActionsOf(cmd))
                && (Untouched(fate, b) && IsAlly(old(members), b) && Living(members, b) ==> Patiently(ss, b))
      ensures r.Err? ==> r.error !in {Refused(UnknownActor), Refused(UnknownTarget), Refused(BreakRefused), Refused(RemovalRefused)}
      ensures r == Err(Refused(TurnRefused)) ==> exists skill :: Beaten(fate, skill)
      ensures r == Err(Refused(TurnRefused)) && Steady(fate) ==>
                || (exists n :: SelfAimed(fate.choice(n).skill))
                || (cmd.UseSkill? && cmd.skill.targetType !in {3, 5} && (cmd.skill.effectType == DAMAGE || cmd.skill.slots != []))
    {
      hide Fit, EarliestLiving, BattleStatus, Beaten, Awaits, SelfAimed, Halted, Sorted, Untouched, IsAlly, Patience, Living, Has;
      hide Course, TurnsOf, Patiently, Commanded, Overtaken, InFront, Answers, SameCast, Healthy, Advance, Tame, Steady, WaveSound;
      ss := [];
      var turnNumber := Max(totalTurn, 1);
      Settle(fate, Request(turnNumber));
      LivesKeepRoster(old(members), members, units);
      if BattleStatus(members) != Some(InBattle) { return Err(NotInBattle), ss; }
      actionNumber := Max(actionNumber, turnNumber);
      var k := CurrentActor();
      InFrontParts(members, units, k);
      if members[k].kind != ALLY { return Err(NotAllyTurn), ss; }
      if cmd.UseTools? && (cmd.tools == [] || |cmd.tools| > toolLimit) { return Err(BadTools), ss; }
      ghost var ready, n := members, actionNumber as nat;
      CommandKeeps(fate, n, members, units, k, cmd, breakOffset);
      var e := PlayerActions(fate, k, cmd);
      if e.Some? { return Err(e.value), ss; }
      totalTurn := turnNumber + 1;
      AnswersBy(fate, n, ready, old(units), k, cmd, breakOffset, Stretch(members, units, 0, members));
      CastTransitive(old(members), ready, members);
      CastKeepsAlly(old(members), members, b);
      r, ss := Schedule(fate, ActionsOf(cmd), b);
    }

    static lemma {:induction false} AnswersBy(fate: Fate, n: nat, ms: seq<Member>, us: seq<Unit>, k: nat, cmd: Command, offset: int, s: Stretch)
      requires Fit(ms, us) && Tame(fate) && k < |ms| && InFront(ms, us, k)
      requires Commanded(fate, n, ms, us, k, cmd, offset) == Ok((s.ms, s.us))
      ensures forall t: Stretch | t.ms == s.ms && t.us == s.us :: Answers(fate, n, ms, us, cmd, offset, t)
    {
      hide Fit, InFront, Commanded;
    }

    static lemma {:induction false} CastKeepsAlly(x: seq<Member>, y: seq<Member>, b: int)
      requires SameCast(x, y)
      ensures IsAlly(x, b) ==> IsAlly(y, b)
    {
      if IsAlly(x, b) {
        var i :| 0 <= i < |x| && x[i].id == b && x[i].kind == ALLY;
        assert y[i].id == b && y[i].kind == ALLY;
      }
    }
  }
}
