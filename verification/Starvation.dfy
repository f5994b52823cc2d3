/** No member waits for ever: a bound on the turns others can take before `b` reaches the head. */
module Starvation {
  import opened Prelude
  import opened Counting
  import opened BattleModel
  import opened Timeline

  /** One change to the queue, with the speeds in force at that moment. */
  datatype Step =
    | Turn(sp: Speeds, id: int, selected: int, default: int, preserve: bool)
    | DelayByWait(sp: Speeds, id: int, wait: int)
    | DelayBySlot(sp: Speeds, id: int, slots: nat)
    | Removal(sp: Speeds, ids: seq<int>)

  /** The queue after an accepted step. */
  function Apply(us: seq<Unit>, step: Step): Option<seq<Unit>> {
    match step
    case Turn(sp, id, selected, default, preserve) =>
      if TurnAllowed(sp, us, id) then Some(AfterTurn(sp, us, id, selected, default, preserve)) else None
    case DelayByWait(sp, id, wait) =>
      if 2 <= Owned(us, id) <= 3 then Some(AfterDelay(sp, us, id, Max(wait, 0))) else None
    case DelayBySlot(sp, id, slots) =>
      var d := SlotDelay(Sorted(sp, us), id, slots);
      if d.Some? then Some(AfterDelay(sp, us, id, d.value)) else None
    case Removal(sp, ids) => Some(Without(Sorted(sp, us), ids))
  }

  /** The step is somebody else's: `b` neither acts nor is delayed nor leaves. */
  predicate Spares(step: Step, b: int) {
    match step
    case Removal(_, ids) => b !in ids
    case _ => step.id != b
  }

  function Run(us: seq<Unit>, steps: seq<Step>): Option<seq<Unit>>
    decreases |steps|
  {
    if steps == [] then Some(us)
    else match Apply(us, steps[0])
      case None => None
      case Some(next) => Run(next, steps[1..])
  }

  function Turns(steps: seq<Step>): nat {
    if steps == [] then 0 else (if steps[0].Turn? then 1 else 0) + Turns(steps[1..])
  }

  // ----- the potential -------------------------------------------------------------------------

  function Earliest(us: seq<Unit>): (w: int)
    requires us != []
    ensures exists i | 0 <= i < |us| :: us[i].wait == w
    ensures forall i | 0 <= i < |us| :: w <= us[i].wait
  {
    if |us| == 1 then us[0].wait
    else
      assert us == [us[0]] + us[1..];
      Min(us[0].wait, Earliest(us[1..]))
  }

  /** Units of others that are due at time `t`. */
  function Due(b: int, t: int): Unit -> bool {
    (u: Unit) => u.member != b && u.wait <= t
  }

  /** Distance from the earliest unit of the queue to the earliest unit of `b`. */
  function Lag(us: seq<Unit>, b: int): (w: nat)
    requires Has(us, b)
  {
    MinWait(us, b) - Earliest(us)
  }

  function Rivals(us: seq<Unit>, b: int): nat {
    Count(us, Others(b))
  }

  /** Every unit of a rival may act once per tick of the lag, and those due now once more. */
  function Budget(us: seq<Unit>, b: int): nat
    requires Has(us, b)
  {
    Rivals(us, b) * Lag(us, b) + Count(us, Due(b, Earliest(us)))
  }

  lemma {:induction false} MinWaitIs(us: seq<Unit>, id: int, w: int, i: nat)
    requires i < |us| && us[i].member == id && us[i].wait == w
    requires forall j | 0 <= j < |us| && us[j].member == id :: w <= us[j].wait
    ensures Has(us, id) && MinWait(us, id) == w
  {
  }

  lemma {:induction false} DueAtMostRivals(us: seq<Unit>, b: int, t: int)
    ensures Count(us, Due(b, t)) <= Rivals(us, b)
  {
    CountMonotone(us, Due(b, t), us, Others(b));
  }

  lemma {:induction false} Partner(a: seq<Unit>, c: seq<Unit>, i: nat) returns (j: nat)
    requires multiset(a) == multiset(c) && i < |a|
    ensures j < |c| && c[j] == a[i]
  {
    assert a[i] in multiset(c);
    j :| 0 <= j < |c| && c[j] == a[i];
  }

  /** Order does not matter to the ingredients of the budget. */
  lemma {:induction false} BudgetPermutation(a: seq<Unit>, c: seq<Unit>, b: int)
    requires multiset(a) == multiset(c) && Has(a, b)
    ensures Has(c, b) && Rivals(a, b) == Rivals(c, b) && MinWait(a, b) == MinWait(c, b) && Earliest(a) == Earliest(c)
    ensures forall t :: Count(a, Due(b, t)) == Count(c, Due(b, t))
  {
    CountPermutation(a, c, Others(b));
    forall t ensures Count(a, Due(b, t)) == Count(c, Due(b, t)) {
      CountPermutation(a, c, Due(b, t));
    }
    forall j | 0 <= j < |c| ensures Earliest(a) <= c[j].wait && (c[j].member == b ==> MinWait(a, b) <= c[j].wait) {
      var q := Partner(c, a, j);
    }
    var i :| 0 <= i < |a| && a[i].member == b && a[i].wait == MinWait(a, b);
    var j := Partner(a, c, i);
    MinWaitIs(c, b, MinWait(a, b), j);
    var k :| 0 <= k < |a| && a[k].wait == Earliest(a);
    var l := Partner(a, c, k);
  }

  /** A budget cannot grow when rivals only move back or disappear. */
  lemma {:induction false} BudgetMonotone(us: seq<Unit>, vs: seq<Unit>, b: int)
    requires Has(us, b) && Has(vs, b) && MinWait(us, b) == MinWait(vs, b)
    requires Rivals(vs, b) <= Rivals(us, b) && Earliest(us) <= Earliest(vs)
    requires forall t :: Count(vs, Due(b, t)) <= Count(us, Due(b, t))
    ensures Budget(vs, b) <= Budget(us, b)
  {
    hide Count, MinWait, Earliest, Has;
    DueAtMostRivals(vs, b, Earliest(vs));
    Shrinking(Rivals(us, b), Rivals(vs, b), Lag(us, b), Lag(vs, b), Count(us, Due(b, Earliest(us))), Count(vs, Due(b, Earliest(vs))));
  }

  lemma {:induction false} MulMonotone(a: nat, c: nat, k: nat)
    requires a <= c
    ensures a * k <= c * k
  {
  }

  lemma {:induction false} Shrinking(n: nat, m: nat, w: nat, v: nat, z: nat, y: nat)
    requires m <= n && v <= w && y <= m && (v == w ==> y <= z)
    ensures m * v + y <= n * w + z
  {
    MulMonotone(m, n, v);
    if v < w {
      MulMonotone(v + 1, w, n);
      assert (v + 1) * n == n * v + n;
    }
  }

  // ----- what each step does to the budget -----------------------------------------------------

  /** Before the final sort: the head is gone, the written units are later, `b` is where it was. */
  lemma {:induction false} PendingSpends(s: seq<Unit>, futures: seq<Unit>, back: Unit, a: int, b: int)
    requires a != b && |s| == |futures| + 1 && s[0].member == a == back.member && s[0].wait >= 0 && back.wait >= 1
    requires forall i | 0 <= i < |s| :: s[0].wait <= s[i].wait
    requires forall i | 0 <= i < |futures| :: SamePlacement(s[i + 1], futures[i])
    requires forall i | 0 <= i < |futures| && futures[i].member != a :: futures[i].wait == s[i + 1].wait - s[0].wait
    requires forall i | 0 <= i < |futures| :: futures[i].wait == s[i + 1].wait - s[0].wait || futures[i].wait >= 1
    requires Has(s, b)
    ensures var pending := futures + [back];
            && Has(pending, b) && MinWait(pending, b) == MinWait(s, b) - s[0].wait
            && Rivals(pending, b) == Rivals(s, b)
            && Count(pending, Due(b, 0)) + 1 <= Count(s, Due(b, s[0].wait))
  {
    var pending, h := futures + [back], s[0].wait;
    var i :| 0 <= i < |s| && s[i].member == b && s[i].wait == MinWait(s, b);
    assert SamePlacement(s[i], pending[i - 1]);
    MinWaitIs(pending, b, MinWait(s, b) - h, i - 1);
    CountConcat(futures, [back], Others(b));
    CountPointwise(s[1..], Others(b), futures, Others(b));
    CountConcat(futures, [back], Due(b, 0));
    CountMonotone(futures, Due(b, 0), s[1..], Due(b, h));
  }

  lemma {:induction false} TurnSpends(sp: Speeds, us: seq<Unit>, a: int, selected: int, default: int, preserve: bool, b: int)
    requires TurnAllowed(sp, us, a) && a != b && NonNegative(us) && Has(us, b)
    ensures var after := AfterTurn(sp, us, a, selected, default, preserve);
            NonNegative(after) && Has(after, b) && Budget(after, b) < Budget(us, b)
  {
    hide Sorted, Count, MinWait, Earliest, Pending, Ordered, Has, Budget, Rivals;
    var s := Sorted(sp, us);
    var pending := Pending(s, a, selected, default, preserve);
    HeadSpends(sp, us, a, selected, default, preserve, b);
    SortedPermutes(sp, pending);
    SortedWaits(sp, pending);
    BudgetPermutation(pending, Sorted(sp, pending), b);
    FromHeadBudget(Sorted(sp, pending), b);
    TurnNormalises(sp, us, a, selected, default, preserve);
    Spending(us, s[0].wait, pending, Sorted(sp, pending)[0].wait, AfterTurn(sp, us, a, selected, default, preserve), b);
  }

  lemma {:induction false} HeadSpends(sp: Speeds, us: seq<Unit>, a: int, selected: int, default: int, preserve: bool, b: int)
    requires TurnAllowed(sp, us, a) && a != b && NonNegative(us) && Has(us, b)
    ensures var s := Sorted(sp, us);
            var pending := Pending(s, a, selected, default, preserve);
            && Has(pending, b) && Earliest(us) == s[0].wait && MinWait(pending, b) == MinWait(us, b) - s[0].wait
            && Rivals(pending, b) == Rivals(us, b) && Sorted(sp, pending)[0].wait >= 0
            && Count(pending, Due(b, 0)) + 1 <= Count(us, Due(b, s[0].wait))
  {
    hide Sorted, Count, MinWait, Pending, Ordered, Has;
    var s := Sorted(sp, us);
    SortedWaits(sp, us);
    SortedPermutes(sp, us);
    BudgetPermutation(us, s, b);
    PendingAhead(sp, us, a, selected, default, preserve);
    PendingParts(s, a, selected, default, preserve);
    PendingSpends(s, Futures(s, a, selected, preserve), Pending(s, a, selected, default, preserve)[|us| - 1], a, b);
  }

  lemma {:induction false} PendingParts(s: seq<Unit>, a: int, selected: int, default: int, preserve: bool)
    requires HeadMayAct(s, a)
    ensures var pending := Pending(s, a, selected, default, preserve);
            pending == Futures(s, a, selected, preserve) + [pending[|s| - 1]] && pending[|s| - 1].member == a
  {
  }

  /** Counting from the head moves everything together. */
  lemma {:induction false} FromHeadBudget(s: seq<Unit>, b: int)
    requires Has(s, b) && forall i | 0 <= i < |s| :: s[0].wait <= s[i].wait
    ensures var r := FromHead(s);
            && Has(r, b) && Rivals(r, b) == Rivals(s, b) && Earliest(r) == 0 && Earliest(s) == s[0].wait
            && MinWait(r, b) == MinWait(s, b) - s[0].wait && Count(r, Due(b, 0)) == Count(s, Due(b, s[0].wait))
  {
    var r := FromHead(s);
    var i :| 0 <= i < |s| && s[i].member == b && s[i].wait == MinWait(s, b);
    assert r[i] == s[i].(wait := s[i].wait - s[0].wait);
    MinWaitIs(r, b, MinWait(s, b) - s[0].wait, i);
    CountPointwise(r, Others(b), s, Others(b));
    CountPointwise(r, Due(b, 0), s, Due(b, s[0].wait));
    assert r[0].wait == 0;
  }

  /** The arithmetic of one turn: either time stands still and one due unit is used up, or the lag shrinks. */
  lemma {:induction false} Spending(us: seq<Unit>, h: int, pending: seq<Unit>, e: int, after: seq<Unit>, b: int)
    requires Has(us, b) && Has(pending, b) && Has(after, b)
    requires Earliest(us) == h && Earliest(pending) == e >= 0 && Earliest(after) == 0
    requires MinWait(pending, b) == MinWait(us, b) - h && MinWait(after, b) == MinWait(pending, b) - e
    requires Rivals(us, b) == Rivals(pending, b) == Rivals(after, b)
    requires Count(pending, Due(b, 0)) + 1 <= Count(us, Due(b, h))
    requires Count(after, Due(b, 0)) == Count(pending, Due(b, e))
    ensures Budget(after, b) < Budget(us, b)
  {
    hide Count, MinWait, Earliest, Has;
    DueAtMostRivals(pending, b, e);
    Shrinking(Rivals(us, b), Rivals(us, b), Lag(us, b), Lag(after, b), Count(us, Due(b, h)) - 1, Count(after, Due(b, 0)));
  }

  /** Delays of others never cost `b` anything. */
  lemma {:induction false} DelayKeepsBudget(sp: Speeds, us: seq<Unit>, a: int, d: int, b: int)
    requires a != b && d >= 0 && NonNegative(us) && Has(us, b)
    ensures var after := AfterDelay(sp, us, a, d);
            NonNegative(after) && Has(after, b) && Budget(after, b) <= Budget(us, b)
  {
    hide Sorted, Count, Earliest, MinWait;
    var s := Sorted(sp, us);
    SortedPermutes(sp, us);
    SortedWaits(sp, us);
    BudgetPermutation(us, s, b);
    var r := Delayed(s, a, d);
    DelayedBudget(s, a, d, b);
    SortedPermutes(sp, r);
    SortedWaits(sp, r);
    BudgetPermutation(r, Sorted(sp, r), b);
    BudgetMonotone(us, AfterDelay(sp, us, a, d), b);
  }

  lemma {:induction false} DelayedBudget(s: seq<Unit>, a: int, d: int, b: int)
    requires a != b && d >= 0 && Has(s, b)
    ensures var r := Delayed(s, a, d);
            && Has(r, b) && MinWait(r, b) == MinWait(s, b) && Rivals(r, b) == Rivals(s, b) && Earliest(s) <= Earliest(r)
            && (NonNegative(s) ==> NonNegative(r))
            && forall t :: Count(r, Due(b, t)) <= Count(s, Due(b, t))
  {
    hide Count, Rivals;
    var r := Delayed(s, a, d);
    var i :| 0 <= i < |s| && s[i].member == b && s[i].wait == MinWait(s, b);
    assert r[i] == s[i];
    MinWaitIs(r, b, MinWait(s, b), i);
    DelayedDue(s, a, d, b);
  }

  lemma {:induction false} DelayedDue(s: seq<Unit>, a: int, d: int, b: int)
    requires d >= 0
    ensures Rivals(Delayed(s, a, d), b) == Rivals(s, b)
    ensures forall t :: Count(Delayed(s, a, d), Due(b, t)) <= Count(s, Due(b, t))
  {
    hide Count;
    var r := Delayed(s, a, d);
    CountPointwise(r, Others(b), s, Others(b));
    forall t ensures Count(r, Due(b, t)) <= Count(s, Due(b, t)) {
      CountMonotone(r, Due(b, t), s, Due(b, t));
    }
  }

  lemma {:induction false} RemovalKeepsBudget(sp: Speeds, us: seq<Unit>, ids: seq<int>, b: int)
    requires b !in ids && NonNegative(us) && Has(us, b)
    ensures var after := Without(Sorted(sp, us), ids);
            NonNegative(after) && Has(after, b) && Budget(after, b) <= Budget(us, b)
  {
    hide Sorted, Count, Earliest, MinWait, Without;
    var s := Sorted(sp, us);
    SortedPermutes(sp, us);
    SortedWaits(sp, us);
    BudgetPermutation(us, s, b);
    WithoutBudget(s, ids, b);
    BudgetMonotone(us, Without(s, ids), b);
  }

  /** When the member in front dies, its units go, and the others are a turn closer. */
  lemma {:induction false} DeathSpends(sp: Speeds, us: seq<Unit>, ids: seq<int>, b: int)
    requires us != [] && Sorted(sp, us)[0].member in ids && b !in ids && NonNegative(us) && Has(us, b)
    ensures var after := Without(Sorted(sp, us), ids);
            NonNegative(after) && Has(after, b) && Budget(after, b) < Budget(us, b)
  {
    hide Sorted, Count, Earliest, MinWait, Without, Has;
    var s := Sorted(sp, us);
    SortedPermutes(sp, us);
    SortedWaits(sp, us);
    BudgetPermutation(us, s, b);
    WithoutBudget(s, ids, b);
    var h := s[0].wait;
    assert Earliest(s) == h by { FromHeadBudget(s, b); }
    HeadGone(s, ids, b);
    var r := Without(s, ids);
    DueAtMostRivals(r, b, Earliest(r));
    Shrinking(Rivals(us, b), Rivals(r, b), Lag(us, b), Lag(r, b), Count(us, Due(b, h)) - 1, Count(r, Due(b, Earliest(r))));
  }

  lemma {:induction false} HeadGone(s: seq<Unit>, ids: seq<int>, b: int)
    requires s != [] && s[0].member in ids && b !in ids
    ensures Count(Without(s, ids), Due(b, s[0].wait)) + 1 <= Count(s, Due(b, s[0].wait))
  {
    RemovalKeeps(s[1..], ids, Due(b, s[0].wait));
    assert Without(s, ids) == Without(s[1..], ids);
  }

  lemma {:induction false} WithoutBudget(s: seq<Unit>, ids: seq<int>, b: int)
    requires b !in ids && Has(s, b)
    ensures var r := Without(s, ids);
            && Has(r, b) && MinWait(r, b) == MinWait(s, b) && Rivals(r, b) <= Rivals(s, b) && Earliest(s) <= Earliest(r)
            && (NonNegative(s) ==> NonNegative(r))
            && forall t :: Count(r, Due(b, t)) <= Count(s, Due(b, t))
  {
    var r := Without(s, ids);
    RemovalKeeps(s, ids, Others(b));
    forall t ensures Count(r, Due(b, t)) <= Count(s, Due(b, t)) {
      RemovalKeeps(s, ids, Due(b, t));
    }
    var i :| 0 <= i < |s| && s[i].member == b && s[i].wait == MinWait(s, b);
    var j := Survivor(s, ids, i);
    MinWaitIs(r, b, MinWait(s, b), j);
  }

  lemma {:induction false} Survivor(s: seq<Unit>, ids: seq<int>, i: nat) returns (j: nat)
    requires i < |s| && s[i].member !in ids
    ensures j < |Without(s, ids)| && Without(s, ids)[j] == s[i]
  {
    if i == 0 {
      j := 0;
    } else {
      j := Survivor(s[1..], ids, i - 1);
      j := if s[0].member in ids then j else j + 1;
    }
  }

  // ----- the theorem ---------------------------------------------------------------------------

  lemma {:induction false} StepSpends(us: seq<Unit>, step: Step, b: int)
    requires Apply(us, step).Some? && Spares(step, b) && NonNegative(us) && Has(us, b)
    ensures var after := Apply(us, step).value;
            NonNegative(after) && Has(after, b)
            && Budget(after, b) + (if step.Turn? then 1 else 0) <= Budget(us, b)
  {
    hide Sorted, Budget, AfterTurn, AfterDelay, Without, Owned;
    match step
    case Turn(sp, id, selected, default, preserve) => TurnSpends(sp, us, id, selected, default, preserve, b);
    case DelayByWait(sp, id, wait) => DelayKeepsBudget(sp, us, id, Max(wait, 0), b);
    case DelayBySlot(sp, id, slots) => DelayKeepsBudget(sp, us, id, SlotDelay(Sorted(sp, us), id, slots).value, b);
    case Removal(sp, ids) => RemovalKeepsBudget(sp, us, ids, b);
  }

  lemma {:induction false} RunSpends(us: seq<Unit>, steps: seq<Step>, b: int)
    requires Run(us, steps).Some? && NonNegative(us) && Has(us, b)
    requires forall i | 0 <= i < |steps| :: Spares(steps[i], b)
    ensures Turns(steps) <= Budget(us, b)
    ensures Has(Run(us, steps).value, b)
    decreases |steps|
  {
    hide Apply, Budget, Has;
    if steps != [] {
      StepSpends(us, steps[0], b);
      RunSpends(Apply(us, steps[0]).value, steps[1..], b);
    }
  }

  /**
   * No starvation. While `b` is left alone, the others take at most (their units) x (lag + 1) turns, whatever mix of
   * turns, delays and removals of others the run contains and however speeds change on the way.
   */
  lemma {:induction false} NoStarvation(us: seq<Unit>, steps: seq<Step>, b: int)
    requires Run(us, steps).Some? && NonNegative(us) && Has(us, b)
    requires forall i | 0 <= i < |steps| :: Spares(steps[i], b)
    ensures Turns(steps) <= Rivals(us, b) * (Lag(us, b) + 1)
  {
    hide Run, Count, MinWait, Earliest, Has;
    RunSpends(us, steps, b);
    DueAtMostRivals(us, b, Earliest(us));
    assert Rivals(us, b) * (Lag(us, b) + 1) == Rivals(us, b) * Lag(us, b) + Rivals(us, b);
  }
}
