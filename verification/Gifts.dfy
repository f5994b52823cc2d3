/** Friendship levels (the closeness and reward part of present_execute, src/state/activities/gifts.rs). */
module Gifts {
  import opened Prelude
  import opened Division

  /** A row of the closeness table; the rows of one present are sorted by closeness. */
  datatype Level = Level(closeness: int, cost: int, rewards: seq<int>)

  datatype Friendship = Friendship(total: int, rest: int, closeness: int, received: int)

  predicate Sorted(levels: seq<Level>) {
    forall i, j | 0 <= i < j < |levels| :: levels[i].closeness < levels[j].closeness
  }

  function Last(levels: seq<Level>): Level
    requires levels != []
  {
    levels[|levels| - 1]
  }

  /** How many thresholds a total pays for, one after the other; None on meeting a negative one. */
  function Paid(levels: seq<Level>, total: int): (n: Option<nat>)
    ensures n.Some? ==> n.value <= |levels|
  {
    if levels == [] then Some(0)
    else if levels[0].cost < 0 then None
    else if total < levels[0].cost then Some(0)
    else match Paid(levels[1..], total - levels[0].cost)
      case None => None
      case Some(n) => Some(n + 1)
  }

  function Cost(levels: seq<Level>, n: nat): int
    requires n <= |levels|
  {
    if n == 0 then 0 else levels[0].cost + Cost(levels[1..], n - 1)
  }

  function Reached(levels: seq<Level>, n: nat): int
    requires n <= |levels|
  {
    if n == 0 then 1 else levels[n - 1].closeness
  }

  /** (closeness, rest) for a total; past the last row its threshold repeats. */
  function Progress(levels: seq<Level>, total: int): Option<(int, int)> {
    if levels == [] || Last(levels).cost <= 0 then None
    else match Paid(levels, total)
      case None => None
      case Some(n) =>
        var reached, rest := Reached(levels, n), total - Cost(levels, n);
        if reached == Last(levels).closeness then Some((reached + rest / Last(levels).cost, rest % Last(levels).cost))
        else Some((reached, rest))
  }

  /** The reward rows above `received` and up to `closeness`, in order. */
  function Rewards(levels: seq<Level>, received: int, closeness: int): seq<int> {
    if levels == [] then []
    else (if received < levels[0].closeness <= closeness then levels[0].rewards else []) + Rewards(levels[1..], received, closeness)
  }

  /** One request that gains points: the new state and the rewards. */
  function Give(levels: seq<Level>, f: Friendship, gained: int): Option<(Friendship, seq<int>)> {
    match Progress(levels, f.total + gained)
    case None => None
    case Some((closeness, rest)) =>
      Some((Friendship(f.total + gained, rest, closeness, Max(closeness, f.received)), Rewards(levels, f.received, closeness)))
  }

  // ----- accounting ----------------------------------------------------------------------------

  lemma {:induction false} PaidExactly(levels: seq<Level>, total: int)
    requires Paid(levels, total).Some? && total >= 0
    ensures var n := Paid(levels, total).value;
            && 0 <= Cost(levels, n) <= total
            && (n < |levels| ==> total - Cost(levels, n) < levels[n].cost)
            && forall i | 0 <= i < n :: levels[i].cost >= 0
    decreases |levels|
  {
    if levels != [] && total >= levels[0].cost {
      PaidExactly(levels[1..], total - levels[0].cost);
    }
  }

  lemma {:induction false} ReachedLast(levels: seq<Level>, n: nat)
    requires Sorted(levels) && levels != [] && n <= |levels| && levels[0].closeness >= 1
    ensures Reached(levels, n) == Last(levels).closeness <==> n == |levels| || (n == 0 && Last(levels).closeness == 1)
    ensures Last(levels).closeness == 1 ==> |levels| == 1
  {
  }

  /**
   * The total is made up of the thresholds passed, whole repetitions of the last one, and a rest below the next
   * threshold; repetitions count only once every row is passed.
   */
  lemma {:induction false} ProgressAccounts(levels: seq<Level>, total: int)
    requires Sorted(levels) && (levels != [] ==> levels[0].closeness >= 1) && total >= 0 && Progress(levels, total).Some?
    ensures var (closeness, rest) := Progress(levels, total).value;
            var n := Paid(levels, total).value;
            var extra := closeness - Reached(levels, n);
            && total == Cost(levels, n) + extra * Last(levels).cost + rest && rest >= 0 && extra >= 0
            && (if n < |levels| then extra == 0 && rest < levels[n].cost else rest < Last(levels).cost)
            && n <= |levels| && closeness == (if n == 0 then 1 else levels[n - 1].closeness) + extra
  {
    hide Paid, Cost;
    var n := Paid(levels, total).value;
    PaidExactly(levels, total);
    ReachedLast(levels, n);
    var left, last := total - Cost(levels, n), Last(levels).cost;
    assert left == left / last * last + left % last;
    Quotient(left, last);
    if n < |levels| && Reached(levels, n) == Last(levels).closeness {
      assert left < levels[0].cost == last;
      QuotientIs(left, last, 0, left);
    }
  }

  // ----- monotonicity --------------------------------------------------------------------------

  lemma {:induction false} PaidMonotone(levels: seq<Level>, a: int, b: int)
    requires a <= b && Paid(levels, b).Some?
    ensures Paid(levels, a).Some? && Paid(levels, a).value <= Paid(levels, b).value
    decreases |levels|
  {
    if levels != [] && b >= levels[0].cost && a >= levels[0].cost {
      PaidMonotone(levels[1..], a - levels[0].cost, b - levels[0].cost);
    }
  }

  /** More points never lower the closeness, and points that are accepted are accepted in smaller portions. */
  lemma {:induction false} ClosenessMonotone(levels: seq<Level>, a: int, b: int)
    requires Sorted(levels) && (levels != [] ==> levels[0].closeness >= 1) && 0 <= a <= b && Progress(levels, b).Some?
    ensures Progress(levels, a).Some? && Progress(levels, a).value.0 <= Progress(levels, b).value.0
  {
    hide Paid, Cost;
    PaidMonotone(levels, a, b);
    ProgressAccounts(levels, a);
    ProgressAccounts(levels, b);
    var n, m := Paid(levels, a).value, Paid(levels, b).value;
    if n == m {
      ReachedLast(levels, n);
      QuotientMonotone(a - Cost(levels, n), b - Cost(levels, n), Last(levels).cost);
    } else {
      assert n == 0 ==> Reached(levels, n) <= levels[m - 1].closeness by { assert levels[0].closeness <= levels[m - 1].closeness; }
      assert Reached(levels, n) <= Reached(levels, m);
    }
  }

  // ----- many requests -------------------------------------------------------------------------

  lemma {:induction false} NoLevels(received: int, closeness: int)
    ensures Rewards([], received, closeness) == []
  {
  }

  lemma {:induction false} RewardsSplit(levels: seq<Level>, received: int, a: int, b: int)
    requires a <= b && Sorted(levels)
    ensures Rewards(levels, received, b) == Rewards(levels, received, a) + Rewards(levels, Max(a, received), b)
    decreases |levels|
  {
    hide Rewards;
    if levels == [] {
      NoLevels(received, a);
      NoLevels(received, b);
      NoLevels(Max(a, received), b);
    } else {
      var rest, later := levels[1..], Max(a, received);
      assert forall i | 0 <= i < |rest| :: rest[i] == levels[i + 1];
      RewardsSplit(rest, received, a, b);
      RewardsHead(levels, received, a);
      RewardsHead(levels, received, b);
      RewardsHead(levels, later, b);
      if levels[0].closeness > a {
        NothingBelow(levels, received, a);
        assert Rewards(rest, received, a) == [];
      } else {
        var head := if received < levels[0].closeness then levels[0].rewards else [];
        assert head + (Rewards(rest, received, a) + Rewards(rest, later, b)) == head + Rewards(rest, received, a) + Rewards(rest, later, b);
      }
    }
  }

  lemma {:induction false} RewardsHead(levels: seq<Level>, received: int, closeness: int)
    requires levels != []
    ensures Rewards(levels, received, closeness)
            == (if received < levels[0].closeness <= closeness then levels[0].rewards else []) + Rewards(levels[1..], received, closeness)
  {
  }

  lemma {:induction false} NothingBelow(levels: seq<Level>, received: int, a: int)
    requires Sorted(levels) && levels != [] && levels[0].closeness > a
    ensures Rewards(levels, received, a) == []
    decreases |levels|
  {
    var rest := levels[1..];
    assert forall i | 0 <= i < |rest| :: rest[i] == levels[i + 1];
    if rest != [] { NothingBelow(rest, received, a); }
  }

  /** The rewards of consecutive rows, one after the other. */
  function Handed(levels: seq<Level>): seq<int> {
    if levels == [] then [] else levels[0].rewards + Handed(levels[1..])
  }

  /** What is handed out: the rewards of exactly the rows above `received` and up to the closeness, in order. */
  lemma {:induction false} RewardsExactly(levels: seq<Level>, received: int, closeness: int) returns (from: nat, to: nat)
    requires Sorted(levels)
    ensures from <= to <= |levels| && Rewards(levels, received, closeness) == Handed(levels[from..to])
    ensures forall i | 0 <= i < |levels| :: received < levels[i].closeness <= closeness <==> from <= i < to
    decreases |levels|
  {
    hide Rewards;
    if levels == [] {
      NoLevels(received, closeness);
      return 0, 0;
    }
    var rest := levels[1..];
    assert forall i | 0 <= i < |rest| :: rest[i] == levels[i + 1];
    RewardsHead(levels, received, closeness);
    if levels[0].closeness > closeness {
      NothingBelow(levels, received, closeness);
      return 0, 0;
    }
    from, to := RewardsExactly(rest, received, closeness);
    if levels[0].closeness <= received {
      assert levels[from + 1..to + 1] == rest[from..to];
      return from + 1, to + 1;
    }
    if from < to {
      assert received < rest[0].closeness <= rest[from].closeness <= closeness;
      assert from == 0;
    } else {
      assert rest == [] || rest[0].closeness > closeness;
    }
    assert rest[from..to] == rest[0..to - from];
    assert levels[0..to - from + 1][1..] == rest[0..to - from];
    return 0, to - from + 1;
  }

  /** One request: the points add up, the closeness and the rest are those of the new total, and what was received counts on. */
  lemma {:induction false} GiveExactly(levels: seq<Level>, f: Friendship, gained: int)
    ensures Give(levels, f, gained).Some? <==> Progress(levels, f.total + gained).Some?
    ensures Give(levels, f, gained).Some? ==>
              var (next, rewards) := Give(levels, f, gained).value;
              next.total == f.total + gained && (next.closeness, next.rest) == Progress(levels, next.total).value
              && next.received == Max(next.closeness, f.received) && rewards == Rewards(levels, f.received, next.closeness)
  {
    hide Progress, Rewards;
  }

  function GiveAll(levels: seq<Level>, f: Friendship, gains: seq<nat>): Option<(Friendship, seq<int>)>
    decreases |gains|
  {
    if gains == [] then Some((f, []))
    else match Give(levels, f, gains[0])
      case None => None
      case Some((next, rewards)) =>
        match GiveAll(levels, next, gains[1..])
        case None => None
        case Some((end, more)) => Some((end, rewards + more))
  }

  function Sum(gains: seq<nat>): nat {
    if gains == [] then 0 else gains[0] + Sum(gains[1..])
  }

  /** Splitting one request in two: same state, same rewards, and each part is accepted when the whole is. */
  lemma {:induction false} GiveTwice(levels: seq<Level>, f: Friendship, a: nat, b: nat)
    requires Sorted(levels) && (levels != [] ==> levels[0].closeness >= 1) && f.total >= 0
    ensures Give(levels, f, a + b).Some? ==> Give(levels, f, a).Some?
    ensures Give(levels, f, a).Some? ==>
              var (mid, first) := Give(levels, f, a).value;
              match Give(levels, mid, b)
              case None => Give(levels, f, a + b).None?
              case Some((end, second)) => Give(levels, f, a + b) == Some((end, first + second))
  {
    hide Progress, Rewards;
    if Give(levels, f, a + b).Some? {
      ClosenessMonotone(levels, f.total + a, f.total + a + b);
      var low, high := Progress(levels, f.total + a).value.0, Progress(levels, f.total + a + b).value.0;
      RewardsSplit(levels, f.received, low, high);
      assert f.total + a + b == f.total + (a + b);
    }
  }

  /**
   * Path independence: however a number of points is split into requests, they are accepted exactly when they are
   * accepted at once, and end in the same state with the same rewards.
   */
  lemma {:induction false} GiftsPathIndependent(levels: seq<Level>, f: Friendship, gains: seq<nat>)
    requires Sorted(levels) && (levels != [] ==> levels[0].closeness >= 1) && f.total >= 0 && gains != []
    ensures GiveAll(levels, f, gains) == Give(levels, f, Sum(gains))
    decreases |gains|
  {
    hide Give;
    var a, rest := gains[0], gains[1..];
    GiveTwice(levels, f, a, Sum(rest));
    if Give(levels, f, a).Some? {
      var (mid, first) := Give(levels, f, a).value;
      GiveTotal(levels, f, a);
      if rest == [] {
        assert first + [] == first;
        assert Sum(gains) == a;
      } else {
        GiftsPathIndependent(levels, mid, rest);
      }
    }
  }

  lemma {:induction false} GiveTotal(levels: seq<Level>, f: Friendship, a: int)
    requires Give(levels, f, a).Some?
    ensures Give(levels, f, a).value.0.total == f.total + a
  {
  }

  /** Each reward row is awarded exactly once: a history from nothing received hands out the rows up to the closeness. */
  lemma {:induction false} EachRewardOnce(levels: seq<Level>, f: Friendship, gains: seq<nat>)
    requires Sorted(levels) && (levels != [] ==> levels[0].closeness >= 1) && f.total >= 0 && gains != []
    requires GiveAll(levels, f, gains).Some?
    ensures var (end, rewards) := GiveAll(levels, f, gains).value;
            rewards == Rewards(levels, f.received, end.closeness) && end.received == Max(end.closeness, f.received)
            && end.total == f.total + Sum(gains)
  {
    hide Progress, Rewards, GiveAll;
    GiftsPathIndependent(levels, f, gains);
  }

  // ----- the reducer ---------------------------------------------------------------------------

  class Present {
    var total: int
    var rest: int
    var closeness: int
    var received: int

    function Now(): Friendship
      reads this
    {
      Friendship(total, rest, closeness, received)
    }

    method Execute(levels: seq<Level>, gained: nat) returns (rewards: Option<seq<int>>)
      requires total >= 0
      modifies this
      ensures rewards.Some? <==> Give(levels, old(Now()), gained).Some?
      ensures rewards.Some? ==> (Now(), rewards.value) == Give(levels, old(Now()), gained).value
      ensures rewards.None? ==> Now() == old(Now())
    {
      hide Progress, Rewards;
      var sum := total + gained;
      var progress := Climb(levels, sum);
      if progress.None? { return None; }
      var (level, left) := progress.value;
      var given := Award(levels, received, level);
      total, rest, closeness, received := sum, left, level, Max(level, received);
      rewards := Some(given);
    }

    /** The loop over the thresholds. */
    static method Climb(levels: seq<Level>, sum: int) returns (r: Option<(int, int)>)
      ensures r == Progress(levels, sum)
    {
      hide Paid, Cost;
      if levels == [] { return None; }
      var last := Last(levels);
      if last.cost <= 0 { return None; }
      var left, level := sum, 1;
      var n := 0;
      PaidStep(levels, 0, sum);
      while n < |levels|
        invariant 0 <= n <= |levels| && level == Reached(levels, n) && left == sum - Cost(levels, n)
        invariant Paid(levels, sum) == match Paid(levels[n..], left) case None => None case Some(k) => Some(n + k)
      {
        PaidStep(levels, n, sum);
        if levels[n].cost < 0 { return None; }
        if left < levels[n].cost { break; }
        left, level, n := left - levels[n].cost, levels[n].closeness, n + 1;
      }
      PaidEnd(levels, n, left);
      if level == last.closeness {
        level, left := level + left / last.cost, left % last.cost;
      }
      r := Some((level, left));
    }

    /** The loop over the reward rows. */
    static method Award(levels: seq<Level>, received: int, closeness: int) returns (given: seq<int>)
      ensures given == Rewards(levels, received, closeness)
    {
      hide Rewards;
      given := [];
      var i := 0;
      assert levels[0..] == levels;
      while i < |levels|
        invariant 0 <= i <= |levels|
        invariant given + Rewards(levels[i..], received, closeness) == Rewards(levels, received, closeness)
      {
        assert levels[i..][1..] == levels[i + 1..];
        RewardsHead(levels[i..], received, closeness);
        if received < levels[i].closeness && levels[i].closeness <= closeness {
          given := given + levels[i].rewards;
        }
        i := i + 1;
      }
      assert Rewards(levels[i..], received, closeness) == [] by { NoRows(levels[i..], received, closeness); }
    }

    static lemma {:induction false} NoRows(levels: seq<Level>, received: int, closeness: int)
      ensures levels == [] ==> Rewards(levels, received, closeness) == []
    {
    }

    static lemma {:induction false} PaidStep(levels: seq<Level>, n: nat, sum: int)
      requires n < |levels|
      ensures levels[n..][1..] == levels[n + 1..] && levels[0..] == levels
      ensures Cost(levels, 0) == 0 && Cost(levels, n + 1) == Cost(levels, n) + levels[n].cost
      ensures var left := sum - Cost(levels, n);
              Paid(levels[n..], left) == if levels[n].cost < 0 then None else if left < levels[n].cost then Some(0)
                                         else match Paid(levels[n + 1..], left - levels[n].cost) case None => None case Some(k) => Some(k + 1)
    {
      CostNext(levels, n);
      assert levels[n..][1..] == levels[n + 1..];
    }

    static lemma {:induction false} CostNext(levels: seq<Level>, n: nat)
      requires n < |levels|
      ensures Cost(levels, n + 1) == Cost(levels, n) + levels[n].cost
      decreases n
    {
      if n > 0 { CostNext(levels[1..], n - 1); }
    }

    static lemma {:induction false} PaidEnd(levels: seq<Level>, n: nat, left: int)
      requires n <= |levels|
      ensures n == |levels| ==> Paid(levels[n..], left) == Some(0)
    {
    }
  }
}
