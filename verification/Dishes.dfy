/** Dishes that charge by the clock (refresh_dishes and dish in src/state/activities/story.rs). */
module Dishes {
  import opened Prelude
  import opened Division

  const DAY := 86400
  const UTC_OFFSET := 32400

  /** Minutes of the day at which a dish is charged; an entry that is no number charges nothing but counts for the cap. */
  datatype Rules = Rules(minutes: seq<Option<int>>, threshold: int)

  datatype Kitchen = Kitchen(updatedAt: Option<int>, dishes: int, idleness: int)

  /** The day, in local time shifted by the charge minute, that a moment falls on. */
  function Mark(minute: int, t: int): int {
    (t + UTC_OFFSET - minute * 60) / DAY
  }

  /** The sum over the charge minutes. */
  function Charges(minutes: seq<Option<int>>, from: int, to: int): (c: nat) {
    if minutes == [] then 0
    else (match minutes[0] case None => 0 case Some(m) => Max(Mark(m, to) - Mark(m, from), 0)) + Charges(minutes[1..], from, to)
  }

  function Refresh(r: Rules, k: Kitchen, now: int): Kitchen {
    if k.updatedAt.None? || now <= k.updatedAt.value then k
    else
      var total, cap := k.dishes + Charges(r.minutes, k.updatedAt.value, now), |r.minutes|;
      Kitchen(Some(now), Max(Min(total, cap), 0), Min(k.idleness + Max(total - cap, 0), r.threshold))
  }

  /** One order: refresh, then one dish less and nobody idle; None, with nothing changed, when there is no dish. */
  function Order(r: Rules, k: Kitchen, now: int): Option<Kitchen> {
    var fed := Refresh(r, k, now);
    if fed.dishes - 1 < 0 then None else Some(fed.(dishes := fed.dishes - 1, idleness := 0))
  }

  /** A charge minute passes as often between two moments as it does before and after one in between. */
  lemma {:induction false} ChargesAdd(minutes: seq<Option<int>>, a: int, b: int, c: int)
    requires a <= b <= c
    ensures Charges(minutes, a, c) == Charges(minutes, a, b) + Charges(minutes, b, c)
  {
    if minutes != [] {
      ChargesAdd(minutes[1..], a, b, c);
      if minutes[0].Some? {
        var m := minutes[0].value;
        QuotientMonotone(a + UTC_OFFSET - m * 60, b + UTC_OFFSET - m * 60, DAY);
        QuotientMonotone(b + UTC_OFFSET - m * 60, c + UTC_OFFSET - m * 60, DAY);
      }
    }
  }

  /** A whole day charges every minute of the list exactly once. */
  lemma {:induction false} DayCharges(minutes: seq<Option<int>>, from: int)
    requires forall i | 0 <= i < |minutes| :: minutes[i].Some?
    ensures Charges(minutes, from, from + DAY) == |minutes|
  {
    if minutes != [] {
      var rest := minutes[1..];
      assert forall i | 0 <= i < |rest| :: rest[i] == minutes[i + 1];
      DayCharges(rest, from);
      var x := from + UTC_OFFSET - minutes[0].value * 60;
      DropMultiples(x + DAY, 1, DAY);
    }
  }

  /** When a dish is charged: at the second that begins its minute of the local day, nine hours ahead of the clock. */
  lemma {:induction false} ChargedOnTime(minute: int, t: int)
    requires 0 <= minute < 1440
    ensures Charges([Some(minute)], t - 1, t) == if (t + 9 * 3600) % 86400 == minute * 60 then 1 else 0
  {
    var m := [Some(minute)];
    assert m[1..] == [] && Charges(m[1..], t - 1, t) == 0;
    var x := t + UTC_OFFSET - minute * 60;
    var q, r := x / DAY, x % DAY;
    assert x == q * DAY + r;
    assert (t + 9 * 3600) % 86400 == minute * 60 <==> r == 0 by { LocalSecond(t + UTC_OFFSET, minute * 60); }
    if r > 0 { QuotientIs(x - 1, DAY, q, r - 1); } else { QuotientIs(x - 1, DAY, q - 1, DAY - 1); }
  }

  lemma {:induction false} LocalSecond(a: int, b: int)
    requires 0 <= b < 86400
    ensures a % 86400 == b <==> (a - b) % 86400 == 0
  {
  }

  /** Every charge minute charges its own dish. */
  lemma {:induction false} ChargesTogether(a: seq<Option<int>>, b: seq<Option<int>>, from: int, to: int)
    ensures Charges(a + b, from, to) == Charges(a, from, to) + Charges(b, from, to)
  {
    if a == [] {
      assert a + b == b;
    } else {
      assert (a + b)[1..] == a[1..] + b;
      ChargesTogether(a[1..], b, from, to);
    }
  }

  /**
   * What becomes of the charges: the stock grows by them up to one dish for each charge minute, and those it has no room
   * for make idle, up to the threshold. A clock that has not moved on charges nothing.
   */
  lemma {:induction false} RefreshAccounts(r: Rules, k: Kitchen, now: int)
    requires Stocked(k) && k.dishes <= |r.minutes| && k.idleness <= r.threshold
    ensures var next := Refresh(r, k, now);
            if k.updatedAt.None? || now <= k.updatedAt.value then next == k
            else
              var charged, taken := Charges(r.minutes, k.updatedAt.value, now), next.dishes - k.dishes;
              && next.updatedAt == Some(now) && 0 <= taken <= charged && next.dishes <= |r.minutes|
              && (taken < charged ==> next.dishes == |r.minutes|)
              && next.idleness == Min(k.idleness + (charged - taken), r.threshold)
  {
    hide Charges;
  }

  /** An order takes one of the dishes there are after a refresh, and ends idleness; without a dish it is refused. */
  lemma {:induction false} OrderTakesOne(r: Rules, k: Kitchen, now: int)
    ensures var fed := Refresh(r, k, now);
            (Order(r, k, now).Some? <==> fed.dishes >= 1)
            && (Order(r, k, now).Some? ==> Order(r, k, now).value == Kitchen(fed.updatedAt, fed.dishes - 1, 0))
  {
    hide Refresh;
  }

  predicate Stocked(k: Kitchen) {
    k.dishes >= 0
  }

  /** Refreshing twice is refreshing once, at the later moment. */
  lemma {:induction false} RefreshTwice(r: Rules, k: Kitchen, a: int, b: int)
    requires Stocked(k)
    ensures Stocked(Refresh(r, k, a))
    ensures Refresh(r, Refresh(r, k, a), b) == Refresh(r, k, Max(a, b))
  {
    hide Charges;
    if k.updatedAt.Some? && k.updatedAt.value < a < b {
      ChargesAdd(r.minutes, k.updatedAt.value, a, b);
    }
  }

  function RefreshAll(r: Rules, k: Kitchen, times: seq<int>): Kitchen
    decreases |times|
  {
    if times == [] then k else RefreshAll(r, Refresh(r, k, times[0]), times[1..])
  }

  function Latest(times: seq<int>): (t: int)
    requires times != []
    ensures t in times && forall i | 0 <= i < |times| :: times[i] <= t
  {
    if |times| == 1 then times[0]
    else
      assert times == [times[0]] + times[1..];
      Max(times[0], Latest(times[1..]))
  }

  /** Path independence: any number of refreshes, in any order of their times, is the one refresh at the latest time. */
  lemma {:induction false} RefreshPathIndependent(r: Rules, k: Kitchen, times: seq<int>)
    requires Stocked(k) && times != []
    ensures RefreshAll(r, k, times) == Refresh(r, k, Latest(times))
    decreases |times|
  {
    hide Refresh;
    RefreshTwice(r, k, times[0], times[0]);
    var next := Refresh(r, k, times[0]);
    if |times| == 1 {
      assert RefreshAll(r, next, times[1..]) == next;
    } else {
      RefreshPathIndependent(r, next, times[1..]);
      RefreshTwice(r, k, times[0], Latest(times[1..]));
    }
  }

  /** A negative stock, which no reducer writes, would make a difference: it is forgiven at each refresh. */
  lemma {:induction false} NegativeStockDiffers()
    ensures var r, k := Rules([Some(0)], 10), Kitchen(Some(-UTC_OFFSET), -1, 0);
            Refresh(r, Refresh(r, k, -UTC_OFFSET + 1), -UTC_OFFSET + DAY) != Refresh(r, k, -UTC_OFFSET + DAY)
  {
    var r, k := Rules([Some(0)], 10), Kitchen(Some(-UTC_OFFSET), -1, 0);
    assert Charges(r.minutes[1..], -UTC_OFFSET, -UTC_OFFSET + 1) == 0;
    assert Charges(r.minutes[1..], -UTC_OFFSET + 1, -UTC_OFFSET + DAY) == 0;
    assert Charges(r.minutes[1..], -UTC_OFFSET, -UTC_OFFSET + DAY) == 0;
  }

  // ----- histories -----------------------------------------------------------------------------

  datatype Visit = Look(at: int) | Meal(at: int)

  function After(r: Rules, k: Kitchen, v: Visit): Kitchen {
    match v
    case Look(t) => Refresh(r, k, t)
    case Meal(t) => (match Order(r, k, t) case Some(next) => next case None => k)
  }

  function Run(r: Rules, k: Kitchen, vs: seq<Visit>): Kitchen
    decreases |vs|
  {
    if vs == [] then k else Run(r, After(r, k, vs[0]), vs[1..])
  }

  /** Which meals were served. */
  function Served(r: Rules, k: Kitchen, vs: seq<Visit>): seq<bool>
    decreases |vs|
  {
    if vs == [] then []
    else (if vs[0].Meal? then [Order(r, k, vs[0].at).Some?] else []) + Served(r, After(r, k, vs[0]), vs[1..])
  }

  function Meals(vs: seq<Visit>): (r: seq<Visit>)
    ensures |r| <= |vs|
    ensures forall i | 0 <= i < |r| :: r[i] in vs
  {
    if vs == [] then []
    else
      assert vs == [vs[0]] + vs[1..];
      (if vs[0].Meal? then [vs[0]] else []) + Meals(vs[1..])
  }

  predicate NotBefore(t: int, vs: seq<Visit>) {
    forall i | 0 <= i < |vs| :: t <= vs[i].at
  }

  predicate InOrder(vs: seq<Visit>)
    decreases |vs|
  {
    vs != [] ==> NotBefore(vs[0].at, vs[1..]) && InOrder(vs[1..])
  }

  /** Two kitchens that no refresh from `t` on can tell apart. */
  ghost predicate Alike(r: Rules, a: Kitchen, b: Kitchen, t: int) {
    Stocked(a) && Stocked(b) && forall now | now >= t :: Refresh(r, a, now) == Refresh(r, b, now)
  }

  lemma {:induction false} AfterAlike(r: Rules, a: Kitchen, b: Kitchen, t: int, v: Visit)
    requires Alike(r, a, b, t) && v.at >= t
    ensures Alike(r, After(r, a, v), After(r, b, v), v.at)
    ensures v.Meal? ==> Order(r, a, v.at).Some? == Order(r, b, v.at).Some?
    ensures v.Look? ==> Alike(r, After(r, a, v), b, v.at)
  {
    hide Refresh;
    assert Refresh(r, a, v.at) == Refresh(r, b, v.at);
    RefreshTwice(r, a, v.at, v.at);
    RefreshTwice(r, b, v.at, v.at);
    if v.Look? {
      forall now | now >= v.at ensures Refresh(r, Refresh(r, a, v.at), now) == Refresh(r, b, now) {
        RefreshTwice(r, b, v.at, now);
      }
    }
  }

  /**
   * Looking is free. In a history in order of time, leaving out every mere refresh serves the same meals, and every
   * later refresh finds the same kitchen.
   */
  lemma {:induction false} LooksDoNotMatter(r: Rules, a: Kitchen, b: Kitchen, t: int, vs: seq<Visit>, end: int)
    requires Alike(r, a, b, t) && NotBefore(t, vs) && InOrder(vs) && t <= end && forall i | 0 <= i < |vs| :: vs[i].at <= end
    ensures Served(r, a, vs) == Served(r, b, Meals(vs))
    ensures Refresh(r, Run(r, a, vs), end) == Refresh(r, Run(r, b, Meals(vs)), end)
    decreases |vs|
  {
    hide Refresh, Order;
    if vs == [] {
    } else {
      var v, rest := vs[0], vs[1..];
      assert forall i | 0 <= i < |rest| :: rest[i] == vs[i + 1];
      AfterAlike(r, a, b, t, v);
      if v.Meal? {
        assert Meals(vs)[1..] == Meals(rest);
        LooksDoNotMatter(r, After(r, a, v), After(r, b, v), v.at, rest, end);
      } else {
        assert Meals(vs) == Meals(rest);
        LooksDoNotMatter(r, After(r, a, v), b, v.at, rest, end);
        assert Served(r, a, vs) == Served(r, After(r, a, v), rest);
      }
    }
  }

  // ----- the reducers --------------------------------------------------------------------------

  class Status {
    var updatedAt: Option<int>
    var dishes: int
    var idleness: int

    function Now(): Kitchen
      reads this
    {
      Kitchen(updatedAt, dishes, idleness)
    }

    method RefreshDishes(r: Rules, now: int)
      modifies this
      ensures Now() == Refresh(r, old(Now()), now)
    {
      var updated := if updatedAt.Some? then updatedAt.value else now;
      if now <= updated { return; }
      var charges := 0;
      var i := 0;
      while i < |r.minutes|
        invariant 0 <= i <= |r.minutes|
        invariant charges + Charges(r.minutes[i..], updated, now) == Charges(r.minutes, updated, now)
      {
        assert r.minutes[i..][1..] == r.minutes[i + 1..];
        if r.minutes[i].Some? {
          charges := charges + Max(Mark(r.minutes[i].value, now) - Mark(r.minutes[i].value, updated), 0);
        }
        i := i + 1;
      }
      var total, cap := dishes + charges, |r.minutes|;
      idleness := Min(idleness + Max(total - cap, 0), r.threshold);
      dishes := Max(Min(total, cap), 0);
      updatedAt := Some(now);
    }

    /** dish: a refused order is rolled back by the caller. */
    method Dish(r: Rules, now: int) returns (ok: bool)
      modifies this
      ensures ok == Order(r, old(Now()), now).Some?
      ensures ok ==> Now() == Order(r, old(Now()), now).value
    {
      RefreshDishes(r, now);
      if dishes - 1 < 0 { return false; }
      dishes := dishes - 1;
      idleness := 0;
      ok := true;
    }
  }
}
