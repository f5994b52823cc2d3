/** The turn queue of src/state/combat/timeline.rs: ordering, consuming a turn, delays and removal. */
module Timeline {
  import opened Prelude
  import opened Counting
  import opened BattleModel

  datatype Unit = Unit(member: int, number: int, wait: int)

  // ----- order ---------------------------------------------------------------------------------

  /** The sort key compares wait, then descending speed, then number, then member id. */
  predicate Before(sp: Speeds, a: Unit, b: Unit) {
    var sa, sb := SpeedOf(sp, a.member), SpeedOf(sp, b.member);
    || a.wait < b.wait
    || (a.wait == b.wait && (|| sa > sb
                             || (sa == sb && (|| a.number < b.number
                                              || (a.number == b.number && a.member <= b.member)))))
  }

  predicate Ordered(sp: Speeds, us: seq<Unit>) {
    forall i, j | 0 <= i < j < |us| :: Before(sp, us[i], us[j])
  }

  function Insert(sp: Speeds, u: Unit, us: seq<Unit>): (r: seq<Unit>)
    ensures |r| == |us| + 1
  {
    if us == [] || Before(sp, u, us[0]) then [u] + us else [us[0]] + Insert(sp, u, us[1..])
  }

  /** The library sort; SortedPermutes and SortUnique show that it has one possible outcome. */
  function Sorted(sp: Speeds, us: seq<Unit>): (r: seq<Unit>)
    ensures |r| == |us|
  {
    if us == [] then [] else Insert(sp, us[0], Sorted(sp, us[1..]))
  }

  lemma {:induction false} InsertPermutes(sp: Speeds, u: Unit, us: seq<Unit>)
    requires Ordered(sp, us)
    ensures Ordered(sp, Insert(sp, u, us))
    ensures multiset(Insert(sp, u, us)) == multiset{u} + multiset(us)
  {
    if us == [] {
    } else if Before(sp, u, us[0]) {
      assert Ordered(sp, [u] + us);
    } else {
      InsertPermutes(sp, u, us[1..]);
      assert us == [us[0]] + us[1..];
      InsertedAfter(sp, us[0], u, us[1..], Insert(sp, u, us[1..]));
    }
  }

  lemma {:induction false} InsertedAfter(sp: Speeds, head: Unit, u: Unit, us: seq<Unit>, r: seq<Unit>)
    requires Ordered(sp, [head] + us) && Ordered(sp, r) && Before(sp, head, u)
    requires multiset(r) == multiset{u} + multiset(us)
    ensures Ordered(sp, [head] + r)
  {
    forall i | 0 <= i < |r| ensures Before(sp, head, r[i]) {
      assert r[i] in multiset(r);
      if r[i] != u {
        assert r[i] in us;
        var j :| 0 <= j < |us| && us[j] == r[i];
        assert ([head] + us)[0] == head && ([head] + us)[j + 1] == us[j];
      }
    }
  }

  lemma {:induction false} SortedPermutes(sp: Speeds, us: seq<Unit>)
    ensures Ordered(sp, Sorted(sp, us)) && multiset(Sorted(sp, us)) == multiset(us)
  {
    if us != [] {
      SortedPermutes(sp, us[1..]);
      InsertPermutes(sp, us[0], Sorted(sp, us[1..]));
      assert us == [us[0]] + us[1..];
    }
  }

  lemma {:induction false} SortUnique(sp: Speeds, a: seq<Unit>, b: seq<Unit>)
    requires Ordered(sp, a) && Ordered(sp, b) && multiset(a) == multiset(b)
    ensures a == b
  {
    assert |a| == |multiset(a)| && |b| == |multiset(b)|;
    if a != [] {
      HeadIsLeast(sp, a, b[0]);
      HeadIsLeast(sp, b, a[0]);
      PermutationTail(a, b);
      SortUnique(sp, a[1..], b[1..]);
    }
  }

  lemma {:induction false} HeadIsLeast(sp: Speeds, us: seq<Unit>, u: Unit)
    requires Ordered(sp, us) && u in multiset(us)
    ensures Before(sp, us[0], u)
  {
    var i :| 0 <= i < |us| && us[i] == u;
  }

  // ----- vocabulary ----------------------------------------------------------------------------

  function Of(id: int): Unit -> bool {
    (u: Unit) => u.member == id
  }

  function Slot(id: int, number: int): Unit -> bool {
    (u: Unit) => u.member == id && u.number == number
  }

  /** Units that belong to members other than `id`. */
  function Others(id: int): Unit -> bool {
    (u: Unit) => u.member != id
  }

  function Owned(us: seq<Unit>, id: int): nat {
    Count(us, Of(id))
  }

  predicate Has(us: seq<Unit>, id: int) {
    exists i | 0 <= i < |us| :: us[i].member == id
  }

  /** The two queues hold every (member, number) placement equally often. */
  ghost predicate SameSlots(a: seq<Unit>, b: seq<Unit>) {
    && |a| == |b|
    && (forall id :: Owned(a, id) == Owned(b, id))
    && (forall id, number :: Count(a, Slot(id, number)) == Count(b, Slot(id, number)))
  }

  predicate NonNegative(us: seq<Unit>) {
    forall i | 0 <= i < |us| :: us[i].wait >= 0
  }

  function FirstOf(us: seq<Unit>, id: int): (r: Option<nat>)
    ensures r.Some? <==> Has(us, id)
    ensures r.Some? ==> r.value < |us| && us[r.value].member == id && !Has(us[..r.value], id)
  {
    if us == [] then None
    else if us[0].member == id then Some(0)
    else
      var rest := FirstOf(us[1..], id);
      assert Has(us, id) <==> Has(us[1..], id) by {
        if i :| 0 <= i < |us| && us[i].member == id { assert us[1..][i - 1] == us[i]; }
      }
      match rest
      case None => None
      case Some(k) =>
        assert us[..k + 1] == [us[0]] + us[1..][..k];
        Some(k + 1)
  }

  /** Position of the last unit of `id`. */
  function LastOf(us: seq<Unit>, id: int): (k: nat)
    requires Has(us, id)
    ensures k < |us| && us[k].member == id
    ensures forall i | k < i < |us| :: us[i].member != id
  {
    if us[|us| - 1].member == id then |us| - 1
    else
      assert Has(us[..|us| - 1], id) by {
        var i :| 0 <= i < |us| && us[i].member == id;
        assert us[..|us| - 1][i] == us[i];
      }
      LastOf(us[..|us| - 1], id)
  }

  function MinWait(us: seq<Unit>, id: int): (w: int)
    requires Has(us, id)
    ensures exists i | 0 <= i < |us| :: us[i].member == id && us[i].wait == w
    ensures forall i | 0 <= i < |us| && us[i].member == id :: w <= us[i].wait
  {
    if Has(us[1..], id) then
      var w := MinWait(us[1..], id);
      assert us == [us[0]] + us[1..];
      if us[0].member == id then Min(us[0].wait, w) else w
    else
      assert forall i | 0 < i < |us| :: us[i] == us[1..][i - 1];
      us[0].wait
  }

  function MaxWait(us: seq<Unit>, id: int): (w: int)
    requires Has(us, id)
    ensures exists i | 0 <= i < |us| :: us[i].member == id && us[i].wait == w
    ensures forall i | 0 <= i < |us| && us[i].member == id :: us[i].wait <= w
  {
    if Has(us[1..], id) then
      var w := MaxWait(us[1..], id);
      assert us == [us[0]] + us[1..];
      if us[0].member == id then Max(us[0].wait, w) else w
    else
      assert forall i | 0 < i < |us| :: us[i] == us[1..][i - 1];
      us[0].wait
  }

  /** Every wait lowered by `d`. */
  function Shift(us: seq<Unit>, d: int): (r: seq<Unit>)
    ensures |r| == |us|
    ensures forall i | 0 <= i < |us| :: r[i] == us[i].(wait := us[i].wait - d)
  {
    seq(|us|, i requires 0 <= i < |us| => us[i].(wait := us[i].wait - d))
  }

  // ----- consuming a turn ----------------------------------------------------------------------

  /** The last unit of `id` moved to `wait`. */
  function Reschedule(us: seq<Unit>, id: int, wait: int): (r: seq<Unit>)
    requires Has(us, id)
    ensures |r| == |us|
    ensures forall i | 0 <= i < |r| :: SamePlacement(us[i], r[i])
    ensures forall i | 0 <= i < |r| :: r[i].wait == (if i == LastOf(us, id) then wait else us[i].wait)
  {
    var k := LastOf(us, id);
    us[k := us[k].(wait := wait)]
  }

  predicate HeadMayAct(s: seq<Unit>, id: int) {
    s != [] && s[0].member == id && 2 <= Owned(s, id) <= 3
  }

  /** The checks of consume_timeline_turn: `id` owns the head unit and two or three units in all. */
  predicate TurnAllowed(sp: Speeds, us: seq<Unit>, id: int) {
    HeadMayAct(Sorted(sp, us), id)
  }

  /** The units that stay queued, counted from the moment the head acts; an ally's last one is rescheduled. */
  function Futures(s: seq<Unit>, id: int, selected: int, preserve: bool): (r: seq<Unit>)
    requires HeadMayAct(s, id)
    ensures |r| == |s| - 1 && Has(r, id)
    ensures forall i | 0 <= i < |r| :: SamePlacement(s[i + 1], r[i])
    ensures forall i | 0 <= i < |r| && (r[i].member != id || preserve) :: r[i].wait == s[i + 1].wait - Max(s[0].wait, 0)
    ensures forall i | 0 <= i < |r| :: r[i].wait == s[i + 1].wait - Max(s[0].wait, 0) || r[i].wait >= 1
  {
    OwnsLater(s, id);
    var rest := Shift(s[1..], Max(s[0].wait, 0));
    HasKept(s[1..], rest, id);
    if preserve then rest
    else
      var r := Reschedule(rest, id, Max(selected, 1));
      HasKept(rest, r, id);
      r
  }

  lemma {:induction false} HasKept(a: seq<Unit>, b: seq<Unit>, id: int)
    requires |a| == |b| && forall i | 0 <= i < |a| :: SamePlacement(a[i], b[i])
    requires Has(a, id)
    ensures Has(b, id)
  {
    var i :| 0 <= i < |a| && a[i].member == id;
    assert b[i].member == id;
  }

  predicate SamePlacement(a: Unit, b: Unit) {
    a.member == b.member && a.number == b.number
  }

  /** The wait at which the consumed placement comes back. */
  function NextWait(futures: seq<Unit>, id: int, selected: int, default: int, preserve: bool): (w: int)
    requires Has(futures, id)
    ensures NonNegative(futures) ==> w >= 1
  {
    if preserve then MaxWait(futures, id) + Max(selected, 1) else MinWait(futures, id) + Max(default, 1)
  }

  /** The queue before it is sorted and counted from its new head. */
  function Pending(s: seq<Unit>, id: int, selected: int, default: int, preserve: bool): (r: seq<Unit>)
    requires HeadMayAct(s, id)
    ensures |r| == |s|
  {
    var futures := Futures(s, id, selected, preserve);
    futures + [Unit(id, s[0].number, NextWait(futures, id, selected, default, preserve))]
  }

  function FromHead(s: seq<Unit>): (r: seq<Unit>)
    ensures |r| == |s|
  {
    if s == [] then [] else Shift(s, s[0].wait)
  }

  function AfterTurn(sp: Speeds, us: seq<Unit>, id: int, selected: int, default: int, preserve: bool): (r: seq<Unit>)
    requires TurnAllowed(sp, us, id)
    ensures |r| == |us|
  {
    FromHead(Sorted(sp, Pending(Sorted(sp, us), id, selected, default, preserve)))
  }

  /** How far the clock moves during one turn. */
  function Elapsed(sp: Speeds, us: seq<Unit>, id: int, selected: int, default: int, preserve: bool): int
    requires TurnAllowed(sp, us, id)
  {
    Max(Sorted(sp, us)[0].wait, 0) + Sorted(sp, Pending(Sorted(sp, us), id, selected, default, preserve))[0].wait
  }

  lemma {:induction false} OwnsLater(s: seq<Unit>, id: int)
    requires s != [] && s[0].member == id && Owned(s, id) >= 2
    ensures Has(s[1..], id)
  {
    CountBounded(s[1..], Of(id));
  }

  /** A count survives a turn when it ignores the waits of the actor and follows the clock for everybody else. */
  ghost predicate Follows(p: Unit -> bool, q: Unit -> bool, id: int, d: int) {
    && (forall m, n, w | m != id :: p(Unit(m, n, w)) == q(Unit(m, n, w - d)))
    && (forall n, w, v :: p(Unit(id, n, w)) == q(Unit(id, n, v)))
  }

  function Later(q: Unit -> bool, e: int): Unit -> bool {
    (u: Unit) => q(Unit(u.member, u.number, u.wait - e))
  }

  lemma {:induction false} TurnTransfer(sp: Speeds, us: seq<Unit>, id: int, selected: int, default: int, preserve: bool,
                                        p: Unit -> bool, q: Unit -> bool)
    requires TurnAllowed(sp, us, id)
    requires Follows(p, q, id, Elapsed(sp, us, id, selected, default, preserve))
    ensures Count(us, p) == Count(AfterTurn(sp, us, id, selected, default, preserve), q)
  {
    hide Sorted, Count, Follows, Pending;
    var s := Sorted(sp, us);
    var pending := Pending(s, id, selected, default, preserve);
    var sorted := Sorted(sp, pending);
    SortedPermutes(sp, us);
    SortedPermutes(sp, pending);
    PendingFollows(us, s, id, selected, default, preserve, sorted[0].wait, p, q);
    ShiftTransfer(pending, sorted, sorted[0].wait, q);
  }

  lemma {:induction false} PendingFollows(us: seq<Unit>, s: seq<Unit>, id: int, selected: int, default: int, preserve: bool, e: int,
                                          p: Unit -> bool, q: Unit -> bool)
    requires HeadMayAct(s, id) && multiset(us) == multiset(s) && Follows(p, q, id, Max(s[0].wait, 0) + e)
    ensures Count(us, p) == Count(Pending(s, id, selected, default, preserve), Later(q, e))
  {
    hide Count, Follows, Later;
    var futures := Futures(s, id, selected, preserve);
    var back := Pending(s, id, selected, default, preserve)[|futures|];
    PendingTransfer(us, s, futures, back, id, Max(s[0].wait, 0), e, p, q);
  }

  lemma {:induction false} ShiftTransfer(us: seq<Unit>, sorted: seq<Unit>, e: int, q: Unit -> bool)
    requires multiset(us) == multiset(sorted)
    ensures Count(us, Later(q, e)) == Count(Shift(sorted, e), q)
  {
    CountPermutation(us, sorted, Later(q, e));
    forall i | 0 <= i < |sorted| ensures Later(q, e)(sorted[i]) == q(Shift(sorted, e)[i]) {
      assert Shift(sorted, e)[i] == Unit(sorted[i].member, sorted[i].number, sorted[i].wait - e);
    }
    CountPointwise(sorted, Later(q, e), Shift(sorted, e), q);
  }

  lemma {:induction false} PendingTransfer(us: seq<Unit>, s: seq<Unit>, futures: seq<Unit>, back: Unit, id: int, c: int, e: int,
                                           p: Unit -> bool, q: Unit -> bool)
    requires multiset(us) == multiset(s) && |s| == |futures| + 1
    requires s[0].member == id && SamePlacement(s[0], back)
    requires forall i | 0 <= i < |futures| :: SamePlacement(s[i + 1], futures[i])
    requires forall i | 0 <= i < |futures| && futures[i].member != id :: futures[i].wait == s[i + 1].wait - c
    requires Follows(p, q, id, c + e)
    ensures Count(us, p) == Count(futures + [back], Later(q, e))
  {
    CountPermutation(us, s, p);
    forall i | 0 <= i < |futures| ensures p(s[1..][i]) == Later(q, e)(futures[i]) {
      assert SamePlacement(s[i + 1], futures[i]);
      PlacementFollows(p, q, id, c, e, s[i + 1], futures[i]);
    }
    CountPointwise(s[1..], p, futures, Later(q, e));
    CountConcat(futures, [back], Later(q, e));
    PlacementFollows(p, q, id, c, e, s[0], back);
  }

  lemma {:induction false} PlacementFollows(p: Unit -> bool, q: Unit -> bool, id: int, c: int, e: int, a: Unit, b: Unit)
    requires Follows(p, q, id, c + e)
    requires SamePlacement(a, b) && (a.member != id ==> b.wait == a.wait - c)
    ensures p(a) == q(Unit(b.member, b.number, b.wait - e))
  {
    assert a == Unit(a.member, a.number, a.wait);
    if a.member != id {
      assert b.wait - e == a.wait - (c + e);
      assert p(Unit(a.member, a.number, a.wait)) == q(Unit(a.member, a.number, a.wait - (c + e)));
    } else {
      assert p(Unit(id, a.number, a.wait)) == q(Unit(id, a.number, b.wait - e));
    }
  }

  /** Both rules keep every placement of every member. */
  lemma {:induction false} TurnKeepsSlots(sp: Speeds, us: seq<Unit>, id: int, selected: int, default: int, preserve: bool)
    requires TurnAllowed(sp, us, id)
    ensures SameSlots(us, AfterTurn(sp, us, id, selected, default, preserve))
  {
    hide Sorted, Pending, Futures, Elapsed, Count, Follows, TurnAllowed;
    var d := Elapsed(sp, us, id, selected, default, preserve);
    var after := AfterTurn(sp, us, id, selected, default, preserve);
    forall m ensures Owned(us, m) == Owned(after, m) {
      OfFollows(m, id, d);
      TurnTransfer(sp, us, id, selected, default, preserve, Of(m), Of(m));
    }
    forall m, n ensures Count(us, Slot(m, n)) == Count(after, Slot(m, n)) {
      SlotFollows(m, n, id, d);
      TurnTransfer(sp, us, id, selected, default, preserve, Slot(m, n), Slot(m, n));
    }
  }

  lemma {:induction false} OfFollows(m: int, id: int, d: int)
    ensures Follows(Of(m), Of(m), id, d)
  {
  }

  lemma {:induction false} SlotFollows(m: int, n: int, id: int, d: int)
    ensures Follows(Slot(m, n), Slot(m, n), id, d)
  {
  }

  function Placed(id: int, number: int, wait: int): Unit -> bool {
    (u: Unit) => u == Unit(id, number, wait)
  }

  lemma {:induction false} PlacedFollows(m: int, n: int, w: int, id: int, d: int)
    requires m != id
    ensures Follows(Placed(m, n, w), Placed(m, n, w - d), id, d)
  {
  }

  /** Everybody else's placements move by one common amount, so their pairwise differences stay. */
  lemma {:induction false} TurnShiftsOthers(sp: Speeds, us: seq<Unit>, id: int, selected: int, default: int, preserve: bool)
    requires TurnAllowed(sp, us, id)
    ensures var d := Elapsed(sp, us, id, selected, default, preserve);
            forall m, n, w | m != id ::
              Count(us, Placed(m, n, w))
              == Count(AfterTurn(sp, us, id, selected, default, preserve), Placed(m, n, w - d))
    ensures NonNegative(us) ==> Elapsed(sp, us, id, selected, default, preserve) >= 0
  {
    hide Sorted, Pending, Futures, AfterTurn, Count, Follows, TurnAllowed;
    var d := Elapsed(sp, us, id, selected, default, preserve);
    forall m, n, w | m != id
      ensures Count(us, Placed(m, n, w)) == Count(AfterTurn(sp, us, id, selected, default, preserve), Placed(m, n, w - d)) {
      PlacedFollows(m, n, w, id, d);
      TurnTransfer(sp, us, id, selected, default, preserve, Placed(m, n, w), Placed(m, n, w - d));
    }
    if NonNegative(us) {
      PendingAhead(sp, us, id, selected, default, preserve);
    }
  }

  /** What the sort does to waits: the head is a minimum, and no wait is new. */
  lemma {:induction false} SortedWaits(sp: Speeds, us: seq<Unit>)
    ensures var s := Sorted(sp, us);
            (forall i | 0 <= i < |s| :: s[0].wait <= s[i].wait)
            && (NonNegative(us) ==> NonNegative(s))
  {
    var s := Sorted(sp, us);
    SortedPermutes(sp, us);
    forall i | 0 <= i < |s| ensures s[0].wait <= s[i].wait && (NonNegative(us) ==> s[i].wait >= 0) {
      assert s[i] in multiset(us);
      if i > 0 { assert Before(sp, s[0], s[i]); }
    }
  }

  /** Nothing is queued before the moment of acting, and the placement that comes back lands at least one later. */
  lemma {:induction false} PendingAhead(sp: Speeds, us: seq<Unit>, id: int, selected: int, default: int, preserve: bool)
    requires TurnAllowed(sp, us, id) && NonNegative(us)
    ensures var pending := Pending(Sorted(sp, us), id, selected, default, preserve);
            NonNegative(pending) && pending[|us| - 1].wait >= 1 && Sorted(sp, pending)[0].wait >= 0
  {
    hide Sorted, HeadMayAct;
    var s, futures := Sorted(sp, us), Futures(Sorted(sp, us), id, selected, preserve);
    SortedWaits(sp, us);
    FuturesAhead(s, futures);
    SortedWaits(sp, Pending(s, id, selected, default, preserve));
  }

  lemma {:induction false} FuturesAhead(s: seq<Unit>, futures: seq<Unit>)
    requires |s| == |futures| + 1 && s[0].wait >= 0
    requires forall i | 0 <= i < |s| :: s[0].wait <= s[i].wait
    requires forall i | 0 <= i < |futures| :: futures[i].wait == s[i + 1].wait - Max(s[0].wait, 0) || futures[i].wait >= 1
    ensures NonNegative(futures)
  {
  }

  // ----- when the actor comes back -------------------------------------------------------------

  /** `r` holds the units of `q`, counted from the least wait among them. */
  ghost predicate CountedFromLeast(q: seq<Unit>, r: seq<Unit>) {
    exists e :: LeastWait(q, e) && multiset(r) == multiset(Shift(q, e))
  }

  predicate LeastWait(q: seq<Unit>, e: int) {
    (exists i | 0 <= i < |q| :: q[i].wait == e) && forall i | 0 <= i < |q| :: e <= q[i].wait
  }

  /**
   * An enemy's turn. From the acting moment on, everything queued stays where it is, and the placement that acted comes
   * back `selected` after the last of the enemy's remaining units.
   */
  lemma {:induction false} EnemyReturns(sp: Speeds, us: seq<Unit>, id: int, selected: int, default: int)
    requires TurnAllowed(sp, us, id)
    ensures var s := Sorted(sp, us);
            var later := Shift(s[1..], Max(s[0].wait, 0));
            Has(later, id)
            && CountedFromLeast(later + [Unit(id, s[0].number, MaxWait(later, id) + Max(selected, 1))],
                                AfterTurn(sp, us, id, selected, default, true))
  {
    hide Sorted, Owned, Pending, MaxWait;
    var s := Sorted(sp, us);
    OwnsLater(s, id);
    var later := Shift(s[1..], Max(s[0].wait, 0));
    HasKept(s[1..], later, id);
    EnemyPending(s, id, selected, default);
    QueueCounted(sp, Pending(s, id, selected, default, true));
  }

  /**
   * An ally's turn. From the acting moment on, the ally's last unit waits `selected`, everything else that is queued stays
   * where it is, and the placement that acted comes back `default` after the first of the ally's units.
   */
  lemma {:induction false} AllyReturns(sp: Speeds, us: seq<Unit>, id: int, selected: int, default: int)
    requires TurnAllowed(sp, us, id)
    ensures var s := Sorted(sp, us);
            var later := Shift(s[1..], Max(s[0].wait, 0));
            Has(later, id)
            && var k := LastOf(later, id);
               var moved := later[k := Unit(id, later[k].number, Max(selected, 1))];
               Has(moved, id)
               && CountedFromLeast(moved + [Unit(id, s[0].number, MinWait(moved, id) + Max(default, 1))],
                                   AfterTurn(sp, us, id, selected, default, false))
  {
    hide Sorted, Owned, Pending, MinWait, LastOf;
    var s := Sorted(sp, us);
    OwnsLater(s, id);
    var later := Shift(s[1..], Max(s[0].wait, 0));
    HasKept(s[1..], later, id);
    var k := LastOf(later, id);
    HasKept(later, later[k := Unit(id, later[k].number, Max(selected, 1))], id);
    AllyPending(s, id, selected, default);
    QueueCounted(sp, Pending(s, id, selected, default, false));
  }

  lemma {:induction false} EnemyPending(s: seq<Unit>, id: int, selected: int, default: int)
    requires HeadMayAct(s, id)
    ensures var later := Shift(s[1..], Max(s[0].wait, 0));
            Has(later, id)
            && Pending(s, id, selected, default, true) == later + [Unit(id, s[0].number, MaxWait(later, id) + Max(selected, 1))]
  {
    OwnsLater(s, id);
    HasKept(s[1..], Shift(s[1..], Max(s[0].wait, 0)), id);
  }

  lemma {:induction false} AllyPending(s: seq<Unit>, id: int, selected: int, default: int)
    requires HeadMayAct(s, id)
    ensures var later := Shift(s[1..], Max(s[0].wait, 0));
            Has(later, id)
            && var k := LastOf(later, id);
               var moved := later[k := Unit(id, later[k].number, Max(selected, 1))];
               Has(moved, id)
               && Pending(s, id, selected, default, false) == moved + [Unit(id, s[0].number, MinWait(moved, id) + Max(default, 1))]
  {
    hide MinWait, LastOf, Owned;
    var later := Shift(s[1..], Max(s[0].wait, 0));
    OwnsLater(s, id);
    HasKept(s[1..], later, id);
    var k := LastOf(later, id);
    HasKept(later, later[k := Unit(id, later[k].number, Max(selected, 1))], id);
    assert Reschedule(later, id, Max(selected, 1)) == later[k := Unit(id, later[k].number, Max(selected, 1))];
  }

  /** Sorting and counting from the head is counting from the least wait. */
  lemma {:induction false} QueueCounted(sp: Speeds, q: seq<Unit>)
    requires q != []
    ensures CountedFromLeast(q, FromHead(Sorted(sp, q)))
  {
    hide Sorted;
    var s := Sorted(sp, q);
    var e := s[0].wait;
    SortedPermutes(sp, q);
    SortedWaits(sp, q);
    assert LeastWait(q, e) by {
      assert s[0] in multiset(q);
      forall i | 0 <= i < |q| ensures e <= q[i].wait {
        assert q[i] in multiset(s);
      }
    }
    ShiftPermutes(q, s, e);
  }

  lemma {:induction false} ShiftPermutes(a: seq<Unit>, b: seq<Unit>, e: int)
    requires multiset(a) == multiset(b)
    ensures multiset(Shift(a, e)) == multiset(Shift(b, e))
  {
    forall u ensures multiset(Shift(a, e))[u] == multiset(Shift(b, e))[u] {
      ShiftCount(a, e, u);
      ShiftCount(b, e, u);
    }
  }

  lemma {:induction false} ShiftCount(a: seq<Unit>, e: int, u: Unit)
    ensures multiset(Shift(a, e))[u] == multiset(a)[Unit(u.member, u.number, u.wait + e)]
  {
    hide Shift;
    if a == [] {
      NothingShifted(e);
    } else {
      ShiftCount(a[1..], e, u);
      ShiftHead(a, e);
      ConsCount(Unit(a[0].member, a[0].number, a[0].wait - e), Shift(a[1..], e), u);
      assert a == [a[0]] + a[1..];
      ConsCount(a[0], a[1..], Unit(u.member, u.number, u.wait + e));
    }
  }

  lemma {:induction false} ConsCount(h: Unit, t: seq<Unit>, u: Unit)
    ensures multiset([h] + t)[u] == (if h == u then 1 else 0) + multiset(t)[u]
  {
  }

  lemma {:induction false} NothingShifted(e: int)
    ensures Shift([], e) == []
  {
  }

  lemma {:induction false} ShiftHead(a: seq<Unit>, e: int)
    requires a != []
    ensures Shift(a, e) == [Unit(a[0].member, a[0].number, a[0].wait - e)] + Shift(a[1..], e)
  {
  }

  /** After a turn the queue is in order and counted from its head. */
  lemma {:induction false} TurnNormalises(sp: Speeds, us: seq<Unit>, id: int, selected: int, default: int, preserve: bool)
    requires TurnAllowed(sp, us, id)
    ensures var after := AfterTurn(sp, us, id, selected, default, preserve);
            Ordered(sp, after) && after[0].wait == 0 && NonNegative(after)
  {
    hide Sorted, Owned, Ordered, Pending;
    var pending := Pending(Sorted(sp, us), id, selected, default, preserve);
    SortedWaits(sp, pending);
    SortedPermutes(sp, pending);
    ShiftOrdered(sp, Sorted(sp, pending), Sorted(sp, pending)[0].wait);
  }

  lemma {:induction false} ShiftOrdered(sp: Speeds, s: seq<Unit>, d: int)
    requires Ordered(sp, s)
    ensures Ordered(sp, Shift(s, d))
  {
    forall i, j | 0 <= i < j < |s| ensures Before(sp, Shift(s, d)[i], Shift(s, d)[j]) {
      assert Before(sp, s[i], s[j]);
    }
  }

  // ----- delays and removal --------------------------------------------------------------------

  /** Every unit of `id` moved back by `d`. */
  function Delayed(us: seq<Unit>, id: int, d: int): (r: seq<Unit>)
    ensures |r| == |us|
    ensures forall i | 0 <= i < |us| :: r[i] == if us[i].member == id then us[i].(wait := us[i].wait + d) else us[i]
  {
    seq(|us|, i requires 0 <= i < |us| =>
      if us[i].member == id then us[i].(wait := us[i].wait + d) else us[i])
  }

  function AfterDelay(sp: Speeds, us: seq<Unit>, id: int, d: int): (r: seq<Unit>)
    ensures |r| == |us|
  {
    Sorted(sp, Delayed(Sorted(sp, us), id, d))
  }

  /** The units of everybody but `id`, in order. */
  function WithoutMember(us: seq<Unit>, id: int): (r: seq<Unit>)
    ensures |r| <= |us|
  {
    if us == [] then [] else (if us[0].member == id then [] else [us[0]]) + WithoutMember(us[1..], id)
  }

  function Without(us: seq<Unit>, ids: seq<int>): (r: seq<Unit>)
    ensures |r| <= |us|
  {
    if us == [] then [] else (if us[0].member in ids then [] else [us[0]]) + Without(us[1..], ids)
  }

  /**
   * The delay that moves the first unit of `id` back by `slots` places among the others: half way into the gap it
   * lands in, or one past the last. None where the source refuses: no slots, a wrong number of units, nobody else
   * queued, or a gap that would not move the unit at all.
   */
  function SlotDelay(s: seq<Unit>, id: int, slots: nat): Option<int> {
    if slots == 0 || !(2 <= Owned(s, id) <= 3) || FirstOf(s, id).None? then None
    else
      var first := FirstOf(s, id).value;
      var others := WithoutMember(s, id);
      var at := Min(first + slots, |others|);
      if at == 0 then None
      else
        var lower := others[at - 1].wait;
        var landing := if at < |others| then lower + (others[at].wait - lower) / 2 else lower + 1;
        if landing - s[first].wait <= 0 then None else Some(landing - s[first].wait)
  }

  lemma {:induction false} WithoutMemberKeeps(us: seq<Unit>, id: int)
    ensures forall u :: u in WithoutMember(us, id) <==> u in us && u.member != id
    ensures forall sp | Ordered(sp, us) :: Ordered(sp, WithoutMember(us, id))
  {
    if us != [] {
      assert us == [us[0]] + us[1..];
      WithoutMemberKeeps(us[1..], id);
      var rest := WithoutMember(us[1..], id);
      forall sp | Ordered(sp, us) ensures Ordered(sp, WithoutMember(us, id)) {
        assert Ordered(sp, us[1..]);
        forall i | 0 <= i < |rest| ensures Before(sp, us[0], rest[i]) {
          var j :| 0 <= j < |us[1..]| && us[1..][j] == rest[i];
          assert us[j + 1] == rest[i];
        }
      }
    }
  }

  /**
   * Where a delay by slots lands. The delay is positive, and the first unit ends between the others it was sent
   * between: nobody of the first `at` others waits longer and nobody of the rest waits less. In a gap of two ticks or
   * more, or at the end of the queue, exactly the first `at` others act before it; a narrower gap leaves a tie, which
   * speed and number decide.
   */
  lemma {:induction false} SlotLanding(sp: Speeds, us: seq<Unit>, id: int, slots: nat)
    requires SlotDelay(Sorted(sp, us), id, slots).Some?
    ensures var s, d := Sorted(sp, us), SlotDelay(Sorted(sp, us), id, slots).value;
            var first, others := FirstOf(s, id).value, WithoutMember(s, id);
            var at, landed := Min(first + slots, |others|), s[first].(wait := s[first].wait + d);
            && d > 0 && landed in multiset(AfterDelay(sp, us, id, d))
            && (forall k | 0 <= k < at :: others[k].wait <= landed.wait)
            && (forall k | at <= k < |others| :: landed.wait <= others[k].wait)
            && (at == |others| || others[at].wait - others[at - 1].wait >= 2 ==>
                  forall k | 0 <= k < |others| :: Before(sp, others[k], landed) <==> k < at)
  {
    hide Sorted, Owned, Ordered, SlotDelay, WithoutMember, Before;
    var s, d := Sorted(sp, us), SlotDelay(Sorted(sp, us), id, slots).value;
    SortedPermutes(sp, us);
    SlotGap(sp, s, id, slots);
    var r := Delayed(s, id, d);
    SortedPermutes(sp, r);
    assert r[FirstOf(s, id).value] in multiset(r);
  }

  lemma {:induction false} SlotGap(sp: Speeds, s: seq<Unit>, id: int, slots: nat)
    requires Ordered(sp, s) && SlotDelay(s, id, slots).Some?
    ensures FirstOf(s, id).Some? && SlotDelay(s, id, slots).value > 0
    ensures var first, others := FirstOf(s, id).value, WithoutMember(s, id);
            var at, landed := Min(first + slots, |others|), s[first].(wait := s[first].wait + SlotDelay(s, id, slots).value);
            && at > 0
            && (forall k | 0 <= k < at :: others[k].wait <= landed.wait)
            && (forall k | at <= k < |others| :: landed.wait <= others[k].wait)
            && (at == |others| || others[at].wait - others[at - 1].wait >= 2 ==>
                  forall k | 0 <= k < |others| :: Before(sp, others[k], landed) <==> k < at)
  {
    hide Owned, WithoutMember, FirstOf;
    WithoutMemberKeeps(s, id);
    var others := WithoutMember(s, id);
    forall i, j | 0 <= i <= j < |others| ensures others[i].wait <= others[j].wait {
      assert i < j ==> Before(sp, others[i], others[j]);
    }
  }

  /**
   * When a delay by slots has an answer: some slots, two or three units of the member, somebody else to move behind, and a
   * landing after where the first unit stands.
   */
  lemma {:induction false} SlotDelayExactly(s: seq<Unit>, id: int, slots: nat)
    ensures SlotDelay(s, id, slots).Some? <==>
              && slots > 0 && 2 <= Owned(s, id) <= 3 && FirstOf(s, id).Some?
              && var first, others := FirstOf(s, id).value, WithoutMember(s, id);
                 var at := Min(first + slots, |others|);
                 at > 0
                 && if at == |others| then others[at - 1].wait >= s[first].wait
                    else others[at - 1].wait + (others[at].wait - others[at - 1].wait) / 2 > s[first].wait
    ensures SlotDelay(s, id, slots).Some? ==>
              var first, others := FirstOf(s, id).value, WithoutMember(s, id);
              var at, landed := Min(first + slots, |others|), s[first].wait + SlotDelay(s, id, slots).value;
              if at == |others| then landed == others[at - 1].wait + 1
              else
                var low, high := others[at - 1].wait, others[at].wait;
                (low <= high ==> 2 * landed <= low + high <= 2 * landed + 1)
  {
    hide Owned, FirstOf, WithoutMember;
  }

  /** A delay keeps every placement, and changes no wait but those of `id`, each by `d`. */
  lemma {:induction false} DelayKeeps(sp: Speeds, us: seq<Unit>, id: int, d: int)
    ensures SameSlots(us, AfterDelay(sp, us, id, d)) && Ordered(sp, AfterDelay(sp, us, id, d))
    ensures forall m, n, w ::
              Count(us, Placed(m, n, w)) == Count(AfterDelay(sp, us, id, d), Placed(m, n, if m == id then w + d else w))
  {
    hide Sorted, Count;
    var s := Sorted(sp, us);
    var r := Delayed(s, id, d);
    SortedPermutes(sp, us);
    SortedPermutes(sp, r);
    forall m ensures Owned(us, m) == Owned(AfterDelay(sp, us, id, d), m) {
      DelayTransfer(us, s, AfterDelay(sp, us, id, d), id, d, Of(m), Of(m));
    }
    forall m, n ensures Count(us, Slot(m, n)) == Count(AfterDelay(sp, us, id, d), Slot(m, n)) {
      DelayTransfer(us, s, AfterDelay(sp, us, id, d), id, d, Slot(m, n), Slot(m, n));
    }
    forall m, n, w
      ensures Count(us, Placed(m, n, w)) == Count(AfterDelay(sp, us, id, d), Placed(m, n, if m == id then w + d else w)) {
      DelayTransfer(us, s, AfterDelay(sp, us, id, d), id, d, Placed(m, n, w), Placed(m, n, if m == id then w + d else w));
    }
  }

  /** The units of the listed members pushed back by `d`, everything else where it was. */
  function Pushed(us: seq<Unit>, ids: set<int>, d: int): (r: seq<Unit>)
    ensures |r| == |us|
    ensures forall i | 0 <= i < |us| :: r[i] == if us[i].member in ids then us[i].(wait := us[i].wait + d) else us[i]
  {
    seq(|us|, i requires 0 <= i < |us| => if us[i].member in ids then us[i].(wait := us[i].wait + d) else us[i])
  }

  lemma {:induction false} PushedCount(us: seq<Unit>, ids: set<int>, d: int, u: Unit)
    ensures multiset(Pushed(us, ids, d))[u] == multiset(us)[Unit(u.member, u.number, if u.member in ids then u.wait - d else u.wait)]
  {
    hide Pushed;
    PushedHead(us, ids, d);
    if us != [] {
      var h := if us[0].member in ids then us[0].(wait := us[0].wait + d) else us[0];
      var v := Unit(u.member, u.number, if u.member in ids then u.wait - d else u.wait);
      PushedCount(us[1..], ids, d, u);
      ConsCount(h, Pushed(us[1..], ids, d), u);
      assert us == [us[0]] + us[1..];
      ConsCount(us[0], us[1..], v);
      assert h == u <==> us[0] == v;
    }
  }

  lemma {:induction false} PushedHead(us: seq<Unit>, ids: set<int>, d: int)
    ensures us == [] ==> Pushed(us, ids, d) == []
    ensures us != [] ==> Pushed(us, ids, d)
                         == [if us[0].member in ids then us[0].(wait := us[0].wait + d) else us[0]] + Pushed(us[1..], ids, d)
  {
  }

  lemma {:induction false} PushedPermutes(a: seq<Unit>, b: seq<Unit>, ids: set<int>, d: int)
    requires multiset(a) == multiset(b)
    ensures multiset(Pushed(a, ids, d)) == multiset(Pushed(b, ids, d))
  {
    forall u ensures multiset(Pushed(a, ids, d))[u] == multiset(Pushed(b, ids, d))[u] {
      PushedCount(a, ids, d, u);
      PushedCount(b, ids, d, u);
    }
  }

  /** A delay pushes back one member. */
  lemma {:induction false} DelayPushes(sp: Speeds, us: seq<Unit>, id: int, d: int)
    ensures multiset(AfterDelay(sp, us, id, d)) == multiset(Pushed(us, {id}, d))
  {
    hide Sorted;
    var s := Sorted(sp, us);
    SortedPermutes(sp, us);
    SortedPermutes(sp, Delayed(s, id, d));
    assert Delayed(s, id, d) == Pushed(s, {id}, d);
    PushedPermutes(us, s, {id}, d);
  }

  lemma {:induction false} DelayTransfer(us: seq<Unit>, s: seq<Unit>, after: seq<Unit>, id: int, d: int, p: Unit -> bool, q: Unit -> bool)
    requires multiset(us) == multiset(s) && multiset(after) == multiset(Delayed(s, id, d))
    requires forall m, n, w :: p(Unit(m, n, w)) == q(Unit(m, n, if m == id then w + d else w))
    ensures Count(us, p) == Count(after, q)
  {
    CountPermutation(us, s, p);
    forall i | 0 <= i < |s| ensures p(s[i]) == q(Delayed(s, id, d)[i]) {
      assert s[i] == Unit(s[i].member, s[i].number, s[i].wait);
    }
    CountPointwise(s, p, Delayed(s, id, d), q);
    CountPermutation(Delayed(s, id, d), after, q);
  }

  /** Removal drops exactly the units of the listed members. */
  lemma {:induction false} RemovalKeeps(us: seq<Unit>, ids: seq<int>, p: Unit -> bool)
    ensures (forall i | 0 <= i < |Without(us, ids)| :: Without(us, ids)[i].member !in ids && Without(us, ids)[i] in us)
    ensures (forall i | 0 <= i < |us| :: p(us[i]) ==> us[i].member !in ids) ==> Count(Without(us, ids), p) == Count(us, p)
    ensures Count(Without(us, ids), p) <= Count(us, p)
  {
    if us != [] {
      RemovalKeeps(us[1..], ids, p);
      assert us == [us[0]] + us[1..];
      CountConcat(if us[0].member in ids then [] else [us[0]], Without(us[1..], ids), p);
    }
  }
}
