/** Who is queued: the roster invariant, the search for the current actor, and the opening queue of a wave. */
module Roster {
  import opened Prelude
  import opened Counting
  import opened BattleModel
  import opened Timeline
  import opened Starvation

  predicate DistinctIds(ms: seq<Member>) {
    forall i, j | 0 <= i < j < |ms| :: ms[i].id != ms[j].id
  }

  predicate Living(ms: seq<Member>, id: int) {
    exists i | 0 <= i < |ms| :: ms[i].id == id && ms[i].alive
  }

  /** A living member holds two or three units, anybody else none. */
  predicate Staffed(ms: seq<Member>, us: seq<Unit>, id: int) {
    if Living(ms, id) then 2 <= Owned(us, id) <= 3 else Owned(us, id) == 0
  }

  /** Every living member is staffed by distinct placements, nobody else is, and no wait is negative. */
  ghost predicate Manned(ms: seq<Member>, us: seq<Unit>) {
    && DistinctIds(ms)
    && NonNegative(us)
    && (forall id :: Staffed(ms, us, id))
    && (forall id, n :: Count(us, Slot(id, n)) <= 1)
  }

  // ----- the current actor ---------------------------------------------------------------------

  /** min_by_key over (wait, number) among the units of one member. */
  function FirstUnit(us: seq<Unit>, id: int): (r: Option<Unit>)
    ensures r.None? <==> !Has(us, id)
    ensures r.Some? ==> r.value in us && r.value.member == id
    ensures r.Some? ==> forall i | 0 <= i < |us| && us[i].member == id ::
              r.value.wait < us[i].wait || (r.value.wait == us[i].wait && r.value.number <= us[i].number)
  {
    if us == [] then None
    else
      assert us == [us[0]] + us[1..];
      var rest := FirstUnit(us[1..], id);
      if us[0].member != id then rest
      else if rest.None? then Some(us[0])
      else if us[0].wait < rest.value.wait || (us[0].wait == rest.value.wait && us[0].number <= rest.value.number)
        then Some(us[0])
      else rest
  }

  datatype Key = Key(wait: int, slowness: int, number: int, id: int)

  /** The search key of a member; one without units sorts behind everybody. */
  function KeyOf(us: seq<Unit>, m: Member): Key {
    match FirstUnit(us, m.id)
    case None => Key(I32_MAX, -m.speed, I32_MAX, m.id)
    case Some(u) => Key(u.wait, -m.speed, u.number, m.id)
  }

  predicate KeyLeq(a: Key, b: Key) {
    || a.wait < b.wait
    || (a.wait == b.wait && (|| a.slowness < b.slowness
                             || (a.slowness == b.slowness && (|| a.number < b.number
                                                              || (a.number == b.number && a.id <= b.id)))))
  }

  predicate Eligible(m: Member, kind: Option<int>) {
    m.alive && (kind.None? || m.kind == kind.value)
  }

  /** earliest_living_member: the first member with the least key among the living ones of a kind. */
  function EarliestLiving(ms: seq<Member>, us: seq<Unit>, kind: Option<int>): (r: Option<Member>)
    ensures r.None? <==> forall i | 0 <= i < |ms| :: !Eligible(ms[i], kind)
    ensures r.Some? ==> r.value in ms && Eligible(r.value, kind)
    ensures r.Some? ==> forall i | 0 <= i < |ms| && Eligible(ms[i], kind) :: KeyLeq(KeyOf(us, r.value), KeyOf(us, ms[i]))
  {
    if ms == [] then None
    else
      assert ms == [ms[0]] + ms[1..];
      var rest := EarliestLiving(ms[1..], us, kind);
      if !Eligible(ms[0], kind) then rest
      else if rest.None? || KeyLeq(KeyOf(us, ms[0]), KeyOf(us, rest.value)) then Some(ms[0])
      else rest
  }

  lemma {:induction false} TableSpeed(ms: seq<Member>, i: nat)
    requires DistinctIds(ms) && i < |ms|
    ensures SpeedOf(SpeedTable(ms), ms[i].id) == ms[i].speed
  {
    if i > 0 {
      TableSpeed(ms[1..], i - 1);
    }
  }

  lemma {:induction false} OwnsSome(us: seq<Unit>, id: int)
    ensures Owned(us, id) > 0 <==> Has(us, id)
  {
    CountBounded(us, Of(id));
  }

  /** The member-by-member search and the sort agree: the found member's unit precedes every unit of its kind. */
  lemma {:induction false} EarliestPrecedes(ms: seq<Member>, us: seq<Unit>, kind: Option<int>, i: nat, u: Unit)
    requires Manned(ms, us) && i < |ms| && Eligible(ms[i], kind) && u in us && u.member == ms[i].id
    ensures var m := EarliestLiving(ms, us, kind);
            m.Some? && FirstUnit(us, m.value.id).Some? && Before(SpeedTable(ms), FirstUnit(us, m.value.id).value, u)
  {
    hide Owned;
    var m := EarliestLiving(ms, us, kind).value;
    var k :| 0 <= k < |ms| && ms[k] == m;
    assert Staffed(ms, us, m.id) && Living(ms, m.id);
    OwnsSome(us, m.id);
    TableSpeed(ms, i);
    TableSpeed(ms, k);
    assert KeyLeq(KeyOf(us, m), KeyOf(us, ms[i]));
  }

  /**
   * current_actor is the owner of the head unit: on a manned queue the per-member minimum search, restricted to a
   * kind or not, finds the owner of the first unit that the sort puts in front among the members of that kind.
   */
  lemma {:induction false} CurrentActorOwnsHead(ms: seq<Member>, us: seq<Unit>)
    requires Manned(ms, us) && EarliestLiving(ms, us, None).Some?
    ensures us != [] && Sorted(SpeedTable(ms), us)[0].member == EarliestLiving(ms, us, None).value.id
    ensures Some(Sorted(SpeedTable(ms), us)[0]) == FirstUnit(us, EarliestLiving(ms, us, None).value.id)
  {
    hide Sorted, Owned, EarliestLiving, FirstUnit;
    var sp := SpeedTable(ms);
    var m := EarliestLiving(ms, us, None).value;
    assert Living(ms, m.id) && Staffed(ms, us, m.id);
    OwnsSome(us, m.id);
    var f := FirstUnit(us, m.id).value;
    SortedPermutes(sp, us);
    var h := Sorted(sp, us)[0];
    assert h in multiset(us) && f in multiset(Sorted(sp, us));
    OwnsSome(us, h.member);
    assert Has(us, h.member) by { var i :| 0 <= i < |us| && us[i] == h; }
    assert Staffed(ms, us, h.member) && Living(ms, h.member);
    var i :| 0 <= i < |ms| && ms[i].id == h.member && ms[i].alive;
    EarliestPrecedes(ms, us, None, i, h);
    HeadIsLeast(sp, Sorted(sp, us), f);
  }

  // ----- what keeps the roster -----------------------------------------------------------------

  lemma {:induction false} SlotsKeepRoster(ms: seq<Member>, us: seq<Unit>, vs: seq<Unit>)
    requires Manned(ms, us) && SameSlots(us, vs) && NonNegative(vs)
    ensures Manned(ms, vs)
  {
    hide Owned, Count, Living;
    forall id ensures Staffed(ms, vs, id) {
      assert Staffed(ms, us, id);
    }
    forall id, n ensures Count(vs, Slot(id, n)) <= 1 {
      assert Count(us, Slot(id, n)) <= 1;
    }
  }

  lemma {:induction false} TurnKeepsRoster(ms: seq<Member>, us: seq<Unit>, id: int, selected: int, default: int, preserve: bool)
    requires Manned(ms, us) && TurnAllowed(SpeedTable(ms), us, id)
    ensures Manned(ms, AfterTurn(SpeedTable(ms), us, id, selected, default, preserve))
  {
    hide AfterTurn, TurnAllowed, Manned, SameSlots;
    TurnKeepsSlots(SpeedTable(ms), us, id, selected, default, preserve);
    TurnNormalises(SpeedTable(ms), us, id, selected, default, preserve);
    SlotsKeepRoster(ms, us, AfterTurn(SpeedTable(ms), us, id, selected, default, preserve));
  }

  lemma {:induction false} DelayKeepsRoster(ms: seq<Member>, us: seq<Unit>, id: int, d: int)
    requires Manned(ms, us) && d >= 0
    ensures Manned(ms, AfterDelay(SpeedTable(ms), us, id, d))
  {
    hide Sorted, Owned, Count, SameSlots, Living, Ordered;
    DelayKeeps(SpeedTable(ms), us, id, d);
    SortedWaits(SpeedTable(ms), us);
    SortedWaits(SpeedTable(ms), Delayed(Sorted(SpeedTable(ms), us), id, d));
    SlotsKeepRoster(ms, us, AfterDelay(SpeedTable(ms), us, id, d));
  }

  /** When the listed members die, removing their units restores the invariant for the survivors. */
  lemma {:induction false} RemovalKeepsRoster(before: seq<Member>, after: seq<Member>, us: seq<Unit>, ids: seq<int>)
    requires Manned(before, us) && DistinctIds(after)
    requires forall id :: Living(after, id) <==> Living(before, id) && id !in ids
    ensures Manned(after, Without(us, ids))
  {
    hide Living, Count;
    var r := Without(us, ids);
    forall id ensures Staffed(after, r, id) {
      assert Staffed(before, us, id);
      RemovalKeeps(us, ids, Of(id));
      if id in ids {
        CountBounded(r, Of(id));
      }
    }
    forall id, n ensures Count(r, Slot(id, n)) <= 1 {
      assert Count(us, Slot(id, n)) <= 1;
      RemovalKeeps(us, ids, Slot(id, n));
    }
    RemovalKeeps(us, ids, Of(0));
  }

  // ----- who stays in front --------------------------------------------------------------------

  /** `a` owns the head, in terms that do not mention the sort. */
  ghost predicate Heads(sp: Speeds, us: seq<Unit>, a: int) {
    exists h: Unit :: h in us && h.member == a && forall u | u in us :: Before(sp, h, u)
  }

  lemma {:induction false} HeadsIsHead(sp: Speeds, us: seq<Unit>, a: int)
    requires us != []
    ensures Heads(sp, us, a) <==> Sorted(sp, us)[0].member == a
  {
    hide Sorted;
    var s := Sorted(sp, us);
    SortedPermutes(sp, us);
    assert s[0] in multiset(us);
    forall u | u in us ensures Before(sp, s[0], u) {
      assert u in multiset(s);
      HeadIsLeast(sp, s, u);
    }
    if Heads(sp, us, a) {
      var h: Unit :| h in us && h.member == a && forall u | u in us :: Before(sp, h, u);
      assert Before(sp, h, s[0]) && Before(sp, s[0], h);
    }
  }

  /** When a turn is refused: on a manned queue, under any speeds, exactly when the actor does not own the head unit. */
  lemma {:induction false} TurnAllowedExactly(ms: seq<Member>, sp: Speeds, us: seq<Unit>, a: int)
    requires Manned(ms, us) && us != []
    ensures TurnAllowed(sp, us, a) <==> Heads(sp, us, a)
  {
    hide Sorted, Heads, Count;
    HeadsIsHead(sp, us, a);
    SortedPermutes(sp, us);
    CountPermutation(us, Sorted(sp, us), Of(a));
    var h := Sorted(sp, us)[0];
    if h.member == a {
      assert h in multiset(us);
      assert Has(us, a) by { var i :| 0 <= i < |us| && us[i] == h; }
      OwnsSome(us, a);
      assert Staffed(ms, us, a);
    }
  }

  lemma {:induction false} PairManned(ms: seq<Member>, us: seq<Unit>)
    requires |ms| == 2 && ms[0].id == 1 && ms[1].id == 11 && ms[0].alive && ms[1].alive
    requires us == [Unit(1, 1, 0), Unit(11, 1, 0), Unit(1, 2, 5), Unit(11, 2, 5)]
    ensures Manned(ms, us)
  {
    forall p: Unit -> bool
      ensures Count(us, p) == (if p(us[0]) then 1 else 0) + (if p(us[1]) then 1 else 0)
                              + (if p(us[2]) then 1 else 0) + (if p(us[3]) then 1 else 0) {
      CountFour(us, p);
    }
    forall id ensures Staffed(ms, us, id) {
      assert Living(ms, id) <==> ms[0].id == id || ms[1].id == id;
    }
  }

  lemma {:induction false} CountFour(us: seq<Unit>, p: Unit -> bool)
    requires |us| == 4
    ensures Count(us, p) == (if p(us[0]) then 1 else 0) + (if p(us[1]) then 1 else 0)
                            + (if p(us[2]) then 1 else 0) + (if p(us[3]) then 1 else 0)
  {
    assert Count(us[3..], p) == (if p(us[3]) then 1 else 0) + Count(us[3..][1..], p);
    assert us[2..][1..] == us[3..] && us[1..][1..] == us[2..];
    assert Count(us[2..], p) == (if p(us[2]) then 1 else 0) + Count(us[3..], p);
    assert Count(us[1..], p) == (if p(us[1]) then 1 else 0) + Count(us[2..], p);
  }

  /**
   * A speed change between the search for the actor and its turn can refuse the turn: member 1 is first while it is the
   * fastest of two with a unit due now, and no longer heads the queue once member 11 is faster.
   */
  lemma {:induction false} SpeedChangeCanRefuse(before: Member, after: Member, rival: Member)
    requires before.id == 1 && rival.id == 11 && before.alive && rival.alive && before.speed > rival.speed
    requires after == rival.(speed := before.speed + 1)
    ensures var us := [Unit(1, 1, 0), Unit(11, 1, 0), Unit(1, 2, 5), Unit(11, 2, 5)];
            && EarliestLiving([before, rival], us, None) == Some(before)
            && TurnAllowed(SpeedTable([before, rival]), us, 1)
            && !TurnAllowed(SpeedTable([before, after]), us, 1)
  {
    hide EarliestLiving, Sorted;
    var us := [Unit(1, 1, 0), Unit(11, 1, 0), Unit(1, 2, 5), Unit(11, 2, 5)];
    var ms, later := [before, rival], [before, after];
    PairManned(ms, us);
    PairManned(later, us);
    assert Heads(SpeedTable(ms), us, 1) by { TableSpeed(ms, 0); TableSpeed(ms, 1); assert us[0] in us; }
    TurnAllowedExactly(ms, SpeedTable(ms), us, 1);
    TurnAllowedExactly(later, SpeedTable(later), us, 1);
    TableSpeed(later, 0);
    TableSpeed(later, 1);
    assert us[1] in us && !Before(SpeedTable(later), us[0], us[1]);
    HeadsIsHead(SpeedTable(later), us, 11);
    HeadsIsHead(SpeedTable(later), us, 1);
    CurrentActorOwnsHead(ms, us);
    HeadsIsHead(SpeedTable(ms), us, 1);
  }

  /** Delaying somebody else, or removing somebody else, leaves the head to its owner. */
  lemma {:induction false} DelayKeepsHead(sp: Speeds, us: seq<Unit>, a: int, b: int, d: int)
    requires Heads(sp, us, a) && a != b && d >= 0
    ensures Heads(sp, AfterDelay(sp, us, b, d), a)
  {
    hide Sorted, Ordered;
    var h: Unit :| h in us && h.member == a && forall u | u in us :: Before(sp, h, u);
    var s := Sorted(sp, us);
    var r := Delayed(s, b, d);
    SortedPermutes(sp, us);
    SortedPermutes(sp, r);
    assert h in multiset(s);
    var k :| 0 <= k < |s| && s[k] == h;
    assert r[k] == h && h in multiset(Sorted(sp, r));
    forall u | u in Sorted(sp, r) ensures Before(sp, h, u) {
      assert u in multiset(r);
      var j :| 0 <= j < |r| && r[j] == u;
      assert s[j] in multiset(us);
      assert Before(sp, h, s[j]);
    }
  }

  lemma {:induction false} RemovalKeepsHead(sp: Speeds, us: seq<Unit>, a: int, ids: seq<int>)
    requires Heads(sp, us, a) && a !in ids
    ensures Heads(sp, Without(us, ids), a)
  {
    hide Count, Without;
    var h: Unit :| h in us && h.member == a && forall u | u in us :: Before(sp, h, u);
    var k :| 0 <= k < |us| && us[k] == h;
    var j := Survivor(us, ids, k);
    RemovalKeeps(us, ids, Of(a));
  }

  // ----- waiting time in members ---------------------------------------------------------------

  function LivingOthers(ms: seq<Member>, b: int): nat {
    if ms == [] then 0 else (if ms[0].alive && ms[0].id != b then 1 else 0) + LivingOthers(ms[1..], b)
  }

  /** Units of others whose owner is not among `ms`. */
  function Strangers(ms: seq<Member>, b: int): Unit -> bool {
    (u: Unit) => u.member != b && !Living(ms, u.member)
  }

  lemma {:induction false} RivalsByMember(ms: seq<Member>, us: seq<Unit>, b: int)
    requires DistinctIds(ms)
    requires forall id | Living(ms, id) :: Owned(us, id) <= 3
    ensures Rivals(us, b) <= 3 * LivingOthers(ms, b) + Count(us, Strangers(ms, b))
  {
    hide Owned;
    if ms == [] {
      CountPointwise(us, Others(b), us, Strangers(ms, b));
    } else {
      assert ms == [ms[0]] + ms[1..];
      forall id | Living(ms[1..], id) ensures Owned(us, id) <= 3 {
        var i :| 0 <= i < |ms[1..]| && ms[1..][i].id == id && ms[1..][i].alive;
        assert ms[i + 1].id == id && ms[i + 1].alive;
      }
      RivalsByMember(ms[1..], us, b);
      LivingStep(ms);
      StrangerStep(ms, us, b);
      assert ms[0].alive ==> Living(ms, ms[0].id);
    }
  }

  lemma {:induction false} LivingStep(ms: seq<Member>)
    requires ms != []
    ensures forall id :: Living(ms, id) <==> Living(ms[1..], id) || (ms[0].alive && ms[0].id == id)
  {
    assert ms == [ms[0]] + ms[1..];
    forall id ensures Living(ms, id) <==> Living(ms[1..], id) || (ms[0].alive && ms[0].id == id) {
      if Living(ms[1..], id) {
        var i :| 0 <= i < |ms[1..]| && ms[1..][i].id == id && ms[1..][i].alive;
        assert ms[i + 1].id == id;
      }
      if i :| 0 < i < |ms| && ms[i].id == id && ms[i].alive {
        assert ms[1..][i - 1].id == id;
      }
    }
  }

  lemma {:induction false} StrangerStep(ms: seq<Member>, us: seq<Unit>, b: int)
    requires ms != [] && forall id :: Living(ms, id) <==> Living(ms[1..], id) || (ms[0].alive && ms[0].id == id)
    ensures Count(us, Strangers(ms[1..], b))
            <= Count(us, Strangers(ms, b)) + (if ms[0].alive && ms[0].id != b then Owned(us, ms[0].id) else 0)
  {
    if us != [] {
      StrangerStep(ms, us[1..], b);
    }
  }

  /** No starvation in members: at most three turns per living rival and tick of waiting. */
  lemma {:induction false} NoStarvationByMember(ms: seq<Member>, us: seq<Unit>, steps: seq<Step>, b: int)
    requires Manned(ms, us) && Living(ms, b)
    requires Run(us, steps).Some? && forall i | 0 <= i < |steps| :: Spares(steps[i], b)
    ensures Has(us, b) && Turns(steps) <= 3 * (Lag(us, b) + 1) * LivingOthers(ms, b)
  {
    hide Run, Owned, Count, Living, Earliest, MinWait;
    assert Staffed(ms, us, b);
    OwnsSome(us, b);
    NoStarvation(us, steps, b);
    forall id | Living(ms, id) ensures Owned(us, id) <= 3 {
      assert Staffed(ms, us, id);
    }
    RivalsByMember(ms, us, b);
    assert Count(us, Strangers(ms, b)) == 0 by { NoStrangers(ms, us, b); }
    MulMonotone(Rivals(us, b), 3 * LivingOthers(ms, b), Lag(us, b) + 1);
    assert 3 * LivingOthers(ms, b) * (Lag(us, b) + 1) == 3 * (Lag(us, b) + 1) * LivingOthers(ms, b);
  }

  lemma {:induction false} NoStrangers(ms: seq<Member>, us: seq<Unit>, b: int)
    requires forall id :: Staffed(ms, us, id)
    ensures Count(us, Strangers(ms, b)) == 0
  {
    CountBounded(us, Strangers(ms, b));
    forall i | 0 <= i < |us| ensures !Strangers(ms, b)(us[i]) {
      OwnsSome(us, us[i].member);
      assert Staffed(ms, us, us[i].member);
    }
  }
}
