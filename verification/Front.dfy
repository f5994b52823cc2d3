/** Who is in front: the member that a request or the loop finds, and the one that opens a wave. */
module Front {
  import opened Prelude
  import opened Division
  import opened BattleModel
  import opened Timeline
  import opened Roster
  import opened Opening

  /** The battle goes on and current_actor is an ally. */
  predicate AllyFront(ms: seq<Member>, us: seq<Unit>) {
    var actor := EarliestLiving(ms, us, None);
    BattleStatus(ms) == Some(InBattle) && actor.Some? && actor.value.kind == ALLY
  }

  /** The member at `k` is alive and owns the head of the queue. */
  predicate InFront(ms: seq<Member>, us: seq<Unit>, k: nat) {
    k < |ms| && ms[k].alive && us != [] && Sorted(SpeedTable(ms), us)[0].member == ms[k].id
  }

  lemma {:induction false} OnlyOne(ms: seq<Member>, i: nat, j: nat)
    requires DistinctIds(ms) && i < |ms| && j < |ms| && ms[i].id == ms[j].id
    ensures i == j
  {
  }

  lemma {:induction false} ManyDistinct(ms: seq<Member>, us: seq<Unit>)
    requires Manned(ms, us)
    ensures DistinctIds(ms)
  {
  }

  /** The member in front is the one the search finds. */
  lemma {:induction false} FrontIsFound(ms: seq<Member>, us: seq<Unit>, k: nat)
    requires Manned(ms, us) && InFront(ms, us, k)
    ensures EarliestLiving(ms, us, None) == Some(ms[k])
  {
    hide Manned, Sorted;
    assert Eligible(ms[k], None);
    var m := EarliestLiving(ms, us, None).value;
    CurrentActorOwnsHead(ms, us);
    var i :| 0 <= i < |ms| && ms[i] == m;
    ManyDistinct(ms, us);
    OnlyOne(ms, i, k);
  }

  lemma {:induction false} SomebodyFront(ms: seq<Member>, us: seq<Unit>) returns (k: nat)
    requires Manned(ms, us) && BattleStatus(ms) == Some(InBattle)
    ensures InFront(ms, us, k) && EarliestLiving(ms, us, None) == Some(ms[k])
  {
    hide Manned, Sorted;
    assert SomeAlive(ms, ALLY);
    var i :| 0 <= i < |ms| && ms[i].alive && ms[i].kind == ALLY;
    assert Eligible(ms[i], None);
    var m := EarliestLiving(ms, us, None).value;
    CurrentActorOwnsHead(ms, us);
    k :| 0 <= k < |ms| && ms[k] == m;
  }

  /** When a request will find an ally in front: exactly when a living ally owns the least unit under the speeds in force. */
  lemma {:induction false} AllyFrontExactly(ms: seq<Member>, us: seq<Unit>)
    requires Manned(ms, us) && BattleStatus(ms) == Some(InBattle)
    ensures AllyFront(ms, us)
            <==> exists i | 0 <= i < |ms| :: ms[i].kind == ALLY && ms[i].alive && Heads(SpeedTable(ms), us, ms[i].id)
  {
    hide Manned, Sorted, EarliestLiving, Heads;
    ManyDistinct(ms, us);
    var k := SomebodyFront(ms, us);
    HeadsIsHead(SpeedTable(ms), us, ms[k].id);
    forall j | 0 <= j < |ms| && Heads(SpeedTable(ms), us, ms[j].id) ensures j == k {
      HeadsIsHead(SpeedTable(ms), us, ms[j].id);
      OnlyOne(ms, j, k);
    }
  }

  // ----- who opens a wave ----------------------------------------------------------------------

  function Initial(m: Member, first: int): int {
    Max(Max(BaseWait(m.speed), 1) - first, if m.kind == ENEMY then 1 else 0)
  }

  /** Each living member is placed at its initial wait, and all its other placements come later. */
  lemma {:induction false} OpeningUnits(ms: seq<Member>, strong: set<int>, first: int)
    ensures var us := AllPlacements(ms, strong, first);
            && (forall i | 0 <= i < |ms| && ms[i].alive :: Unit(ms[i].id, 1, Initial(ms[i], first)) in us)
            && (forall u | u in us :: exists i | 0 <= i < |ms| :: ms[i].alive && From(u, ms[i], first))
  {
    hide Placements, From, Initial, AllPlacements;
    var us := AllPlacements(ms, strong, first);
    AllPlaced(ms, strong, first);
    if ms != [] {
      var n := |ms| - 1;
      var m, front := ms[n], ms[..n];
      OpeningUnits(front, strong, first);
      var rest := AllPlacements(front, strong, first);
      FirstPlaced(m, strong, first);
      forall i | 0 <= i < |ms| && ms[i].alive ensures Unit(ms[i].id, 1, Initial(ms[i], first)) in us {
        if i < n {
          assert front[i] == ms[i];
          assert Unit(ms[i].id, 1, Initial(ms[i], first)) in rest;
        }
      }
      forall u | u in us ensures exists i | 0 <= i < |ms| :: ms[i].alive && From(u, ms[i], first) {
        if u in rest {
          var i :| 0 <= i < |front| && front[i].alive && From(u, front[i], first);
          assert ms[i].alive && From(u, ms[i], first);
        } else {
          PlacedFrom(m, strong, first, u);
          assert ms[n].alive && From(u, ms[n], first);
        }
      }
    }
  }

  predicate From(u: Unit, m: Member, first: int) {
    u.member == m.id && u.wait >= Initial(m, first) && (u.wait == Initial(m, first) ==> u.number == 1)
  }

  lemma {:induction false} AllPlaced(ms: seq<Member>, strong: set<int>, first: int)
    ensures ms == [] ==> AllPlacements(ms, strong, first) == []
    ensures ms != [] ==>
              var m := ms[|ms| - 1];
              AllPlacements(ms, strong, first)
              == AllPlacements(ms[..|ms| - 1], strong, first) + (if m.alive then Placements(m, strong, first) else [])
  {
  }

  lemma {:induction false} FirstPlaced(m: Member, strong: set<int>, first: int)
    ensures Unit(m.id, 1, Initial(m, first)) in Placements(m, strong, first)
  {
    assert Placements(m, strong, first)[0] == Unit(m.id, 1, Initial(m, first));
  }

  lemma {:induction false} PlacedFrom(m: Member, strong: set<int>, first: int, u: Unit)
    requires u in Placements(m, strong, first)
    ensures From(u, m, first)
  {
    var p, wait := Placements(m, strong, first), Max(BaseWait(m.speed), 1);
    var k :| 0 <= k < |p| && p[k] == u;
    assert u == Unit(m.id, k + 1, Initial(m, first) + wait * k);
    assert k > 0 ==> wait * k >= 1;
  }

  /** Some living enemy outruns every living ally, one of whom is too fast for its wait to be a whole tick. */
  predicate Outrun(ms: seq<Member>) {
    FastestAlly(ms) == Some(0)
    && exists e | 0 <= e < |ms| :: ms[e].alive && ms[e].kind == ENEMY
         && forall a | 0 <= a < |ms| && ms[a].alive && ms[a].kind == ALLY :: ms[a].speed < ms[e].speed
  }

  lemma {:induction false} FastestIs(ms: seq<Member>)
    requires FastestAlly(ms).Some?
    ensures FastestAlly(ms).value >= 0
    ensures exists a | 0 <= a < |ms| :: ms[a].alive && ms[a].kind == ALLY && BaseWait(ms[a].speed) == FastestAlly(ms).value
    ensures forall a | 0 <= a < |ms| && ms[a].alive && ms[a].kind == ALLY :: FastestAlly(ms).value <= BaseWait(ms[a].speed)
  {
    var rest := ms[1..];
    assert forall i | 0 < i < |ms| :: ms[i] == rest[i - 1];
    if FastestAlly(rest).Some? {
      FastestIs(rest);
      var a :| 0 <= a < |rest| && rest[a].alive && rest[a].kind == ALLY && BaseWait(rest[a].speed) == FastestAlly(rest).value;
      assert ms[a + 1] == rest[a];
    } else {
      assert !SomeAlive(rest, ALLY);
      forall a | 0 < a < |ms| ensures !(ms[a].alive && ms[a].kind == ALLY) {
        assert !(rest[a - 1].alive && rest[a - 1].kind == ALLY);
      }
    }
  }

  /** Of what heads an opening queue: it stems from a living member, and no living member's first placement precedes it. */
  lemma {:induction false} OpeningHead(ms: seq<Member>, strong: set<int>, first: int, sp: Speeds, us: seq<Unit>)
    requires us != [] && multiset(us) == multiset(AllPlacements(ms, strong, first))
    ensures var h := Sorted(sp, us)[0];
            && (exists i | 0 <= i < |ms| :: ms[i].alive && From(h, ms[i], first))
            && (forall a | 0 <= a < |ms| && ms[a].alive :: Before(sp, h, Unit(ms[a].id, 1, Initial(ms[a], first))))
  {
    hide Sorted, AllPlacements, From, Initial, Before;
    OpeningUnits(ms, strong, first);
    SortedPermutes(sp, us);
    var s, all := Sorted(sp, us), AllPlacements(ms, strong, first);
    var h := s[0];
    assert h in multiset(s);
    assert h in all;
    forall a | 0 <= a < |ms| && ms[a].alive ensures Before(sp, s[0], Unit(ms[a].id, 1, Initial(ms[a], first))) {
      var u := Unit(ms[a].id, 1, Initial(ms[a], first));
      assert u in all;
      assert u in multiset(s);
      HeadIsLeast(sp, s, u);
    }
  }

  /** An ally opens strictly before every enemy when its wait is a whole tick: then no change of speeds matters. */
  lemma {:induction false} AllyOpens(ms: seq<Member>, later: seq<Member>, strong: set<int>, us: seq<Unit>)
    requires Manned(later, us) && BattleStatus(later) == Some(InBattle) && |later| == |ms|
    requires forall i | 0 <= i < |ms| :: later[i].id == ms[i].id && later[i].kind == ms[i].kind
    requires forall i | 0 <= i < |ms| :: ms[i].kind == ALLY || ms[i].kind == ENEMY
    requires FastestAlly(ms).Some? && FastestAlly(ms).value >= 1
    requires multiset(us) == multiset(AllPlacements(ms, strong, FastestAlly(ms).value))
    ensures AllyFront(later, us)
  {
    hide Manned, Sorted, EarliestLiving, AllPlacements, FastestAlly, BattleStatus;
    var first := FastestAlly(ms).value;
    var k := SomebodyFront(later, us);
    FastestIs(ms);
    OpeningHead(ms, strong, first, SpeedTable(later), us);
    var h := Sorted(SpeedTable(later), us)[0];
    var a :| 0 <= a < |ms| && ms[a].alive && ms[a].kind == ALLY && BaseWait(ms[a].speed) == first;
    assert Before(SpeedTable(later), h, Unit(ms[a].id, 1, Initial(ms[a], first)));
    var i :| 0 <= i < |ms| && ms[i].alive && From(h, ms[i], first);
    ManyDistinct(later, us);
    OnlyOne(later, i, k);
  }

  lemma {:induction false} FasterWaitsLess(s: int, t: int)
    requires s <= t
    ensures BaseWait(t) <= BaseWait(s) && BaseWait(s) >= 0
  {
    var a, b := Max(s, 1), Max(t, 1);
    var q := 57600 / b;
    assert q * b <= 57600 && q >= 0;
    assert q * a <= q * b by { assert q * (b - a) >= 0; }
    QuotientBound(57600, a, q);
  }

  lemma {:induction false} QuotientBound(n: nat, a: int, q: nat)
    requires a > 0 && q * a <= n
    ensures q <= n / a
  {
    QuotientMonotone(q * a, n, a);
    QuotientIs(q * a, a, q, 0);
  }

  /**
   * Who opens a wave at the speeds it is built with: an ally, unless the fastest one waits less than a tick and some
   * living enemy is faster than every living ally.
   */
  lemma {:induction false} OpeningActorExactly(ms: seq<Member>, strong: set<int>, us: seq<Unit>)
    requires Manned(ms, us) && BattleStatus(ms) == Some(InBattle) && FastestAlly(ms).Some?
    requires forall i | 0 <= i < |ms| :: (ms[i].kind == ALLY && ms[i].id < 11) || (ms[i].kind == ENEMY && ms[i].id >= 11)
    requires multiset(us) == multiset(AllPlacements(ms, strong, FastestAlly(ms).value))
    ensures AllyFront(ms, us) <==> !Outrun(ms)
  {
    hide Manned, Sorted, EarliestLiving, AllPlacements, FastestAlly, BattleStatus, BaseWait, Before, Initial, SpeedTable;
    var first := FastestAlly(ms).value;
    FastestIs(ms);
    if first >= 1 {
      AllyOpens(ms, ms, strong, us);
    } else {
      var k := SomebodyFront(ms, us);
      var sp := SpeedTable(ms);
      OpeningHead(ms, strong, first, sp, us);
      var h := Sorted(sp, us)[0];
      var i :| 0 <= i < |ms| && ms[i].alive && From(h, ms[i], first);
      ManyDistinct(ms, us);
      OnlyOne(ms, i, k);
      var a :| 0 <= a < |ms| && ms[a].alive && ms[a].kind == ALLY && BaseWait(ms[a].speed) == 0;
      HeadAtOne(ms, sp, h, k, a);
      if ms[k].kind == ENEMY {
        forall x | 0 <= x < |ms| && ms[x].alive && ms[x].kind == ALLY ensures ms[x].speed < ms[k].speed {
          FirstBehind(ms, sp, h, k, a, x);
        }
        assert Outrun(ms);
      } else {
        forall e | 0 <= e < |ms| && ms[e].alive && ms[e].kind == ENEMY
          ensures exists x | 0 <= x < |ms| && ms[x].alive && ms[x].kind == ALLY :: ms[x].speed >= ms[e].speed {
          EnemyBehind(ms, sp, h, k, a, e);
        }
      }
    }
  }

  /** With an ally in front, no enemy is faster than both that ally and the one that waits least. */
  lemma {:induction false} EnemyBehind(ms: seq<Member>, sp: Speeds, h: Unit, k: nat, a: nat, e: nat)
    requires DistinctIds(ms) && sp == SpeedTable(ms) && k < |ms| && a < |ms| && e < |ms|
    requires h == Unit(ms[k].id, 1, 1) && ms[k].kind == ALLY && ms[k].id < 11
    requires ms[a].kind == ALLY && BaseWait(ms[a].speed) == 0 && ms[e].alive && ms[e].kind == ENEMY && ms[e].id >= 11
    requires forall y | 0 <= y < |ms| && ms[y].alive :: Before(sp, h, Unit(ms[y].id, 1, Initial(ms[y], 0)))
    ensures ms[k].speed >= ms[e].speed || ms[a].speed >= ms[e].speed
  {
    hide BaseWait;
    if ms[a].speed < ms[e].speed {
      FasterWaitsLess(ms[a].speed, ms[e].speed);
      TableSpeed(ms, k);
      TableSpeed(ms, e);
      assert Before(sp, h, Unit(ms[e].id, 1, Initial(ms[e], 0)));
    }
  }

  /** With an ally whose wait rounds to nothing, everything starts at 1 and the head waits 1. */
  lemma {:induction false} HeadAtOne(ms: seq<Member>, sp: Speeds, h: Unit, k: nat, a: nat)
    requires k < |ms| && From(h, ms[k], 0) && a < |ms| && ms[a].alive && BaseWait(ms[a].speed) == 0
    requires ms[a].kind == ALLY && forall x | 0 <= x < |ms| && ms[x].alive :: Before(sp, h, Unit(ms[x].id, 1, Initial(ms[x], 0)))
    ensures h.wait == 1 && h.number == 1 && h.member == ms[k].id
  {
    hide BaseWait;
  }

  /** An enemy at the head is faster than every living ally. */
  lemma {:induction false} FirstBehind(ms: seq<Member>, sp: Speeds, h: Unit, k: nat, a: nat, x: nat)
    requires DistinctIds(ms) && sp == SpeedTable(ms) && k < |ms| && a < |ms| && x < |ms|
    requires h == Unit(ms[k].id, 1, 1) && ms[k].kind == ENEMY && ms[k].id >= 11
    requires ms[a].alive && ms[a].kind == ALLY && ms[a].id < 11 && BaseWait(ms[a].speed) == 0
    requires ms[x].alive && ms[x].kind == ALLY && ms[x].id < 11
    requires forall y | 0 <= y < |ms| && ms[y].alive :: Before(sp, h, Unit(ms[y].id, 1, Initial(ms[y], 0)))
    ensures ms[x].speed < ms[k].speed
  {
    hide BaseWait;
    TableSpeed(ms, k);
    TableSpeed(ms, a);
    TableSpeed(ms, x);
    assert Before(sp, h, Unit(ms[a].id, 1, Initial(ms[a], 0)));
    if ms[x].speed >= ms[a].speed {
      FasterWaitsLess(ms[a].speed, ms[x].speed);
      assert Before(sp, h, Unit(ms[x].id, 1, Initial(ms[x], 0)));
    }
  }
}
