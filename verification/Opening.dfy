/** The queue a wave opens with (src/state/quest/lifecycle.rs, initial_timeline). */
module Opening {
  import opened Prelude
  import opened Counting
  import opened BattleModel
  import opened Timeline
  import opened Roster

  /** The wait of the fastest living ally; None when no ally lives. */
  function FastestAlly(ms: seq<Member>): (r: Option<int>)
    ensures r.Some? <==> SomeAlive(ms, ALLY)
  {
    if ms == [] then None
    else
      assert ms == [ms[0]] + ms[1..];
      var rest := FastestAlly(ms[1..]);
      assert SomeAlive(ms, ALLY) <==> SomeAlive(ms[1..], ALLY) || (ms[0].alive && ms[0].kind == ALLY) by {
        if SomeAlive(ms[1..], ALLY) {
          var i :| 0 <= i < |ms[1..]| && ms[1..][i].alive && ms[1..][i].kind == ALLY;
          assert ms[i + 1].alive;
        }
      }
      if !(ms[0].alive && ms[0].kind == ALLY) then rest
      else Some(if rest.Some? then Min(rest.value, BaseWait(ms[0].speed)) else BaseWait(ms[0].speed))
  }

  /** Allies and plain enemies get two placements, boss or scaled enemies three. */
  function SlotCount(m: Member, strong: set<int>): int {
    if m.kind != ALLY && m.id in strong then 3 else 2
  }

  function Placements(m: Member, strong: set<int>, first: int): (r: seq<Unit>)
    ensures |r| == SlotCount(m, strong)
    ensures forall k | 0 <= k < |r| :: r[k].member == m.id && r[k].number == k + 1 && r[k].wait >= 0
  {
    var wait := Max(BaseWait(m.speed), 1);
    var initial := Max(wait - first, if m.kind == ENEMY then 1 else 0);
    seq(SlotCount(m, strong), k requires 0 <= k < SlotCount(m, strong) =>
      assert wait * k >= 0;
      Unit(m.id, k + 1, initial + wait * k))
  }

  function AllPlacements(ms: seq<Member>, strong: set<int>, first: int): seq<Unit> {
    if ms == [] then []
    else
      var m := ms[|ms| - 1];
      AllPlacements(ms[..|ms| - 1], strong, first) + (if m.alive then Placements(m, strong, first) else [])
  }

  /**
   * A unit of the opening queue: a boss or scaled enemy has three, everybody else two. Waits count from the fastest ally,
   * an enemy waits a tick at least, and a member's units are its own wait apart.
   */
  predicate PlacedAs(u: Unit, m: Member, strong: set<int>, fastest: int) {
    var wait := Max(57600 / Max(m.speed, 1), 1);
    && u.member == m.id && 1 <= u.number <= (if m.kind != ALLY && m.id in strong then 3 else 2)
    && u.wait == Max(wait - fastest, if m.kind == ENEMY then 1 else 0) + wait * (u.number - 1)
  }

  predicate OpeningUnit(u: Unit, ms: seq<Member>, strong: set<int>, fastest: int) {
    exists i | 0 <= i < |ms| :: ms[i].alive && PlacedAs(u, ms[i], strong, fastest)
  }

  /** The least wait of a living ally. */
  predicate LeastAllyWait(ms: seq<Member>, w: int) {
    && (exists i | 0 <= i < |ms| :: ms[i].alive && ms[i].kind == ALLY && 57600 / Max(ms[i].speed, 1) == w)
    && (forall i | 0 <= i < |ms| && ms[i].alive && ms[i].kind == ALLY :: w <= 57600 / Max(ms[i].speed, 1))
  }

  lemma {:induction false} FastestWaitsLeast(ms: seq<Member>)
    requires FastestAlly(ms).Some?
    ensures LeastAllyWait(ms, FastestAlly(ms).value)
  {
    var rest := ms[1..];
    assert forall i | 0 < i < |ms| :: ms[i] == rest[i - 1];
    if FastestAlly(rest).Some? {
      FastestWaitsLeast(rest);
      var a :| 0 <= a < |rest| && rest[a].alive && rest[a].kind == ALLY && 57600 / Max(rest[a].speed, 1) == FastestAlly(rest).value;
      assert ms[a + 1] == rest[a];
    } else {
      assert !SomeAlive(rest, ALLY);
      forall a | 0 < a < |ms| ensures !(ms[a].alive && ms[a].kind == ALLY) {
        assert !(rest[a - 1].alive && rest[a - 1].kind == ALLY);
      }
    }
  }

  lemma {:induction false} MemberPlaces(m: Member, strong: set<int>, first: int, u: Unit)
    ensures u in Placements(m, strong, first) <==> PlacedAs(u, m, strong, first)
  {
    var p := Placements(m, strong, first);
    if PlacedAs(u, m, strong, first) { assert p[u.number - 1] == u; }
  }

  /** The opening places exactly these units. */
  lemma {:induction false} AllPlaces(ms: seq<Member>, strong: set<int>, first: int, u: Unit)
    ensures u in AllPlacements(ms, strong, first) <==> OpeningUnit(u, ms, strong, first)
  {
    hide Placements, PlacedAs;
    if ms != [] {
      var n := |ms| - 1;
      var front := ms[..n];
      AllPlaces(front, strong, first, u);
      MemberPlaces(ms[n], strong, first, u);
      if OpeningUnit(u, front, strong, first) {
        var i :| 0 <= i < |front| && front[i].alive && PlacedAs(u, front[i], strong, first);
        assert ms[i].alive && PlacedAs(u, ms[i], strong, first);
      }
      if OpeningUnit(u, ms, strong, first) {
        var i :| 0 <= i < |ms| && ms[i].alive && PlacedAs(u, ms[i], strong, first);
        if i < n { assert front[i] == ms[i]; }
      }
    }
  }

  /** The queue holds exactly the units that the opening rules ask for. */
  ghost predicate Opened(ms: seq<Member>, strong: set<int>, us: seq<Unit>) {
    exists fastest :: LeastAllyWait(ms, fastest) && forall u :: u in us <==> OpeningUnit(u, ms, strong, fastest)
  }

  lemma {:induction false} OpeningPlaces(ms: seq<Member>, strong: set<int>)
    requires FastestAlly(ms).Some?
    ensures Opened(ms, strong, Sorted(SpeedTable(ms), AllPlacements(ms, strong, FastestAlly(ms).value)))
  {
    hide Sorted, AllPlacements, FastestAlly, OpeningUnit, LeastAllyWait;
    var first := FastestAlly(ms).value;
    var all := AllPlacements(ms, strong, first);
    var us := Sorted(SpeedTable(ms), all);
    FastestWaitsLeast(ms);
    SortedPermutes(SpeedTable(ms), all);
    forall u ensures u in us <==> OpeningUnit(u, ms, strong, first) {
      AllPlaces(ms, strong, first, u);
      assert u in us <==> u in multiset(us);
      assert u in all <==> u in multiset(all);
    }
  }

  lemma {:induction false} PlacedAt(m: Member, strong: set<int>, first: int, k: nat)
    requires k < SlotCount(m, strong)
    ensures var wait := Max(BaseWait(m.speed), 1);
            Placements(m, strong, first)[..k + 1]
            == Placements(m, strong, first)[..k] + [Unit(m.id, k + 1, Max(wait - first, if m.kind == ENEMY then 1 else 0) + wait * k)]
  {
    var p := Placements(m, strong, first);
    assert p[..k + 1] == p[..k] + [p[k]];
  }

  lemma {:induction false} OpeningReady(ms: seq<Member>, strong: set<int>, first: int)
    requires DistinctIds(ms)
    ensures Manned(ms, Sorted(SpeedTable(ms), AllPlacements(ms, strong, first)))
  {
    hide Sorted, SpeedTable, AllPlacements;
    var units := AllPlacements(ms, strong, first);
    OpeningIsManned(ms, strong, first);
    SortedPermutes(SpeedTable(ms), units);
    SortedKeepsRoster(ms, units, Sorted(SpeedTable(ms), units));
  }

  lemma {:induction false} NonePlaced(strong: set<int>, first: int)
    ensures AllPlacements([], strong, first) == []
  {
  }

  lemma {:induction false} OneMorePlaced(ms: seq<Member>, i: nat, strong: set<int>, first: int)
    requires i < |ms|
    ensures AllPlacements(ms[..i + 1], strong, first)
            == AllPlacements(ms[..i], strong, first) + (if ms[i].alive then Placements(ms[i], strong, first) else [])
  {
    assert ms[..i + 1][..i] == ms[..i];
  }

  method InitialTimeline(ms: seq<Member>, strong: set<int>) returns (r: Option<seq<Unit>>)
    ensures r.Some? <==> SomeAlive(ms, ALLY)
    ensures r.Some? ==> r == Some(Sorted(SpeedTable(ms), AllPlacements(ms, strong, FastestAlly(ms).value)))
    ensures r.Some? && DistinctIds(ms) ==> Manned(ms, r.value)
    ensures r.Some? ==> Opened(ms, strong, r.value)
  {
    hide Sorted;
    var fastest := FastestAlly(ms);
    if fastest.None? { return None; }
    var first := fastest.value;
    var units := [];
    var i := 0;
    hide AllPlacements, Placements, BaseWait, SlotCount, Manned, FastestAlly, DistinctIds, SpeedTable, Opened;
    NonePlaced(strong, first);
    while i < |ms|
      invariant 0 <= i <= |ms|
      invariant units == AllPlacements(ms[..i], strong, first)
    {
      var m := ms[i];
      if m.alive {
        var wait := Max(BaseWait(m.speed), 1);
        var initial := Max(wait - first, if m.kind == ENEMY then 1 else 0);
        ghost var start := units;
        var number := 1;
        while number <= SlotCount(m, strong)
          invariant 1 <= number <= SlotCount(m, strong) + 1
          invariant units == start + Placements(m, strong, first)[..number - 1]
        {
          PlacedAt(m, strong, first, number - 1);
          units := units + [Unit(m.id, number, initial + wait * (number - 1))];
          number := number + 1;
        }
        assert Placements(m, strong, first)[..number - 1] == Placements(m, strong, first);
      }
      OneMorePlaced(ms, i, strong, first);
      i := i + 1;
    }
    assert ms[..|ms|] == ms;
    if DistinctIds(ms) { OpeningReady(ms, strong, first); }
    OpeningPlaces(ms, strong);
    r := Some(Sorted(SpeedTable(ms), units));
  }

  lemma {:induction false} SortedKeepsRoster(ms: seq<Member>, us: seq<Unit>, s: seq<Unit>)
    requires Manned(ms, us) && multiset(us) == multiset(s)
    ensures Manned(ms, s)
  {
    forall id ensures Owned(us, id) == Owned(s, id) {
      CountPermutation(us, s, Of(id));
    }
    forall id, n ensures Count(us, Slot(id, n)) == Count(s, Slot(id, n)) {
      CountPermutation(us, s, Slot(id, n));
    }
    assert |us| == |multiset(us)| == |s|;
    forall i | 0 <= i < |s| ensures s[i].wait >= 0 {
      assert s[i] in multiset(us);
    }
    SlotsKeepRoster(ms, us, s);
  }

  /** Placements of one member: all its own, numbered apart. */
  lemma {:induction false} PlacementCounts(m: Member, strong: set<int>, first: int, id: int, n: int)
    ensures var p := Placements(m, strong, first);
            && Owned(p, id) == (if id == m.id then |p| else 0)
            && Count(p, Slot(id, n)) <= 1 && (id != m.id ==> Count(p, Slot(id, n)) == 0)
  {
    var p := Placements(m, strong, first);
    CountBounded(p, Of(id));
    CountBounded(p, Slot(id, n));
    assert p == [p[0]] + p[1..] && p[1..] == [p[1]] + p[2..];
    assert |p| == 3 ==> p[2..] == [p[2]] + p[3..];
    assert Count(p, Slot(id, n)) == (if Slot(id, n)(p[0]) then 1 else 0) + Count(p[1..], Slot(id, n));
    assert Count(p[1..], Slot(id, n)) == (if Slot(id, n)(p[1]) then 1 else 0) + Count(p[2..], Slot(id, n));
  }

  lemma {:induction false} OpeningIsManned(ms: seq<Member>, strong: set<int>, first: int)
    requires DistinctIds(ms)
    ensures Manned(ms, AllPlacements(ms, strong, first))
  {
    hide Count, Owned;
    var us := AllPlacements(ms, strong, first);
    if ms == [] {
      forall id ensures Staffed(ms, us, id) { CountBounded(us, Of(id)); assert Owned(us, id) == Count(us, Of(id)) by { OwnedIsCount(us, id); } }
      forall id, n ensures Count(us, Slot(id, n)) <= 1 { CountBounded(us, Slot(id, n)); }
    } else {
      var k := |ms| - 1;
      var m := ms[k];
      var rest, last := AllPlacements(ms[..k], strong, first), if m.alive then Placements(m, strong, first) else [];
      assert ms == ms[..k] + [m];
      OpeningIsManned(ms[..k], strong, first);
      forall id ensures Staffed(ms, us, id) {
        assert Staffed(ms[..k], rest, id);
        LivingLast(ms, id);
        CountConcat(rest, last, Of(id));
        OwnedIsCount(rest, id); OwnedIsCount(last, id); OwnedIsCount(us, id);
        if m.alive { PlacementCounts(m, strong, first, id, 0); } else { CountBounded(last, Of(id)); }
      }
      forall id, n ensures Count(us, Slot(id, n)) <= 1 {
        assert Staffed(ms[..k], rest, id) && Count(rest, Slot(id, n)) <= 1;
        LivingLast(ms, id);
        OwnedIsCount(rest, id);
        CountConcat(rest, last, Slot(id, n));
        CountMonotone(rest, Slot(id, n), rest, Of(id));
        if m.alive { PlacementCounts(m, strong, first, id, n); } else { CountBounded(last, Slot(id, n)); }
      }
    }
  }

  lemma {:induction false} OwnedIsCount(us: seq<Unit>, id: int)
    ensures Owned(us, id) == Count(us, Of(id))
  {
  }

  lemma {:induction false} LivingLast(ms: seq<Member>, id: int)
    requires ms != [] && DistinctIds(ms)
    ensures var k := |ms| - 1;
            && (Living(ms, id) <==> Living(ms[..k], id) || (ms[k].alive && ms[k].id == id))
            && !(Living(ms[..k], id) && ms[k].id == id)
  {
    var k := |ms| - 1;
    if Living(ms[..k], id) {
      var i :| 0 <= i < |ms[..k]| && ms[..k][i].id == id && ms[..k][i].alive;
      assert ms[i].id == id && ms[i].alive;
    }
    if i :| 0 <= i < k && ms[i].id == id && ms[i].alive {
      assert ms[..k][i].id == id;
    }
  }
}
