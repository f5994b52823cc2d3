/** The queue as the source mutates it, method by method, each proved against the functions of Timeline. */
module TurnQueue {
  import opened Prelude
  import opened Counting
  import opened BattleModel
  import opened Timeline

  /** reason: 0 a turn was taken, 1 the unit left, 2 delayed by wait, 3 delayed by slots */
  datatype Move = Move(member: int, number: int, wait: Option<int>, reason: int, fromIndex: nat, toIndex: Option<nat>)

  /** Position of the first unit in placement (id, number). */
  function SlotIndex(us: seq<Unit>, id: int, number: int): (r: Option<nat>)
    ensures r.Some? ==> r.value < |us| && Slot(id, number)(us[r.value])
    ensures r.None? <==> forall i | 0 <= i < |us| :: !Slot(id, number)(us[i])
  {
    if us == [] then None
    else if Slot(id, number)(us[0]) then Some(0)
    else
      assert us == [us[0]] + us[1..];
      match SlotIndex(us[1..], id, number)
      case None => None
      case Some(k) => Some(k + 1)
  }

  /** Indexes of the units of `id`, in queue order. */
  function IndexesOf(us: seq<Unit>, id: int): (r: seq<nat>)
    ensures |r| == Owned(us, id)
    ensures forall k | 0 <= k < |r| :: r[k] < |us| && us[r[k]].member == id
    ensures forall j, k | 0 <= j < k < |r| :: r[j] < r[k]
  {
    if us == [] then []
    else
      var n := |us| - 1;
      assert us == us[..n] + [us[n]];
      CountConcat(us[..n], [us[n]], Of(id));
      IndexesOf(us[..n], id) + (if us[n].member == id then [n] else [])
  }

  /** What the reply says about one delayed unit. */
  predicate ReportsDelay(m: Move, before: seq<Unit>, after: seq<Unit>, id: int, reason: int) {
    && m.member == id && m.reason == reason
    && m.fromIndex < |before| && Slot(id, m.number)(before[m.fromIndex])
    && m.toIndex.Some? && m.toIndex == SlotIndex(after, id, m.number)
    && m.wait == Some(Max(after[m.toIndex.value].wait, 0))
  }

  /** Indexes of the units whose member is listed, in queue order. */
  function Listed(us: seq<Unit>, ids: seq<int>): (r: seq<nat>)
    ensures |r| <= |us| && forall k | 0 <= k < |r| :: k <= r[k] < |us| && us[r[k]].member in ids
    ensures forall j, k | 0 <= j < k < |r| :: r[j] < r[k]
    ensures forall i | 0 <= i < |us| && us[i].member in ids :: i in r
  {
    if us == [] then []
    else
      var n := |us| - 1;
      assert us == us[..n] + [us[n]];
      Listed(us[..n], ids) + (if us[n].member in ids then [n] else [])
  }

  /** The reply of a removal: each listed unit once, in queue order, with its position among the units still there. */
  function Removals(us: seq<Unit>, ids: seq<int>): (r: seq<Move>) {
    var ix := Listed(us, ids);
    seq(|ix|, k requires 0 <= k < |ix| => Move(us[ix[k]].member, us[ix[k]].number, None, 1, ix[k] - k, None))
  }

  /** Each listed unit once, in queue order: what it was, and its index once the listed ones before it are gone. */
  predicate ReportsRemovals(moves: seq<Move>, before: seq<Unit>, ids: seq<int>) {
    var ix := Listed(before, ids);
    |moves| == |ix|
    && forall k | 0 <= k < |ix| :: k <= ix[k] && moves[k] == Move(before[ix[k]].member, before[ix[k]].number, None, 1, ix[k] - k, None)
  }

  lemma {:induction false} RemovalsReport(us: seq<Unit>, ids: seq<int>)
    ensures ReportsRemovals(Removals(us, ids), us, ids)
  {
    hide Listed;
  }

  class Queue {
    var units: seq<Unit>

    constructor (us: seq<Unit>)
      ensures units == us
    {
      units := us;
    }

    method Sort(sp: Speeds)
      modifies this
      ensures units == Sorted(sp, old(units))
    {
      units := Sorted(sp, units);
    }

    /** The `for unit in units.iter_mut()` loops that count every wait from a new origin. */
    method Rebase(d: int)
      modifies this
      ensures units == Shift(old(units), d)
    {
      var i := 0;
      while i < |units|
        invariant 0 <= i <= |units| == |old(units)|
        invariant forall k | 0 <= k < i :: units[k] == Shift(old(units), d)[k]
        invariant forall k | i <= k < |units| :: units[k] == old(units)[k]
      {
        units := units[i := units[i].(wait := units[i].wait - d)];
        i := i + 1;
      }
    }

    /** Pushes every unit of `id` back by `d`. */
    method PushBack(id: int, d: int)
      modifies this
      ensures units == Delayed(old(units), id, d)
    {
      var i := 0;
      while i < |units|
        invariant 0 <= i <= |units| == |old(units)|
        invariant forall k | 0 <= k < i :: units[k] == Delayed(old(units), id, d)[k]
        invariant forall k | i <= k < |units| :: units[k] == old(units)[k]
      {
        if units[i].member == id {
          units := units[i := units[i].(wait := units[i].wait + d)];
        }
        i := i + 1;
      }
    }

    /** consume_timeline_turn: refused exactly when `id` does not own the head or owns other than 2 or 3 units. */
    method ConsumeTurn(sp: Speeds, id: int, selected: int, default: int, preserve: bool) returns (r: Option<Move>)
      modifies this
      ensures r.Some? <==> TurnAllowed(sp, old(units), id)
      ensures r.Some? ==> units == AfterTurn(sp, old(units), id, selected, default, preserve)
      ensures r.Some? ==> var m := r.value;
                          m.member == id && m.number == Sorted(sp, old(units))[0].number && m.reason == 0
                          && m.fromIndex == 0 && m.toIndex.Some? && m.toIndex == SlotIndex(units, id, m.number)
                          && m.wait == Some(units[m.toIndex.value].wait)
    {
      hide Sorted, Count, MinWait, MaxWait, LastOf, IndexesOf, SlotIndex;
      Sort(sp);
      ghost var s := units;
      var from := FirstOf(units, id);
      if from.None? { return None; }
      if from.value != 0 {
        assert !Has(s[..from.value], id) && s[..from.value][0] == s[0];
        return None;
      }
      var oldNumber := units[0].number;
      Rebase(Max(units[0].wait, 0));
      assert Owned(units, id) == Owned(s, id) by { CountPointwise(units, Of(id), s, Of(id)); }
      var actor := IndexesOf(units, id);
      if !(2 <= |actor| <= 3) { return None; }
      DropHead(s, id, actor, selected, preserve);
      var next := NextWait(units, id, selected, default, preserve);
      var to := Requeue(sp, Unit(id, oldNumber, next));
      r := Some(Move(id, oldNumber, Some(Max(units[to].wait, 0)), 0, 0, Some(to)));
    }

    /** Reschedules an ally's last unit, then removes the head. */
    method DropHead(ghost s: seq<Unit>, id: int, actor: seq<nat>, selected: int, preserve: bool)
      requires HeadMayAct(s, id) && units == Shift(s, Max(s[0].wait, 0)) && actor == IndexesOf(units, id) && |actor| >= 2
      modifies this
      ensures units == Futures(s, id, selected, preserve)
    {
      hide Count, IndexesOf;
      var last := actor[|actor| - 1];
      assert units[0].member == id;
      LastIndex(units, id);
      OwnsLater(s, id);
      RestLast(s, id, Max(s[0].wait, 0));
      ghost var shifted := units;
      if !preserve {
        units := units[last := units[last].(wait := Max(selected, 1))];
      }
      units := units[1..];
      assert preserve ==> units == shifted[1..];
      assert !preserve ==> units == shifted[1..][last - 1 := shifted[last].(wait := Max(selected, 1))];
    }

    /** Queues the consumed placement again, and counts from the new head. */
    method Requeue(sp: Speeds, back: Unit) returns (to: nat)
      modifies this
      ensures units == FromHead(Sorted(sp, old(units) + [back]))
      ensures Some(to) == SlotIndex(units, back.member, back.number)
      ensures units[to].wait >= 0
    {
      hide Sorted, SlotIndex;
      units := units + [back];
      ghost var pending := units;
      Sort(sp);
      SortedWaits(sp, pending);
      Rebase(units[0].wait);
      KeepsSlot(sp, pending, back.member, back.number);
      to := SlotIndex(units, back.member, back.number).value;
    }

    /** delay_timeline_member: refused exactly when `id` owns other than two or three units. */
    method DelayMember(sp: Speeds, id: int, wait: int) returns (r: Option<seq<Move>>)
      modifies this
      ensures r.Some? <==> 2 <= Owned(Sorted(sp, old(units)), id) <= 3
      ensures r.Some? ==> units == AfterDelay(sp, old(units), id, Max(wait, 0))
      ensures r.Some? ==> |r.value| == Owned(Sorted(sp, old(units)), id)
                          && forall k | 0 <= k < |r.value| ::
                               ReportsDelay(r.value[k], Sorted(sp, old(units)), units, id, 2)
                               && r.value[k].fromIndex == IndexesOf(Sorted(sp, old(units)), id)[k]
    {
      hide Sorted, Count, IndexesOf;
      Sort(sp);
      var moved := IndexesOf(units, id);
      if !(2 <= |moved| <= 3) { return None; }
      var moves := Displace(sp, id, Max(wait, 0), moved, 2);
      r := Some(moves);
    }

    /** delay_timeline_member_by_slots: refused exactly where SlotDelay has no answer. */
    method DelayBySlots(sp: Speeds, id: int, slots: nat) returns (r: Option<seq<Move>>)
      modifies this
      ensures r.Some? <==> SlotDelay(Sorted(sp, old(units)), id, slots).Some?
      ensures r.Some? ==> units == AfterDelay(sp, old(units), id, SlotDelay(Sorted(sp, old(units)), id, slots).value)
      ensures r.Some? ==> |r.value| == Owned(Sorted(sp, old(units)), id)
                          && forall k | 0 <= k < |r.value| ::
                               ReportsDelay(r.value[k], Sorted(sp, old(units)), units, id, 3)
                               && r.value[k].fromIndex == IndexesOf(Sorted(sp, old(units)), id)[k]
    {
      hide Sorted, Count, IndexesOf, FirstOf, WithoutMember;
      if slots == 0 { return None; }
      Sort(sp);
      var moved := IndexesOf(units, id);
      if !(2 <= |moved| <= 3) { return None; }
      FirstIndex(units, id);
      var firstWait := units[moved[0]].wait;
      var others := WithoutMember(units, id);
      var at := Min(moved[0] + slots, |others|);
      if at == 0 { return None; }
      var lower := others[at - 1].wait;
      var landing := if at < |others| then lower + (others[at].wait - lower) / 2 else lower + 1;
      if landing - firstWait <= 0 { return None; }
      var moves := Displace(sp, id, landing - firstWait, moved, 3);
      r := Some(moves);
    }

    /** The common tail of both delays: move the units, sort again, report. */
    method Displace(sp: Speeds, id: int, d: int, moved: seq<nat>, reason: int) returns (moves: seq<Move>)
      requires forall k | 0 <= k < |moved| :: moved[k] < |units| && units[moved[k]].member == id
      modifies this
      ensures units == Sorted(sp, Delayed(old(units), id, d))
      ensures |moves| == |moved|
      ensures forall k | 0 <= k < |moves| :: ReportsDelay(moves[k], old(units), units, id, reason) && moves[k].fromIndex == moved[k]
    {
      hide Sorted, Count, SlotIndex;
      var before := units;
      PushBack(id, d);
      Sort(sp);
      DelayKeepsSlots(sp, before, id, d);
      moves := Reports(before, moved, id, reason);
    }

    /** One reply row per moved unit, looked up in the re-sorted queue. */
    method Reports(before: seq<Unit>, moved: seq<nat>, id: int, reason: int) returns (moves: seq<Move>)
      requires forall k | 0 <= k < |moved| :: moved[k] < |before| && before[moved[k]].member == id
      requires forall n :: Count(before, Slot(id, n)) == Count(units, Slot(id, n))
      ensures |moves| == |moved|
      ensures forall k | 0 <= k < |moves| :: ReportsDelay(moves[k], before, units, id, reason)
                                             && moves[k].fromIndex == moved[k]
    {
      hide Count, SlotIndex;
      moves := [];
      var k := 0;
      while k < |moved|
        invariant 0 <= k <= |moved| && |moves| == k
        invariant forall j | 0 <= j < k :: ReportsDelay(moves[j], before, units, id, reason) && moves[j].fromIndex == moved[j]
      {
        var number := before[moved[k]].number;
        SlotFound(before, units, id, moved[k]);
        var to := SlotIndex(units, id, number);
        var wait := units[to.value].wait;
        moves := moves + [Move(id, number, Some(Max(wait, 0)), reason, moved[k], to)];
        k := k + 1;
      }
    }

    static lemma {:induction false} SlotFound(before: seq<Unit>, after: seq<Unit>, id: int, k: nat)
      requires k < |before| && before[k].member == id
      requires Count(before, Slot(id, before[k].number)) == Count(after, Slot(id, before[k].number))
      ensures SlotIndex(after, id, before[k].number).Some?
    {
      CountBounded(before, Slot(id, before[k].number));
      CountBounded(after, Slot(id, before[k].number));
      assert Slot(id, before[k].number)(before[k]);
    }

    static lemma {:induction false} DelayKeepsSlots(sp: Speeds, s: seq<Unit>, id: int, d: int)
      ensures forall n :: Count(s, Slot(id, n)) == Count(Sorted(sp, Delayed(s, id, d)), Slot(id, n))
    {
      SortedPermutes(sp, Delayed(s, id, d));
      forall n ensures Count(s, Slot(id, n)) == Count(Sorted(sp, Delayed(s, id, d)), Slot(id, n)) {
        CountPointwise(s, Slot(id, n), Delayed(s, id, d), Slot(id, n));
        CountPermutation(Delayed(s, id, d), Sorted(sp, Delayed(s, id, d)), Slot(id, n));
      }
    }

    static lemma {:induction false} FirstIndex(us: seq<Unit>, id: int)
      ensures IndexesOf(us, id) == [] <==> FirstOf(us, id).None?
      ensures IndexesOf(us, id) != [] ==> FirstOf(us, id) == Some(IndexesOf(us, id)[0])
    {
      CountBounded(us, Of(id));
      var ix := IndexesOf(us, id);
      if ix != [] {
        assert Has(us, id);
        var k := FirstOf(us, id).value;
        EveryIndex(us, id, k);
        assert ix[0] <= k;
        assert !Has(us[..k], id);
        assert forall i | 0 <= i < k :: us[..k][i] == us[i];
      }
    }

    static lemma {:induction false} EveryIndex(us: seq<Unit>, id: int, k: nat)
      requires k < |us| && us[k].member == id
      ensures k in IndexesOf(us, id)
    {
      var n := |us| - 1;
      if k < n {
        assert us[..n][k] == us[k];
        EveryIndex(us[..n], id, k);
      }
    }

    /** remove_timeline_members: refused exactly when nobody on the list has a unit. */
    method RemoveMembers(sp: Speeds, ids: seq<int>) returns (r: Option<seq<Move>>)
      modifies this
      ensures units == Without(Sorted(sp, old(units)), ids)
      ensures r.None? <==> units == Sorted(sp, old(units))
      ensures r.Some? ==> r.value == Removals(Sorted(sp, old(units)), ids) && |r.value| == |old(units)| - |units|
      ensures r.Some? ==> ReportsRemovals(r.value, Sorted(sp, old(units)), ids)
    {
      hide Sorted, FirstListed, Without, Removals, ReportsRemovals;
      Sort(sp);
      ghost var s := units;
      var moves: seq<Move> := [];
      var index := FirstListed(units, ids);
      while index.Some?
        invariant index == FirstListed(units, ids)
        invariant Without(units, ids) == Without(s, ids)
        invariant |moves| == |s| - |units|
        invariant moves + Removals(units, ids) == Removals(s, ids)
        decreases |units|
      {
        var u := units[index.value];
        WithoutStep(units, ids, index.value);
        RemovalsStep(units, ids, index.value);
        units := units[..index.value] + units[index.value + 1..];
        moves := moves + [Move(u.member, u.number, None, 1, index.value, None)];
        index := FirstListed(units, ids);
      }
      WithoutNothing(units, ids);
      NoRemovals(units, ids);
      RemovalsReport(s, ids);
      if moves == [] {
        assert |units| == |s|;
        WithoutLength(s, ids);
        return None;
      }
      r := Some(moves);
    }

    static lemma {:induction false} NoRemovals(us: seq<Unit>, ids: seq<int>)
      requires forall i | 0 <= i < |us| :: us[i].member !in ids
      ensures Removals(us, ids) == []
    {
      NoneListed(us, ids);
    }

    /** Taking out the first listed unit moves the others up by one. */
    static lemma {:induction false} ListedStep(us: seq<Unit>, ids: seq<int>, k: nat)
      requires k < |us| && us[k].member in ids && forall i | 0 <= i < k :: us[i].member !in ids
      ensures var ix, rest := Listed(us, ids), Listed(us[..k] + us[k + 1..], ids);
              |ix| == |rest| + 1 && ix[0] == k && forall j | 0 <= j < |rest| :: ix[j + 1] == rest[j] + 1
    {
      hide Listed;
      var n := |us| - 1;
      var less := us[..k] + us[k + 1..];
      ListedBack(us, ids);
      if k == n {
        assert less == us[..n];
        assert forall i | 0 <= i < n :: us[..n][i] == us[i];
        NoneListed(us[..n], ids);
      } else {
        assert forall i | 0 <= i < n :: us[..n][i] == us[i];
        ListedStep(us[..n], ids, k);
        LessBack(us, k);
        ListedBack(less, ids);
      }
    }

    static lemma {:induction false} LessBack(us: seq<Unit>, k: nat)
      requires k < |us| - 1
      ensures var n, less := |us| - 1, us[..k] + us[k + 1..];
              |less| == n && less[n - 1] == us[n] && less[..n - 1] == us[..n][..k] + us[..n][k + 1..]
    {
    }

    static lemma {:induction false} ListedBack(us: seq<Unit>, ids: seq<int>)
      requires us != []
      ensures Listed(us, ids)
              == Listed(us[..|us| - 1], ids) + (if us[|us| - 1].member in ids then [|us| - 1] else [])
    {
    }

    static lemma {:induction false} NoneListed(us: seq<Unit>, ids: seq<int>)
      requires forall i | 0 <= i < |us| :: us[i].member !in ids
      ensures Listed(us, ids) == []
    {
      if us != [] {
        assert forall i | 0 <= i < |us| - 1 :: us[..|us| - 1][i] == us[i];
        NoneListed(us[..|us| - 1], ids);
      }
    }

    static lemma {:induction false} RemovalsStep(us: seq<Unit>, ids: seq<int>, k: nat)
      requires k < |us| && us[k].member in ids && forall i | 0 <= i < k :: us[i].member !in ids
      ensures Removals(us, ids)
              == [Move(us[k].member, us[k].number, None, 1, k, None)] + Removals(us[..k] + us[k + 1..], ids)
    {
      hide Listed;
      ListedStep(us, ids, k);
      var less := us[..k] + us[k + 1..];
      var ix, rest := Listed(us, ids), Listed(less, ids);
      forall j | 0 <= j < |rest| ensures Removals(us, ids)[j + 1] == Removals(less, ids)[j] {
        assert ix[0] < ix[j + 1];
        assert less[rest[j]] == us[ix[j + 1]];
      }
    }

    static function FirstListed(us: seq<Unit>, ids: seq<int>): (r: Option<nat>)
      ensures r.Some? ==> r.value < |us| && us[r.value].member in ids
      ensures r.Some? ==> forall i | 0 <= i < r.value :: us[i].member !in ids
      ensures r.None? ==> forall i | 0 <= i < |us| :: us[i].member !in ids
    {
      if us == [] then None
      else if us[0].member in ids then Some(0)
      else
        assert us == [us[0]] + us[1..];
        match FirstListed(us[1..], ids)
        case None => None
        case Some(k) => Some(k + 1)
    }

    static lemma {:induction false} WithoutStep(us: seq<Unit>, ids: seq<int>, k: nat)
      requires k < |us| && us[k].member in ids
      ensures Without(us[..k] + us[k + 1..], ids) == Without(us, ids)
    {
      if k > 0 {
        WithoutStep(us[1..], ids, k - 1);
        assert (us[..k] + us[k + 1..])[1..] == us[1..][..k - 1] + us[1..][k..];
      } else {
        assert us[..k] + us[k + 1..] == us[1..];
      }
    }

    static lemma {:induction false} WithoutNothing(us: seq<Unit>, ids: seq<int>)
      requires forall i | 0 <= i < |us| :: us[i].member !in ids
      ensures Without(us, ids) == us
    {
      if us != [] {
        assert us == [us[0]] + us[1..];
        WithoutNothing(us[1..], ids);
      }
    }

    static lemma {:induction false} WithoutLength(us: seq<Unit>, ids: seq<int>)
      ensures |Without(us, ids)| == |us| ==> Without(us, ids) == us
    {
      if us != [] {
        assert us == [us[0]] + us[1..];
        WithoutLength(us[1..], ids);
      }
    }

    static lemma {:induction false} LastIndex(us: seq<Unit>, id: int)
      requires Has(us, id)
      ensures IndexesOf(us, id) != [] && IndexesOf(us, id)[|IndexesOf(us, id)| - 1] == LastOf(us, id)
    {
      var n := |us| - 1;
      if us[n].member != id {
        assert us == us[..n] + [us[n]];
        LastIndex(us[..n], id);
      }
    }

    static lemma {:induction false} RestLast(s: seq<Unit>, id: int, d: int)
      requires s != [] && Has(s[1..], id)
      ensures Has(Shift(s, d), id) && Has(Shift(s[1..], d), id)
      ensures LastOf(Shift(s, d), id) == LastOf(Shift(s[1..], d), id) + 1
      ensures Shift(s, d)[1..] == Shift(s[1..], d)
    {
      HasKept(s[1..], Shift(s[1..], d), id);
      var k := LastOf(Shift(s[1..], d), id);
      assert Shift(s, d)[k + 1] == Shift(s[1..], d)[k];
      assert Shift(s, d)[1..] == Shift(s[1..], d);
      assert forall i | 0 < i < |s| :: Shift(s, d)[i] == Shift(s[1..], d)[i - 1];
    }

    /** Sorting and counting from a new head cannot lose the placement just written. */
    static lemma {:induction false} KeepsSlot(sp: Speeds, pending: seq<Unit>, id: int, number: int)
      requires pending != [] && Slot(id, number)(pending[|pending| - 1])
      ensures SlotIndex(FromHead(Sorted(sp, pending)), id, number).Some?
    {
      SortedPermutes(sp, pending);
      var u := pending[|pending| - 1];
      assert u in multiset(Sorted(sp, pending));
      var k :| 0 <= k < |pending| && Sorted(sp, pending)[k] == u;
      assert Slot(id, number)(FromHead(Sorted(sp, pending))[k]);
    }
  }
}
