/** Task counters and their reconciliation with the saved resources (src/state/home/progression.rs). */
module Counters {
  import opened Prelude

  /** The condition that event ticks never touch. */
  const UNTICKED := 137

  datatype Counter = ItemReceived(id: int) | QuestClear(id: int) | Elsewhere

  /** A count taken from the resources; kinds other than QuestClearAny may read the saved counts themselves. */
  datatype Objective = QuestClearAny(quests: seq<int>) | Measured(count: map<int, int> -> int)

  datatype Task = Task(condition: int, maximum: bool, state: Option<Objective>, counters: seq<Counter>)

  /** total_task_counts as saved and as reported to the client, with the item and quest totals. */
  datatype Ledger = Ledger(tasks: map<int, int>, changed: map<int, int>, items: map<int, int>, quests: map<int, int>)

  function Read(m: map<int, int>, id: int): int {
    if id in m then m[id] else 0
  }

  function Saturate(n: int): int {
    Max(I32_MIN, Min(n, I32_MAX))
  }

  function MostCleared(quests: map<int, int>, ids: seq<int>): (r: int)
    ensures forall i | 0 <= i < |ids| :: Read(quests, ids[i]) <= r
    ensures if ids == [] then r == 0 else exists i | 0 <= i < |ids| :: r == Read(quests, ids[i])
  {
    if ids == [] then 0
    else
      assert ids == [ids[0]] + ids[1..];
      if |ids| == 1 then Read(quests, ids[0]) else Max(Read(quests, ids[0]), MostCleared(quests, ids[1..]))
  }

  /** The saturating sum over counters; None when one of them is no projection of items or quests. */
  function Fold(l: Ledger, counters: seq<Counter>, total: int): Option<int>
    decreases |counters|
  {
    if counters == [] then Some(total)
    else match counters[0]
      case ItemReceived(id) => Fold(l, counters[1..], Saturate(total + Read(l.items, id)))
      case QuestClear(id) => Fold(l, counters[1..], Saturate(total + Read(l.quests, id)))
      case Elsewhere => None
  }

  /** state_counter_total: what the saved items and quests say about a task. */
  function Projection(l: Ledger, t: Task): Option<int> {
    if t.state.Some? && t.state.value.QuestClearAny? then Some(MostCleared(l.quests, t.state.value.quests))
    else if t.counters == [] then None
    else Fold(l, t.counters, 0)
  }

  function Measure(l: Ledger, o: Objective): int {
    match o
    case QuestClearAny(ids) => MostCleared(l.quests, ids)
    case Measured(count) => count(l.tasks)
  }

  /** update_task: only rows that exist can be set. */
  function Update(l: Ledger, id: int, count: int): Option<Ledger> {
    if id !in l.tasks then None else Some(l.(tasks := l.tasks[id := count], changed := l.changed[id := count]))
  }

  /** What the client was told is what is saved. */
  predicate Agree(l: Ledger) {
    forall id | id in l.changed :: id in l.tasks && l.tasks[id] == l.changed[id]
  }

  // ----- the event-less pass -------------------------------------------------------------------

  /** Counts measured on the resources only grow. */
  function Raise(l: Ledger, t: Task): Option<Ledger> {
    if t.state.Some? && Measure(l, t.state.value) > Read(l.tasks, t.condition)
    then Update(l, t.condition, Measure(l, t.state.value)) else Some(l)
  }

  /** Projected counts are set, up or down. */
  function Reconcile(l: Ledger, t: Task): Option<Ledger> {
    match Projection(l, t)
    case None => Some(l)
    case Some(count) =>
      var alreadyChanged := t.condition in l.changed && l.changed[t.condition] == count;
      if !alreadyChanged && count != Read(l.tasks, t.condition) then Update(l, t.condition, count) else Some(l)
  }

  function Visit(l: Ledger, t: Task): Option<Ledger> {
    match Raise(l, t)
    case None => None
    case Some(next) => Reconcile(next, t)
  }

  function Pass(l: Ledger, ts: seq<Task>): Option<Ledger>
    decreases |ts|
  {
    if ts == [] then Some(l)
    else match Visit(l, ts[0])
      case None => None
      case Some(next) => Pass(next, ts[1..])
  }

  /** The conditions that a pass writes, in order. */
  function Writes(l: Ledger, ts: seq<Task>): seq<int>
    decreases |ts|
  {
    if ts == [] then []
    else match Raise(l, ts[0])
      case None => []
      case Some(mid) =>
        match Reconcile(mid, ts[0])
        case None => if mid != l then [ts[0].condition] else []
        case Some(next) =>
          (if mid != l then [ts[0].condition] else []) + (if next != mid then [ts[0].condition] else []) + Writes(next, ts[1..])
  }

  /** Backed by nothing but received items and cleared quests. */
  predicate Projected(l: Ledger, t: Task) {
    Projection(l, t).Some? && (t.state.None? || t.state.value.QuestClearAny?)
  }

  predicate DistinctConditions(ts: seq<Task>) {
    forall i, j | 0 <= i < j < |ts| :: ts[i].condition != ts[j].condition
  }

  predicate SameSources(a: Ledger, b: Ledger) {
    a.items == b.items && a.quests == b.quests
  }

  lemma {:induction false} FoldSources(a: Ledger, b: Ledger, counters: seq<Counter>, total: int)
    requires SameSources(a, b)
    ensures Fold(a, counters, total) == Fold(b, counters, total)
    decreases |counters|
  {
    if counters != [] {
      match counters[0]
      case ItemReceived(id) => FoldSources(a, b, counters[1..], Saturate(total + Read(a.items, id)));
      case QuestClear(id) => FoldSources(a, b, counters[1..], Saturate(total + Read(a.quests, id)));
      case Elsewhere =>
    }
  }

  lemma {:induction false} ProjectionSources(a: Ledger, b: Ledger, t: Task)
    requires SameSources(a, b)
    ensures Projection(a, t) == Projection(b, t)
  {
    FoldSources(a, b, t.counters, 0);
  }

  /** One visit: this counter has its projection, the books agree, and nothing but this task has moved. */
  lemma {:induction false} VisitSettles(l: Ledger, t: Task)
    requires Agree(l) && Visit(l, t).Some?
    ensures var next := Visit(l, t).value;
            && Agree(next) && SameSources(l, next) && next.tasks.Keys == l.tasks.Keys
            && (forall id | id != t.condition :: Read(next.tasks, id) == Read(l.tasks, id))
            && (Projection(l, t).Some? ==> Read(next.tasks, t.condition) == Projection(l, t).value)
  {
    hide Projection, Measure;
    var mid := Raise(l, t).value;
    ProjectionSources(l, mid, t);
    assert Agree(mid);
  }

  lemma {:induction false} PassSettles(l: Ledger, ts: seq<Task>)
    requires Agree(l) && DistinctConditions(ts) && Pass(l, ts).Some?
    ensures var end := Pass(l, ts).value;
            && Agree(end) && SameSources(l, end) && end.tasks.Keys == l.tasks.Keys
            && (forall id | (forall i | 0 <= i < |ts| :: ts[i].condition != id) :: Read(end.tasks, id) == Read(l.tasks, id))
            && (forall i | 0 <= i < |ts| && Projection(l, ts[i]).Some? :: Read(end.tasks, ts[i].condition) == Projection(l, ts[i]).value)
    decreases |ts|
  {
    hide Projection, Visit, Agree;
    if ts != [] {
      var t, rest := ts[0], ts[1..];
      assert forall i | 0 <= i < |rest| :: rest[i] == ts[i + 1];
      VisitSettles(l, t);
      var next := Visit(l, t).value;
      PassSettles(next, rest);
      var end := Pass(l, ts).value;
      forall i | 0 <= i < |ts| && Projection(l, ts[i]).Some?
        ensures Read(end.tasks, ts[i].condition) == Projection(l, ts[i]).value {
        ProjectionSources(l, next, ts[i]);
        if i > 0 { assert ts[i] == rest[i - 1]; }
        else { assert forall j | 0 <= j < |rest| :: rest[j].condition != t.condition; }
      }
      forall id | (forall i | 0 <= i < |ts| :: ts[i].condition != id) ensures Read(end.tasks, id) == Read(l.tasks, id) {
        assert ts[0].condition != id;
        assert forall i | 0 <= i < |rest| :: rest[i].condition != id;
      }
    }
  }

  /** A pass over rows that all exist always succeeds. */
  lemma {:induction false} PassSucceeds(l: Ledger, ts: seq<Task>)
    requires forall i | 0 <= i < |ts| :: ts[i].condition in l.tasks
    ensures Pass(l, ts).Some?
    decreases |ts|
  {
    hide Projection, Measure;
    if ts != [] {
      var rest := ts[1..];
      assert forall i | 0 <= i < |rest| :: rest[i] == ts[i + 1];
      assert ts[0].condition in l.tasks;
      var next := Visit(l, ts[0]).value;
      assert l.tasks.Keys <= next.tasks.Keys;
      PassSucceeds(next, rest);
    }
  }

  // ----- a second pass -------------------------------------------------------------------------

  predicate Settled(l: Ledger, ts: seq<Task>) {
    forall i | 0 <= i < |ts| && Projected(l, ts[i]) :: Read(l.tasks, ts[i].condition) == Projection(l, ts[i]).value
  }

  lemma {:induction false} SettledVisit(l: Ledger, t: Task)
    requires Projected(l, t) && Read(l.tasks, t.condition) == Projection(l, t).value
    ensures Raise(l, t) == Some(l) && Reconcile(l, t) == Some(l)
  {
    hide Fold, MostCleared;
  }

  lemma {:induction false} SettledWritesNothing(l: Ledger, ts: seq<Task>, i: nat)
    requires Agree(l) && DistinctConditions(ts) && Settled(l, ts) && i < |ts| && Projected(l, ts[i])
    ensures ts[i].condition !in Writes(l, ts)
    decreases |ts|
  {
    hide Projection, Raise, Reconcile, Agree;
    var t, rest := ts[0], ts[1..];
    assert forall j | 0 <= j < |rest| :: rest[j] == ts[j + 1];
    if Projected(l, t) { SettledVisit(l, t); }
    if Visit(l, t).Some? {
      var next := Visit(l, t).value;
      VisitSettles(l, t);
      forall j | 0 <= j < |rest| && Projected(next, rest[j])
        ensures Read(next.tasks, rest[j].condition) == Projection(next, rest[j]).value {
        ProjectionSources(l, next, rest[j]);
        assert Projected(l, ts[j + 1]) && ts[j + 1].condition != t.condition;
      }
      if i > 0 {
        ProjectionSources(l, next, ts[i]);
        SettledWritesNothing(next, rest, i - 1);
      } else {
        OnlyItsOwn(next, rest, t.condition);
      }
    }
  }

  /** A pass writes conditions of its tasks only. */
  lemma {:induction false} OnlyItsOwn(l: Ledger, ts: seq<Task>, id: int)
    requires forall i | 0 <= i < |ts| :: ts[i].condition != id
    ensures id !in Writes(l, ts)
    decreases |ts|
  {
    hide Raise, Reconcile;
    if ts != [] {
      var rest := ts[1..];
      assert forall i | 0 <= i < |rest| :: rest[i] == ts[i + 1];
      assert ts[0].condition != id;
      if Visit(l, ts[0]).Some? { OnlyItsOwn(Visit(l, ts[0]).value, rest, id); }
    }
  }

  /** A second pass over the outcome of a first writes no task that is backed by items and quests alone. */
  lemma {:induction false} SecondPassQuiet(l: Ledger, ts: seq<Task>, i: nat)
    requires Agree(l) && DistinctConditions(ts) && Pass(l, ts).Some? && i < |ts| && Projected(l, ts[i])
    ensures ts[i].condition !in Writes(Pass(l, ts).value, ts)
  {
    hide Projection, Pass, Writes, Agree;
    PassSettles(l, ts);
    var end := Pass(l, ts).value;
    forall j | 0 <= j < |ts| && Projected(end, ts[j]) ensures Read(end.tasks, ts[j].condition) == Projection(end, ts[j]).value {
      ProjectionSources(l, end, ts[j]);
    }
    ProjectionSources(l, end, ts[i]);
    SettledWritesNothing(end, ts, i);
  }

  // ----- event ticks and the whole progress ----------------------------------------------------

  function Find(ts: seq<Task>, id: int): (r: Option<Task>)
    ensures r.Some? ==> r.value in ts && r.value.condition == id
  {
    if ts == [] then None
    else if ts[0].condition == id then Some(ts[0])
    else Find(ts[1..], id)
  }

  function Advance(t: Task, current: int, delta: int): int {
    if t.maximum then Max(current, delta) else Saturate(current + delta)
  }

  /** One event of a condition; only received items and cleared quests come with the saved totals. */
  datatype Occurrence = Occurrence(condition: int, delta: int, stateBacked: bool)

  /** What state_counter_total is given for an event: other events see no totals at all. */
  function Seen(l: Ledger, ev: Occurrence): Ledger {
    if ev.stateBacked then l else l.(items := map[], quests := map[])
  }

  /** The total-task part of advance_mission_event, for one condition. */
  function Tick(l: Ledger, ts: seq<Task>, ev: Occurrence): Option<Ledger> {
    var id := ev.condition;
    match Find(ts, id)
    case None => Some(l)
    case Some(t) =>
      if id == UNTICKED then Some(l)
      else
        var current := Read(l.tasks, id);
        var target := Projection(Seen(l, ev), t);
        var next := if target.Some? && (id in l.changed || target.value > current) then Max(current, target.value)
                    else Advance(t, current, ev.delta);
        if next > current then Update(l, id, next) else Some(l)
  }

  function Ticks(l: Ledger, ts: seq<Task>, events: seq<Occurrence>): Option<Ledger>
    decreases |events|
  {
    if events == [] then Some(l)
    else match Tick(l, ts, events[0])
      case None => None
      case Some(next) => Ticks(next, ts, events[1..])
  }

  lemma {:induction false} TicksAgree(l: Ledger, ts: seq<Task>, events: seq<Occurrence>)
    requires Agree(l) && Ticks(l, ts, events).Some?
    ensures var end := Ticks(l, ts, events).value;
            Agree(end) && SameSources(l, end) && end.tasks.Keys == l.tasks.Keys
            && forall id :: Read(l.tasks, id) <= Read(end.tasks, id)
    decreases |events|
  {
    hide Projection, Advance;
    if events != [] {
      var next := Tick(l, ts, events[0]).value;
      assert Agree(next);
      TicksAgree(next, ts, events[1..]);
    }
  }

  /**
   * Reconciliation. Whatever event ticks came before, right or wrong, doubled or missed, the event-less pass leaves
   * every task with a projection at exactly what the saved items and quests say, and the client's copy with it.
   */
  lemma {:induction false} ProgressReconciles(l: Ledger, ts: seq<Task>, events: seq<Occurrence>)
    requires Agree(l) && DistinctConditions(ts)
    requires Ticks(l, ts, events).Some? && Pass(Ticks(l, ts, events).value, ts).Some?
    ensures var end := Pass(Ticks(l, ts, events).value, ts).value;
            && Agree(end) && SameSources(l, end)
            && (forall i | 0 <= i < |ts| && Projection(l, ts[i]).Some? :: Read(end.tasks, ts[i].condition) == Projection(l, ts[i]).value)
  {
    hide Projection, Pass, Ticks, Agree;
    TicksAgree(l, ts, events);
    var mid := Ticks(l, ts, events).value;
    PassSettles(mid, ts);
    forall i | 0 <= i < |ts| ensures Projection(l, ts[i]) == Projection(mid, ts[i]) {
      ProjectionSources(l, mid, ts[i]);
    }
  }

  /**
   * What one event does to a task of its condition. A count that the saved items and quests put higher than it
   * stands, or that was already reported, follows them and never falls; any other count takes the event itself: the larger of
   * the two for a maximum, their sum within 32 bits otherwise. One condition is never touched.
   */
  lemma {:induction false} TickCounts(l: Ledger, ts: seq<Task>, ev: Occurrence, t: Task)
    requires Find(ts, ev.condition) == Some(t) && ev.condition in l.tasks && ev.delta >= 0
    ensures Tick(l, ts, ev).Some?
    ensures var (now, next, target) := (l.tasks[ev.condition], Tick(l, ts, ev).value, Projection(Seen(l, ev), t));
            && next.items == l.items && next.quests == l.quests && (forall id | id != ev.condition :: Read(next.tasks, id) == Read(l.tasks, id))
            && Read(next.tasks, ev.condition)
               == (if ev.condition == 137 then now
                   else if target.Some? && (ev.condition in l.changed || target.value > now) then Max(now, target.value)
                   else if t.maximum then Max(now, ev.delta)
                   else if now + ev.delta > I32_MAX then Max(now, I32_MAX)
                   else Max(now, Max(now + ev.delta, I32_MIN)))
            && (next.tasks != l.tasks ==> ev.condition in next.changed && next.changed[ev.condition] == next.tasks[ev.condition])
  {
    hide Projection;
  }

  /** Events other than received items and cleared quests are counted against empty totals. */
  lemma {:induction false} SeenIs(l: Ledger, ev: Occurrence)
    ensures ev.stateBacked ==> Seen(l, ev) == l
    ensures !ev.stateBacked ==> forall id :: Read(Seen(l, ev).items, id) == 0 && Read(Seen(l, ev).quests, id) == 0
  {
  }

  /** A task without a projection takes what is measured on the resources, and only upwards. */
  lemma {:induction false} VisitMeasures(l: Ledger, t: Task)
    requires Agree(l) && Visit(l, t).Some? && Projection(l, t).None?
    ensures var next := Visit(l, t).value;
            Read(next.tasks, t.condition)
            == if t.state.Some? then Max(Read(l.tasks, t.condition), Measure(l, t.state.value)) else Read(l.tasks, t.condition)
  {
    hide Projection, Measure;
    ProjectionSources(l, Raise(l, t).value, t);
  }

  /** The sum over counters, each clipped to 32 bits as it is added: with totals that are not negative, the clipped sum. */
  lemma {:induction false} FoldAdds(l: Ledger, counters: seq<Counter>, total: int)
    requires 0 <= total <= I32_MAX && (forall id | id in l.items :: l.items[id] >= 0) && (forall id | id in l.quests :: l.quests[id] >= 0)
    ensures Fold(l, counters, total).Some? <==> forall i | 0 <= i < |counters| :: !counters[i].Elsewhere?
    ensures Fold(l, counters, total).Some? ==> Fold(l, counters, total).value == Min(total + Counted(l, counters), I32_MAX) && Counted(l, counters) >= 0
    decreases |counters|
  {
    if counters != [] {
      var rest := counters[1..];
      assert forall i | 0 <= i < |rest| :: rest[i] == counters[i + 1];
      match counters[0] {
        case ItemReceived(id) => FoldAdds(l, rest, Saturate(total + Read(l.items, id)));
        case QuestClear(id) => FoldAdds(l, rest, Saturate(total + Read(l.quests, id)));
        case Elsewhere =>
      }
    }
  }

  /** What the saved totals hold for the counters of a task. */
  function Counted(l: Ledger, counters: seq<Counter>): int {
    if counters == [] then 0
    else (match counters[0]
          case ItemReceived(id) => Read(l.items, id)
          case QuestClear(id) => Read(l.quests, id)
          case Elsewhere => 0) + Counted(l, counters[1..])
  }

  /** What the saved items and quests say: the most cleared of the listed quests, else the sum over counters of these two
   * kinds, else nothing. */
  lemma {:induction false} ProjectionIs(l: Ledger, t: Task)
    requires (forall id | id in l.items :: l.items[id] >= 0) && (forall id | id in l.quests :: l.quests[id] >= 0)
    ensures t.state.Some? && t.state.value.QuestClearAny? ==> Projection(l, t) == Some(MostCleared(l.quests, t.state.value.quests))
    ensures !(t.state.Some? && t.state.value.QuestClearAny?) ==>
              && (Projection(l, t).Some? <==> t.counters != [] && forall i | 0 <= i < |t.counters| :: !t.counters[i].Elsewhere?)
              && (Projection(l, t).Some? ==> Projection(l, t).value == Min(Counted(l, t.counters), I32_MAX))
  {
    hide Fold, Counted, MostCleared;
    FoldAdds(l, t.counters, 0);
  }

  /** A tick on a task that is already up to date counts the same progress twice; the pass takes it back. */
  lemma {:induction false} DoubleTickTakenBack(id: int, item: int)
    requires id != UNTICKED
    ensures var t := Task(id, false, None, [ItemReceived(item)]);
            var l := Ledger(map[id := 3], map[], map[item := 3], map[]);
            && Tick(l, [t], Occurrence(id, 2, true)) == Update(l, id, 5)
            && Pass(Update(l, id, 5).value, [t]) == Update(Update(l, id, 5).value, id, 3)
  {
    var t := Task(id, false, None, [ItemReceived(item)]);
    var l := Ledger(map[id := 3], map[], map[item := 3], map[]);
    var up := Update(l, id, 5).value;
    assert Fold(l, t.counters[1..], 3) == Some(3) && Fold(up, t.counters[1..], 3) == Some(3);
    assert Visit(up, t) == Update(up, id, 3);
    assert Pass(Update(up, id, 3).value, [t][1..]) == Update(up, id, 3);
  }

  // ----- the loop with its caches --------------------------------------------------------------

  class Progress {
    var ledger: Ledger

    /** The loop over total tasks of the event-less advance_missions. The local totals are copies that must keep up with both lists. */
    method Reconciliation(ts: seq<Task>) returns (ok: bool)
      modifies this
      ensures ok == Pass(old(ledger), ts).Some?
      ensures ok ==> ledger == Pass(old(ledger), ts).value
    {
      hide Projection, Measure;
      var taskTotals, changedTotals := ledger.tasks, ledger.changed;
      var i := 0;
      while i < |ts|
        invariant 0 <= i <= |ts| && taskTotals == ledger.tasks && changedTotals == ledger.changed
        invariant SameSources(ledger, old(ledger))
        invariant Pass(old(ledger), ts) == Pass(ledger, ts[i..])
      {
        var t := ts[i];
        assert ts[i..][1..] == ts[i + 1..];
        if t.state.Some? {
          var count := Measure(ledger, t.state.value);
          if count > Read(taskTotals, t.condition) {
            if t.condition !in ledger.tasks { return false; }
            ledger := ledger.(tasks := ledger.tasks[t.condition := count], changed := ledger.changed[t.condition := count]);
            taskTotals, changedTotals := taskTotals[t.condition := count], changedTotals[t.condition := count];
          }
        }
        var current := Projection(ledger, t);
        if current.Some? {
          var alreadyChanged := t.condition in changedTotals && changedTotals[t.condition] == current.value;
          if !alreadyChanged && current.value != Read(taskTotals, t.condition) {
            if t.condition !in ledger.tasks { return false; }
            ledger := ledger.(tasks := ledger.tasks[t.condition := current.value], changed := ledger.changed[t.condition := current.value]);
            taskTotals, changedTotals := taskTotals[t.condition := current.value], changedTotals[t.condition := current.value];
          }
        }
        i := i + 1;
      }
      ok := true;
    }

    /** state_counter_total: the most cleared of the listed quests, or the loop over the counters. */
    static method CounterTotal(l: Ledger, t: Task) returns (r: Option<int>)
      ensures r == Projection(l, t)
    {
      if t.state.Some? && t.state.value.QuestClearAny? {
        return Some(MostCleared(l.quests, t.state.value.quests));
      }
      var total, found := 0, false;
      var i := 0;
      while i < |t.counters|
        invariant 0 <= i <= |t.counters| && found == (i > 0)
        invariant Fold(l, t.counters, 0) == Fold(l, t.counters[i..], total)
      {
        assert t.counters[i..][1..] == t.counters[i + 1..];
        match t.counters[i] {
          case ItemReceived(id) => total := Saturate(total + Read(l.items, id));
          case QuestClear(id) => total := Saturate(total + Read(l.quests, id));
          case Elsewhere => return None;
        }
        found := true;
        i := i + 1;
      }
      r := if found then Some(total) else None;
    }
  }
}
