/** House investigations and production (src/state/activities/housing.rs). */
module Housing {
  import opened Prelude
  import opened Counting
  import opened Division

  datatype Preset = Preset(product: Option<int>, kind: Option<int>)

  /** A row of the investigation table. A special condition that is no number is never met. */
  datatype Spec = Spec(id: int, house: int, product: Option<int>, missions: seq<(int, int)>, conditions: seq<Option<int>>)

  function OfKind(kind: int): Preset -> bool {
    (p: Preset) => p.kind == Some(kind)
  }

  /** The part of a row's condition that does not depend on other records. */
  predicate Enabled(house: int, presets: seq<Preset>, spec: Spec) {
    && spec.house == house
    && (spec.product.Some? ==> exists i | 0 <= i < |presets| :: presets[i].product == spec.product)
    && forall i | 0 <= i < |spec.missions| ::
         spec.missions[i].1 >= 0 && Count(presets, OfKind(spec.missions[i].0)) >= spec.missions[i].1
  }

  predicate Met(spec: Spec, records: set<int>) {
    forall i | 0 <= i < |spec.conditions| :: spec.conditions[i].Some? && spec.conditions[i].value in records
  }

  function Elements(s: seq<int>): set<int> {
    set i | 0 <= i < |s| :: s[i]
  }

  /** No enabled row has its conditions met without being recorded. */
  predicate Closed(rows: seq<Spec>, house: int, presets: seq<Preset>, records: set<int>) {
    forall i | 0 <= i < |rows| :: Enabled(house, presets, rows[i]) && Met(rows[i], records) ==> rows[i].id in records
  }

  /** The least set above `start` that is closed. */
  ghost predicate Closure(rows: seq<Spec>, house: int, presets: seq<Preset>, start: set<int>, records: set<int>) {
    start <= records && Closed(rows, house, presets, records) && Forced(rows, house, presets, start, records)
  }

  function Ids(rows: seq<Spec>): (r: set<int>)
    ensures |r| <= |rows|
    ensures forall i | 0 <= i < |rows| :: rows[i].id in r
  {
    if rows == [] then {} else Ids(rows[..|rows| - 1]) + {rows[|rows| - 1].id}
  }

  /** As many records as the table has ids, all from the table, are all of them. */
  lemma {:induction false} AllIds(rows: seq<Spec>, found: set<int>)
    requires found <= Ids(rows) && |found| >= |rows|
    ensures forall i | 0 <= i < |rows| :: rows[i].id in found
  {
    var rest := Ids(rows) - found;
    assert Ids(rows) == found + rest && found !! rest;
    assert |rest| == 0;
  }

  /** Every closed set above the start holds these records. */
  ghost predicate Forced(rows: seq<Spec>, house: int, presets: seq<Preset>, start: set<int>, records: set<int>) {
    forall s | start <= s && Closed(rows, house, presets, s) :: records <= s
  }

  lemma {:induction false} ForcedPush(rows: seq<Spec>, house: int, presets: seq<Preset>, start: set<int>, records: set<int>, i: nat)
    requires i < |rows| && Forced(rows, house, presets, start, records)
    requires Enabled(house, presets, rows[i]) && Met(rows[i], records)
    ensures Forced(rows, house, presets, start, records + {rows[i].id})
  {
    hide Enabled;
    forall s | start <= s && Closed(rows, house, presets, s) ensures records + {rows[i].id} <= s {
      assert Met(rows[i], s);
    }
  }

  /**
   * house_investigations. One pass per table row always suffices: the result is the closure of the starting records,
   * and the old records stay in front.
   */
  method Investigate(rows: seq<Spec>, house: int, presets: seq<Preset>, start: seq<int>) returns (records: seq<int>)
    ensures start <= records
    ensures Closure(rows, house, presets, Elements(start), Elements(records))
  {
    hide Enabled, Met, Ids, Closed, Elements, Forced, Places;
    ForcedStart(rows, house, presets, Elements(start));
    records := start;
    ghost var added: set<int> := {};
    var pass := 0;
    while pass < |rows|
      invariant 0 <= pass <= |rows| && start <= records && pass <= |added|
      invariant added <= Ids(rows) && Elements(records) == Elements(start) + added && added !! Elements(start)
      invariant Forced(rows, house, presets, Elements(start), Elements(records))
    {
      var before := |records|;
      ghost var more;
      records, more := Pass(rows, house, presets, Elements(start), records);
      if before == |records| { return; }
      AddsUp(Elements(start), added, more);
      added := added + more;
      pass := pass + 1;
    }
    AllClosed(rows, house, presets, added, Elements(records));
  }

  lemma {:induction false} ForcedStart(rows: seq<Spec>, house: int, presets: seq<Preset>, start: set<int>)
    ensures Forced(rows, house, presets, start, start)
  {
  }

  lemma {:induction false} AddsUp(start: set<int>, added: set<int>, more: set<int>)
    requires added !! start && more !! start + added
    ensures start + added + more == start + (added + more) && added + more !! start && |added + more| == |added| + |more|
  {
  }

  lemma {:induction false} AllClosed(rows: seq<Spec>, house: int, presets: seq<Preset>, found: set<int>, records: set<int>)
    requires found <= Ids(rows) && |found| >= |rows| && found <= records
    ensures Closed(rows, house, presets, records)
  {
    AllIds(rows, found);
  }

  /** One look at every row, in order; records found on the way count for the rows after them. */
  method Pass(rows: seq<Spec>, house: int, presets: seq<Preset>, ghost start: set<int>, before: seq<int>)
    returns (records: seq<int>, ghost added: set<int>)
    requires Forced(rows, house, presets, start, Elements(before))
    ensures before <= records && Forced(rows, house, presets, start, Elements(records))
    ensures Elements(records) == Elements(before) + added && added !! Elements(before) && added <= Ids(rows)
    ensures if |records| == |before| then added == {} && Closed(rows, house, presets, Elements(records)) else |added| >= 1
  {
    hide Enabled, Met, Ids, Forced, Elements;
    records, added := before, {};
    var i := 0;
    while i < |rows|
      invariant 0 <= i <= |rows| && before <= records && Forced(rows, house, presets, start, Elements(records))
      invariant Elements(records) == Elements(before) + added && added !! Elements(before) && added <= Ids(rows)
      invariant if |records| == |before| then added == {} else |added| >= 1
      invariant |records| == |before| ==>
                  forall k | 0 <= k < i && Enabled(house, presets, rows[k]) && Met(rows[k], Elements(before)) :: rows[k].id in Elements(before)
    {
      ElementsPush(records, rows[i].id);
      if rows[i].id !in records {
        if Enabled(house, presets, rows[i]) && Met(rows[i], Elements(records)) {
          ForcedPush(rows, house, presets, start, Elements(records), i);
          records := records + [rows[i].id];
          added := added + {rows[i].id};
        }
      }
      i := i + 1;
    }
  }

  lemma {:induction false} ElementsPush(s: seq<int>, x: int)
    ensures Elements(s + [x]) == Elements(s) + {x}
    ensures x in Elements(s) <==> x in s
  {
    assert forall i | 0 <= i < |s| :: (s + [x])[i] == s[i];
    assert (s + [x])[|s|] == x;
    forall y | y in Elements(s) + {x} ensures y in Elements(s + [x]) {
      if y in Elements(s) { var i :| 0 <= i < |s| && s[i] == y; assert (s + [x])[i] == y; }
    }
  }

  /** The closure is one set, whatever the order of the rows. */
  lemma {:induction false} RowOrderDoesNotMatter(rows: seq<Spec>, others: seq<Spec>, house: int, presets: seq<Preset>,
                                                 start: set<int>, a: set<int>, b: set<int>)
    requires multiset(rows) == multiset(others)
    requires Closure(rows, house, presets, start, a) && Closure(others, house, presets, start, b)
    ensures a == b
  {
    hide Enabled, Met;
    forall s ensures Closed(rows, house, presets, s) <==> Closed(others, house, presets, s) {
      if Closed(rows, house, presets, s) { SameRows(rows, others, house, presets, s); }
      if Closed(others, house, presets, s) { SameRows(others, rows, house, presets, s); }
    }
  }

  lemma {:induction false} SameRows(rows: seq<Spec>, others: seq<Spec>, house: int, presets: seq<Preset>, s: set<int>)
    requires multiset(rows) == multiset(others) && Closed(rows, house, presets, s)
    ensures Closed(others, house, presets, s)
  {
    hide Enabled, Met;
    forall i | 0 <= i < |others| && Enabled(house, presets, others[i]) && Met(others[i], s) ensures others[i].id in s {
      assert others[i] in multiset(rows);
    }
  }

  /** Investigating along the way changes nothing: once more furniture stands, the records are those of a single
   * investigation at the end. */
  lemma {:induction false} EarlierInvestigationsDoNotMatter(rows: seq<Spec>, house: int, early: seq<Preset>, late: seq<Preset>,
                                                            start: set<int>, mid: set<int>, twice: set<int>, once: set<int>)
    requires forall i | 0 <= i < |rows| :: Enabled(house, early, rows[i]) ==> Enabled(house, late, rows[i])
    requires Closure(rows, house, early, start, mid) && Closure(rows, house, late, mid, twice) && Closure(rows, house, late, start, once)
    ensures twice == once
  {
    hide Enabled, Met;
    assert Closed(rows, house, early, once);
    assert Closed(rows, house, early, once) && start <= once ==> mid <= once;
  }

  /** What the table says of a row: it is for this house, its product stands, and enough furniture of each kind does. */
  predicate Stands(house: int, presets: seq<Preset>, row: Spec) {
    && row.house == house
    && (row.product.Some? ==> Some(row.product.value) in (set i | 0 <= i < |presets| :: presets[i].product))
    && forall m | m in row.missions :: 0 <= m.1 <= |Places(presets, m.0)|
  }

  /** The places that hold furniture of a kind. */
  function Places(presets: seq<Preset>, kind: int): set<int> {
    set i | 0 <= i < |presets| && presets[i].kind.Some? && presets[i].kind.value == kind
  }

  lemma {:induction false} CountsPlaces(presets: seq<Preset>, kind: int)
    ensures Count(presets, OfKind(kind)) == |Places(presets, kind)|
  {
    if presets != [] {
      var n := |presets| - 1;
      CountsPlaces(presets[..n], kind);
      CountSplit(presets, n, OfKind(kind));
      assert presets[..n] + presets[n + 1..] == presets[..n];
      var here: set<int> := if OfKind(kind)(presets[n]) then {n} else {};
      assert Places(presets, kind) == Places(presets[..n], kind) + here;
    }
  }

  lemma {:induction false} StandsExactly(house: int, presets: seq<Preset>, row: Spec)
    ensures Enabled(house, presets, row) <==> Stands(house, presets, row)
  {
    hide Count, OfKind;
    if Stands(house, presets, row) {
      forall i | 0 <= i < |row.missions|
        ensures row.missions[i].1 >= 0 && Count(presets, OfKind(row.missions[i].0)) >= row.missions[i].1 {
        assert row.missions[i] in row.missions;
        CountsPlaces(presets, row.missions[i].0);
      }
    }
    if Enabled(house, presets, row) {
      forall m | m in row.missions ensures 0 <= m.1 <= |Places(presets, m.0)| {
        var i :| 0 <= i < |row.missions| && row.missions[i] == m;
        CountsPlaces(presets, m.0);
      }
    }
  }

  /**
   * Nothing is recorded without a reason: every new record is the id of a row that stands and whose conditions are all
   * among the records; and every row that stands with its conditions recorded is recorded.
   */
  lemma {:induction false} RecordsJustified(rows: seq<Spec>, house: int, presets: seq<Preset>, start: set<int>, records: set<int>, id: int)
    requires Closure(rows, house, presets, start, records)
    ensures id in records <==>
              id in start || exists i | 0 <= i < |rows| ::
                rows[i].id == id && Stands(house, presets, rows[i]) && forall c | c in rows[i].conditions :: c.Some? && c.value in records
  {
    hide Enabled, Stands;
    forall i | 0 <= i < |rows| ensures Enabled(house, presets, rows[i]) <==> Stands(house, presets, rows[i]) {
      StandsExactly(house, presets, rows[i]);
    }
    if id in records && id !in start {
      var less := records - {id};
      assert start <= less && !(records <= less);
      assert Closed(rows, house, presets, less) ==> records <= less;
      var i :| 0 <= i < |rows| && Enabled(house, presets, rows[i]) && Met(rows[i], less) && rows[i].id !in less;
      assert Met(rows[i], records) && rows[i].id == id;
    }
    if i :| 0 <= i < |rows| && rows[i].id == id && Stands(house, presets, rows[i]) && forall c | c in rows[i].conditions :: c.Some? && c.value in records {
      assert Met(rows[i], records);
    }
  }

  /** More furniture never disables a row, so that earlier investigations with less of it do no harm. */
  lemma {:induction false} FurnitureHelps(house: int, early: seq<Preset>, more: seq<Preset>, row: Spec)
    requires Enabled(house, early, row)
    ensures Enabled(house, early + more, row)
  {
    hide Count;
    var late := early + more;
    if row.product.Some? {
      var i :| 0 <= i < |early| && early[i].product == row.product;
      assert late[i].product == row.product;
    }
    forall i | 0 <= i < |row.missions| ensures row.missions[i].1 >= 0 && Count(late, OfKind(row.missions[i].0)) >= row.missions[i].1 {
      CountConcat(early, more, OfKind(row.missions[i].0));
    }
  }

  // ----- production ----------------------------------------------------------------------------

  /** Whole intervals produced since the last collection, at most a day's worth. */
  function Ticks(since: int, now: int, interval: int): (t: nat)
    requires interval > 0
  {
    Min(Max(now - since, 0), 86400) / interval
  }

  /** When production counts from after a collection. */
  function Collected(since: int, now: int, interval: int): int
    requires interval > 0
  {
    if Ticks(since, now, interval) == 0 then since
    else if now - since > 86400 then now
    else since + Ticks(since, now, interval) * interval
  }

  function TotalTicks(since: int, times: seq<int>, interval: int): nat
    requires interval > 0
    decreases |times|
  {
    if times == [] then 0
    else Ticks(since, times[0], interval) + TotalTicks(Collected(since, times[0], interval), times[1..], interval)
  }

  predicate Ascending(from: int, times: seq<int>) {
    (times != [] ==> from <= times[0]) && forall i | 1 <= i < |times| :: times[i - 1] <= times[i]
  }

  /** Collecting often produces neither more nor less than collecting once, within a day of the start. */
  lemma {:induction false} CollectingOftenIsNeutral(since: int, times: seq<int>, interval: int)
    requires interval > 0 && times != [] && Ascending(since, times) && times[|times| - 1] - since <= 86400
    ensures TotalTicks(since, times, interval) == (times[|times| - 1] - since) / interval
    decreases |times|
  {
    var t := times[0];
    AscendingEnds(since, times);
    var ticks := Ticks(since, t, interval);
    CollectedExactly(since, t, interval);
    var next := Collected(since, t, interval);
    var rest := times[1..];
    if |times| > 1 {
      assert forall i | 0 <= i < |rest| :: rest[i] == times[i + 1];
      CollectingOftenIsNeutral(next, rest, interval);
      DropMultiples(times[|times| - 1] - since, ticks, interval);
    } else {
      assert TotalTicks(next, rest, interval) == 0;
    }
  }

  lemma {:induction false} CollectedExactly(since: int, now: int, interval: int)
    requires interval > 0 && since <= now <= since + 86400
    ensures Ticks(since, now, interval) == (now - since) / interval
    ensures Collected(since, now, interval) == since + Ticks(since, now, interval) * interval
    ensures since <= Collected(since, now, interval) <= now
  {
    Quotient(now - since, interval);
  }

  lemma {:induction false} AscendingEnds(from: int, times: seq<int>)
    requires times != [] && Ascending(from, times)
    ensures from <= times[0] <= times[|times| - 1]
    decreases |times|
  {
    if |times| > 1 {
      var front := times[..|times| - 1];
      assert forall i | 0 <= i < |front| :: front[i] == times[i];
      AscendingEnds(from, front);
    }
  }

  /**
   * Beyond a day: a collection yields a day's worth and no more, and counting starts afresh; within one, what is left of
   * the last interval counts on. Nothing happens before an interval is over, however often one looks.
   */
  lemma {:induction false} CollectedAfter(since: int, now: int, interval: int)
    requires 0 < interval <= 86400
    ensures var ticks, next := Ticks(since, now, interval), Collected(since, now, interval);
            && (now - since > 86400 ==> ticks == 86400 / interval && next == now)
            && (interval <= now - since <= 86400 ==> ticks >= 1 && since + ticks * interval == next <= now < next + interval)
            && (now - since < interval ==> ticks == 0 && next == since)
  {
    Quotient(86400, interval);
    QuotientMonotone(interval, 86400, interval);
    QuotientIs(interval, interval, 1, 0);
    if now >= since {
      var t := Min(now - since, 86400);
      assert t == t / interval * interval + t % interval;
      if t < interval { QuotientIs(t, interval, 0, t); } else { QuotientMonotone(interval, t, interval); }
    } else {
      QuotientIs(0, interval, 0, 0);
    }
  }
}
