/** Pruning the journals (src/storage/journal.rs): which rows may go, and where repeated pruning ends. */
module Retention {
  import opened Prelude
  import opened Counting
  import opened Journal

  /** Rows of an account with a larger id. */
  function Newer(account: int, id: int): Row -> bool {
    (r: Row) => r.account == account && r.id > id
  }

  predicate Expired(row: Row, now: int) {
    row.appliedAt < now - DAY
  }

  /** Not pinned, and either older than a day or behind 256 newer rows of its account. */
  predicate Stale(j: seq<Row>, pins: set<nat>, now: int, row: Row) {
    row.id !in pins && (Expired(row, now) || Count(j, Newer(row.account, row.id)) >= KEEP_COUNT)
  }

  function StaleIds(j: seq<Row>, pins: set<nat>, now: int): set<nat> {
    set i | 0 <= i < |j| && Stale(j, pins, now, j[i]) :: j[i].id
  }

  /** LIMIT 128 without ORDER BY: any 128 stale rows, or all of them when there are fewer. */
  predicate MayPick(j: seq<Row>, pins: set<nat>, now: int, pick: set<nat>) {
    var stale := StaleIds(j, pins, now);
    pick <= stale && |pick| <= PRUNE_LIMIT && (|pick| == PRUNE_LIMIT || pick == stale)
  }

  function Drop(j: seq<Row>, pick: set<nat>): (r: seq<Row>)
    ensures |r| <= |j|
  {
    if j == [] then [] else (if j[0].id in pick then [] else [j[0]]) + Drop(j[1..], pick)
  }

  /** The recovery row of every active battle: the latest row of a battle-start route. */
  function Pins(db: Tables): set<nat> {
    set a | a in db.battles && LatestStart(db.journal, a).Some? :: LatestStart(db.journal, a).value.id
  }

  // ----- dropping rows -------------------------------------------------------------------------

  lemma {:induction false} DropKeeps(j: seq<Row>, pick: set<nat>)
    ensures forall r :: r in Drop(j, pick) <==> r in j && r.id !in pick
  {
    if j != [] {
      assert j == [j[0]] + j[1..];
      DropKeeps(j[1..], pick);
    }
  }

  lemma {:induction false} DropCount(j: seq<Row>, pick: set<nat>, p: Row -> bool)
    ensures Count(Drop(j, pick), p) <= Count(j, p)
    ensures (forall r | r in j && p(r) :: r.id !in pick) ==> Count(Drop(j, pick), p) == Count(j, p)
  {
    if j != [] {
      assert j == [j[0]] + j[1..];
      DropCount(j[1..], pick, p);
      CountConcat(if j[0].id in pick then [] else [j[0]], Drop(j[1..], pick), p);
    }
  }

  lemma {:induction false} DropIncreasing(j: seq<Row>, next: nat, pick: set<nat>)
    requires Increasing(j, next)
    ensures Increasing(Drop(j, pick), next)
  {
    if j != [] {
      var rest := Drop(j[1..], pick);
      TailIncreasing(j, next);
      DropIncreasing(j[1..], next, pick);
      DropKeeps(j[1..], pick);
      forall i | 0 <= i < |rest| ensures j[0].id < rest[i].id {
        assert rest[i] in j[1..];
      }
      assert Drop(j, pick) == (if j[0].id in pick then rest else [j[0]] + rest);
    }
  }

  lemma {:induction false} TailIncreasing(j: seq<Row>, next: nat)
    requires Increasing(j, next) && j != []
    ensures Increasing(j[1..], next) && forall r | r in j[1..] :: j[0].id < r.id
  {
    assert forall i | 0 <= i < |j[1..]| :: j[1..][i] == j[i + 1];
  }

  /** Rows have distinct ids, so a non-empty pick of present rows shrinks the journal. */
  lemma {:induction false} DropShrinks(j: seq<Row>, pick: set<nat>, id: nat)
    requires id in pick && exists i | 0 <= i < |j| :: j[i].id == id
    ensures |Drop(j, pick)| < |j|
  {
    var i :| 0 <= i < |j| && j[i].id == id;
    if i > 0 {
      assert j[1..][i - 1].id == id;
      DropShrinks(j[1..], pick, id);
    }
  }

  // ----- repeated pruning at one point in time -------------------------------------------------

  /** Rows that survive however often the journal is pruned at `now`. */
  predicate Kept(j: seq<Row>, pins: set<nat>, now: int, row: Row) {
    row in j && (row.id in pins || (!Expired(row, now) && Count(j, Newer(row.account, row.id)) < KEEP_COUNT))
  }

  /** In figures: what is protected stays, and what is at most a day old with fewer than 256 newer rows of its account. */
  lemma {:induction false} KeptExactly(j: seq<Row>, pins: set<nat>, now: int, row: Row)
    ensures Kept(j, pins, now, row) <==>
              row in j && (row.id in pins || (now - row.appliedAt <= 24 * 60 * 60 && Count(j, Newer(row.account, row.id)) < 256))
    ensures Newer(row.account, row.id)(row) == false
    ensures forall r :: Newer(row.account, row.id)(r) <==> r.account == row.account && r.id > row.id
  {
  }

  /** One prune takes stale rows only, at most 128 of them, and fewer only when no more are stale. */
  lemma {:induction false} PickExactly(j: seq<Row>, pins: set<nat>, now: int, pick: set<nat>)
    ensures MayPick(j, pins, now, pick) <==>
              && (forall id | id in pick :: exists i | 0 <= i < |j| :: j[i].id == id && Stale(j, pins, now, j[i]))
              && |pick| <= 128
              && (|pick| < 128 ==> forall i | 0 <= i < |j| && Stale(j, pins, now, j[i]) :: j[i].id in pick)
    ensures forall row :: Stale(j, pins, now, row) <==>
              row.id !in pins && (row.appliedAt < now - 24 * 60 * 60 || Count(j, Newer(row.account, row.id)) >= 256)
  {
    hide Count;
    var stale := StaleIds(j, pins, now);
    if (forall id | id in pick :: exists i | 0 <= i < |j| :: j[i].id == id && Stale(j, pins, now, j[i])) {
      assert pick <= stale;
      if |pick| < 128 && (forall i | 0 <= i < |j| && Stale(j, pins, now, j[i]) :: j[i].id in pick) {
        assert pick == stale;
      }
    }
  }

  predicate Prunes(j: seq<Row>, pins: set<nat>, now: int, picks: seq<set<nat>>)
    decreases |picks|
  {
    picks != [] ==> MayPick(j, pins, now, picks[0]) && Prunes(Drop(j, picks[0]), pins, now, picks[1..])
  }

  function Pruned(j: seq<Row>, picks: seq<set<nat>>): seq<Row>
    decreases |picks|
  {
    if picks == [] then j else Pruned(Drop(j, picks[0]), picks[1..])
  }

  /** applied_at does not decrease with mutation_id within an account. */
  predicate Chronological(j: seq<Row>) {
    forall i, k | 0 <= i < k < |j| && j[i].account == j[k].account :: j[i].appliedAt <= j[k].appliedAt
  }

  lemma {:induction false} StaleInSet(j: seq<Row>, pins: set<nat>, now: int, row: Row)
    requires row in j && Stale(j, pins, now, row)
    ensures row.id in StaleIds(j, pins, now)
  {
    var i :| 0 <= i < |j| && j[i] == row;
    assert j[i].id in StaleIds(j, pins, now);
  }

  /** No pick can touch a kept row, whatever was pruned before. */
  lemma {:induction false} KeptSurvivesPick(j0: seq<Row>, j: seq<Row>, next: nat, pins: set<nat>, now: int, pick: set<nat>)
    requires Increasing(j0, next) && Increasing(j, next) && (forall r | r in j :: r in j0)
    requires forall a, id :: Count(j, Newer(a, id)) <= Count(j0, Newer(a, id))
    requires MayPick(j, pins, now, pick)
    ensures forall r | Kept(j0, pins, now, r) :: r.id !in pick
  {
    forall r | Kept(j0, pins, now, r) ensures r.id !in pick {
      assert Count(j, Newer(r.account, r.id)) <= Count(j0, Newer(r.account, r.id));
      if r.id in pick {
        var i :| 0 <= i < |j| && Stale(j, pins, now, j[i]) && j[i].id == r.id;
        SameId(j0, next, r, j[i]);
      }
    }
  }

  lemma {:induction false} SameId(j: seq<Row>, next: nat, a: Row, b: Row)
    requires Increasing(j, next) && a in j && b in j && a.id == b.id
    ensures a == b
  {
    var i :| 0 <= i < |j| && j[i] == a;
    var k :| 0 <= k < |j| && j[k] == b;
    assert !(i < k) && !(k < i);
  }

  /** The state after any number of runs: fewer rows, none of the kept ones missing. */
  lemma {:induction false} PrunedBetween(j0: seq<Row>, j: seq<Row>, next: nat, pins: set<nat>, now: int, picks: seq<set<nat>>)
    requires Increasing(j0, next) && Increasing(j, next) && Prunes(j, pins, now, picks)
    requires (forall r | r in j :: r in j0) && (forall r | Kept(j0, pins, now, r) :: r in j)
    requires forall a, id :: Count(j, Newer(a, id)) <= Count(j0, Newer(a, id))
    ensures var end := Pruned(j, picks);
            && Increasing(end, next) && (forall r | r in end :: r in j0) && (forall r | Kept(j0, pins, now, r) :: r in end)
            && |end| <= |j| && (forall a, id :: Count(end, Newer(a, id)) <= Count(j0, Newer(a, id)))
    decreases |picks|
  {
    hide Count;
    if picks != [] {
      var d := Drop(j, picks[0]);
      KeptSurvivesPick(j0, j, next, pins, now, picks[0]);
      DropKeeps(j, picks[0]);
      DropIncreasing(j, next, picks[0]);
      forall a, id ensures Count(d, Newer(a, id)) <= Count(j0, Newer(a, id)) {
        DropCount(j, picks[0], Newer(a, id));
        assert Count(j, Newer(a, id)) <= Count(j0, Newer(a, id));
      }
      PrunedBetween(j0, d, next, pins, now, picks[1..]);
    }
  }

  /** Every run that finds a stale row removes one, so as many runs as there are rows leave none. */
  lemma {:induction false} PruneTerminates(j: seq<Row>, pins: set<nat>, now: int, picks: seq<set<nat>>)
    requires Prunes(j, pins, now, picks) && |picks| >= |j|
    ensures StaleIds(Pruned(j, picks), pins, now) == {}
    decreases |picks|
  {
    if j == [] {
      NothingToPrune(j, pins, now, picks);
    } else if StaleIds(j, pins, now) == {} {
      NothingToPrune(j, pins, now, picks);
    } else {
      var id :| id in StaleIds(j, pins, now);
      assert picks[0] != {};
      var some :| some in picks[0];
      DropShrinks(j, picks[0], some);
      PruneTerminates(Drop(j, picks[0]), pins, now, picks[1..]);
    }
  }

  lemma {:induction false} NothingToPrune(j: seq<Row>, pins: set<nat>, now: int, picks: seq<set<nat>>)
    requires Prunes(j, pins, now, picks) && StaleIds(j, pins, now) == {}
    ensures Pruned(j, picks) == j
    decreases |picks|
  {
    if picks != [] {
      DropNothing(j, picks[0]);
      NothingToPrune(j, pins, now, picks[1..]);
    }
  }

  lemma {:induction false} DropNothing(j: seq<Row>, pick: set<nat>)
    requires pick == {}
    ensures Drop(j, pick) == j
  {
    if j != [] {
      assert j == [j[0]] + j[1..];
      DropNothing(j[1..], pick);
    }
  }

  // ----- the newest rows -----------------------------------------------------------------------

  function OfAccount(a: int): Row -> bool {
    (r: Row) => r.account == a
  }

  /** Rows of the account newer than `id` that have fewer than KEEP_COUNT newer ones in `j`. */
  function Newest(j: seq<Row>, a: int, id: int): Row -> bool {
    (r: Row) => r.account == a && r.id > id && Count(j, Newer(a, r.id)) < KEEP_COUNT
  }

  /** In an increasing journal the rows newer than row i are those of its account further right. */
  lemma {:induction false} NewerIsSuffix(j: seq<Row>, next: nat, i: nat)
    requires Increasing(j, next) && i < |j|
    ensures forall a :: Count(j, Newer(a, j[i].id)) == Count(j[i + 1..], OfAccount(a))
  {
    hide Count;
    forall a ensures Count(j, Newer(a, j[i].id)) == Count(j[i + 1..], OfAccount(a)) {
      assert j == j[..i + 1] + j[i + 1..];
      CountConcat(j[..i + 1], j[i + 1..], Newer(a, j[i].id));
      CountBounded(j[..i + 1], Newer(a, j[i].id));
      var right := j[i + 1..];
      forall k | 0 <= k < |right| ensures Newer(a, j[i].id)(right[k]) == OfAccount(a)(right[k]) {
        assert right[k] == j[i + 1 + k];
      }
      CountPointwise(right, Newer(a, j[i].id), right, OfAccount(a));
    }
  }

  /** Among at least 256 rows to the right of a point, 256 are among the newest. */
  lemma {:induction false} NewestAreMany(j: seq<Row>, next: nat, a: int, id: int, i: nat)
    requires Increasing(j, next) && i <= |j|
    requires forall k | i <= k < |j| :: j[k].id > id
    requires Count(j[i..], OfAccount(a)) >= KEEP_COUNT
    ensures Count(j[i..], Newest(j, a, id)) >= KEEP_COUNT
    decreases |j| - i
  {
    assert i < |j| by { if i == |j| { CountBounded(j[i..], OfAccount(a)); } }
    assert j[i..] == [j[i]] + j[i + 1..] && j[i..][1..] == j[i + 1..];
    NewerIsSuffix(j, next, i);
    if Count(j[i + 1..], OfAccount(a)) >= KEEP_COUNT {
      NewestAreMany(j, next, a, id, i + 1);
    } else {
      forall k | 0 <= k < |j[i..]| ensures OfAccount(a)(j[i..][k]) ==> Newest(j, a, id)(j[i..][k]) {
        NewerIsSuffix(j, next, i + k);
        assert j[i + 1..] == j[i + 1..][..k] + j[i + k + 1..];
        CountConcat(j[i + 1..][..k], j[i + k + 1..], OfAccount(a));
      }
      CountMonotone(j[i..], OfAccount(a), j[i..], Newest(j, a, id));
    }
  }

  /** Rows that all survive are counted the same before and after. */
  lemma {:induction false} PrunedCount(j0: seq<Row>, j: seq<Row>, next: nat, pins: set<nat>, now: int,
                                       picks: seq<set<nat>>, p: Row -> bool)
    requires Increasing(j0, next) && Increasing(j, next) && Prunes(j, pins, now, picks)
    requires forall r | r in j :: r in j0
    requires forall a, id :: Count(j, Newer(a, id)) <= Count(j0, Newer(a, id))
    requires forall r | r in j0 && p(r) :: Kept(j0, pins, now, r)
    ensures Count(Pruned(j, picks), p) == Count(j, p)
    decreases |picks|
  {
    hide Count, Kept;
    if picks != [] {
      var d := Drop(j, picks[0]);
      KeptSurvivesPick(j0, j, next, pins, now, picks[0]);
      DropKeeps(j, picks[0]);
      DropIncreasing(j, next, picks[0]);
      DropCount(j, picks[0], p);
      forall a, id ensures Count(d, Newer(a, id)) <= Count(j0, Newer(a, id)) {
        DropCount(j, picks[0], Newer(a, id));
        assert Count(j, Newer(a, id)) <= Count(j0, Newer(a, id));
      }
      PrunedCount(j0, d, next, pins, now, picks[1..], p);
    }
  }

  /** A row with 256 newer ones keeps 256 newer ones, as long as the newest are not older in time. */
  lemma {:induction false} CrowdStays(j: seq<Row>, next: nat, pins: set<nat>, now: int, picks: seq<set<nat>>, row: Row)
    requires Increasing(j, next) && Chronological(j) && Prunes(j, pins, now, picks)
    requires row in j && !Expired(row, now) && Count(j, Newer(row.account, row.id)) >= KEEP_COUNT
    ensures Count(Pruned(j, picks), Newer(row.account, row.id)) >= KEEP_COUNT
  {
    hide Count;
    var a, id := row.account, row.id;
    var i :| 0 <= i < |j| && j[i] == row;
    NewerIsSuffix(j, next, i);
    NewestAreMany(j, next, a, id, i + 1);
    assert j == j[..i + 1] + j[i + 1..];
    CountConcat(j[..i + 1], j[i + 1..], Newest(j, a, id));
    forall r | r in j && Newest(j, a, id)(r) ensures Kept(j, pins, now, r) {
      var k :| 0 <= k < |j| && j[k] == r;
      assert i < k;
    }
    PrunedCount(j, j, next, pins, now, picks, Newest(j, a, id));
    var end := Pruned(j, picks);
    CountMonotone(end, Newest(j, a, id), end, Newer(a, id));
  }

  /**
   * Convergence. Whichever rows each run picks, enough runs at one point in time leave exactly the rows that were
   * pinned, or both younger than a day and among the newest 256 of their account to begin with.
   */
  lemma {:induction false} PruneConverges(j: seq<Row>, next: nat, pins: set<nat>, now: int, picks: seq<set<nat>>)
    requires Increasing(j, next) && Chronological(j) && Prunes(j, pins, now, picks) && |picks| >= |j|
    ensures forall r :: r in Pruned(j, picks) <==> Kept(j, pins, now, r)
  {
    hide Count;
    var end := Pruned(j, picks);
    PruneTerminates(j, pins, now, picks);
    PrunedBetween(j, j, next, pins, now, picks);
    forall r | r in end ensures Kept(j, pins, now, r) {
      if Stale(end, pins, now, r) { StaleInSet(end, pins, now, r); }
      if r.id !in pins && Count(j, Newer(r.account, r.id)) >= KEEP_COUNT {
        CrowdStays(j, next, pins, now, picks, r);
      }
    }
  }

  // ----- the bound that needs no clock ---------------------------------------------------------

  function Pinned(a: int, pins: set<nat>): Row -> bool {
    (r: Row) => r.account == a && r.id in pins
  }

  function Loose(a: int, pins: set<nat>): Row -> bool {
    (r: Row) => r.account == a && r.id !in pins
  }

  lemma {:induction false} LooseBound(j: seq<Row>, next: nat, pins: set<nat>, a: int, i: nat)
    requires Increasing(j, next) && i <= |j|
    requires forall k | i <= k < |j| && j[k].account == a && j[k].id !in pins :: Count(j, Newer(a, j[k].id)) < KEEP_COUNT
    ensures Count(j[i..], Loose(a, pins)) <= KEEP_COUNT
    decreases |j| - i
  {
    if i == |j| {
      CountBounded(j[i..], Loose(a, pins));
    } else {
      assert j[i..] == [j[i]] + j[i + 1..] && j[i..][1..] == j[i + 1..];
      if Loose(a, pins)(j[i]) {
        NewerIsSuffix(j, next, i);
        CountMonotone(j[i + 1..], Loose(a, pins), j[i + 1..], OfAccount(a));
      } else {
        LooseBound(j, next, pins, a, i + 1);
      }
    }
  }

  /** Even when time went backwards, a journal with nothing left to prune holds at most 257 rows per account. */
  lemma {:induction false} AccountBound(j: seq<Row>, next: nat, pins: set<nat>, now: int, a: int)
    requires Increasing(j, next) && StaleIds(j, pins, now) == {} && Count(j, Pinned(a, pins)) <= 1
    ensures Count(j, OfAccount(a)) <= KEEP_COUNT + 1
  {
    forall k | 0 <= k < |j| && j[k].account == a && j[k].id !in pins ensures Count(j, Newer(a, j[k].id)) < KEEP_COUNT {
      if Stale(j, pins, now, j[k]) { StaleInSet(j, pins, now, j[k]); }
    }
    LooseBound(j, next, pins, a, 0);
    assert j[0..] == j;
    SplitByPin(j, a, pins);
  }

  lemma {:induction false} SplitByPin(j: seq<Row>, a: int, pins: set<nat>)
    ensures Count(j, OfAccount(a)) == Count(j, Pinned(a, pins)) + Count(j, Loose(a, pins))
  {
    if j != [] {
      SplitByPin(j[1..], a, pins);
    }
  }

  /** Each account pins one row at most. */
  lemma {:induction false} OnePinPerAccount(db: Tables, j: seq<Row>, a: int)
    requires Valid(db) && Increasing(j, db.nextId) && forall r | r in j :: r in db.journal
    ensures Count(j, Pinned(a, Pins(db))) <= 1
  {
    if j != [] {
      TailIncreasing(j, db.nextId);
      OnePinPerAccount(db, j[1..], a);
      if Pinned(a, Pins(db))(j[0]) && Count(j[1..], Pinned(a, Pins(db))) > 0 {
        CountBounded(j[1..], Pinned(a, Pins(db)));
        var i :| 0 <= i < |j[1..]| && Pinned(a, Pins(db))(j[1..][i]);
        PinUnique(db, j[0], j[1..][i]);
      }
    }
  }

  lemma {:induction false} PinUnique(db: Tables, r: Row, s: Row)
    requires Valid(db) && r in db.journal && s in db.journal && r.account == s.account
    requires r.id in Pins(db) && s.id in Pins(db)
    ensures r == s
  {
    PinOfAccount(db, r);
    PinOfAccount(db, s);
  }

  lemma {:induction false} PinOfAccount(db: Tables, r: Row)
    requires Valid(db) && r in db.journal && r.id in Pins(db)
    ensures r.account in db.battles && LatestStart(db.journal, r.account) == Some(r)
  {
    var a :| a in db.battles && LatestStart(db.journal, a).Some? && LatestStart(db.journal, a).value.id == r.id;
    SameId(db.journal, db.nextId, r, LatestStart(db.journal, a).value);
  }
}
