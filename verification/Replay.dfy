/** Whole histories: retries, prunes, refreshes and battles in any order. */
module Replay {
  import opened Prelude
  import opened Counting
  import opened Journal
  import opened Retention

  datatype Event =
    | Call(req: Request)
    | Prune(now: int, pick: set<nat>, deltaPick: set<nat>)
    | Refresh(account: int, at: int, reduce: (Blob, Blob) -> Result<(GameplayCommit, Blob), StorageError>)
    | Wish(owner: int, gacha: int, ids: Blob)

  /** The routine of apply_home_refresh_reducer: like a home mutation, but not recorded. */
  function Refreshed(db: Tables, a: int, now: int, reduce: (Blob, Blob) -> Result<(GameplayCommit, Blob), StorageError>): Tables {
    if a !in db.players then db
    else match reduce(db.players[a].resources, HomeOf(db, a))
      case Err(_) => db
      case Ok((c, home)) =>
        if !CharactersOk(c.characters) then db
        else
          var d := SetHome(SetPlayer(db, a, c.resources, now), a, Some(home));
          d.(characters := SetCharacters(d.characters, a, c.characters))
  }

  function After(db: Tables, ev: Event): Tables {
    match ev
    case Call(req) => Exec(db, req).0
    case Prune(_, pick, deltaPick) => db.(journal := Drop(db.journal, pick), deltas := Drop(db.deltas, deltaPick))
    case Refresh(a, now, reduce) => Refreshed(db, a, now, reduce)
    case Wish(a, gacha, ids) => db.(wishes := db.wishes[(a, gacha) := ids])
  }

  /** Prunes pick stale rows, and the routes of battle starts are used by the battle-start transaction alone. */
  predicate Legal(db: Tables, ev: Event) {
    match ev
    case Call(req) => req.op.Memoria? || (req.op.Start? <==> IsStartRoute(req.route))
    case Prune(now, pick, deltaPick) => MayPick(db.journal, Pins(db), now, pick) && MayPick(db.deltas, {}, now, deltaPick)
    case _ => true
  }

  predicate LegalRun(db: Tables, evs: seq<Event>)
    decreases |evs|
  {
    evs != [] ==> Legal(db, evs[0]) && LegalRun(After(db, evs[0]), evs[1..])
  }

  function Run(db: Tables, evs: seq<Event>): Tables
    decreases |evs|
  {
    if evs == [] then db else Run(After(db, evs[0]), evs[1..])
  }

  lemma {:induction false} RefreshedJournals(db: Tables, a: int, now: int, reduce: (Blob, Blob) -> Result<(GameplayCommit,
                                             Blob), StorageError>)
    ensures var d := Refreshed(db, a, now, reduce);
            d.journal == db.journal && d.nextId == db.nextId && d.deltas == db.deltas && d.nextDelta == db.nextDelta
            && d.battles == db.battles
  {
  }

  lemma {:induction false} DropUnique(j: seq<Row>, pick: set<nat>)
    requires UniqueRequests(j)
    ensures UniqueRequests(Drop(j, pick))
  {
    if j != [] {
      var rest := Drop(j[1..], pick);
      assert forall i | 0 <= i < |j[1..]| :: j[1..][i] == j[i + 1];
      DropUnique(j[1..], pick);
      DropKeeps(j[1..], pick);
      forall i | 0 <= i < |rest| ensures j[0].account != rest[i].account || j[0].request != rest[i].request {
        assert rest[i] in j[1..];
      }
      assert Drop(j, pick) == (if j[0].id in pick then rest else [j[0]] + rest);
    }
  }

  /** Every event keeps the keys of the tables. */
  lemma {:induction false} EventValid(db: Tables, ev: Event)
    requires Valid(db)
    ensures Valid(After(db, ev))
  {
    hide Exec, Refreshed, Increasing, UniqueRequests;
    match ev
    case Call(req) => ExecValid(db, req);
    case Prune(_, pick, deltaPick) =>
      DropIncreasing(db.journal, db.nextId, pick);
      DropIncreasing(db.deltas, db.nextDelta, deltaPick);
      DropUnique(db.journal, pick);
      DropUnique(db.deltas, deltaPick);
    case Refresh(a, now, reduce) => RefreshedJournals(db, a, now, reduce);
    case Wish(_, _, _) =>
  }

  lemma {:induction false} RunValid(db: Tables, evs: seq<Event>)
    requires Valid(db)
    ensures Valid(Run(db, evs))
    decreases |evs|
  {
    hide Valid, After;
    if evs != [] {
      EventValid(db, evs[0]);
      RunValid(After(db, evs[0]), evs[1..]);
    }
  }

  // ----- exactly once --------------------------------------------------------------------------

  /** The first application writes the row that answers every later copy. */
  lemma {:induction false} AppliedRow(db: Tables, req: Request)
    requires Valid(db) && Exec(db, req).1 == Applied
    ensures Effect(db, req).Ok?
    ensures var next := if req.op.Memoria? then db.nextDelta else db.nextId;
            Lookup(JournalOf(Exec(db, req).0, req.op), req.account, req.request)
            == Some(RowOf(next, req, Effect(db, req).value.1))
  {
    hide Effect;
    ExecValid(db, req);
    var d := Exec(db, req).0;
    var next := if req.op.Memoria? then db.nextDelta else db.nextId;
    var row := RowOf(next, req, Effect(db, req).value.1);
    assert JournalOf(d, req.op)[|JournalOf(d, req.op)| - 1] == row;
    LookupUnique(JournalOf(d, req.op), row);
  }

  predicate SameJournal(a: Op, b: Op) {
    a.Memoria? == b.Memoria?
  }

  /**
   * Retries happen once. After a request was applied, let anything happen; as long as its row is not pruned, a request
   * with the same key changes nothing, and is answered with the recorded reply if it is the same request, else refused.
   */
  lemma {:induction false} RetryReplays(db: Tables, req: Request, evs: seq<Event>, again: Request)
    requires Valid(db) && Exec(db, req).1 == Applied
    requires again.account == req.account && again.request == req.request && SameJournal(req.op, again.op)
    requires var next := if req.op.Memoria? then db.nextDelta else db.nextId;
             RowOf(next, req, Effect(db, req).value.1) in JournalOf(Run(Exec(db, req).0, evs), req.op)
    ensures var late := Run(Exec(db, req).0, evs);
            Exec(late, again) == (late, if (req.op.Memoria? || again.route == req.route) && again.fingerprint == req.fingerprint
                                        then Replay(Effect(db, req).value.1) else Failed(RequestConflict))
  {
    hide Effect, Run;
    ExecValid(db, req);
    RunValid(Exec(db, req).0, evs);
    var next := if req.op.Memoria? then db.nextDelta else db.nextId;
    LookupUnique(JournalOf(Run(Exec(db, req).0, evs), req.op), RowOf(next, req, Effect(db, req).value.1));
  }

  function JournalFor(db: Tables, memoria: bool): seq<Row> {
    if memoria then db.deltas else db.journal
  }

  /** No prune of the history picks the row. */
  predicate Spared(evs: seq<Event>, memoria: bool, id: nat) {
    forall i | 0 <= i < |evs| && evs[i].Prune? :: id !in (if memoria then evs[i].deltaPick else evs[i].pick)
  }

  /** A row stays in its journal exactly until a prune picks it. */
  lemma {:induction false} RowStays(db: Tables, evs: seq<Event>, memoria: bool, row: Row)
    requires row in JournalFor(db, memoria) && Spared(evs, memoria, row.id)
    ensures row in JournalFor(Run(db, evs), memoria)
    decreases |evs|
  {
    hide After, JournalFor;
    if evs != [] {
      assert evs[0].Prune? ==> row.id !in (if memoria then evs[0].deltaPick else evs[0].pick);
      assert forall i | 0 <= i < |evs[1..]| :: evs[1..][i] == evs[i + 1];
      RowStaysOnce(db, evs[0], memoria, row);
      RowStays(After(db, evs[0]), evs[1..], memoria, row);
    }
  }

  lemma {:induction false} RowStaysOnce(db: Tables, ev: Event, memoria: bool, row: Row)
    requires row in JournalFor(db, memoria)
    requires ev.Prune? ==> row.id !in (if memoria then ev.deltaPick else ev.pick)
    ensures row in JournalFor(After(db, ev), memoria)
  {
    hide Effect, Refreshed, Drop, Lookup, JournalRowOk;
    match ev
    case Call(_) =>
    case Prune(_, pick, deltaPick) =>
      DropKeeps(db.journal, pick);
      DropKeeps(db.deltas, deltaPick);
    case Refresh(a, at, reduce) => RefreshedJournals(db, a, at, reduce);
    case Wish(_, _, _) =>
  }

  /** While no prune picks its row, an applied request is answered from the journal: at once, and after any history. */
  lemma {:induction false} RetryAnswered(db: Tables, req: Request, evs: seq<Event>, again: Request)
    requires Valid(db) && Exec(db, req).1 == Applied
    requires again.account == req.account && again.request == req.request && SameJournal(req.op, again.op)
    requires Spared(evs, req.op.Memoria?, if req.op.Memoria? then db.nextDelta else db.nextId)
    ensures Effect(db, req).Ok?
    ensures var late := Run(Exec(db, req).0, evs);
            Exec(late, again) == (late, if (req.op.Memoria? || again.route == req.route) && again.fingerprint == req.fingerprint
                                        then Replay(Effect(db, req).value.1) else Failed(RequestConflict))
  {
    hide Effect, Run, Exec, Spared;
    AppliedRow(db, req);
    var next := if req.op.Memoria? then db.nextDelta else db.nextId;
    RowStays(Exec(db, req).0, evs, req.op.Memoria?, RowOf(next, req, Effect(db, req).value.1));
    RetryReplays(db, req, evs, again);
  }

  /** Later calls of the account to the same journal. */
  function CallsOf(evs: seq<Event>, account: int, memoria: bool): nat {
    if evs == [] then 0
    else (if evs[0].Call? && evs[0].req.account == account && evs[0].req.op.Memoria? == memoria then 1 else 0)
         + CallsOf(evs[1..], account, memoria)
  }

  /** One event adds at most the row of its own call, and a legal prune leaves a fresh row that is not crowded out. */
  lemma {:induction false} EventShelters(db: Tables, ev: Event, memoria: bool, row: Row)
    requires Valid(db) && Legal(db, ev) && row in JournalFor(db, memoria)
    requires ev.Prune? ==> ev.now <= row.appliedAt + DAY
    requires Count(JournalFor(db, memoria), Newer(row.account, row.id)) + CallsOf([ev], row.account, memoria) < KEEP_COUNT
    ensures Spared([ev], memoria, row.id)
    ensures Count(JournalFor(After(db, ev), memoria), Newer(row.account, row.id))
            <= Count(JournalFor(db, memoria), Newer(row.account, row.id)) + CallsOf([ev], row.account, memoria)
  {
    hide Effect, Refreshed, Drop, Count, Lookup, JournalRowOk;
    var j, newer := JournalFor(db, memoria), Newer(row.account, row.id);
    match ev {
      case Call(req) =>
        var after := JournalFor(Exec(db, req).0, memoria);
        if after != j {
          var added := after[|j|];
          assert after == j + [added];
          assert [ev][0] == ev;
          CountConcat(j, [added], newer);
          CountOne(added, newer);
        }
      case Prune(now, pick, deltaPick) =>
        var picked := if memoria then deltaPick else pick;
        DropCount(j, picked, newer);
        if row.id in picked {
          var pins := if memoria then {} else Pins(db);
          var i :| 0 <= i < |j| && Stale(j, pins, now, j[i]) && j[i].id == row.id;
          SameId(j, if memoria then db.nextDelta else db.nextId, row, j[i]);
        }
      case Refresh(a, at, reduce) => RefreshedJournals(db, a, at, reduce);
      case Wish(_, _, _) =>
    }
  }

  lemma {:induction false} CountOne(row: Row, p: Row -> bool)
    ensures Count([row], p) == if p(row) then 1 else 0
  {
  }

  lemma {:induction false} FreshRowSpared(db: Tables, evs: seq<Event>, memoria: bool, row: Row)
    requires Valid(db) && LegalRun(db, evs) && row in JournalFor(db, memoria)
    requires forall i | 0 <= i < |evs| && evs[i].Prune? :: evs[i].now <= row.appliedAt + DAY
    requires Count(JournalFor(db, memoria), Newer(row.account, row.id)) + CallsOf(evs, row.account, memoria) < KEEP_COUNT
    ensures Spared(evs, memoria, row.id)
    decreases |evs|
  {
    hide After, Legal, Count, Valid;
    if evs != [] {
      assert [evs[0]][1..] == [] && [evs[0]][0] == evs[0];
      assert forall i | 0 <= i < |evs[1..]| :: evs[1..][i] == evs[i + 1];
      EventShelters(db, evs[0], memoria, row);
      EventValid(db, evs[0]);
      RowStays(db, [evs[0]], memoria, row);
      FreshRowSpared(After(db, evs[0]), evs[1..], memoria, row);
      forall i | 0 <= i < |evs| && evs[i].Prune? ensures row.id !in (if memoria then evs[i].deltaPick else evs[i].pick) {
        if i > 0 { assert evs[1..][i - 1] == evs[i]; }
      }
    }
  }

  lemma {:induction false} NoneNewer(j: seq<Row>, account: int, id: int)
    requires forall i | 0 <= i < |j| :: j[i].id <= id
    ensures Count(j, Newer(account, id)) == 0
  {
    if j != [] { NoneNewer(j[1..], account, id); }
  }

  /**
   * Exactly once for a day: a request that was applied is answered from the journal through any legal history in which
   * prunes run no later than a day after it and the account makes fewer than 256 further calls.
   */
  lemma {:induction false} RetryWithinADay(db: Tables, req: Request, evs: seq<Event>, again: Request)
    requires Valid(db) && Exec(db, req).1 == Applied && LegalRun(Exec(db, req).0, evs)
    requires again.account == req.account && again.request == req.request && SameJournal(req.op, again.op)
    requires forall i | 0 <= i < |evs| && evs[i].Prune? :: evs[i].now <= req.now + DAY
    requires CallsOf(evs, req.account, req.op.Memoria?) < KEEP_COUNT
    ensures Effect(db, req).Ok?
    ensures var late := Run(Exec(db, req).0, evs);
            Exec(late, again) == (late, if (req.op.Memoria? || again.route == req.route) && again.fingerprint == req.fingerprint
                                        then Replay(Effect(db, req).value.1) else Failed(RequestConflict))
  {
    hide Effect, Run, Exec, Spared, Count;
    AppliedRow(db, req);
    ExecValid(db, req);
    var memoria := req.op.Memoria?;
    var next := if memoria then db.nextDelta else db.nextId;
    var row := RowOf(next, req, Effect(db, req).value.1);
    NextGrows(db, req);
    NoneNewer(JournalFor(Exec(db, req).0, memoria), req.account, next);
    FreshRowSpared(Exec(db, req).0, evs, memoria, row);
    RetryAnswered(db, req, evs, again);
  }

  lemma {:induction false} NextGrows(db: Tables, req: Request)
    requires Exec(db, req).1 == Applied
    ensures if req.op.Memoria? then Exec(db, req).0.nextDelta == db.nextDelta + 1 else Exec(db, req).0.nextId == db.nextId + 1
  {
    hide Effect;
  }

  /** A refusal or a replay leaves every table as it was. */
  lemma {:induction false} OnlyApplicationsChange(db: Tables, req: Request)
    ensures Exec(db, req).1 != Applied ==> Exec(db, req).0 == db
    ensures Exec(db, req).1 == Applied ==> |JournalOf(Exec(db, req).0, req.op)| == |JournalOf(db, req.op)| + 1
    ensures Exec(db, req).1.Replay? ==>
              exists row | row in JournalOf(db, req.op) :: row.account == req.account && row.request == req.request
                                                       && row.response == Exec(db, req).1.response
  {
    hide Effect;
  }

  /** The history without the calls that were answered from a journal. */
  function WithoutReplays(db: Tables, evs: seq<Event>): seq<Event>
    decreases |evs|
  {
    if evs == [] then []
    else
      var rest := WithoutReplays(After(db, evs[0]), evs[1..]);
      if evs[0].Call? && Lookup(JournalOf(db, evs[0].req.op), evs[0].req.account, evs[0].req.request).Some?
      then rest else [evs[0]] + rest
  }

  /** What each call of a history is answered, in order. */
  function Answers(db: Tables, evs: seq<Event>): seq<Outcome>
    decreases |evs|
  {
    if evs == [] then []
    else (if evs[0].Call? then [Exec(db, evs[0].req).1] else []) + Answers(After(db, evs[0]), evs[1..])
  }

  function FreshAnswers(os: seq<(Outcome, bool)>): seq<Outcome> {
    if os == [] then [] else (if os[0].1 then [os[0].0] else []) + FreshAnswers(os[1..])
  }

  /** The answers of a history, each with whether the journal had no row for the call. */
  function Marked(db: Tables, evs: seq<Event>): seq<(Outcome, bool)>
    decreases |evs|
  {
    if evs == [] then []
    else (if evs[0].Call?
          then [(Exec(db, evs[0].req).1, Lookup(JournalOf(db, evs[0].req.op), evs[0].req.account, evs[0].req.request).None?)]
          else [])
         + Marked(After(db, evs[0]), evs[1..])
  }

  /**
   * Retries refine exactly-once: dropping every call that hit the journal leaves the same tables at the end, the
   * answers of the remaining calls unchanged, and a history whose prunes were just as legal.
   */
  lemma {:induction false} DuplicatesDoNotMatter(db: Tables, evs: seq<Event>)
    ensures Run(db, WithoutReplays(db, evs)) == Run(db, evs)
    ensures Answers(db, WithoutReplays(db, evs)) == FreshAnswers(Marked(db, evs))
    ensures LegalRun(db, evs) ==> LegalRun(db, WithoutReplays(db, evs))
    decreases |evs|
  {
    hide Effect, Legal, Refreshed;
    if evs != [] {
      var next := After(db, evs[0]);
      DuplicatesDoNotMatter(next, evs[1..]);
      if evs[0].Call? && Lookup(JournalOf(db, evs[0].req.op), evs[0].req.account, evs[0].req.request).Some? {
        assert next == db;
        assert Marked(db, evs)[1..] == Marked(next, evs[1..]);
      } else {
        var kept := WithoutReplays(next, evs[1..]);
        assert WithoutReplays(db, evs)[1..] == kept;
        if evs[0].Call? { assert Marked(db, evs)[1..] == Marked(next, evs[1..]); }
        else { assert Marked(db, evs) == Marked(next, evs[1..]); }
      }
    }
  }

  // ----- recovery ------------------------------------------------------------------------------

  /** For each account in battle, the reply of the start that created the battle. */
  function Ledger(db: Tables, ledger: map<int, Blob>, ev: Event): map<int, Blob> {
    if !ev.Call? || Exec(db, ev.req).1 != Applied then ledger
    else match ev.req.op
      case Start(_) => if Effect(db, ev.req).Ok? then ledger[ev.req.account := Effect(db, ev.req).value.1] else ledger
      case Finish(_) => ledger - {ev.req.account}
      case _ => ledger
  }

  function LedgerRun(db: Tables, ledger: map<int, Blob>, evs: seq<Event>): map<int, Blob>
    decreases |evs|
  {
    if evs == [] then ledger else LedgerRun(After(db, evs[0]), Ledger(db, ledger, evs[0]), evs[1..])
  }

  /** latest_battle_start_response */
  function RecoveryResponse(db: Tables, account: int): Option<Blob> {
    match LatestStart(db.journal, account)
    case None => None
    case Some(row) => Some(row.response)
  }

  predicate Recoverable(db: Tables, ledger: map<int, Blob>) {
    db.battles.Keys == ledger.Keys && forall a | a in ledger :: RecoveryResponse(db, a) == Some(ledger[a])
  }

  lemma {:induction false} LatestStartAppend(j: seq<Row>, row: Row, a: int)
    ensures LatestStart(j + [row], a) == if IsStart(row, a) then Some(row) else LatestStart(j, a)
  {
    hide IsStartRoute;
    assert (j + [row])[..|j|] == j;
  }

  /** Dropping rows other than the latest start leaves the latest start. */
  lemma {:induction false} LatestStartDrop(j: seq<Row>, pick: set<nat>, a: int)
    requires LatestStart(j, a).Some? && LatestStart(j, a).value.id !in pick
    ensures LatestStart(Drop(j, pick), a) == LatestStart(j, a)
    decreases |j|
  {
    hide IsStartRoute, Drop;
    var front, last := j[..|j| - 1], j[|j| - 1];
    assert j == front + [last];
    DropAppend(front, last, pick);
    LatestStartAppend(front, last, a);
    LatestStartAppend(Drop(front, pick), last, a);
    if !IsStart(last, a) { LatestStartDrop(front, pick, a); }
    if last.id in pick { assert Drop(front, pick) + [] == Drop(front, pick); }
  }

  lemma {:induction false} DropAppend(j: seq<Row>, row: Row, pick: set<nat>)
    ensures Drop(j + [row], pick) == Drop(j, pick) + (if row.id in pick then [] else [row])
  {
    if j == [] {
      assert j + [row] == [row];
    } else {
      assert (j + [row])[1..] == j[1..] + [row];
      DropAppend(j[1..], row, pick);
    }
  }

  /** The battles table after a call, by kind of request. */
  lemma {:induction false} BattlesAfter(db: Tables, req: Request)
    requires Effect(db, req).Ok?
    ensures Effect(db, req).value.0.battles.Keys
            == (if req.op.Start? then db.battles.Keys + {req.account}
                else if req.op.Finish? then db.battles.Keys - {req.account} else db.battles.Keys)
  {
    hide Effect;
    match req.op
    case Start(_) => StartOpens(db, req);
    case Attack(_) => AttackStays(db, req);
    case Finish(_) => FinishCloses(db, req);
    case _ => OthersStay(db, req);
  }

  lemma {:induction false} StartOpens(db: Tables, req: Request)
    requires req.op.Start? && Effect(db, req).Ok?
    ensures Effect(db, req).value.0.battles.Keys == db.battles.Keys + {req.account}
  {
    hide BattleRowOk, HomeOf;
  }

  lemma {:induction false} AttackStays(db: Tables, req: Request)
    requires req.op.Attack? && Effect(db, req).Ok?
    ensures Effect(db, req).value.0.battles.Keys == db.battles.Keys
  {
    hide HomeOf;
  }

  lemma {:induction false} FinishCloses(db: Tables, req: Request)
    requires req.op.Finish? && Effect(db, req).Ok?
    ensures Effect(db, req).value.0.battles.Keys == db.battles.Keys - {req.account}
  {
    hide HomeOf, SetCharacters;
  }

  lemma {:induction false} OthersStay(db: Tables, req: Request)
    requires !req.op.Start? && !req.op.Attack? && !req.op.Finish? && Effect(db, req).Ok?
    ensures Effect(db, req).value.0.battles == db.battles
  {
    hide BlockedByBattle, SetCharacters, HomeOf;
  }

  lemma {:induction false} CallRecoverable(db: Tables, ledger: map<int, Blob>, req: Request)
    requires Valid(db) && Recoverable(db, ledger) && Legal(db, Call(req))
    ensures Recoverable(Exec(db, req).0, Ledger(db, ledger, Call(req)))
  {
    hide Effect, LatestStart, Lookup, JournalRowOk;
    if Exec(db, req).1 == Applied {
      BattlesAfter(db, req);
      var row := RowOf(db.nextId, req, Effect(db, req).value.1);
      forall a ensures LatestStart(db.journal + [row], a) == if IsStart(row, a) then Some(row) else LatestStart(db.journal, a) {
        LatestStartAppend(db.journal, row, a);
      }
    }
  }

  lemma {:induction false} PruneRecoverable(db: Tables, ledger: map<int, Blob>, now: int, pick: set<nat>, deltaPick: set<nat>)
    requires Valid(db) && Recoverable(db, ledger) && Legal(db, Prune(now, pick, deltaPick))
    ensures Recoverable(After(db, Prune(now, pick, deltaPick)), ledger)
  {
    hide LatestStart, Drop, Count;
    forall a | a in ledger ensures RecoveryResponse(After(db, Prune(now, pick, deltaPick)), a) == Some(ledger[a]) {
      var row := LatestStart(db.journal, a).value;
      assert row.id in Pins(db);
      assert row.id !in StaleIds(db.journal, Pins(db), now);
      LatestStartDrop(db.journal, pick, a);
    }
  }

  lemma {:induction false} StepRecoverable(db: Tables, ledger: map<int, Blob>, ev: Event)
    requires Valid(db) && Recoverable(db, ledger) && Legal(db, ev)
    ensures Recoverable(After(db, ev), Ledger(db, ledger, ev))
  {
    hide Exec, Refreshed, LatestStart, Effect;
    match ev
    case Call(req) => CallRecoverable(db, ledger, req);
    case Prune(now, pick, deltaPick) => PruneRecoverable(db, ledger, now, pick, deltaPick);
    case Refresh(a, now, reduce) => RefreshedJournals(db, a, now, reduce);
    case Wish(_, _, _) =>
  }

  /**
   * Recovery safety. In every state reached by any legal history, an account is in battle exactly if the history says
   * so, and the recovery query returns the reply of the start that created that very battle.
   */
  lemma {:induction false} RecoverySafety(db: Tables, ledger: map<int, Blob>, evs: seq<Event>)
    requires Valid(db) && Recoverable(db, ledger) && LegalRun(db, evs)
    ensures Recoverable(Run(db, evs), LedgerRun(db, ledger, evs))
    decreases |evs|
  {
    hide Recoverable, Valid, After, Legal, Ledger;
    if evs != [] {
      EventValid(db, evs[0]);
      StepRecoverable(db, ledger, evs[0]);
      RecoverySafety(After(db, evs[0]), Ledger(db, ledger, evs[0]), evs[1..]);
    }
  }

  /** A freshly migrated database is a start for all of the above. */
  lemma {:induction false} EmptyStoreRecoverable(db: Tables)
    requires db.journal == [] && db.deltas == [] && db.battles == map[]
    ensures Valid(db) && Recoverable(db, map[])
  {
  }

  // ----- pruning the whole store ---------------------------------------------------------------

  /** A prune takes no recovery row, so the next one pins the same rows. */
  lemma {:induction false} PinsStay(db: Tables, ev: Event)
    requires Valid(db) && ev.Prune? && Legal(db, ev)
    ensures Pins(After(db, ev)) == Pins(db)
  {
    hide Drop, LatestStart, Count;
    forall a | a in db.battles ensures LatestStart(After(db, ev).journal, a) == LatestStart(db.journal, a) {
      var latest := LatestStart(db.journal, a);
      if latest.Some? {
        assert latest.value.id in Pins(db);
        assert latest.value.id !in StaleIds(db.journal, Pins(db), ev.now);
        LatestStartDrop(db.journal, ev.pick, a);
      } else {
        NoStartDrop(db.journal, ev.pick, a);
      }
    }
  }

  lemma {:induction false} NoStartDrop(j: seq<Row>, pick: set<nat>, a: int)
    requires LatestStart(j, a).None?
    ensures LatestStart(Drop(j, pick), a).None?
    decreases |j|
  {
    hide IsStartRoute, Drop;
    if j == [] {
      DropKeeps(j, pick);
      assert forall r :: r !in Drop(j, pick);
    } else {
      var front, last := j[..|j| - 1], j[|j| - 1];
      assert j == front + [last];
      DropAppend(front, last, pick);
      NoStartDrop(front, pick, a);
      LatestStartAppend(Drop(front, pick), last, a);
      if last.id in pick { assert Drop(front, pick) + [] == Drop(front, pick); }
    }
  }

  predicate AllPrunes(evs: seq<Event>, now: int) {
    forall i | 0 <= i < |evs| :: evs[i].Prune? && evs[i].now == now
  }

  function Picks(evs: seq<Event>, now: int): (r: (seq<set<nat>>, seq<set<nat>>))
    requires AllPrunes(evs, now)
    ensures |r.0| == |r.1| == |evs|
  {
    if evs == [] then ([], []) else
      var rest := Picks(evs[1..], now);
      ([evs[0].pick] + rest.0, [evs[0].deltaPick] + rest.1)
  }

  lemma {:induction false} PruneRuns(db: Tables, evs: seq<Event>, now: int)
    requires Valid(db) && AllPrunes(evs, now) && LegalRun(db, evs)
    ensures var (picks, deltaPicks) := Picks(evs, now);
            && Prunes(db.journal, Pins(db), now, picks) && Prunes(db.deltas, {}, now, deltaPicks)
            && Run(db, evs).journal == Pruned(db.journal, picks) && Run(db, evs).deltas == Pruned(db.deltas, deltaPicks)
    decreases |evs|
  {
    hide Pins, MayPick, Drop, Valid;
    if evs != [] {
      var rest := evs[1..];
      assert forall i | 0 <= i < |rest| :: rest[i] == evs[i + 1];
      EventValid(db, evs[0]);
      PinsStay(db, evs[0]);
      PruneRuns(After(db, evs[0]), rest, now);
      var (picks, deltaPicks) := Picks(evs, now);
      assert picks[1..] == Picks(rest, now).0 && deltaPicks[1..] == Picks(rest, now).1;
    }
  }

  /**
   * Convergence of the store. After as many prunes at one moment as the longer journal has rows, whatever rows each of
   * them picks, gameplay_mutations holds exactly the rows that were under a day old and among the newest 256 of their
   * account, and the recovery row of each active battle; memoria_deltas the same without recovery rows. In any case no
   * account is left with more than 257 mutations, even if its clock ran backwards.
   */
  lemma {:induction false} StoreConverges(db: Tables, evs: seq<Event>, now: int)
    requires Valid(db) && AllPrunes(evs, now) && LegalRun(db, evs) && |evs| >= |db.journal| && |evs| >= |db.deltas|
    ensures Chronological(db.journal) ==> forall r :: r in Run(db, evs).journal <==> Kept(db.journal, Pins(db), now, r)
    ensures Chronological(db.deltas) ==> forall r :: r in Run(db, evs).deltas <==> Kept(db.deltas, {}, now, r)
    ensures forall a :: Count(Run(db, evs).journal, OfAccount(a)) <= KEEP_COUNT + 1
  {
    hide Count, Pins, Prunes, Pruned, Kept, Drop, LegalRun, Run, Chronological;
    PruneRuns(db, evs, now);
    var (picks, deltaPicks) := Picks(evs, now);
    if Chronological(db.journal) { PruneConverges(db.journal, db.nextId, Pins(db), now, picks); }
    if Chronological(db.deltas) { PruneConverges(db.deltas, db.nextDelta, {}, now, deltaPicks); }
    PruneTerminates(db.journal, Pins(db), now, picks);
    assert (forall r | Kept(db.journal, Pins(db), now, r) :: r in db.journal) by { KeptPresent(db.journal, Pins(db), now); }
    PrunedBetween(db.journal, db.journal, db.nextId, Pins(db), now, picks);
    forall a ensures Count(Run(db, evs).journal, OfAccount(a)) <= KEEP_COUNT + 1 {
      OnePinPerAccount(db, Run(db, evs).journal, a);
      AccountBound(Run(db, evs).journal, db.nextId, Pins(db), now, a);
    }
  }

  lemma {:induction false} KeptPresent(j: seq<Row>, pins: set<nat>, now: int)
    ensures forall r | Kept(j, pins, now, r) :: r in j
  {
  }
}
