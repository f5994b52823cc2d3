/** What an applied request has written, table by table, and which requests are applied. */
module Commits {
  import opened Prelude
  import opened Journal

  predicate Lists(index: seq<(int, Option<int>)>, id: int) {
    exists i | 0 <= i < |index| :: index[i].0 == id
  }

  predicate IsLast(index: seq<(int, Option<int>)>, id: int, memoria: Option<int>) {
    exists i | 0 <= i < |index| :: index[i] == (id, memoria) && forall j | i < j < |index| :: index[j].0 != id
  }

  /** Each listed character of the account has the last value listed for it, and every other row is as it was. */
  ghost predicate Upserted(x: map<(int, int), Option<int>>, y: map<(int, int), Option<int>>, account: int,
                           index: seq<(int, Option<int>)>) {
    && (forall a, c | a == account && Lists(index, c) :: (a, c) in y && IsLast(index, c, y[(a, c)]))
    && (forall a, c | !(a == account && Lists(index, c)) ::
          ((a, c) in y <==> (a, c) in x) && ((a, c) in x ==> y[(a, c)] == x[(a, c)]))
  }

  /** One row more in the journal of mutations, under a number of its own. */
  predicate Journaled(x: Tables, y: Tables, req: Request, response: Blob) {
    && y.journal == x.journal + [Row(x.nextId, req.account, req.request, req.route, req.fingerprint, response, req.now)]
    && y.nextId == x.nextId + 1 && y.deltas == x.deltas && y.nextDelta == x.nextDelta
  }

  predicate PlayerWritten(x: Tables, y: Tables, account: int, resources: Blob, now: int) {
    account in x.players && y.players == x.players[account := Player(resources, now)]
  }

  /** A commit without home state leaves the stored one alone. */
  predicate HomeWritten(x: Tables, y: Tables, account: int, home: Option<Blob>) {
    match home
    case None => y.homes == x.homes
    case Some(blob) => y.homes == x.homes[account := blob]
  }

  ghost predicate StartWritten(x: Tables, y: Tables, req: Request, c: StartCommit) {
    && PlayerWritten(x, y, req.account, c.resources, req.now) && HomeWritten(x, y, req.account, c.home)
    && y.battles == x.battles[req.account := Battle(c.quest, c.battle, c.txid, c.blob, req.now)]
    && y.characters == x.characters && y.buttons == x.buttons && y.wishes == x.wishes && Journaled(x, y, req, c.response)
  }

  ghost predicate AttackWritten(x: Tables, y: Tables, req: Request, c: AttackCommit) {
    && y.players == x.players && HomeWritten(x, y, req.account, Some(c.home))
    && y.characters == x.characters && y.buttons == x.buttons && y.wishes == x.wishes && Journaled(x, y, req, c.response)
    && req.account in x.battles
    && var b := x.battles[req.account];
       y.battles == x.battles[req.account := Battle(b.quest, b.battle, b.txid, c.blob, req.now)]
  }

  ghost predicate FinishWritten(x: Tables, y: Tables, req: Request, c: FinishCommit) {
    && PlayerWritten(x, y, req.account, c.resources, req.now) && HomeWritten(x, y, req.account, c.home)
    && y.battles == x.battles - {req.account} && Upserted(x.characters, y.characters, req.account, c.characters)
    && y.buttons == x.buttons && y.wishes == x.wishes && Journaled(x, y, req, c.response)
  }

  /** Gameplay and home mutations and draws: resources, characters, perhaps the home state, and the use of a button. */
  ghost predicate MutationWritten(x: Tables, y: Tables, req: Request, c: GameplayCommit, home: Option<Blob>, buttons: map<(int, int, int), int>) {
    && PlayerWritten(x, y, req.account, c.resources, req.now) && HomeWritten(x, y, req.account, home)
    && Upserted(x.characters, y.characters, req.account, c.characters)
    && y.battles == x.battles && y.buttons == buttons && y.wishes == x.wishes && Journaled(x, y, req, c.response)
  }

  /** A precomputed mutation: a granted character is added when it is new and its id is positive. */
  ghost predicate PlainWritten(x: Tables, y: Tables, req: Request, resources: Blob, granted: Option<int>, response: Blob) {
    && PlayerWritten(x, y, req.account, resources, req.now) && y.homes == x.homes && y.battles == x.battles
    && y.buttons == x.buttons && y.wishes == x.wishes && Journaled(x, y, req, response)
    && Granted(x.characters, y.characters, req.account, granted)
  }

  ghost predicate Granted(x: map<(int, int), Option<int>>, y: map<(int, int), Option<int>>, account: int, granted: Option<int>) {
    forall a, c :: var added := a == account && granted == Some(c) && c > 0 && (a, c) !in x;
                   ((a, c) in y <==> (a, c) in x || added)
                   && ((a, c) in y ==> y[(a, c)] == if added then None else x[(a, c)])
  }

  ghost predicate MemoriaWritten(x: Tables, y: Tables, req: Request, character: int, memoria: Option<int>, response: Blob) {
    && (req.account, character) in x.characters && y.characters == x.characters[(req.account, character) := memoria]
    && y.players == x.players && y.battles == x.battles && y.homes == x.homes && y.buttons == x.buttons && y.wishes == x.wishes
    && y.journal == x.journal && y.nextId == x.nextId && y.nextDelta == x.nextDelta + 1
    && y.deltas == x.deltas + [Row(x.nextDelta, req.account, req.request, "/character/memoria_set", req.fingerprint, response, req.now)]
  }

  lemma {:induction false} CharactersUpserted(cs: map<(int, int), Option<int>>, account: int, index: seq<(int, Option<int>)>)
    ensures Upserted(cs, SetCharacters(cs, account, index), account, index)
    decreases |index|
  {
    if index != [] {
      var n := |index| - 1;
      var front, last := index[..n], index[n];
      CharactersUpserted(cs, account, front);
      var mid := SetCharacters(cs, account, front);
      var y := mid[(account, last.0) := last.1];
      assert y == SetCharacters(cs, account, index);
      forall c ensures Lists(index, c) <==> Lists(front, c) || c == last.0 {
        if Lists(front, c) { var i :| 0 <= i < n && front[i].0 == c; assert index[i].0 == c; }
        if Lists(index, c) { var i :| 0 <= i < |index| && index[i].0 == c; assert i < n ==> front[i].0 == c; }
      }
      forall a, c | a == account && Lists(index, c) ensures (a, c) in y && IsLast(index, c, y[(a, c)]) {
        if c == last.0 {
          assert index[n] == (c, y[(a, c)]);
        } else {
          assert (a, c) in mid && IsLast(front, c, mid[(a, c)]);
          LastStays(index, c, mid[(a, c)]);
        }
      }
    }
  }

  lemma {:induction false} LastStays(index: seq<(int, Option<int>)>, id: int, memoria: Option<int>)
    requires index != [] && IsLast(index[..|index| - 1], id, memoria) && index[|index| - 1].0 != id
    ensures IsLast(index, id, memoria)
  {
    var n := |index| - 1;
    var front := index[..n];
    var i :| 0 <= i < n && front[i] == (id, memoria) && forall j | i < j < n :: front[j].0 != id;
    assert index[i] == (id, memoria);
    forall j | i < j < |index| ensures index[j].0 != id {
      if j < n { assert front[j] == index[j]; }
    }
  }

  // ----- what each kind of request writes ------------------------------------------------------

  lemma {:induction false} StartWrites(db: Tables, req: Request)
    requires req.op.Start? && Exec(db, req).1 == Applied
    ensures req.account in db.players && req.account !in db.battles
    ensures var c := req.op.start(db.players[req.account].resources, HomeOf(db, req.account));
            c.Ok? && StartWritten(db, Exec(db, req).0, req, c.value)
  {
    hide Lookup, JournalRowOk, HomeOf, Effect;
    StartEffect(db, req);
  }

  lemma {:induction false} StartEffect(db: Tables, req: Request)
    requires req.op.Start? && Effect(db, req).Ok?
    ensures var a := req.account;
            a in db.players && a !in db.battles
            && var reduced := req.op.start(db.players[a].resources, HomeOf(db, a));
               reduced.Ok?
               && var c := reduced.value;
                  Effect(db, req).value
                  == (db.(players := db.players[a := Player(c.resources, req.now)],
                          homes := if c.home.Some? then db.homes[a := c.home.value] else db.homes,
                          battles := db.battles[a := Battle(c.quest, c.battle, c.txid, c.blob, req.now)]), c.response)
  {
    hide HomeOf, BattleRowOk;
  }

  lemma {:induction false} AttackWrites(db: Tables, req: Request)
    requires req.op.Attack? && Exec(db, req).1 == Applied
    ensures req.account in db.players && req.account in db.battles
    ensures var c := req.op.attack(db.battles[req.account], db.players[req.account].resources, HomeOf(db, req.account));
            c.Ok? && AttackWritten(db, Exec(db, req).0, req, c.value) && c.value.blob != []
  {
    hide Lookup, JournalRowOk, HomeOf;
  }

  lemma {:induction false} FinishWrites(db: Tables, req: Request)
    requires req.op.Finish? && Exec(db, req).1 == Applied
    ensures req.account in db.players && req.account in db.battles
    ensures var c := req.op.finish(db.battles[req.account], db.players[req.account].resources, HomeOf(db, req.account));
            c.Ok? && FinishWritten(db, Exec(db, req).0, req, c.value)
            && forall i | 0 <= i < |c.value.characters| :: c.value.characters[i].0 > 0
  {
    hide Lookup, JournalRowOk, HomeOf, SetCharacters, Upserted;
    var c := req.op.finish(db.battles[req.account], db.players[req.account].resources, HomeOf(db, req.account)).value;
    CharactersUpserted(db.characters, req.account, c.characters);
  }

  lemma {:induction false} GameplayWrites(db: Tables, req: Request)
    requires req.op.Gameplay? && Exec(db, req).1 == Applied
    ensures req.account in db.players
    ensures var c := req.op.gameplay(db.players[req.account].resources);
            c.Ok? && MutationWritten(db, Exec(db, req).0, req, c.value, None, db.buttons)
            && forall i | 0 <= i < |c.value.characters| :: c.value.characters[i].0 > 0
  {
    hide Lookup, JournalRowOk, HomeOf, SetCharacters, Upserted;
    CharactersUpserted(db.characters, req.account, req.op.gameplay(db.players[req.account].resources).value.characters);
  }

  lemma {:induction false} HomeWrites(db: Tables, req: Request)
    requires req.op.Home? && Exec(db, req).1 == Applied
    ensures req.account in db.players
    ensures var c := req.op.homeReduce(db.players[req.account].resources, HomeOf(db, req.account));
            c.Ok? && MutationWritten(db, Exec(db, req).0, req, c.value.0, Some(c.value.1), db.buttons)
            && forall i | 0 <= i < |c.value.0.characters| :: c.value.0.characters[i].0 > 0
  {
    hide Lookup, JournalRowOk, HomeOf, SetCharacters, Upserted, BlockedByBattle;
    CharactersUpserted(db.characters, req.account,
                       req.op.homeReduce(db.players[req.account].resources, HomeOf(db, req.account)).value.0.characters);
  }

  lemma {:induction false} PlainWrites(db: Tables, req: Request)
    requires req.op.Plain? && Exec(db, req).1 == Applied
    ensures PlainWritten(db, Exec(db, req).0, req, req.op.resources, req.op.granted, req.op.response)
  {
    hide Lookup, JournalRowOk, Effect, Granted;
    PlainEffect(db, req);
  }

  lemma {:induction false} PlainEffect(db: Tables, req: Request)
    requires req.op.Plain? && Effect(db, req).Ok?
    ensures req.account in db.players && Effect(db, req).value.1 == req.op.response
    ensures var d := Effect(db, req).value.0;
            d == db.(players := db.players[req.account := Player(req.op.resources, req.now)], characters := d.characters)
            && Granted(db.characters, d.characters, req.account, req.op.granted)
  {
  }

  lemma {:induction false} GachaWrites(db: Tables, req: Request)
    requires req.op.Gacha? && Exec(db, req).1 == Applied
    ensures req.account in db.players
    ensures var used := (req.account, req.op.gacha, req.op.button);
            var count := if used in db.buttons then db.buttons[used] else 0;
            var wished := (req.account, req.op.gacha);
            var c := req.op.draw(db.players[req.account].resources, count, if wished in db.wishes then Some(db.wishes[wished]) else None);
            c.Ok? && MutationWritten(db, Exec(db, req).0, req, c.value, None, db.buttons[used := count + 1])
            && forall i | 0 <= i < |c.value.characters| :: c.value.characters[i].0 > 0
  {
    hide Lookup, JournalRowOk, SetCharacters, Upserted;
    var count := Executions(db, req.account, req.op.gacha, req.op.button);
    var wished := (req.account, req.op.gacha);
    var c := req.op.draw(db.players[req.account].resources, count, if wished in db.wishes then Some(db.wishes[wished]) else None).value;
    CharactersUpserted(db.characters, req.account, c.characters);
  }

  lemma {:induction false} MemoriaWrites(db: Tables, req: Request)
    requires req.op.Memoria? && Exec(db, req).1 == Applied
    ensures MemoriaWritten(db, Exec(db, req).0, req, req.op.character, req.op.memoria, req.op.reply)
  {
    hide Lookup, JournalRowOk;
  }

  predicate Listable(index: seq<(int, Option<int>)>) {
    forall i | 0 <= i < |index| :: index[i].0 > 0
  }

  /** What the kind of request asks of the tables and of its reducer. */
  predicate Accepted(db: Tables, req: Request) {
    var a := req.account;
    match req.op
    case Start(reduce) =>
      a in db.players && a !in db.battles
      && var c := reduce(db.players[a].resources, HomeOf(db, a));
         c.Ok? && c.value.quest > 0 && c.value.battle > 0 && c.value.txid != "" && c.value.blob != []
         && forall b | b in db.battles :: db.battles[b].txid != c.value.txid
    case Attack(reduce) =>
      a in db.players && a in db.battles
      && var c := reduce(db.battles[a], db.players[a].resources, HomeOf(db, a)); c.Ok? && c.value.blob != []
    case Finish(reduce) =>
      a in db.players && a in db.battles
      && var c := reduce(db.battles[a], db.players[a].resources, HomeOf(db, a)); c.Ok? && Listable(c.value.characters)
    case Gameplay(reduce) =>
      a in db.players && var c := reduce(db.players[a].resources); c.Ok? && Listable(c.value.characters)
    case Home(reduce) =>
      a in db.players
      && (a in db.battles ==>
            req.route !in {"/solo_raid/reset", "/total_battle/reset_panel", "/quest/talk_event/main_story_episode_skip",
                           "/quest/talk_event/main_story_season_skip", "/quest/talk_event/prologue_skip", "/exploration/skip"})
      && var c := reduce(db.players[a].resources, HomeOf(db, a)); c.Ok? && Listable(c.value.0.characters)
    case Plain(_, _, _) => a in db.players
    case Gacha(gacha, button, reduce) =>
      a in db.players
      && var c := reduce(db.players[a].resources, Executions(db, a, gacha, button),
                         if (a, gacha) in db.wishes then Some(db.wishes[(a, gacha)]) else None);
         c.Ok? && Listable(c.value.characters)
    case Memoria(character, _, _) => (a, character) in db.characters && character > 0
  }

  /** A request is applied exactly when its key is new and well formed and its kind accepts it. */
  lemma {:induction false} AppliedExactly(db: Tables, req: Request)
    ensures Exec(db, req).1 == Applied <==>
              && Lookup(JournalOf(db, req.op), req.account, req.request).None?
              && 1 <= |req.request| <= 128 && req.route != "" && |req.fingerprint| == 32 && Accepted(db, req)
  {
    hide Lookup, SetCharacters, HomeOf, Record, Effect;
    EffectExactly(db, req);
  }

  lemma {:induction false} EffectExactly(db: Tables, req: Request)
    ensures Accepted(db, req) <==> Effect(db, req).Ok? && (req.op.Memoria? ==> req.op.character > 0)
  {
    hide SetCharacters, HomeOf, SetPlayer, SetHome, Executions;
  }

  /**
   * Why a request under a new key is refused: a start without a player, then during a battle; an attack or a finish without
   * a battle; a home mutation that a battle blocks; then whatever the reducer says; and a constraint in the end.
   */
  lemma {:induction false} RefusedFor(db: Tables, req: Request)
    requires Lookup(JournalOf(db, req.op), req.account, req.request).None? && Exec(db, req).1 != Applied
    ensures var a := req.account;
            var known, fighting := a in db.players, a in db.battles;
            Exec(db, req).1 == Failed(
              match req.op
              case Start(reduce) =>
                if !known then NotFound else if fighting then ActiveBattleExists
                else (match reduce(db.players[a].resources, HomeOf(db, a)) case Err(e) => e case Ok(_) => Sql)
              case Attack(reduce) =>
                if !fighting then BattleInactive else if !known then Sql
                else (match reduce(db.battles[a], db.players[a].resources, HomeOf(db, a)) case Err(e) => e case Ok(_) => Sql)
              case Finish(reduce) =>
                if !fighting then BattleInactive else if !known then Sql
                else (match reduce(db.battles[a], db.players[a].resources, HomeOf(db, a)) case Err(e) => e case Ok(_) => Sql)
              case Gameplay(reduce) =>
                if !known then NotFound else (match reduce(db.players[a].resources) case Err(e) => e case Ok(_) => Sql)
              case Home(reduce) =>
                if fighting && BlockedByBattle(req.route) then ActiveBattleExists else if !known then Sql
                else (match reduce(db.players[a].resources, HomeOf(db, a)) case Err(e) => e case Ok(_) => Sql)
              case Plain(_, _, _) => if !known then NotFound else Sql
              case Gacha(gacha, button, reduce) =>
                if !known then NotFound
                else (match reduce(db.players[a].resources, Executions(db, a, gacha, button),
                                   if (a, gacha) in db.wishes then Some(db.wishes[(a, gacha)]) else None)
                      case Err(e) => e case Ok(_) => Sql)
              case Memoria(character, _, _) => if (a, character) !in db.characters then NotFound else Sql)
  {
    hide Lookup, SetCharacters, HomeOf, SetPlayer, SetHome, Executions, BattleRowOk, CharactersOk, BlockedByBattle, JournalRowOk, Record;
  }

  /** A request under a key that the journal holds gets the recorded reply if it is the same request, else a conflict. */
  lemma {:induction false} KnownKey(db: Tables, req: Request, row: Row)
    requires Lookup(JournalOf(db, req.op), req.account, req.request) == Some(row)
    ensures Exec(db, req) == (db, if (req.op.Memoria? || row.route == req.route) && row.fingerprint == req.fingerprint
                                  then Replay(row.response) else Failed(RequestConflict))
  {
  }

  /** A player without stored home state has the two bytes of an empty object. */
  lemma {:induction false} HomeDefault(db: Tables, account: int)
    ensures HomeOf(db, account) == if account in db.homes then db.homes[account] else [123, 125]
    ensures [123, 125] == ['{' as int, '}' as int]
  {
  }

  /** The routes whose replies recovery looks for. */
  lemma {:induction false} StartRoutes(route: string)
    ensures IsStartRoute(route) <==>
              route in {"/quest/battle/start", "/quest/battle/rental_party_start", "/exploration/battle_start",
                        "/quest/battle/solo_raid_battle_start", "/quest/battle/total_battle_start", "/gacha/battle_start"}
  {
  }

  // ----- what active battles keep --------------------------------------------------------------

  /** UNIQUE (start_txid) */
  predicate DistinctStarts(db: Tables) {
    forall a, b | a in db.battles && b in db.battles && a != b :: db.battles[a].txid != db.battles[b].txid
  }

  /** No two active battles share the id they were started under. */
  lemma {:induction false} StartsStayDistinct(db: Tables, req: Request)
    requires DistinctStarts(db)
    ensures DistinctStarts(Exec(db, req).0)
  {
    hide Effect, Lookup, JournalRowOk, HomeOf, Record, PlayerWritten, HomeWritten, Upserted, Journaled;
    if Exec(db, req).1 == Applied {
      AppliedExactly(db, req);
      match req.op {
        case Start(_) => StartWrites(db, req);
        case Attack(_) => AttackWrites(db, req);
        case Finish(_) => FinishWrites(db, req);
        case Gameplay(_) => GameplayWrites(db, req);
        case Home(_) => HomeWrites(db, req);
        case Plain(_, _, _) => PlainWrites(db, req);
        case Gacha(_, _, _) => GachaWrites(db, req);
        case Memoria(_, _, _) => MemoriaWrites(db, req);
      }
    }
  }
}
