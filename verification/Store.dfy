/** The store: each call is one transaction over the tables. `tx` holds what the transaction has written so far; leaving
 * before `db := tx` is the rollback. */
module Storage {
  import opened Prelude
  import opened Journal
  import opened Commits
  import opened Retention
  import opened Replay

  class Store {
    var db: Tables

    /** The replay check that opens every journalled transaction. */
    method Recorded(journal: seq<Row>, account: int, request: string, route: Option<string>, fingerprint: Blob)
      returns (out: Option<Outcome>)
      ensures out.None? <==> Lookup(journal, account, request).None?
      ensures out.Some? ==>
                var row := Lookup(journal, account, request).value;
                out.value == if (route.Some? ==> row.route == route.value) && row.fingerprint == fingerprint
                             then Outcome.Replay(row.response) else Failed(RequestConflict)
    {
      var existing := Lookup(journal, account, request);
      if existing.None? { return None; }
      var row := existing.value;
      if (route.Some? ==> row.route == route.value) && row.fingerprint == fingerprint {
        return Some(Outcome.Replay(row.response));
      }
      return Some(Failed(RequestConflict));
    }

    /** The upserts into characters, in the order of the commit; one id that is not positive fails them. */
    method UpsertCharacters(tx: Tables, account: int, index: seq<(int, Option<int>)>) returns (out: Option<Tables>)
      ensures out == if CharactersOk(index) then Some(tx.(characters := SetCharacters(tx.characters, account, index))) else None
    {
      var written := tx;
      var i := 0;
      while i < |index|
        invariant 0 <= i <= |index|
        invariant CharactersOk(index[..i])
        invariant written == tx.(characters := SetCharacters(tx.characters, account, index[..i]))
      {
        assert index[..i + 1][..i] == index[..i];
        if index[i].0 <= 0 { return None; }
        written := written.(characters := written.characters[(account, index[i].0) := index[i].1]);
        i := i + 1;
      }
      assert index[..i] == index;
      out := Some(written);
    }

    method ApplyBattleStartReducer(account: int, request: string, route: string, fingerprint: Blob, now: int,
                                   reduce: (Blob, Blob) -> Result<StartCommit, StorageError>)
      returns (out: Outcome)
      modifies this
      ensures (db, out) == Exec(old(db), Request(account, request, route, fingerprint, now, Start(reduce)))
      ensures out != Applied ==> db == old(db)
      ensures out == Applied ==>
                && account in old(db).players
                && var c := reduce(old(db).players[account].resources, HomeOf(old(db), account));
                   c.Ok? && StartWritten(old(db), db, Request(account, request, route, fingerprint, now, Start(reduce)), c.value)
      ensures out == Applied ==>
                && account !in old(db).battles && db.battles.Keys == old(db).battles.Keys + {account}
                && (forall a | a in old(db).battles :: db.battles[a] == old(db).battles[a])
                && (IsStartRoute(route) ==>
                      RecoveryResponse(db, account)
                      == Some(reduce(old(db).players[account].resources, HomeOf(old(db), account)).value.response))
    {
      hide Lookup, JournalRowOk, HomeOf, RecoveryResponse, IsStartRoute, StartWritten;
      var recorded := Recorded(db.journal, account, request, Some(route), fingerprint);
      if recorded.Some? { return recorded.value; }
      if account !in db.players { return Failed(NotFound); }
      if account in db.battles { return Failed(ActiveBattleExists); }
      var commit := reduce(db.players[account].resources, HomeOf(db, account));
      if commit.Err? { return Failed(commit.error); }
      var c := commit.value;
      var tx := db;
      if c.home.Some? { tx := tx.(homes := tx.homes[account := c.home.value]); }
      tx := tx.(players := tx.players[account := Player(c.resources, now)]);
      if !BattleRowOk(tx, account, c) { return Failed(Sql); }
      tx := tx.(battles := tx.battles[account := Battle(c.quest, c.battle, c.txid, c.blob, now)]);
      var req := Request(account, request, route, fingerprint, now, Start(reduce));
      if !JournalRowOk(req) { return Failed(Sql); }
      StartIsLatest(tx, req, c.response);
      ghost var was := db;
      db := Record(tx, req, c.response);
      out := Applied;
      StartWrites(was, req);
    }

    static lemma {:induction false} StartIsLatest(tx: Tables, req: Request, response: Blob)
      requires !req.op.Memoria?
      ensures IsStartRoute(req.route) ==> RecoveryResponse(Record(tx, req, response), req.account) == Some(response)
    {
      LatestStartAppend(tx.journal, RowOf(tx.nextId, req, response), req.account);
    }

    method ApplyBattleAttack(account: int, request: string, route: string, fingerprint: Blob, now: int,
                             reduce: (Battle, Blob, Blob) -> Result<AttackCommit, StorageError>)
      returns (out: Outcome)
      modifies this
      ensures (db, out) == Exec(old(db), Request(account, request, route, fingerprint, now, Attack(reduce)))
      ensures out != Applied ==> db == old(db)
      ensures out == Applied ==>
                && account in old(db).players && account in old(db).battles
                && var c := reduce(old(db).battles[account], old(db).players[account].resources, HomeOf(old(db), account));
                   c.Ok? && AttackWritten(old(db), db, Request(account, request, route, fingerprint, now, Attack(reduce)), c.value)
      ensures out == Applied ==>
                && account in old(db).battles && db.battles.Keys == old(db).battles.Keys
                && db.players == old(db).players && db.characters == old(db).characters
                && db.battles[account] == old(db).battles[account].(blob := db.battles[account].blob, updatedAt := now)
    {
      hide Lookup, AttackWritten;
      var recorded := Recorded(db.journal, account, request, Some(route), fingerprint);
      if recorded.Some? { return recorded.value; }
      if account !in db.battles { return Failed(BattleInactive); }
      if account !in db.players { return Failed(Sql); }
      var commit := reduce(db.battles[account], db.players[account].resources, HomeOf(db, account));
      if commit.Err? { return Failed(commit.error); }
      var c := commit.value;
      var tx := db.(homes := db.homes[account := c.home]);
      if c.blob == [] { return Failed(Sql); }
      tx := tx.(battles := tx.battles[account := tx.battles[account].(blob := c.blob, updatedAt := now)]);
      var req := Request(account, request, route, fingerprint, now, Attack(reduce));
      if !JournalRowOk(req) { return Failed(Sql); }
      ghost var was := db;
      db := Record(tx, req, c.response);
      out := Applied;
      AttackWrites(was, req);
    }

    method ApplyBattleFinish(account: int, request: string, route: string, fingerprint: Blob, now: int,
                             finish: (Battle, Blob, Blob) -> Result<FinishCommit, StorageError>)
      returns (out: Outcome)
      modifies this
      ensures (db, out) == Exec(old(db), Request(account, request, route, fingerprint, now, Finish(finish)))
      ensures out != Applied ==> db == old(db)
      ensures out == Applied ==>
                && account in old(db).players && account in old(db).battles
                && var c := finish(old(db).battles[account], old(db).players[account].resources, HomeOf(old(db), account));
                   c.Ok? && FinishWritten(old(db), db, Request(account, request, route, fingerprint, now, Finish(finish)), c.value)
      ensures out == Applied ==> account in old(db).battles && db.battles == old(db).battles - {account}
    {
      hide Lookup, SetCharacters, FinishWritten;
      var recorded := Recorded(db.journal, account, request, Some(route), fingerprint);
      if recorded.Some? { return recorded.value; }
      if account !in db.battles { return Failed(BattleInactive); }
      if account !in db.players { return Failed(Sql); }
      var commit := finish(db.battles[account], db.players[account].resources, HomeOf(db, account));
      if commit.Err? { return Failed(commit.error); }
      var c := commit.value;
      var tx := db;
      if c.home.Some? { tx := tx.(homes := tx.homes[account := c.home.value]); }
      tx := tx.(players := tx.players[account := Player(c.resources, now)]);
      var written := UpsertCharacters(tx, account, c.characters);
      if written.None? { return Failed(Sql); }
      tx := written.value;
      tx := tx.(battles := tx.battles - {account});
      var req := Request(account, request, route, fingerprint, now, Finish(finish));
      if !JournalRowOk(req) { return Failed(Sql); }
      ghost var was := db;
      db := Record(tx, req, c.response);
      out := Applied;
      FinishWrites(was, req);
    }

    method ApplyGameplayReducer(account: int, request: string, route: string, fingerprint: Blob, now: int,
                                reduce: Blob -> Result<GameplayCommit, StorageError>)
      returns (out: Outcome)
      modifies this
      ensures (db, out) == Exec(old(db), Request(account, request, route, fingerprint, now, Gameplay(reduce)))
      ensures out != Applied ==> db == old(db)
      ensures out == Applied ==>
                && account in old(db).players
                && var c := reduce(old(db).players[account].resources);
                   c.Ok? && MutationWritten(old(db), db, Request(account, request, route, fingerprint, now, Gameplay(reduce)), c.value,
                                            None, old(db).buttons)
      ensures out == Applied ==> account in old(db).players && db.battles == old(db).battles && db.homes == old(db).homes
    {
      hide Lookup, SetCharacters, MutationWritten;
      var recorded := Recorded(db.journal, account, request, Some(route), fingerprint);
      if recorded.Some? { return recorded.value; }
      if account !in db.players { return Failed(NotFound); }
      var commit := reduce(db.players[account].resources);
      if commit.Err? { return Failed(commit.error); }
      var c := commit.value;
      var tx := db.(players := db.players[account := Player(c.resources, now)]);
      var written := UpsertCharacters(tx, account, c.characters);
      if written.None? { return Failed(Sql); }
      tx := written.value;
      var req := Request(account, request, route, fingerprint, now, Gameplay(reduce));
      if !JournalRowOk(req) { return Failed(Sql); }
      ghost var was := db;
      db := Record(tx, req, c.response);
      out := Applied;
      GameplayWrites(was, req);
    }

    method ApplyHomeReducer(account: int, request: string, route: string, fingerprint: Blob, now: int,
                            reduce: (Blob, Blob) -> Result<(GameplayCommit, Blob), StorageError>)
      returns (out: Outcome)
      modifies this
      ensures (db, out) == Exec(old(db), Request(account, request, route, fingerprint, now, Home(reduce)))
      ensures out != Applied ==> db == old(db)
      ensures out == Applied ==>
                && account in old(db).players
                && var c := reduce(old(db).players[account].resources, HomeOf(old(db), account));
                   c.Ok? && MutationWritten(old(db), db, Request(account, request, route, fingerprint, now, Home(reduce)), c.value.0,
                                            Some(c.value.1), old(db).buttons)
      ensures out == Applied ==> db.battles == old(db).battles && !(BlockedByBattle(route) && account in old(db).battles)
    {
      hide Lookup, SetCharacters, CharactersOk, BlockedByBattle, JournalRowOk, MutationWritten;
      var recorded := Recorded(db.journal, account, request, Some(route), fingerprint);
      if recorded.Some? { return recorded.value; }
      if BlockedByBattle(route) && account in db.battles { return Failed(ActiveBattleExists); }
      if account !in db.players { return Failed(Sql); }
      var commit := reduce(db.players[account].resources, HomeOf(db, account));
      if commit.Err? { return Failed(commit.error); }
      var (c, home) := commit.value;
      var tx := db.(players := db.players[account := Player(c.resources, now)]);
      tx := tx.(homes := tx.homes[account := home]);
      var written := UpsertCharacters(tx, account, c.characters);
      if written.None? { return Failed(Sql); }
      tx := written.value;
      var req := Request(account, request, route, fingerprint, now, Home(reduce));
      if !JournalRowOk(req) { return Failed(Sql); }
      ghost var was := db;
      db := Record(tx, req, c.response);
      out := Applied;
      HomeWrites(was, req);
    }

    /** Like ApplyHomeReducer, but nothing is recorded and nothing is replayed. */
    method ApplyHomeRefreshReducer(account: int, now: int,
                                   reduce: (Blob, Blob) -> Result<(GameplayCommit, Blob), StorageError>)
      returns (ok: bool)
      modifies this
      ensures db == After(old(db), Refresh(account, now, reduce))
      ensures ok <==>
                && account in old(db).players
                && var commit := reduce(old(db).players[account].resources, HomeOf(old(db), account));
                   commit.Ok? && CharactersOk(commit.value.0.characters)
      ensures !ok ==> db == old(db)
      ensures ok ==> var (c, home) := reduce(old(db).players[account].resources, HomeOf(old(db), account)).value;
                     && PlayerWritten(old(db), db, account, c.resources, now) && HomeWritten(old(db), db, account, Some(home))
                     && Upserted(old(db).characters, db.characters, account, c.characters)
                     && db == old(db).(players := db.players, homes := db.homes, characters := db.characters)
    {
      hide SetCharacters, CharactersOk, Upserted;
      if account !in db.players { return false; }
      var commit := reduce(db.players[account].resources, HomeOf(db, account));
      if commit.Err? { return false; }
      var (c, home) := commit.value;
      var tx := db.(players := db.players[account := Player(c.resources, now)]);
      tx := tx.(homes := tx.homes[account := home]);
      var written := UpsertCharacters(tx, account, c.characters);
      if written.None? { return false; }
      CharactersUpserted(db.characters, account, c.characters);
      db := written.value;
      ok := true;
    }

    method ApplyGameplay(account: int, request: string, route: string, fingerprint: Blob, resources: Blob,
                         granted: Option<int>, response: Blob, now: int)
      returns (out: Outcome)
      modifies this
      ensures (db, out) == Exec(old(db), Request(account, request, route, fingerprint, now, Plain(resources, granted, response)))
      ensures out != Applied ==> db == old(db)
      ensures out == Applied ==>
                PlainWritten(old(db), db, Request(account, request, route, fingerprint, now, Plain(resources, granted, response)),
                             resources, granted, response)
      ensures out == Applied ==>
                && account in old(db).players && db.players[account] == Player(resources, now) && db.battles == old(db).battles
                && (granted.Some? ==> ((account, granted.value) in db.characters
                                       <==> granted.value > 0 || (account, granted.value) in old(db).characters))
    {
      hide Lookup, JournalRowOk, PlainWritten;
      var recorded := Recorded(db.journal, account, request, Some(route), fingerprint);
      if recorded.Some? { return recorded.value; }
      if account !in db.players { return Failed(NotFound); }
      var tx := db.(players := db.players[account := Player(resources, now)]);
      if granted.Some? {
        if granted.value > 0 && (account, granted.value) !in tx.characters {
          tx := tx.(characters := tx.characters[(account, granted.value) := None]);
        }
      }
      var req := Request(account, request, route, fingerprint, now, Plain(resources, granted, response));
      if !JournalRowOk(req) { return Failed(Sql); }
      ghost var was := db;
      db := Record(tx, req, response);
      out := Applied;
      PlainWrites(was, req);
    }

    method ApplyGacha(account: int, request: string, route: string, fingerprint: Blob, gacha: int, button: int, now: int,
                      reduce: (Blob, int, Option<Blob>) -> Result<GameplayCommit, StorageError>)
      returns (out: Outcome)
      modifies this
      ensures (db, out) == Exec(old(db), Request(account, request, route, fingerprint, now, Gacha(gacha, button, reduce)))
      ensures out != Applied ==> db == old(db)
      ensures out == Applied ==>
                && account in old(db).players
                && var used := (account, gacha, button);
                   var count := if used in old(db).buttons then old(db).buttons[used] else 0;
                   var wish := if (account, gacha) in old(db).wishes then Some(old(db).wishes[(account, gacha)]) else None;
                   var c := reduce(old(db).players[account].resources, count, wish);
                   c.Ok? && MutationWritten(old(db), db, Request(account, request, route, fingerprint, now, Gacha(gacha, button, reduce)),
                                            c.value, None, old(db).buttons[used := count + 1])
      ensures out == Applied ==>
                && db.battles == old(db).battles && db.wishes == old(db).wishes
                && db.buttons == old(db).buttons[(account, gacha, button) := Executions(old(db), account, gacha, button) + 1]
    {
      hide Lookup, SetCharacters, CharactersOk, JournalRowOk, HomeOf, Executions, MutationWritten;
      var recorded := Recorded(db.journal, account, request, Some(route), fingerprint);
      if recorded.Some? { return recorded.value; }
      var count := Executions(db, account, gacha, button);
      var wish := if (account, gacha) in db.wishes then Some(db.wishes[(account, gacha)]) else None;
      if account !in db.players { return Failed(NotFound); }
      var commit := reduce(db.players[account].resources, count, wish);
      if commit.Err? { return Failed(commit.error); }
      var c := commit.value;
      var tx := db.(players := db.players[account := Player(c.resources, now)]);
      var written := UpsertCharacters(tx, account, c.characters);
      if written.None? { return Failed(Sql); }
      tx := written.value;
      tx := tx.(buttons := tx.buttons[(account, gacha, button) := count + 1]);
      var req := Request(account, request, route, fingerprint, now, Gacha(gacha, button, reduce));
      if !JournalRowOk(req) { return Failed(Sql); }
      ghost var was := db;
      db := Record(tx, req, c.response);
      out := Applied;
      GachaWrites(was, req);
    }

    method ApplyMemoria(account: int, request: string, fingerprint: Blob, character: int, memoria: Option<int>,
                        response: Blob, now: int)
      returns (out: Outcome, before: Option<int>)
      modifies this
      ensures (db, out) == Exec(old(db), Request(account, request, "/character/memoria_set", fingerprint, now,
                                                 Memoria(character, memoria, response)))
      ensures out != Applied ==> db == old(db)
      ensures out == Applied ==>
                MemoriaWritten(old(db), db, Request(account, request, "/character/memoria_set", fingerprint, now,
                                                    Memoria(character, memoria, response)), character, memoria, response)
      ensures out == Applied ==> (account, character) in old(db).characters && before == old(db).characters[(account, character)]
    {
      hide Lookup, MemoriaWritten;
      before := None;
      var recorded := Recorded(db.deltas, account, request, None, fingerprint);
      if recorded.Some? { out := recorded.value; return; }
      if (account, character) !in db.characters { out := Failed(NotFound); return; }
      before := db.characters[(account, character)];
      var tx := db.(characters := db.characters[(account, character) := memoria]);
      var req := Request(account, request, "/character/memoria_set", fingerprint, now, Memoria(character, memoria, response));
      if !JournalRowOk(req) { out := Failed(Sql); return; }
      ghost var was := db;
      db := Record(tx, req, response);
      out := Applied;
      MemoriaWrites(was, req);
    }

    /** The read-only probe answers a request exactly as a transaction with the same key would, and None when that
     * transaction would run. */
    method GameplayReplay(account: int, request: string, route: string, fingerprint: Blob)
      returns (out: Result<Option<Blob>, StorageError>)
      ensures forall req: Request | !req.op.Memoria? && req.account == account && req.request == request
                                    && req.route == route && req.fingerprint == fingerprint ::
                match out
                case Ok(Some(response)) => Exec(db, req) == (db, Outcome.Replay(response))
                case Ok(None) => !Exec(db, req).1.Replay? && Lookup(db.journal, account, request).None?
                case Err(e) => e == RequestConflict && Exec(db, req) == (db, Failed(e))
    {
      hide Lookup, Effect;
      var recorded := Recorded(db.journal, account, request, Some(route), fingerprint);
      match recorded
      case None => out := Ok(None);
      case Some(Replay(response)) => out := Ok(Some(response));
      case Some(Failed(e)) => out := Err(e);
    }

    method LatestBattleStartResponse(account: int) returns (out: Option<Blob>)
      ensures out == RecoveryResponse(db, account)
    {
      var latest := LatestStart(db.journal, account);
      if latest.None? { return None; }
      return Some(latest.value.response);
    }

    /** A scan that stops after 128 stale rows. Callers may rely only on what every such selection has in common. */
    static method SelectStale(j: seq<Row>, pins: set<nat>, now: int) returns (pick: set<nat>)
      ensures MayPick(j, pins, now, pick)
    {
      hide Stale;
      pick := {};
      var i := 0;
      while i < |j| && |pick| < PRUNE_LIMIT
        invariant 0 <= i <= |j| && |pick| <= PRUNE_LIMIT
        invariant pick <= StaleIds(j, pins, now)
        invariant forall k | 0 <= k < i && Stale(j, pins, now, j[k]) :: j[k].id in pick
      {
        if Stale(j, pins, now, j[i]) { pick := pick + {j[i].id}; }
        i := i + 1;
      }
      if |pick| < PRUNE_LIMIT {
        forall id | id in StaleIds(j, pins, now) ensures id in pick {
          var k :| 0 <= k < |j| && Stale(j, pins, now, j[k]) && j[k].id == id;
        }
      }
    }

    method PruneExpired(now: int) returns (ghost ev: Event)
      modifies this
      ensures ev.Prune? && ev.now == now && Legal(old(db), ev) && db == After(old(db), ev)
    {
      hide Drop, MayPick, Pins;
      var pick := SelectStale(db.journal, Pins(db), now);
      db := db.(journal := Drop(db.journal, pick));
      var deltaPick := SelectStale(db.deltas, {}, now);
      db := db.(deltas := Drop(db.deltas, deltaPick));
      ev := Prune(now, pick, deltaPick);
    }
  }
}
