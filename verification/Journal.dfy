/** The tables behind one SQLite connection and what each kind of request does to them. */
module Journal {
  import opened Prelude

  type Blob = seq<int>

  const DAY := 86400
  const KEEP_COUNT := 256
  const PRUNE_LIMIT := 128

  /** A row of gameplay_mutations, or of memoria_deltas. */
  datatype Row = Row(id: nat, account: int, request: string, route: string, fingerprint: Blob, response: Blob, appliedAt: int)

  datatype Battle = Battle(quest: int, battle: int, txid: string, blob: Blob, updatedAt: int)

  datatype Player = Player(resources: Blob, updatedAt: int)

  /** Table rows by primary key; journals in insertion order. Ids are never reused. */
  datatype Tables = Tables(
    journal: seq<Row>, nextId: nat, deltas: seq<Row>, nextDelta: nat,
    players: map<int, Player>, battles: map<int, Battle>, homes: map<int, Blob>,
    characters: map<(int, int), Option<int>>, buttons: map<(int, int, int), int>, wishes: map<(int, int), Blob>)

  datatype StorageError =
    | RequestConflict | NotFound | ActiveBattleExists | BattleInactive | Sql | Rejected(message: string)

  datatype StartCommit = StartCommit(resources: Blob, quest: int, battle: int, txid: string, blob: Blob, response: Blob,
                                     home: Option<Blob>)
  datatype AttackCommit = AttackCommit(blob: Blob, response: Blob, home: Blob)
  datatype FinishCommit = FinishCommit(resources: Blob, response: Blob, characters: seq<(int, Option<int>)>, home: Option<Blob>)
  datatype GameplayCommit = GameplayCommit(resources: Blob, response: Blob, characters: seq<(int, Option<int>)>)

  /** The reducer of a request, as a function of what the transaction hands it. Any function may stand here. */
  datatype Op =
    | Start(start: (Blob, Blob) -> Result<StartCommit, StorageError>)
    | Attack(attack: (Battle, Blob, Blob) -> Result<AttackCommit, StorageError>)
    | Finish(finish: (Battle, Blob, Blob) -> Result<FinishCommit, StorageError>)
    | Gameplay(gameplay: Blob -> Result<GameplayCommit, StorageError>)
    | Home(homeReduce: (Blob, Blob) -> Result<(GameplayCommit, Blob), StorageError>)
    | Plain(resources: Blob, granted: Option<int>, response: Blob)
    | Gacha(gacha: int, button: int, draw: (Blob, int, Option<Blob>) -> Result<GameplayCommit, StorageError>)
    | Memoria(character: int, memoria: Option<int>, reply: Blob)

  datatype Request = Request(account: int, request: string, route: string, fingerprint: Blob, now: int, op: Op)

  datatype Outcome = Applied | Replay(response: Blob) | Failed(error: StorageError)

  // ----- queries -------------------------------------------------------------------------------

  function Lookup(j: seq<Row>, account: int, request: string): (r: Option<Row>)
    ensures r.Some? ==> r.value in j && r.value.account == account && r.value.request == request
    ensures r.None? <==> forall i | 0 <= i < |j| :: !(j[i].account == account && j[i].request == request)
  {
    if j == [] then None
    else
      assert j == [j[0]] + j[1..];
      if j[0].account == account && j[0].request == request then Some(j[0]) else Lookup(j[1..], account, request)
  }

  predicate IsStartRoute(route: string) {
    route in ["/quest/battle/start", "/quest/battle/rental_party_start", "/exploration/battle_start",
              "/quest/battle/solo_raid_battle_start", "/quest/battle/total_battle_start", "/gacha/battle_start"]
  }

  predicate IsStart(row: Row, account: int) {
    row.account == account && IsStartRoute(row.route)
  }

  /** ORDER BY mutation_id DESC LIMIT 1 over the battle-start routes of an account. */
  function LatestStart(j: seq<Row>, account: int): (r: Option<Row>)
    ensures r.Some? ==> r.value in j && IsStart(r.value, account)
  {
    if j == [] then None
    else if IsStart(j[|j| - 1], account) then Some(j[|j| - 1])
    else LatestStart(j[..|j| - 1], account)
  }

  /** A missing row reads as the two bytes of an empty object. */
  function HomeOf(db: Tables, account: int): Blob {
    if account in db.homes then db.homes[account] else [123, 125]
  }

  /** How often a draw button was used; a missing row counts as never. */
  function Executions(db: Tables, account: int, gacha: int, button: int): int {
    if (account, gacha, button) in db.buttons then db.buttons[(account, gacha, button)] else 0
  }

  /** Routes that apply_home_reducer refuses while a battle is active. */
  predicate BlockedByBattle(route: string) {
    route in ["/solo_raid/reset", "/total_battle/reset_panel", "/quest/talk_event/main_story_episode_skip",
              "/quest/talk_event/main_story_season_skip", "/quest/talk_event/prologue_skip", "/exploration/skip"]
  }

  // ----- effects -------------------------------------------------------------------------------

  function SetCharacters(cs: map<(int, int), Option<int>>, account: int, index: seq<(int, Option<int>)>): map<(int, int), Option<int>> {
    if index == [] then cs
    else SetCharacters(cs, account, index[..|index| - 1])[(account, index[|index| - 1].0) := index[|index| - 1].1]
  }

  /** CHECK (character_id > 0) on every row of characters that a commit writes. */
  predicate CharactersOk(index: seq<(int, Option<int>)>) {
    forall i | 0 <= i < |index| :: index[i].0 > 0
  }

  function SetPlayer(db: Tables, account: int, resources: Blob, now: int): Tables {
    if account in db.players then db.(players := db.players[account := Player(resources, now)]) else db
  }

  function SetHome(db: Tables, account: int, home: Option<Blob>): Tables {
    if home.Some? then db.(homes := db.homes[account := home.value]) else db
  }

  /** The CHECK and UNIQUE constraints of active_battles. */
  predicate BattleRowOk(db: Tables, account: int, c: StartCommit) {
    c.quest > 0 && c.battle > 0 && c.txid != "" && c.blob != []
    && forall a | a in db.battles && a != account :: db.battles[a].txid != c.txid
  }

  /** The CHECK constraints of the journals. */
  predicate JournalRowOk(req: Request) {
    && 1 <= |req.request| <= 128 && req.route != "" && |req.fingerprint| == 32
    && (req.op.Memoria? ==> req.op.character > 0)
  }

  /** What a request does to the tables apart from its journal row, with the reply to be recorded. */
  function Effect(db: Tables, req: Request): (r: Result<(Tables, Blob), StorageError>)
    ensures r.Ok? ==> r.value.0.journal == db.journal && r.value.0.nextId == db.nextId
                      && r.value.0.deltas == db.deltas && r.value.0.nextDelta == db.nextDelta
  {
    var a := req.account;
    match req.op
    case Start(reduce) =>
      if a !in db.players then Err(NotFound)
      else if a in db.battles then Err(ActiveBattleExists)
      else (match reduce(db.players[a].resources, HomeOf(db, a))
        case Err(e) => Err(e)
        case Ok(c) =>
          if !BattleRowOk(db, a, c) then Err(Sql)
          else
            var d := SetPlayer(SetHome(db, a, c.home), a, c.resources, req.now);
            Ok((d.(battles := d.battles[a := Battle(c.quest, c.battle, c.txid, c.blob, req.now)]), c.response)))
    case Attack(reduce) =>
      if a !in db.battles then Err(BattleInactive)
      else if a !in db.players then Err(Sql)
      else (match reduce(db.battles[a], db.players[a].resources, HomeOf(db, a))
        case Err(e) => Err(e)
        case Ok(c) =>
          if c.blob == [] then Err(Sql)
          else
            var d := SetHome(db, a, Some(c.home));
            Ok((d.(battles := d.battles[a := d.battles[a].(blob := c.blob, updatedAt := req.now)]), c.response)))
    case Finish(reduce) =>
      if a !in db.battles then Err(BattleInactive)
      else if a !in db.players then Err(Sql)
      else (match reduce(db.battles[a], db.players[a].resources, HomeOf(db, a))
        case Err(e) => Err(e)
        case Ok(c) =>
          if !CharactersOk(c.characters) then Err(Sql)
          else
            var d := SetPlayer(SetHome(db, a, c.home), a, c.resources, req.now);
            Ok((d.(characters := SetCharacters(d.characters, a, c.characters), battles := d.battles - {a}), c.response)))
    case Gameplay(reduce) =>
      if a !in db.players then Err(NotFound)
      else (match reduce(db.players[a].resources)
        case Err(e) => Err(e)
        case Ok(c) =>
          if !CharactersOk(c.characters) then Err(Sql)
          else
            var d := SetPlayer(db, a, c.resources, req.now);
            Ok((d.(characters := SetCharacters(d.characters, a, c.characters)), c.response)))
    case Home(reduce) =>
      if BlockedByBattle(req.route) && a in db.battles then Err(ActiveBattleExists)
      else if a !in db.players then Err(Sql)
      else (match reduce(db.players[a].resources, HomeOf(db, a))
        case Err(e) => Err(e)
        case Ok((c, home)) =>
          if !CharactersOk(c.characters) then Err(Sql)
          else
            var d := SetHome(SetPlayer(db, a, c.resources, req.now), a, Some(home));
            Ok((d.(characters := SetCharacters(d.characters, a, c.characters)), c.response)))
    case Plain(resources, granted, response) =>
      if a !in db.players then Err(NotFound)
      else
        var d := SetPlayer(db, a, resources, req.now);
        Ok((if granted.Some? && granted.value > 0 && (a, granted.value) !in d.characters
            then d.(characters := d.characters[(a, granted.value) := None]) else d, response))
    case Gacha(gacha, button, reduce) =>
      if a !in db.players then Err(NotFound)
      else
        var count := Executions(db, a, gacha, button);
        var wish := if (a, gacha) in db.wishes then Some(db.wishes[(a, gacha)]) else None;
        (match reduce(db.players[a].resources, count, wish)
         case Err(e) => Err(e)
         case Ok(c) =>
           if !CharactersOk(c.characters) then Err(Sql)
           else
             var d := SetPlayer(db, a, c.resources, req.now);
             Ok((d.(characters := SetCharacters(d.characters, a, c.characters), buttons := d.buttons[(a, gacha, button) := count + 1]),
                 c.response)))
    case Memoria(character, memoria, reply) =>
      if (a, character) !in db.characters then Err(NotFound)
      else Ok((db.(characters := db.characters[(a, character) := memoria]), reply))
  }

  function RowOf(id: nat, req: Request, response: Blob): Row {
    Row(id, req.account, req.request, if req.op.Memoria? then "/character/memoria_set" else req.route,
        req.fingerprint, response, req.now)
  }

  /** The journal that remembers a request. */
  function JournalOf(db: Tables, op: Op): seq<Row> {
    if op.Memoria? then db.deltas else db.journal
  }

  function Record(db: Tables, req: Request, response: Blob): Tables {
    if req.op.Memoria? then db.(deltas := db.deltas + [RowOf(db.nextDelta, req, response)], nextDelta := db.nextDelta + 1)
    else db.(journal := db.journal + [RowOf(db.nextId, req, response)], nextId := db.nextId + 1)
  }

  /** A retry is recognised by route and fingerprint; memoria requests have one route and compare the fingerprint only. */
  predicate SameRequest(row: Row, req: Request) {
    (req.op.Memoria? || row.route == req.route) && row.fingerprint == req.fingerprint
  }

  /** One transaction: replay, refuse with nothing changed, or apply and record. */
  function Exec(db: Tables, req: Request): (Tables, Outcome) {
    match Lookup(JournalOf(db, req.op), req.account, req.request)
    case Some(row) => (db, if SameRequest(row, req) then Replay(row.response) else Failed(RequestConflict))
    case None =>
      match Effect(db, req)
      case Err(e) => (db, Failed(e))
      case Ok((d, response)) =>
        if !JournalRowOk(req) then (db, Failed(Sql)) else (Record(d, req, response), Applied)
  }

  // ----- accounts apart ------------------------------------------------------------------------

  ghost predicate SameCharacters(a: int, x: map<(int, int), Option<int>>, y: map<(int, int), Option<int>>) {
    forall c :: ((a, c) in x <==> (a, c) in y) && ((a, c) in x ==> x[(a, c)] == y[(a, c)])
  }

  ghost predicate SameButtons(a: int, x: map<(int, int, int), int>, y: map<(int, int, int), int>) {
    forall g, b :: ((a, g, b) in x <==> (a, g, b) in y) && ((a, g, b) in x ==> x[(a, g, b)] == y[(a, g, b)])
  }

  /** Every table but the journals reads the same for account `a`; wish lists are not written by requests at all. */
  ghost predicate SameFor(a: int, x: Tables, y: Tables) {
    && (a in x.players <==> a in y.players) && (a in x.players ==> x.players[a] == y.players[a])
    && (a in x.battles <==> a in y.battles) && (a in x.battles ==> x.battles[a] == y.battles[a])
    && HomeOf(x, a) == HomeOf(y, a) && x.wishes == y.wishes
    && SameCharacters(a, x.characters, y.characters) && SameButtons(a, x.buttons, y.buttons)
  }

  lemma {:induction false} SetCharactersElsewhere(cs: map<(int, int), Option<int>>, account: int, index: seq<(int, Option<int>)>, a: int)
    requires a != account
    ensures SameCharacters(a, cs, SetCharacters(cs, account, index))
    decreases |index|
  {
    if index != [] { SetCharactersElsewhere(cs, account, index[..|index| - 1], a); }
  }

  /** A request touches the rows of its own account only. */
  lemma {:induction false} ExecSparesOthers(db: Tables, req: Request, a: int)
    requires a != req.account
    ensures SameFor(a, db, Exec(db, req).0)
  {
    hide Lookup, JournalRowOk, Effect, SameFor, Record;
    Untouched(a, db);
    if Effect(db, req).Ok? {
      EffectSparesOthers(db, req, a);
      RecordSpares(a, db, Effect(db, req).value.0, req, Effect(db, req).value.1);
    }
  }

  lemma {:induction false} RecordSpares(a: int, x: Tables, y: Tables, req: Request, response: Blob)
    requires SameFor(a, x, y)
    ensures SameFor(a, x, Record(y, req, response))
  {
    hide SameCharacters, SameButtons, RowOf;
  }

  lemma {:induction false} Untouched(a: int, db: Tables)
    ensures SameCharacters(a, db.characters, db.characters) && SameButtons(a, db.buttons, db.buttons) && SameFor(a, db, db)
  {
  }

  lemma {:induction false} EffectSparesOthers(db: Tables, req: Request, a: int)
    requires a != req.account && Effect(db, req).Ok?
    ensures SameFor(a, db, Effect(db, req).value.0)
  {
    hide Effect, SameFor;
    match req.op
    case Start(_) => StartSpares(db, req, a);
    case Attack(_) => AttackSpares(db, req, a);
    case Finish(_) => FinishSpares(db, req, a);
    case Gameplay(_) => GameplaySpares(db, req, a);
    case Home(_) => HomeSpares(db, req, a);
    case Plain(_, _, _) => PlainSpares(db, req, a);
    case Gacha(_, _, _) => GachaSpares(db, req, a);
    case Memoria(_, _, _) => MemoriaSpares(db, req, a);
  }

  lemma {:induction false} StartSpares(db: Tables, req: Request, a: int)
    requires a != req.account && req.op.Start? && Effect(db, req).Ok?
    ensures SameFor(a, db, Effect(db, req).value.0)
  {
    hide BattleRowOk, SameCharacters, SameButtons;
    Untouched(a, db);
  }

  lemma {:induction false} AttackSpares(db: Tables, req: Request, a: int)
    requires a != req.account && req.op.Attack? && Effect(db, req).Ok?
    ensures SameFor(a, db, Effect(db, req).value.0)
  {
    hide SameCharacters, SameButtons;
    Untouched(a, db);
  }

  lemma {:induction false} FinishSpares(db: Tables, req: Request, a: int)
    requires a != req.account && req.op.Finish? && Effect(db, req).Ok?
    ensures SameFor(a, db, Effect(db, req).value.0)
  {
    hide SetCharacters, CharactersOk, SameCharacters, SameButtons;
    Untouched(a, db);
    var c := req.op.finish(db.battles[req.account], db.players[req.account].resources, HomeOf(db, req.account)).value;
    SetCharactersElsewhere(db.characters, req.account, c.characters, a);
  }

  lemma {:induction false} GameplaySpares(db: Tables, req: Request, a: int)
    requires a != req.account && req.op.Gameplay? && Effect(db, req).Ok?
    ensures SameFor(a, db, Effect(db, req).value.0)
  {
    hide SetCharacters, CharactersOk, SameCharacters, SameButtons;
    Untouched(a, db);
    forall index ensures SameCharacters(a, db.characters, SetCharacters(db.characters, req.account, index)) {
      SetCharactersElsewhere(db.characters, req.account, index, a);
    }
  }

  lemma {:induction false} HomeSpares(db: Tables, req: Request, a: int)
    requires a != req.account && req.op.Home? && Effect(db, req).Ok?
    ensures SameFor(a, db, Effect(db, req).value.0)
  {
    hide SetCharacters, CharactersOk, SameCharacters, SameButtons, BlockedByBattle;
    Untouched(a, db);
    forall index ensures SameCharacters(a, db.characters, SetCharacters(db.characters, req.account, index)) {
      SetCharactersElsewhere(db.characters, req.account, index, a);
    }
  }

  lemma {:induction false} PlainSpares(db: Tables, req: Request, a: int)
    requires a != req.account && req.op.Plain? && Effect(db, req).Ok?
    ensures SameFor(a, db, Effect(db, req).value.0)
  {
    hide SameButtons, SameCharacters;
    Untouched(a, db);
    if req.op.granted.Some? { OneElsewhere(db, req.account, req.op.granted.value, None, a); }
  }

  lemma {:induction false} GachaSpares(db: Tables, req: Request, a: int)
    requires a != req.account && req.op.Gacha? && Effect(db, req).Ok?
    ensures SameFor(a, db, Effect(db, req).value.0)
  {
    hide SetCharacters, CharactersOk, SameCharacters;
    Untouched(a, db);
    forall index ensures SameCharacters(a, db.characters, SetCharacters(db.characters, req.account, index)) {
      SetCharactersElsewhere(db.characters, req.account, index, a);
    }
  }

  lemma {:induction false} MemoriaSpares(db: Tables, req: Request, a: int)
    requires a != req.account && req.op.Memoria? && Effect(db, req).Ok?
    ensures SameFor(a, db, Effect(db, req).value.0)
  {
    hide SameButtons, SameCharacters;
    Untouched(a, db);
    OneElsewhere(db, req.account, req.op.character, req.op.memoria, a);
  }

  lemma {:induction false} OneElsewhere(db: Tables, account: int, c: int, memoria: Option<int>, a: int)
    requires a != account
    ensures SameCharacters(a, db.characters, db.characters[(account, c) := memoria])
  {
  }

  // ----- well-formed tables --------------------------------------------------------------------

  predicate Increasing(j: seq<Row>, next: nat) {
    (forall i, k | 0 <= i < k < |j| :: j[i].id < j[k].id) && forall i | 0 <= i < |j| :: j[i].id < next
  }

  /** UNIQUE (account_id, request_id) */
  predicate UniqueRequests(j: seq<Row>) {
    forall i, k | 0 <= i < k < |j| :: j[i].account != j[k].account || j[i].request != j[k].request
  }

  predicate Valid(db: Tables) {
    && Increasing(db.journal, db.nextId) && UniqueRequests(db.journal)
    && Increasing(db.deltas, db.nextDelta) && UniqueRequests(db.deltas)
  }

  lemma {:induction false} ExecValid(db: Tables, req: Request)
    requires Valid(db)
    ensures Valid(Exec(db, req).0)
  {
    hide Effect, Lookup, JournalRowOk, Valid, Record;
    if Exec(db, req).1 == Applied {
      var (d, response) := Effect(db, req).value;
      RecordValid(db, d, req, response);
    }
  }

  lemma {:induction false} RecordValid(db: Tables, d: Tables, req: Request, response: Blob)
    requires Valid(db) && Lookup(JournalOf(db, req.op), req.account, req.request).None?
    requires d.journal == db.journal && d.nextId == db.nextId && d.deltas == db.deltas && d.nextDelta == db.nextDelta
    ensures Valid(Record(d, req, response))
  {
    hide Lookup, Increasing, UniqueRequests;
    if req.op.Memoria? { RowAdded(db.deltas, db.nextDelta, RowOf(db.nextDelta, req, response)); }
    else { RowAdded(db.journal, db.nextId, RowOf(db.nextId, req, response)); }
  }

  lemma {:induction false} RowAdded(j: seq<Row>, next: nat, row: Row)
    requires Increasing(j, next) && UniqueRequests(j) && row.id == next && Lookup(j, row.account, row.request).None?
    ensures Increasing(j + [row], next + 1) && UniqueRequests(j + [row])
  {
    hide Lookup;
  }

  lemma {:induction false} LookupUnique(j: seq<Row>, row: Row)
    requires UniqueRequests(j) && row in j
    ensures Lookup(j, row.account, row.request) == Some(row)
  {
    var r := Lookup(j, row.account, row.request).value;
    var i :| 0 <= i < |j| && j[i] == row;
    var k :| 0 <= k < |j| && j[k] == r;
    assert !(i < k) && !(k < i);
  }
}
