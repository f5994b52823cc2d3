/** Opening the database (src/storage/migrations.rs): eight scripts, a history table, a checksum table, and crashes. */
module Migrations {
  import opened Prelude

  type Checksum = seq<int>

  const EXPECTED_VERSION := 8

  /** schema_migrations and schema_migration_checksums, each present or absent. */
  datatype Db = Db(history: Option<set<int>>, metadata: Option<map<int, Checksum>>)

  datatype MigrationError = MetadataMissing | Drift(version: int) | Script(version: int) | SchemaVersion(found: set<int>) | Sql

  datatype Outcome = Done | Crashed | Failed(error: MigrationError)

  function Versions(last: nat): (r: set<int>)
    ensures forall v :: v in r <==> 1 <= v <= last
  {
    if last == 0 then {} else Versions(last - 1) + {last}
  }

  function Applied(db: Db): set<int> {
    if db.history.Some? then db.history.value else {}
  }

  function Sums(db: Db): map<int, Checksum> {
    if db.metadata.Some? then db.metadata.value else map[]
  }

  /** Rows of the checksum table refer to rows of the history table. */
  predicate ForeignKey(db: Db) {
    Sums(db).Keys <= Applied(db)
  }

  /** The checksum rows of versions 1 to `last`. */
  function SumsTo(sums: seq<Checksum>, last: nat): (r: map<int, Checksum>)
    requires last <= |sums|
    ensures r.Keys == Versions(last) && forall v | v in r :: r[v] == sums[v - 1]
  {
    if last == 0 then map[] else SumsTo(sums, last - 1)[last := sums[last - 1]]
  }

  function Final(sums: seq<Checksum>): Db
    requires |sums| == EXPECTED_VERSION
  {
    Db(Some(Versions(EXPECTED_VERSION)), Some(SumsTo(sums, EXPECTED_VERSION)))
  }

  // ----- one run, which dies when it reaches its (fuel + 1)-st commit ---------------------------

  function ApplyFrom(db: Db, hadHistory: bool, v: int, sums: seq<Checksum>, fuel: nat): (Db, Outcome)
    requires db.metadata.Some? && |sums| == EXPECTED_VERSION && 1 <= v <= EXPECTED_VERSION + 1
    decreases |sums| + 1 - v
  {
    var m := db.metadata.value;
    if v > EXPECTED_VERSION then
      if db.history.None? then (db, Failed(Sql))
      else if db.history.value != Versions(EXPECTED_VERSION) then (db, Failed(SchemaVersion(db.history.value)))
      else (db, Done)
    else if v in m then
      if m[v] != sums[v - 1] then (db, Failed(Drift(v))) else ApplyFrom(db, hadHistory, v + 1, sums, fuel)
    else if hadHistory && v in Applied(db) then (db, Failed(MetadataMissing))
    else if db.history.None? && v != 1 then (db, Failed(Script(v)))
    else if fuel == 0 then (db, Crashed)
    else ApplyFrom(Db(Some(Applied(db) + {v}), Some(m[v := sums[v - 1]])), hadHistory, v + 1, sums, fuel - 1)
  }

  function Attempt(db: Db, sums: seq<Checksum>, fuel: nat): (Db, Outcome)
    requires |sums| == EXPECTED_VERSION
  {
    if db.metadata.Some? then ApplyFrom(db, db.history.Some?, 1, sums, fuel)
    else if db.history.Some? && db.history.value != Versions(EXPECTED_VERSION - 1) then (db, Failed(MetadataMissing))
    else if fuel == 0 then (db, Crashed)
    else
      var created := db.(metadata := Some(if db.history.Some? then SumsTo(sums, EXPECTED_VERSION - 1) else map[]));
      ApplyFrom(created, db.history.Some?, 1, sums, fuel - 1)
  }

  class Connection {
    var db: Db

    /** migrate: `fuel` commits succeed, and the process dies at the next one. */
    method Migrate(sums: seq<Checksum>, fuel: nat) returns (out: Outcome)
      requires |sums| == EXPECTED_VERSION
      modifies this
      ensures (db, out) == Attempt(old(db), sums, fuel)
    {
      hide Versions, ApplyFrom;
      var left := fuel;
      var hasHistory := db.history.Some?;
      var hasMetadata := db.metadata.Some?;
      if hasHistory && !hasMetadata {
        if db.history.value != Versions(EXPECTED_VERSION - 1) { return Failed(MetadataMissing); }
        if left == 0 { return Crashed; }
        var rows: map<int, Checksum> := map[];
        var k := 1;
        while k < EXPECTED_VERSION
          invariant 1 <= k <= EXPECTED_VERSION
          invariant rows == SumsTo(sums, k - 1)
        {
          rows := rows[k := sums[k - 1]];
          k := k + 1;
        }
        db, left := db.(metadata := Some(rows)), left - 1;
      }
      if db.metadata.None? {
        if left == 0 { return Crashed; }
        db, left := db.(metadata := Some(map[])), left - 1;
      }
      out := RunScripts(hasHistory, sums, left);
    }

    /** The loop over the scripts, one transaction each, and the final look at the history. */
    method RunScripts(hasHistory: bool, sums: seq<Checksum>, fuel: nat) returns (out: Outcome)
      requires |sums| == EXPECTED_VERSION && db.metadata.Some?
      modifies this
      ensures (db, out) == ApplyFrom(old(db), hasHistory, 1, sums, fuel)
    {
      hide Versions;
      var left := fuel;
      var v := 1;
      while v <= EXPECTED_VERSION
        invariant 1 <= v <= EXPECTED_VERSION + 1 && db.metadata.Some?
        invariant ApplyFrom(db, hasHistory, v, sums, left) == ApplyFrom(old(db), hasHistory, 1, sums, fuel)
      {
        var sum := sums[v - 1];
        if v in db.metadata.value {
          if db.metadata.value[v] != sum { return Failed(Drift(v)); }
        } else {
          if hasHistory && v in Applied(db) { return Failed(MetadataMissing); }
          if db.history.None? && v != 1 { return Failed(Script(v)); }
          if left == 0 { return Crashed; }
          db, left := Db(Some(Applied(db) + {v}), Some(db.metadata.value[v := sum])), left - 1;
        }
        v := v + 1;
      }
      if db.history.None? { return Failed(Sql); }
      if db.history.value != Versions(EXPECTED_VERSION) { return Failed(SchemaVersion(db.history.value)); }
      out := Done;
    }
  }

  // ----- which databases open ------------------------------------------------------------------

  /**
   * What can be opened: the complete legacy history 1..7 without checksums, or a history within 1..8 in which exactly
   * the applied versions have checksums and all of these match. Gaps are allowed.
   */
  predicate Ready(db: Db, sums: seq<Checksum>)
    requires |sums| == EXPECTED_VERSION
  {
    if db.history.Some? && db.metadata.None? then db.history.value == Versions(EXPECTED_VERSION - 1)
    else
      && Applied(db) == Sums(db).Keys && Applied(db) <= Versions(EXPECTED_VERSION)
      && forall v | v in Sums(db) && 1 <= v <= EXPECTED_VERSION :: Sums(db)[v] == sums[v - 1]
  }

  /** Rows are only ever added. */
  predicate Grows(a: Db, b: Db) {
    && Applied(a) <= Applied(b) && (forall v | v in Sums(a) :: v in Sums(b) && Sums(b)[v] == Sums(a)[v])
    && (a.history.Some? ==> b.history.Some?) && (a.metadata.Some? ==> b.metadata.Some?)
  }

  lemma {:induction false} ApplyFromOpens(db: Db, hadHistory: bool, v: int, sums: seq<Checksum>, fuel: nat)
    requires db.metadata.Some? && |sums| == EXPECTED_VERSION && 1 <= v <= EXPECTED_VERSION + 1 && ForeignKey(db)
    requires if hadHistory || v > 1 then db.history.Some? else db.history.None?
    requires !hadHistory ==> Applied(db) == Sums(db).Keys
    requires forall k | 1 <= k < v :: k in Sums(db) && Sums(db)[k] == sums[k - 1]
    ensures var r := ApplyFrom(db, hadHistory, v, sums, fuel);
            && (r.1 == Done ==> r.0 == Final(sums) && Ready(db, sums))
            && (r.1 == Crashed ==> fuel <= EXPECTED_VERSION - v)
            && (Ready(db, sums) ==> !r.1.Failed?)
            && (Ready(r.0, sums) <==> Ready(db, sums))
            && Grows(db, r.0) && ForeignKey(r.0)
    decreases |sums| + 1 - v
  {
    hide Versions, SumsTo;
    var m := db.metadata.value;
    if v > EXPECTED_VERSION {
      if db.history.value == Versions(EXPECTED_VERSION) {
        assert m.Keys == Versions(EXPECTED_VERSION);
        assert m == Final(sums).metadata.value;
      } else {
        assert Versions(EXPECTED_VERSION) <= m.Keys;
      }
    } else if v in m {
      if m[v] == sums[v - 1] { ApplyFromOpens(db, hadHistory, v + 1, sums, fuel); }
    } else if !(hadHistory && v in Applied(db)) && fuel > 0 {
      var next := Db(Some(Applied(db) + {v}), Some(m[v := sums[v - 1]]));
      ApplyFromOpens(next, hadHistory, v + 1, sums, fuel - 1);
      assert v !in Applied(db);
      assert Sums(next).Keys == m.Keys + {v};
      assert Ready(next, sums) <==> Ready(db, sums) by { ReadyNext(db, v, sums); }
    }
  }

  lemma {:induction false} ReadyNext(db: Db, v: int, sums: seq<Checksum>)
    requires db.metadata.Some? && |sums| == EXPECTED_VERSION && 1 <= v <= EXPECTED_VERSION
    requires v !in Applied(db) && v !in Sums(db)
    ensures Ready(Db(Some(Applied(db) + {v}), Some(Sums(db)[v := sums[v - 1]])), sums) <==> Ready(db, sums)
  {
    var next := Db(Some(Applied(db) + {v}), Some(Sums(db)[v := sums[v - 1]]));
    assert Sums(next).Keys == Sums(db).Keys + {v};
    assert Applied(db) == Applied(next) - {v} && Sums(db).Keys == Sums(next).Keys - {v};
    if Ready(next, sums) {
      forall k | k in Sums(db) && 1 <= k <= EXPECTED_VERSION ensures Sums(db)[k] == sums[k - 1] {
        assert Sums(next)[k] == sums[k - 1];
      }
    }
  }

  /**
   * One run, whatever it finds and wherever it dies: it succeeds only on a ready database and then leaves exactly the
   * final one; on a ready database it never fails, and dies only if it had fewer than nine commits; it neither makes
   * nor breaks readiness, and only adds rows.
   */
  lemma {:induction false} AttemptOpens(db: Db, sums: seq<Checksum>, fuel: nat)
    requires |sums| == EXPECTED_VERSION && ForeignKey(db)
    ensures var r := Attempt(db, sums, fuel);
            && (r.1 == Done ==> r.0 == Final(sums) && Ready(db, sums))
            && (r.1 == Crashed ==> fuel <= EXPECTED_VERSION)
            && (Ready(db, sums) ==> !r.1.Failed?)
            && (Ready(r.0, sums) <==> Ready(db, sums))
            && Grows(db, r.0) && ForeignKey(r.0)
  {
    hide ApplyFrom, Versions, SumsTo;
    if db.metadata.Some? {
      if db.history.None? { assert Sums(db).Keys == {}; }
      ApplyFromOpens(db, db.history.Some?, 1, sums, fuel);
    } else if (db.history.Some? ==> db.history.value == Versions(EXPECTED_VERSION - 1)) && fuel > 0 {
      var created := db.(metadata := Some(if db.history.Some? then SumsTo(sums, EXPECTED_VERSION - 1) else map[]));
      assert db.history.Some? ==> Sums(created).Keys == Versions(EXPECTED_VERSION - 1);
      ApplyFromOpens(created, db.history.Some?, 1, sums, fuel - 1);
    }
  }

  /** Exactly the ready databases open, given enough commits. */
  lemma {:induction false} OpensExactlyWhenReady(db: Db, sums: seq<Checksum>, fuel: nat)
    requires |sums| == EXPECTED_VERSION && ForeignKey(db) && fuel > EXPECTED_VERSION
    ensures Attempt(db, sums, fuel).1 == Done <==> Ready(db, sums)
    ensures Ready(db, sums) ==> Attempt(db, sums, fuel) == (Final(sums), Done)
  {
    AttemptOpens(db, sums, fuel);
  }

  /** Why a run from version `v` on fails. */
  lemma {:induction false} FailsFrom(db: Db, hadHistory: bool, v: int, sums: seq<Checksum>, fuel: nat)
    requires db.metadata.Some? && |sums| == EXPECTED_VERSION && 1 <= v <= EXPECTED_VERSION + 1 && ForeignKey(db)
    requires if hadHistory || v > 1 then db.history.Some? else db.history.None?
    requires forall k | 1 <= k < v :: k in Sums(db) && Sums(db)[k] == sums[k - 1]
    ensures var (end, out) := ApplyFrom(db, hadHistory, v, sums, fuel); out.Failed? ==> Explained(end, sums, out.error)
    decreases |sums| + 1 - v
  {
    hide Versions;
    var m := db.metadata.value;
    if v > EXPECTED_VERSION {
    } else if v in m {
      if m[v] == sums[v - 1] { FailsFrom(db, hadHistory, v + 1, sums, fuel); }
    } else if !(hadHistory && v in Applied(db)) && fuel > 0 {
      FailsFrom(Db(Some(Applied(db) + {v}), Some(m[v := sums[v - 1]])), hadHistory, v + 1, sums, fuel - 1);
    }
  }

  /** What a failure says of the database it leaves behind; a script never fails, and the history table is there at the end. */
  ghost predicate Explained(db: Db, sums: seq<Checksum>, e: MigrationError)
    requires |sums| == EXPECTED_VERSION
  {
    match e
    case Drift(v) => 1 <= v <= 8 && v in Sums(db) && Sums(db)[v] != sums[v - 1]
                     && forall k | 1 <= k < v :: k in Sums(db) && Sums(db)[k] == sums[k - 1]
    case MetadataMissing =>
      if db.metadata.None? then db.history.Some? && !(forall v :: v in db.history.value <==> 1 <= v <= 7)
      else exists v | 1 <= v <= 8 :: v in Applied(db) && v !in Sums(db)
    case SchemaVersion(found) => found == Applied(db) && (forall v | 1 <= v <= 8 :: v in found) && exists v :: v in found && !(1 <= v <= 8)
    case Script(_) => false
    case Sql => false
  }

  /** Every failure of a run is explained by what it leaves behind. */
  lemma {:induction false} FailureExplained(db: Db, sums: seq<Checksum>, fuel: nat)
    requires |sums| == EXPECTED_VERSION && ForeignKey(db)
    ensures var (end, out) := Attempt(db, sums, fuel); out.Failed? ==> Explained(end, sums, out.error)
  {
    hide ApplyFrom, Versions, SumsTo;
    if db.metadata.Some? {
      if db.history.None? { assert Sums(db).Keys == {}; }
      FailsFrom(db, db.history.Some?, 1, sums, fuel);
    } else if (db.history.Some? ==> db.history.value == Versions(EXPECTED_VERSION - 1)) && fuel > 0 {
      var created := db.(metadata := Some(if db.history.Some? then SumsTo(sums, EXPECTED_VERSION - 1) else map[]));
      assert db.history.Some? ==> Sums(created).Keys == Versions(EXPECTED_VERSION - 1);
      FailsFrom(created, db.history.Some?, 1, sums, fuel - 1);
    } else if db.history.Some? && db.history.value != Versions(EXPECTED_VERSION - 1) {
      LegacyVersions(db.history.value);
    }
  }

  lemma {:induction false} LegacyVersions(found: set<int>)
    ensures (forall v :: v in found <==> 1 <= v <= 7) ==> found == Versions(EXPECTED_VERSION - 1)
  {
    hide Versions;
    var legacy := Versions(EXPECTED_VERSION - 1);
    if forall v :: v in found <==> 1 <= v <= 7 {
      assert forall v :: v in legacy <==> v in found;
    }
  }

  // ----- restarts ------------------------------------------------------------------------------

  /** Run after run, each dying after its own number of commits. */
  function Restarts(db: Db, sums: seq<Checksum>, crashes: seq<nat>): Db
    requires |sums| == EXPECTED_VERSION
    decreases |crashes|
  {
    if crashes == [] then db else Restarts(Attempt(db, sums, crashes[0]).0, sums, crashes[1..])
  }

  /**
   * Restartability. Any number of runs, each dying between any two commits, changes neither whether the database opens
   * nor the state a complete run ends in.
   */
  lemma {:induction false} Restartable(db: Db, sums: seq<Checksum>, crashes: seq<nat>, fuel: nat)
    requires |sums| == EXPECTED_VERSION && ForeignKey(db) && fuel > EXPECTED_VERSION
    ensures ForeignKey(Restarts(db, sums, crashes))
    ensures Ready(db, sums) ==> Attempt(Restarts(db, sums, crashes), sums, fuel) == (Final(sums), Done)
    ensures !Ready(db, sums) ==> Attempt(Restarts(db, sums, crashes), sums, fuel).1.Failed?
    decreases |crashes|
  {
    hide Attempt, Ready, ForeignKey, Grows, Final;
    if crashes == [] {
      AttemptOpens(db, sums, fuel);
    } else {
      AttemptOpens(db, sums, crashes[0]);
      Restartable(Attempt(db, sums, crashes[0]).0, sums, crashes[1..], fuel);
    }
  }

  /** A run on a finished database writes nothing and succeeds without a single commit. */
  lemma {:induction false} RerunChangesNothing(sums: seq<Checksum>, fuel: nat)
    requires |sums| == EXPECTED_VERSION
    ensures Attempt(Final(sums), sums, fuel) == (Final(sums), Done)
  {
    FinishedFrom(sums, 1, fuel);
  }

  lemma {:induction false} FinishedFrom(sums: seq<Checksum>, v: int, fuel: nat)
    requires |sums| == EXPECTED_VERSION && 1 <= v <= EXPECTED_VERSION + 1
    ensures ApplyFrom(Final(sums), true, v, sums, fuel) == (Final(sums), Done)
    decreases |sums| + 1 - v
  {
    if v <= EXPECTED_VERSION { FinishedFrom(sums, v + 1, fuel); }
  }

  /** Fresh databases and complete legacy histories are ready; a partial history without checksums never opens, and is
   * left as it was by any number of runs. */
  lemma {:induction false} StartingPoints(sums: seq<Checksum>, partial: set<int>, crashes: seq<nat>)
    requires |sums| == EXPECTED_VERSION
    ensures Ready(Db(None, None), sums) && Ready(Db(Some(Versions(EXPECTED_VERSION - 1)), None), sums)
    ensures partial != Versions(EXPECTED_VERSION - 1) ==> Restarts(Db(Some(partial), None), sums, crashes) == Db(Some(partial), None)
    decreases |crashes|
  {
    hide ApplyFrom;
    if crashes != [] { StartingPoints(sums, partial, crashes[1..]); }
  }
}
