/**
 Schema migrations that can be resumed (internal/storage/migrate.go): each migration and the
 version it records are one transaction; the first one creates the whole schema and records a
 later version itself.
 */
module Migrate {
  import opened Prelude

  /** `version` is None before the schema_version table exists; `applied` are the committed migrations. */
  datatype Database = Database(version: Option<nat>, applied: seq<nat>)

  function VersionOf(db: Database): nat { if db.version.Some? then db.version.value else 0 }

  /** A committed `applyVersion`; `base` is the version the initial schema records. */
  function Applied(db: Database, base: nat, v: nat): Database {
    Database(Some(if v == 0 then base else v + 1), db.applied + [v])
  }

  /** Operation `k` of a run is the one that fails. */
  predicate Fails(failAt: Option<nat>, k: nat) { failAt == Some(k) }

  /** Applying `i`, `i + 1`, ... up to `n`, as operations `k`, `k + 1`, ... of the run. */
  function ApplyFrom(db: Database, base: nat, n: nat, i: nat, k: nat, failAt: Option<nat>): (Database, bool)
    decreases n - i
  {
    if i >= n then (db, true)
    else if Fails(failAt, k) then (db, false)
    else ApplyFrom(Applied(db, base, i), base, n, i + 1, k + 1, failAt)
  }

  /** One run; operation `failAt` of it fails, the earlier ones succeed. */
  function Migrated(db: Database, base: nat, n: nat, failAt: Option<nat>): (Database, bool) {
    if Fails(failAt, 0) then (db, false)
    else if VersionOf(db) != 0 then ApplyFrom(db, base, n, VersionOf(db), 1, failAt)
    else if Fails(failAt, 1) then (db, false)
    else
      var db' := Applied(db, base, 0);
      if Fails(failAt, 2) then (db', false) else ApplyFrom(db', base, n, VersionOf(db'), 3, failAt)
  }

  // ---- what every sequence of runs keeps ----

  function UpFrom(a: nat, b: nat): seq<nat>
    decreases b - a
  {
    if a >= b then [] else UpFrom(a, b - 1) + [b - 1]
  }

  /** Nothing yet, or the base schema and then every migration from its version on, once and in order. */
  ghost predicate Contiguous(db: Database, base: nat, n: nat) {
    match db.version
    case None => db.applied == []
    case Some(v) => base <= v <= n && db.applied == [0] + UpFrom(base, v)
  }

  lemma {:induction false} ApplyKeeps(db: Database, base: nat, n: nat, k: nat, failAt: Option<nat>)
    requires 1 <= base <= n && Contiguous(db, base, n) && db.version.Some?
    ensures var (db', ok) := ApplyFrom(db, base, n, VersionOf(db), k, failAt);
      && Contiguous(db', base, n) && db'.version.Some? && db.applied <= db'.applied
      && (ok <==> VersionOf(db') == n)
      && (ok <==> !FailsWithin(failAt, k, k + n - VersionOf(db)))
    decreases n - VersionOf(db)
  {
    var v := VersionOf(db);
    if v < n && !Fails(failAt, k) {
      assert UpFrom(base, v + 1) == UpFrom(base, v) + [v];
      ApplyKeeps(Applied(db, base, v), base, n, k + 1, failAt);
    }
  }

  predicate FailsWithin(failAt: Option<nat>, a: int, b: int) { failAt.Some? && a <= failAt.value < b }

  /** Operations a run needs from this state: reading the version, twice at first, and the migrations. */
  function Needed(db: Database, base: nat, n: nat): int {
    if VersionOf(db) == 0 then 3 + n - base else 1 + n - VersionOf(db)
  }

  /** One run: contiguous before, contiguous after, nothing undone, and success exactly when all operations succeed. */
  lemma RunKeeps(db: Database, base: nat, n: nat, failAt: Option<nat>)
    requires 1 <= base <= n && Contiguous(db, base, n)
    ensures var (db', ok) := Migrated(db, base, n, failAt);
      && Contiguous(db', base, n) && db.applied <= db'.applied
      && (ok ==> db'.version == Some(n) && db'.applied == [0] + UpFrom(base, n))
      && (ok <==> !FailsWithin(failAt, 0, Needed(db, base, n)))
  {
    if VersionOf(db) != 0 {
      ApplyKeeps(db, base, n, 1, failAt);
    } else {
      assert db.version == None;
      var next := Applied(db, base, 0);
      assert next.applied == [0] && UpFrom(base, base) == [];
      ApplyKeeps(next, base, n, 3, failAt);
    }
  }

  function Runs(db: Database, base: nat, n: nat, faults: seq<Option<nat>>): Database {
    if faults == [] then db else Migrated(Runs(db, base, n, faults[..|faults| - 1]), base, n, faults[|faults| - 1]).0
  }

  /** Any number of runs, each cut off anywhere, and then one that succeeds: every migration exactly once, in order. */
  lemma {:induction false} ResumedRunsCompleteOnce(base: nat, n: nat, faults: seq<Option<nat>>)
    requires 1 <= base <= n
    ensures var db := Runs(Database(None, []), base, n, faults);
      && Contiguous(db, base, n)
      && Migrated(db, base, n, None) == (Database(Some(n), [0] + UpFrom(base, n)), true)
  {
    if faults != [] {
      var k := |faults| - 1;
      ResumedRunsCompleteOnce(base, n, faults[..k]);
      RunKeeps(Runs(Database(None, []), base, n, faults[..k]), base, n, faults[k]);
    }
    RunKeeps(Runs(Database(None, []), base, n, faults), base, n, None);
  }

  /** Were the recorded base version beyond the list, a successful run would not end at the list's length. */
  lemma BaseBeyondList(base: nat, n: nat)
    requires base > n
    ensures Migrated(Database(None, []), base, n, None) == (Database(Some(base), [0]), true)
  {
    assert Applied(Database(None, []), base, 0).applied == [0];
  }

  // ---- the object ----

  class Storage {
    const base: nat
    const schemaVersion: nat   // the number of migrations
    var db: Database
    var operations: nat        // database operations of this run so far

    constructor (base: nat, schemaVersion: nat, db: Database)
      ensures this.base == base && this.schemaVersion == schemaVersion && this.db == db
    {
      this.base, this.schemaVersion, this.db, operations := base, schemaVersion, db, 0;
    }

    method SchemaVersion(failAt: Option<nat>) returns (r: Result<nat, string>)
      modifies this`operations
      ensures operations == old(operations) + 1
      ensures r == if Fails(failAt, old(operations)) then Err("schema version") else Ok(VersionOf(db))
    {
      operations := operations + 1;
      if Fails(failAt, operations - 1) {
        return Err("schema version");
      }
      r := Ok(if db.version.Some? then db.version.value else 0);
    }

    method ApplyVersion(v: nat, failAt: Option<nat>) returns (ok: bool)
      modifies this
      ensures operations == old(operations) + 1
      ensures ok <==> !Fails(failAt, old(operations))
      ensures db == if ok then Applied(old(db), base, v) else old(db)
    {
      operations := operations + 1;
      if Fails(failAt, operations - 1) {
        return false;
      }
      var version := Some(base);
      if v > 0 {
        version := Some(v + 1);
      }
      db := Database(version, db.applied + [v]);
      ok := true;
    }

    method Run(failAt: Option<nat>) returns (ok: bool)
      modifies this
      ensures (db, ok) == Migrated(old(db), base, schemaVersion, failAt)
    {
      operations := 0;
      var current := SchemaVersion(failAt);
      if current.Err? {
        return false;
      }
      if current.value == 0 {
        ok := ApplyVersion(current.value, failAt);
        if !ok {
          return false;
        }
        current := SchemaVersion(failAt);
        if current.Err? {
          return false;
        }
      }
      ghost var start := db;
      ghost var spent := operations;
      var i := current.value;
      while i < schemaVersion
        invariant operations == spent + i - current.value && i >= current.value
        invariant ApplyFrom(start, base, schemaVersion, current.value, spent, failAt)
               == ApplyFrom(db, base, schemaVersion, i, operations, failAt)
      {
        ok := ApplyVersion(i, failAt);
        if !ok {
          return false;
        }
        i := i + 1;
      }
      ok := true;
    }
  }
}
