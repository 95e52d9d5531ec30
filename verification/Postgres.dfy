/** The programs that change the database, statement by statement: alembic/env.py with migrations 0012
    and 0014, and scripts/gdpr-tenant-erasure.py. Each is proved to do what its specification
    function says. */
module Postgres {
  import opened Wrappers
  import opened SchemaNames
  import opened Ddl
  import opened TenantNaming
  import opened FlowTemplates
  import opened Databases
  import opened SchemaChain
  import opened MigrationRunner
  import opened ModeBRuns
  import opened SchemaSession
  import opened Lifecycle
  import opened Erasure

  lemma SetRowsTwice(db: Database, name: string, t: Table, a: Rows, b: Rows)
    requires name in db.schemas
    ensures SetRows(SetRows(db, name, t, a), name, t, b) == SetRows(db, name, t, b)
  {
    var st := db.schemas[name];
    assert st.data[t := a][t := b] == st.data[t := b];
  }

  lemma SeedUnfolds(db: Database, k: nat)
    requires k < |db.tenants|
    ensures var t := db.tenants[k];
            SeedFrom(db, k) == if t.deleted then SeedFrom(db, k + 1)
                               else if !HasFlows(db, Home(t)) then Err(Undefined)
                               else SeedFrom(SeedOne(db, Home(t)), k + 1)
  {
  }

  /** The names the query selects. */
  predicate Selected(rows: seq<Tenant>, name: string) {
    exists k | 0 <= k < |rows| :: Migratable(rows[k]) && rows[k].schema == name
  }

  lemma SelectedAppend(rows: seq<Tenant>, t: Tenant, name: string)
    ensures Selected(rows + [t], name) <==> Selected(rows, name) || (Migratable(t) && name == t.schema)
  {
    var all := rows + [t];
    assert all[|rows|] == t;
    if Selected(rows, name) {
      var i :| 0 <= i < |rows| && Migratable(rows[i]) && rows[i].schema == name;
      assert all[i] == rows[i];
    }
    if Selected(all, name) {
      var i :| 0 <= i < |all| && Migratable(all[i]) && all[i].schema == name;
      assert i < |rows| ==> all[i] == rows[i];
    }
  }

  lemma NameIsNew(rows: seq<Tenant>, k: nat)
    requires UniqueTenants(rows) && k < |rows|
    ensures !Selected(rows[..k], rows[k].schema)
  {
  }

  function AllKept(names: seq<string>): (r: seq<string>)
    ensures |r| == |names| && forall k | 0 <= k < |names| :: r[k] == Kept(names[k])
  {
    seq(|names|, k requires 0 <= k < |names| => Kept(names[k]))
  }

  lemma KeptAreListed(names: seq<string>, rows: seq<Tenant>)
    requires forall name :: name in names <==> Selected(rows, name)
    ensures Lists(AllKept(names), rows)
  {
    forall home ensures home in AllKept(names) <==> ToMigrate(rows, home) {
      if home in AllKept(names) {
        var i :| 0 <= i < |names| && AllKept(names)[i] == home;
        assert names[i] in names;
        var k :| 0 <= k < |rows| && Migratable(rows[k]) && rows[k].schema == names[i];
        assert Home(rows[k]) == home;
      }
      if ToMigrate(rows, home) {
        var k :| 0 <= k < |rows| && Migratable(rows[k]) && Home(rows[k]) == home;
        assert Selected(rows, rows[k].schema);
        var i :| 0 <= i < |names| && names[i] == rows[k].schema;
        assert AllKept(names)[i] == home;
      }
    }
  }

  lemma PassUnfolds(ups: Scripts, db: Database, name: string)
    ensures var start := WithSchema(db, name);
            var n := if Rev(start, name) <= HEAD then Rev(start, name) else HEAD;
            Pass(ups, db, name) == MigrateFrom(ups, start, name, n)
  {
  }

  lemma LooseUnfolds(tx: Tx, name: string, ts: seq<Table>, refused: set<Table>, k: nat)
    requires k < |ts|
    ensures var next := LooseDelete(tx, name, ts[k], refused);
            && LooseDeletes(tx, name, ts, refused, k) == LooseDeletes(next, name, ts, refused, k + 1)
            && LooseReports(tx, name, ts, refused, k) ==
               [LooseReport(tx, name, ts[k], refused)] + LooseReports(next, name, ts, refused, k + 1)
  {
  }

  lemma AppendMiddle(a: seq<Report>, r: Report, b: seq<Report>)
    ensures a + ([r] + b) == (a + [r]) + b
  {
  }

  class Server {
    const ups: Scripts
    var db: Database

    constructor (ups: Scripts, db: Database)
      ensures this.ups == ups && this.db == db
    {
      this.ups := ups;
      this.db := db;
    }

    // ---- alembic -----------------------------------------------------------

    /** 0012's inner loop, for one schema. */
    method SeedSchema(name: string)
      requires HasFlows(db, name)
      modifies this`db
      ensures db == SeedOne(old(db), name)
    {
      var tpls := Templates();
      ghost var rows := RowsOf(db.schemas[name], ProspectingFlow);
      var n := 0;
      db := SetRows(db, name, ProspectingFlow, RowsOf(db.schemas[name], ProspectingFlow));
      while n < |tpls|
        invariant n <= |tpls| && name in db.schemas
        invariant db == SetRows(old(db), name, ProspectingFlow, RowsOf(db.schemas[name], ProspectingFlow))
        invariant AddMissing(RowsOf(db.schemas[name], ProspectingFlow), tpls, n) == AddMissing(rows, tpls, 0)
      {
        var now := RowsOf(db.schemas[name], ProspectingFlow);
        if !HasId(now, tpls[n].id) {
          db := SetRows(db, name, ProspectingFlow, now + [tpls[n]]);
          SetRowsTwice(old(db), name, ProspectingFlow, now, now + [tpls[n]]);
        }
        n := n + 1;
      }
    }

    /** 0012: every live tenant's schema, whichever pass this is. */
    method SeedFlowTemplates() returns (ok: bool)
      modifies this`db
      ensures ok == SeedFlows(old(db)).Ok?
      ensures ok ==> db == SeedFlows(old(db)).value
    {
      if tenants !in PublicTables(db) {
        return false;
      }
      ghost var goal := SeedFrom(db, 0);
      var rows := db.tenants;
      var k := 0;
      while k < |rows|
        invariant k <= |rows| && db.tenants == rows
        invariant SeedFrom(db, k) == goal
      {
        SeedUnfolds(db, k);
        if !rows[k].deleted {
          if !HasFlows(db, Home(rows[k])) {
            return false;
          }
          SeedSchema(Home(rows[k]));
        }
        k := k + 1;
      }
      return true;
    }

    /** 0014. */
    method SeedDevTenant() returns (ok: bool)
      modifies this`db
      ensures ok == RegisterAcme(old(db)).Ok?
      ensures ok ==> db == RegisterAcme(old(db)).value
    {
      if tenants !in PublicTables(db) {
        return false;
      }
      if !SlugTaken(db.tenants, ACME.slug) {
        if SchemaTaken(db.tenants, ACME.schema) {
          return false;
        }
        db := db.(tenants := db.tenants + [ACME]);
      }
      return true;
    }

    method UpgradeOne(name: string, n: nat) returns (ok: bool)
      requires name in db.schemas
      modifies this`db
      ensures ok == RunMigration(ups, old(db), name, n).Ok?
      ensures ok ==> db == RunMigration(ups, old(db), name, n).value
    {
      var st := db.schemas[name];
      var session := new Session(st.objs, PublicTables(db));
      ok := session.RunScript(ups(name, n));
      if !ok {
        return;
      }
      db := db.(schemas := db.schemas[name := SchemaState(session.objs, n, DataAfter(st, name, n))]);
      if n == 12 {
        ok := SeedFlowTemplates();
      } else if n == 14 && name == PUBLIC {
        ok := SeedDevTenant();
      }
    }

    /** The migrations after the `n`th, one after the other. */
    method RunPending(name: string, n: nat) returns (ok: bool)
      requires name in db.schemas && n <= HEAD
      modifies this`db
      ensures ok == MigrateFrom(ups, old(db), name, n).Ok?
      ensures ok ==> db == MigrateFrom(ups, old(db), name, n).value
      decreases HEAD - n
    {
      if n == HEAD {
        return true;
      }
      MigrateUnfolds(ups, db, name, n);
      ok := UpgradeOne(name, n + 1);
      if ok {
        ok := RunPending(name, n + 1);
      }
    }

    /** One schema, in one transaction: on an error everything is rolled back. Every statement that names
        the schema means the one PostgreSQL keeps the name of. */
    method DoRunMigrations(schema: string) returns (ok: bool)
      modifies this`db
      ensures ok == Pass(ups, old(db), Kept(schema)).Ok?
      ensures db == if ok then Pass(ups, old(db), Kept(schema)).value else old(db)
    {
      var name := Kept(schema);
      PassUnfolds(ups, db, name);
      var before := db;
      db := WithSchema(db, name);
      ok := RunPending(name, if Rev(db, name) <= HEAD then Rev(db, name) else HEAD);
      if !ok {
        db := before;
      }
    }

    /** The live ACTIVE and PROVISIONING tenants' schema names. */
    method ListActiveTenantSchemas() returns (names: seq<string>)
      ensures forall name :: name in names <==> Selected(db.tenants, name)
      ensures UniqueTenants(db.tenants) ==> forall i, j | 0 <= i < j < |names| :: names[i] != names[j]
      ensures Lists(AllKept(names), db.tenants)
    {
      names := [];
      var k := 0;
      while k < |db.tenants|
        invariant k <= |db.tenants|
        invariant forall name :: name in names <==> Selected(db.tenants[..k], name)
        invariant UniqueTenants(db.tenants) ==> forall i, j | 0 <= i < j < |names| :: names[i] != names[j]
      {
        var t := db.tenants[k];
        assert db.tenants[..k + 1] == db.tenants[..k] + [t];
        forall name
          ensures Selected(db.tenants[..k] + [t], name) <==>
                  Selected(db.tenants[..k], name) || (Migratable(t) && name == t.schema)
        {
          SelectedAppend(db.tenants[..k], t, name);
        }
        if Migratable(t) {
          if UniqueTenants(db.tenants) {
            NameIsNew(db.tenants, k);
          }
          names := names + [t.schema];
        }
        k := k + 1;
      }
      assert db.tenants[..k] == db.tenants;
      KeptAreListed(names, db.tenants);
    }

    /** Mode B. */
    method RunMigrationsOnline() returns (ok: bool, names: seq<string>)
      modifies this`db
      ensures Pass(ups, old(db), PUBLIC).Ok? ==> Lists(AllKept(names), Pass(ups, old(db), PUBLIC).value.tenants)
      ensures RunResult(db, ok) == ModeB(ups, old(db), AllKept(names))
    {
      names := [];
      ok := DoRunMigrations(PUBLIC);
      if !ok {
        return;
      }
      names := ListActiveTenantSchemas();
      ghost var mid, order := db, AllKept(names);
      var k := 0;
      while k < |names|
        invariant k <= |names|
        invariant Passes(ups, db, order, k) == Passes(ups, mid, order, 0)
      {
        if names[k] != PUBLIC {
          PassesUnfold(ups, db, order, k);
          ok := DoRunMigrations(names[k]);
          if !ok {
            return;
          }
        }
        k := k + 1;
      }
      ok := true;
    }

    // ---- gdpr-tenant-erasure.py --------------------------------------------

    /** Steps 2 and 3. */
    method DeleteStrict(name: string, ts: seq<Table>, refused: set<Table>) returns (ok: bool, summary: seq<Report>)
      modifies this`db
      ensures ok == StrictDeletes(old(db), name, ts, refused, 0).Ok?
      ensures ok ==> db == StrictDeletes(old(db), name, ts, refused, 0).value
      ensures ok ==> summary == StrictReports(old(db), name, ts, refused, 0)
    {
      ghost var goal, all := StrictDeletes(db, name, ts, refused, 0), StrictReports(db, name, ts, refused, 0);
      summary := [];
      var k := 0;
      while k < |ts|
        invariant k <= |ts|
        invariant StrictDeletes(db, name, ts, refused, k) == goal
        invariant summary + StrictReports(db, name, ts, refused, k) == all
      {
        var r := DeleteFrom(db, name, ts[k], refused);
        if r.Err? {
          return false, summary;
        }
        var rows := RowCount(db, name, ts[k]);
        AppendMiddle(summary, Deleted(ts[k], rows), StrictReports(r.value, name, ts, refused, k + 1));
        db := r.value;
        summary := summary + [Deleted(ts[k], rows)];
        k := k + 1;
      }
      ok := true;
    }

    /** Step 4: once a statement has failed, all that follow fail too. */
    method DeleteLoose(name: string, ts: seq<Table>, refused: set<Table>) returns (aborted: bool, summary: seq<Report>)
      modifies this`db
      ensures Tx(db, aborted) == LooseDeletes(Tx(old(db), false), name, ts, refused, 0)
      ensures summary == LooseReports(Tx(old(db), false), name, ts, refused, 0)
    {
      ghost var tx := Tx(db, false);
      ghost var goal, all := LooseDeletes(tx, name, ts, refused, 0), LooseReports(tx, name, ts, refused, 0);
      aborted, summary := false, [];
      var k := 0;
      while k < |ts|
        invariant k <= |ts|
        invariant LooseDeletes(Tx(db, aborted), name, ts, refused, k) == goal
        invariant summary + LooseReports(Tx(db, aborted), name, ts, refused, k) == all
      {
        ghost var before := Tx(db, aborted);
        LooseUnfolds(before, name, ts, refused, k);
        var report := Skipped(ts[k]);
        if !aborted {
          var r := DeleteFrom(db, name, ts[k], refused);
          if r.Ok? {
            report := Deleted(ts[k], RowCount(db, name, ts[k]));
            db := r.value;
          } else {
            aborted := true;
          }
        }
        assert Tx(db, aborted) == LooseDelete(before, name, ts[k], refused) && report == LooseReport(before, name, ts[k], refused);
        AppendMiddle(summary, report, LooseReports(Tx(db, aborted), name, ts, refused, k + 1));
        summary := summary + [report];
        k := k + 1;
      }
    }

    /** Steps 1 to 4 in one transaction; the commit of an aborted one rolls it back. */
    method WipeTransaction(name: string, strict: seq<Table>, loose: seq<Table>, refused: set<Table>)
        returns (ok: bool, summary: seq<Report>)
      modifies this`db
      ensures ok == WipeOf(old(db), name, strict, loose, refused).Ok?
      ensures db == if ok then Commit(old(db), WipeOf(old(db), name, strict, loose, refused).value) else old(db)
      ensures ok ==> summary == WipeSummaryOf(old(db), name, strict, loose, refused)
    {
      var before := db;
      summary := [];
      var step1 := Anonymise(db, name);
      if step1.Err? {
        return false, summary;
      }
      summary := [Report.Anonymised(RowCount(db, name, Prospect))];
      db := step1.value;
      var more;
      ok, more := DeleteStrict(name, strict, refused);
      if !ok {
        db := before;
        return;
      }
      summary := summary + more;
      var aborted;
      aborted, more := DeleteLoose(name, loose, refused);
      summary := summary + more;
      if aborted {
        db := before;
      }
    }

    /** The whole script, cut off after `commits` commits. */
    method RunErasure(slug: string, refused: set<Table>, commits: nat) returns (ending: Ending, summary: seq<Report>)
      modifies this`db
      ensures Outcome(db, ending) == Erase(old(db), slug, refused, commits)
      ensures ending == Complete ==>
                summary == WipeSummary(old(db), HomeFor(slug), refused) + [Dropped(SchemaNameFor(slug)), SoftDeleted, Logged]
    {
      summary := [];
      var schema := SchemaNameFor(slug);
      var name := Kept(schema);
      if !LiveSlug(db.tenants, slug) {
        return NotFound, summary;
      }
      if commits == 0 {
        return Stopped, summary;
      }
      var ok;
      ok, summary := WipeTransaction(name, StrictTables(), LooseTables(), refused);
      if !ok {
        return WipeFailed, summary;
      }
      if commits == 1 {
        return Stopped, summary;
      }
      // Step 5, autocommitted.
      db := Dropping(db, name);
      summary := summary + [Dropped(schema)];
      if commits == 2 {
        return Stopped, summary;
      }
      // Steps 6 and 7 in one transaction.
      if !CanLog(db) {
        return LogFailed, summary;
      }
      db := Marked(db, slug);
      summary := summary + [SoftDeleted, Logged];
      ending := Complete;
    }
  }
}
