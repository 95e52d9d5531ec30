/** Running the migrations: one schema (Mode A), or public and then every live tenant (Mode B). */
module MigrationRunner {
  import opened Wrappers
  import opened SchemaNames
  import opened Ddl
  import opened FlowTemplates
  import opened TenantNaming
  import opened Databases
  import opened SchemaChain

  /** The structural part of migration `n` on a schema; the runner itself works for any. */
  type Scripts = (string, nat) -> Program

  function Up(name: string, n: nat): Program {
    if name == PUBLIC then PublicUp(n) else TenantUp(n)
  }

  // ---- 0012 and 0014 -------------------------------------------------------

  function SeedData(st: SchemaState): SchemaState {
    st.(data := st.data[ProspectingFlow := Seeded(RowsOf(st, ProspectingFlow))])
  }

  predicate HasFlows(db: Database, name: string) {
    name in db.schemas && Tab(ProspectingFlow) in db.schemas[name].objs
  }

  /** 0012 for the registry rows from the `k`th on. */
  function SeedFrom(db: Database, k: nat): (r: Result<Database, SqlError>)
    requires k <= |db.tenants|
    ensures r.Ok? ==> r.value.schemas.Keys == db.schemas.Keys
    decreases |db.tenants| - k
  {
    if k == |db.tenants| then Ok(db)
    else
      var t := db.tenants[k];
      if t.deleted then SeedFrom(db, k + 1)
      else if !HasFlows(db, Home(t)) then Err(Undefined)
      else SeedFrom(SeedOne(db, Home(t)), k + 1)
  }

  /** 0012, in whichever schema's pass it runs. */
  function SeedFlows(db: Database): (r: Result<Database, SqlError>)
    ensures r.Ok? ==> r.value.schemas.Keys == db.schemas.Keys
  {
    if tenants in PublicTables(db) then SeedFrom(db, 0) else Err(Undefined)
  }

  const ACME := Tenant("acme", "tenant_acme", ACTIVE, false)

  /** 0014: the conflict on the slug is ignored, one on the schema name is not. */
  function RegisterAcme(db: Database): Result<Database, SqlError> {
    if tenants !in PublicTables(db) then Err(Undefined)
    else if SlugTaken(db.tenants, ACME.slug) then Ok(db)
    else if SchemaTaken(db.tenants, ACME.schema) then Err(Duplicate)
    else Ok(db.(tenants := db.tenants + [ACME]))
  }

  // ---- One pass ------------------------------------------------------------

  /** Dropping a table drops its rows. */
  function DataAfter(st: SchemaState, name: string, n: nat): map<Table, Rows> {
    if n == 10 && name != PUBLIC then st.data - {CampaignMetric} else st.data
  }

  /** Migration `n`'s own statements on schema `name`, and the new revision. */
  function Alter(ups: Scripts, db: Database, name: string, n: nat): (r: Result<Database, SqlError>)
    requires name in db.schemas
    ensures r.Ok? ==> r.value.schemas.Keys == db.schemas.Keys
  {
    var st := db.schemas[name];
    var objs :- Exec(ups(name, n), st.objs, PublicTables(db));
    Ok(db.(schemas := db.schemas[name := SchemaState(objs, n, DataAfter(st, name, n))]))
  }

  /** Migration `n` in the pass of schema `name`. */
  function RunMigration(ups: Scripts, db: Database, name: string, n: nat): (r: Result<Database, SqlError>)
    requires name in db.schemas
    ensures r.Ok? ==> r.value.schemas.Keys == db.schemas.Keys
  {
    var next :- Alter(ups, db, name, n);
    if n == 12 then SeedFlows(next)
    else if n == 14 && name == PUBLIC then RegisterAcme(next)
    else Ok(next)
  }

  /** Migrations `n` + 1 to head. */
  function MigrateFrom(ups: Scripts, db: Database, name: string, n: nat): Result<Database, SqlError>
    requires name in db.schemas && n <= HEAD
    decreases HEAD - n
  {
    if n == HEAD then Ok(db)
    else
      var next :- RunMigration(ups, db, name, n + 1);
      MigrateFrom(ups, next, name, n + 1)
  }

  function WithSchema(db: Database, name: string): Database {
    if name in db.schemas then db else db.(schemas := db.schemas[name := EmptySchema()])
  }

  /** CREATE SCHEMA IF NOT EXISTS, SET search_path and the pending migrations, in one transaction. */
  function Pass(ups: Scripts, db: Database, name: string): Result<Database, SqlError> {
    var start := WithSchema(db, name);
    var rev := Rev(start, name);
    MigrateFrom(ups, start, name, if rev <= HEAD then rev else HEAD)
  }

  // ---- Mode B --------------------------------------------------------------

  /** What a run leaves behind: a pass that fails is rolled back and ends the run, the passes
      before it stay. */
  datatype RunResult = RunResult(db: Database, ok: bool)

  function Passes(ups: Scripts, db: Database, order: seq<string>, k: nat): RunResult
    requires k <= |order|
    decreases |order| - k
  {
    if k == |order| then RunResult(db, true)
    else if order[k] == PUBLIC then Passes(ups, db, order, k + 1)
    else
      var r := Pass(ups, db, order[k]);
      if r.Ok? then Passes(ups, r.value, order, k + 1) else RunResult(db, false)
  }

  /** `order` holds the schemas of the tenants to migrate; one that several rows lead to may come more
      than once. */
  ghost predicate Lists(order: seq<string>, rows: seq<Tenant>) {
    forall name :: name in order <==> ToMigrate(rows, name)
  }

  /** The public pass; then, over the tenants the registry names after it, one pass each. */
  function AfterPublic(ups: Scripts, db: Database): Result<Database, SqlError> {
    Pass(ups, db, PUBLIC)
  }

  function ModeB(ups: Scripts, db: Database, order: seq<string>): RunResult {
    var r := AfterPublic(ups, db);
    if r.Ok? then Passes(ups, r.value, order, 0) else RunResult(db, false)
  }

  // ---- What is always true of a database -----------------------------------

  /** The structure each schema has at each revision. */
  type Structures = (string, nat) -> Structure

  /** Migration `n` + 1 takes the structure of revision `n` to that of the next one, except that on a
      tenant schema 0004 needs a public table. */
  ghost predicate Advances(ups: Scripts, at: Structures, name: string, n: nat, pub: set<Table>) {
    n < HEAD ==>
      if name != PUBLIC && n == 3 && global_llm_config !in pub then
        Exec(ups(name, n + 1), at(name, n), pub).Err?
      else
        Exec(ups(name, n + 1), at(name, n), pub) == Ok(at(name, n + 1))
  }

  /** Which tables the runner itself depends on are there. */
  ghost predicate HasTables(at: Structures, name: string, r: nat) {
    r <= HEAD ==>
      if name == PUBLIC then
        && (Tab(tenants) in at(name, r) <==> r >= 1)
        && (Tab(global_llm_config) in at(name, r) <==> r >= 4)
      else
        Tab(ProspectingFlow) in at(name, r) <==> r >= 2
  }

  ghost predicate Chained(ups: Scripts, at: Structures) {
    && (forall name, n, pub :: Advances(ups, at, name, n, pub))
    && (forall name, r :: HasTables(at, name, r))
    && (forall name {:trigger at(name, 0)} :: at(name, 0) == map[])
  }

  /** Every schema has exactly the structure of its revision, no tenant schema is past 0004 while the
      public schema is not, and the registry respects its constraints. */
  ghost predicate Consistent(at: Structures, db: Database) {
    && (forall x | x in db.schemas :: db.schemas[x].rev <= HEAD && db.schemas[x].objs == at(x, db.schemas[x].rev))
    && (forall x | x in db.schemas && x != PUBLIC && db.schemas[x].rev >= 4 :: Rev(db, PUBLIC) >= 4)
    && UniqueTenants(db.tenants)
    && (forall k | 0 <= k < |db.tenants| :: Home(db.tenants[k]) != PUBLIC)
  }

  lemma RegistryThere(ups: Scripts, at: Structures, db: Database)
    requires Chained(ups, at) && Consistent(at, db)
    ensures tenants in PublicTables(db) <==> Rev(db, PUBLIC) >= 1
    ensures global_llm_config in PublicTables(db) <==> Rev(db, PUBLIC) >= 4
  {
    if PUBLIC in db.schemas {
      assert HasTables(at, PUBLIC, Rev(db, PUBLIC));
      assert tenants in PublicTables(db) <==> Tab(tenants) in db.schemas[PUBLIC].objs;
      assert global_llm_config in PublicTables(db) <==> Tab(global_llm_config) in db.schemas[PUBLIC].objs;
    }
  }

  lemma FlowsThere(ups: Scripts, at: Structures, db: Database, name: string)
    requires Chained(ups, at) && Consistent(at, db) && name != PUBLIC
    ensures HasFlows(db, name) <==> Rev(db, name) >= 2
  {
    assert HasTables(at, name, Rev(db, name));
  }

  // ---- 0012 ----------------------------------------------------------------

  predicate LiveFrom(rows: seq<Tenant>, k: nat, name: string) {
    exists j | k <= j < |rows| :: !rows[j].deleted && Home(rows[j]) == name
  }

  /** The seeding step's effect: rows of ProspectingFlow in the schemas of live tenants, nothing else. */
  predicate SeededIn(db: Database, next: Database, k: nat)
  {
    && next.tenants == db.tenants && next.audit == db.audit && next.schemas.Keys == db.schemas.Keys
    && forall x | x in db.schemas ::
         next.schemas[x] == if LiveFrom(db.tenants, k, x) then SeedData(db.schemas[x]) else db.schemas[x]
  }

  lemma SeedDataTwice(st: SchemaState)
    ensures SeedData(SeedData(st)) == SeedData(st)
  {
    SeedingTwice(RowsOf(st, ProspectingFlow));
  }

  function SeedOne(db: Database, name: string): Database
    requires name in db.schemas
  {
    db.(schemas := db.schemas[name := SeedData(db.schemas[name])])
  }

  lemma SeedOneFirst(db: Database, k: nat, end: Database)
    requires k < |db.tenants| && !db.tenants[k].deleted && Home(db.tenants[k]) in db.schemas
    requires SeededIn(SeedOne(db, Home(db.tenants[k])), end, k + 1)
    ensures SeededIn(db, end, k)
  {
    var name := Home(db.tenants[k]);
    SeedDataTwice(db.schemas[name]);
    forall x | x in db.schemas
      ensures end.schemas[x] == if LiveFrom(db.tenants, k, x) then SeedData(db.schemas[x]) else db.schemas[x]
    {
      assert LiveFrom(db.tenants, k, x) <==> x == name || LiveFrom(db.tenants, k + 1, x);
    }
  }

  /** 0012 succeeds exactly when every live tenant's schema has the table. */
  lemma {:induction false} SeedFromIff(db: Database, k: nat)
    requires k <= |db.tenants|
    ensures SeedFrom(db, k).Ok? <==>
            forall j | k <= j < |db.tenants| && !db.tenants[j].deleted :: HasFlows(db, Home(db.tenants[j]))
    ensures SeedFrom(db, k).Ok? ==> SeededIn(db, SeedFrom(db, k).value, k)
    decreases |db.tenants| - k
  {
    if k < |db.tenants| {
      var t := db.tenants[k];
      if t.deleted {
        SeedFromIff(db, k + 1);
        assert forall x :: LiveFrom(db.tenants, k, x) <==> LiveFrom(db.tenants, k + 1, x);
      } else if HasFlows(db, Home(t)) {
        var next := SeedOne(db, Home(t));
        SeedFromIff(next, k + 1);
        assert forall name :: HasFlows(next, name) <==> HasFlows(db, name);
        assert SeedFrom(db, k) == SeedFrom(next, k + 1);
        if SeedFrom(next, k + 1).Ok? {
          SeedOneFirst(db, k, SeedFrom(next, k + 1).value);
        }
      }
    }
  }

  // ---- One migration on a consistent database ------------------------------

  ghost function Altered(at: Structures, db: Database, name: string, n: nat): Database
    requires name in db.schemas
  {
    db.(schemas := db.schemas[name := SchemaState(at(name, n), n, DataAfter(db.schemas[name], name, n))])
  }

  lemma AlterSucceeds(ups: Scripts, at: Structures, db: Database, name: string, n: nat)
    requires Chained(ups, at) && Consistent(at, db) && name in db.schemas && 1 <= n <= HEAD && Rev(db, name) == n - 1
    requires name != PUBLIC && n == 4 ==> Rev(db, PUBLIC) >= 4
    ensures Alter(ups, db, name, n) == Ok(Altered(at, db, name, n)) && Consistent(at, Altered(at, db, name, n))
  {
    assert name != PUBLIC && n >= 4 ==> Rev(db, PUBLIC) >= 4;
    RegistryThere(ups, at, db);
    assert Advances(ups, at, name, n - 1, PublicTables(db));
  }

  lemma AlterFails(ups: Scripts, at: Structures, db: Database, name: string)
    requires Chained(ups, at) && Consistent(at, db) && name in db.schemas && name != PUBLIC && Rev(db, name) == 3
    requires Rev(db, PUBLIC) < 4
    ensures Alter(ups, db, name, 4).Err?
  {
    RegistryThere(ups, at, db);
    assert Advances(ups, at, name, 3, PublicTables(db));
  }

  /** Every live tenant other than this schema's has the table 0012 fills. */
  predicate OthersHaveFlows(db: Database, name: string) {
    forall k | 0 <= k < |db.tenants| && !db.tenants[k].deleted ::
      Home(db.tenants[k]) == name || Rev(db, Home(db.tenants[k])) >= 2
  }

  /** 0014 would meet a taken schema name without its slug being taken. */
  predicate NameClash(rows: seq<Tenant>) {
    !SlugTaken(rows, ACME.slug) && SchemaTaken(rows, ACME.schema)
  }

  function WithAcme(rows: seq<Tenant>): seq<Tenant> {
    if SlugTaken(rows, ACME.slug) then rows else rows + [ACME]
  }

  lemma SeedFlowsIff(ups: Scripts, at: Structures, db: Database)
    requires Chained(ups, at) && Consistent(at, db) && Rev(db, PUBLIC) >= 1
    ensures SeedFlows(db).Ok? <==>
            forall k | 0 <= k < |db.tenants| && !db.tenants[k].deleted :: Rev(db, Home(db.tenants[k])) >= 2
    ensures SeedFlows(db).Ok? ==> SeededIn(db, SeedFlows(db).value, 0) && Consistent(at, SeedFlows(db).value)
  {
    RegistryThere(ups, at, db);
    SeedFromIff(db, 0);
    forall k | 0 <= k < |db.tenants|
      ensures HasFlows(db, Home(db.tenants[k])) <==> Rev(db, Home(db.tenants[k])) >= 2
    {
      FlowsThere(ups, at, db, Home(db.tenants[k]));
    }
  }

  lemma RegisterAcmeIff(ups: Scripts, at: Structures, db: Database)
    requires Chained(ups, at) && Consistent(at, db) && Rev(db, PUBLIC) >= 1
    ensures RegisterAcme(db).Ok? <==> !NameClash(db.tenants)
    ensures RegisterAcme(db).Ok? ==> RegisterAcme(db) == Ok(db.(tenants := WithAcme(db.tenants)))
    ensures RegisterAcme(db).Ok? ==> Consistent(at, RegisterAcme(db).value)
  {
    RegistryThere(ups, at, db);
    if !SlugTaken(db.tenants, ACME.slug) && !SchemaTaken(db.tenants, ACME.schema) {
      AppendUnique(db.tenants, ACME);
    }
  }

  lemma AppendUnique(rows: seq<Tenant>, t: Tenant)
    requires UniqueTenants(rows) && !SlugTaken(rows, t.slug) && !SchemaTaken(rows, t.schema)
    ensures UniqueTenants(rows + [t])
  {
  }

  // ---- The rest of a pass --------------------------------------------------

  /** When migrations `n` + 1 to head get through in the pass of `name`: 0004, 0012 and 0014 decide. */
  predicate GetsThrough(db: Database, name: string, n: nat) {
    && (n < 4 && name != PUBLIC ==> Rev(db, PUBLIC) >= 4)
    && (n < 12 ==> OthersHaveFlows(db, name))
    && (n < 14 && name == PUBLIC ==> !NameClash(db.tenants))
  }

  /** What the pass does to the rows of table `t` in schema `x`. */
  predicate RowsKept(db: Database, end: Database, name: string, n: nat, x: string, t: Table)
    requires x in db.schemas && x in end.schemas
  {
    if t == ProspectingFlow && n < 12 && LiveSchema(db.tenants, x) then
      RowsOf(end.schemas[x], t) == Seeded(RowsOf(db.schemas[x], t))
    else
      RowsOf(end.schemas[x], t) == Left(RowsOf(db.schemas[x], t), x == name && name != PUBLIC && n < 10, t)
  }

  /** The rows of `t` after 0010 if `dropping`. */
  function Left(rows: Rows, dropping: bool, t: Table): Rows {
    if dropping && t == CampaignMetric then [] else rows
  }

  /** What migrations `n` + 1 to head do in the pass of `name`. */
  ghost predicate Migrated(at: Structures, db: Database, end: Database, name: string, n: nat)
    requires name in db.schemas
  {
    && Consistent(at, end) && end.audit == db.audit && end.schemas.Keys == db.schemas.Keys
    && end.tenants == (if n < 14 && name == PUBLIC then WithAcme(db.tenants) else db.tenants)
    && Rev(end, name) == HEAD
    && (forall x | x in db.schemas && x != name :: Rev(end, x) == Rev(db, x) && end.schemas[x].objs == db.schemas[x].objs)
    && (forall x, t | x in db.schemas :: RowsKept(db, end, name, n, x, t))
  }

  /** What migration `n` alone does in the pass of `name`. */
  ghost predicate Stepped(at: Structures, db: Database, next: Database, name: string, n: nat)
    requires name in db.schemas
  {
    && Consistent(at, next) && next.audit == db.audit && next.schemas.Keys == db.schemas.Keys
    && next.tenants == (if n == 14 && name == PUBLIC then WithAcme(db.tenants) else db.tenants)
    && Rev(next, name) == n
    && (forall x | x in db.schemas && x != name :: Rev(next, x) == Rev(db, x) && next.schemas[x].objs == db.schemas[x].objs)
    && (forall x, t | x in db.schemas :: RowsStepped(db, next, name, n, x, t))
  }

  predicate RowsStepped(db: Database, next: Database, name: string, n: nat, x: string, t: Table)
    requires x in db.schemas && x in next.schemas
  {
    if t == ProspectingFlow && n == 12 && LiveSchema(db.tenants, x) then
      RowsOf(next.schemas[x], t) == Seeded(RowsOf(db.schemas[x], t))
    else
      RowsOf(next.schemas[x], t) == Left(RowsOf(db.schemas[x], t), x == name && name != PUBLIC && n == 10, t)
  }

  lemma StepIff(ups: Scripts, at: Structures, db: Database, name: string, n: nat)
    requires Chained(ups, at) && Consistent(at, db) && name in db.schemas && 1 <= n <= HEAD && Rev(db, name) == n - 1
    ensures RunMigration(ups, db, name, n).Ok? <==>
              && (n == 4 && name != PUBLIC ==> Rev(db, PUBLIC) >= 4)
              && (n == 12 ==> OthersHaveFlows(db, name))
              && (n == 14 && name == PUBLIC ==> !NameClash(db.tenants))
    ensures RunMigration(ups, db, name, n).Ok? ==> Stepped(at, db, RunMigration(ups, db, name, n).value, name, n)
  {
    if n == 4 && name != PUBLIC && Rev(db, PUBLIC) < 4 {
      AlterFails(ups, at, db, name);
      return;
    }
    AlterSucceeds(ups, at, db, name, n);
    var mid := Altered(at, db, name, n);
    AlteredSteps(ups, at, db, name, n);
    if n == 12 {
      SeedStepIff(ups, at, db, mid, name);
    } else if n == 14 && name == PUBLIC {
      RegisterAcmeIff(ups, at, mid);
    }
  }

  /** The structural part, before 0012 or 0014 add theirs. */
  lemma AlteredSteps(ups: Scripts, at: Structures, db: Database, name: string, n: nat)
    requires Chained(ups, at) && Consistent(at, db) && name in db.schemas && 1 <= n <= HEAD && Consistent(at, Altered(at, db, name, n))
    ensures OnlyAltered(db, Altered(at, db, name, n), name, n) && RowsSame(db, Altered(at, db, name, n), name, n)
  {
  }

  /** `mid` differs from `db` only in the structure, revision and dropped rows of `name`. */
  predicate OnlyAltered(db: Database, mid: Database, name: string, n: nat) {
    && name in db.schemas
    && mid.audit == db.audit && mid.schemas.Keys == db.schemas.Keys && mid.tenants == db.tenants && Rev(mid, name) == n
    && (forall x | x in db.schemas && x != name :: mid.schemas[x] == db.schemas[x])
  }

  ghost predicate RowsSame(db: Database, mid: Database, name: string, n: nat)
    requires name in db.schemas && name in mid.schemas
  {
    forall t :: RowsOf(mid.schemas[name], t) == Left(RowsOf(db.schemas[name], t), name != PUBLIC && n == 10, t)
  }

  lemma SeedStepIff(ups: Scripts, at: Structures, db: Database, mid: Database, name: string)
    requires Chained(ups, at) && Consistent(at, mid) && Rev(mid, PUBLIC) >= 1
    requires OnlyAltered(db, mid, name, 12) && RowsSame(db, mid, name, 12)
    ensures SeedFlows(mid).Ok? <==> OthersHaveFlows(db, name)
    ensures SeedFlows(mid).Ok? ==> Stepped(at, db, SeedFlows(mid).value, name, 12)
  {
    SeedFlowsIff(ups, at, mid);
    assert forall x | x != name :: Rev(mid, x) == Rev(db, x);
    if SeedFlows(mid).Ok? {
      var next := SeedFlows(mid).value;
      SeededSteps(at, db, mid, next, name);
    }
  }

  lemma SeededSteps(at: Structures, db: Database, mid: Database, next: Database, name: string)
    requires OnlyAltered(db, mid, name, 12) && RowsSame(db, mid, name, 12) && SeededIn(mid, next, 0) && Consistent(at, next)
    ensures Stepped(at, db, next, name, 12)
  {
    forall x, t | x in db.schemas ensures RowsStepped(db, next, name, 12, x, t) {
      SeededRows(db, mid, next, name, x, t);
    }
  }

  lemma SeededRows(db: Database, mid: Database, next: Database, name: string, x: string, t: Table)
    requires OnlyAltered(db, mid, name, 12) && RowsSame(db, mid, name, 12) && SeededIn(mid, next, 0) && x in db.schemas
    ensures RowsStepped(db, next, name, 12, x, t)
  {
    assert LiveFrom(mid.tenants, 0, x) <==> LiveSchema(db.tenants, x);
    assert RowsOf(mid.schemas[x], t) == RowsOf(db.schemas[x], t);
  }

  /** What is known of the rest of a pass. */
  ghost predicate PassIff(at: Structures, db: Database, name: string, n: nat, r: Result<Database, SqlError>)
    requires name in db.schemas
  {
    (r.Ok? <==> GetsThrough(db, name, n)) && (r.Ok? ==> Migrated(at, db, r.value, name, n))
  }

  lemma OneMore(at: Structures, db: Database, next: Database, name: string, n: nat, r: Result<Database, SqlError>)
    requires name in db.schemas && Stepped(at, db, next, name, n + 1) && PassIff(at, next, name, n + 1, r)
    requires n + 1 == 4 && name != PUBLIC ==> Rev(db, PUBLIC) >= 4
    requires n + 1 == 12 ==> OthersHaveFlows(db, name)
    requires n + 1 == 14 && name == PUBLIC ==> !NameClash(db.tenants)
    ensures PassIff(at, db, name, n, r)
  {
    GetsThroughOnward(at, db, next, name, n);
    if r.Ok? {
      Compose(at, db, next, r.value, name, n);
    }
  }

  lemma MigrateUnfolds(ups: Scripts, db: Database, name: string, n: nat)
    requires name in db.schemas && n < HEAD
    ensures var step := RunMigration(ups, db, name, n + 1);
            MigrateFrom(ups, db, name, n) == if step.Ok? then MigrateFrom(ups, step.value, name, n + 1) else step
  {
  }

  lemma SteppedReady(at: Structures, db: Database, next: Database, name: string, n: nat)
    requires name in db.schemas && Stepped(at, db, next, name, n)
    ensures Consistent(at, next) && name in next.schemas && Rev(next, name) == n
    ensures name != PUBLIC ==> Rev(next, PUBLIC) == Rev(db, PUBLIC)
  {
  }

  /** A pass of pending migrations gets through exactly when 0012 and 0014 do. */
  lemma {:induction false} MigrateIff(ups: Scripts, at: Structures, db: Database, name: string, n: nat)
    requires Chained(ups, at) && Consistent(at, db) && name in db.schemas && Rev(db, name) == n
    ensures PassIff(at, db, name, n, MigrateFrom(ups, db, name, n))
    decreases HEAD - n
  {
    if n == HEAD {
      NothingPending(at, db, name);
    } else {
      MigrateUnfolds(ups, db, name, n);
      StepIff(ups, at, db, name, n + 1);
      var step := RunMigration(ups, db, name, n + 1);
      if step.Ok? {
        SteppedReady(at, db, step.value, name, n + 1);
        MigrateIff(ups, at, step.value, name, n + 1);
        OneMore(at, db, step.value, name, n, MigrateFrom(ups, db, name, n));
      } else {
        assert !GetsThrough(db, name, n);
      }
    }
  }

  lemma GetsThroughOnward(at: Structures, db: Database, next: Database, name: string, n: nat)
    requires name in db.schemas && Stepped(at, db, next, name, n + 1)
    requires n + 1 == 4 && name != PUBLIC ==> Rev(db, PUBLIC) >= 4
    requires n + 1 == 12 ==> OthersHaveFlows(db, name)
    requires n + 1 == 14 && name == PUBLIC ==> !NameClash(db.tenants)
    ensures GetsThrough(next, name, n + 1) <==> GetsThrough(db, name, n)
  {
    assert forall x | x != name :: Rev(next, x) == Rev(db, x);
  }

  lemma Compose(at: Structures, db: Database, next: Database, end: Database, name: string, n: nat)
    requires name in db.schemas && Stepped(at, db, next, name, n + 1) && Migrated(at, next, end, name, n + 1)
    ensures Migrated(at, db, end, name, n)
  {
    forall x, t | x in db.schemas ensures RowsKept(db, end, name, n, x, t) {
      ComposeRows(db, next, end, name, n, x, t);
    }
  }

  lemma ComposeRows(db: Database, next: Database, end: Database, name: string, n: nat, x: string, t: Table)
    requires x in db.schemas && x in next.schemas && x in end.schemas
    requires n < 12 ==> next.tenants == db.tenants
    requires RowsStepped(db, next, name, n + 1, x, t) && RowsKept(next, end, name, n + 1, x, t)
    ensures RowsKept(db, end, name, n, x, t)
  {
  }

  lemma NothingPending(at: Structures, db: Database, name: string)
    requires Consistent(at, db) && name in db.schemas && Rev(db, name) == HEAD
    ensures Migrated(at, db, db, name, HEAD)
  {
  }
}
