/** Everything that happens to the database over its life: runs of the migrations, tenants coming
    and going, schemas being created and dropped. */
module Lifecycle {
  import opened SchemaNames
  import opened TenantNaming
  import opened Databases
  import opened SchemaChain
  import opened MigrationRunner
  import opened ModeBRuns

  datatype Event =
    | RunAll(order: seq<string>)                   // alembic upgrade head, Mode B
    | RunOne(name: string)                         // Mode A
    | Register(slug: string)                       // step 1 of provisioning
    | SetStatus(slug: string, status: Status)      // activate or suspend
    | SoftDelete(slug: string)
    | CreateSchema(name: string)
    | DropSchema(name: string)

  function WithStatus(rows: seq<Tenant>, slug: string, status: Status): (r: seq<Tenant>)
    ensures |r| == |rows|
    ensures forall k | 0 <= k < |rows| :: r[k] == if rows[k].slug == slug then rows[k].(status := status) else rows[k]
  {
    seq(|rows|, k requires 0 <= k < |rows| => if rows[k].slug == slug then rows[k].(status := status) else rows[k])
  }

  /** `SET status = 'PROVISIONING', deleted_at = now() WHERE slug = ...` */
  function WithDeleted(rows: seq<Tenant>, slug: string): (r: seq<Tenant>)
    ensures |r| == |rows|
    ensures forall k | 0 <= k < |rows| ::
              r[k] == if rows[k].slug == slug then rows[k].(status := PROVISIONING, deleted := true) else rows[k]
  {
    seq(|rows|, k requires 0 <= k < |rows| =>
      if rows[k].slug == slug then rows[k].(status := PROVISIONING, deleted := true) else rows[k])
  }

  /** The insert fails without a registry and on either unique constraint. */
  function Registered(db: Database, slug: string): Database {
    if tenants !in PublicTables(db) || SlugTaken(db.tenants, slug) || SchemaTaken(db.tenants, SchemaNameFor(slug)) then db
    else db.(tenants := db.tenants + [Tenant(slug, SchemaNameFor(slug), PROVISIONING, false)])
  }

  function Happen(ups: Scripts, db: Database, e: Event): Database {
    match e
    case RunAll(order) => ModeB(ups, db, order).db
    case RunOne(name) => var r := Pass(ups, db, Kept(name)); if r.Ok? then r.value else db
    case Register(slug) => Registered(db, slug)
    case SetStatus(slug, next) => db.(tenants := WithStatus(db.tenants, slug, next))
    case SoftDelete(slug) => db.(tenants := WithDeleted(db.tenants, slug))
    case CreateSchema(name) => WithSchema(db, Kept(name))
    case DropSchema(name) => db.(schemas := db.schemas - {Kept(name)})
  }

  ghost predicate CanHappen(db: Database, e: Event) {
    match e
    case RunAll(order) => Lists(order, RegistryAfter(db))
    case DropSchema(name) => name != PUBLIC
    case _ => true
  }

  function After(ups: Scripts, db: Database, es: seq<Event>): Database
    decreases |es|, db
  {
    if es == [] then db else After(ups, Happen(ups, db, es[0]), es[1..])
  }

  ghost predicate CanAll(ups: Scripts, db: Database, es: seq<Event>)
    decreases |es|, db
  {
    es == [] || (CanHappen(db, es[0]) && CanAll(ups, Happen(ups, db, es[0]), es[1..]))
  }

  // ---- The database stays consistent ---------------------------------------

  /** The registry names each tenant's schema after its slug. */
  predicate Named(rows: seq<Tenant>) {
    forall k | 0 <= k < |rows| :: rows[k].schema == SchemaNameFor(rows[k].slug)
  }

  ghost predicate Sound(at: Structures, db: Database) {
    Consistent(at, db) && Named(db.tenants)
  }

  lemma AcmeNamed()
    ensures ACME.schema == SchemaNameFor(ACME.slug) && Home(ACME) == ACME.schema != PUBLIC
  {
    assert Underscored(ACME.slug) == ACME.slug;
  }

  /** A run that stops half-way has still only done whole passes. */
  lemma {:induction false} PassesKeep(ups: Scripts, at: Structures, db: Database, order: seq<string>, k: nat)
    requires Chained(ups, at) && Consistent(at, db) && k <= |order|
    ensures var r := Passes(ups, db, order, k).db;
            && Consistent(at, r) && r.tenants == db.tenants && r.audit == db.audit
            && (forall x | x in r.schemas && x !in db.schemas :: x in order)
            && db.schemas.Keys <= r.schemas.Keys
    decreases |order| - k
  {
    if k < |order| {
      if order[k] == PUBLIC {
        PassesKeep(ups, at, db, order, k + 1);
      } else {
        PassesUnfold(ups, db, order, k);
        PassIsExact(ups, at, db, order[k]);
        var r := Pass(ups, db, order[k]);
        if r.Ok? {
          PassesKeep(ups, at, r.value, order, k + 1);
        }
      }
    }
  }

  lemma ModeBKeeps(ups: Scripts, at: Structures, db: Database, order: seq<string>)
    requires Chained(ups, at) && Consistent(at, db)
    ensures var r := ModeB(ups, db, order).db;
            && Consistent(at, r) && r.audit == db.audit
            && (r.tenants == db.tenants || r.tenants == RegistryAfter(db))
            && (forall x | x in r.schemas && x !in db.schemas :: x == PUBLIC || x in order)
            && db.schemas.Keys <= r.schemas.Keys
  {
    PassIsExact(ups, at, db, PUBLIC);
    var r := Pass(ups, db, PUBLIC);
    if r.Ok? {
      PassesKeep(ups, at, r.value, order, 0);
    }
  }

  lemma RegistryAfterNamed(db: Database)
    requires Named(db.tenants)
    ensures Named(RegistryAfter(db))
  {
    AcmeNamed();
  }

  /** Whatever happens, every schema keeps exactly the structure of its revision. */
  lemma HappenKeepsSound(ups: Scripts, at: Structures, db: Database, e: Event)
    requires Chained(ups, at) && Sound(at, db) && CanHappen(db, e)
    ensures Sound(at, Happen(ups, db, e))
  {
    match e
    case RunAll(order) =>
      ModeBKeeps(ups, at, db, order);
      RegistryAfterNamed(db);
    case RunOne(name) =>
      RunOneKeeps(ups, at, db, name);
    case CreateSchema(name) =>
      WithSchemaStarted(ups, at, db, Kept(name));
    case _ =>
      RowsKeep(ups, at, db, e);
  }

  lemma RunOneKeeps(ups: Scripts, at: Structures, db: Database, name: string)
    requires Chained(ups, at) && Sound(at, db)
    ensures Sound(at, Happen(ups, db, RunOne(name)))
  {
    PassIsExact(ups, at, db, Kept(name));
    RegistryAfterNamed(db);
  }

  lemma RegisteredKeeps(at: Structures, db: Database, slug: string)
    requires Sound(at, db)
    ensures Sound(at, Registered(db, slug))
  {
    KeptNotPublic(slug);
    if !SlugTaken(db.tenants, slug) && !SchemaTaken(db.tenants, SchemaNameFor(slug)) {
      AppendUnique(db.tenants, Tenant(slug, SchemaNameFor(slug), PROVISIONING, false));
    }
  }

  /** Registering, changing a status, soft deletion and dropping a schema. */
  lemma RowsKeep(ups: Scripts, at: Structures, db: Database, e: Event)
    requires Sound(at, db) && CanHappen(db, e) && (e.Register? || e.SetStatus? || e.SoftDelete? || e.DropSchema?)
    ensures Sound(at, Happen(ups, db, e))
  {
    if e.Register? {
      RegisteredKeeps(at, db, e.slug);
    }
  }

  lemma {:induction false} AlwaysSound(ups: Scripts, at: Structures, db: Database, es: seq<Event>)
    requires Chained(ups, at) && Sound(at, db) && CanAll(ups, db, es)
    ensures Sound(at, After(ups, db, es))
    decreases |es|
  {
    if es != [] {
      HappenKeepsSound(ups, at, db, es[0]);
      AlwaysSound(ups, at, Happen(ups, db, es[0]), es[1..]);
    }
  }

  // ---- A tenant that is gone stays gone ------------------------------------

  /** The tenant's registry row is marked deleted. */
  predicate RowGone(rows: seq<Tenant>, slug: string) {
    exists k | 0 <= k < |rows| :: rows[k].slug == slug && rows[k].deleted
  }

  predicate LiveSlug(rows: seq<Tenant>, slug: string) {
    exists k | 0 <= k < |rows| :: rows[k].slug == slug && !rows[k].deleted
  }

  /** The event marks row `k` deleted. */
  predicate Deletes(e: Event, rows: seq<Tenant>, k: nat)
    requires k < |rows|
  {
    e.SoftDelete? && e.slug == rows[k].slug
  }

  lemma RowsStay(ups: Scripts, at: Structures, db: Database, e: Event, k: nat)
    requires Chained(ups, at) && Sound(at, db) && CanHappen(db, e) && k < |db.tenants|
    ensures var end := Happen(ups, db, e);
            && k < |end.tenants| && end.tenants[k].slug == db.tenants[k].slug && end.tenants[k].schema == db.tenants[k].schema
            && (end.tenants[k].deleted <==> db.tenants[k].deleted || Deletes(e, db.tenants, k))
  {
    match e
    case RunAll(order) => ModeBKeeps(ups, at, db, order);
    case RunOne(name) => PassIsExact(ups, at, db, Kept(name));
    case _ =>
  }

  /** No event revives a row that is marked deleted. */
  lemma RowStaysGone(ups: Scripts, at: Structures, db: Database, e: Event, slug: string)
    requires Chained(ups, at) && Sound(at, db) && CanHappen(db, e) && RowGone(db.tenants, slug)
    ensures RowGone(Happen(ups, db, e).tenants, slug)
  {
    var k :| 0 <= k < |db.tenants| && db.tenants[k].slug == slug && db.tenants[k].deleted;
    RowsStay(ups, at, db, e, k);
    assert Happen(ups, db, e).tenants[k].slug == slug;
  }

  lemma {:induction false} RowGoneForever(ups: Scripts, at: Structures, db: Database, es: seq<Event>, slug: string)
    requires Chained(ups, at) && Sound(at, db) && CanAll(ups, db, es) && RowGone(db.tenants, slug)
    ensures RowGone(After(ups, db, es).tenants, slug) && !LiveSlug(After(ups, db, es).tenants, slug)
    decreases |es|
  {
    if es == [] {
      var k :| 0 <= k < |db.tenants| && db.tenants[k].slug == slug && db.tenants[k].deleted;
    } else {
      RowStaysGone(ups, at, db, es[0], slug);
      HappenKeepsSound(ups, at, db, es[0]);
      RowGoneForever(ups, at, Happen(ups, db, es[0]), es[1..], slug);
    }
  }

  /** Besides, its schema does not exist, and no tenant that is left shares it. */
  predicate Gone(db: Database, slug: string) {
    && HomeFor(slug) !in db.schemas
    && RowGone(db.tenants, slug) && !LiveSchema(db.tenants, HomeFor(slug))
  }

  /** Only provisioning that very schema again could bring it back, for itself or for another tenant
      whose name is cut to the same. */
  predicate Spares(e: Event, slug: string) {
    var home := HomeFor(slug);
    match e
    case RunOne(name) => Kept(name) != home
    case CreateSchema(name) => Kept(name) != home
    case Register(other) => other == slug || HomeFor(other) != home
    case _ => true
  }

  lemma GoneStaysGone(ups: Scripts, at: Structures, db: Database, e: Event, slug: string)
    requires Chained(ups, at) && Sound(at, db) && CanHappen(db, e)
    requires Gone(db, slug) && Spares(e, slug)
    ensures Gone(Happen(ups, db, e), slug)
  {
    RowStaysGone(ups, at, db, e, slug);
    KeptNotPublic(slug);
    match e {
      case RunAll(order) => GoneAfterRunAll(ups, at, db, order, slug);
      case RunOne(other) => GoneAfterRunOne(ups, at, db, Kept(other), slug);
      case Register(other) => assert SlugTaken(db.tenants, slug);
      case _ =>
    }
  }

  /** 0014's tenant could share only its own schema, and then its slug is taken. */
  lemma AcmeApart(rows: seq<Tenant>, slug: string)
    requires RowGone(rows, slug) && !LiveSchema(rows, HomeFor(slug))
    ensures !LiveSchema(WithAcme(rows), HomeFor(slug))
  {
    AcmeNamed();
    if Home(ACME) == HomeFor(slug) {
      KeptNamesCollideIff(slug, ACME.slug);
      assert forall k | 0 <= k < 4 :: Replaced(ACME.slug[k]) == ACME.slug[k] && ACME.slug[k] != '_';
      assert slug == ACME.slug;
      assert SlugTaken(rows, slug);
    }
  }

  lemma GoneAfterRunAll(ups: Scripts, at: Structures, db: Database, order: seq<string>, slug: string)
    requires Chained(ups, at) && Sound(at, db) && Lists(order, RegistryAfter(db)) && Gone(db, slug)
    ensures var end := ModeB(ups, db, order).db;
            HomeFor(slug) !in end.schemas && !LiveSchema(end.tenants, HomeFor(slug))
  {
    ModeBKeeps(ups, at, db, order);
    AcmeApart(db.tenants, slug);
    KeptNotPublic(slug);
    NotToMigrate(RegistryAfter(db), HomeFor(slug));
  }

  lemma NotToMigrate(rows: seq<Tenant>, name: string)
    requires !LiveSchema(rows, name)
    ensures !ToMigrate(rows, name)
  {
  }

  lemma GoneAfterRunOne(ups: Scripts, at: Structures, db: Database, name: string, slug: string)
    requires Chained(ups, at) && Sound(at, db) && Gone(db, slug) && name != HomeFor(slug)
    ensures Pass(ups, db, name).Ok? ==>
              var end := Pass(ups, db, name).value;
              HomeFor(slug) !in end.schemas && !LiveSchema(end.tenants, HomeFor(slug))
  {
    PassIsExact(ups, at, db, name);
    AcmeApart(db.tenants, slug);
  }

  ghost predicate AllSpare(es: seq<Event>, slug: string) {
    forall k | 0 <= k < |es| :: Spares(es[k], slug)
  }

  /** No sequence of migration runs, registrations, status changes and other tenants' comings and
      goings recreates the schema of a tenant that is gone or revives its registry row. */
  lemma {:induction false} GoneForever(ups: Scripts, at: Structures, db: Database, es: seq<Event>, slug: string)
    requires Chained(ups, at) && Sound(at, db) && CanAll(ups, db, es)
    requires Gone(db, slug) && AllSpare(es, slug)
    ensures Gone(After(ups, db, es), slug)
    decreases |es|
  {
    if es != [] {
      assert Spares(es[0], slug);
      GoneStaysGone(ups, at, db, es[0], slug);
      HappenKeepsSound(ups, at, db, es[0]);
      assert AllSpare(es[1..], slug);
      GoneForever(ups, at, Happen(ups, db, es[0]), es[1..], slug);
    }
  }

  /** On the real migrations, from an empty database on. */
  lemma EveryReachableDatabase(es: seq<Event>)
    requires CanAll(Up, EmptyDatabase(), es)
    ensures Sound(StructureAt, After(Up, EmptyDatabase(), es))
  {
    RealChain();
    AlwaysSound(Up, StructureAt, EmptyDatabase(), es);
  }

  /** On every reachable database: when Mode B succeeds, what it does, and that it is then done. */
  lemma ReachableModeB(es: seq<Event>, order: seq<string>, again: seq<string>)
    requires CanAll(Up, EmptyDatabase(), es) && Lists(order, RegistryAfter(After(Up, EmptyDatabase(), es)))
    ensures var db := After(Up, EmptyDatabase(), es);
            var run := ModeB(Up, db, order);
            && (run.ok <==> RunFits(db, order))
            && (run.ok ==> Finished(StructureAt, db, run.db, order))
            && (run.ok && Lists(again, run.db.tenants) ==> ModeB(Up, run.db, again) == RunResult(run.db, true))
  {
    RealChain();
    EveryReachableDatabase(es);
    var db := After(Up, EmptyDatabase(), es);
    ModeBIff(Up, StructureAt, db, order);
    if ModeB(Up, db, order).ok && Lists(again, ModeB(Up, db, order).db.tenants) {
      SecondRunDoesNothing(Up, StructureAt, db, order, again);
    }
  }

  // ---- Two tenants that wait for their first migration ---------------------

  lemma PassKeepsPair(ups: Scripts, at: Structures, db: Database, name: string, a: nat, b: nat)
    requires Chained(ups, at) && Consistent(at, db) && FreshPair(db, a, b)
    ensures Pass(ups, db, name).Ok? ==> FreshPair(Pass(ups, db, name).value, a, b)
  {
    if Pass(ups, db, name).Ok? {
      NeitherPasses(ups, at, db, a, b);
      PassIsExact(ups, at, db, name);
      PairAfterOther(at, db, Pass(ups, db, name).value, name, a, b);
    }
  }

  lemma PairAfterOther(at: Structures, db: Database, next: Database, name: string, a: nat, b: nat)
    requires Passed(at, db, next, name) && FreshPair(db, a, b) && name != Home(db.tenants[a]) && name != Home(db.tenants[b])
    ensures FreshPair(next, a, b)
  {
    assert next.tenants[a] == db.tenants[a] && next.tenants[b] == db.tenants[b];
  }

  /** In the pass of either 0012 misses the other's table. */
  lemma NeitherPasses(ups: Scripts, at: Structures, db: Database, a: nat, b: nat)
    requires Chained(ups, at) && Consistent(at, db) && FreshPair(db, a, b)
    ensures Pass(ups, db, Home(db.tenants[a])).Err? && Pass(ups, db, Home(db.tenants[b])).Err?
  {
    MissesOther(ups, at, db, a, b);
    MissesOther(ups, at, db, b, a);
  }

  lemma MissesOther(ups: Scripts, at: Structures, db: Database, a: nat, b: nat)
    requires Chained(ups, at) && Consistent(at, db) && FreshPair(db, a, b)
    ensures Pass(ups, db, Home(db.tenants[a])).Err?
  {
    PassIsExact(ups, at, db, Home(db.tenants[a]));
    assert !OthersHaveFlows(db, Home(db.tenants[a]));
  }

  lemma {:induction false} PassesKeepPair(ups: Scripts, at: Structures, db: Database, order: seq<string>, k: nat, a: nat, b: nat)
    requires Chained(ups, at) && Consistent(at, db) && FreshPair(db, a, b) && k <= |order|
    ensures FreshPair(Passes(ups, db, order, k).db, a, b)
    decreases |order| - k
  {
    if k < |order| {
      if order[k] == PUBLIC {
        PassesKeepPair(ups, at, db, order, k + 1, a, b);
      } else {
        PassesUnfold(ups, db, order, k);
        PassIsExact(ups, at, db, order[k]);
        PassKeepsPair(ups, at, db, order[k], a, b);
        if Pass(ups, db, order[k]).Ok? {
          PassesKeepPair(ups, at, Pass(ups, db, order[k]).value, order, k + 1, a, b);
        }
      }
    }
  }

  lemma ModeBKeepsPair(ups: Scripts, at: Structures, db: Database, order: seq<string>, a: nat, b: nat)
    requires Chained(ups, at) && Consistent(at, db) && FreshPair(db, a, b)
    ensures FreshPair(ModeB(ups, db, order).db, a, b)
  {
    PassIsExact(ups, at, db, PUBLIC);
    PassKeepsPair(ups, at, db, PUBLIC, a, b);
    if Pass(ups, db, PUBLIC).Ok? {
      PassesKeepPair(ups, at, Pass(ups, db, PUBLIC).value, order, 0, a, b);
    }
  }

  /** Whatever happens, the two go on waiting for each other; only deleting one of them ends it. */
  lemma PairStaysIff(ups: Scripts, at: Structures, db: Database, e: Event, a: nat, b: nat)
    requires Chained(ups, at) && Sound(at, db) && CanHappen(db, e) && FreshPair(db, a, b)
    ensures FreshPair(Happen(ups, db, e), a, b) <==> !Deletes(e, db.tenants, a) && !Deletes(e, db.tenants, b)
  {
    RowsStay(ups, at, db, e, a);
    RowsStay(ups, at, db, e, b);
    match e
    case RunAll(order) => ModeBKeepsPair(ups, at, db, order, a, b);
    case RunOne(name) => PassKeepsPair(ups, at, db, Kept(name), a, b);
    case _ =>
  }

  predicate NeitherDeleted(es: seq<Event>, rows: seq<Tenant>, a: nat, b: nat)
    requires a < |rows| && b < |rows|
  {
    forall k | 0 <= k < |es| :: !Deletes(es[k], rows, a) && !Deletes(es[k], rows, b)
  }

  lemma {:induction false} DeletedStays(ups: Scripts, at: Structures, db: Database, es: seq<Event>, k: nat)
    requires Chained(ups, at) && Sound(at, db) && CanAll(ups, db, es) && k < |db.tenants| && db.tenants[k].deleted
    ensures k < |After(ups, db, es).tenants| && After(ups, db, es).tenants[k].deleted
    decreases |es|
  {
    if es != [] {
      RowsStay(ups, at, db, es[0], k);
      HappenKeepsSound(ups, at, db, es[0]);
      DeletedStays(ups, at, Happen(ups, db, es[0]), es[1..], k);
    }
  }

  /** Over any sequence of events -- runs of one schema or of all, registrations, status changes, schemas
      created and dropped -- the two still wait at its end if and only if neither has been deleted. */
  lemma {:induction false} StuckIff(ups: Scripts, at: Structures, db: Database, es: seq<Event>, a: nat, b: nat)
    requires Chained(ups, at) && Sound(at, db) && CanAll(ups, db, es) && FreshPair(db, a, b)
    ensures FreshPair(After(ups, db, es), a, b) <==> NeitherDeleted(es, db.tenants, a, b)
    decreases |es|
  {
    if es != [] {
      var next := Happen(ups, db, es[0]);
      PairStaysIff(ups, at, db, es[0], a, b);
      HappenKeepsSound(ups, at, db, es[0]);
      RowsStay(ups, at, db, es[0], a);
      RowsStay(ups, at, db, es[0], b);
      if FreshPair(next, a, b) {
        StuckIff(ups, at, next, es[1..], a, b);
        assert NeitherDeleted(es, db.tenants, a, b) <==> NeitherDeleted(es[1..], next.tenants, a, b) by {
          assert forall k | 0 < k < |es| :: es[k] == es[1..][k - 1];
          assert forall k | 0 <= k < |es| - 1 :: es[1..][k] == es[k + 1];
        }
      } else {
        DeletedStays(ups, at, next, es[1..], if Deletes(es[0], db.tenants, a) then a else b);
      }
    }
  }

  /** While they wait, migrating either on its own fails, and so does every run over all schemas, whatever
      the order, as long as one of the two is to be migrated. */
  lemma StuckMeans(ups: Scripts, at: Structures, db: Database, order: seq<string>, a: nat, b: nat)
    requires Chained(ups, at) && Sound(at, db) && FreshPair(db, a, b) && Lists(order, RegistryAfter(db))
    ensures Pass(ups, db, Home(db.tenants[a])).Err? && Pass(ups, db, Home(db.tenants[b])).Err?
    ensures Migratable(db.tenants[a]) || Migratable(db.tenants[b]) ==> !ModeB(ups, db, order).ok
  {
    NeitherPasses(ups, at, db, a, b);
    if Migratable(db.tenants[a]) {
      TwoFreshTenantsBlock(ups, at, db, order, a, b);
    } else if Migratable(db.tenants[b]) {
      TwoFreshTenantsBlock(ups, at, db, order, b, a);
    }
  }

  lemma TwoEvents(ups: Scripts, db: Database, d: Event, e: Event, es: seq<Event>)
    ensures After(ups, db, [d, e] + es) == After(ups, Happen(ups, Happen(ups, db, d), e), es)
    ensures CanAll(ups, db, [d, e] + es) <==>
              CanHappen(db, d) && CanHappen(Happen(ups, db, d), e) && CanAll(ups, Happen(ups, Happen(ups, db, d), e), es)
  {
    var all := [d, e] + es;
    assert all[1..] == [e] + es && all[1..][1..] == es;
    assert After(ups, db, all) == After(ups, Happen(ups, db, d), all[1..]);
    assert After(ups, Happen(ups, db, d), all[1..]) == After(ups, Happen(ups, Happen(ups, db, d), e), all[1..][1..]);
  }

  /** `slug` can be registered, and its schema has not got 0002 yet. */
  predicate Newcomer(db: Database, slug: string) {
    && !SlugTaken(db.tenants, slug) && !SchemaTaken(db.tenants, SchemaNameFor(slug))
    && Rev(db, HomeFor(slug)) < 2
  }

  /** Registering two tenants between runs is enough: from then on, whatever else happens short of deleting
      one of them, neither can be migrated, and no run over all schemas gets through while one of them is to
      be migrated. */
  lemma TwoRegistrationsBlock(a: string, b: string, db: Database, es: seq<Event>, order: seq<string>)
    requires Sound(StructureAt, db) && Rev(db, PUBLIC) >= 1 && Newcomer(db, a) && Newcomer(db, b)
    requires HomeFor(a) != HomeFor(b)
    requires CanAll(Up, db, [Register(a), Register(b)] + es) && SoftDelete(a) !in es && SoftDelete(b) !in es
    requires Lists(order, RegistryAfter(After(Up, db, [Register(a), Register(b)] + es)))
    ensures var end := After(Up, db, [Register(a), Register(b)] + es);
            var n := |db.tenants|;
            && n + 1 < |end.tenants| && end.tenants[n].slug == a && end.tenants[n + 1].slug == b
            && Pass(Up, end, HomeFor(a)).Err? && Pass(Up, end, HomeFor(b)).Err?
            && (Migratable(end.tenants[n]) || Migratable(end.tenants[n + 1]) ==> !ModeB(Up, end, order).ok)
  {
    RealChain();
    TwoRegistrationsOf(Up, StructureAt, a, b, db, es, order);
  }

  lemma TwoRegistered(ups: Scripts, at: Structures, a: string, b: string, db: Database)
    requires Chained(ups, at) && Sound(at, db) && Rev(db, PUBLIC) >= 1 && Newcomer(db, a) && Newcomer(db, b)
    requires HomeFor(a) != HomeFor(b)
    ensures var two := Registered(Registered(db, a), b);
            var n := |db.tenants|;
            && Sound(at, two) && |two.tenants| == n + 2 && two.tenants[n].slug == a && two.tenants[n + 1].slug == b
            && two.tenants[n].status == PROVISIONING
            && Home(two.tenants[n]) == HomeFor(a) && Home(two.tenants[n + 1]) == HomeFor(b)
            && FreshPair(two, n, n + 1)
  {
    var one := Registered(db, a);
    RegistryThere(ups, at, db);
    HappenKeepsSound(ups, at, db, Register(a));
    assert one.tenants == db.tenants + [Tenant(a, SchemaNameFor(a), PROVISIONING, false)];
    HappenKeepsSound(ups, at, one, Register(b));
    assert Registered(one, b).tenants == one.tenants + [Tenant(b, SchemaNameFor(b), PROVISIONING, false)];
  }

  lemma {:induction false} RowsStayAll(ups: Scripts, at: Structures, db: Database, es: seq<Event>, k: nat)
    requires Chained(ups, at) && Sound(at, db) && CanAll(ups, db, es) && k < |db.tenants|
    ensures var end := After(ups, db, es);
            k < |end.tenants| && end.tenants[k].slug == db.tenants[k].slug && end.tenants[k].schema == db.tenants[k].schema
    decreases |es|
  {
    if es != [] {
      RowsStay(ups, at, db, es[0], k);
      HappenKeepsSound(ups, at, db, es[0]);
      RowsStayAll(ups, at, Happen(ups, db, es[0]), es[1..], k);
    }
  }

  lemma TwoRegistrationsOf(ups: Scripts, at: Structures, a: string, b: string, db: Database, es: seq<Event>, order: seq<string>)
    requires Chained(ups, at) && Sound(at, db) && Rev(db, PUBLIC) >= 1 && Newcomer(db, a) && Newcomer(db, b)
    requires HomeFor(a) != HomeFor(b)
    requires CanAll(ups, db, [Register(a), Register(b)] + es) && SoftDelete(a) !in es && SoftDelete(b) !in es
    requires Lists(order, RegistryAfter(After(ups, db, [Register(a), Register(b)] + es)))
    ensures var end := After(ups, db, [Register(a), Register(b)] + es);
            var n := |db.tenants|;
            && n + 1 < |end.tenants| && end.tenants[n].slug == a && end.tenants[n + 1].slug == b
            && Pass(ups, end, HomeFor(a)).Err? && Pass(ups, end, HomeFor(b)).Err?
            && (Migratable(end.tenants[n]) || Migratable(end.tenants[n + 1]) ==> !ModeB(ups, end, order).ok)
  {
    var n, two := |db.tenants|, Registered(Registered(db, a), b);
    TwoRegistered(ups, at, a, b, db);
    TwoEvents(ups, db, Register(a), Register(b), es);
    assert NeitherDeleted(es, two.tenants, n, n + 1);
    StuckIff(ups, at, two, es, n, n + 1);
    AlwaysSound(ups, at, two, es);
    RowsStayAll(ups, at, two, es, n);
    RowsStayAll(ups, at, two, es, n + 1);
    StuckMeans(ups, at, After(ups, two, es), order, n, n + 1);
  }

  /** Such a database is reached in three steps from an empty one. */
  lemma BlockedFromTheStart(order: seq<string>)
    ensures CanAll(Up, EmptyDatabase(), ToTheBlock())
    ensures var end := After(Up, EmptyDatabase(), ToTheBlock());
            FreshPair(end, 1, 2) && (Lists(order, RegistryAfter(end)) ==> !ModeB(Up, end, order).ok)
  {
    RealChain();
    BlockedOf(Up, StructureAt, order);
  }

  function ToTheBlock(): seq<Event> {
    [RunAll([ACME.schema])] + ([Register("alpha"), Register("beta")] + [])
  }

  lemma FirstEvent(ups: Scripts, db: Database, e: Event, es: seq<Event>)
    ensures After(ups, db, [e] + es) == After(ups, Happen(ups, db, e), es)
    ensures CanAll(ups, db, [e] + es) <==> CanHappen(db, e) && CanAll(ups, Happen(ups, db, e), es)
  {
    assert ([e] + es)[1..] == es;
  }

  lemma BlockedOf(ups: Scripts, at: Structures, order: seq<string>)
    requires Chained(ups, at)
    ensures CanAll(ups, EmptyDatabase(), ToTheBlock())
    ensures var end := After(ups, EmptyDatabase(), ToTheBlock());
            FreshPair(end, 1, 2) && (Lists(order, RegistryAfter(end)) ==> !ModeB(ups, end, order).ok)
  {
    var run := RunAll([ACME.schema]);
    var one := ModeB(ups, EmptyDatabase(), [ACME.schema]).db;
    AfterFirstRun(ups, at);
    NewNames(ups, at, one);
    TwoRegistered(ups, at, "alpha", "beta", one);
    var end := Registered(Registered(one, "alpha"), "beta");
    FirstEvent(ups, EmptyDatabase(), run, [Register("alpha"), Register("beta")] + []);
    TwoEvents(ups, one, Register("alpha"), Register("beta"), []);
    assert After(ups, EmptyDatabase(), ToTheBlock()) == end;
    if Lists(order, RegistryAfter(end)) {
      assert end.tenants[1].status == PROVISIONING;
      StuckMeans(ups, at, end, order, 1, 2);
    }
  }

  lemma AfterFirstRun(ups: Scripts, at: Structures)
    requires Chained(ups, at)
    ensures var one := ModeB(ups, EmptyDatabase(), [ACME.schema]).db;
            && Lists([ACME.schema], RegistryAfter(EmptyDatabase())) && Sound(at, one) && one.tenants == [ACME] && Rev(one, PUBLIC) == HEAD
            && forall x | x in one.schemas :: x == PUBLIC || x == ACME.schema
  {
    FirstRun(ups, at);
    AcmeNamed();
    OnlyThose(at, ModeB(ups, EmptyDatabase(), [ACME.schema]).db);
  }

  lemma OnlyThose(at: Structures, one: Database)
    requires Finished(at, EmptyDatabase(), one, [ACME.schema])
    ensures Consistent(at, one) && forall x | x in one.schemas :: x == PUBLIC || x == ACME.schema
  {
    assert (set x | x in [ACME.schema]) == {ACME.schema};
  }

  lemma NewNames(ups: Scripts, at: Structures, db: Database)
    requires Chained(ups, at) && Sound(at, db) && db.tenants == [ACME]
    requires forall x | x in db.schemas :: x == PUBLIC || x == ACME.schema
    ensures Newcomer(db, "alpha") && Newcomer(db, "beta")
    ensures HomeFor("alpha") != HomeFor("beta")
  {
    AcmeNamed();
    KeptNamesCollideIff("alpha", "beta");
    KeptNamesCollideIff("alpha", ACME.slug);
    KeptNamesCollideIff("beta", ACME.slug);
    KeptNotPublic("alpha");
    KeptNotPublic("beta");
    assert Replaced("beta"[0]) != Replaced(ACME.slug[0]);
  }

  // ---- Two tenants with one schema -----------------------------------------

  /** 0014's tenant, then one with a slug of 56 characters, migrated, then one with a character more. */
  function ToTheNeighbours(): seq<Event> {
    [RunAll([ACME.schema])] + ([Register(Repeated('a', 56)), RunOne(SchemaNameFor(Repeated('a', 56)))] +
                               ([Register(Repeated('a', 57))] + []))
  }

  /** Both tenants are there, the first's schema is at head, and it is the second's as well. */
  predicate Neighbours(db: Database, a: string, b: string) {
    && |db.tenants| == 3 && db.tenants[1].slug == a && db.tenants[2].slug == b && a != b
    && !db.tenants[1].deleted && !db.tenants[2].deleted
    && Home(db.tenants[1]) == HomeFor(a) == HomeFor(b) == Home(db.tenants[2]) && Rev(db, HomeFor(a)) == HEAD
  }

  lemma FirstMigrated(ups: Scripts, at: Structures, one: Database, a: string)
    requires Chained(ups, at) && Sound(at, one) && one.tenants == [ACME] && Rev(one, PUBLIC) == HEAD
    requires Rev(one, ACME.schema) == HEAD && Newcomer(one, a)
    ensures var r := Pass(ups, Registered(one, a), HomeFor(a));
            && r.Ok? && Sound(at, r.value) && Rev(r.value, PUBLIC) == HEAD && Rev(r.value, HomeFor(a)) == HEAD
            && r.value.tenants == [ACME, Tenant(a, SchemaNameFor(a), PROVISIONING, false)]
  {
    var two := Registered(one, a);
    AcmeNamed();
    KeptNotPublic(a);
    RegistryThere(ups, at, one);
    HappenKeepsSound(ups, at, one, Register(a));
    assert two.tenants == [ACME, Tenant(a, SchemaNameFor(a), PROVISIONING, false)];
    PassIsExact(ups, at, two, HomeFor(a));
  }

  lemma LongNewcomers(ups: Scripts, at: Structures, db: Database)
    requires Chained(ups, at) && Sound(at, db) && db.tenants == [ACME]
    requires forall x | x in db.schemas :: x == PUBLIC || x == ACME.schema
    ensures Newcomer(db, Repeated('a', 56)) && SchemaNameFor(Repeated('a', 57)) != ACME.schema
  {
    var a, b := Repeated('a', 56), Repeated('a', 57);
    AcmeNamed();
    KeptNamesCollideIff(a, ACME.slug);
    KeptNotPublic(a);
    SchemaNamesCollideIff(b, ACME.slug);
    SchemaNamesCollideIff(a, ACME.slug);
  }

  lemma NeighboursReached(ups: Scripts, at: Structures)
    requires Chained(ups, at)
    ensures CanAll(ups, EmptyDatabase(), ToTheNeighbours())
    ensures var end := After(ups, EmptyDatabase(), ToTheNeighbours());
            Sound(at, end) && Neighbours(end, Repeated('a', 56), Repeated('a', 57))
  {
    var a, b := Repeated('a', 56), Repeated('a', 57);
    var run, d, e, f := RunAll([ACME.schema]), Register(a), RunOne(SchemaNameFor(a)), Register(b);
    var one := ModeB(ups, EmptyDatabase(), [ACME.schema]).db;
    AfterFirstRun(ups, at);
    FirstRun(ups, at);
    LongNewcomers(ups, at, one);
    FirstMigrated(ups, at, one, a);
    var three := Pass(ups, Registered(one, a), HomeFor(a)).value;
    FirstEvent(ups, EmptyDatabase(), run, [d, e] + ([f] + []));
    TwoEvents(ups, one, d, e, [f] + []);
    FirstEvent(ups, three, f, []);
    HappenKeepsSound(ups, at, three, f);
    SecondRegistered(ups, at, three, a, b);
  }

  lemma SecondRegistered(ups: Scripts, at: Structures, db: Database, a: string, b: string)
    requires Chained(ups, at) && Sound(at, db) && Rev(db, PUBLIC) == HEAD && Rev(db, HomeFor(a)) == HEAD
    requires db.tenants == [ACME, Tenant(a, SchemaNameFor(a), PROVISIONING, false)]
    requires a == Repeated('a', 56) && b == Repeated('a', 57) && SchemaNameFor(b) != ACME.schema
    ensures Neighbours(Registered(db, b), a, b)
  {
    RegistryThere(ups, at, db);
    LongSlugsCollide();
    assert b != ACME.slug;
    assert Registered(db, b).tenants == db.tenants + [Tenant(b, SchemaNameFor(b), PROVISIONING, false)];
  }
}
