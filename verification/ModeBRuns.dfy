/** Mode B runs: when one succeeds, what it leaves behind, and that a second one does nothing. */
module ModeBRuns {
  import opened Wrappers
  import opened SchemaNames
  import opened Ddl
  import opened FlowTemplates
  import opened TenantNaming
  import opened Databases
  import opened SchemaChain
  import opened ChainStates
  import opened MigrationRunner

  function RowsIn(db: Database, x: string, t: Table): Rows {
    if x in db.schemas then RowsOf(db.schemas[x], t) else []
  }

  /** `start` is `db` with schema `name` created if it was missing. */
  ghost predicate Started(at: Structures, db: Database, start: Database, name: string) {
    && Consistent(at, start) && name in start.schemas && start.tenants == db.tenants && start.audit == db.audit
    && start.schemas.Keys == db.schemas.Keys + {name}
    && (forall x :: Rev(start, x) == Rev(db, x))
    && (forall x, t :: RowsIn(start, x, t) == RowsIn(db, x, t))
  }

  lemma WithSchemaStarted(ups: Scripts, at: Structures, db: Database, name: string)
    requires Chained(ups, at) && Consistent(at, db)
    ensures Started(at, db, WithSchema(db, name), name)
  {
    assert at(name, 0) == map[];
  }

  /** What a pass over schema `name`, found at revision `n`, has done. */
  ghost predicate Passed(at: Structures, db: Database, end: Database, name: string) {
    && Consistent(at, end) && end.audit == db.audit && end.schemas.Keys == db.schemas.Keys + {name}
    && end.tenants == (if Rev(db, name) < 14 && name == PUBLIC then WithAcme(db.tenants) else db.tenants)
    && Rev(end, name) == HEAD
    && (forall x | x != name :: Rev(end, x) == Rev(db, x))
    && (forall x, t :: RowsPassed(db, end, name, x, t))
  }

  predicate RowsPassed(db: Database, end: Database, name: string, x: string, t: Table) {
    if t == ProspectingFlow && Rev(db, name) < 12 && LiveSchema(db.tenants, x) && x in end.schemas then
      RowsIn(end, x, t) == Seeded(RowsIn(db, x, t))
    else
      RowsIn(end, x, t) == Left(RowsIn(db, x, t), x == name && name != PUBLIC && Rev(db, name) < 10, t)
  }

  /** A pass either is refused by 0004, 0012 or 0014 and leaves the database alone, or brings its schema to
      head and changes the structure of no other. */
  lemma PassIsExact(ups: Scripts, at: Structures, db: Database, name: string)
    requires Chained(ups, at) && Consistent(at, db)
    ensures Pass(ups, db, name).Ok? <==> GetsThrough(db, name, Rev(db, name))
    ensures Pass(ups, db, name).Ok? ==> Passed(at, db, Pass(ups, db, name).value, name)
  {
    var start := WithSchema(db, name);
    WithSchemaStarted(ups, at, db, name);
    MigrateIff(ups, at, start, name, Rev(start, name));
    StartedGetsThrough(at, db, start, name);
    if Pass(ups, db, name).Ok? {
      StartedPasses(at, db, start, Pass(ups, db, name).value, name);
    }
  }

  lemma StartedGetsThrough(at: Structures, db: Database, start: Database, name: string)
    requires Started(at, db, start, name)
    ensures GetsThrough(start, name, Rev(start, name)) <==> GetsThrough(db, name, Rev(db, name))
  {
  }

  lemma StartedPasses(at: Structures, db: Database, start: Database, end: Database, name: string)
    requires Started(at, db, start, name) && Migrated(at, start, end, name, Rev(db, name))
    ensures Passed(at, db, end, name)
  {
    forall x, t ensures RowsPassed(db, end, name, x, t) {
      assert RowsIn(start, x, t) == RowsIn(db, x, t);
      assert x in start.schemas ==> RowsKept(start, end, name, Rev(db, name), x, t);
    }
    forall x | x != name ensures Rev(end, x) == Rev(db, x) {
      assert Rev(start, x) == Rev(db, x);
    }
  }

  /** A schema already at head is left exactly as it is. */
  lemma PassAtHead(ups: Scripts, db: Database, name: string)
    requires Rev(db, name) == HEAD
    ensures Pass(ups, db, name) == Ok(db)
  {
  }

  // ---- The tenant passes of a run ------------------------------------------

  predicate SomeSeeded(db: Database, done: seq<string>) {
    exists k | 0 <= k < |done| :: Rev(db, done[k]) < 12
  }

  predicate RowsReached(db: Database, cur: Database, done: seq<string>, x: string, t: Table) {
    if t == ProspectingFlow && SomeSeeded(db, done) && LiveSchema(db.tenants, x) && x in cur.schemas then
      RowsIn(cur, x, t) == Seeded(RowsIn(db, x, t))
    else
      RowsIn(cur, x, t) == Left(RowsIn(db, x, t), x in done && Rev(db, x) < 10, t)
  }

  /** The database after the passes over `done`. */
  ghost predicate Reached(at: Structures, db: Database, cur: Database, done: seq<string>) {
    && Consistent(at, cur) && cur.tenants == db.tenants && cur.audit == db.audit
    && cur.schemas.Keys == db.schemas.Keys + (set x | x in done)
    && (forall x :: Rev(cur, x) == if x in done then HEAD else Rev(db, x))
    && (forall x, t :: RowsReached(db, cur, done, x, t))
  }

  /** Every live tenant has the table 0012 fills by the time the pass over `order[k]` runs it. */
  predicate TurnIsRight(db: Database, order: seq<string>, k: nat)
    requires k < |order|
  {
    Rev(db, order[k]) < 12 ==>
      forall j | 0 <= j < |db.tenants| && !db.tenants[j].deleted ::
        Rev(db, Home(db.tenants[j])) >= 2 || Home(db.tenants[j]) in order[..k + 1]
  }

  lemma SomeSeededMore(db: Database, done: seq<string>, name: string)
    ensures SomeSeeded(db, done + [name]) <==> SomeSeeded(db, done) || Rev(db, name) < 12
  {
    var all := done + [name];
    assert all[|done|] == name;
    assert forall k | 0 <= k < |done| :: all[k] == done[k];
  }

  lemma ReachedNext(at: Structures, db: Database, cur: Database, next: Database, done: seq<string>, name: string)
    requires Reached(at, db, cur, done) && Passed(at, cur, next, name) && name !in done && name != PUBLIC
    requires cur.schemas.Keys <= next.schemas.Keys
    ensures Reached(at, db, next, done + [name])
  {
    var all := done + [name];
    assert Rev(cur, name) == Rev(db, name);
    forall x, t ensures RowsReached(db, next, all, x, t) {
      if t == ProspectingFlow {
        FlowRowsOnward(db, cur, next, done, name, x);
      } else {
        OtherRowsOnward(db, cur, next, done, name, x, t);
      }
    }
    assert next.schemas.Keys == db.schemas.Keys + (set x | x in all);
  }

  lemma OtherRowsOnward(db: Database, cur: Database, next: Database, done: seq<string>, name: string, x: string, t: Table)
    requires t != ProspectingFlow && name != PUBLIC && Rev(cur, name) == Rev(db, name) && name !in done
    requires RowsReached(db, cur, done, x, t) && RowsPassed(cur, next, name, x, t)
    ensures RowsReached(db, next, done + [name], x, t)
  {
  }

  /** A schema that gets the templates in a later pass has either got them already or gets them first. */
  lemma FlowRowsOnward(db: Database, cur: Database, next: Database, done: seq<string>, name: string, x: string)
    requires cur.tenants == db.tenants && Rev(cur, name) == Rev(db, name)
    requires next.schemas.Keys == cur.schemas.Keys + {name}
    requires RowsReached(db, cur, done, x, ProspectingFlow) && RowsPassed(cur, next, name, x, ProspectingFlow)
    ensures RowsReached(db, next, done + [name], x, ProspectingFlow)
  {
    SomeSeededMore(db, done, name);
    SeedingTwice(RowsIn(db, x, ProspectingFlow));
  }

  lemma TurnIff(at: Structures, db: Database, cur: Database, order: seq<string>, k: nat)
    requires k < |order| && Reached(at, db, cur, order[..k]) && order[k] != PUBLIC
    requires Rev(cur, PUBLIC) == HEAD && forall j | 0 <= j < k :: TurnIsRight(db, order, j)
    ensures GetsThrough(cur, order[k], Rev(cur, order[k])) <==> TurnIsRight(db, order, k)
  {
    var name := order[k];
    if name in order[..k] {
      RepeatedTurn(db, order, k);
      return;
    }
    assert order[..k + 1] == order[..k] + [name];
    assert Rev(cur, name) == Rev(db, name);
    forall j | 0 <= j < |db.tenants|
      ensures (Home(db.tenants[j]) == name || Rev(cur, Home(db.tenants[j])) >= 2) <==>
              (Rev(db, Home(db.tenants[j])) >= 2 || Home(db.tenants[j]) in order[..k + 1])
    {
    }
  }

  /** What was right at a schema's first turn is right at the next. */
  lemma RepeatedTurn(db: Database, order: seq<string>, k: nat)
    requires k < |order| && order[k] in order[..k] && forall j | 0 <= j < k :: TurnIsRight(db, order, j)
    ensures TurnIsRight(db, order, k)
  {
    var j :| 0 <= j < k && order[j] == order[k];
    assert TurnIsRight(db, order, j);
    assert order[..k + 1][..j + 1] == order[..j + 1];
  }

  /** A schema met again is left as its first pass left it. */
  lemma ReachedAgain(at: Structures, db: Database, cur: Database, done: seq<string>, name: string)
    requires Reached(at, db, cur, done) && name in done
    ensures Reached(at, db, cur, done + [name])
  {
    var all := done + [name];
    assert forall x :: x in all <==> x in done;
    assert SomeSeeded(db, all) <==> SomeSeeded(db, done) by {
      SomeSeededMore(db, done, name);
    }
    forall x, t ensures RowsReached(db, cur, all, x, t) {
      assert RowsReached(db, cur, done, x, t);
    }
    assert (set x | x in all) == (set x | x in done);
  }

  lemma PassesUnfold(ups: Scripts, cur: Database, order: seq<string>, k: nat)
    requires k < |order| && order[k] != PUBLIC
    ensures Passes(ups, cur, order, k) ==
            (var r := Pass(ups, cur, order[k]); if r.Ok? then Passes(ups, r.value, order, k + 1) else RunResult(cur, false))
  {
  }

  lemma OnePassOnward(ups: Scripts, at: Structures, db: Database, cur: Database, order: seq<string>, k: nat)
    requires Chained(ups, at) && k < |order| && order[k] != PUBLIC && Reached(at, db, cur, order[..k])
    ensures Pass(ups, cur, order[k]).Ok? <==> GetsThrough(cur, order[k], Rev(cur, order[k]))
    ensures Pass(ups, cur, order[k]).Ok? ==> Reached(at, db, Pass(ups, cur, order[k]).value, order[..k + 1])
  {
    var name := order[k];
    PassIsExact(ups, at, cur, name);
    assert order[..k + 1] == order[..k] + [name];
    if Pass(ups, cur, name).Ok? {
      if name in order[..k] {
        PassAtHead(ups, cur, name);
        ReachedAgain(at, db, cur, order[..k], name);
      } else {
        ReachedNext(at, db, cur, Pass(ups, cur, name).value, order[..k], name);
      }
    }
  }

  /** The passes over the rest of `order` all get through exactly when at each turn 0012 finds the
      table in every live tenant's schema. */
  lemma {:induction false} PassesIff(ups: Scripts, at: Structures, db: Database, cur: Database, order: seq<string>, k: nat)
    requires Chained(ups, at) && k <= |order| && Reached(at, db, cur, order[..k]) && Rev(db, PUBLIC) == HEAD
    requires forall j | 0 <= j < |order| :: order[j] != PUBLIC
    requires forall j | 0 <= j < k :: TurnIsRight(db, order, j)
    ensures Passes(ups, cur, order, k).ok <==> forall j | k <= j < |order| :: TurnIsRight(db, order, j)
    ensures Passes(ups, cur, order, k).ok ==> Reached(at, db, Passes(ups, cur, order, k).db, order)
    decreases |order| - k
  {
    if k == |order| {
      assert order[..k] == order;
    } else {
      PassesUnfold(ups, cur, order, k);
      assert Rev(cur, PUBLIC) == HEAD;
      TurnIff(at, db, cur, order, k);
      OnePassOnward(ups, at, db, cur, order, k);
      var r := Pass(ups, cur, order[k]);
      if r.Ok? {
        PassesIff(ups, at, db, r.value, order, k + 1);
      }
    }
  }

  // ---- A whole run ---------------------------------------------------------

  /** The registry the tenants are read from, once the public pass is done. */
  function RegistryAfter(db: Database): seq<Tenant> {
    if Rev(db, PUBLIC) < 14 then WithAcme(db.tenants) else db.tenants
  }

  /** When 0012 runs over `order[k]`, every live tenant of `rows` has its table. */
  predicate TurnFits(db: Database, rows: seq<Tenant>, order: seq<string>, k: nat)
    requires k < |order|
  {
    Rev(db, order[k]) < 12 ==>
      forall j | 0 <= j < |rows| && !rows[j].deleted ::
        Rev(db, Home(rows[j])) >= 2 || Home(rows[j]) in order[..k + 1]
  }

  /** What a caller can check before a Mode B run. */
  predicate RunFits(db: Database, order: seq<string>) {
    && GetsThrough(db, PUBLIC, Rev(db, PUBLIC))
    && forall k | 0 <= k < |order| :: TurnFits(db, RegistryAfter(db), order, k)
  }

  /** Public and every tenant of `order` are at head with head's structure, 0014's tenant is
      registered, and every other schema is as it was, up to the rows 0012 adds; of the rows of the
      schemas migrated only CampaignMetric's are lost, where 0010 had still to run. */
  ghost predicate Finished(at: Structures, db: Database, end: Database, order: seq<string>) {
    && Consistent(at, end) && end.tenants == RegistryAfter(db) && end.audit == db.audit
    && end.schemas.Keys == db.schemas.Keys + {PUBLIC} + (set x | x in order)
    && (forall x :: Rev(end, x) == if x == PUBLIC || x in order then HEAD else Rev(db, x))
    && (forall x, t | t != ProspectingFlow :: RowsIn(end, x, t) == Left(RowsIn(db, x, t), x in order && Rev(db, x) < 10, t))
    && (forall x :: FlowsFinished(db, end, order, x))
  }

  /** Which schemas the passes that ran 0012 have given the templates. */
  predicate FlowsFinished(db: Database, end: Database, order: seq<string>, x: string) {
    var seeded :=
      || (Rev(db, PUBLIC) < 12 && LiveSchema(db.tenants, x) && x in db.schemas)
      || (SomeSeeded(db, order) && LiveSchema(RegistryAfter(db), x) && x in end.schemas);
    RowsIn(end, x, ProspectingFlow) ==
      if seeded then Seeded(RowsIn(db, x, ProspectingFlow)) else RowsIn(db, x, ProspectingFlow)
  }

  lemma FlowsFinishedBy(at: Structures, db: Database, mid: Database, end: Database, order: seq<string>, x: string)
    requires Consistent(at, db) && Passed(at, db, mid, PUBLIC) && Reached(at, mid, end, order)
    requires forall k | 0 <= k < |order| :: order[k] != PUBLIC
    ensures FlowsFinished(db, end, order, x)
  {
    SeedingTwice(RowsIn(db, x, ProspectingFlow));
    assert RowsPassed(db, mid, PUBLIC, x, ProspectingFlow);
    assert RowsReached(mid, end, order, x, ProspectingFlow);
    SeededAlike(db, mid, order);
    assert LiveSchema(db.tenants, x) ==> x != PUBLIC;
  }

  lemma SeededAlike(db: Database, mid: Database, order: seq<string>)
    requires forall k | 0 <= k < |order| :: Rev(mid, order[k]) == Rev(db, order[k])
    ensures SomeSeeded(mid, order) <==> SomeSeeded(db, order)
  {
  }

  lemma OrderSkipsPublic(at: Structures, db: Database, order: seq<string>)
    requires Consistent(at, db) && Lists(order, db.tenants)
    ensures forall j | 0 <= j < |order| :: order[j] != PUBLIC
  {
    forall j | 0 <= j < |order| ensures order[j] != PUBLIC {
      assert order[j] in order && ToMigrate(db.tenants, order[j]);
    }
  }

  lemma AfterPublicReached(at: Structures, mid: Database)
    requires Consistent(at, mid)
    ensures Reached(at, mid, mid, [])
  {
  }

  lemma FinishedBy(at: Structures, db: Database, mid: Database, end: Database, order: seq<string>)
    requires Consistent(at, db) && Passed(at, db, mid, PUBLIC) && Reached(at, mid, end, order)
    requires forall k | 0 <= k < |order| :: order[k] != PUBLIC
    ensures Finished(at, db, end, order)
  {
    forall x ensures FlowsFinished(db, end, order, x) {
      FlowsFinishedBy(at, db, mid, end, order, x);
    }
    forall x, t | t != ProspectingFlow
      ensures RowsIn(end, x, t) == Left(RowsIn(db, x, t), x in order && Rev(db, x) < 10, t)
    {
      assert RowsReached(mid, end, order, x, t) && RowsPassed(db, mid, PUBLIC, x, t);
    }
  }

  lemma TurnsFitIff(db: Database, mid: Database, order: seq<string>, k: nat)
    requires k < |order| && order[k] != PUBLIC && mid.tenants == RegistryAfter(db)
    requires forall x | x != PUBLIC :: Rev(mid, x) == Rev(db, x)
    requires forall j | 0 <= j < |mid.tenants| :: Home(mid.tenants[j]) != PUBLIC
    ensures TurnIsRight(mid, order, k) <==> TurnFits(db, RegistryAfter(db), order, k)
  {
  }

  /** A Mode B run succeeds exactly when the check before it says so, and then public and every
      listed tenant are at head. */
  lemma ModeBIff(ups: Scripts, at: Structures, db: Database, order: seq<string>)
    requires Chained(ups, at) && Consistent(at, db) && Lists(order, RegistryAfter(db))
    ensures ModeB(ups, db, order).ok <==> RunFits(db, order)
    ensures ModeB(ups, db, order).ok ==> Finished(at, db, ModeB(ups, db, order).db, order)
  {
    PassIsExact(ups, at, db, PUBLIC);
    if Pass(ups, db, PUBLIC).Ok? {
      var mid := Pass(ups, db, PUBLIC).value;
      OrderSkipsPublic(at, mid, order);
      AfterPublicReached(at, mid);
      assert order[..0] == [];
      PassesIff(ups, at, mid, mid, order, 0);
      forall k | 0 <= k < |order| ensures TurnIsRight(mid, order, k) <==> TurnFits(db, RegistryAfter(db), order, k) {
        TurnsFitIff(db, mid, order, k);
      }
      if ModeB(ups, db, order).ok {
        FinishedBy(at, db, mid, ModeB(ups, db, order).db, order);
      }
    }
  }

  lemma {:induction false} PassesDoNothing(ups: Scripts, db: Database, order: seq<string>, k: nat)
    requires k <= |order| && forall j | k <= j < |order| :: Rev(db, order[j]) == HEAD
    ensures Passes(ups, db, order, k) == RunResult(db, true)
    decreases |order| - k
  {
    if k < |order| {
      PassAtHead(ups, db, order[k]);
      PassesDoNothing(ups, db, order, k + 1);
    }
  }

  /** Running Mode B again right after a successful run changes nothing at all, in whatever order
      the tenants are listed. */
  lemma SecondRunDoesNothing(ups: Scripts, at: Structures, db: Database, order: seq<string>, again: seq<string>)
    requires Chained(ups, at) && Consistent(at, db) && Lists(order, RegistryAfter(db)) && ModeB(ups, db, order).ok
    requires Lists(again, ModeB(ups, db, order).db.tenants)
    ensures ModeB(ups, ModeB(ups, db, order).db, again) == RunResult(ModeB(ups, db, order).db, true)
  {
    ModeBIff(ups, at, db, order);
    var end := ModeB(ups, db, order).db;
    PassAtHead(ups, end, PUBLIC);
    forall j | 0 <= j < |again| ensures Rev(end, again[j]) == HEAD {
      assert again[j] in again && again[j] in order;
    }
    PassesDoNothing(ups, end, again, 0);
  }

  /** Two tenants that are not deleted, with a schema each, and in neither has 0002 run. */
  predicate FreshPair(db: Database, a: nat, b: nat) {
    && a < |db.tenants| && b < |db.tenants| && !db.tenants[a].deleted && !db.tenants[b].deleted
    && Home(db.tenants[a]) != Home(db.tenants[b])
    && Rev(db, Home(db.tenants[a])) < 2 && Rev(db, Home(db.tenants[b])) < 2
  }

  /** Two tenants waiting for their first migration block each other: whichever comes first, 0012
      in its pass misses the other's table. No order of the run helps. */
  lemma TwoFreshTenantsBlock(ups: Scripts, at: Structures, db: Database, order: seq<string>, a: nat, b: nat)
    requires Chained(ups, at) && Consistent(at, db) && Lists(order, RegistryAfter(db))
    requires FreshPair(db, a, b) && Migratable(db.tenants[a])
    ensures !ModeB(ups, db, order).ok
  {
    ModeBIff(ups, at, db, order);
    var rows := RegistryAfter(db);
    assert rows[a] == db.tenants[a] && rows[b] == db.tenants[b];
    FreshPairMisfits(db, rows, order, a, b);
  }

  lemma {:induction false} FirstTurn(order: seq<string>, x: string) returns (i: nat)
    requires x in order
    ensures i < |order| && order[i] == x && x !in order[..i]
  {
    if order[0] == x {
      i := 0;
    } else {
      var j := FirstTurn(order[1..], x);
      i := j + 1;
      assert order[..i] == [order[0]] + order[1..][..j];
    }
  }

  lemma FreshPairMisfits(db: Database, rows: seq<Tenant>, order: seq<string>, a: nat, b: nat)
    requires a < |rows| && b < |rows| && Lists(order, rows) && Home(rows[a]) != Home(rows[b])
    requires Migratable(rows[a]) && !rows[b].deleted && Rev(db, Home(rows[a])) < 2 && Rev(db, Home(rows[b])) < 2
    ensures exists k | 0 <= k < |order| :: !TurnFits(db, rows, order, k)
  {
    var x, y := Home(rows[a]), Home(rows[b]);
    assert ToMigrate(rows, x);
    var i := FirstTurn(order, x);
    if y in order[..i] {
      var j :| 0 <= j < i && order[j] == y;
      assert x !in order[..j + 1];
      assert !TurnFits(db, rows, order, j);
    } else {
      assert y !in order[..i + 1];
      assert !TurnFits(db, rows, order, i);
    }
  }

  function EmptyDatabase(): Database {
    Database(map[], [], [])
  }

  /** On an empty database the run registers 0014's tenant and migrates it in the same run. */
  lemma FirstRun(ups: Scripts, at: Structures)
    requires Chained(ups, at)
    ensures Lists([ACME.schema], RegistryAfter(EmptyDatabase()))
    ensures ModeB(ups, EmptyDatabase(), [ACME.schema]).ok
    ensures var end := ModeB(ups, EmptyDatabase(), [ACME.schema]).db;
            Rev(end, PUBLIC) == HEAD && Rev(end, ACME.schema) == HEAD && end.tenants == [ACME]
    ensures Finished(at, EmptyDatabase(), ModeB(ups, EmptyDatabase(), [ACME.schema]).db, [ACME.schema])
  {
    var db, order := EmptyDatabase(), [ACME.schema];
    var rows := RegistryAfter(db);
    assert rows == [ACME];
    assert Migratable(rows[0]);
    assert order[0] in order;
    ModeBIff(ups, at, db, order);
    assert order[..1] == order;
  }

  /** The order of the tenants makes no difference to which rows 0012 adds. */
  lemma FlowsWhateverTheOrder(ups: Scripts, at: Structures, db: Database, a: seq<string>, b: seq<string>, x: string)
    requires Chained(ups, at) && Consistent(at, db) && Lists(a, RegistryAfter(db)) && Lists(b, RegistryAfter(db))
    requires ModeB(ups, db, a).ok && ModeB(ups, db, b).ok
    ensures RowsIn(ModeB(ups, db, a).db, x, ProspectingFlow) == RowsIn(ModeB(ups, db, b).db, x, ProspectingFlow)
  {
    ModeBIff(ups, at, db, a);
    ModeBIff(ups, at, db, b);
    FinishedAlike(at, db, ModeB(ups, db, a).db, ModeB(ups, db, b).db, a, b, x);
  }

  lemma FinishedAlike(at: Structures, db: Database, enda: Database, endb: Database, a: seq<string>, b: seq<string>, x: string)
    requires Finished(at, db, enda, a) && Finished(at, db, endb, b) && forall y :: y in a <==> y in b
    ensures RowsIn(enda, x, ProspectingFlow) == RowsIn(endb, x, ProspectingFlow)
  {
    SameSeeded(db, a, b);
    SameSeeded(db, b, a);
    assert FlowsFinished(db, enda, a, x) && FlowsFinished(db, endb, b, x);
  }

  lemma SameSeeded(db: Database, a: seq<string>, b: seq<string>)
    requires forall x | x in a :: x in b
    ensures SomeSeeded(db, a) ==> SomeSeeded(db, b)
  {
    if SomeSeeded(db, a) {
    var k :| 0 <= k < |a| && Rev(db, a[k]) < 12;
    assert a[k] in b;
    }
  }

  // ---- The real migrations -------------------------------------------------

  ghost function StructureAt(name: string, r: nat): Structure {
    if name == PUBLIC then PublicAt(r) else TenantAt(r)
  }

  lemma RealAdvances(name: string, n: nat, pub: set<Table>)
    ensures Advances(Up, StructureAt, name, n, pub)
  {
    if n < HEAD {
      if name == PUBLIC {
        PublicAdvance(n + 1, pub);
      } else if n == 3 && global_llm_config !in pub {
        TenantAtState(n);
        TenantBlocked(TenantAt(n), pub);
      } else {
        TenantAdvance(n + 1, pub);
      }
    }
  }

  lemma RealTables(name: string, r: nat)
    ensures HasTables(StructureAt, name, r)
  {
    if r <= HEAD {
      TenantTablesAt(r);
      PublicTablesAt(r);
    }
  }

  /** Everything proved of the runner holds of migrations 0001 to 0017. */
  lemma RealChain()
    ensures Chained(Up, StructureAt)
  {
    forall name, n, pub ensures Advances(Up, StructureAt, name, n, pub) {
      RealAdvances(name, n, pub);
    }
    forall name, r ensures HasTables(StructureAt, name, r) {
      RealTables(name, r);
    }
    forall name {:trigger StructureAt(name, 0)} ensures StructureAt(name, 0) == map[] {
    }
  }
}
