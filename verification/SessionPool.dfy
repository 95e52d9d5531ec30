/** Request sessions over a pool of reused connections, each connection with a search_path that
    outlives the session that set it. */
module SessionPool {
  import opened Wrappers
  import opened TenantNaming

  type Path = seq<string>

  /** A search_path, and the session whose SET it comes from, if it was one of these sessions. */
  datatype Setting = Setting(path: Path, setter: Option<nat>)

  /** What a statement says: its text, and the table it names without a schema. */
  datatype Sql = Sql(text: string, table: string)

  /** `current` is in force, `committed` is what a rollback returns to; `plans` maps statement texts
      to the schema they were planned against. */
  datatype Connection = Connection(current: Setting, committed: Setting, user: Option<nat>, plans: map<string, Option<string>>)

  /** NEW: before its SET; LOCKED: after it, up to its first commit or rollback; OVER: after that. */
  datatype Phase = NEW | LOCKED | OVER

  datatype Session = Session(schema: string, phase: Phase, conn: Option<nat>)

  /** One executed statement: who, in which phase, under which setting, and the schema it reached. */
  datatype Entry = Entry(session: nat, phase: Phase, sql: Sql, under: Setting, reached: Option<string>)

  datatype State = State(conns: seq<Connection>, sessions: seq<Session>, log: seq<Entry>)

  /** Which tables each schema of the database has. */
  type Tables = map<string, set<string>>

  predicate Has(tables: Tables, schema: string, table: string) {
    schema in tables && table in tables[schema]
  }

  /** The first schema on the path that has the table. */
  function Resolve(tables: Tables, path: Path, table: string): (r: Option<string>)
    ensures r.Some? ==> r.value in path && r.value in tables && table in tables[r.value]
    ensures r.None? ==> forall x | x in path && x in tables :: table !in tables[x]
  {
    if path == [] then None
    else if path[0] in tables && table in tables[path[0]] then Some(path[0])
    else Resolve(tables, path[1..], table)
  }

  /** `SET search_path TO "<schema>", public`, the name cut as PostgreSQL cuts it. */
  function OwnPath(schema: string): Path {
    [Kept(schema), PUBLIC]
  }

  // ---- Steps ---------------------------------------------------------------

  datatype Step =
    | Checkout(s: nat, c: nat)      // the session's next transaction gets this idle connection
    | SetPath(s: nat)               // SET search_path TO "<schema>", public
    | Execute(s: nat, sql: Sql)
    | Commit(s: nat)
    | Rollback(s: nat)              // also what closing a session with a connection does

  predicate Holds(st: State, s: nat) {
    && s < |st.sessions| && st.sessions[s].conn.Some? && st.sessions[s].conn.value < |st.conns|
  }

  predicate Enabled(st: State, step: Step) {
    match step
    case Checkout(s, c) =>
      s < |st.sessions| && st.sessions[s].conn.None? && c < |st.conns| && st.conns[c].user.None?
    case SetPath(s) => Holds(st, s) && st.sessions[s].phase == NEW
    case Execute(s, _) => Holds(st, s) && st.sessions[s].phase != NEW
    case Commit(s) => Holds(st, s)
    case Rollback(s) => Holds(st, s)
  }

  /** The schema a statement reaches on a connection: with `cached`, the one its text was planned
      against before, whatever the path now. */
  function Reach(conn: Connection, tables: Tables, cached: bool, sql: Sql): Option<string> {
    if cached && sql.text in conn.plans then conn.plans[sql.text] else Resolve(tables, conn.current.path, sql.table)
  }

  function Ended(session: Session): Session {
    session.(conn := None, phase := if session.phase == NEW then NEW else OVER)
  }

  function Do(st: State, tables: Tables, cached: bool, step: Step): State
    requires Enabled(st, step)
  {
    match step
    case Checkout(s, c) =>
      st.(conns := st.conns[c := st.conns[c].(user := Some(s))], sessions := st.sessions[s := st.sessions[s].(conn := Some(c))])
    case SetPath(s) =>
      var c := st.sessions[s].conn.value;
      st.(conns := st.conns[c := st.conns[c].(current := Setting(OwnPath(st.sessions[s].schema), Some(s)))],
          sessions := st.sessions[s := st.sessions[s].(phase := LOCKED)])
    case Execute(s, sql) =>
      var c := st.sessions[s].conn.value;
      var reached := Reach(st.conns[c], tables, cached, sql);
      st.(conns := st.conns[c := st.conns[c].(plans := if cached then st.conns[c].plans[sql.text := reached] else st.conns[c].plans)],
          log := st.log + [Entry(s, st.sessions[s].phase, sql, st.conns[c].current, reached)])
    case Commit(s) =>
      var c := st.sessions[s].conn.value;
      st.(conns := st.conns[c := st.conns[c].(committed := st.conns[c].current, user := None)],
          sessions := st.sessions[s := Ended(st.sessions[s])])
    case Rollback(s) =>
      var c := st.sessions[s].conn.value;
      st.(conns := st.conns[c := st.conns[c].(current := st.conns[c].committed, user := None)],
          sessions := st.sessions[s := Ended(st.sessions[s])])
  }

  function Run(st: State, tables: Tables, cached: bool, steps: seq<Step>): State
    decreases |steps|
  {
    if steps == [] then st
    else if Enabled(st, steps[0]) then Run(Do(st, tables, cached, steps[0]), tables, cached, steps[1..])
    else Run(st, tables, cached, steps[1..])
  }

  /** Any connections, idle, with any paths left over from before; any sessions that have not begun. */
  predicate Initial(st: State) {
    && (forall c | 0 <= c < |st.conns| :: st.conns[c].user.None? && st.conns[c].current == st.conns[c].committed
                                          && st.conns[c].current.setter.None? && st.conns[c].plans == map[])
    && (forall s | 0 <= s < |st.sessions| :: st.sessions[s].phase == NEW && st.sessions[s].conn.None?)
    && st.log == []
  }

  // ---- What every step keeps -----------------------------------------------

  /** A setting made by a session names that session's own schema. */
  predicate Honest(setting: Setting, sessions: seq<Session>) {
    setting.setter.Some? ==> setting.setter.value < |sessions| && setting.path == OwnPath(sessions[setting.setter.value].schema)
  }

  predicate ConnOk(st: State, c: nat)
    requires c < |st.conns|
  {
    && Honest(st.conns[c].current, st.sessions) && Honest(st.conns[c].committed, st.sessions)
    && (st.conns[c].user.Some? ==>
          var s := st.conns[c].user.value; s < |st.sessions| && st.sessions[s].conn == Some(c))
    && (st.conns[c].user.None? ==> st.conns[c].current == st.conns[c].committed)
  }

  predicate SessionOk(st: State, s: nat)
    requires s < |st.sessions|
  {
    var session := st.sessions[s];
    && (session.conn.Some? ==> session.conn.value < |st.conns| && st.conns[session.conn.value].user == Some(s))
    && (session.phase == LOCKED ==> session.conn.Some? && st.conns[session.conn.value].current.setter == Some(s))
  }

  predicate EntryOk(st: State, e: Entry) {
    && e.session < |st.sessions| && Honest(e.under, st.sessions) && e.phase != NEW
    && (e.phase == LOCKED ==> e.under.setter == Some(e.session))
  }

  predicate Inv(st: State) {
    && (forall c | 0 <= c < |st.conns| :: ConnOk(st, c))
    && (forall s | 0 <= s < |st.sessions| :: SessionOk(st, s))
    && (forall k | 0 <= k < |st.log| :: EntryOk(st, st.log[k]))
  }

  lemma DoKeepsInv(st: State, tables: Tables, cached: bool, step: Step)
    requires Inv(st) && Enabled(st, step)
    ensures Inv(Do(st, tables, cached, step))
  {
    var next := Do(st, tables, cached, step);
    assert forall s | 0 <= s < |st.sessions| :: SessionOk(st, s) && next.sessions[s].schema == st.sessions[s].schema;
    forall c | 0 <= c < |next.conns| ensures ConnOk(next, c) {
      assert ConnOk(st, c);
    }
    forall s | 0 <= s < |next.sessions| ensures SessionOk(next, s) {
      assert SessionOk(st, s);
    }
    forall k | 0 <= k < |next.log| ensures EntryOk(next, next.log[k]) {
      if k < |st.log| {
        assert EntryOk(st, st.log[k]);
      } else {
        assert SessionOk(st, step.s) && ConnOk(st, st.sessions[step.s].conn.value);
      }
    }
  }

  lemma {:induction false} RunKeepsInv(st: State, tables: Tables, cached: bool, steps: seq<Step>)
    requires Inv(st)
    ensures Inv(Run(st, tables, cached, steps))
    ensures SameSessions(st, Run(st, tables, cached, steps))
    decreases |steps|
  {
    if steps != [] {
      if Enabled(st, steps[0]) {
        DoKeepsInv(st, tables, cached, steps[0]);
        RunKeepsInv(Do(st, tables, cached, steps[0]), tables, cached, steps[1..]);
      } else {
        RunKeepsInv(st, tables, cached, steps[1..]);
      }
    }
  }

  predicate SameSessions(st: State, end: State) {
    |end.sessions| == |st.sessions| && forall s | 0 <= s < |st.sessions| :: end.sessions[s].schema == st.sessions[s].schema
  }

  // ---- Without the plan cache ----------------------------------------------

  predicate Direct(tables: Tables, e: Entry) {
    e.reached == Resolve(tables, e.under.path, e.sql.table)
  }

  /** Over every run without the plan cache, each statement reaches what its table name resolves to
      under the path in force on its connection. */
  lemma {:induction false} UncachedIsDirect(st: State, tables: Tables, steps: seq<Step>)
    requires forall k | 0 <= k < |st.log| :: Direct(tables, st.log[k])
    ensures forall k | 0 <= k < |Run(st, tables, false, steps).log| :: Direct(tables, Run(st, tables, false, steps).log[k])
    decreases |steps|
  {
    if steps != [] {
      if Enabled(st, steps[0]) {
        UncachedIsDirect(Do(st, tables, false, steps[0]), tables, steps[1..]);
      } else {
        UncachedIsDirect(st, tables, steps[1..]);
      }
    }
  }

  /** In every interleaving of any sessions over any connections, with any paths left on them: each
      statement a session executes before its first commit or rollback resolves along its own schema
      and public -- so it reaches its own tenant's table if there is one, and no other tenant's ever.
      Later ones resolve along the path that some session set, not necessarily this one, or that
      was there before all of them. */
  lemma StatementsStayHome(st: State, tables: Tables, steps: seq<Step>, k: nat)
    requires Initial(st) && k < |Run(st, tables, false, steps).log|
    ensures var e := Run(st, tables, false, steps).log[k];
            && e.session < |st.sessions|
            && (e.phase == LOCKED ==> e.reached == Resolve(tables, OwnPath(st.sessions[e.session].schema), e.sql.table))
            && (e.phase == LOCKED && e.reached.Some? ==> e.reached.value in {Kept(st.sessions[e.session].schema), PUBLIC})
            && (e.under.setter.Some? ==>
                  e.under.setter.value < |st.sessions|
                  && e.reached == Resolve(tables, OwnPath(st.sessions[e.under.setter.value].schema), e.sql.table))
  {
    RunKeepsInv(st, tables, false, steps);
    UncachedIsDirect(st, tables, steps);
    var end := Run(st, tables, false, steps);
    assert EntryOk(end, end.log[k]) && Direct(tables, end.log[k]);
  }

  // ---- What a rollback leaves ----------------------------------------------

  predicate ExecutesFor(steps: seq<Step>, s: nat) {
    forall k | 0 <= k < |steps| :: steps[k].Execute? && steps[k].s == s
  }

  lemma {:induction false} ExecutesLeaveConnections(st: State, tables: Tables, s: nat, steps: seq<Step>, rest: seq<Step>)
    requires Holds(st, s) && st.sessions[s].phase != NEW && ExecutesFor(steps, s)
    ensures exists log :: Run(st, tables, false, steps + rest) == Run(st.(log := log), tables, false, rest)
    decreases |steps|
  {
    if steps == [] {
      assert steps + rest == rest && st.(log := st.log) == st;
    } else {
      assert (steps + rest)[0] == steps[0] && (steps + rest)[1..] == steps[1..] + rest;
      var next := Do(st, tables, false, steps[0]);
      assert next == st.(log := next.log) by {
        assert next.conns == st.conns;
      }
      ExecutesLeaveConnections(next, tables, s, steps[1..], rest);
      var log :| Run(next, tables, false, steps[1..] + rest) == Run(next.(log := log), tables, false, rest);
      assert next.(log := log) == st.(log := log);
    }
  }

  /** A session that sets its path, executes any statements and rolls back leaves every connection as
      it found it; only a commit makes its path stay. */
  lemma RollbackLeavesNoTrace(st: State, tables: Tables, s: nat, c: nat, executes: seq<Step>)
    requires Inv(st) && Enabled(st, Checkout(s, c)) && st.sessions[s].phase == NEW && ExecutesFor(executes, s)
    ensures Run(st, tables, false, [Checkout(s, c), SetPath(s)] + (executes + [Rollback(s)])).conns == st.conns
  {
    assert ConnOk(st, c);
    var rest := executes + [Rollback(s)];
    var steps := [Checkout(s, c), SetPath(s)] + rest;
    assert steps[1..] == [SetPath(s)] + rest && steps[1..][1..] == rest;
    var one := Do(st, tables, false, Checkout(s, c));
    var two := Do(one, tables, false, SetPath(s));
    ExecutesLeaveConnections(two, tables, s, executes, [Rollback(s)]);
    var log :| Run(two, tables, false, rest) == Run(two.(log := log), tables, false, [Rollback(s)]);
    assert [Rollback(s)][1..] == [];
    var end := Do(two.(log := log), tables, false, Rollback(s));
    assert Run(two.(log := log), tables, false, [Rollback(s)]) == end;
    assert end.conns == st.conns;
  }

  // ---- With the plan cache, and after the commit ---------------------------

  lemma RunOne(st: State, tables: Tables, cached: bool, steps: seq<Step>)
    requires steps != [] && Enabled(st, steps[0])
    ensures Run(st, tables, cached, steps) == Run(Do(st, tables, cached, steps[0]), tables, cached, steps[1..])
  {
  }

  function TwoTenants(a: string, b: string, left: Path): State {
    State([Connection(Setting(left, None), Setting(left, None), None, map[])],
          [Session(a, NEW, None), Session(b, NEW, None)], [])
  }

  /** What a session does from checkout to its first statement. */
  function Opening(s: nat, sql: Sql): seq<Step> {
    [Checkout(s, 0), SetPath(s), Execute(s, sql)]
  }

  lemma OpeningRuns(st: State, tables: Tables, cached: bool, s: nat, sql: Sql, rest: seq<Step>)
    requires |st.conns| == 1 && st.conns[0].user.None?
    requires s < |st.sessions| && st.sessions[s].conn.None? && st.sessions[s].phase == NEW
    ensures var own := Setting(OwnPath(st.sessions[s].schema), Some(s));
            var conn := st.conns[0].(current := own, user := Some(s));
            var reached := Reach(conn, tables, cached, sql);
            var plans := if cached then conn.plans[sql.text := reached] else conn.plans;
            Run(st, tables, cached, Opening(s, sql) + rest) ==
            Run(State([conn.(plans := plans)],
                      st.sessions[s := Session(st.sessions[s].schema, LOCKED, Some(0))],
                      st.log + [Entry(s, LOCKED, sql, own, reached)]), tables, cached, rest)
  {
    var steps := Opening(s, sql) + rest;
    RunOne(st, tables, cached, steps);
    var one := Do(st, tables, cached, Checkout(s, 0));
    assert steps[1..] == [SetPath(s), Execute(s, sql)] + rest;
    RunOne(one, tables, cached, steps[1..]);
    var two := Do(one, tables, cached, SetPath(s));
    assert steps[1..][1..] == [Execute(s, sql)] + rest;
    RunOne(two, tables, cached, [Execute(s, sql)] + rest);
    assert ([Execute(s, sql)] + rest)[1..] == rest;
    var own := Setting(OwnPath(st.sessions[s].schema), Some(s));
    assert two.conns == [st.conns[0].(current := own, user := Some(s))];
    assert two.sessions == st.sessions[s := Session(st.sessions[s].schema, LOCKED, Some(0))];
    var three := Do(two, tables, cached, Execute(s, sql));
    var conn := st.conns[0].(current := own, user := Some(s));
    var reached := Reach(conn, tables, cached, sql);
    var plans := if cached then conn.plans[sql.text := reached] else conn.plans;
    assert three.conns == [conn.(plans := plans)];
    assert three == State([conn.(plans := plans)], two.sessions, st.log + [Entry(s, LOCKED, sql, own, reached)]);
  }

  lemma CommitRuns(st: State, tables: Tables, cached: bool, s: nat, rest: seq<Step>)
    requires |st.conns| == 1 && Holds(st, s) && st.sessions[s].conn == Some(0) && st.sessions[s].phase == LOCKED
    ensures Run(st, tables, cached, [Commit(s)] + rest) ==
            Run(State([st.conns[0].(committed := st.conns[0].current, user := None)],
                      st.sessions[s := Session(st.sessions[s].schema, OVER, None)], st.log), tables, cached, rest)
  {
    RunOne(st, tables, cached, [Commit(s)] + rest);
    assert ([Commit(s)] + rest)[1..] == rest;
    assert st.conns[0 := st.conns[0].(committed := st.conns[0].current, user := None)] ==
           [st.conns[0].(committed := st.conns[0].current, user := None)];
  }

  /** With plans cached by text alone, two tenants sharing a connection are enough: the second one's
      first statement, inside its own transaction and after its own SET, reaches the first one's
      table. */
  lemma CachedPlansMixTenants(a: string, b: string, left: Path, tables: Tables, sql: Sql)
    requires Kept(a) != Kept(b) && Has(tables, Kept(a), sql.table) && Has(tables, Kept(b), sql.table)
    ensures var log := Run(TwoTenants(a, b, left), tables, true, Opening(0, sql) + ([Commit(0)] + (Opening(1, sql) + []))).log;
            |log| == 2 && log[1].session == 1 && log[1].phase == LOCKED && log[1].reached == Some(Kept(a))
            && !Direct(tables, log[1])
  {
    var st := TwoTenants(a, b, left);
    var tail := Opening(1, sql) + [];
    OpeningRuns(st, tables, true, 0, sql, [Commit(0)] + tail);
    var own := Setting(OwnPath(a), Some(0));
    var conn := st.conns[0].(current := own, user := Some(0), plans := st.conns[0].plans[sql.text := Some(Kept(a))]);
    var one := State([conn], st.sessions[0 := Session(a, LOCKED, Some(0))], st.log + [Entry(0, LOCKED, sql, own, Some(Kept(a)))]);
    assert Resolve(tables, OwnPath(a), sql.table) == Some(Kept(a));
    assert Run(st, tables, true, Opening(0, sql) + ([Commit(0)] + tail)) == Run(one, tables, true, [Commit(0)] + tail);
    CommitRuns(one, tables, true, 0, tail);
    var two := State([conn.(committed := own, user := None)], one.sessions[0 := Session(a, OVER, None)], one.log);
    assert Run(one, tables, true, [Commit(0)] + tail) == Run(two, tables, true, tail);
    OpeningRuns(two, tables, true, 1, sql, []);
    assert Resolve(tables, OwnPath(b), sql.table) == Some(Kept(b));
    assert Reach(two.conns[0].(current := Setting(OwnPath(b), Some(1)), user := Some(1)), tables, true, sql) == Some(Kept(a));
  }

  /** The tenant's own schema has the table; a session along public alone has no schema of its own. */
  predicate OwnHas(tables: Tables, schema: string, table: string) {
    Kept(schema) != PUBLIC && Has(tables, Kept(schema), table)
  }

  /** The first schema on the path that has the table is `x`. */
  predicate MeetsFirst(tables: Tables, path: Path, table: string, x: string) {
    exists i | 0 <= i < |path| ::
      path[i] == x && Has(tables, x, table) && forall j | 0 <= j < i :: !Has(tables, path[j], table)
  }

  predicate MeetsNone(tables: Tables, path: Path, table: string) {
    forall j | 0 <= j < |path| :: !Has(tables, path[j], table)
  }

  lemma {:induction false} ResolveMeets(tables: Tables, path: Path, table: string)
    ensures Resolve(tables, path, table).None? <==> MeetsNone(tables, path, table)
    ensures forall x :: Resolve(tables, path, table) == Some(x) <==> MeetsFirst(tables, path, table, x)
  {
    if path != [] {
      ResolveMeets(tables, path[1..], table);
      assert forall j | 0 < j < |path| :: path[j] == path[1..][j - 1];
      assert forall j | 0 <= j < |path| - 1 :: path[1..][j] == path[j + 1];
      forall x ensures Resolve(tables, path, table) == Some(x) <==> MeetsFirst(tables, path, table, x) {
        MeetsFirstOnward(tables, path, table, x);
      }
    }
  }

  lemma MeetsFirstOnward(tables: Tables, path: Path, table: string, x: string)
    requires path != []
    ensures MeetsFirst(tables, path, table, x) <==>
            if Has(tables, path[0], table) then path[0] == x else MeetsFirst(tables, path[1..], table, x)
  {
    if MeetsFirst(tables, path, table, x) {
      var i :| 0 <= i < |path| && path[i] == x && Has(tables, x, table) && forall j | 0 <= j < i :: !Has(tables, path[j], table);
      if !Has(tables, path[0], table) {
        assert path[1..][i - 1] == x;
        assert forall j | 0 <= j < i - 1 :: path[1..][j] == path[j + 1];
      }
    } else {
      assert forall j | 0 < j < |path| :: path[j] == path[1..][j - 1];
    }
  }

  /** A leftover path leads a tenant's statement where its own would: to its own table if it has one, else to
      public's if that has one, else nowhere. */
  predicate LeadsHome(tables: Tables, path: Path, schema: string, table: string) {
    if OwnHas(tables, schema, table) then MeetsFirst(tables, path, table, Kept(schema))
    else if Has(tables, PUBLIC, table) then MeetsFirst(tables, path, table, PUBLIC)
    else MeetsNone(tables, path, table)
  }

  lemma OwnResolves(tables: Tables, schema: string, table: string)
    ensures Resolve(tables, OwnPath(schema), table) ==
            if OwnHas(tables, schema, table) then Some(Kept(schema))
            else if Has(tables, PUBLIC, table) then Some(PUBLIC) else None
  {
    assert OwnPath(schema)[1..] == [PUBLIC] && [PUBLIC][1..] == [];
  }

  /** When the path on the connection is one that session `x` has set, with `s` the session whose statement it
      is: right exactly if both have the same schema or neither has the table. */
  predicate SafeAfter(tables: Tables, x: string, s: string, table: string) {
    Kept(x) == Kept(s) || (!OwnHas(tables, x, table) && !OwnHas(tables, s, table))
  }

  /** Over every run, for every statement, which after its session's first commit or rollback may meet any
      path: it reaches what its own tenant's path would reach exactly if the session that set the path has
      the same schema or neither of the two has the table; with a path left over from before all sessions,
      exactly if that path meets the tenant's table, or public's for want of one, first. */
  lemma LateStatementIff(st: State, tables: Tables, steps: seq<Step>, k: nat)
    requires Initial(st) && k < |Run(st, tables, false, steps).log|
    ensures var e := Run(st, tables, false, steps).log[k];
            && e.session < |st.sessions| && (e.under.setter.Some? ==> e.under.setter.value < |st.sessions|)
            && (e.reached == Resolve(tables, OwnPath(st.sessions[e.session].schema), e.sql.table) <==>
                  match e.under.setter
                  case Some(x) => SafeAfter(tables, st.sessions[x].schema, st.sessions[e.session].schema, e.sql.table)
                  case None => LeadsHome(tables, e.under.path, st.sessions[e.session].schema, e.sql.table))
  {
    StatementsStayHome(st, tables, steps, k);
    UncachedIsDirect(st, tables, steps);
    var e := Run(st, tables, false, steps).log[k];
    var own := st.sessions[e.session].schema;
    assert Direct(tables, e);
    OwnResolves(tables, own, e.sql.table);
    if e.under.setter.Some? {
      OwnResolves(tables, st.sessions[e.under.setter.value].schema, e.sql.table);
    } else {
      ResolveMeets(tables, e.under.path, e.sql.table);
    }
  }

  /** And it can be wrong: after its commit the first tenant's next statement gets the connection the
      second has used meanwhile, and reaches the second tenant's table. */
  lemma LateStatementsStray(a: string, b: string, left: Path, tables: Tables, sql: Sql)
    requires Kept(a) != Kept(b) && Has(tables, Kept(a), sql.table) && Has(tables, Kept(b), sql.table)
    ensures var steps := Opening(0, sql) + ([Commit(0)] + (Opening(1, sql) + ([Commit(1)] + [Checkout(0, 0), Execute(0, sql)])));
            var log := Run(TwoTenants(a, b, left), tables, false, steps).log;
            |log| == 3 && log[2].session == 0 && log[2].phase == OVER && log[2].reached == Some(Kept(b))
  {
    var st := TwoTenants(a, b, left);
    var last := [Checkout(0, 0), Execute(0, sql)];
    OpeningRuns(st, tables, false, 0, sql, [Commit(0)] + (Opening(1, sql) + ([Commit(1)] + last)));
    var own := Setting(OwnPath(a), Some(0));
    var conn := st.conns[0].(current := own, user := Some(0));
    var r := Resolve(tables, OwnPath(a), sql.table);
    var one := State([conn], st.sessions[0 := Session(a, LOCKED, Some(0))], st.log + [Entry(0, LOCKED, sql, own, r)]);
    CommitRuns(one, tables, false, 0, Opening(1, sql) + ([Commit(1)] + last));
    var two := State([conn.(committed := own, user := None)], one.sessions[0 := Session(a, OVER, None)], one.log);
    OpeningRuns(two, tables, false, 1, sql, [Commit(1)] + last);
    var other := Setting(OwnPath(b), Some(1));
    var q := Resolve(tables, OwnPath(b), sql.table);
    assert q == Some(Kept(b));
    var three := State([two.conns[0].(current := other, user := Some(1))],
                       two.sessions[1 := Session(b, LOCKED, Some(0))], two.log + [Entry(1, LOCKED, sql, other, q)]);
    CommitRuns(three, tables, false, 1, last);
    var four := State([three.conns[0].(committed := other, user := None)], three.sessions[1 := Session(b, OVER, None)], three.log);
    LateStatementRuns(four, tables, sql);
  }

  lemma LateStatementRuns(st: State, tables: Tables, sql: Sql)
    requires |st.conns| == 1 && st.conns[0].user.None? && |st.sessions| == 2
    requires st.sessions[0].conn.None? && st.sessions[0].phase == OVER
    ensures Run(st, tables, false, [Checkout(0, 0), Execute(0, sql)]).log ==
            st.log + [Entry(0, OVER, sql, st.conns[0].current, Resolve(tables, st.conns[0].current.path, sql.table))]
  {
    var steps := [Checkout(0, 0), Execute(0, sql)];
    RunOne(st, tables, false, steps);
    var one := Do(st, tables, false, steps[0]);
    assert steps[1..] == [Execute(0, sql)];
    RunOne(one, tables, false, steps[1..]);
    assert steps[1..][1..] == [];
  }

  // ---- The pool as the program holds it ------------------------------------

  class Pool {
    const tables: Tables
    const cached: bool
    var conns: seq<Connection>
    var sessions: seq<Session>
    var log: seq<Entry>

    function Now(): State
      reads this
    {
      State(conns, sessions, log)
    }

    /** `_build_engine`: the statement cache has size 0. */
    constructor (tables: Tables, conns: seq<Connection>, sessions: seq<Session>)
      ensures this.tables == tables && !cached && Now() == State(conns, sessions, [])
    {
      this.tables := tables;
      cached := false;
      this.conns := conns;
      this.sessions := sessions;
      log := [];
    }

    method Checkout(s: nat, c: nat)
      requires Enabled(Now(), Step.Checkout(s, c))
      modifies this
      ensures Now() == Do(old(Now()), tables, cached, Step.Checkout(s, c))
    {
      conns := conns[c := conns[c].(user := Some(s))];
      sessions := sessions[s := sessions[s].(conn := Some(c))];
    }

    /** `get_db`: the SET is the session's first statement. */
    method GetDb(s: nat, c: nat)
      requires Enabled(Now(), Step.Checkout(s, c)) && sessions[s].phase == NEW
      modifies this
      ensures |sessions| == |old(sessions)| && |conns| == |old(conns)|
      ensures Now() == Run(old(Now()), tables, cached, [Step.Checkout(s, c), Step.SetPath(s)])
      ensures sessions[s].phase == LOCKED && sessions[s].conn == Some(c)
      ensures conns[c].current == Setting(OwnPath(sessions[s].schema), Some(s))
    {
      ghost var steps := [Step.Checkout(s, c), Step.SetPath(s)];
      RunOne(Now(), tables, cached, steps);
      assert steps[1..] == [Step.SetPath(s)];
      Checkout(s, c);
      RunOne(Now(), tables, cached, [Step.SetPath(s)]);
      assert [Step.SetPath(s)][1..] == [];
      conns := conns[c := conns[c].(current := Setting(OwnPath(sessions[s].schema), Some(s)))];
      sessions := sessions[s := sessions[s].(phase := LOCKED)];
    }

    method Execute(s: nat, sql: Sql) returns (reached: Option<string>)
      requires Enabled(Now(), Step.Execute(s, sql))
      modifies this
      ensures Now() == Do(old(Now()), tables, cached, Step.Execute(s, sql))
      ensures reached == log[|log| - 1].reached
    {
      var c := sessions[s].conn.value;
      reached := Reach(conns[c], tables, cached, sql);
      log := log + [Entry(s, sessions[s].phase, sql, conns[c].current, reached)];
      conns := conns[c := conns[c].(plans := if cached then conns[c].plans[sql.text := reached] else conns[c].plans)];
    }

    method Commit(s: nat)
      requires Enabled(Now(), Step.Commit(s))
      modifies this
      ensures Now() == Do(old(Now()), tables, cached, Step.Commit(s))
    {
      var c := sessions[s].conn.value;
      conns := conns[c := conns[c].(committed := conns[c].current, user := None)];
      sessions := sessions[s := Ended(sessions[s])];
    }

    method Rollback(s: nat)
      requires Enabled(Now(), Step.Rollback(s))
      modifies this
      ensures Now() == Do(old(Now()), tables, cached, Step.Rollback(s))
    {
      var c := sessions[s].conn.value;
      conns := conns[c := conns[c].(current := conns[c].committed, user := None)];
      sessions := sessions[s := Ended(sessions[s])];
    }
  }
}
