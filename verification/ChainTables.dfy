/** Which tables a tenant schema has after each migration. */
module ChainTables {
  import opened SchemaNames
  import opened Ddl
  import opened DdlPrograms
  import opened GuardedMoves
  import opened TenantTables
  import opened Catalogue0002
  import opened ColumnRenames
  import opened TenantMigrations
  import opened MigrationReplay
  import opened SchemaChain
  import opened ChainStates

  /** The migration that creates the table in a tenant schema. */
  function Since(t: Table): nat {
    if Position(t) < 50 then 2
    else if t == roles || t == role_permissions || t == support_tickets || t == support_messages then 3
    else if t == user_sender_identities || t == user_email_quotas then 5
    else if t == usage_events || t == cost_summaries then 6
    else if t == consents || t == consent_logs then 7
    else if t == CrmSyncLog then 13
    else HEAD + 1
  }

  /** 0010 drops one of them again. */
  predicate TenantHas(r: nat, t: Table) {
    Since(t) <= r && (t == CampaignMetric ==> r < 10)
  }

  // ---- What one program does to the tables ---------------------------------

  predicate Opens(m: Move, t: Table) {
    m.NewTable? && m.t == t
  }

  predicate TableIn(ms: seq<Move>, t: Table) {
    exists k | 0 <= k < |ms| :: Opens(ms[k], t)
  }

  ghost predicate AddsTables(ms: seq<Move>, s: Structure, r: Structure) {
    forall t :: Tab(t) in r <==> Tab(t) in s || TableIn(ms, t)
  }

  lemma StepTables(m: Move, s: Structure, pub: set<Table>)
    requires WellFormed(s) && RunStep(StepOf(m), s, pub).Ok?
    ensures var r := RunStep(StepOf(m), s, pub).value;
            WellFormed(r) && s.Keys <= r.Keys && forall t :: Tab(t) in r <==> Tab(t) in s || Opens(m, t)
  {
    MoveCreates(m);
    StepAdditive(StepOf(m), s, pub);
  }

  /** A list of guarded moves that gets through leaves the tables there were and those it opens. */
  lemma {:induction false} MovesTables(ms: seq<Move>, s: Structure, pub: set<Table>)
    requires WellFormed(s) && Exec(Steps(ms), s, pub).Ok?
    ensures var r := Exec(Steps(ms), s, pub).value; s.Keys <= r.Keys && AddsTables(ms, s, r)
    decreases |ms|
  {
    if ms != [] {
      assert Steps(ms)[0] == StepOf(ms[0]) && Steps(ms)[1..] == Steps(ms[1..]);
      StepTables(ms[0], s, pub);
      MovesTables(ms[1..], RunStep(StepOf(ms[0]), s, pub).value, pub);
      forall t ensures TableIn(ms, t) <==> Opens(ms[0], t) || TableIn(ms[1..], t) {
        assert forall k | 0 < k < |ms| :: ms[k] == ms[1..][k - 1];
        assert forall k | 0 <= k < |ms| - 1 :: ms[1..][k] == ms[k + 1];
      }
    }
  }

  lemma TableInAppend(a: seq<Move>, b: seq<Move>, t: Table)
    ensures TableIn(a + b, t) <==> TableIn(a, t) || TableIn(b, t)
  {
    assert forall k | 0 <= k < |a| :: (a + b)[k] == a[k];
    assert forall k | 0 <= k < |b| :: (a + b)[|a| + k] == b[k];
  }

  lemma {:induction false} FlipsKeepTables(s: Structure, xs: seq<Rename>, t: Table)
    ensures Tab(t) in FlipAll(s, xs) <==> Tab(t) in s
    decreases |xs|
  {
    if xs != [] {
      FlipsKeepTables(Flip(s, xs[0]), xs[1..], t);
    }
  }

  // ---- Which tables each list opens ----------------------------------------

  lemma Opens0002(c: Catalogue, t: Table)
    requires Listed(c)
    ensures TableIn(UpgradeMoves(c), t) <==> Position(t) < 50
  {
    var ms, n := UpgradeMoves(c), |c.enums|;
    assert forall k | 0 <= k < n :: ms[k] == NewEnum(c.enums[k]);
    assert forall k | 0 <= k < |c.blocks| :: ms[n + k] == BlockMove(c.blocks[k]);
    if HasTable(c, t) {
      var k :| 0 <= k < |c.blocks| && c.blocks[k].t == t;
      assert Opens(ms[n + k], t);
    }
    if TableIn(ms, t) {
      var k :| 0 <= k < |ms| && Opens(ms[k], t);
      assert ms[k] == BlockMove(c.blocks[k - n]);
    }
  }

  lemma Opens0003(t: Table)
    ensures TableIn(Moves0003(), t) <==> Since(t) == 3
  {
    var ms := Moves0003();
    assert Opens(ms[0], roles) && Opens(ms[1], role_permissions) && Opens(ms[2], support_tickets) && Opens(ms[3], support_messages);
  }

  lemma OpensNothing(t: Table)
    ensures !TableIn(Moves0004(), t) && !TableIn(Owners0005(), t) && !TableIn(Prospects0007(), t)
    ensures !TableIn(Moves0011(), t) && !TableIn(Moves0016(), t) && !TableIn(Moves0017(), t)
  {
  }

  lemma Opens0005(t: Table)
    ensures TableIn(Moves0005(), t) <==> Since(t) == 5
  {
    assert Opens(Identities0005()[0], user_sender_identities) && Opens(Quotas0005()[0], user_email_quotas);
    OpensNothing(t);
    TableInAppend(Owners0005() + Identities0005(), Quotas0005(), t);
    TableInAppend(Owners0005(), Identities0005(), t);
  }

  lemma Opens0006(t: Table)
    ensures TableIn(Moves0006(), t) <==> Since(t) == 6
  {
    assert Opens(Usage0006()[0], usage_events) && Opens(Summaries0006()[0], cost_summaries);
    TableInAppend(Usage0006(), Summaries0006(), t);
  }

  lemma Opens0007(t: Table)
    ensures TableIn(Moves0007(), t) <==> Since(t) == 7
  {
    assert Opens(Consents0007()[0], consents) && Opens(Consents0007()[1], consent_logs);
    OpensNothing(t);
    TableInAppend(Prospects0007(), Consents0007(), t);
  }

  lemma Opens0013(t: Table)
    ensures TableIn(Moves0013(), t) <==> Since(t) == 13
  {
    assert Opens(Moves0013()[0], CrmSyncLog);
  }

  /** The moves migration `n` consists of, where it consists of guarded moves. */
  function MovesOf(n: nat): seq<Move> {
    match n
    case 2 => UpgradeMoves(Tables0002())
    case 3 => Moves0003()
    case 4 => Moves0004()
    case 5 => Moves0005()
    case 6 => Moves0006()
    case 7 => Moves0007()
    case 11 => Moves0011()
    case 16 => Moves0016()
    case 17 => Moves0017()
    case _ => []
  }

  lemma MovesOpen(n: nat, t: Table)
    requires n <= HEAD && n != 13
    ensures TableIn(MovesOf(n), t) <==> Since(t) == n
  {
    match n
    case 2 => Tables0002Listed(); Opens0002(Tables0002(), t);
    case 3 => Opens0003(t);
    case 5 => Opens0005(t);
    case 6 => Opens0006(t);
    case 7 => Opens0007(t);
    case _ => OpensNothing(t);
  }

  lemma UpIsMoves(n: nat)
    requires n <= HEAD && n != 10 && n != 13 && n != 15
    ensures TenantUp(n) == Steps(MovesOf(n))
  {
    if n == 2 {
      UpgradeIsMoves(Tables0002());
    }
  }

  // ---- Along the chain -----------------------------------------------------

  /** What is there before migration `n`, and what comes in with it. */
  ghost predicate TablesStep(n: nat, s: Structure, r: Structure) {
    forall t :: Tab(t) in r <==> (Tab(t) in s || Since(t) == n) && !(n == 10 && t == CampaignMetric)
  }

  lemma StepsTables(ms: seq<Move>, n: nat, s: Structure, pub: set<Table>)
    requires WellFormed(s) && n != 10 && Exec(Steps(ms), s, pub).Ok?
    requires forall t :: TableIn(ms, t) <==> Since(t) == n
    ensures TablesStep(n, s, Exec(Steps(ms), s, pub).value) && Keeps(s, Exec(Steps(ms), s, pub).value)
  {
    MovesTables(ms, s, pub);
  }

  lemma DropTables(s: Structure, pub: set<Table>)
    requires TenantState(9, s)
    ensures Exec(Up0010(), s, pub).Ok? && TablesStep(10, s, Exec(Up0010(), s, pub).value)
    ensures Keeps(s, Exec(Up0010(), s, pub).value)
  {
    DropUnreferenced(s, CampaignMetric, pub);
    DropMetric(s, pub);
    var r := Exec(Up0010(), s, pub).value;
    forall t ensures Tab(t) in r <==> Tab(t) in s && t != CampaignMetric {
      assert t == CampaignMetric || !Volatile(Tab(t));
    }
  }

  lemma RenamesTables(s: Structure, pub: set<Table>)
    requires TenantState(14, s)
    ensures Exec(Up0015(), s, pub).Ok? && TablesStep(15, s, Exec(Up0015(), s, pub).value)
    ensures Keeps(s, Exec(Up0015(), s, pub).value)
  {
    var xs := Renames0015();
    RenameStepsRun(xs, s, pub);
    RenamesAreVolatile();
    FlipAllKeeps(s, xs);
    forall t ensures Tab(t) in FlipAll(s, xs) <==> Tab(t) in s {
      FlipsKeepTables(s, xs, t);
    }
  }

  lemma LogTables(s: Structure, pub: set<Table>)
    requires TenantState(12, s)
    ensures Exec(Up0013(), s, pub).Ok? && TablesStep(13, s, Exec(Up0013(), s, pub).value)
    ensures Keeps(s, Exec(Up0013(), s, pub).value)
  {
    LogPart();
    AllMadeFrom(Moves0013(), 0, 130);
    UnguardedPartRuns(Moves0013(), 130, {}, s, 129, pub);
    UnguardedSucceedsSame(Moves0013(), s, pub);
    forall t ensures TableIn(Moves0013(), t) <==> Since(t) == 13 {
      Opens0013(t);
    }
    StepsTables(Moves0013(), 13, s, pub);
  }

  lemma UpTables(n: nat, s: Structure)
    requires 1 <= n <= HEAD && TenantState(n - 1, s)
    ensures Exec(TenantUp(n), s, {global_llm_config}).Ok?
    ensures var r := Exec(TenantUp(n), s, {global_llm_config}).value;
            TenantState(n, r) && TablesStep(n, s, r) && Keeps(s, r)
  {
    TenantStep(n, s, {global_llm_config});
    if n == 10 {
      DropTables(s, {global_llm_config});
    } else if n == 13 {
      LogTables(s, {global_llm_config});
    } else if n == 15 {
      RenamesTables(s, {global_llm_config});
    } else {
      UpIsMoves(n);
      forall t ensures TableIn(MovesOf(n), t) <==> Since(t) == n {
        MovesOpen(n, t);
      }
      StepsTables(MovesOf(n), n, s, {global_llm_config});
    }
  }

  ghost predicate TablesAre(r: nat, s: Structure) {
    forall t :: Tab(t) in s <==> TenantHas(r, t)
  }

  /** Exactly the tables of a tenant schema at each revision. */
  lemma {:induction false} TablesAt(r: nat)
    requires r <= HEAD
    ensures TablesAre(r, TenantAt(r))
  {
    if r > 0 {
      TablesAt(r - 1);
      TenantAtState(r - 1);
      UpTables(r, TenantAt(r - 1));
    }
  }

  // ---- The columns of Prospect that 0007 adds ------------------------------

  function ErasureColumns(): set<Obj> {
    {Col(Prospect, deleted_at), Col(Prospect, anonymized), Col(Prospect, consent_status)}
  }

  lemma ColumnsMade()
    ensures ErasureColumns() <= AllMade(Prospects0007(), 0)
    ensures forall o | o in ErasureColumns() :: !Volatile(o) && Place(o) == 70
  {
  }

  /** What the first part of a migration makes is there after the second. */
  lemma FirstPartStays(a: seq<Move>, b: seq<Move>, n: nat, base: set<Obj>, s: Structure, m: nat, pub: set<Table>)
    requires AllFrom(a, n) && AllReady(a, 0, base, {}) && WellFormed(s) && Upto(s, m) && m < n && base <= s.Keys
    requires Exec(Steps(a + b), s, pub).Ok?
    ensures AllMade(a, 0) <= Exec(Steps(a + b), s, pub).value.Keys
  {
    PartRuns(a, n, base, {}, s, m, pub);
    TwoParts(a, b, s, pub);
    MovesTables(b, Exec(Steps(a), s, pub).value, pub);
  }

  lemma ColumnsAfter0007(s: Structure)
    requires TenantState(6, s) && Exec(TenantUp(7), s, {global_llm_config}).Ok?
    ensures ErasureColumns() <= Exec(TenantUp(7), s, {global_llm_config}).value.Keys
  {
    ProspectsFrom();
    ProspectsReady();
    ColumnsMade();
    FirstPartStays(Prospects0007(), Consents0007(), 70, {Tab(Prospect)}, s, 69, {global_llm_config});
  }

  lemma {:induction false} ColumnsAt(r: nat)
    requires r <= HEAD
    ensures ErasureColumns() <= TenantAt(r).Keys <==> r >= 7
  {
    TenantAtState(r);
    ColumnsMade();
    if r < 7 {
      assert Col(Prospect, deleted_at) in ErasureColumns();
    } else {
      TenantAtState(r - 1);
      if r == 7 {
        UpTables(7, TenantAt(6));
        ColumnsAfter0007(TenantAt(6));
      } else {
        ColumnsAt(r - 1);
        UpTables(r, TenantAt(r - 1));
      }
    }
  }
}
