/** What a schema looks like after each migration, and that the next migration runs on it. */
module ChainStates {
  import opened Wrappers
  import opened SchemaNames
  import opened Ddl
  import opened DdlPrograms
  import opened GuardedMoves
  import opened DdlRoundTrip
  import opened TenantTables
  import opened Catalogue0002
  import opened ColumnRenames
  import opened TenantMigrations
  import opened MigrationReplay
  import opened PublicMigrations
  import opened SchemaChain

  /** Every object comes from a part of the chain up to `n`. */
  predicate Upto(s: Structure, n: nat) {
    forall o | o in s :: Place(o) <= n
  }

  // ---- One part ------------------------------------------------------------

  lemma PartRuns(ms: seq<Move>, n: nat, base: set<Obj>, pub0: set<Table>, s: Structure, m: nat, pub: set<Table>)
    requires AllFrom(ms, n) && AllReady(ms, 0, base, pub0)
    requires WellFormed(s) && Upto(s, m) && m < n && base <= s.Keys && pub0 <= pub
    ensures Exec(Steps(ms), s, pub).Ok?
    ensures var r := Exec(Steps(ms), s, pub).value;
            WellFormed(r) && Extends(s, r) && Upto(r, n) && r.Keys == s.Keys + AllMade(ms, 0)
    ensures forall o | o in AllMade(ms, 0) :: Place(o) == n
  {
    AllMadeFrom(ms, 0, n);
    ReadyMovesSucceed(ms, base, pub0, s, pub);
  }

  lemma UnguardedPartRuns(ms: seq<Move>, n: nat, base: set<Obj>, s: Structure, m: nat, pub: set<Table>)
    requires AllFrom(ms, n) && AllReady(ms, 0, base, {})
    requires WellFormed(s) && Upto(s, m) && m < n && base <= s.Keys
    ensures Exec(Unguarded(ms), s, pub).Ok?
    ensures var r := Exec(Unguarded(ms), s, pub).value;
            WellFormed(r) && Extends(s, r) && Upto(r, n) && r.Keys == s.Keys + AllMade(ms, 0)
    ensures forall o | o in AllMade(ms, 0) :: Place(o) == n
  {
    AllMadeFrom(ms, 0, n);
    UnguardedSucceeds(ms, base, s, pub);
  }

  // ---- Tenant side ---------------------------------------------------------

  function TenantBase(): set<Obj> {
    IntegrationTables() +
    {Tab(Campaign), Tab(Sequence), Tab(Prospect), Tab(LinkedInEngagement), Tab(ProspectingFlow)}
  }

  predicate MetricUnreferenced(s: Structure) {
    !ReferencedElsewhere(s, CampaignMetric)
  }

  /** A tenant schema that has gone through migrations 1 to `r` and no others. */
  predicate TenantState(r: nat, s: Structure) {
    && WellFormed(s) && Upto(s, 10 * r + 9)
    && (r < 2 ==> s == map[])
    && (r >= 2 ==> TenantBase() <= s.Keys)
    && (Tab(CampaignMetric) in s <==> 2 <= r < 10)
    && MetricUnreferenced(s)
  }

  ghost function NotMetric(): iset<(Table, Table)> {
    iset p: (Table, Table) | p.1 != CampaignMetric
  }

  lemma RefsSpareMetric(s: Structure, r: Structure)
    requires WellFormed(s) && WellFormed(r) && Extends(s, r) && MetricUnreferenced(s) && RefsWithin(s, r, NotMetric())
    ensures MetricUnreferenced(r)
  {
    forall o | o in r && !OwnedBy(o, CampaignMetric) ensures !RefersTo(r[o], CampaignMetric) {
      assert ObjectOk(r, o);
      assert o in s ==> !RefersTo(s[o], CampaignMetric);
    }
  }

  lemma {:induction false} NothingEarlier(ms: seq<Move>, k: nat, n: nat, o: Obj)
    requires k <= |ms| && AllFrom(ms, n) && Place(o) != n
    ensures !MadeEarlier(ms, k, o)
    decreases k
  {
    if k > 0 {
      assert MoveFrom(ms[k - 1], n);
      MadeFrom(ms[k - 1], n);
      MakesMade(ms[k - 1], o);
      NothingEarlier(ms, k - 1, n, o);
    }
  }

  lemma {:induction false} ReadyAt(ms: seq<Move>, j: nat, k: nat, base: set<Obj>, pub: set<Table>)
    requires j <= k < |ms| && AllReady(ms, j, base, pub)
    ensures Ready(ms, k, base, pub)
    decreases k - j
  {
    if j < k { ReadyAt(ms, j + 1, k, base, pub); }
  }

  /** A part never references CampaignMetric: it is neither in its base nor made by it. */
  lemma PartSparesMetric(ms: seq<Move>, n: nat, base: set<Obj>, pub: set<Table>)
    requires AllFrom(ms, n) && AllReady(ms, 0, base, pub) && n != 20 && Tab(CampaignMetric) !in base
    ensures forall k | 0 <= k < |ms| :: MoveRefs(ms[k], NotMetric())
  {
    forall k | 0 <= k < |ms| ensures MoveRefs(ms[k], NotMetric()) {
      ReadyAt(ms, 0, k, base, pub);
      NothingEarlier(ms, k, n, Tab(CampaignMetric));
    }
  }

  /** Later parts only add, and nothing of 0002's. */
  predicate Grown(s: Structure, r: Structure) {
    Extends(s, r) && forall o | o in r && o !in s :: Place(o) > 20
  }

  /** One additive part of the tenant chain after 0002. */
  lemma TenantPart(ms: seq<Move>, n: nat, base: set<Obj>, pub0: set<Table>, s: Structure, m: nat, pub: set<Table>)
    requires AllFrom(ms, n) && AllReady(ms, 0, base, pub0) && n > 29 && base <= TenantBase() && pub0 <= pub
    requires WellFormed(s) && Upto(s, m) && m < n && TenantBase() <= s.Keys && MetricUnreferenced(s)
    ensures Exec(Steps(ms), s, pub).Ok?
    ensures var r := Exec(Steps(ms), s, pub).value;
            && WellFormed(r) && Upto(r, n) && TenantBase() <= r.Keys && MetricUnreferenced(r)
            && (Tab(CampaignMetric) in r <==> Tab(CampaignMetric) in s) && Grown(s, r)
  {
    PartRuns(ms, n, base, pub0, s, m, pub);
    BaseLacksMetric();
    PartSparesMetric(ms, n, base, pub0);
    MovesRefsWithin(ms, s, pub, NotMetric());
    RefsSpareMetric(s, Exec(Steps(ms), s, pub).value);
    assert Place(Tab(CampaignMetric)) == 20;
  }

  lemma BaseLacksMetric()
    ensures Tab(CampaignMetric) !in TenantBase()
  {
  }

  lemma TwoParts(a: seq<Move>, b: seq<Move>, s: Structure, pub: set<Table>)
    ensures Exec(Steps(a + b), s, pub) ==
            (var r := Exec(Steps(a), s, pub); if r.Ok? then Exec(Steps(b), r.value, pub) else r)
  {
    StepsAppend(a, b);
    ExecAppend(Steps(a), Steps(b), s, pub);
  }

  // ---- 0002 ----------------------------------------------------------------

  lemma TablesPlaced(t: Table)
    requires Position(t) < 50
    ensures TablePlace(t) == 20
  {
  }

  lemma KeysSpareMetric(t: Table)
    requires Position(t) < 50
    ensures forall x | x in Columns(t) ::
              Columns(t)[x].fk.NoKey? || (Columns(t)[x].fk.Unqualified? && Columns(t)[x].fk.r != CampaignMetric)
  {
    AllTablesFit(t);
    forall x | x in Columns(t)
      ensures Columns(t)[x].fk.NoKey? || (Columns(t)[x].fk.Unqualified? && Columns(t)[x].fk.r != CampaignMetric)
    {
      assert ColumnFits(t, Columns(t)[x]);
    }
  }

  predicate LateColumn(c: Column) {
    c == owner_user_id || c == key_source || c == api_key_encrypted || c == global_llm_config_id ||
    c == consent_status || c == lawful_basis || c == deleted_at || c == anonymized ||
    c == isIcpMatch || c == suggestedNote || c == mailbridge_api_key || c == mailbridge_external_user_id
  }

  lemma NoneLate(t: Table, c: Column)
    requires Has(t, c)
    ensures !LateColumn(c)
  {
    assert !Has(t, owner_user_id) && !Has(t, key_source) && !Has(t, api_key_encrypted) && !Has(t, global_llm_config_id);
    assert !Has(t, consent_status) && !Has(t, lawful_basis) && !Has(t, deleted_at) && !Has(t, anonymized);
    assert !Has(t, isIcpMatch) && !Has(t, suggestedNote) && !Has(t, mailbridge_api_key) && !Has(t, mailbridge_external_user_id);
  }

  lemma OldColumnsPlaced(t: Table, c: Column)
    requires Position(t) < 50 && !LateColumn(c)
    ensures ColumnPlace(t, c) == 20
  {
    TablesPlaced(t);
  }

  lemma MetricColumnsPlaced(c: Column)
    ensures ColumnPlace(CampaignMetric, c) == 20
  {
  }

  lemma ColumnsPlaced(t: Table)
    requires Position(t) < 50
    ensures forall x | x in Columns(t) :: ColumnPlace(t, x) == 20
  {
    forall x | x in Columns(t) ensures ColumnPlace(t, x) == 20 {
      if t == CampaignMetric {
        MetricColumnsPlaced(x);
      } else {
        NoneLate(t, x);
        OldColumnsPlaced(t, x);
      }
    }
  }

  lemma TableIsOld(t: Table, specs: map<Column, ColumnSpec>)
    requires TablePlace(t) == 20 && forall x | x in specs :: ColumnPlace(t, x) == 20
    requires forall x | x in specs :: specs[x].fk.NoKey? || (specs[x].fk.Unqualified? && specs[x].fk.r != CampaignMetric)
    ensures MoveFrom(BlockMove(Block(t, specs, [])), 20)
    ensures MoveRefs(BlockMove(Block(t, specs, [])), NotMetric())
  {
  }

  lemma BlockFrom(t: Table)
    requires Position(t) < 50
    ensures MoveFrom(BlockMove(Block(t, Columns(t), [])), 20)
    ensures MoveRefs(BlockMove(Block(t, Columns(t), [])), NotMetric())
  {
    TablesPlaced(t);
    KeysSpareMetric(t);
    ColumnsPlaced(t);
    TableIsOld(t, Columns(t));
  }

  /** A catalogue of tables 0002 creates, each with the columns listed for it. */
  ghost predicate Listed(c: Catalogue) {
    && Ordered(c)
    && (forall t :: HasTable(c, t) <==> Position(t) < 50)
    && (forall k | 0 <= k < |c.blocks| :: c.blocks[k] == Block(c.blocks[k].t, Columns(c.blocks[k].t), []))
  }

  lemma MovesOf0002(c: Catalogue)
    requires Listed(c)
    ensures AllFrom(UpgradeMoves(c), 20)
    ensures forall k | 0 <= k < |UpgradeMoves(c)| :: MoveRefs(UpgradeMoves(c)[k], NotMetric())
  {
    var ms, n := UpgradeMoves(c), |c.enums|;
    forall k | 0 <= k < |ms| ensures MoveFrom(ms[k], 20) && MoveRefs(ms[k], NotMetric()) {
      if k >= n {
        var b := c.blocks[k - n];
        assert ms[k] == BlockMove(b) && HasTable(c, b.t);
        BlockFrom(b.t);
      }
    }
  }

  lemma TablesOf0002(c: Catalogue, s: Structure)
    requires Listed(c) && Complete(c, s)
    requires forall k | 0 <= k < |c.blocks| :: HasColumns(c.blocks[k], s)
    ensures forall t | Position(t) < 50 :: Tab(t) in s && forall x | x in Columns(t) :: Col(t, x) in s
  {
    forall t | Position(t) < 50 ensures Tab(t) in s && forall x | x in Columns(t) :: Col(t, x) in s {
      assert HasTable(c, t);
      var k :| 0 <= k < |c.blocks| && c.blocks[k].t == t;
      assert HasColumns(c.blocks[k], s);
    }
  }

  lemma After0002(c: Catalogue, pub: set<Table>)
    requires Listed(c)
    ensures Exec(Upgrade(c), map[], pub).Ok? && TenantState(2, Exec(Upgrade(c), map[], pub).value)
  {
    UpgradeCompletes(c, map[], pub);
    UpgradeIsMoves(c);
    var ms, r := UpgradeMoves(c), Exec(Upgrade(c), map[], pub).value;
    MovesOf0002(c);
    AllMadeFrom(ms, 0, 20);
    MovesAreAdditive(ms);
    AdditiveExtends(Steps(ms), map[], pub);
    assert Steps(ms)[0..] == Steps(ms);
    StepsCreate(ms, 0);
    MovesRefsWithin(ms, map[], pub, NotMetric());
    RefsSpareMetric(map[], r);
    TablesOf0002(c, r);
    BaseFrom0002(r);
  }

  lemma BaseFrom0002(s: Structure)
    requires forall t | Position(t) < 50 :: Tab(t) in s && forall x | x in Columns(t) :: Col(t, x) in s
    ensures TenantBase() <= s.Keys && Tab(CampaignMetric) in s
  {
    BaseListed();
    assert Position(ProspectingIntegration) == 5 && Position(CampaignMetric) == 24;
    assert Tab(ProspectingIntegration) in s && Tab(CampaignMetric) in s;
  }

  lemma BaseListed()
    ensures forall o | o in TenantBase() :: o == Col(ProspectingIntegration, apiKey) || (o.Tab? && Position(o.t) < 50)
    ensures apiKey in Columns(ProspectingIntegration)
  {
  }

  lemma BaseStays()
    ensures forall o | o in TenantBase() :: !Volatile(o)
  {
  }

  lemma Tables0002Listed()
    ensures Listed(Tables0002())
  {
    Tables0002Ordered();
    var c := Tables0002();
    forall k | 0 <= k < |c.blocks| ensures c.blocks[k] == Block(c.blocks[k].t, Columns(c.blocks[k].t), []) {
      assert c.blocks[k] == Block(CreationOrder()[k], Columns(CreationOrder()[k]), []);
    }
  }

  // ---- 0003 to 0017 --------------------------------------------------------

  lemma After0005(s: Structure, pub: set<Table>)
    requires TenantState(4, s)
    ensures Exec(Steps(Moves0005()), s, pub).Ok? && TenantState(5, Exec(Steps(Moves0005()), s, pub).value)
    ensures Grown(s, Exec(Steps(Moves0005()), s, pub).value)
  {
    OwnersFrom(); OwnersReady(); IdentitiesFrom(); IdentitiesReady(); QuotasFrom(); QuotasReady();
    TenantPart(Owners0005(), 50, {Tab(Campaign), Tab(Sequence)}, {}, s, 49, pub);
    var a := Exec(Steps(Owners0005()), s, pub).value;
    TenantPart(Identities0005(), 51, {}, {}, a, 50, pub);
    var b := Exec(Steps(Identities0005()), a, pub).value;
    TenantPart(Quotas0005(), 52, {}, {}, b, 51, pub);
    TwoParts(Owners0005() + Identities0005(), Quotas0005(), s, pub);
    TwoParts(Owners0005(), Identities0005(), s, pub);
  }

  lemma After0006(s: Structure, pub: set<Table>)
    requires TenantState(5, s)
    ensures Exec(Steps(Moves0006()), s, pub).Ok? && TenantState(6, Exec(Steps(Moves0006()), s, pub).value)
    ensures Grown(s, Exec(Steps(Moves0006()), s, pub).value)
  {
    UsageFrom(); UsageReady(); SummariesFrom(); SummariesReady();
    TenantPart(Usage0006(), 60, {}, {}, s, 59, pub);
    var a := Exec(Steps(Usage0006()), s, pub).value;
    TenantPart(Summaries0006(), 61, {}, {}, a, 60, pub);
    TwoParts(Usage0006(), Summaries0006(), s, pub);
  }

  lemma After0007(s: Structure, pub: set<Table>)
    requires TenantState(6, s)
    ensures Exec(Steps(Moves0007()), s, pub).Ok? && TenantState(7, Exec(Steps(Moves0007()), s, pub).value)
    ensures Grown(s, Exec(Steps(Moves0007()), s, pub).value)
  {
    ProspectsFrom(); ProspectsReady(); ConsentsFrom(); ConsentsReady();
    TenantPart(Prospects0007(), 70, {Tab(Prospect)}, {}, s, 69, pub);
    var a := Exec(Steps(Prospects0007()), s, pub).value;
    TenantPart(Consents0007(), 79, {Tab(Prospect)}, {}, a, 70, pub);
    TwoParts(Prospects0007(), Consents0007(), s, pub);
  }

  lemma After0010(s: Structure, pub: set<Table>)
    requires TenantState(9, s)
    ensures Exec(Up0010(), s, pub).Ok? && TenantState(10, Exec(Up0010(), s, pub).value)
  {
    DropUnreferenced(s, CampaignMetric, pub);
    DropMetric(s, pub);
    var r := Exec(Up0010(), s, pub).value;
    BaseStays();
  }

  lemma DropUnreferenced(s: Structure, t: Table, pub: set<Table>)
    requires Tab(t) in s && !ReferencedElsewhere(s, t)
    ensures Exec(DropSteps([Tab(t)], false), s, pub).Ok?
    ensures Extends(Exec(DropSteps([Tab(t)], false), s, pub).value, s)
  {
    var drop := Step({Tab(t)}, {}, [DropTable(t)]);
    assert DropSteps([Tab(t)], false)[0] == drop;
    assert DropSteps([Tab(t)], false) == [drop];
    ExecOne(drop, s, pub);
    ApplyOne(DropTable(t), s, pub);
  }

  lemma After0013(s: Structure, pub: set<Table>)
    requires TenantState(12, s)
    ensures Exec(Up0013(), s, pub).Ok? && TenantState(13, Exec(Up0013(), s, pub).value)
  {
    LogPart();
    UnguardedPartRuns(Moves0013(), 130, {}, s, 129, pub);
    var r := Exec(Up0013(), s, pub).value;
    TenantPart(Moves0013(), 130, {}, {}, s, 129, pub);
    UnguardedSucceedsSame(Moves0013(), s, pub);
  }

  lemma LogPart()
    ensures AllFrom(Moves0013(), 130) && AllReady(Moves0013(), 0, {}, {})
  {
  }

  lemma UnguardedSucceedsSame(ms: seq<Move>, s: Structure, pub: set<Table>)
    requires AllReady(ms, 0, {}, {}) && WellFormed(s) && s.Keys !! AllMade(ms, 0)
    ensures Exec(Unguarded(ms), s, pub) == Exec(Steps(ms), s, pub)
  {
    AllReadyRun(ms, 0, {}, {}, {});
    MovesRunOn(ms, 0, {}, s.Keys, {}, pub);
    UnguardedSame(ms, 0, s, pub);
    assert Unguarded(ms)[0..] == Unguarded(ms) && Steps(ms)[0..] == Steps(ms);
  }

  lemma {:induction false} FlipsUpto(s: Structure, xs: seq<Rename>, n: nat)
    requires Upto(s, n) && forall k | 0 <= k < |xs| :: Place(Col(xs[k].t, xs[k].b)) <= n
    ensures Upto(FlipAll(s, xs), n)
    decreases |xs|
  {
    if xs != [] {
      FlipsUpto(Flip(s, xs[0]), xs[1..], n);
    }
  }

  /** Renaming columns leaves every reference to a table as it was. */
  lemma {:induction false} FlipsUnreferenced(s: Structure, xs: seq<Rename>, t: Table)
    requires !ReferencedElsewhere(s, t)
    ensures !ReferencedElsewhere(FlipAll(s, xs), t)
    decreases |xs|
  {
    if xs != [] {
      var x := xs[0];
      var r := Flip(s, x);
      forall o | o in r && !OwnedBy(o, t) ensures !RefersTo(r[o], t) {
        var before := if Fires(x, s) && o == Col(x.t, x.b) then Col(x.t, x.a) else o;
        assert before in s && !OwnedBy(before, t) && !RefersTo(s[before], t);
      }
      FlipsUnreferenced(r, xs[1..], t);
    }
  }

  lemma RenamesPlaced()
    ensures forall k | 0 <= k < |Renames0015()| :: Place(Col(Renames0015()[k].t, Renames0015()[k].b)) == 150
  {
  }

  lemma After0015(s: Structure, pub: set<Table>)
    requires TenantState(14, s)
    ensures Exec(Up0015(), s, pub).Ok? && TenantState(15, Exec(Up0015(), s, pub).value)
  {
    var xs := Renames0015();
    RenamesAreVolatile();
    RenamesPlaced();
    RenameStepsRun(xs, s, pub);
    FlipAllKeeps(s, xs);
    FlipsUpto(s, xs, 159);
    FlipsUnreferenced(s, xs, CampaignMetric);
    BaseStays();
  }

  lemma After0003(s: Structure, pub: set<Table>)
    requires TenantState(2, s)
    ensures Exec(Steps(Moves0003()), s, pub).Ok? && TenantState(3, Exec(Steps(Moves0003()), s, pub).value)
    ensures Grown(s, Exec(Steps(Moves0003()), s, pub).value)
  {
    RolesFrom();
    RolesReady();
    TenantPart(Moves0003(), 39, {}, {}, s, 29, pub);
  }

  lemma After0004(s: Structure, pub: set<Table>)
    requires TenantState(3, s) && global_llm_config in pub
    ensures Exec(Steps(Moves0004()), s, pub).Ok? && TenantState(4, Exec(Steps(Moves0004()), s, pub).value)
    ensures Grown(s, Exec(Steps(Moves0004()), s, pub).value)
  {
    KeySourceFrom();
    KeySourceReady();
    TenantPart(Moves0004(), 40, IntegrationTables(), {global_llm_config}, s, 39, pub);
  }

  lemma After0011(s: Structure, pub: set<Table>)
    requires TenantState(10, s)
    ensures Exec(Steps(Moves0011()), s, pub).Ok? && TenantState(11, Exec(Steps(Moves0011()), s, pub).value)
  {
    EngagementFrom();
    EngagementReady();
    TenantPart(Moves0011(), 110, {Tab(LinkedInEngagement)}, {}, s, 109, pub);
  }

  lemma After0016(s: Structure, pub: set<Table>)
    requires TenantState(15, s)
    ensures Exec(Steps(Moves0016()), s, pub).Ok? && TenantState(16, Exec(Steps(Moves0016()), s, pub).value)
  {
    IcpMatchFrom();
    IcpMatchReady();
    TenantPart(Moves0016(), 160, {Tab(LinkedInEngagement)}, {}, s, 159, pub);
  }

  lemma After0017(s: Structure, pub: set<Table>)
    requires TenantState(16, s)
    ensures Exec(Steps(Moves0017()), s, pub).Ok? && TenantState(17, Exec(Steps(Moves0017()), s, pub).value)
  {
    MailBridgeFrom();
    MailBridgeReady();
    TenantPart(Moves0017(), 170, {Tab(MailBridgeConfig)}, {}, s, 169, pub);
  }

  /** Every tenant migration runs on the state the one before leaves; 0004 needs the public
      table its foreign key names. */
  lemma TenantStep(n: nat, s: Structure, pub: set<Table>)
    requires 1 <= n <= HEAD && TenantState(n - 1, s)
    requires n == 4 ==> global_llm_config in pub
    ensures Exec(TenantUp(n), s, pub).Ok? && TenantState(n, Exec(TenantUp(n), s, pub).value)
    ensures 3 <= n < 10 ==> Grown(s, Exec(TenantUp(n), s, pub).value)
  {
    match n
    case 2 =>
      Tables0002Listed();
      After0002(Tables0002(), pub);
    case 3 => After0003(s, pub);
    case 4 => After0004(s, pub);
    case 5 => After0005(s, pub);
    case 6 => After0006(s, pub);
    case 7 => After0007(s, pub);
    case 10 => After0010(s, pub);
    case 11 => After0011(s, pub);
    case 13 => After0013(s, pub);
    case 15 => After0015(s, pub);
    case 16 => After0016(s, pub);
    case 17 => After0017(s, pub);
    case _ => assert TenantUp(n) == [];
  }

  // ---- Public side ---------------------------------------------------------

  function AuditColumns(): set<Obj> {
    {Col(platform_audit_log, actor_role), Col(platform_audit_log, target_id),
     Col(platform_audit_log, request_id), Col(platform_audit_log, ip_address)}
  }

  function PublicBase(r: nat): set<Obj> {
    (if r >= 1 then {Tab(tenants), Tab(tenant_config), Tab(platform_audit_log)} else {}) +
    (if r >= 3 then {Tab(plans), Tab(subscriptions), Tab(tenant_signup_requests), Tab(permissions),
                     Tab(feature_permissions), Tab(help_sections), Tab(help_articles), Tab(help_section_roles)} +
                     AuditColumns() else {}) +
    (if r >= 4 then {Tab(global_llm_config)} else {})
  }

  /** None of the tenant tables of 0002, 0003, 0005 and of 0007. */
  predicate Separate(s: Structure) {
    forall o | o in s :: Place(o) != 20 && Place(o) != 39 && Place(o) != 51 && Place(o) != 52 && Place(o) != 79
  }

  /** A public schema that has gone through migrations 1 to `r` and no others. */
  predicate PublicState(r: nat, s: Structure) {
    WellFormed(s) && Upto(s, 10 * r + 9) && Separate(s) && PublicBase(r) <= s.Keys
  }

  lemma PublicPart(ms: seq<Move>, n: nat, base: set<Obj>, s: Structure, m: nat, pub: set<Table>)
    requires AllFrom(ms, n) && AllReady(ms, 0, base, {}) && n != 20 && n != 39 && n != 51 && n != 52 && n != 79
    requires WellFormed(s) && Upto(s, m) && m < n && Separate(s) && base <= s.Keys
    ensures Exec(Steps(ms), s, pub).Ok?
    ensures var r := Exec(Steps(ms), s, pub).value;
            WellFormed(r) && Upto(r, n) && Separate(r) && s.Keys <= r.Keys && AllMade(ms, 0) <= r.Keys
  {
    PartRuns(ms, n, base, {}, s, m, pub);
  }

  lemma AuditLogFrom()
    ensures MoveFrom(Moves0001()[2], 10)
  {
  }

  lemma TenantConfigFrom()
    ensures MoveFrom(Moves0001()[1], 10)
  {
  }

  lemma TenantsFrom()
    ensures MoveFrom(Moves0001()[0], 10)
  {
  }

  lemma RegistryFrom()
    ensures AllFrom(Moves0001(), 10)
  {
    TenantsFrom();
    TenantConfigFrom();
    AuditLogFrom();
  }

  lemma PublicStart(s: Structure)
    requires s == map[]
    ensures PublicState(0, s)
  {
  }

  lemma RegistryReady()
    ensures AllReady(Moves0001(), 0, {}, {})
  {
  }

  lemma RegistryMade()
    ensures PublicBase(1) <= AllMade(Moves0001(), 0)
  {
  }

  lemma Public0001Runs(s: Structure, pub: set<Table>)
    requires PublicState(0, s)
    ensures Exec(Up0001(), s, pub).Ok? && PublicState(1, Exec(Up0001(), s, pub).value)
  {
    RegistryFrom();
    RegistryReady();
    RegistryMade();
    UnguardedPartRuns(Moves0001(), 10, {}, s, 9, pub);
  }

  lemma PlansMade()
    ensures {Tab(plans), Tab(subscriptions)} <= AllMade(Plans0003(), 0)
    ensures {Tab(tenant_signup_requests)} <= AllMade(Signups0003(), 0)
  {
  }

  lemma PermissionsMade()
    ensures {Tab(permissions), Tab(feature_permissions)} <= AllMade(Permissions0003(), 0)
  {
  }

  lemma HelpMade()
    ensures {Tab(help_sections), Tab(help_articles)} <= AllMade(Help0003(), 0)
    ensures {Tab(help_section_roles)} <= AllMade(Contact0003(), 0)
  {
  }

  lemma AuditMade()
    ensures AuditColumns() <= AllMade(Audit0003(), 0)
    ensures forall o | o in AuditColumns() :: Place(o) == 35
  {
  }

  lemma Plans0003Run(s: Structure, pub: set<Table>)
    requires WellFormed(s) && Upto(s, 29) && Separate(s) && PublicBase(1) <= s.Keys
    ensures var p := Steps(Plans0003() + Signups0003() + Permissions0003());
            && Exec(p, s, pub).Ok?
            && var r := Exec(p, s, pub).value;
               && WellFormed(r) && Upto(r, 32) && Separate(r) && s.Keys <= r.Keys
               && {Tab(plans), Tab(subscriptions), Tab(tenant_signup_requests), Tab(permissions), Tab(feature_permissions)} <= r.Keys
  {
    PlansFrom(); PlansReady(); SignupsFrom(); SignupsReady(); PermissionsFrom(); PermissionsReady();
    PlansMade(); PermissionsMade();
    PublicPart(Plans0003(), 30, {Tab(tenants)}, s, 29, pub);
    var a := Exec(Steps(Plans0003()), s, pub).value;
    PublicPart(Signups0003(), 31, {Tab(tenants), Tab(plans)}, a, 30, pub);
    var b := Exec(Steps(Signups0003()), a, pub).value;
    PublicPart(Permissions0003(), 32, {}, b, 31, pub);
    TwoParts(Plans0003() + Signups0003(), Permissions0003(), s, pub);
    TwoParts(Plans0003(), Signups0003(), s, pub);
  }

  lemma Help0003Run(s: Structure, pub: set<Table>)
    requires WellFormed(s) && Upto(s, 32) && Separate(s)
    requires {Tab(platform_audit_log), Tab(plans), Tab(permissions), Tab(feature_permissions)} <= s.Keys
    ensures var p := Steps(Help0003() + Contact0003() + Audit0003());
            && Exec(p, s, pub).Ok?
            && var r := Exec(p, s, pub).value;
               && WellFormed(r) && Upto(r, 35) && Separate(r) && s.Keys <= r.Keys
               && {Tab(help_sections), Tab(help_articles), Tab(help_section_roles)} <= r.Keys && AuditColumns() <= r.Keys
  {
    HelpFrom(); HelpReady(); ContactFrom(); ContactReady(); AuditFrom(); AuditReady();
    HelpMade();
    AuditMade();
    PublicPart(Help0003(), 33, {}, s, 32, pub);
    var a := Exec(Steps(Help0003()), s, pub).value;
    PublicPart(Contact0003(), 34, {Tab(help_sections)}, a, 33, pub);
    var b := Exec(Steps(Contact0003()), a, pub).value;
    PublicPart(Audit0003(), 35, PlatformTables(), b, 34, pub);
    TwoParts(Help0003() + Contact0003(), Audit0003(), s, pub);
    TwoParts(Help0003(), Contact0003(), s, pub);
  }

  lemma Public0003Runs(s: Structure, pub: set<Table>)
    requires PublicState(2, s)
    ensures Exec(Steps(Public0003()), s, pub).Ok? && PublicState(3, Exec(Steps(Public0003()), s, pub).value)
  {
    var a, b := Plans0003() + Signups0003() + Permissions0003(), Help0003() + Contact0003() + Audit0003();
    Plans0003Run(s, pub);
    Help0003Run(Exec(Steps(a), s, pub).value, pub);
    assert Public0003() == a + b;
    TwoParts(a, b, s, pub);
  }

  lemma GlobalMade()
    ensures Tab(global_llm_config) in AllMade(Global0004(), 0)
  {
  }

  lemma Public0004Runs(s: Structure, pub: set<Table>)
    requires PublicState(3, s)
    ensures Exec(Steps(Public0004()), s, pub).Ok? && PublicState(4, Exec(Steps(Public0004()), s, pub).value)
  {
    GlobalFrom(); GlobalReady(); ModesFrom(); ModesReady(); PricesFrom(); PricesReady();
    GlobalMade();
    PublicPart(Global0004(), 40, {}, s, 39, pub);
    var a := Exec(Steps(Global0004()), s, pub).value;
    PublicPart(Modes0004(), 41, {Tab(tenant_config), Tab(tenant_signup_requests)}, a, 40, pub);
    var b := Exec(Steps(Modes0004()), a, pub).value;
    PublicPart(Prices0004(), 42, {Tab(subscriptions), Tab(plans)}, b, 41, pub);
    TwoParts(Global0004() + Modes0004(), Prices0004(), s, pub);
    TwoParts(Global0004(), Modes0004(), s, pub);
  }

  lemma Public0006Runs(s: Structure, pub: set<Table>)
    requires PublicState(5, s)
    ensures Exec(Steps(Public0006()), s, pub).Ok? && PublicState(6, Exec(Steps(Public0006()), s, pub).value)
  {
    CostsFrom();
    CostsReady();
    PublicPart(Public0006(), 60, {}, s, 59, pub);
  }

  lemma Public0007Runs(s: Structure, pub: set<Table>)
    requires PublicState(6, s)
    ensures Exec(Steps(Public0007()), s, pub).Ok? && PublicState(7, Exec(Steps(Public0007()), s, pub).value)
  {
    RequestsFrom();
    RequestsReady();
    PublicPart(Public0007(), 70, {}, s, 69, pub);
  }

  lemma BaseStaysPublic(n: nat)
    requires n >= 4
    ensures PublicBase(n + 1) == PublicBase(n)
  {
  }

  lemma TouchRuns(needs: set<Obj>, s: Structure, pub: set<Table>)
    requires needs <= s.Keys
    ensures Exec(Steps([Touches(needs)]), s, pub) == Ok(s)
  {
    var ms := [Touches(needs)];
    assert Ops(ms[0]) == [Touch(needs)];
    assert Steps(ms) == [StepOf(ms[0])];
    ExecOne(StepOf(ms[0]), s, pub);
    ApplyOne(Touch(needs), s, pub);
  }

  lemma TouchPart(needs: set<Obj>, n: nat, s: Structure, pub: set<Table>)
    requires PublicState(n, s) && needs <= s.Keys && n >= 4
    ensures Exec(Steps([Touches(needs)]), s, pub) == Ok(s) && PublicState(n + 1, s)
  {
    TouchRuns(needs, s, pub);
    BaseStaysPublic(n);
  }

  lemma Public0013Runs(s: Structure, pub: set<Table>)
    requires PublicState(12, s)
    ensures Exec(Up0013(), s, pub).Ok? && PublicState(13, Exec(Up0013(), s, pub).value)
  {
    LogPart();
    UnguardedPartRuns(Moves0013(), 130, {}, s, 129, pub);
  }

  /** On the public schema 0015 finds neither table and 0016 and 0017 do not find theirs. */
  lemma SeparateSettled(s: Structure)
    requires Separate(s)
    ensures AllSettled(Up0015(), s) && AllSettled(Steps(Moves0016()), s) && AllSettled(Steps(Moves0017()), s)
  {
    RenamesElsewhere();
    RenamesSettled(s, Renames0015());
    LateElsewhere();
    LateSettled(Moves0016(), s);
    LateSettled(Moves0017(), s);
  }

  lemma RenamesElsewhere()
    ensures forall k | 0 <= k < |Renames0015()| :: Place(Tab(Renames0015()[k].t)) in {51, 52}
  {
  }

  predicate NeedsTenantTable(m: Move) {
    m.NewColumn? && m.ifTable && Place(Tab(m.t)) == 20
  }

  lemma LateElsewhere()
    ensures forall k | 0 <= k < |Moves0016()| :: NeedsTenantTable(Moves0016()[k])
    ensures forall k | 0 <= k < |Moves0017()| :: NeedsTenantTable(Moves0017()[k])
  {
  }

  lemma LateSettled(ms: seq<Move>, s: Structure)
    requires Separate(s) && forall k | 0 <= k < |ms| :: NeedsTenantTable(ms[k])
    ensures AllSettled(Steps(ms), s)
  {
    forall k | 0 <= k < |ms| ensures Settled(StepOf(ms[k]), s) {
      assert NeedsTenantTable(ms[k]) && Tab(ms[k].t) in Present(ms[k]);
    }
  }

  lemma PublicStep(n: nat, s: Structure, pub: set<Table>)
    requires 1 <= n <= HEAD && PublicState(n - 1, s)
    ensures Exec(PublicUp(n), s, pub).Ok? && PublicState(n, Exec(PublicUp(n), s, pub).value)
  {
    match n
    case 1 => Public0001Runs(s, pub);
    case 3 => Public0003Runs(s, pub);
    case 4 => Public0004Runs(s, pub);
    case 6 => Public0006Runs(s, pub);
    case 7 => Public0007Runs(s, pub);
    case 8 => TouchPart({Tab(help_sections), Tab(help_articles), Tab(help_section_roles)}, 7, s, pub);
    case 9 => TouchPart({Tab(permissions)}, 8, s, pub);
    case 13 => Public0013Runs(s, pub);
    case 15 => SeparateSettled(s); SettledChangesNothing(Up0015(), s, pub);
    case 16 => SeparateSettled(s); SettledChangesNothing(Steps(Moves0016()), s, pub);
    case 17 => SeparateSettled(s); SettledChangesNothing(Steps(Moves0017()), s, pub);
    case _ => assert PublicUp(n) == [];
  }

  // ---- The structures themselves -------------------------------------------

  /** The structure of a tenant schema after migrations 1 to `r`. */
  ghost function TenantAt(r: nat): Structure {
    if r == 0 then map[]
    else
      var e := Exec(TenantUp(r), TenantAt(r - 1), {global_llm_config});
      if e.Ok? then e.value else map[]
  }

  /** The structure of the public schema after migrations 1 to `r`. */
  ghost function PublicAt(r: nat): Structure {
    if r == 0 then map[]
    else
      var e := Exec(PublicUp(r), PublicAt(r - 1), {});
      if e.Ok? then e.value else map[]
  }

  lemma {:induction false} TenantAtState(r: nat)
    requires r <= HEAD
    ensures TenantState(r, TenantAt(r))
  {
    if r > 0 {
      TenantAtState(r - 1);
      TenantStep(r, TenantAt(r - 1), {global_llm_config});
    }
  }

  lemma PublicOnward(r: nat)
    requires r < HEAD && PublicState(r, PublicAt(r))
    ensures PublicState(r + 1, PublicAt(r + 1))
  {
    PublicStep(r + 1, PublicAt(r), {});
    assert PublicAt(r + 1) == Exec(PublicUp(r + 1), PublicAt(r), {}).value;
  }

  lemma PublicAtState(r: nat)
    requires r <= HEAD
    ensures PublicState(r, PublicAt(r))
  {
    var p := (j: int) => 0 <= j <= HEAD ==> PublicState(j, PublicAt(j));
    PublicStart(PublicAt(0));
    forall j | j >= 0 && p(j) ensures p(j + 1) {
      if j < HEAD { PublicOnward(j); }
    }
    FromZero(p, r);
  }

  /** Whatever the public schema holds, a tenant migration leads from one structure to the next, as
      long as the public table 0004 references is there. */
  lemma TenantAdvance(n: nat, pub: set<Table>)
    requires 1 <= n <= HEAD && (n == 4 ==> global_llm_config in pub)
    ensures Exec(TenantUp(n), TenantAt(n - 1), pub) == Ok(TenantAt(n))
  {
    TenantAtState(n - 1);
    TenantSame(n, TenantAt(n - 1), pub);
  }

  lemma TenantSame(n: nat, s: Structure, pub: set<Table>)
    requires 1 <= n <= HEAD && TenantState(n - 1, s) && (n == 4 ==> global_llm_config in pub)
    ensures Exec(TenantUp(n), s, pub).Ok? && Exec(TenantUp(n), s, pub) == Exec(TenantUp(n), s, {global_llm_config})
  {
    TenantStep(n, s, {global_llm_config});
    TenantStep(n, s, pub);
    ExecSame(TenantUp(n), s, pub, {global_llm_config});
  }

  /** Without the public table 0004 references, it fails. */
  lemma TenantBlocked(s: Structure, pub: set<Table>)
    requires TenantState(3, s) && global_llm_config !in pub
    ensures Exec(TenantUp(4), s, pub).Err?
  {
    KeyColumnIsNew(s);
    KeyColumnIsLast();
    LastNeedsPublic(Moves0004(), s, pub, LlmConfig, global_llm_config_id, global_llm_config);
  }

  lemma KeyColumnIsNew(s: Structure)
    requires Upto(s, 39)
    ensures Col(LlmConfig, global_llm_config_id) !in s
  {
    assert Place(Col(LlmConfig, global_llm_config_id)) == 40;
  }

  lemma KeyColumnIsLast()
    ensures |Moves0004()| == 5 && !MadeEarlier(Moves0004(), 4, Col(LlmConfig, global_llm_config_id))
    ensures Moves0004()[4] == NewColumn(LlmConfig, global_llm_config_id, ColumnSpec(Scalar, InPublic(global_llm_config)), [], false)
  {
  }

  /** A list of moves whose last adds a column referencing a public table that is missing. */
  lemma LastNeedsPublic(ms: seq<Move>, s: Structure, pub: set<Table>, t: Table, c: Column, r: Table)
    requires |ms| > 0 && ms[|ms| - 1] == NewColumn(t, c, ColumnSpec(Scalar, InPublic(r)), [], false)
    requires WellFormed(s) && Col(t, c) !in s && r !in pub
    requires !MadeEarlier(ms, |ms| - 1, Col(t, c))
    ensures Exec(Steps(ms), s, pub).Err?
  {
    var first, last := ms[..|ms| - 1], ms[|ms| - 1];
    LastStep(ms);
    ExecAppend(Steps(first), [StepOf(last)], s, pub);
    var e := Exec(Steps(first), s, pub);
    if e.Ok? {
      PrefixLacks(ms, first, s, pub, Col(t, c));
      KeyMissing(e.value, pub, t, c, r);
    }
  }

  lemma LastStep(ms: seq<Move>)
    requires |ms| > 0
    ensures Steps(ms) == Steps(ms[..|ms| - 1]) + [StepOf(ms[|ms| - 1])]
  {
  }

  lemma PrefixLacks(ms: seq<Move>, first: seq<Move>, s: Structure, pub: set<Table>, o: Obj)
    requires first <= ms && WellFormed(s) && o !in s && Exec(Steps(first), s, pub).Ok?
    requires !MadeEarlier(ms, |first|, o)
    ensures o !in Exec(Steps(first), s, pub).value
  {
    MovesAreAdditive(first);
    AdditiveExtends(Steps(first), s, pub);
    StepsCreate(first, 0);
    assert Steps(first)[0..] == Steps(first);
    NotMadeYet(ms, first, 0, o);
  }

  lemma KeyMissing(s: Structure, pub: set<Table>, t: Table, c: Column, r: Table)
    requires Col(t, c) !in s && r !in pub
    ensures Exec([StepOf(NewColumn(t, c, ColumnSpec(Scalar, InPublic(r)), [], false))], s, pub).Err?
  {
    var m := NewColumn(t, c, ColumnSpec(Scalar, InPublic(r)), [], false);
    assert Ops(m) == [AddColumn(t, c, m.spec)];
    ExecOne(StepOf(m), s, pub);
    ApplyOne(AddColumn(t, c, m.spec), s, pub);
  }

  lemma {:induction false} NotMadeYet(ms: seq<Move>, first: seq<Move>, k: nat, o: Obj)
    requires k <= |first| && first <= ms && !MadeEarlier(ms, |first|, o)
    ensures o !in AllMade(first, k)
    decreases |first| - k
  {
    if k < |first| {
      NotEarlier(ms, |first|, k, o);
      MakesMade(first[k], o);
      NotMadeYet(ms, first, k + 1, o);
    }
  }

  lemma {:induction false} NotEarlier(ms: seq<Move>, n: nat, k: nat, o: Obj)
    requires k < n <= |ms| && !MadeEarlier(ms, n, o)
    ensures !Makes(ms[k], o)
    decreases n
  {
    if k < n - 1 { NotEarlier(ms, n - 1, k, o); }
  }

  lemma PublicAdvance(n: nat, pub: set<Table>)
    requires 1 <= n <= HEAD
    ensures Exec(PublicUp(n), PublicAt(n - 1), pub) == Ok(PublicAt(n))
  {
    PublicAtState(n - 1);
    PublicStep(n, PublicAt(n - 1), {});
    PublicStep(n, PublicAt(n - 1), pub);
    ExecSame(PublicUp(n), PublicAt(n - 1), {}, pub);
  }

  /** From which revision on the tables the runner depends on exist. */
  lemma TenantTablesAt(r: nat)
    requires r <= HEAD
    ensures Tab(ProspectingFlow) in TenantAt(r) <==> r >= 2
    ensures Tab(CampaignMetric) in TenantAt(r) <==> 2 <= r < 10
  {
    TenantAtState(r);
    assert Tab(ProspectingFlow) in TenantBase();
  }

  lemma PublicTablesAt(r: nat)
    requires r <= HEAD
    ensures Tab(ProspectingFlow) !in PublicAt(r)
    ensures Tab(global_llm_config) in PublicAt(r) <==> r >= 4
    ensures Tab(tenants) in PublicAt(r) <==> r >= 1
  {
    PublicAtState(r);
    TablePlaces();
    assert r >= 4 ==> Tab(global_llm_config) in PublicBase(r);
    assert r >= 1 ==> Tab(tenants) in PublicBase(r);
  }

  /** 0003 adds the columns of the audit log the erasure script writes. */
  lemma AuditColumnsAt(r: nat)
    requires r <= HEAD
    ensures AuditColumns() <= PublicAt(r).Keys <==> r >= 3
  {
    PublicAtState(r);
    AuditMade();
    assert Col(platform_audit_log, actor_role) in AuditColumns();
    assert r >= 3 ==> AuditColumns() <= PublicBase(r);
  }

  lemma PublicLacks(r: nat, t: Table)
    requires r <= HEAD && (TablePlace(t) == 20 || TablePlace(t) == 39 || TablePlace(t) == 79)
    ensures Tab(t) !in PublicAt(r)
  {
    PublicAtState(r);
    assert Place(Tab(t)) == TablePlace(t);
  }

  lemma TablePlaces()
    ensures Place(Tab(ProspectingFlow)) == 20 && Place(Tab(global_llm_config)) == 40 && Place(Tab(tenants)) == 10
  {
  }
}
