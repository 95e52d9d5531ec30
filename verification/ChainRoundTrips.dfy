/** On the schemas the chain itself builds, every reversible tenant migration is undone exactly. */
module ChainRoundTrips {
  import opened Wrappers
  import opened SchemaNames
  import opened Ddl
  import opened DdlPrograms
  import opened GuardedMoves
  import opened DdlRoundTrip
  import opened TenantTables
  import opened Catalogue0002
  import opened ColumnRenames
  import opened TenantMigrations
  import opened MigrationRoundTrips
  import opened MigrationReplay
  import opened SchemaChain
  import opened ChainStates

  predicate PointsInside(d: Def) {
    d.ColumnDef? && d.ref.Local?
  }

  /** The downgrade of migration `n` on a tenant schema, for those that restore what they found. */
  function TenantDown(n: nat): Program {
    match n
    case 2 => Downgrade(Tables0002())
    case 5 => DropSteps(Dropped0005(), false)
    case 7 => DropSteps(Dropped0007(), false)
    case 10 => Down0010()
    case 11 => DropSteps(Dropped0011(), false)
    case 15 => Down0015()
    case 16 => DropSteps(Dropped0016(), true)
    case 17 => DropSteps(Dropped0017(), true)
    case _ => []
  }

  predicate Reversible(n: nat) {
    n == 2 || n == 5 || n == 7 || n == 10 || n == 11 || n == 15 || n == 16 || n == 17
  }

  // ---- Nothing the guards look for is there yet ----------------------------

  lemma NotThereYet(ms: seq<Move>, n: nat, s: Structure, m: nat)
    requires AllFrom(ms, n) && Upto(s, m) && m < n
    ensures NoneThere(ms, s)
  {
    forall k | 0 <= k < |ms| ensures Absent(ms[k]) !! s.Keys {
      assert MoveFrom(ms[k], n);
      MadeFrom(ms[k], n);
      MoveCreates(ms[k]);
    }
  }

  lemma NoneThereAppend(a: seq<Move>, b: seq<Move>, s: Structure)
    requires NoneThere(a, s) && NoneThere(b, s)
    ensures NoneThere(a + b, s)
  {
  }

  lemma Nothing0005(s: Structure)
    requires Upto(s, 49)
    ensures NoneThere(Moves0005(), s)
  {
    OwnersFrom(); IdentitiesFrom(); QuotasFrom();
    NotThereYet(Owners0005(), 50, s, 49);
    NotThereYet(Identities0005(), 51, s, 49);
    NotThereYet(Quotas0005(), 52, s, 49);
    NoneThereAppend(Owners0005(), Identities0005(), s);
    NoneThereAppend(Owners0005() + Identities0005(), Quotas0005(), s);
  }

  lemma Nothing0007(s: Structure)
    requires Upto(s, 69)
    ensures NoneThere(Moves0007(), s)
  {
    ProspectsFrom(); ConsentsFrom();
    NotThereYet(Prospects0007(), 70, s, 69);
    NotThereYet(Consents0007(), 79, s, 69);
    NoneThereAppend(Prospects0007(), Consents0007(), s);
  }

  // ---- CampaignMetric stands as 0002 made it until 0010 --------------------

  predicate MetricAsListed(s: Structure) {
    && Tab(CampaignMetric) in s && Tab(Campaign) in s && s[Tab(CampaignMetric)] == TableDef
    && (forall o | o in s && OwnedBy(o, CampaignMetric) :: MadeBy(o, CampaignMetric, CampaignMetricColumns()))
    && (forall c | c in CampaignMetricColumns() ::
          Col(CampaignMetric, c) in s && s[Col(CampaignMetric, c)] == AtHome(CampaignMetricColumns()[c]))
  }

  lemma MetricOwned(o: Obj)
    requires OwnedBy(o, CampaignMetric)
    ensures Place(o) == 20
  {
  }

  lemma MetricStays(s: Structure, r: Structure)
    requires MetricAsListed(s) && Grown(s, r)
    ensures MetricAsListed(r)
  {
    forall o | o in r && OwnedBy(o, CampaignMetric) ensures MadeBy(o, CampaignMetric, CampaignMetricColumns()) {
      MetricOwned(o);
      assert o in s;
    }
  }

  lemma {:induction false} MadeBySome(ms: seq<Move>, n: nat, o: Obj)
    requires n <= |ms| && o in AllMade(ms, n)
    ensures exists k | n <= k < |ms| :: o in Made(ms[k])
    decreases |ms| - n
  {
    if o !in Made(ms[n]) {
      MadeBySome(ms, n + 1, o);
    }
  }

  lemma MetricBlock(c: Catalogue, k: nat)
    requires Listed(c) && k < |c.blocks| && c.blocks[k].t == CampaignMetric
    ensures c.blocks[k] == Block(CampaignMetric, CampaignMetricColumns(), [])
  {
  }

  lemma OwnedByItsBlock(c: Catalogue, o: Obj, k: nat)
    requires Ordered(c) && k < |c.blocks| && !o.Typ? && o.t == c.blocks[k].t && o in AllMade(UpgradeMoves(c), 0)
    ensures o in Made(BlockMove(c.blocks[k]))
  {
    MadeBySome(UpgradeMoves(c), 0, o);
    var i :| 0 <= i < |UpgradeMoves(c)| && o in Made(UpgradeMoves(c)[i]);
    MoveAt(c, i);
    MadeByThatBlock(c, UpgradeMoves(c)[i], i, o, k);
  }

  lemma MadeByThatBlock(c: Catalogue, m: Move, i: nat, o: Obj, k: nat)
    requires Ordered(c) && k < |c.blocks| && i < |c.enums| + |c.blocks| && o in Made(m) && !o.Typ? && o.t == c.blocks[k].t
    requires m == if i < |c.enums| then NewEnum(c.enums[i]) else BlockMove(c.blocks[i - |c.enums|])
    ensures m == BlockMove(c.blocks[k])
  {
    MadeByOwner(m, o);
  }

  lemma MoveAt(c: Catalogue, i: nat)
    requires i < |UpgradeMoves(c)|
    ensures UpgradeMoves(c)[i] == if i < |c.enums| then NewEnum(c.enums[i]) else BlockMove(c.blocks[i - |c.enums|])
  {
  }

  lemma MadeByOwner(m: Move, o: Obj)
    requires o in Made(m) && !o.Typ?
    ensures Owner(m) == o.t && (m.NewTable? || m.NewColumn? || m.NewIndex?)
  {
  }

  lemma Built0002(c: Catalogue, pub: set<Table>)
    requires Ordered(c)
    ensures Exec(Upgrade(c), map[], pub).Ok?
    ensures var r := Exec(Upgrade(c), map[], pub).value;
            && WellFormed(r) && Complete(c, r) && r.Keys <= AllMade(UpgradeMoves(c), 0)
            && forall k | 0 <= k < |c.blocks| :: HasColumns(c.blocks[k], r)
  {
    UpgradeCompletes(c, map[], pub);
    UpgradeIsMoves(c);
    var ms := UpgradeMoves(c);
    MovesAreAdditive(ms);
    AdditiveExtends(Steps(ms), map[], pub);
    assert Steps(ms)[0..] == Steps(ms);
    StepsCreate(ms, 0);
  }

  lemma MetricPlaced(c: Catalogue)
    requires Listed(c)
    ensures HasTable(c, CampaignMetric) && HasTable(c, Campaign)
  {
    assert Position(CampaignMetric) == 24 && Position(Campaign) == 19;
  }

  lemma MetricAfter0002(c: Catalogue, pub: set<Table>)
    requires Listed(c)
    ensures Exec(Upgrade(c), map[], pub).Ok? && MetricAsListed(Exec(Upgrade(c), map[], pub).value)
  {
    Built0002(c, pub);
    MetricPlaced(c);
    var k :| 0 <= k < |c.blocks| && c.blocks[k].t == CampaignMetric;
    MetricBlock(c, k);
    MetricBuilt(c, Exec(Upgrade(c), map[], pub).value, k);
  }

  lemma MetricBuilt(c: Catalogue, r: Structure, k: nat)
    requires Listed(c) && k < |c.blocks| && c.blocks[k] == Block(CampaignMetric, CampaignMetricColumns(), [])
    requires WellFormed(r) && Complete(c, r) && HasTable(c, Campaign) && HasColumns(c.blocks[k], r)
    requires r.Keys <= AllMade(UpgradeMoves(c), 0)
    ensures MetricAsListed(r)
  {
    assert Tab(c.blocks[k].t) in r && ObjectOk(r, Tab(CampaignMetric));
    forall o | o in r && OwnedBy(o, CampaignMetric) ensures MadeBy(o, CampaignMetric, CampaignMetricColumns()) {
      OwnedByItsBlock(c, o, k);
    }
  }

  lemma MetricAt2()
    ensures MetricAsListed(TenantAt(2))
  {
    Tables0002Listed();
    MetricAfter0002(Tables0002(), {global_llm_config});
    TenantAdvance(2, {global_llm_config});
    TenantAdvance(1, {global_llm_config});
    TenantAtState(1);
  }

  lemma MetricOnward(r: nat)
    requires 2 <= r < 10 && (r > 2 ==> MetricAsListed(TenantAt(r - 1)))
    ensures MetricAsListed(TenantAt(r))
  {
    if r == 2 {
      MetricAt2();
    } else {
      TenantAtState(r - 1);
      TenantStep(r, TenantAt(r - 1), {global_llm_config});
      TenantAdvance(r, {global_llm_config});
      MetricStays(TenantAt(r - 1), TenantAt(r));
    }
  }

  lemma {:induction false} MetricAt(r: nat)
    requires 2 <= r < 10
    ensures MetricAsListed(TenantAt(r))
  {
    if r > 2 {
      MetricAt(r - 1);
    }
    MetricOnward(r);
  }

  lemma MetricIsAsCreated(s: Structure, pub: set<Table>)
    requires MetricAsListed(s)
    ensures AsCreated(s, CampaignMetric, CampaignMetricColumns(), pub)
  {
    MetricColumns();
    var specs := CampaignMetricColumns();
    forall c | c in specs
      ensures SpecOk(specs[c], s, pub) && s[Col(CampaignMetric, c)] == Stored(specs[c], s)
    {
      assert specs[c] == Plain() || specs[c] == Fk(Campaign);
    }
  }

  // ---- Restoring -----------------------------------------------------------

  /** Upgrading a schema that stands at the revision before and downgrading it again gives back
      exactly the structure it had, for 0002, 0005, 0007, 0010, 0011, 0015, 0016 and 0017. */
  lemma DowngradeRestores(n: nat, pub: set<Table>)
    requires Reversible(n)
    ensures Exec(TenantUp(n), TenantAt(n - 1), pub) == Ok(TenantAt(n))
    ensures Exec(TenantDown(n), TenantAt(n), pub) == Ok(TenantAt(n - 1))
  {
    TenantAdvance(n, pub);
    TenantAtState(n - 1);
    BeforeDowngrade(n);
    RestoresFrom(n, TenantAt(n - 1), pub);
  }

  lemma BeforeDowngrade(n: nat)
    requires Reversible(n)
    ensures n == 10 ==> MetricAsListed(TenantAt(n - 1))
  {
    if n == 10 {
      MetricAt(n - 1);
    }
  }

  lemma RestoresFrom(n: nat, s: Structure, pub: set<Table>)
    requires Reversible(n) && TenantState(n - 1, s) && Exec(TenantUp(n), s, pub).Ok?
    requires n == 10 ==> MetricAsListed(s)
    ensures Exec(TenantDown(n), Exec(TenantUp(n), s, pub).value, pub) == Ok(s)
  {
    match n
    case 2 => Tables0002Ordered(); Undo0002(Tables0002(), pub);
    case 5 => Nothing0005(s); RoundTrip0005(s, pub);
    case 7 => Nothing0007(s); RoundTrip0007(s, pub);
    case 10 => MetricIsAsCreated(s, pub); RoundTrip0010(s, pub);
    case 11 => EngagementFrom(); NotThereYet(Moves0011(), 110, s, 109); RoundTrip0011(s, pub);
    case 15 => RenamesNew(s); RoundTrip0015(s, pub);
    case 16 => IcpMatchFrom(); NotThereYet(Moves0016(), 160, s, 159); RoundTrip0016(s, pub);
    case 17 => MailBridgeFrom(); NotThereYet(Moves0017(), 170, s, 169); RoundTrip0017(s, pub);
  }

  lemma RenamesNew(s: Structure)
    requires Upto(s, 149)
    ensures forall x | x in Renames0015() :: NotYetRenamed(x, s)
  {
    RenamesPlaced();
    forall x | x in Renames0015() ensures NotYetRenamed(x, s) {
      var k :| 0 <= k < |Renames0015()| && Renames0015()[k] == x;
      assert Place(Col(x.t, x.b)) == 150;
    }
  }

  // ---- 0002 ----------------------------------------------------------------

  lemma BuiltIsLayered(c: Catalogue, r: Structure)
    requires Ordered(c) && r.Keys <= AllMade(UpgradeMoves(c), 0)
    requires forall k | 0 <= k < |c.blocks| :: HasColumns(c.blocks[k], r)
    ensures Layered(c, r)
  {
    forall o, k | o in r && 0 <= k < |c.blocks| && o.Col? && o.t == c.blocks[k].t && PointsInside(r[o])
      ensures Before(c, r[o].ref.r, k)
    {
      var b := c.blocks[k];
      OwnedByItsBlock(c, o, k);
      assert MadeBy(o, b.t, b.specs) && HasColumns(b, r);
      assert SpecBackwards(c, k, b.specs[o.c]);
    }
  }

  /** Dropping everything 0002 has built in an empty schema, in the reverse order, never meets a table
      or type that is still referenced and leaves nothing. */
  lemma Undo0002(c: Catalogue, pub: set<Table>)
    requires Ordered(c)
    ensures Exec(Upgrade(c), map[], pub).Ok?
    ensures Exec(Downgrade(c), Exec(Upgrade(c), map[], pub).value, pub) == Ok(map[])
  {
    Built0002(c, pub);
    UpgradeCompletes(c, map[], pub);
    var r := Exec(Upgrade(c), map[], pub).value;
    BuiltIsLayered(c, r);
    assert forall o | o in r :: Belongs(c, o);
    assert forall o | o in r :: !HoldsOn(c, r, o);
    DowngradeSucceedsIff(c, r, pub);
    assert Rest(c, r) == map[];
  }

  // ---- Replay at head ------------------------------------------------------

  lemma ExecTwo(p: Program, q: Program, s: Structure, mid: Structure, e: Structure, pub: set<Table>)
    requires Exec(p, s, pub) == Ok(mid) && Exec(q, mid, pub) == Ok(e)
    ensures Exec(p + q, s, pub) == Ok(e)
  {
    ExecAppend(p, q, s, pub);
  }

  /** `at[n]` is what migration `n` makes of `at[n - 1]`. */
  predicate Follows(at: seq<Structure>, pub: set<Table>) {
    |at| == HEAD + 1 && forall n | 1 <= n <= HEAD :: Exec(TenantUp(n), at[n - 1], pub) == Ok(at[n])
  }

  lemma FollowsAt(at: seq<Structure>, n: nat, pub: set<Table>)
    requires Follows(at, pub) && 1 <= n <= HEAD
    ensures Exec(TenantUp(n), at[n - 1], pub) == Ok(at[n])
  {
  }

  lemma EarlyFollows(at: seq<Structure>, pub: set<Table>)
    requires Follows(at, pub)
    ensures Exec(Early(), at[2], pub) == Ok(at[7])
  {
    FollowsAt(at, 3, pub); FollowsAt(at, 4, pub); FollowsAt(at, 5, pub); FollowsAt(at, 6, pub); FollowsAt(at, 7, pub);
    EarlyFrom(at[2], at[3], at[4], at[5], at[6], at[7], Steps(Moves0003()), Steps(Moves0004()), Steps(Moves0005()),
              Steps(Moves0006()), Steps(Moves0007()), pub);
  }

  lemma EarlyFrom(a: Structure, b: Structure, c: Structure, d: Structure, e: Structure, f: Structure,
                  p: Program, q: Program, r: Program, t: Program, u: Program, pub: set<Table>)
    requires Exec(p, a, pub) == Ok(b) && Exec(q, b, pub) == Ok(c) && Exec(r, c, pub) == Ok(d)
    requires Exec(t, d, pub) == Ok(e) && Exec(u, e, pub) == Ok(f)
    ensures Exec(p + q + r + t + u, a, pub) == Ok(f)
  {
    ExecTwo(p, q, a, b, c, pub);
    ExecTwo(p + q, r, a, c, d, pub);
    ExecTwo(p + q + r, t, a, d, e, pub);
    ExecTwo(p + q + r + t, u, a, e, f, pub);
  }

  /** The migrations without a tenant side leave the structure alone. */
  lemma Gaps(at: seq<Structure>, pub: set<Table>)
    requires Follows(at, pub)
    ensures at[9] == at[7] && at[12] == at[11] && at[14] == at[13] && at[1] == at[0]
  {
    FollowsAt(at, 1, pub); FollowsAt(at, 8, pub); FollowsAt(at, 9, pub); FollowsAt(at, 12, pub); FollowsAt(at, 14, pub);
  }

  lemma TailFollows(at: seq<Structure>, pub: set<Table>)
    requires Follows(at, pub)
    ensures Exec(Up0010() + Tail(Up0013()), at[9], pub) == Ok(at[17])
  {
    Gaps(at, pub);
    FollowsAt(at, 10, pub); FollowsAt(at, 11, pub); FollowsAt(at, 13, pub);
    FollowsAt(at, 15, pub); FollowsAt(at, 16, pub); FollowsAt(at, 17, pub);
    TailFrom(at[9], at[10], at[11], at[13], at[15], at[16], at[17], Up0010(), Steps(Moves0011()), Up0013(), Up0015(),
             Steps(Moves0016()), Steps(Moves0017()), pub);
  }

  lemma TailFrom(a: Structure, b: Structure, c: Structure, d: Structure, e: Structure, f: Structure, g: Structure,
                 p: Program, q: Program, r: Program, t: Program, u: Program, v: Program, pub: set<Table>)
    requires Exec(p, a, pub) == Ok(b) && Exec(q, b, pub) == Ok(c) && Exec(r, c, pub) == Ok(d)
    requires Exec(t, d, pub) == Ok(e) && Exec(u, e, pub) == Ok(f) && Exec(v, f, pub) == Ok(g)
    ensures Exec(p + (q + (r + (t + (u + v)))), a, pub) == Ok(g)
  {
    ExecTwo(u, v, e, f, g, pub);
    ExecTwo(t, u + v, d, e, g, pub);
    ExecTwo(r, t + (u + v), c, d, g, pub);
    ExecTwo(q, r + (t + (u + v)), b, c, g, pub);
    ExecTwo(p, q + (r + (t + (u + v))), a, b, g, pub);
  }

  lemma ChainFollows(at: seq<Structure>, pub: set<Table>)
    requires Follows(at, pub)
    ensures Exec(Chain(Tables0002(), Up0013()), at[1], pub) == Ok(at[17])
  {
    Gaps(at, pub);
    FollowsAt(at, 2, pub);
    EarlyFollows(at, pub);
    TailFollows(at, pub);
    ExecTwo(Upgrade(Tables0002()), Early(), at[1], at[2], at[7], pub);
    ExecTwo(Upgrade(Tables0002()) + Early(), Up0010() + Tail(Up0013()), at[1], at[7], at[17], pub);
  }

  /** A tenant schema at head is a fixed point of the guarded migrations 0002 to 0007, 0010, 0011 and
      0015 to 0017. */
  lemma HeadReplays(head: nat, pub: set<Table>)
    requires head == HEAD && global_llm_config in pub
    ensures Exec(Chain(Tables0002(), []), TenantAt(head), pub) == Ok(TenantAt(head))
  {
    var at := seq(HEAD + 1, n requires 0 <= n <= HEAD => TenantAt(n));
    forall n | 1 <= n <= HEAD ensures Exec(TenantUp(n), at[n - 1], pub) == Ok(at[n]) {
      TenantAdvance(n, pub);
    }
    ChainFollows(at, pub);
    FirstStates(at[1], at[0]);
    ReplayChangesNothing(Up0013(), at[1], pub);
  }

  lemma FirstStates(one: Structure, zero: Structure)
    requires one == TenantAt(1) && zero == TenantAt(0)
    ensures WellFormed(one)
  {
    TenantAtState(1);
  }
}
