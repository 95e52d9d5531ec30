/** Downgrading right after upgrading: for each reversible migration, exactly which schemas come
    back unchanged. */
module MigrationRoundTrips {
  import opened Wrappers
  import opened SchemaNames
  import opened Ddl
  import opened GuardedMoves
  import opened DdlRoundTrip
  import opened Catalogue0002
  import opened ColumnRenames
  import opened TenantMigrations

  /** Upgrading `s` and then downgrading gives back `s`, object for object. */
  predicate Restores(u: Program, d: Program, s: Structure, pub: set<Table>)
    requires Exec(u, s, pub).Ok?
  {
    Exec(d, Exec(u, s, pub).value, pub) == Ok(s)
  }

  // ---- 0005, 0007, 0011, 0016, 0017: drop what was added -------------------

  lemma MovesRoundTrip(ms: seq<Move>, ds: seq<Obj>, ifTable: bool, refs: iset<(Table, Table)>, s: Structure,
                       pub: set<Table>)
    requires AllReversed(ms, ds, refs)
    requires forall n | 0 <= n < |ds| :: Awaited(ms, ds[n]) && ReferrersFirst(ds, n, refs)
    requires WellFormed(s) && Exec(Steps(ms), s, pub).Ok?
    ensures Restores(Steps(ms), DropSteps(ds, ifTable), s, pub) <==> NoneThere(ms, s)
  {
    MovesReversed(ms, ds, ifTable, refs);
    RoundTripIff(Steps(ms), DropSteps(ds, ifTable), ds, refs, s, pub);
    if NoneThere(ms, s) {
      forall step | step in Steps(ms) ensures step.absent !! s.Keys {
        var n :| 0 <= n < |ms| && Steps(ms)[n] == step;
        assert Absent(ms[n]) !! s.Keys;
      }
    } else {
      var n :| 0 <= n < |ms| && !(Absent(ms[n]) !! s.Keys);
      assert Steps(ms)[n] in Steps(ms) && Steps(ms)[n].absent == Absent(ms[n]);
    }
  }

  /** None of the objects the moves look for before creating them exists. */
  predicate NoneThere(ms: seq<Move>, s: Structure) {
    forall n | 0 <= n < |ms| :: Absent(ms[n]) !! s.Keys
  }

  lemma Reversed0005()
    ensures AllReversed(Moves0005(), Dropped0005(), iset{})
  {
    var ds := Dropped0005();
    assert Tab(user_email_quotas) == ds[0] && Tab(user_sender_identities) == ds[1];
    assert Idx(Sequence, ix_Sequence_owner_user_id) == ds[2] && Idx(Campaign, ix_Campaign_owner_user_id) == ds[3];
    assert Col(Sequence, owner_user_id) == ds[4] && Col(Campaign, owner_user_id) == ds[5];
  }

  lemma Dropped0005Fits()
    ensures forall n | 0 <= n < |Dropped0005()| ::
              Awaited(Moves0005(), Dropped0005()[n]) && ReferrersFirst(Dropped0005(), n, iset{})
  {
    var ms, ds := Moves0005(), Dropped0005();
    assert ds[0] in Absent(ms[6]) && ds[1] in Absent(ms[4]) && ds[2] in Absent(ms[3]);
    assert ds[3] in Absent(ms[1]) && ds[4] in Absent(ms[2]) && ds[5] in Absent(ms[0]);
  }

  /** 0005 comes back exactly when none of its two tables, two columns and five indexes existed. */
  lemma RoundTrip0005(s: Structure, pub: set<Table>)
    requires WellFormed(s) && Exec(Steps(Moves0005()), s, pub).Ok?
    ensures Restores(Steps(Moves0005()), DropSteps(Dropped0005(), false), s, pub) <==> NoneThere(Moves0005(), s)
  {
    Reversed0005();
    Dropped0005Fits();
    MovesRoundTrip(Moves0005(), Dropped0005(), false, iset{}, s, pub);
  }

  ghost function Keys0007(): iset<(Table, Table)> {
    iset{(consents, Prospect), (consent_logs, consents)}
  }

  lemma Reversed0007()
    ensures AllReversed(Moves0007(), Dropped0007(), Keys0007())
  {
    var ds := Dropped0007();
    assert Tab(consent_logs) == ds[0] && Tab(consents) == ds[1];
    assert Idx(Prospect, ix_Prospect_consent_status) == ds[2] && Idx(Prospect, ix_Prospect_deleted_at) == ds[3];
    assert Col(Prospect, anonymized) == ds[4] && Col(Prospect, deleted_at) == ds[5];
    assert Col(Prospect, lawful_basis) == ds[6] && Col(Prospect, consent_status) == ds[7];
  }

  lemma Awaited0007()
    ensures forall n | 0 <= n < 8 :: Awaited(Moves0007(), Dropped0007()[n])
  {
    var ms, ds := Moves0007(), Dropped0007();
    assert forall n | 0 <= n < 8 :: ds[n] in Absent(ms[7 - n]);
  }

  lemma ReferrersFirst0007()
    ensures forall n | 0 <= n < 8 :: ReferrersFirst(Dropped0007(), n, Keys0007())
  {
    var ds := Dropped0007();
    assert ds[0] in ds[..1];
  }

  /** 0007 comes back exactly when none of its four columns, two indexes and two tables existed;
      consent_logs, which references consents, is dropped first. */
  lemma RoundTrip0007(s: Structure, pub: set<Table>)
    requires WellFormed(s) && Exec(Steps(Moves0007()), s, pub).Ok?
    ensures Restores(Steps(Moves0007()), DropSteps(Dropped0007(), false), s, pub) <==> NoneThere(Moves0007(), s)
  {
    Reversed0007();
    Awaited0007();
    ReferrersFirst0007();
    MovesRoundTrip(Moves0007(), Dropped0007(), false, Keys0007(), s, pub);
  }

  lemma RoundTrip0011(s: Structure, pub: set<Table>)
    requires WellFormed(s) && Exec(Steps(Moves0011()), s, pub).Ok?
    ensures Restores(Steps(Moves0011()), DropSteps(Dropped0011(), false), s, pub) <==> NoneThere(Moves0011(), s)
  {
    var ms, ds := Moves0011(), Dropped0011();
    assert ds[0] in Absent(ms[1]) && ds[1] in Absent(ms[0]);
    MovesRoundTrip(ms, ds, false, iset{}, s, pub);
  }

  /** 0016 also comes back when the table is missing: both directions then do nothing. */
  lemma RoundTrip0016(s: Structure, pub: set<Table>)
    requires WellFormed(s) && Exec(Steps(Moves0016()), s, pub).Ok?
    ensures Restores(Steps(Moves0016()), DropSteps(Dropped0016(), true), s, pub) <==> NoneThere(Moves0016(), s)
  {
    var ms, ds := Moves0016(), Dropped0016();
    assert ds[0] in Absent(ms[1]) && ds[1] in Absent(ms[0]);
    MovesRoundTrip(ms, ds, true, iset{}, s, pub);
  }

  lemma RoundTrip0017(s: Structure, pub: set<Table>)
    requires WellFormed(s) && Exec(Steps(Moves0017()), s, pub).Ok?
    ensures Restores(Steps(Moves0017()), DropSteps(Dropped0017(), true), s, pub) <==> NoneThere(Moves0017(), s)
  {
    var ms, ds := Moves0017(), Dropped0017();
    assert ds[0] in Absent(ms[1]) && ds[1] in Absent(ms[0]);
    MovesRoundTrip(ms, ds, true, iset{}, s, pub);
  }

  // ---- 0010: recreate what was dropped -------------------------------------

  /** Table `t` stands in `s` exactly as creating it with `specs` would leave it. */
  predicate AsCreated(s: Structure, t: Table, specs: map<Column, ColumnSpec>, pub: set<Table>) {
    && (forall o | o in s && OwnedBy(o, t) :: MadeBy(o, t, specs))
    && Tab(t) in s && s[Tab(t)] == TableDef
    && (forall c | c in specs :: SpecOk(specs[c], s, pub) && Col(t, c) in s && s[Col(t, c)] == Stored(specs[c], s))
  }

  function Without(s: Structure, t: Table): Structure {
    map o | o in s && !OwnedBy(o, t) :: s[o]
  }

  predicate SparesSelf(specs: map<Column, ColumnSpec>, t: Table) {
    forall c | c in specs :: specs[c].fk.NoKey? || (specs[c].fk.Unqualified? && specs[c].fk.r != t)
  }

  lemma RecreatedWasThere(s: Structure, t: Table, specs: map<Column, ColumnSpec>, pub: set<Table>)
    requires SparesSelf(specs, t) && Apply(CreateTable(t, specs), Without(s, t), pub) == Ok(s)
    ensures AsCreated(s, t, specs, pub)
  {
    var gone := Without(s, t);
    assert s == gone + CreatedTable(t, specs, gone);
    forall c | c in specs ensures SpecOk(specs[c], s, pub) && Stored(specs[c], gone) == Stored(specs[c], s) {
      assert SpecOk(specs[c], gone, pub);
    }
  }

  lemma RebuiltInPlace(s: Structure, t: Table, specs: map<Column, ColumnSpec>, pub: set<Table>)
    requires SparesSelf(specs, t) && AsCreated(s, t, specs, pub)
    ensures Without(s, t) + CreatedTable(t, specs, Without(s, t)) == s
  {
    var gone := Without(s, t);
    var made := CreatedTable(t, specs, gone);
    forall c | c in specs ensures made[Col(t, c)] == s[Col(t, c)] {
      StoredAlike(specs[c], s, t);
    }
    MadeInPlace(s, gone, made, t, specs);
  }

  lemma StoredAlike(spec: ColumnSpec, s: Structure, t: Table)
    requires spec.fk.NoKey? || (spec.fk.Unqualified? && spec.fk.r != t)
    ensures Stored(spec, Without(s, t)) == Stored(spec, s)
  {
  }

  lemma MadeInPlace(s: Structure, gone: Structure, made: Structure, t: Table, specs: map<Column, ColumnSpec>)
    requires forall o | o in s && OwnedBy(o, t) :: MadeBy(o, t, specs)
    requires gone == Without(s, t)
    requires forall o :: o in made <==> MadeBy(o, t, specs)
    requires Tab(t) in s && Tab(t) in made && s[Tab(t)] == made[Tab(t)]
    requires forall c | c in specs :: Col(t, c) in s && Col(t, c) in made && made[Col(t, c)] == s[Col(t, c)]
    ensures gone + made == s
  {
    forall o | o in made ensures o in s && s[o] == made[o] {
      assert MadeBy(o, t, specs);
    }
    assert forall o | o in s && OwnedBy(o, t) :: o in made;
  }

  lemma RecreatedComesBack(s: Structure, t: Table, specs: map<Column, ColumnSpec>, pub: set<Table>)
    requires SparesSelf(specs, t) && AsCreated(s, t, specs, pub)
    ensures Apply(CreateTable(t, specs), Without(s, t), pub) == Ok(s)
  {
    forall c | c in specs ensures SpecOk(specs[c], Without(s, t), pub) {
      assert SpecOk(specs[c], s, pub);
    }
    RebuiltInPlace(s, t, specs, pub);
  }

  /** 0010 comes back exactly when CampaignMetric was there in the form 0002 gives it: the
      downgrade rebuilds that form, whatever was dropped and even if nothing was. */
  lemma RoundTrip0010(s: Structure, pub: set<Table>)
    requires WellFormed(s) && Exec(Up0010(), s, pub).Ok?
    ensures Restores(Up0010(), Down0010(), s, pub) <==> AsCreated(s, CampaignMetric, CampaignMetricColumns(), pub)
  {
    MetricKeys();
    DropMakeRoundTrip(s, CampaignMetric, CampaignMetricColumns(), pub);
  }

  lemma MetricKeys()
    ensures SparesSelf(CampaignMetricColumns(), CampaignMetric)
  {
  }

  lemma DropMakeRoundTrip(s: Structure, t: Table, specs: map<Column, ColumnSpec>, pub: set<Table>)
    requires SparesSelf(specs, t)
    requires WellFormed(s) && Exec(DropSteps([Tab(t)], false), s, pub).Ok?
    ensures Restores(DropSteps([Tab(t)], false), Steps([NewTable(t, specs, [])]), s, pub) <==> AsCreated(s, t, specs, pub)
  {
    var drop, make := Step({Tab(t)}, {}, [DropTable(t)]), Step({}, {Tab(t)}, [CreateTable(t, specs)]);
    assert DropSteps([Tab(t)], false)[0] == drop;
    assert DropSteps([Tab(t)], false) == [drop];
    assert Ops(NewTable(t, specs, [])) == [CreateTable(t, specs)];
    assert Steps([NewTable(t, specs, [])])[0] == make;
    assert Steps([NewTable(t, specs, [])]) == [make];
    ExecOne(drop, s, pub);
    ApplyOne(DropTable(t), s, pub);
    var mid := Exec([drop], s, pub).value;
    ExecOne(make, mid, pub);
    ApplyOne(CreateTable(t, specs), mid, pub);
    if Tab(t) in s {
      assert mid == Without(s, t);
      if AsCreated(s, t, specs, pub) {
        RecreatedComesBack(s, t, specs, pub);
      } else if Apply(CreateTable(t, specs), mid, pub) == Ok(s) {
        RecreatedWasThere(s, t, specs, pub);
      }
    }
  }

  // ---- 0015: rename back ---------------------------------------------------

  lemma Renames0015Disjoint()
    ensures PairwiseDisjoint(Renames0015())
    ensures forall k | 0 <= k < |Renames0015()| :: Renames0015()[k].a != Renames0015()[k].b
  {
  }

  lemma RenamesRoundTrip(xs: seq<Rename>, s: Structure, pub: set<Table>)
    requires WellFormed(s) && PairwiseDisjoint(xs) && forall k | 0 <= k < |xs| :: xs[k].a != xs[k].b
    ensures Exec(RenameSteps(xs), s, pub).Ok?
    ensures Restores(RenameSteps(xs), RenameSteps(Back(xs)), s, pub) <==>
            forall x | x in xs :: NotYetRenamed(x, s)
  {
    RenameStepsRun(xs, s, pub);
    RenameStepsRun(Back(xs), FlipAll(s, xs), pub);
    RenamesBackIff(s, xs);
    assert (forall k | 0 <= k < |xs| :: NotYetRenamed(xs[k], s)) <==> (forall x | x in xs :: NotYetRenamed(x, s));
  }

  /** 0015 always runs, and comes back exactly when neither table already had a camel-case
      column without its snake-case form: the downgrade would rename such a column by itself. */
  lemma RoundTrip0015(s: Structure, pub: set<Table>)
    requires WellFormed(s)
    ensures Exec(Up0015(), s, pub).Ok?
    ensures Restores(Up0015(), Down0015(), s, pub) <==> forall x | x in Renames0015() :: NotYetRenamed(x, s)
  {
    Renames0015Disjoint();
    RenamesRoundTrip(Renames0015(), s, pub);
  }
}
