/** Replaying the tenant migrations on a schema they have already been run on. */
module MigrationReplay {
  import opened Wrappers
  import opened SchemaNames
  import opened Ddl
  import opened DdlPrograms
  import opened GuardedMoves
  import opened DdlRoundTrip
  import opened TenantTables
  import opened Catalogue0002
  import opened ColumnRenames
  import opened TenantMigrations

  function UpgradeMoves(c: Catalogue): (ms: seq<Move>)
    ensures |ms| == |c.enums| + |c.blocks|
  {
    seq(|c.enums|, k requires 0 <= k < |c.enums| => NewEnum(c.enums[k])) +
    seq(|c.blocks|, k requires 0 <= k < |c.blocks| => BlockMove(c.blocks[k]))
  }

  function EarlyMoves(): seq<Move> {
    Moves0003() + Moves0004() + Moves0005() + Moves0006() + Moves0007()
  }

  function Early(): Program {
    Steps(Moves0003()) + Steps(Moves0004()) + Steps(Moves0005()) + Steps(Moves0006()) + Steps(Moves0007())
  }

  function LateMoves(): seq<Move> {
    Moves0016() + Moves0017()
  }

  function Late(): Program {
    Steps(Moves0016()) + Steps(Moves0017())
  }

  /** The tenant migrations in order; `extra` stands where 0013 does. */
  function Chain(c: Catalogue, extra: Program): Program {
    Upgrade(c) + Early() + (Up0010() + (Steps(Moves0011()) + (extra + (Up0015() + Late()))))
  }

  // ---- What later migrations can take away ---------------------------------

  /** Objects that a later migration drops or renames. */
  predicate Volatile(o: Obj) {
    || OwnedBy(o, CampaignMetric)
    || (o.Col? && (o.t == user_sender_identities || o.t == user_email_quotas) &&
        (o.c == created_at || o.c == updated_at || o.c == createdAt || o.c == updatedAt))
  }

  predicate Keeps(s: Structure, s1: Structure) {
    forall o | o in s && !Volatile(o) :: o in s1
  }

  /** A move with no condition beyond its own object, none of whose objects is ever taken away. */
  predicate Calm(m: Move) {
    match m
    case NewTable(t, _, _) => t != CampaignMetric
    case NewColumn(t, c, _, _, ifTable) => !Volatile(Col(t, c)) && !ifTable
    case NewIndex(t, _, _) => t != CampaignMetric
    case NewEnum(_) => true
    case Touches(needs) => forall o | o in needs :: !Volatile(o)
  }

  predicate AllCalm(ms: seq<Move>) {
    forall n | 0 <= n < |ms| :: Calm(ms[n])
  }

  lemma Calm0003()
    ensures AllCalm(Moves0003())
  {
  }

  lemma Calm0004()
    ensures AllCalm(Moves0004())
  {
  }

  lemma Calm0005()
    ensures AllCalm(Moves0005())
  {
  }

  lemma Calm0006()
    ensures AllCalm(Moves0006())
  {
  }

  lemma Calm0007()
    ensures AllCalm(Moves0007())
  {
  }

  lemma CalmAppend(a: seq<Move>, b: seq<Move>)
    requires AllCalm(a) && AllCalm(b)
    ensures AllCalm(a + b)
  {
  }

  lemma EarlyCalm()
    ensures AllCalm(EarlyMoves())
  {
    Calm0003(); Calm0004(); Calm0005(); Calm0006(); Calm0007();
    CalmAppend(Moves0003(), Moves0004());
    CalmAppend(Moves0003() + Moves0004(), Moves0005());
    CalmAppend(Moves0003() + Moves0004() + Moves0005(), Moves0006());
    CalmAppend(Moves0003() + Moves0004() + Moves0005() + Moves0006(), Moves0007());
  }

  lemma CalmStays(m: Move, s: Structure, s1: Structure)
    requires Calm(m) && Settled(StepOf(m), s) && Keeps(s, s1)
    ensures Settled(StepOf(m), s1)
  {
    assert Ops(m)[0] == Head(m);
    if m.Touches? {
      assert Ops(m) == [Touch(m.needs)];
      assert Guard(StepOf(m), s);
    } else {
      var o :| o in Absent(m) && o in s;
      assert !Volatile(o);
    }
  }

  lemma AllCalmStay(ms: seq<Move>, s: Structure, s1: Structure)
    requires AllCalm(ms) && AllSettled(Steps(ms), s) && Keeps(s, s1)
    ensures AllSettled(Steps(ms), s1)
  {
    forall n | 0 <= n < |ms| ensures Settled(StepOf(ms[n]), s1) {
      assert Steps(ms)[n] in Steps(ms);
      CalmStays(ms[n], s, s1);
    }
  }

  predicate NoMetric(s: Structure) {
    Tab(CampaignMetric) !in s
  }

  lemma CalmMoveMakesNoMetric(m: Move)
    requires Calm(m)
    ensures Tab(CampaignMetric) !in Made(m)
  {
  }

  lemma {:induction false} CalmMakesNoMetric(ms: seq<Move>, n: nat)
    requires n <= |ms| && AllCalm(ms)
    ensures Tab(CampaignMetric) !in AllMade(ms, n)
    decreases |ms| - n
  {
    if n < |ms| {
      CalmMoveMakesNoMetric(ms[n]);
      CalmMakesNoMetric(ms, n + 1);
    }
  }

  /** Running moves without conditions leaves them settled. */
  lemma MovesSettle(ms: seq<Move>, s: Structure, pub: set<Table>)
    requires WellFormed(s) && Exec(Steps(ms), s, pub).Ok?
    requires forall n, o | 0 <= n < |ms| && o in Present(ms[n]) :: o !in AllMade(ms, 0)
    ensures var r := Exec(Steps(ms), s, pub).value;
            WellFormed(r) && AllSettled(Steps(ms), r) && Extends(s, r) && r.Keys <= s.Keys + AllMade(ms, 0)
  {
    MovesAreAdditive(ms);
    assert Steps(ms)[0..] == Steps(ms);
    StepsCreate(ms, 0);
    forall step | step in Steps(ms) ensures step.present !! ProgramCreates(Steps(ms)) {
      var n :| 0 <= n < |ms| && Steps(ms)[n] == step;
      assert forall o | o in step.present :: o in Present(ms[n]);
    }
    AdditiveSettles(Steps(ms), s, pub);
    AdditiveExtends(Steps(ms), s, pub);
  }

  lemma SettledAppend(p: Program, q: Program, s: Structure)
    ensures AllSettled(p + q, s) <==> AllSettled(p, s) && AllSettled(q, s)
  {
    assert forall step | step in p :: step in p + q;
    assert forall step | step in q :: step in p + q;
  }

  // ---- One pass over the chain ---------------------------------------------

  /** The state a chain run ends in: everything is in place except CampaignMetric. */
  predicate Finished(ms: seq<Move>, j: nat, e: Structure)
    requires j < |ms|
  {
    && WellFormed(e) && NoMetric(e)
    && AllSettled(Steps(ms[..j]), e) && AllSettled(Steps(ms[j + 1..]), e)
    && AllSettled(Steps(Moves0011()), e) && AllSettled(Up0015(), e) && AllSettled(Late(), e)
  }

  lemma Splits(ms: seq<Move>, j: nat)
    requires j < |ms|
    ensures Steps(ms) == Steps(ms[..j]) + ([StepOf(ms[j])] + Steps(ms[j + 1..]))
  {
  }

  lemma DropMetric(s: Structure, pub: set<Table>)
    requires WellFormed(s) && Exec(Up0010(), s, pub).Ok?
    ensures var r := Exec(Up0010(), s, pub).value;
            WellFormed(r) && NoMetric(r) && Keeps(s, r)
  {
    var drop := Step({Tab(CampaignMetric)}, {}, [DropTable(CampaignMetric)]);
    assert Up0010() == [drop];
    RunKeepsWellFormed(Up0010(), s, pub);
    ExecOne(drop, s, pub);
    ApplyOne(DropTable(CampaignMetric), s, pub);
  }

  predicate VolatileRename(x: Rename) {
    Volatile(Col(x.t, x.a)) && x.t != CampaignMetric
  }

  lemma FlipKeeps(s: Structure, x: Rename)
    requires VolatileRename(x)
    ensures Keeps(s, Flip(s, x)) && (NoMetric(s) ==> NoMetric(Flip(s, x)))
  {
  }

  lemma {:induction false} FlipAllKeeps(s: Structure, xs: seq<Rename>)
    requires WellFormed(s) && PairwiseDisjoint(xs)
    requires forall k | 0 <= k < |xs| :: VolatileRename(xs[k])
    ensures WellFormed(FlipAll(s, xs))
    ensures Keeps(s, FlipAll(s, xs)) && (NoMetric(s) ==> NoMetric(FlipAll(s, xs)))
    ensures forall k | 0 <= k < |xs| :: !Fires(xs[k], FlipAll(s, xs))
    decreases |xs|
  {
    if xs != [] {
      var x, s1 := xs[0], Flip(s, xs[0]);
      FlipKeeps(s, x);
      FlipKeepsWellFormed(s, x);
      FlipAllKeeps(s1, xs[1..]);
      assert forall k | 0 < k < |xs| :: xs[k] == xs[1..][k - 1];
      FlippedStays(s1, x, xs[1..]);
    }
  }

  lemma {:induction false} FlippedStays(s: Structure, x: Rename, xs: seq<Rename>)
    requires !Fires(x, s) && forall k | 0 <= k < |xs| :: Disjoint(xs[k], x)
    ensures !Fires(x, FlipAll(s, xs))
    decreases |xs|
  {
    if xs != [] {
      FlipSparesPair(s, xs[0], x);
      FlippedStays(Flip(s, xs[0]), x, xs[1..]);
    }
  }

  lemma RenamesAreVolatile()
    ensures PairwiseDisjoint(Renames0015())
    ensures forall k | 0 <= k < |Renames0015()| ::
              VolatileRename(Renames0015()[k])
  {
  }

  lemma RenamesSettled(s: Structure, xs: seq<Rename>)
    ensures AllSettled(RenameSteps(xs), s) <==> forall k | 0 <= k < |xs| :: !Fires(xs[k], s)
  {
    forall k | 0 <= k < |xs| ensures Settled(RenameIf(xs[k]), s) <==> !Fires(xs[k], s) {
      assert Guard(RenameIf(xs[k]), s) <==> Fires(xs[k], s);
      assert RenameIf(xs[k]).ops[0].RenameColumn?;
    }
    forall k | 0 <= k < |xs| ensures RenameSteps(xs)[k] == RenameIf(xs[k]) && RenameSteps(xs)[k] in RenameSteps(xs) {
    }
  }

  lemma KeepsOn(a: Structure, b: Structure, c: Structure)
    requires Keeps(a, b) && Keeps(b, c)
    ensures Keeps(a, c)
  {
  }

  lemma ExecSplit(p: Program, q: Program, s: Structure, pub: set<Table>)
    requires Exec(p + q, s, pub).Ok?
    ensures Exec(p, s, pub).Ok? && Exec(q, Exec(p, s, pub).value, pub) == Exec(p + q, s, pub)
  {
    ExecAppend(p, q, s, pub);
  }

  lemma LateMakes()
    ensures forall o | o in AllMade(LateMoves(), 0) :: o.Col? && o.t in {LinkedInEngagement, MailBridgeConfig}
    ensures Late() == Steps(LateMoves())
  {
    StepsAppend(Moves0016(), Moves0017());
  }

  lemma LatePresent()
    ensures forall n, o | 0 <= n < |LateMoves()| && o in Present(LateMoves()[n]) :: o.Tab?
  {
  }

  /** 0016 and 0017 settle, and disturb neither the calm moves nor the renames. */
  lemma LatePass(s: Structure, pub: set<Table>)
    requires WellFormed(s) && NoMetric(s) && AllSettled(Up0015(), s) && Exec(Late(), s, pub).Ok?
    ensures var e := Exec(Late(), s, pub).value;
            WellFormed(e) && NoMetric(e) && Keeps(s, e) && AllSettled(Up0015(), e) && AllSettled(Late(), e)
  {
    LateMakes();
    LatePresent();
    MovesSettle(LateMoves(), s, pub);
    var e := Exec(Late(), s, pub).value;
    RenamesAreVolatile();
    RenamesUndisturbed(Renames0015(), s, e);
  }

  lemma RenamesUndisturbed(xs: seq<Rename>, s: Structure, e: Structure)
    requires forall k | 0 <= k < |xs| :: VolatileRename(xs[k])
    requires AllSettled(RenameSteps(xs), s) && s.Keys <= e.Keys
    requires forall o | o in e && o !in s :: o.Col? && o.t in {LinkedInEngagement, MailBridgeConfig}
    ensures AllSettled(RenameSteps(xs), e)
  {
    RenamesSettled(s, xs);
    RenamesSettled(e, xs);
    forall k | 0 <= k < |xs| ensures !Fires(xs[k], e) {
      assert !Fires(xs[k], s) && VolatileRename(xs[k]);
    }
  }

  lemma RenamePass(s: Structure, pub: set<Table>)
    requires WellFormed(s) && NoMetric(s)
    ensures Exec(Up0015(), s, pub).Ok?
    ensures var r := Exec(Up0015(), s, pub).value;
            WellFormed(r) && NoMetric(r) && Keeps(s, r) && AllSettled(Up0015(), r)
  {
    var xs := Renames0015();
    RenamesAreVolatile();
    RenameStepsRun(xs, s, pub);
    FlipAllKeeps(s, xs);
    RenamesSettled(FlipAll(s, xs), xs);
  }

  lemma CalmPass(ms: seq<Move>, s: Structure, pub: set<Table>)
    requires AllCalm(ms) && WellFormed(s) && Exec(Steps(ms), s, pub).Ok?
    ensures var r := Exec(Steps(ms), s, pub).value;
            WellFormed(r) && AllSettled(Steps(ms), r) && Keeps(s, r) && (NoMetric(s) ==> NoMetric(r))
  {
    assert forall n | 0 <= n < |ms| :: Calm(ms[n]) && Present(ms[n]) == {};
    MovesSettle(ms, s, pub);
    CalmMakesNoMetric(ms, 0);
  }

  predicate Harmless(extra: Program) {
    Additive(extra) && Tab(CampaignMetric) !in ProgramCreates(extra)
  }

  function Tail(extra: Program): Program {
    Steps(Moves0011()) + (extra + (Up0015() + Late()))
  }

  lemma TailPass(extra: Program, s: Structure, pub: set<Table>)
    requires Harmless(extra) && WellFormed(s) && NoMetric(s) && Exec(Tail(extra), s, pub).Ok?
    ensures var e := Exec(Tail(extra), s, pub).value;
            && WellFormed(e) && NoMetric(e) && Keeps(s, e)
            && AllSettled(Steps(Moves0011()), e) && AllSettled(Up0015(), e) && AllSettled(Late(), e)
  {
    ExecSplit(Steps(Moves0011()), extra + (Up0015() + Late()), s, pub);
    assert AllCalm(Moves0011());
    CalmPass(Moves0011(), s, pub);
    var a := Exec(Steps(Moves0011()), s, pub).value;
    ExecSplit(extra, Up0015() + Late(), a, pub);
    AdditiveExtends(extra, a, pub);
    var b := Exec(extra, a, pub).value;
    ExecSplit(Up0015(), Late(), b, pub);
    RenamePass(b, pub);
    var d := Exec(Up0015(), b, pub).value;
    LatePass(d, pub);
    var e := Exec(Late(), d, pub).value;
    KeepsOn(a, b, d); KeepsOn(a, d, e); KeepsOn(s, a, e);
    AllCalmStay(Moves0011(), a, e);
  }

  /** `ms`, with CampaignMetric's creation at `j`, otherwise calm, and Campaign's somewhere else. */
  predicate FirstMoves(ms: seq<Move>, j: nat) {
    && j < |ms| && ms[j] == NewTable(CampaignMetric, CampaignMetricColumns(), [])
    && AllCalm(ms[..j]) && AllCalm(ms[j + 1..])
    && (exists i | 0 <= i < |ms| && i != j :: ms[i].NewTable? && ms[i].t == Campaign)
  }

  /** Wherever the chain starts, if it gets through it ends with every step but the creation of
      CampaignMetric settled. */
  lemma ChainFinishes(ms: seq<Move>, j: nat, extra: Program, s: Structure, pub: set<Table>)
    requires FirstMoves(ms, j) && Harmless(extra) && WellFormed(s)
    requires Exec(Steps(ms) + (Up0010() + Tail(extra)), s, pub).Ok?
    ensures Finished(ms, j, Exec(Steps(ms) + (Up0010() + Tail(extra)), s, pub).value)
  {
    ExecSplit(Steps(ms), Up0010() + Tail(extra), s, pub);
    FirstPass(ms, j, s, pub);
    RestPass(ms, j, extra, Exec(Steps(ms), s, pub).value, pub);
  }

  lemma FirstPass(ms: seq<Move>, j: nat, s: Structure, pub: set<Table>)
    requires FirstMoves(ms, j) && WellFormed(s) && Exec(Steps(ms), s, pub).Ok?
    ensures var a := Exec(Steps(ms), s, pub).value;
            WellFormed(a) && AllSettled(Steps(ms[..j]), a) && AllSettled(Steps(ms[j + 1..]), a)
  {
    forall n | 0 <= n < |ms| ensures Present(ms[n]) == {} {
      assert n < j ==> ms[n] == ms[..j][n] && Calm(ms[..j][n]);
      assert n > j ==> ms[n] == ms[j + 1..][n - j - 1] && Calm(ms[j + 1..][n - j - 1]);
    }
    MovesSettle(ms, s, pub);
    var a := Exec(Steps(ms), s, pub).value;
    Splits(ms, j);
    SettledAppend(Steps(ms[..j]), [StepOf(ms[j])] + Steps(ms[j + 1..]), a);
    SettledAppend([StepOf(ms[j])], Steps(ms[j + 1..]), a);
  }

  lemma RestPass(ms: seq<Move>, j: nat, extra: Program, a: Structure, pub: set<Table>)
    requires FirstMoves(ms, j) && Harmless(extra) && WellFormed(a)
    requires AllSettled(Steps(ms[..j]), a) && AllSettled(Steps(ms[j + 1..]), a)
    requires Exec(Up0010() + Tail(extra), a, pub).Ok?
    ensures Finished(ms, j, Exec(Up0010() + Tail(extra), a, pub).value)
  {
    ExecSplit(Up0010(), Tail(extra), a, pub);
    DropMetric(a, pub);
    var b := Exec(Up0010(), a, pub).value;
    TailPass(extra, b, pub);
    var e := Exec(Tail(extra), b, pub).value;
    KeepsOn(a, b, e);
    AllCalmStay(ms[..j], a, e);
    AllCalmStay(ms[j + 1..], a, e);
  }

  // ---- The second pass -----------------------------------------------------

  lemma NewTableSettled(m: Move, s: Structure)
    requires m.NewTable? && Settled(StepOf(m), s)
    ensures Tab(m.t) in s
  {
    assert Ops(m)[0] == CreateTable(m.t, m.specs);
  }

  lemma MetricColumns()
    ensures var specs := CampaignMetricColumns();
            forall c | c in specs :: specs[c] == Plain() || specs[c] == Fk(Campaign)
  {
  }

  /** CampaignMetric comes back and goes again without a trace. */
  lemma MetricReturns(e: Structure, pub: set<Table>)
    requires WellFormed(e) && NoMetric(e) && Tab(Campaign) in e
    ensures var m := NewTable(CampaignMetric, CampaignMetricColumns(), []);
            && RunStep(StepOf(m), e, pub).Ok?
            && var top := RunStep(StepOf(m), e, pub).value;
               WellFormed(top) && Extends(e, top) && Exec(Up0010(), top, pub) == Ok(e)
  {
    var specs := CampaignMetricColumns();
    var m := NewTable(CampaignMetric, specs, []);
    MetricColumns();
    forall c | c in specs ensures SpecRuns(specs[c], e.Keys, pub) {
      assert specs[c] == Plain() || specs[c] == Fk(Campaign);
    }
    MoveSucceeds(m, e, pub);
    assert Ops(m) == [CreateTable(CampaignMetric, specs)];
    ApplyOne(CreateTable(CampaignMetric, specs), e, pub);
    NewTableDrops(e, CampaignMetric, specs, pub);
  }

  lemma DropsFresh(e: Structure, top: Structure, t: Table, pub: set<Table>)
    requires WellFormed(e) && Tab(t) !in e && Tab(t) in top && Extends(e, top)
    requires forall o | o in top && o !in e :: OwnedBy(o, t)
    ensures Apply(DropTable(t), top, pub) == Ok(e)
  {
    forall o | o in e ensures !OwnedBy(o, t) && !RefersTo(e[o], t) {
      assert ObjectOk(e, o);
    }
    assert !ReferencedElsewhere(top, t);
    var r := Apply(DropTable(t), top, pub);
    assert r.Ok?;
    assert forall o | o in r.value :: o in e && e[o] == r.value[o];
    assert forall o | o in e :: o in r.value;
    assert r.value == e;
  }

  lemma NewTableDrops(e: Structure, t: Table, specs: map<Column, ColumnSpec>, pub: set<Table>)
    requires WellFormed(e) && Tab(t) !in e
    ensures Exec(DropSteps([Tab(t)], false), e + CreatedTable(t, specs, e), pub) == Ok(e)
  {
    var made := CreatedTable(t, specs, e);
    CreatedTableIsNew(t, specs, e);
    DropsFresh(e, e + made, t, pub);
    var drop := Step({Tab(t)}, {}, [DropTable(t)]);
    assert DropSteps([Tab(t)], false)[0] == drop;
    assert DropSteps([Tab(t)], false) == [drop];
    ExecOne(drop, e + made, pub);
    ApplyOne(DropTable(t), e + made, pub);
  }

  lemma ReplayFinished(ms: seq<Move>, j: nat, e: Structure, pub: set<Table>)
    requires FirstMoves(ms, j) && Finished(ms, j, e)
    ensures Exec(Steps(ms) + (Up0010() + Tail([])), e, pub) == Ok(e)
  {
    var i :| 0 <= i < |ms| && i != j && ms[i].NewTable? && ms[i].t == Campaign;
    var before, after := Steps(ms[..j]), Steps(ms[j + 1..]);
    if i < j {
      assert before[i] == StepOf(ms[i]) && before[i] in before;
    } else {
      assert after[i - j - 1] == StepOf(ms[i]) && after[i - j - 1] in after;
    }
    NewTableSettled(ms[i], e);
    MetricReturns(e, pub);
    var top := RunStep(StepOf(ms[j]), e, pub).value;
    AllCalmStay(ms[j + 1..], e, top);
    SettledChangesNothing(before, e, pub);
    SettledChangesNothing(after, top, pub);
    ExecOne(StepOf(ms[j]), e, pub);
    Splits(ms, j);
    ExecAppend(before, [StepOf(ms[j])] + after, e, pub);
    ExecAppend([StepOf(ms[j])], after, e, pub);
    SettledAppend(Up0015(), Late(), e);
    assert [] + (Up0015() + Late()) == Up0015() + Late();
    SettledAppend(Steps(Moves0011()), Up0015() + Late(), e);
    SettledChangesNothing(Tail([]), e, pub);
    ExecAppend(Steps(ms), Up0010() + Tail([]), e, pub);
    ExecAppend(Up0010(), Tail([]), top, pub);
  }

  // ---- The real chain ------------------------------------------------------

  lemma UpgradeIsMoves(c: Catalogue)
    ensures Upgrade(c) == Steps(UpgradeMoves(c))
  {
  }

  lemma EarlyIsMoves()
    ensures Early() == Steps(EarlyMoves())
  {
    StepsAppend(Moves0003(), Moves0004());
    StepsAppend(Moves0003() + Moves0004(), Moves0005());
    StepsAppend(Moves0003() + Moves0004() + Moves0005(), Moves0006());
    StepsAppend(Moves0003() + Moves0004() + Moves0005() + Moves0006(), Moves0007());
  }

  lemma CatalogueMoves(c: Catalogue, j: nat, i: nat, later: seq<Move>)
    requires Ordered(c) && j < |c.blocks| && i < |c.blocks| && c.blocks[i].t == Campaign
    requires c.blocks[j] == Block(CampaignMetric, CampaignMetricColumns(), []) && AllCalm(later)
    ensures FirstMoves(UpgradeMoves(c) + later, |c.enums| + j)
  {
    var us, n := UpgradeMoves(c), |c.enums| + j;
    forall k | 0 <= k < |us| && k != n ensures Calm(us[k]) {
      if k >= |c.enums| {
        assert us[k] == BlockMove(c.blocks[k - |c.enums|]);
        assert c.blocks[k - |c.enums|].t != c.blocks[j].t;
      }
    }
    CalmAppend(us[n + 1..], later);
    var ms := us + later;
    assert ms[..n] == us[..n] && ms[n + 1..] == us[n + 1..] + later;
    assert ms[|c.enums| + i].t == Campaign;
  }

  lemma HarmlessExtra(extra: Program)
    requires extra == [] || extra == Up0013()
    ensures Harmless(extra)
  {
    if extra == Up0013() {
      var ms := Moves0013();
      assert AllCalm(ms);
      CalmMakesNoMetric(ms, 0);
      UnguardedIsAdditive(ms);
      UnguardedCreates(ms, 0);
      assert Unguarded(ms)[0..] == Unguarded(ms);
    }
  }

  /** Replay: run the tenant migrations, with or without 0013's, on any schema that has no dangling
      references. If they get through, running the guarded ones again on the result succeeds and
      changes nothing -- although 0002 by itself would bring CampaignMetric back and 0005 would
      create its columns under their old names. */
  lemma ReplayChangesNothing(extra: Program, s: Structure, pub: set<Table>)
    requires extra == [] || extra == Up0013()
    requires WellFormed(s) && Exec(Chain(Tables0002(), extra), s, pub).Ok?
    ensures var e := Exec(Chain(Tables0002(), extra), s, pub).value;
            Exec(Chain(Tables0002(), []), e, pub) == Ok(e)
  {
    Tables0002Ordered();
    MetricPlace();
    EarlyCalm();
    HarmlessExtra(extra);
    ReplayCatalogue(Tables0002(), 24, 19, extra, s, pub);
  }

  lemma MetricPlace()
    ensures Tables0002().blocks[24] == Block(CampaignMetric, CampaignMetricColumns(), [])
    ensures Tables0002().blocks[19].t == Campaign
  {
    assert CreationOrder()[24] == TableAt(24) && CreationOrder()[19] == TableAt(19);
  }

  lemma ReplayCatalogue(c: Catalogue, j: nat, i: nat, extra: Program, s: Structure, pub: set<Table>)
    requires Ordered(c) && j < |c.blocks| && i < |c.blocks| && c.blocks[i].t == Campaign
    requires c.blocks[j] == Block(CampaignMetric, CampaignMetricColumns(), [])
    requires AllCalm(EarlyMoves()) && Harmless(extra)
    requires WellFormed(s) && Exec(Chain(c, extra), s, pub).Ok?
    ensures var e := Exec(Chain(c, extra), s, pub).value;
            Exec(Chain(c, []), e, pub) == Ok(e)
  {
    CatalogueMoves(c, j, i, EarlyMoves());
    ReplayOf(c, UpgradeMoves(c) + EarlyMoves(), |c.enums| + j, extra, s, pub);
  }

  lemma ReplayOf(c: Catalogue, ms: seq<Move>, j: nat, extra: Program, s: Structure, pub: set<Table>)
    requires ms == UpgradeMoves(c) + EarlyMoves() && FirstMoves(ms, j) && Harmless(extra)
    requires WellFormed(s) && Exec(Chain(c, extra), s, pub).Ok?
    ensures var e := Exec(Chain(c, extra), s, pub).value;
            Exec(Chain(c, []), e, pub) == Ok(e)
  {
    UpgradeIsMoves(c);
    EarlyIsMoves();
    StepsAppend(UpgradeMoves(c), EarlyMoves());
    ChainFinishes(ms, j, extra, s, pub);
    ReplayFinished(ms, j, Exec(Chain(c, extra), s, pub).value, pub);
  }
}
