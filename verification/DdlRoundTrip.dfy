/** When a downgrade that drops each object if present undoes an additive upgrade exactly. */
module DdlRoundTrip {
  import opened Wrappers
  import opened SchemaNames
  import opened Ddl
  import opened DdlPrograms
  import opened GuardedMoves

  function DropOp(o: Obj): Op {
    match o
    case Tab(t) => DropTable(t)
    case Col(t, c) => DropColumn(t, c)
    case Idx(t, i) => Detach(t, i)
    case Typ(e) => DropEnum(e)
  }

  /** `if exists(o): drop(o)`, possibly after a check that o's table exists. */
  predicate DropsIfPresent(step: Step, o: Obj) {
    && !o.Typ?
    && step.ops == [DropOp(o)]
    && step.absent == {}
    && {o} <= step.present <= {o, Tab(o.t)}
  }

  /** Everything `op` creates goes when the objects in `ds` are dropped. */
  predicate CoveredOp(op: Op, ds: seq<Obj>) {
    match op
    case CreateTable(t, _) => Tab(t) in ds
    case AddColumn(t, c, _) => Col(t, c) in ds || Tab(t) in ds
    case Attach(t, i, _) => Idx(t, i) in ds || Tab(t) in ds
    case Touch(_) => true
    case _ => false
  }

  predicate Covered(ops: seq<Op>, ds: seq<Obj>) {
    forall op | op in ops :: CoveredOp(op, ds)
  }

  predicate Gone(n: Obj, ds: seq<Obj>) {
    n in ds || (!n.Typ? && Tab(n.t) in ds)
  }

  // ---- What makes a downgrade the reverse of an upgrade --------------------

  ghost predicate KeyIn(fk: ForeignKey, from: Table, refs: iset<(Table, Table)>) {
    fk.Unqualified? || fk.InSchema? ==> (from, fk.r) in refs
  }

  /** Every foreign key `op` makes is one of `refs`. */
  ghost predicate OpRefs(op: Op, refs: iset<(Table, Table)>) {
    match op
    case CreateTable(t, specs) => forall c | c in specs :: KeyIn(specs[c].fk, t, refs)
    case AddColumn(t, _, spec) => KeyIn(spec.fk, t, refs)
    case _ => true
  }

  ghost predicate OpsRefs(ops: seq<Op>, refs: iset<(Table, Table)>) {
    forall op | op in ops :: OpRefs(op, refs)
  }

  /** The step only creates, what it creates or waits for goes when `ds` is dropped, and the
      foreign keys it makes are among `refs`. */
  ghost predicate StepReversed(step: Step, ds: seq<Obj>, refs: iset<(Table, Table)>) {
    && AllCreating(step.ops) && Covered(step.ops, ds) && OpsRefs(step.ops, refs)
    && forall k | k in step.absent :: Gone(k, ds)
  }

  predicate Awaits(u: Program, o: Obj) {
    exists m | 0 <= m < |u| :: o in u[m].absent
  }

  /** A table is dropped only after every other table the upgrade made refer to it. */
  ghost predicate ReferrersFirst(ds: seq<Obj>, n: nat, refs: iset<(Table, Table)>)
    requires n < |ds|
  {
    ds[n].Tab? ==> forall e | e in refs && e.1 == ds[n].t :: e.0 == e.1 || Tab(e.0) in ds[..n]
  }

  ghost predicate AllSteps(u: Program, ds: seq<Obj>, refs: iset<(Table, Table)>) {
    forall m | 0 <= m < |u| :: StepReversed(u[m], ds, refs)
  }

  ghost predicate AllDrops(u: Program, d: Program, ds: seq<Obj>, refs: iset<(Table, Table)>) {
    && |d| == |ds|
    && (forall n | 0 <= n < |ds| :: DropsIfPresent(d[n], ds[n]))
    && (forall n | 0 <= n < |ds| :: Awaits(u, ds[n]))
    && (forall n | 0 <= n < |ds| :: ReferrersFirst(ds, n, refs))
  }

  /** `d`, dropping `ds` in that order, is written as the reverse of the additive program `u`,
      whose foreign keys are among `refs`. */
  ghost predicate Reverses(u: Program, d: Program, ds: seq<Obj>, refs: iset<(Table, Table)>) {
    AllSteps(u, ds, refs) && AllDrops(u, d, ds, refs)
  }

  /** No object the upgrade guards against exists yet. */
  predicate NonePresent(u: Program, s: Structure) {
    forall step | step in u :: step.absent !! s.Keys
  }

  // ---- What an additive program leaves behind ------------------------------

  lemma {:induction false} CoveredCreates(ops: seq<Op>, ds: seq<Obj>)
    requires Covered(ops, ds)
    ensures forall n | n in AllCreates(ops) :: Gone(n, ds)
  {
    if ops != [] {
      assert CoveredOp(ops[0], ds);
      CoveredCreates(ops[1..], ds);
    }
  }

  lemma {:induction false} CoveredProgram(u: Program, ds: seq<Obj>)
    requires forall step | step in u :: Covered(step.ops, ds)
    ensures forall n | n in ProgramCreates(u) :: Gone(n, ds)
  {
    if u != [] {
      CoveredCreates(u[0].ops, ds);
      CoveredProgram(u[1..], ds);
    }
  }

  lemma ReversesMeans(u: Program, d: Program, ds: seq<Obj>, refs: iset<(Table, Table)>)
    requires Reverses(u, d, ds, refs)
    ensures Additive(u)
    ensures forall step | step in u :: Covered(step.ops, ds) && OpsRefs(step.ops, refs)
    ensures forall step | step in u :: forall k | k in step.absent :: Gone(k, ds)
  {
    forall step | step in u ensures StepReversed(step, ds, refs) {
      var m :| 0 <= m < |u| && u[m] == step;
    }
  }

  /** Every foreign key inside the schema is one of `refs` or was in `s` already. */
  ghost predicate RefsWithin(s: Structure, s1: Structure, refs: iset<(Table, Table)>) {
    forall o | o in s1 && o !in s && o.Col? && s1[o].ColumnDef? && s1[o].ref.Local? :: (o.t, s1[o].ref.r) in refs
  }

  lemma ApplyRefs(op: Op, s: Structure, pub: set<Table>, refs: iset<(Table, Table)>)
    requires WellFormed(s) && Creating(op) && Apply(op, s, pub).Ok? && OpRefs(op, refs)
    ensures RefsWithin(s, Apply(op, s, pub).value, refs)
  {
    var s1 := Apply(op, s, pub).value;
    ApplyCreating(op, s, pub);
    forall o | o in s1 && o !in s && o.Col? && s1[o].ColumnDef? && s1[o].ref.Local?
      ensures (o.t, s1[o].ref.r) in refs
    {
      match op
      case CreateTable(t, specs) =>
        assert MadeBy(o, t, specs) && s1[o] == Stored(specs[o.c], s);
        assert KeyIn(specs[o.c].fk, t, refs);
      case _ =>
    }
  }

  lemma {:induction false} ApplyAllRefs(ops: seq<Op>, s: Structure, pub: set<Table>, refs: iset<(Table, Table)>)
    requires WellFormed(s) && AllCreating(ops) && ApplyAll(ops, s, pub).Ok? && OpsRefs(ops, refs)
    ensures RefsWithin(s, ApplyAll(ops, s, pub).value, refs)
  {
    if ops != [] {
      var s1 := Apply(ops[0], s, pub).value;
      ApplyRefs(ops[0], s, pub, refs);
      ApplyKeepsWellFormed(ops[0], s, pub);
      ApplyCreating(ops[0], s, pub);
      ApplyAllRefs(ops[1..], s1, pub, refs);
      ApplyAllCreating(ops[1..], s1, pub);
    }
  }

  lemma {:induction false} AdditiveRefs(u: Program, s: Structure, pub: set<Table>, refs: iset<(Table, Table)>)
    requires WellFormed(s) && Additive(u) && Exec(u, s, pub).Ok?
    requires forall step | step in u :: OpsRefs(step.ops, refs)
    ensures RefsWithin(s, Exec(u, s, pub).value, refs)
  {
    if u != [] {
      var s1 := RunStep(u[0], s, pub).value;
      StepAdditive(u[0], s, pub);
      if Guard(u[0], s) {
        ApplyAllRefs(u[0].ops, s, pub, refs);
      }
      AdditiveRefs(u[1..], s1, pub, refs);
      AdditiveExtends(u[1..], s1, pub);
    }
  }

  // ---- Dropping ------------------------------------------------------------

  /** Dropping an object the base structure `s` lacks succeeds and spares everything in `s`. */
  lemma DropSparesBase(step: Step, o: Obj, s: Structure, cur: Structure, pub: set<Table>)
    requires DropsIfPresent(step, o) && o !in s
    requires WellFormed(s) && WellFormed(cur) && Extends(s, cur)
    requires o.Tab? ==> !ReferencedElsewhere(cur, o.t)
    ensures RunStep(step, cur, pub).Ok?
    ensures var next := RunStep(step, cur, pub).value;
            WellFormed(next) && Extends(s, next) && Extends(next, cur) && o !in next
  {
    if Guard(step, cur) {
      ApplyOne(DropOp(o), cur, pub);
      var next := Apply(DropOp(o), cur, pub).value;
      ApplyKeepsWellFormed(DropOp(o), cur, pub);
      forall x | x in s ensures x in next {
        assert ObjectOk(s, x);
      }
    }
  }

  /** Nothing that still stands refers to the table about to be dropped. */
  lemma NothingRefers(u: Program, d: Program, ds: seq<Obj>, refs: iset<(Table, Table)>, n: nat, s: Structure,
                      cur: Structure, top: Structure)
    requires Reverses(u, d, ds, refs) && n < |ds| && ds[n].Tab? && ds[n] !in s
    requires WellFormed(s) && WellFormed(cur) && Extends(s, cur) && Extends(cur, top) && RefsWithin(s, top, refs)
    requires forall k | 0 <= k < n :: ds[k] !in cur
    ensures !ReferencedElsewhere(cur, ds[n].t)
  {
    var t := ds[n].t;
    assert ReferrersFirst(ds, n, refs);
    forall x | x in s ensures !RefersTo(s[x], t) {
      assert ObjectOk(s, x);
    }
    forall x | x in cur && RefersTo(cur[x], t) ensures OwnedBy(x, t) {
      assert ObjectOk(cur, x);
    }
  }

  lemma {:induction false} DropsRestore(u: Program, d: Program, ds: seq<Obj>, refs: iset<(Table, Table)>, n: nat,
                                        s: Structure, cur: Structure, top: Structure, pub: set<Table>)
    requires Reverses(u, d, ds, refs) && NonePresent(u, s) && n <= |d|
    requires WellFormed(s) && RefsWithin(s, top, refs)
    requires WellFormed(cur) && Extends(s, cur) && Extends(cur, top)
    requires forall k | 0 <= k < n :: ds[k] !in cur
    ensures Exec(d[n..], cur, pub).Ok?
    ensures var end := Exec(d[n..], cur, pub).value;
            WellFormed(end) && Extends(s, end) && Extends(end, top) && forall o | o in ds :: o !in end
    decreases |d| - n
  {
    if n < |d| {
      var o := ds[n];
      assert Awaits(u, o) && o !in s;
      if o.Tab? {
        NothingRefers(u, d, ds, refs, n, s, cur, top);
      }
      DropSparesBase(d[n], o, s, cur, pub);
      assert d[n..][0] == d[n] && d[n..][1..] == d[n + 1..];
      DropsRestore(u, d, ds, refs, n + 1, s, RunStep(d[n], cur, pub).value, top, pub);
    }
  }

  /** A drop program that finishes leaves none of its objects, whatever it started from. */
  lemma {:induction false} DropsRemove(d: Program, ds: seq<Obj>, cur: Structure, pub: set<Table>)
    requires |d| == |ds| && forall n | 0 <= n < |ds| :: DropsIfPresent(d[n], ds[n])
    requires WellFormed(cur) && Exec(d, cur, pub).Ok?
    ensures var end := Exec(d, cur, pub).value;
            WellFormed(end) && Extends(end, cur) && forall o | o in ds :: o !in end
  {
    if d != [] {
      var next := RunStep(d[0], cur, pub).value;
      if Guard(d[0], cur) {
        ApplyOne(DropOp(ds[0]), cur, pub);
        ApplyKeepsWellFormed(DropOp(ds[0]), cur, pub);
      }
      DropsRemove(d[1..], ds[1..], next, pub);
    }
  }

  /** The downgrade takes a structure back to exactly what it was before the upgrade if and only
      if none of the objects the upgrade's guards look for existed beforehand. */
  lemma RoundTripIff(u: Program, d: Program, ds: seq<Obj>, refs: iset<(Table, Table)>, s: Structure, pub: set<Table>)
    requires Reverses(u, d, ds, refs) && WellFormed(s) && Exec(u, s, pub).Ok?
    ensures Exec(d, Exec(u, s, pub).value, pub) == Ok(s) <==> NonePresent(u, s)
  {
    var top := Exec(u, s, pub).value;
    ReversesMeans(u, d, ds, refs);
    AdditiveExtends(u, s, pub);
    if NonePresent(u, s) {
      assert d[0..] == d;
      AdditiveRefs(u, s, pub, refs);
      DropsRestore(u, d, ds, refs, 0, s, top, top, pub);
      var end := Exec(d, top, pub).value;
      CoveredProgram(u, ds);
      forall o | o in end ensures o in s {
        assert ObjectOk(end, o);
        assert o in top && (o in s || Gone(o, ds));
      }
      assert end == s;
    } else if Exec(d, top, pub) == Ok(s) {
      var step :| step in u && !(step.absent !! s.Keys);
      var k :| k in step.absent && k in s;
      assert Gone(k, ds) && ObjectOk(s, k);
      DropsRemove(d, ds, top, pub);
      assert false;
    }
  }

  // ---- Migrations written as moves -----------------------------------------

  predicate Covers(o: Obj, ds: seq<Obj>)
    requires !o.Typ?
  {
    o in ds || Tab(o.t) in ds
  }

  /** Every foreign key the move makes is one of `refs`. */
  ghost predicate MoveRefs(m: Move, refs: iset<(Table, Table)>) {
    match m
    case NewTable(t, specs, _) => forall c | c in specs :: KeyIn(specs[c].fk, t, refs)
    case NewColumn(t, _, spec, _, _) => KeyIn(spec.fk, t, refs)
    case _ => true
  }

  ghost predicate MoveReversed(m: Move, ds: seq<Obj>, refs: iset<(Table, Table)>) {
    MoveRefs(m, refs) &&
    match m
    case NewTable(t, _, _) => Tab(t) in ds
    case NewColumn(t, c, _, ixs, _) => Covers(Col(t, c), ds) && ixs == []
    case NewIndex(t, i, _) => Covers(Idx(t, i), ds)
    case _ => false
  }

  /** `if exists(o): drop(o)` for each of `ds`; with `ifTable`, under a check for o's table. */
  function DropSteps(ds: seq<Obj>, ifTable: bool): (d: Program)
    ensures |d| == |ds|
  {
    seq(|ds|, k requires 0 <= k < |ds| =>
      Step(if ifTable && !ds[k].Typ? then {Tab(ds[k].t), ds[k]} else {ds[k]}, {}, [DropOp(ds[k])]))
  }

  ghost predicate AllReversed(ms: seq<Move>, ds: seq<Obj>, refs: iset<(Table, Table)>) {
    forall n | 0 <= n < |ms| :: MoveReversed(ms[n], ds, refs)
  }

  predicate Awaited(ms: seq<Move>, o: Obj) {
    !o.Typ? && exists n | 0 <= n < |ms| :: o in Absent(ms[n])
  }

  lemma MoveOpsRefs(m: Move, refs: iset<(Table, Table)>)
    requires MoveRefs(m, refs)
    ensures OpsRefs(Ops(m), refs)
  {
    var rest := AttachOps(Owner(m), Extras(m));
    assert forall op | op in rest :: op.Attach?;
    assert forall op | op in Ops(m) :: op == Head(m) || op in rest;
  }

  /** Running moves whose foreign keys are among `refs` adds no other reference. */
  lemma MovesRefsWithin(ms: seq<Move>, s: Structure, pub: set<Table>, refs: iset<(Table, Table)>)
    requires WellFormed(s) && Exec(Steps(ms), s, pub).Ok?
    requires forall n | 0 <= n < |ms| :: MoveRefs(ms[n], refs)
    ensures RefsWithin(s, Exec(Steps(ms), s, pub).value, refs)
  {
    MovesAreAdditive(ms);
    forall step | step in Steps(ms) ensures OpsRefs(step.ops, refs) {
      var n :| 0 <= n < |ms| && Steps(ms)[n] == step;
      MoveOpsRefs(ms[n], refs);
    }
    AdditiveRefs(Steps(ms), s, pub, refs);
  }

  lemma MoveIsReversed(m: Move, ds: seq<Obj>, refs: iset<(Table, Table)>)
    requires MoveReversed(m, ds, refs)
    ensures StepReversed(StepOf(m), ds, refs)
  {
    MoveOpsRefs(m, refs);
    var rest := AttachOps(Owner(m), Extras(m));
    assert forall op | op in rest :: op.Attach? && op.t == Owner(m);
    assert forall op | op in Ops(m) :: op == Head(m) || op in rest;
  }

  lemma MovesReversed(ms: seq<Move>, ds: seq<Obj>, ifTable: bool, refs: iset<(Table, Table)>)
    requires AllReversed(ms, ds, refs)
    requires forall n | 0 <= n < |ds| :: Awaited(ms, ds[n]) && ReferrersFirst(ds, n, refs)
    ensures Reverses(Steps(ms), DropSteps(ds, ifTable), ds, refs)
  {
    forall n | 0 <= n < |ms| ensures StepReversed(Steps(ms)[n], ds, refs) {
      assert MoveReversed(ms[n], ds, refs);
      MoveIsReversed(ms[n], ds, refs);
    }
    forall n | 0 <= n < |ds| ensures Awaits(Steps(ms), ds[n]) {
      assert Awaited(ms, ds[n]);
      var m :| 0 <= m < |ms| && ds[n] in Absent(ms[m]);
      assert ds[n] in Steps(ms)[m].absent;
    }
  }
}
