/** Additive migrations: what replaying one does, when one succeeds, and when the drop-if-present
    migration written against it undoes it exactly. */
module DdlPrograms {
  import opened Wrappers
  import opened SchemaNames
  import opened Ddl

  predicate Creating(op: Op) {
    op.CreateTable? || op.AddColumn? || op.Attach? || op.CreateEnum? || op.Touch?
  }

  function TableObjects(t: Table, specs: map<Column, ColumnSpec>): (r: set<Obj>)
    ensures forall o :: o in r <==> MadeBy(o, t, specs)
  {
    var columns := set c | c in specs :: Col(t, c);
    assert forall c | c in specs :: Col(t, c) in columns;
    {Tab(t)} + columns
  }

  function Creates(op: Op): set<Obj> {
    match op
    case CreateTable(t, specs) => TableObjects(t, specs)
    case AddColumn(t, c, _) => {Col(t, c)}
    case Attach(t, i, _) => {Idx(t, i)}
    case CreateEnum(e) => {Typ(e)}
    case _ => {}
  }

  function AllCreates(ops: seq<Op>): set<Obj> {
    if ops == [] then {} else Creates(ops[0]) + AllCreates(ops[1..])
  }

  function ProgramCreates(p: Program): set<Obj> {
    if p == [] then {} else AllCreates(p[0].ops) + ProgramCreates(p[1..])
  }

  /** `s1` has everything `s` has, defined the same way. */
  predicate Extends(s: Structure, s1: Structure) {
    forall o | o in s :: o in s1 && s1[o] == s[o]
  }

  predicate AllCreating(ops: seq<Op>) {
    forall op | op in ops :: Creating(op)
  }

  predicate Additive(p: Program) {
    forall step | step in p :: AllCreating(step.ops)
  }

  lemma CreatedTableIsNew(t: Table, specs: map<Column, ColumnSpec>, s: Structure)
    requires WellFormed(s) && Tab(t) !in s
    ensures CreatedTable(t, specs, s).Keys == Creates(CreateTable(t, specs))
    ensures CreatedTable(t, specs, s).Keys !! s.Keys
  {
    forall o | o in s ensures !OwnedBy(o, t) {
      assert ObjectOk(s, o);
    }
  }

  lemma ApplyCreating(op: Op, s: Structure, pub: set<Table>)
    requires WellFormed(s) && Creating(op) && Apply(op, s, pub).Ok?
    ensures Extends(s, Apply(op, s, pub).value)
    ensures Apply(op, s, pub).value.Keys == s.Keys + Creates(op)
  {
    match op
    case CreateTable(t, specs) => CreatedTableIsNew(t, specs, s);
    case AddColumn(t, c, spec) =>
    case Attach(t, i, cols) =>
    case CreateEnum(e) =>
    case Touch(needs) =>
  }

  lemma {:induction false} ApplyAllCreating(ops: seq<Op>, s: Structure, pub: set<Table>)
    requires WellFormed(s) && AllCreating(ops) && ApplyAll(ops, s, pub).Ok?
    ensures Extends(s, ApplyAll(ops, s, pub).value)
    ensures ApplyAll(ops, s, pub).value.Keys == s.Keys + AllCreates(ops)
  {
    if ops != [] {
      ApplyCreating(ops[0], s, pub);
      ApplyKeepsWellFormed(ops[0], s, pub);
      ApplyAllCreating(ops[1..], Apply(ops[0], s, pub).value, pub);
    }
  }

  lemma StepAdditive(step: Step, s: Structure, pub: set<Table>)
    requires WellFormed(s) && AllCreating(step.ops) && RunStep(step, s, pub).Ok?
    ensures WellFormed(RunStep(step, s, pub).value)
    ensures Extends(s, RunStep(step, s, pub).value)
    ensures RunStep(step, s, pub).value.Keys ==
            (if Guard(step, s) then s.Keys + AllCreates(step.ops) else s.Keys)
  {
    if Guard(step, s) {
      ApplyAllCreating(step.ops, s, pub);
      ApplyAllKeepsWellFormed(step.ops, s, pub);
    }
  }

  /** An additive program only adds: every object it meets keeps its definition, and every new
      object is one its operations create. */
  lemma {:induction false} AdditiveExtends(p: Program, s: Structure, pub: set<Table>)
    requires WellFormed(s) && Additive(p) && Exec(p, s, pub).Ok?
    ensures WellFormed(Exec(p, s, pub).value)
    ensures Extends(s, Exec(p, s, pub).value)
    ensures Exec(p, s, pub).value.Keys <= s.Keys + ProgramCreates(p)
  {
    if p != [] {
      StepAdditive(p[0], s, pub);
      AdditiveExtends(p[1..], RunStep(p[0], s, pub).value, pub);
    }
  }

  // ---- Replay --------------------------------------------------------------

  predicate TouchesOnly(ops: seq<Op>) {
    forall k | 0 <= k < |ops| :: ops[k].Touch?
  }

  predicate NeedsMet(ops: seq<Op>, keys: set<Obj>)
    requires TouchesOnly(ops)
  {
    forall k | 0 <= k < |ops| :: ops[k].needs <= keys
  }

  /** Running `step` on `s` would change nothing. */
  predicate Settled(step: Step, s: Structure) {
    !Guard(step, s) || (TouchesOnly(step.ops) && NeedsMet(step.ops, s.Keys))
  }

  predicate AllSettled(p: Program, s: Structure) {
    forall step | step in p :: Settled(step, s)
  }

  lemma {:induction false} TouchesChangeNothing(ops: seq<Op>, s: Structure, pub: set<Table>)
    requires TouchesOnly(ops) && NeedsMet(ops, s.Keys)
    ensures ApplyAll(ops, s, pub) == Ok(s)
  {
    if ops != [] {
      assert ops[0].Touch? && Apply(ops[0], s, pub) == Ok(s);
      TouchesChangeNothing(ops[1..], s, pub);
    }
  }

  lemma {:induction false} SettledChangesNothing(p: Program, s: Structure, pub: set<Table>)
    requires AllSettled(p, s)
    ensures Exec(p, s, pub) == Ok(s)
  {
    if p != [] {
      assert Settled(p[0], s);
      if Guard(p[0], s) {
        TouchesChangeNothing(p[0].ops, s, pub);
      }
      SettledChangesNothing(p[1..], s, pub);
    }
  }

  /** The shape of every guarded additive step: either it only touches data, or it is skipped
      exactly when the one object `absent` names exists and it creates that object. */
  predicate Guarded(step: Step) {
    || TouchesOnly(step.ops)
    || (|step.ops| > 0 && step.absent != {} && step.absent <= Creates(step.ops[0]))
  }

  predicate AllGuarded(p: Program) {
    forall step | step in p :: Guarded(step)
  }

  lemma {:induction false} TouchesNeed(ops: seq<Op>, s: Structure, pub: set<Table>)
    requires TouchesOnly(ops)
    requires ApplyAll(ops, s, pub).Ok?
    ensures ApplyAll(ops, s, pub) == Ok(s)
    ensures NeedsMet(ops, s.Keys)
  {
    if ops != [] {
      assert ops[0].Touch? && Apply(ops[0], s, pub) == Ok(s);
      TouchesNeed(ops[1..], s, pub);
    }
  }

  lemma StepSettles(step: Step, s: Structure, pub: set<Table>)
    requires WellFormed(s) && AllCreating(step.ops) && Guarded(step) && RunStep(step, s, pub).Ok?
    ensures Settled(step, RunStep(step, s, pub).value)
  {
    var s1 := RunStep(step, s, pub).value;
    if Guard(step, s) {
      if TouchesOnly(step.ops) {
        TouchesNeed(step.ops, s, pub);
      } else {
        ApplyAllCreating(step.ops, s, pub);
        var k :| k in step.absent;
        assert k in Creates(step.ops[0]) && k in s1;
      }
    }
  }

  /** A settled step stays settled when objects are only added and none of the added ones is an
      object the step waits for. */
  lemma SettledStays(step: Step, s: Structure, s1: Structure)
    requires Settled(step, s) && s.Keys <= s1.Keys
    requires step.present !! s1.Keys - s.Keys
    ensures Settled(step, s1)
  {
    if Guard(step, s1) {
      assert Guard(step, s);
    }
  }

  /** Replaying a guarded additive program on any state it once produced, or on anything that
      state grew into, changes nothing. */
  lemma {:induction false} AdditiveSettles(p: Program, s: Structure, pub: set<Table>)
    requires WellFormed(s) && Additive(p) && AllGuarded(p) && Exec(p, s, pub).Ok?
    requires forall step | step in p :: step.present !! ProgramCreates(p)
    ensures AllSettled(p, Exec(p, s, pub).value)
  {
    if p != [] {
      var s1 := RunStep(p[0], s, pub).value;
      StepAdditive(p[0], s, pub);
      StepSettles(p[0], s, pub);
      AdditiveExtends(p[1..], s1, pub);
      AdditiveSettles(p[1..], s1, pub);
      SettledStays(p[0], s1, Exec(p, s, pub).value);
    }
  }

  // ---- When an additive program succeeds -----------------------------------

  predicate KeyRuns(fk: ForeignKey, keys: set<Obj>, pub: set<Table>) {
    match fk
    case NoKey => true
    case Unqualified(r) => Tab(r) in keys || r in pub
    case InSchema(r) => Tab(r) in keys
    case InPublic(r) => r in pub
  }

  predicate SpecRuns(spec: ColumnSpec, keys: set<Obj>, pub: set<Table>) {
    KeyRuns(spec.fk, keys, pub) && (spec.ty.OfEnum? ==> Typ(spec.ty.e) in keys)
  }

  /** Whether a creating operation succeeds, decided from the names that exist. */
  predicate OpRuns(op: Op, keys: set<Obj>, pub: set<Table>) {
    match op
    case CreateTable(t, specs) => Tab(t) !in keys && forall c | c in specs :: SpecRuns(specs[c], keys, pub)
    case AddColumn(t, c, spec) => Tab(t) in keys && Col(t, c) !in keys && SpecRuns(spec, keys, pub)
    case Attach(t, i, cols) => Tab(t) in keys && Idx(t, i) !in keys && forall c | c in cols :: Col(t, c) in keys
    case CreateEnum(e) => Typ(e) !in keys
    case Touch(needs) => needs <= keys
    case _ => false
  }

  predicate OpsRun(ops: seq<Op>, k: nat, keys: set<Obj>, pub: set<Table>)
    requires k <= |ops|
    decreases |ops| - k
  {
    k == |ops| || (OpRuns(ops[k], keys, pub) && OpsRun(ops, k + 1, keys + Creates(ops[k]), pub))
  }

  function KeysAfter(ops: seq<Op>, k: nat, keys: set<Obj>): set<Obj>
    requires k <= |ops|
    decreases |ops| - k
  {
    if k == |ops| then keys else KeysAfter(ops, k + 1, keys + Creates(ops[k]))
  }

  lemma {:induction false} OpsRunSucceed(ops: seq<Op>, k: nat, s: Structure, pub: set<Table>)
    requires k <= |ops| && WellFormed(s) && OpsRun(ops, k, s.Keys, pub)
    ensures ApplyAll(ops[k..], s, pub).Ok?
    ensures ApplyAll(ops[k..], s, pub).value.Keys == KeysAfter(ops, k, s.Keys)
    ensures WellFormed(ApplyAll(ops[k..], s, pub).value)
    decreases |ops| - k
  {
    if k < |ops| {
      assert ops[k..][0] == ops[k] && ops[k..][1..] == ops[k + 1..];
      var r := Apply(ops[k], s, pub);
      assert r.Ok?;
      ApplyCreating(ops[k], s, pub);
      ApplyKeepsWellFormed(ops[k], s, pub);
      OpsRunSucceed(ops, k + 1, r.value, pub);
    }
  }
}
