/** A small DDL language with existence guards, and what holds of every program written in it.

    One schema's structure is a finite map from objects to their definitions. A migration is a
    list of steps; a step runs its operations when the objects in `present` exist and those in
    `absent` do not, and any operation can fail as it does in PostgreSQL. */
module Ddl {
  import opened Wrappers
  import opened SchemaNames

  datatype Obj =
    | Tab(t: Table)
    | Col(t: Table, c: Column)
    | Idx(t: Table, i: Index)     // an index or a check constraint on columns of t
    | Typ(e: EnumType)

  datatype ColumnType = Scalar | OfEnum(e: EnumType)

  /** The table a stored foreign key references. */
  datatype Target = NoRef | Local(r: Table) | Public(r: Table)

  datatype Def =
    | TableDef
    | ColumnDef(ty: ColumnType, ref: Target)
    | OnColumns(cols: seq<Column>)
    | EnumDef

  type Structure = map<Obj, Def>

  /** A foreign key as a migration writes it: an unqualified target is looked up along the
      search path (own schema, then public). */
  datatype ForeignKey = NoKey | Unqualified(r: Table) | InSchema(r: Table) | InPublic(r: Table)

  datatype ColumnSpec = ColumnSpec(ty: ColumnType, fk: ForeignKey)

  datatype Op =
    | CreateTable(t: Table, specs: map<Column, ColumnSpec>)
    | DropTable(t: Table)
    | AddColumn(t: Table, c: Column, spec: ColumnSpec)
    | DropColumn(t: Table, c: Column)
    | RenameColumn(t: Table, a: Column, b: Column)
    | Attach(t: Table, i: Index, cols: seq<Column>)
    | Detach(t: Table, i: Index)
    | CreateEnum(e: EnumType)
    | DropEnum(e: EnumType)
    | Touch(needs: set<Obj>)      // a data statement: no structural effect, but its objects must exist

  datatype SqlError = Duplicate | Undefined | StillReferenced

  datatype Step = Step(present: set<Obj>, absent: set<Obj>, ops: seq<Op>)

  type Program = seq<Step>

  // ---- One operation -------------------------------------------------------

  predicate Resolvable(fk: ForeignKey, s: Structure, pub: set<Table>) {
    match fk
    case NoKey => true
    case Unqualified(r) => Tab(r) in s || r in pub
    case InSchema(r) => Tab(r) in s
    case InPublic(r) => r in pub
  }

  function Resolve(fk: ForeignKey, s: Structure): Target {
    match fk
    case NoKey => NoRef
    case Unqualified(r) => if Tab(r) in s then Local(r) else Public(r)
    case InSchema(r) => Local(r)
    case InPublic(r) => Public(r)
  }

  predicate SpecOk(spec: ColumnSpec, s: Structure, pub: set<Table>) {
    Resolvable(spec.fk, s, pub) && (spec.ty.OfEnum? ==> Typ(spec.ty.e) in s)
  }

  function Stored(spec: ColumnSpec, s: Structure): Def {
    ColumnDef(spec.ty, Resolve(spec.fk, s))
  }

  predicate OwnedBy(o: Obj, t: Table) {
    !o.Typ? && o.t == t
  }

  predicate Uses(o: Obj, d: Def, t: Table, c: Column) {
    o == Col(t, c) || (o.Idx? && o.t == t && d.OnColumns? && c in d.cols)
  }

  predicate RefersTo(d: Def, t: Table) {
    d.ColumnDef? && d.ref == Local(t)
  }

  predicate ReferencedElsewhere(s: Structure, t: Table) {
    exists o | o in s :: !OwnedBy(o, t) && RefersTo(s[o], t)
  }

  predicate EnumInUse(s: Structure, e: EnumType) {
    exists o | o in s :: s[o].ColumnDef? && s[o].ty == OfEnum(e)
  }

  function Swap(cs: seq<Column>, a: Column, b: Column): (r: seq<Column>)
    ensures |r| == |cs|
    ensures forall k | 0 <= k < |cs| :: r[k] == (if cs[k] == a then b else cs[k])
  {
    seq(|cs|, k requires 0 <= k < |cs| => if cs[k] == a then b else cs[k])
  }

  function RenamedDef(o: Obj, d: Def, t: Table, a: Column, b: Column): Def {
    if o.Idx? && o.t == t && d.OnColumns? then OnColumns(Swap(d.cols, a, b)) else d
  }

  /** Creating table `t` with these columns brings `o` into being. */
  predicate MadeBy(o: Obj, t: Table, specs: map<Column, ColumnSpec>) {
    o == Tab(t) || (o.Col? && o.t == t && o.c in specs)
  }

  function CreatedTable(t: Table, specs: map<Column, ColumnSpec>, s: Structure): (r: Structure)
    ensures forall o :: o in r <==> MadeBy(o, t, specs)
    ensures Tab(t) in r && r[Tab(t)] == TableDef
    ensures forall c | c in specs :: Col(t, c) in r && r[Col(t, c)] == Stored(specs[c], s)
  {
    var columns := map c | c in specs :: Col(t, c) := Stored(specs[c], s);
    assert forall c | c in specs :: Col(t, c) in columns;
    columns[Tab(t) := TableDef]
  }

  function Renamed(s: Structure, t: Table, a: Column, b: Column): (r: Structure)
    requires Col(t, a) in s && Col(t, b) !in s
    ensures forall o :: o in r <==> o == Col(t, b) || (o in s && o != Col(t, a))
    ensures r[Col(t, b)] == s[Col(t, a)]
    ensures forall o | o in s && o != Col(t, a) :: r[o] == RenamedDef(o, s[o], t, a, b)
  {
    (map o | o in s && o != Col(t, a) :: RenamedDef(o, s[o], t, a, b))[Col(t, b) := s[Col(t, a)]]
  }

  function Apply(op: Op, s: Structure, pub: set<Table>): Result<Structure, SqlError> {
    match op
    case CreateTable(t, specs) =>
      if Tab(t) in s then Err(Duplicate)
      else if !(forall c | c in specs :: SpecOk(specs[c], s, pub)) then Err(Undefined)
      else Ok(s + CreatedTable(t, specs, s))
    case DropTable(t) =>
      if Tab(t) !in s then Err(Undefined)
      else if ReferencedElsewhere(s, t) then Err(StillReferenced)
      else Ok(map o | o in s && !OwnedBy(o, t) :: s[o])
    case AddColumn(t, c, spec) =>
      if Tab(t) !in s || !SpecOk(spec, s, pub) then Err(Undefined)
      else if Col(t, c) in s then Err(Duplicate)
      else Ok(s[Col(t, c) := Stored(spec, s)])
    case DropColumn(t, c) =>
      if Col(t, c) !in s then Err(Undefined)
      else Ok(map o | o in s && !Uses(o, s[o], t, c) :: s[o])
    case RenameColumn(t, a, b) =>
      if Col(t, a) !in s then Err(Undefined)
      else if Col(t, b) in s then Err(Duplicate)
      else Ok(Renamed(s, t, a, b))
    case Attach(t, i, cols) =>
      if Tab(t) !in s || (exists c | c in cols :: Col(t, c) !in s) then Err(Undefined)
      else if Idx(t, i) in s then Err(Duplicate)
      else Ok(s[Idx(t, i) := OnColumns(cols)])
    case Detach(t, i) =>
      if Idx(t, i) !in s then Err(Undefined) else Ok(s - {Idx(t, i)})
    case CreateEnum(e) =>
      if Typ(e) in s then Err(Duplicate) else Ok(s[Typ(e) := EnumDef])
    case DropEnum(e) =>
      if Typ(e) !in s then Err(Undefined)
      else if EnumInUse(s, e) then Err(StillReferenced)
      else Ok(s - {Typ(e)})
    case Touch(needs) =>
      if needs <= s.Keys then Ok(s) else Err(Undefined)
  }

  // ---- Steps and programs --------------------------------------------------

  function ApplyAll(ops: seq<Op>, s: Structure, pub: set<Table>): Result<Structure, SqlError>
    decreases |ops|, s
  {
    if ops == [] then Ok(s)
    else
      var s1 :- Apply(ops[0], s, pub);
      ApplyAll(ops[1..], s1, pub)
  }

  predicate Guard(step: Step, s: Structure) {
    step.present <= s.Keys && step.absent !! s.Keys
  }

  function RunStep(step: Step, s: Structure, pub: set<Table>): Result<Structure, SqlError> {
    if Guard(step, s) then ApplyAll(step.ops, s, pub) else Ok(s)
  }

  function Exec(p: Program, s: Structure, pub: set<Table>): Result<Structure, SqlError>
    decreases |p|, s
  {
    if p == [] then Ok(s)
    else
      var s1 :- RunStep(p[0], s, pub);
      Exec(p[1..], s1, pub)
  }

  /** Running `p` and then `q`. */
  lemma {:induction false} ExecAppend(p: Program, q: Program, s: Structure, pub: set<Table>)
    ensures Exec(p + q, s, pub) ==
            (var r := Exec(p, s, pub); if r.Ok? then Exec(q, r.value, pub) else r)
  {
    if p == [] {
      assert p + q == q;
    } else {
      assert (p + q)[0] == p[0] && (p + q)[1..] == p[1..] + q;
      var r := RunStep(p[0], s, pub);
      if r.Ok? {
        ExecAppend(p[1..], q, r.value, pub);
      }
    }
  }

  lemma ExecOne(step: Step, s: Structure, pub: set<Table>)
    ensures Exec([step], s, pub) == RunStep(step, s, pub)
  {
    var r := RunStep(step, s, pub);
    if r.Ok? {
      assert [step][1..] == [];
      assert Exec([], r.value, pub) == r;
    }
  }

  lemma ApplyOne(op: Op, s: Structure, pub: set<Table>)
    ensures ApplyAll([op], s, pub) == Apply(op, s, pub)
  {
    var r := Apply(op, s, pub);
    if r.Ok? {
      assert [op][1..] == [] && ApplyAll([], r.value, pub) == r;
    }
  }

  lemma {:induction false} ApplyAllAppend(a: seq<Op>, b: seq<Op>, s: Structure, pub: set<Table>)
    ensures ApplyAll(a + b, s, pub) ==
            (var r := ApplyAll(a, s, pub); if r.Ok? then ApplyAll(b, r.value, pub) else r)
  {
    if a == [] {
      assert a + b == b;
    } else {
      assert (a + b)[0] == a[0] && (a + b)[1..] == a[1..] + b;
      var r := Apply(a[0], s, pub);
      if r.Ok? {
        ApplyAllAppend(a[1..], b, r.value, pub);
      }
    }
  }

  /** The public tables decide whether a program succeeds, never what it produces. */
  lemma {:induction false} ApplyAllSame(ops: seq<Op>, s: Structure, pub: set<Table>, pub1: set<Table>)
    requires ApplyAll(ops, s, pub).Ok? && ApplyAll(ops, s, pub1).Ok?
    ensures ApplyAll(ops, s, pub) == ApplyAll(ops, s, pub1)
  {
    if ops != [] {
      assert Apply(ops[0], s, pub) == Apply(ops[0], s, pub1);
      ApplyAllSame(ops[1..], Apply(ops[0], s, pub).value, pub, pub1);
    }
  }

  lemma {:induction false} ExecSame(p: Program, s: Structure, pub: set<Table>, pub1: set<Table>)
    requires Exec(p, s, pub).Ok? && Exec(p, s, pub1).Ok?
    ensures Exec(p, s, pub) == Exec(p, s, pub1)
  {
    if p != [] {
      if Guard(p[0], s) {
        ApplyAllSame(p[0].ops, s, pub, pub1);
      }
      ExecSame(p[1..], RunStep(p[0], s, pub).value, pub, pub1);
    }
  }

  // ---- The invariant: nothing dangles --------------------------------------

  /** An object's owner and everything its definition mentions exist. The second line for
      columns is foreign-key closure. */
  predicate ObjectOk(s: Structure, o: Obj)
    requires o in s
  {
    match o
    case Tab(t) => s[o] == TableDef
    case Typ(e) => s[o] == EnumDef
    case Col(t, c) =>
      && Tab(t) in s && s[o].ColumnDef?
      && (s[o].ref.Local? ==> Tab(s[o].ref.r) in s)
      && (s[o].ty.OfEnum? ==> Typ(s[o].ty.e) in s)
    case Idx(t, i) =>
      && Tab(t) in s && s[o].OnColumns?
      && forall c | c in s[o].cols :: Col(t, c) in s
  }

  predicate WellFormed(s: Structure) {
    forall o | o in s :: ObjectOk(s, o)
  }

  lemma CreateKeepsWellFormed(t: Table, specs: map<Column, ColumnSpec>, s: Structure, pub: set<Table>)
    requires WellFormed(s) && Apply(CreateTable(t, specs), s, pub).Ok?
    ensures WellFormed(Apply(CreateTable(t, specs), s, pub).value)
  {
    var s1 := Apply(CreateTable(t, specs), s, pub).value;
    forall o | o in s1 ensures ObjectOk(s1, o) {
      if MadeBy(o, t, specs) {
        if o.Col? { assert SpecOk(specs[o.c], s, pub); }
      } else {
        assert ObjectOk(s, o);
      }
    }
  }

  lemma RenamedIndexOk(t: Table, i: Index, a: Column, b: Column, s: Structure)
    requires WellFormed(s) && Col(t, a) in s && Col(t, b) !in s && Idx(t, i) in s
    ensures Idx(t, i) in Renamed(s, t, a, b) && ObjectOk(Renamed(s, t, a, b), Idx(t, i))
  {
    var s1 := Renamed(s, t, a, b);
    assert ObjectOk(s, Idx(t, i));
    var before, after := s[Idx(t, i)].cols, s1[Idx(t, i)].cols;
    assert after == Swap(before, a, b);
    forall c | c in after ensures Col(t, c) in s1 {
      var k :| 0 <= k < |after| && after[k] == c;
      assert before[k] in before;
    }
  }

  lemma RenameKeepsWellFormed(t: Table, a: Column, b: Column, s: Structure)
    requires WellFormed(s) && Col(t, a) in s && Col(t, b) !in s
    ensures WellFormed(Renamed(s, t, a, b))
  {
    var s1 := Renamed(s, t, a, b);
    forall o | o in s1 ensures ObjectOk(s1, o) {
      var before := if o == Col(t, b) then Col(t, a) else o;
      assert ObjectOk(s, before);
      if o.Idx? && o.t == t {
        RenamedIndexOk(t, o.i, a, b, s);
      }
    }
  }

  lemma ApplyKeepsWellFormed(op: Op, s: Structure, pub: set<Table>)
    requires WellFormed(s) && Apply(op, s, pub).Ok?
    ensures WellFormed(Apply(op, s, pub).value)
  {
    var s1 := Apply(op, s, pub).value;
    match op
    case CreateTable(t, specs) => CreateKeepsWellFormed(t, specs, s, pub);
    case RenameColumn(t, a, b) => RenameKeepsWellFormed(t, a, b, s);
    case DropTable(t) => forall o | o in s1 ensures ObjectOk(s1, o) { assert ObjectOk(s, o); }
    case DropColumn(t, c) => forall o | o in s1 ensures ObjectOk(s1, o) { assert ObjectOk(s, o); }
    case Detach(t, i) => forall o | o in s1 ensures ObjectOk(s1, o) { assert ObjectOk(s, o); }
    case DropEnum(e) => forall o | o in s1 ensures ObjectOk(s1, o) { assert ObjectOk(s, o); }
    case AddColumn(t, c, _) =>
      forall o | o in s1 && o != Col(t, c) ensures ObjectOk(s1, o) { assert ObjectOk(s, o); }
    case Attach(t, i, _) =>
      forall o | o in s1 && o != Idx(t, i) ensures ObjectOk(s1, o) { assert ObjectOk(s, o); }
    case CreateEnum(e) =>
      forall o | o in s1 && o != Typ(e) ensures ObjectOk(s1, o) { assert ObjectOk(s, o); }
    case Touch(_) =>
  }

  lemma {:induction false} ApplyAllKeepsWellFormed(ops: seq<Op>, s: Structure, pub: set<Table>)
    requires WellFormed(s) && ApplyAll(ops, s, pub).Ok?
    ensures WellFormed(ApplyAll(ops, s, pub).value)
  {
    if ops != [] {
      ApplyKeepsWellFormed(ops[0], s, pub);
      ApplyAllKeepsWellFormed(ops[1..], Apply(ops[0], s, pub).value, pub);
    }
  }

  /** Every state a program passes through, after any number of its steps, is well formed:
      whatever the list of operations, no foreign key ever points at a missing table. */
  lemma {:induction false} ExecKeepsWellFormed(p: Program, n: nat, s: Structure, pub: set<Table>)
    requires WellFormed(s) && n <= |p| && Exec(p, s, pub).Ok?
    ensures Exec(p[..n], s, pub).Ok? && WellFormed(Exec(p[..n], s, pub).value)
    decreases n
  {
    if n == 0 {
      assert p[..n] == [];
    } else {
      var s1 := RunStep(p[0], s, pub).value;
      if Guard(p[0], s) {
        ApplyAllKeepsWellFormed(p[0].ops, s, pub);
      }
      ExecKeepsWellFormed(p[1..], n - 1, s1, pub);
      assert p[..n][0] == p[0] && p[..n][1..] == p[1..][..n - 1];
    }
  }

  lemma RunKeepsWellFormed(p: Program, s: Structure, pub: set<Table>)
    requires WellFormed(s) && Exec(p, s, pub).Ok?
    ensures WellFormed(Exec(p, s, pub).value)
  {
    ExecKeepsWellFormed(p, |p|, s, pub);
    assert p[..|p|] == p;
  }
}
