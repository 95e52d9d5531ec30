/** Migration 0002: create the enum types, then the tables in foreign-key order; drop them in the
    reverse order. Stated for every catalogue whose foreign keys only point backwards. */
module TenantTables {
  import opened Wrappers
  import opened SchemaNames
  import opened Ddl
  import opened DdlPrograms
  import opened GuardedMoves

  datatype Block = Block(t: Table, specs: map<Column, ColumnSpec>, indexes: Indexes)

  datatype Catalogue = Catalogue(enums: seq<EnumType>, blocks: seq<Block>)

  function BlockMove(b: Block): Move {
    NewTable(b.t, b.specs, b.indexes)
  }

  function EnumSteps(c: Catalogue): (p: Program)
    ensures |p| == |c.enums|
  {
    seq(|c.enums|, k requires 0 <= k < |c.enums| => StepOf(NewEnum(c.enums[k])))
  }

  function BlockSteps(c: Catalogue): (p: Program)
    ensures |p| == |c.blocks|
  {
    seq(|c.blocks|, k requires 0 <= k < |c.blocks| => StepOf(BlockMove(c.blocks[k])))
  }

  function Upgrade(c: Catalogue): Program {
    EnumSteps(c) + BlockSteps(c)
  }

  function DropTableSteps(c: Catalogue): (p: Program)
    ensures |p| == |c.blocks|
  {
    seq(|c.blocks|, k requires 0 <= k < |c.blocks| =>
      var t := c.blocks[|c.blocks| - 1 - k].t; Step({Tab(t)}, {}, [DropTable(t)]))
  }

  function DropEnumSteps(c: Catalogue): (p: Program)
    ensures |p| == |c.enums|
  {
    seq(|c.enums|, k requires 0 <= k < |c.enums| =>
      var e := c.enums[|c.enums| - 1 - k]; Step({Typ(e)}, {}, [DropEnum(e)]))
  }

  function Downgrade(c: Catalogue): Program {
    DropTableSteps(c) + DropEnumSteps(c)
  }

  // ---- What the file's ordering promises -----------------------------------

  predicate Before(c: Catalogue, r: Table, k: nat)
    requires k <= |c.blocks|
  {
    exists j | 0 <= j < k :: c.blocks[j].t == r
  }

  predicate SpecBackwards(c: Catalogue, k: nat, spec: ColumnSpec)
    requires k <= |c.blocks|
  {
    && (spec.ty.OfEnum? ==> spec.ty.e in c.enums)
    && (spec.fk.NoKey? || (spec.fk.Unqualified? && Before(c, spec.fk.r, k)))
  }

  predicate IndexesFit(b: Block) {
    && (forall k | 0 <= k < |b.indexes| :: forall x | x in b.indexes[k].1 :: x in b.specs)
    && (forall j, k | 0 <= j < k < |b.indexes| :: b.indexes[j].0 != b.indexes[k].0)
  }

  /** Referenced tables come first; tables and enum types are listed once. */
  predicate Ordered(c: Catalogue) {
    && (forall j, k | 0 <= j < k < |c.blocks| :: c.blocks[j].t != c.blocks[k].t)
    && (forall k | 0 <= k < |c.blocks| :: IndexesFit(c.blocks[k]))
    && (forall k | 0 <= k < |c.blocks| :: forall x | x in c.blocks[k].specs ::
         SpecBackwards(c, k, c.blocks[k].specs[x]))
  }

  predicate HasTable(c: Catalogue, t: Table) {
    exists k | 0 <= k < |c.blocks| :: c.blocks[k].t == t
  }

  predicate Belongs(c: Catalogue, o: Obj) {
    if o.Typ? then o.e in c.enums else HasTable(c, o.t)
  }

  predicate Complete(c: Catalogue, s: Structure) {
    && (forall e | e in c.enums :: Typ(e) in s)
    && (forall k | 0 <= k < |c.blocks| :: Tab(c.blocks[k].t) in s)
  }

  // ---- Upgrade -------------------------------------------------------------

  lemma {:induction false} EnumsSucceed(c: Catalogue, n: nat, s: Structure, pub: set<Table>)
    requires n <= |c.enums| && WellFormed(s)
    requires forall k | 0 <= k < n :: Typ(c.enums[k]) in s
    ensures Exec(EnumSteps(c)[n..], s, pub).Ok?
    ensures var r := Exec(EnumSteps(c)[n..], s, pub).value;
            && WellFormed(r) && Extends(s, r)
            && (forall e | e in c.enums :: Typ(e) in r)
            && (forall o | o in r && o !in s :: o.Typ? && Belongs(c, o))
    decreases |c.enums| - n
  {
    if n < |c.enums| {
      var p := EnumSteps(c);
      assert p[n..][0] == p[n] && p[n..][1..] == p[n + 1..];
      var m := NewEnum(c.enums[n]);
      var r := RunStep(p[n], s, pub);
      if Guard(StepOf(m), s) {
        assert MoveRuns(m, s.Keys, pub);
        MoveSucceeds(m, s, pub);
      }
      EnumsSucceed(c, n + 1, r.value, pub);
    }
  }

  /** What a column is stored as when the table its key names is in the same schema. */
  function AtHome(spec: ColumnSpec): Def {
    ColumnDef(spec.ty, if spec.fk.Unqualified? then Local(spec.fk.r) else NoRef)
  }

  predicate HasColumns(b: Block, s: Structure) {
    forall x | x in b.specs :: Col(b.t, x) in s && s[Col(b.t, x)] == AtHome(b.specs[x])
  }

  lemma BlockSucceeds(c: Catalogue, n: nat, s: Structure, pub: set<Table>)
    requires Ordered(c) && n < |c.blocks| && WellFormed(s)
    requires forall e | e in c.enums :: Typ(e) in s
    requires forall k | 0 <= k < n :: Tab(c.blocks[k].t) in s
    ensures RunStep(StepOf(BlockMove(c.blocks[n])), s, pub).Ok?
    ensures var r := RunStep(StepOf(BlockMove(c.blocks[n])), s, pub).value;
            && WellFormed(r) && Extends(s, r) && Tab(c.blocks[n].t) in r
            && (forall o | o in r && o !in s :: OwnedBy(o, c.blocks[n].t))
            && (Tab(c.blocks[n].t) !in s ==> HasColumns(c.blocks[n], r))
  {
    var b := c.blocks[n];
    var m := BlockMove(b);
    if Guard(StepOf(m), s) {
      forall x | x in b.specs ensures SpecRuns(b.specs[x], s.Keys, pub) {
        assert SpecBackwards(c, n, b.specs[x]);
      }
      forall o | o in s ensures !OwnedBy(o, b.t) {
        assert ObjectOk(s, o);
      }
      assert IndexesFit(b);
      assert MoveRuns(m, s.Keys, pub);
      MoveSucceeds(m, s, pub);
      assert Tab(b.t) in Made(m);
      forall x | x in b.specs ensures Stored(b.specs[x], s) == AtHome(b.specs[x]) {
        assert SpecBackwards(c, n, b.specs[x]);
      }
    }
  }

  lemma {:induction false} BlocksSucceed(c: Catalogue, n: nat, s: Structure, pub: set<Table>)
    requires Ordered(c) && n <= |c.blocks| && WellFormed(s)
    requires forall e | e in c.enums :: Typ(e) in s
    requires forall k | 0 <= k < n :: Tab(c.blocks[k].t) in s
    ensures Exec(BlockSteps(c)[n..], s, pub).Ok?
    ensures var r := Exec(BlockSteps(c)[n..], s, pub).value;
            && WellFormed(r) && Extends(s, r) && Complete(c, r)
            && (forall o | o in r && o !in s :: Belongs(c, o))
            && (forall k | n <= k < |c.blocks| && Tab(c.blocks[k].t) !in s :: HasColumns(c.blocks[k], r))
    decreases |c.blocks| - n
  {
    if n < |c.blocks| {
      var p := BlockSteps(c);
      assert p[n..][0] == p[n] && p[n..][1..] == p[n + 1..];
      BlockSucceeds(c, n, s, pub);
      var r := RunStep(StepOf(BlockMove(c.blocks[n])), s, pub).value;
      assert RunStep(p[n], s, pub) == Ok(r);
      BlocksSucceed(c, n + 1, r, pub);
      var end := Exec(p[n + 1..], r, pub).value;
      forall o | o in end && o !in s ensures Belongs(c, o) {
        assert o in r ==> OwnedBy(o, c.blocks[n].t);
      }
      forall k | n <= k < |c.blocks| && Tab(c.blocks[k].t) !in s ensures HasColumns(c.blocks[k], end) {
        assert k > n ==> c.blocks[k].t != c.blocks[n].t && Tab(c.blocks[k].t) !in r;
      }
    }
  }

  /** From any schema without dangling references -- empty, complete, or holding any part of the
      catalogue next to other tables -- the upgrade succeeds, completes the catalogue, creates
      missing tables with all their columns, leaves what existed as it was, and at every step in
      between no reference dangles. */
  lemma UpgradeCompletes(c: Catalogue, s: Structure, pub: set<Table>)
    requires Ordered(c) && WellFormed(s)
    ensures Exec(Upgrade(c), s, pub).Ok?
    ensures var r := Exec(Upgrade(c), s, pub).value;
            && Complete(c, r) && Extends(s, r)
            && (forall o | o in r && o !in s :: Belongs(c, o))
            && (forall k | 0 <= k < |c.blocks| && Tab(c.blocks[k].t) !in s :: HasColumns(c.blocks[k], r))
    ensures forall n | 0 <= n <= |Upgrade(c)| ::
              Exec(Upgrade(c)[..n], s, pub).Ok? && WellFormed(Exec(Upgrade(c)[..n], s, pub).value)
  {
    assert EnumSteps(c)[0..] == EnumSteps(c) && BlockSteps(c)[0..] == BlockSteps(c);
    EnumsSucceed(c, 0, s, pub);
    BlocksSucceed(c, 0, Exec(EnumSteps(c), s, pub).value, pub);
    ExecAppend(EnumSteps(c), BlockSteps(c), s, pub);
    forall n | 0 <= n <= |Upgrade(c)|
      ensures Exec(Upgrade(c)[..n], s, pub).Ok? && WellFormed(Exec(Upgrade(c)[..n], s, pub).value)
    {
      ExecKeepsWellFormed(Upgrade(c), n, s, pub);
    }
  }

  // ---- Downgrade -----------------------------------------------------------

  /** What is left of `s` once the tables from position `k` on are dropped. */
  function Cut(c: Catalogue, k: nat, s: Structure): Structure
    requires k <= |c.blocks|
  {
    map o | o in s && !(!o.Typ? && exists j | k <= j < |c.blocks| :: c.blocks[j].t == o.t) :: s[o]
  }

  /** What is left once the first `m` drops of the enum types are done too. */
  function CutEnums(c: Catalogue, m: nat, s: Structure): Structure
    requires m <= |c.enums|
  {
    map o | o in s && !(o.Typ? && exists j | |c.enums| - m <= j < |c.enums| :: c.enums[j] == o.e) :: s[o]
  }

  function Rest(c: Catalogue, s: Structure): Structure {
    map o | o in s && !Belongs(c, o) :: s[o]
  }

  /** References between catalogue tables in `s` point backwards, as the upgrade creates them. */
  predicate Layered(c: Catalogue, s: Structure) {
    forall o, k | o in s && 0 <= k < |c.blocks| && o.Col? && o.t == c.blocks[k].t && s[o].ColumnDef? ::
      s[o].ref.Local? && HasTable(c, s[o].ref.r) && s[o].ref.r != o.t ==> Before(c, s[o].ref.r, k)
  }

  /** A column of a table outside the catalogue that references one of its tables or uses one of
      its enum types. */
  predicate HoldsOn(c: Catalogue, s: Structure, o: Obj)
    requires o in s
  {
    && o.Col? && !HasTable(c, o.t) && s[o].ColumnDef?
    && ((s[o].ref.Local? && HasTable(c, s[o].ref.r)) || (s[o].ty.OfEnum? && s[o].ty.e in c.enums))
  }

  predicate HeldFromOutside(c: Catalogue, s: Structure) {
    exists o | o in s :: HoldsOn(c, s, o)
  }

  lemma CutStep(c: Catalogue, k: nat, s: Structure, pub: set<Table>)
    requires 0 < k <= |c.blocks| && WellFormed(s)
    ensures var cur := Cut(c, k, s);
            var step := DropTableSteps(c)[|c.blocks| - k];
            RunStep(step, cur, pub).Ok? ==> RunStep(step, cur, pub).value == Cut(c, k - 1, s)
  {
    var t := c.blocks[k - 1].t;
    var cur := Cut(c, k, s);
    var step := DropTableSteps(c)[|c.blocks| - k];
    assert step == Step({Tab(t)}, {}, [DropTable(t)]);
    ApplyOne(DropTable(t), cur, pub);
    if !Guard(step, cur) {
      forall o | o in s && OwnedBy(o, t) ensures o !in cur {
        assert ObjectOk(s, o);
      }
    }
    var r := RunStep(step, cur, pub);
    if r.Ok? {
      assert r.value.Keys == Cut(c, k - 1, s).Keys;
    }
  }

  lemma {:induction false} TableDropsCut(c: Catalogue, k: nat, s: Structure, pub: set<Table>)
    requires k <= |c.blocks| && WellFormed(s)
    requires Exec(DropTableSteps(c)[|c.blocks| - k..], Cut(c, k, s), pub).Ok?
    ensures Exec(DropTableSteps(c)[|c.blocks| - k..], Cut(c, k, s), pub) == Ok(Cut(c, 0, s))
  {
    if k > 0 {
      var p, n := DropTableSteps(c), |c.blocks| - k;
      assert p[n..][0] == p[n] && p[n..][1..] == p[n + 1..];
      CutStep(c, k, s, pub);
      TableDropsCut(c, k - 1, s, pub);
    }
  }

  lemma {:induction false} TableDropsSucceed(c: Catalogue, k: nat, s: Structure, pub: set<Table>)
    requires Ordered(c) && k <= |c.blocks| && WellFormed(s) && Layered(c, s)
    requires !HeldFromOutside(c, s)
    ensures Exec(DropTableSteps(c)[|c.blocks| - k..], Cut(c, k, s), pub).Ok?
  {
    if k > 0 {
      var p, n := DropTableSteps(c), |c.blocks| - k;
      var t, cur := c.blocks[k - 1].t, Cut(c, k, s);
      assert p[n..][0] == p[n] && p[n..][1..] == p[n + 1..];
      forall o | o in cur && !OwnedBy(o, t) ensures !RefersTo(cur[o], t) {
        assert ObjectOk(s, o) && !HoldsOn(c, s, o);
        assert HasTable(c, t);
      }
      ApplyOne(DropTable(t), cur, pub);
      CutStep(c, k, s, pub);
      TableDropsSucceed(c, k - 1, s, pub);
    }
  }

  lemma EnumCutStep(c: Catalogue, m: nat, s: Structure, pub: set<Table>)
    requires m < |c.enums|
    ensures var cur := CutEnums(c, m, s);
            var step := DropEnumSteps(c)[m];
            && (RunStep(step, cur, pub).Ok? ==> RunStep(step, cur, pub).value == CutEnums(c, m + 1, s))
            && (!EnumInUse(cur, c.enums[|c.enums| - 1 - m]) ==> RunStep(step, cur, pub).Ok?)
  {
    var e := c.enums[|c.enums| - 1 - m];
    var cur := CutEnums(c, m, s);
    var step := DropEnumSteps(c)[m];
    assert step == Step({Typ(e)}, {}, [DropEnum(e)]);
    ApplyOne(DropEnum(e), cur, pub);
    var r := RunStep(step, cur, pub);
    if r.Ok? {
      assert r.value.Keys == CutEnums(c, m + 1, s).Keys;
    }
  }

  lemma {:induction false} EnumDropsCut(c: Catalogue, m: nat, s: Structure, pub: set<Table>)
    requires m <= |c.enums|
    requires Exec(DropEnumSteps(c)[m..], CutEnums(c, m, s), pub).Ok?
    ensures Exec(DropEnumSteps(c)[m..], CutEnums(c, m, s), pub) == Ok(CutEnums(c, |c.enums|, s))
    decreases |c.enums| - m
  {
    if m < |c.enums| {
      var p := DropEnumSteps(c);
      assert p[m..][0] == p[m] && p[m..][1..] == p[m + 1..];
      EnumCutStep(c, m, s, pub);
      EnumDropsCut(c, m + 1, s, pub);
    }
  }

  lemma {:induction false} EnumDropsSucceed(c: Catalogue, m: nat, s: Structure, pub: set<Table>)
    requires m <= |c.enums|
    requires forall e | e in c.enums :: !EnumInUse(s, e)
    ensures Exec(DropEnumSteps(c)[m..], CutEnums(c, m, s), pub).Ok?
    decreases |c.enums| - m
  {
    if m < |c.enums| {
      var p := DropEnumSteps(c);
      assert p[m..][0] == p[m] && p[m..][1..] == p[m + 1..];
      var e := c.enums[|c.enums| - 1 - m];
      assert !EnumInUse(s, e) && !EnumInUse(CutEnums(c, m, s), e);
      EnumCutStep(c, m, s, pub);
      EnumDropsSucceed(c, m + 1, s, pub);
    }
  }

  lemma CutsAreRest(c: Catalogue, s: Structure)
    ensures CutEnums(c, |c.enums|, Cut(c, 0, s)) == Rest(c, s)
    ensures Cut(c, |c.blocks|, s) == s
    ensures CutEnums(c, 0, Cut(c, 0, s)) == Cut(c, 0, s)
  {
    assert CutEnums(c, |c.enums|, Cut(c, 0, s)).Keys == Rest(c, s).Keys;
    assert Cut(c, |c.blocks|, s).Keys == s.Keys;
    assert CutEnums(c, 0, Cut(c, 0, s)).Keys == Cut(c, 0, s).Keys;
  }

  /** A downgrade that finishes leaves exactly what does not belong to the catalogue. */
  lemma DowngradeLeavesRest(c: Catalogue, s: Structure, pub: set<Table>)
    requires WellFormed(s) && Exec(Downgrade(c), s, pub).Ok?
    ensures Exec(Downgrade(c), s, pub) == Ok(Rest(c, s))
  {
    assert DropTableSteps(c)[0..] == DropTableSteps(c) && DropEnumSteps(c)[0..] == DropEnumSteps(c);
    ExecAppend(DropTableSteps(c), DropEnumSteps(c), s, pub);
    CutsAreRest(c, s);
    TableDropsCut(c, |c.blocks|, s, pub);
    EnumDropsCut(c, 0, Cut(c, 0, s), pub);
  }

  lemma HeldWouldDangle(c: Catalogue, s: Structure)
    requires WellFormed(s) && HeldFromOutside(c, s)
    ensures !WellFormed(Rest(c, s))
  {
    var o :| o in s && HoldsOn(c, s, o);
    assert o in Rest(c, s) && !ObjectOk(Rest(c, s), o);
  }

  /** The downgrade never drops a table or type that is still referenced, and gets through, if and
      only if no table outside the catalogue holds on to one of its tables or enum types. */
  lemma DowngradeSucceedsIff(c: Catalogue, s: Structure, pub: set<Table>)
    requires Ordered(c) && WellFormed(s) && Layered(c, s)
    ensures Exec(Downgrade(c), s, pub) == Ok(Rest(c, s)) <==> !HeldFromOutside(c, s)
    ensures Exec(Downgrade(c), s, pub).Ok? <==> !HeldFromOutside(c, s)
  {
    assert DropTableSteps(c)[0..] == DropTableSteps(c) && DropEnumSteps(c)[0..] == DropEnumSteps(c);
    ExecAppend(DropTableSteps(c), DropEnumSteps(c), s, pub);
    CutsAreRest(c, s);
    if HeldFromOutside(c, s) {
      if Exec(Downgrade(c), s, pub).Ok? {
        DowngradeLeavesRest(c, s, pub);
        RunKeepsWellFormed(Downgrade(c), s, pub);
        HeldWouldDangle(c, s);
      }
    } else {
      TableDropsSucceed(c, |c.blocks|, s, pub);
      TableDropsCut(c, |c.blocks|, s, pub);
      var mid := Cut(c, 0, s);
      forall e | e in c.enums ensures !EnumInUse(mid, e) {
        forall o | o in mid && mid[o].ColumnDef? ensures mid[o].ty != OfEnum(e) {
          assert ObjectOk(s, o) && !HoldsOn(c, s, o);
        }
      }
      EnumDropsSucceed(c, 0, mid, pub);
      DowngradeLeavesRest(c, s, pub);
    }
  }
}
