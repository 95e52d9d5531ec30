/** The migration scripts as they run: statement after statement on one schema, each behind its test. */
module SchemaSession {
  import opened Wrappers
  import opened SchemaNames
  import opened Ddl
  import opened DdlRoundTrip
  import opened TenantTables
  import opened ColumnRenames
  import opened TenantMigrations

  lemma ApplyAllUnfolds(ops: seq<Op>, k: nat, s: Structure, pub: set<Table>)
    requires k < |ops|
    ensures ApplyAll(ops[k..], s, pub) ==
            (var r := Apply(ops[k], s, pub); if r.Ok? then ApplyAll(ops[k + 1..], r.value, pub) else r)
  {
    assert ops[k..][0] == ops[k] && ops[k..][1..] == ops[k + 1..];
  }

  lemma ExecUnfolds(p: Program, k: nat, s: Structure, pub: set<Table>)
    requires k < |p|
    ensures Exec(p[k..], s, pub) ==
            (var r := RunStep(p[k], s, pub); if r.Ok? then Exec(p[k + 1..], r.value, pub) else r)
  {
    assert p[k..][0] == p[k] && p[k..][1..] == p[k + 1..];
  }

  class Session {
    const pub: set<Table>
    var objs: Structure

    constructor (objs: Structure, pub: set<Table>)
      ensures this.objs == objs && this.pub == pub
    {
      this.objs := objs;
      this.pub := pub;
    }

    /** One statement. */
    method Execute(op: Op) returns (ok: bool)
      modifies this
      ensures ok == Apply(op, old(objs), pub).Ok?
      ensures objs == if ok then Apply(op, old(objs), pub).value else old(objs)
    {
      var r := Apply(op, objs, pub);
      ok := r.Ok?;
      if ok {
        objs := r.value;
      }
    }

    method ExecuteAll(ops: seq<Op>) returns (ok: bool)
      modifies this
      ensures ok == ApplyAll(ops, old(objs), pub).Ok?
      ensures ok ==> objs == ApplyAll(ops, old(objs), pub).value
    {
      ghost var goal := ApplyAll(ops, objs, pub);
      assert ops[0..] == ops;
      var k := 0;
      while k < |ops|
        invariant k <= |ops| && ApplyAll(ops[k..], objs, pub) == goal
      {
        ApplyAllUnfolds(ops, k, objs, pub);
        ok := Execute(ops[k]);
        if !ok {
          return;
        }
        k := k + 1;
      }
      ok := true;
    }

    /** A whole script: each step's test, then its statements. */
    method RunScript(p: Program) returns (ok: bool)
      modifies this
      ensures ok == Exec(p, old(objs), pub).Ok?
      ensures ok ==> objs == Exec(p, old(objs), pub).value
    {
      ghost var goal := Exec(p, objs, pub);
      assert p[0..] == p;
      var k := 0;
      while k < |p|
        invariant k <= |p| && Exec(p[k..], objs, pub) == goal
      {
        ExecUnfolds(p, k, objs, pub);
        if Guard(p[k], objs) {
          ok := ExecuteAll(p[k].ops);
          if !ok {
            return;
          }
        }
        k := k + 1;
      }
      ok := true;
    }

    /** The loops of the downgrades of 0005 and 0007: drop each of these if it is there. */
    method DropEach(ds: seq<Obj>) returns (ok: bool)
      modifies this
      ensures ok == Exec(DropSteps(ds, false), old(objs), pub).Ok?
      ensures ok ==> objs == Exec(DropSteps(ds, false), old(objs), pub).value
    {
      ghost var p := DropSteps(ds, false);
      ghost var goal := Exec(p, objs, pub);
      assert p[0..] == p;
      var k := 0;
      while k < |ds|
        invariant k <= |ds| && Exec(p[k..], objs, pub) == goal
      {
        ExecUnfolds(p, k, objs, pub);
        ApplyOne(DropOp(ds[k]), objs, pub);
        if ds[k] in objs {
          ok := Execute(DropOp(ds[k]));
          if !ok {
            return;
          }
        }
        k := k + 1;
      }
      ok := true;
    }

    /** The loop over the tables in the downgrade of 0002. */
    method DropTables(c: Catalogue) returns (ok: bool)
      modifies this
      ensures ok == Exec(DropTableSteps(c), old(objs), pub).Ok?
      ensures ok ==> objs == Exec(DropTableSteps(c), old(objs), pub).value
    {
      ghost var p := DropTableSteps(c);
      ghost var goal := Exec(p, objs, pub);
      assert p[0..] == p;
      var k := |c.blocks|;
      while k > 0
        invariant 0 <= k <= |c.blocks| && Exec(p[|c.blocks| - k..], objs, pub) == goal
      {
        var t := c.blocks[k - 1].t;
        assert p[|c.blocks| - k] == Step({Tab(t)}, {}, [DropTable(t)]);
        ExecUnfolds(p, |c.blocks| - k, objs, pub);
        ApplyOne(DropTable(t), objs, pub);
        if Tab(t) in objs {
          ok := Execute(DropTable(t));
          if !ok {
            return;
          }
        }
        k := k - 1;
      }
      ok := true;
    }

    /** One guarded rename of 0015. */
    method RenameOne(x: Rename)
      modifies this
      ensures objs == Flip(old(objs), x)
    {
      if Col(x.t, x.a) in objs && Col(x.t, x.b) !in objs && Tab(x.t) in objs {
        var ok := Execute(RenameColumn(x.t, x.a, x.b));
      }
    }

    /** 0015: the two renames for each of the two tables. */
    method RenameTimestamps()
      modifies this
      ensures objs == FlipAll(old(objs), Renames0015())
      ensures Exec(Up0015(), old(objs), pub) == Ok(objs)
    {
      ghost var was := objs;
      var tables := [user_sender_identities, user_email_quotas];
      ghost var xs := RenamesFor(tables);
      assert xs[0..] == xs;
      var k := 0;
      while k < |tables|
        invariant k <= |tables| && FlipAll(objs, xs[2 * k..]) == FlipAll(was, xs)
      {
        TwoFlips(objs, xs, 2 * k);
        RenameOne(Rename(tables[k], created_at, createdAt));
        RenameOne(Rename(tables[k], updated_at, updatedAt));
        k := k + 1;
      }
      RenamesListed();
      assert FlipAll(objs, []) == objs && xs[2 * k..] == [];
      RenameStepsRun(Renames0015(), was, pub);
    }
  }

  /** The renames in the order of 0015's loop. */
  function RenamesFor(tables: seq<Table>): (xs: seq<Rename>)
    ensures |xs| == 2 * |tables|
    ensures forall k | 0 <= k < |tables| ::
              xs[2 * k] == Rename(tables[k], created_at, createdAt) && xs[2 * k + 1] == Rename(tables[k], updated_at, updatedAt)
  {
    if tables == [] then []
    else
      var rest := RenamesFor(tables[1..]);
      [Rename(tables[0], created_at, createdAt), Rename(tables[0], updated_at, updatedAt)] + rest
  }

  lemma RenamesListed()
    ensures RenamesFor([user_sender_identities, user_email_quotas]) == Renames0015()
  {
    var tables, xs := [user_sender_identities, user_email_quotas], Renames0015();
    var ys := RenamesFor(tables);
    assert ys[2 * 0] == xs[0] && ys[2 * 0 + 1] == xs[1] && ys[2 * 1] == xs[2] && ys[2 * 1 + 1] == xs[3];
  }

  lemma TwoFlips(s: Structure, xs: seq<Rename>, k: nat)
    requires k + 1 < |xs|
    ensures FlipAll(s, xs[k..]) == FlipAll(Flip(Flip(s, xs[k]), xs[k + 1]), xs[k + 2..])
  {
    assert xs[k..][0] == xs[k] && xs[k..][1..] == xs[k + 1..];
    assert xs[k + 1..][0] == xs[k + 1] && xs[k + 1..][1..] == xs[k + 2..];
  }
}
