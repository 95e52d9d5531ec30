/** The steps the migrations are written in: create a table, add a column, create an index, each
    only if it is not there yet. */
module GuardedMoves {
  import opened SchemaNames
  import opened Ddl
  import opened DdlPrograms

  type Indexes = seq<(Index, seq<Column>)>

  datatype Move =
      // if the table is missing: create it and its indexes
    | NewTable(t: Table, specs: map<Column, ColumnSpec>, ixs: Indexes)
      // if the column is missing (and, for `ifTable`, its table is not): add it and its constraints
    | NewColumn(t: Table, c: Column, spec: ColumnSpec, ixs: Indexes, ifTable: bool)
      // if the index is missing: create it
    | NewIndex(t: Table, i: Index, cols: seq<Column>)
    | NewEnum(e: EnumType)
      // always: read or change rows
    | Touches(needs: set<Obj>)

  function AttachOps(t: Table, ixs: Indexes): (ops: seq<Op>)
    ensures |ops| == |ixs|
  {
    seq(|ixs|, k requires 0 <= k < |ixs| => Attach(t, ixs[k].0, ixs[k].1))
  }

  function Head(m: Move): Op {
    match m
    case NewTable(t, specs, _) => CreateTable(t, specs)
    case NewColumn(t, c, spec, _, _) => AddColumn(t, c, spec)
    case NewIndex(t, i, cols) => Attach(t, i, cols)
    case NewEnum(e) => CreateEnum(e)
    case Touches(needs) => Touch(needs)
  }

  function Extras(m: Move): Indexes {
    if m.NewTable? || m.NewColumn? then m.ixs else []
  }

  function Owner(m: Move): Table {
    match m
    case NewTable(t, _, _) => t
    case NewColumn(t, _, _, _, _) => t
    case NewIndex(t, _, _) => t
    case _ => 0
  }

  function Ops(m: Move): seq<Op> {
    [Head(m)] + AttachOps(Owner(m), Extras(m))
  }

  function Present(m: Move): set<Obj> {
    if m.NewColumn? && m.ifTable then {Tab(m.t)} else {}
  }

  function Absent(m: Move): set<Obj> {
    match m
    case NewTable(t, _, _) => {Tab(t)}
    case NewColumn(t, c, _, _, _) => {Col(t, c)}
    case NewIndex(t, i, _) => {Idx(t, i)}
    case NewEnum(e) => {Typ(e)}
    case Touches(_) => {}
  }

  function StepOf(m: Move): Step {
    Step(Present(m), Absent(m), Ops(m))
  }

  function Steps(ms: seq<Move>): (p: Program)
    ensures |p| == |ms|
  {
    seq(|ms|, k requires 0 <= k < |ms| => StepOf(ms[k]))
  }

  // ---- What a move makes ---------------------------------------------------

  function IndexObjects(t: Table, ixs: Indexes): (r: set<Obj>)
    ensures forall o :: o in r <==> exists k | 0 <= k < |ixs| :: o == Idx(t, ixs[k].0)
  {
    set k | 0 <= k < |ixs| :: Idx(t, ixs[k].0)
  }

  function Made(m: Move): set<Obj> {
    Creates(Head(m)) + IndexObjects(Owner(m), Extras(m))
  }

  function AllMade(ms: seq<Move>, n: nat): set<Obj>
    requires n <= |ms|
    decreases |ms| - n
  {
    if n == |ms| then {} else Made(ms[n]) + AllMade(ms, n + 1)
  }

  lemma {:induction false} AttachesCreate(t: Table, ixs: Indexes)
    ensures AllCreates(AttachOps(t, ixs)) == IndexObjects(t, ixs)
    decreases |ixs|
  {
    if ixs != [] {
      assert AttachOps(t, ixs)[1..] == AttachOps(t, ixs[1..]);
      AttachesCreate(t, ixs[1..]);
      assert forall k | 0 < k < |ixs| :: ixs[k] == ixs[1..][k - 1];
    }
  }

  lemma MoveCreates(m: Move)
    ensures AllCreates(Ops(m)) == Made(m)
    ensures AllCreating(Ops(m)) && Guarded(StepOf(m))
    ensures Absent(m) <= Made(m)
  {
    assert Ops(m)[0] == Head(m) && Ops(m)[1..] == AttachOps(Owner(m), Extras(m));
    AttachesCreate(Owner(m), Extras(m));
  }

  lemma MovesAreAdditive(ms: seq<Move>)
    ensures Additive(Steps(ms)) && AllGuarded(Steps(ms))
  {
    forall k | 0 <= k < |ms| ensures AllCreating(Ops(ms[k])) && Guarded(StepOf(ms[k])) {
      MoveCreates(ms[k]);
    }
  }

  lemma {:induction false} StepsCreate(ms: seq<Move>, n: nat)
    requires n <= |ms|
    ensures ProgramCreates(Steps(ms)[n..]) == AllMade(ms, n)
    decreases |ms| - n
  {
    if n < |ms| {
      MoveCreates(ms[n]);
      assert Steps(ms)[n..][0] == StepOf(ms[n]) && Steps(ms)[n..][1..] == Steps(ms)[n + 1..];
      StepsCreate(ms, n + 1);
    }
  }

  lemma StepsAppend(a: seq<Move>, b: seq<Move>)
    ensures Steps(a + b) == Steps(a) + Steps(b)
  {
  }

  // ---- When a list of moves succeeds ---------------------------------------

  predicate ExtrasFit(t: Table, ixs: Indexes, keys: set<Obj>) {
    && (forall k | 0 <= k < |ixs| :: Idx(t, ixs[k].0) !in keys)
    && (forall k | 0 <= k < |ixs| :: forall c | c in ixs[k].1 :: Col(t, c) in keys)
    && (forall j, k | 0 <= j < k < |ixs| :: ixs[j].0 != ixs[k].0)
  }

  /** The move's conditions hold and it succeeds when exactly `keys` exist. */
  predicate MoveRuns(m: Move, keys: set<Obj>, pub: set<Table>) {
    OpRuns(Head(m), keys, pub) && ExtrasFit(Owner(m), Extras(m), keys + Creates(Head(m)))
  }

  predicate MovesRun(ms: seq<Move>, n: nat, keys: set<Obj>, pub: set<Table>)
    requires n <= |ms|
    decreases |ms| - n
  {
    n == |ms| || (MoveRuns(ms[n], keys, pub) && MovesRun(ms, n + 1, keys + Made(ms[n]), pub))
  }

  lemma {:induction false} AttachesRun(t: Table, ixs: Indexes, keys: set<Obj>, pub: set<Table>)
    requires ExtrasFit(t, ixs, keys) && (ixs != [] ==> Tab(t) in keys)
    ensures OpsRun(AttachOps(t, ixs), 0, keys, pub)
    ensures KeysAfter(AttachOps(t, ixs), 0, keys) == keys + IndexObjects(t, ixs)
  {
    AttachesRunFrom(t, ixs, 0, keys, pub);
  }

  lemma {:induction false} AttachesRunFrom(t: Table, ixs: Indexes, k: nat, keys: set<Obj>, pub: set<Table>)
    requires k <= |ixs| && (ixs != [] ==> Tab(t) in keys)
    requires forall j | k <= j < |ixs| :: Idx(t, ixs[j].0) !in keys
    requires forall j | k <= j < |ixs| :: forall c | c in ixs[j].1 :: Col(t, c) in keys
    requires forall i, j | 0 <= i < j < |ixs| :: ixs[i].0 != ixs[j].0
    ensures OpsRun(AttachOps(t, ixs), k, keys, pub)
    ensures forall o :: o in KeysAfter(AttachOps(t, ixs), k, keys) <==>
              (o in keys || exists j | k <= j < |ixs| :: o == Idx(t, ixs[j].0))
    decreases |ixs| - k
  {
    if k < |ixs| {
      AttachesRunFrom(t, ixs, k + 1, keys + {Idx(t, ixs[k].0)}, pub);
    }
  }

  /** An operation and the indexes after it, from the names that exist. */
  lemma HeadAndRest(head: Op, t: Table, ixs: Indexes, s: Structure, pub: set<Table>)
    requires WellFormed(s) && OpRuns(head, s.Keys, pub) && ExtrasFit(t, ixs, s.Keys + Creates(head))
    requires ixs != [] ==> Tab(t) in s.Keys + Creates(head)
    ensures Apply(head, s, pub).Ok? && ApplyAll([head] + AttachOps(t, ixs), s, pub).Ok?
    ensures var first, r := Apply(head, s, pub).value, ApplyAll([head] + AttachOps(t, ixs), s, pub).value;
            WellFormed(r) && Extends(s, first) && Extends(first, r) && r.Keys == s.Keys + Creates(head) + IndexObjects(t, ixs)
  {
    var rest := AttachOps(t, ixs);
    HeadSucceeds(head, s, pub);
    var first := Apply(head, s, pub).value;
    AttachesRun(t, ixs, first.Keys, pub);
    OpsRunSucceed(rest, 0, first, pub);
    assert rest[0..] == rest;
    ApplyOne(head, s, pub);
    ApplyAllAppend([head], rest, s, pub);
    ApplyAllCreating(rest, first, pub);
  }

  lemma HeadSucceeds(head: Op, s: Structure, pub: set<Table>)
    requires WellFormed(s) && OpRuns(head, s.Keys, pub)
    ensures Apply(head, s, pub).Ok?
    ensures var first := Apply(head, s, pub).value;
            WellFormed(first) && Extends(s, first) && first.Keys == s.Keys + Creates(head)
  {
    assert Apply(head, s, pub).Ok?;
    ApplyCreating(head, s, pub);
    ApplyKeepsWellFormed(head, s, pub);
  }

  lemma MoveSucceeds(m: Move, s: Structure, pub: set<Table>)
    requires WellFormed(s) && MoveRuns(m, s.Keys, pub)
    ensures Guard(StepOf(m), s) && RunStep(StepOf(m), s, pub).Ok?
    ensures var r := RunStep(StepOf(m), s, pub).value;
            WellFormed(r) && Extends(s, r) && r.Keys == s.Keys + Made(m)
    ensures Apply(Head(m), s, pub).Ok? && Extends(Apply(Head(m), s, pub).value, RunStep(StepOf(m), s, pub).value)
  {
    HeadAndRest(Head(m), Owner(m), Extras(m), s, pub);
  }

  /** What runs when only `base` exists runs when more exists, as long as none of the additional
      objects is one the move makes. */
  lemma MoveRunsMore(m: Move, base: set<Obj>, keys: set<Obj>, pub0: set<Table>, pub: set<Table>)
    requires MoveRuns(m, base, pub0) && base <= keys && pub0 <= pub
    requires keys - base !! Made(m)
    ensures MoveRuns(m, keys, pub)
  {
    if m.NewTable? {
      forall c | c in m.specs ensures SpecRuns(m.specs[c], keys, pub) {
        assert SpecRuns(m.specs[c], base, pub0);
      }
    }
    var t, ixs := Owner(m), Extras(m);
    forall k | 0 <= k < |ixs| ensures Idx(t, ixs[k].0) !in keys + Creates(Head(m)) {
      assert Idx(t, ixs[k].0) in Made(m);
    }
  }

  /** A list of moves checked against the objects it needs runs on every schema that has those and
      none of the objects it makes, and makes exactly those. */
  lemma {:induction false} MovesSucceed(ms: seq<Move>, n: nat, base: set<Obj>, pub0: set<Table>,
                                        s: Structure, pub: set<Table>)
    requires n <= |ms| && WellFormed(s) && MovesRun(ms, n, base, pub0) && base <= s.Keys && pub0 <= pub
    requires s.Keys - base !! AllMade(ms, n)
    ensures Exec(Steps(ms)[n..], s, pub).Ok?
    ensures var r := Exec(Steps(ms)[n..], s, pub).value;
            WellFormed(r) && Extends(s, r) && r.Keys == s.Keys + AllMade(ms, n)
    decreases |ms| - n
  {
    if n < |ms| {
      MoveRunsMore(ms[n], base, s.Keys, pub0, pub);
      MoveSucceeds(ms[n], s, pub);
      var p := Steps(ms);
      assert p[n..][0] == p[n] && p[n..][1..] == p[n + 1..];
      MovesSucceed(ms, n + 1, base + Made(ms[n]), pub0, RunStep(p[n], s, pub).value, pub);
    }
  }

  // ---- The same check without sets, for a list written out -----------------

  predicate Makes(m: Move, o: Obj) {
    match m
    case NewTable(t, specs, ixs) => MadeBy(o, t, specs) || NamesIndex(o, t, ixs)
    case NewColumn(t, c, _, ixs, _) => o == Col(t, c) || NamesIndex(o, t, ixs)
    case NewIndex(t, i, _) => o == Idx(t, i)
    case NewEnum(e) => o == Typ(e)
    case Touches(_) => false
  }

  predicate NamesIndex(o: Obj, t: Table, ixs: Indexes) {
    o.Idx? && o.t == t && exists k | 0 <= k < |ixs| :: ixs[k].0 == o.i
  }

  predicate MadeEarlier(ms: seq<Move>, k: nat, o: Obj)
    requires k <= |ms|
    decreases k
  {
    k > 0 && (Makes(ms[k - 1], o) || MadeEarlier(ms, k - 1, o))
  }

  predicate Stands(ms: seq<Move>, k: nat, base: set<Obj>, o: Obj)
    requires k <= |ms|
  {
    o in base || MadeEarlier(ms, k, o)
  }

  predicate KeyStands(fk: ForeignKey, ms: seq<Move>, k: nat, base: set<Obj>, pub: set<Table>)
    requires k <= |ms|
  {
    match fk
    case NoKey => true
    case Unqualified(r) => Stands(ms, k, base, Tab(r))
    case InSchema(r) => Stands(ms, k, base, Tab(r))
    case InPublic(r) => r in pub
  }

  predicate IndexesReady(ms: seq<Move>, k: nat, t: Table, ixs: Indexes)
    requires k <= |ms|
  {
    && (forall j | 0 <= j < |ixs| :: !MadeEarlier(ms, k, Idx(t, ixs[j].0)))
    && (forall i, j | 0 <= i < j < |ixs| :: ixs[i].0 != ixs[j].0)
  }

  /** Everything move `k` needs is in `base` or made by an earlier move, and what it makes is not. */
  predicate Ready(ms: seq<Move>, k: nat, base: set<Obj>, pub: set<Table>)
    requires k < |ms|
  {
    match ms[k]
    case NewTable(t, specs, ixs) =>
      && !MadeEarlier(ms, k, Tab(t))
      && (forall c | c in specs :: specs[c].ty.Scalar? && KeyStands(specs[c].fk, ms, k, base, pub))
      && (forall j | 0 <= j < |ixs| :: forall c | c in ixs[j].1 :: c in specs)
      && IndexesReady(ms, k, t, ixs)
    case NewColumn(t, c, spec, ixs, _) =>
      && !MadeEarlier(ms, k, Col(t, c)) && Stands(ms, k, base, Tab(t))
      && spec.ty.Scalar? && KeyStands(spec.fk, ms, k, base, pub)
      && (forall j | 0 <= j < |ixs| :: forall x | x in ixs[j].1 :: x == c)
      && IndexesReady(ms, k, t, ixs)
    case NewIndex(t, i, cols) =>
      && !MadeEarlier(ms, k, Idx(t, i)) && Stands(ms, k, base, Tab(t))
      && (forall c | c in cols :: Stands(ms, k, base, Col(t, c)))
    case NewEnum(_) => false
    case Touches(needs) => forall o | o in needs :: Stands(ms, k, base, o)
  }

  predicate AllReady(ms: seq<Move>, k: nat, base: set<Obj>, pub: set<Table>)
    requires k <= |ms|
    decreases |ms| - k
  {
    k == |ms| || (Ready(ms, k, base, pub) && AllReady(ms, k + 1, base, pub))
  }

  lemma MakesMade(m: Move, o: Obj)
    ensures Makes(m, o) <==> o in Made(m)
  {
    var t, ixs := Owner(m), Extras(m);
    if o in IndexObjects(t, ixs) {
      var k :| 0 <= k < |ixs| && o == Idx(t, ixs[k].0);
    }
  }

  lemma ReadyRuns(ms: seq<Move>, k: nat, base: set<Obj>, keys: set<Obj>, pub: set<Table>)
    requires k < |ms| && Ready(ms, k, base, pub) && base !! Made(ms[k])
    requires forall o :: o in keys <==> o in base || MadeEarlier(ms, k, o)
    ensures MoveRuns(ms[k], keys, pub)
  {
    var m := ms[k];
    var t, ixs := Owner(m), Extras(m);
    MoveCreates(m);
    forall j | 0 <= j < |ixs| ensures Idx(t, ixs[j].0) !in keys + Creates(Head(m)) {
      assert Idx(t, ixs[j].0) in Made(m);
    }
  }

  lemma {:induction false} AllReadyRun(ms: seq<Move>, k: nat, base: set<Obj>, keys: set<Obj>, pub: set<Table>)
    requires k <= |ms| && AllReady(ms, k, base, pub) && base !! AllMade(ms, k)
    requires forall o :: o in keys <==> o in base || MadeEarlier(ms, k, o)
    ensures MovesRun(ms, k, keys, pub)
    decreases |ms| - k
  {
    if k < |ms| {
      ReadyRuns(ms, k, base, keys, pub);
      forall o ensures o in keys + Made(ms[k]) <==> o in base || MadeEarlier(ms, k + 1, o) {
        MakesMade(ms[k], o);
      }
      AllReadyRun(ms, k + 1, base, keys + Made(ms[k]), pub);
    }
  }

  /** A list checked this way runs on every schema that has `base` and nothing the list makes. */
  lemma ReadyMovesSucceed(ms: seq<Move>, base: set<Obj>, pub0: set<Table>, s: Structure, pub: set<Table>)
    requires AllReady(ms, 0, base, pub0) && WellFormed(s) && base <= s.Keys && pub0 <= pub
    requires s.Keys !! AllMade(ms, 0)
    ensures Exec(Steps(ms), s, pub).Ok?
    ensures var r := Exec(Steps(ms), s, pub).value;
            WellFormed(r) && Extends(s, r) && r.Keys == s.Keys + AllMade(ms, 0)
  {
    AllReadyRun(ms, 0, base, base, pub0);
    MovesSucceed(ms, 0, base, pub0, s, pub);
    assert Steps(ms)[0..] == Steps(ms);
  }

  /** The same moves written without their guards. */
  function Unguarded(ms: seq<Move>): (p: Program)
    ensures |p| == |ms|
  {
    seq(|ms|, k requires 0 <= k < |ms| => Step({}, {}, Ops(ms[k])))
  }

  lemma {:induction false} UnguardedSame(ms: seq<Move>, n: nat, s: Structure, pub: set<Table>)
    requires n <= |ms| && WellFormed(s) && MovesRun(ms, n, s.Keys, pub)
    ensures Exec(Unguarded(ms)[n..], s, pub) == Exec(Steps(ms)[n..], s, pub)
    decreases |ms| - n
  {
    if n < |ms| {
      var p, q := Steps(ms), Unguarded(ms);
      assert p[n..][0] == p[n] && p[n..][1..] == p[n + 1..];
      assert q[n..][0] == q[n] && q[n..][1..] == q[n + 1..];
      MoveSucceeds(ms[n], s, pub);
      var r := RunStep(StepOf(ms[n]), s, pub);
      assert RunStep(p[n], s, pub) == r && RunStep(q[n], s, pub) == r;
      UnguardedSame(ms, n + 1, r.value, pub);
    }
  }

  /** Without guards the moves still run on a schema that has none of the objects they make. */
  lemma UnguardedSucceeds(ms: seq<Move>, base: set<Obj>, s: Structure, pub: set<Table>)
    requires AllReady(ms, 0, base, {}) && WellFormed(s) && base <= s.Keys && s.Keys !! AllMade(ms, 0)
    ensures Exec(Unguarded(ms), s, pub).Ok?
    ensures var r := Exec(Unguarded(ms), s, pub).value;
            WellFormed(r) && Extends(s, r) && r.Keys == s.Keys + AllMade(ms, 0)
  {
    ReadyMovesSucceed(ms, base, {}, s, pub);
    AllReadyRun(ms, 0, base, base, {});
    MovesRunOn(ms, 0, base, s.Keys, {}, pub);
    UnguardedSame(ms, 0, s, pub);
    assert Unguarded(ms)[0..] == Unguarded(ms) && Steps(ms)[0..] == Steps(ms);
  }

  lemma {:induction false} MovesRunOn(ms: seq<Move>, n: nat, base: set<Obj>, keys: set<Obj>, pub0: set<Table>, pub: set<Table>)
    requires n <= |ms| && MovesRun(ms, n, base, pub0) && base <= keys && pub0 <= pub
    requires keys - base !! AllMade(ms, n)
    ensures MovesRun(ms, n, keys, pub)
    decreases |ms| - n
  {
    if n < |ms| {
      MoveRunsMore(ms[n], base, keys, pub0, pub);
      MovesRunOn(ms, n + 1, base + Made(ms[n]), keys + Made(ms[n]), pub0, pub);
    }
  }

  lemma UnguardedIsAdditive(ms: seq<Move>)
    ensures Additive(Unguarded(ms))
  {
    forall k | 0 <= k < |ms| ensures AllCreating(Ops(ms[k])) {
      MoveCreates(ms[k]);
    }
  }

  lemma {:induction false} UnguardedCreates(ms: seq<Move>, n: nat)
    requires n <= |ms|
    ensures ProgramCreates(Unguarded(ms)[n..]) == AllMade(ms, n)
    decreases |ms| - n
  {
    if n < |ms| {
      MoveCreates(ms[n]);
      var p := Unguarded(ms);
      assert p[n..][0] == p[n] && p[n..][1..] == p[n + 1..];
      UnguardedCreates(ms, n + 1);
    }
  }
}
