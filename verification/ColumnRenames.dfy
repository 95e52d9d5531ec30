/** Guarded column renames, as 0015 runs them: what a list of them does, and when running the
    reversed renames brings a schema back. */
module ColumnRenames {
  import opened Wrappers
  import opened SchemaNames
  import opened Ddl

  datatype Rename = Rename(t: Table, a: Column, b: Column)

  function Reversed(x: Rename): Rename {
    Rename(x.t, x.b, x.a)
  }

  /** `if table and column a exist and column b does not: RENAME COLUMN a TO b` */
  function RenameIf(x: Rename): Step {
    Step({Tab(x.t), Col(x.t, x.a)}, {Col(x.t, x.b)}, [RenameColumn(x.t, x.a, x.b)])
  }

  predicate Fires(x: Rename, s: Structure) {
    Tab(x.t) in s && Col(x.t, x.a) in s && Col(x.t, x.b) !in s
  }

  function Flip(s: Structure, x: Rename): Structure {
    if Fires(x, s) then Renamed(s, x.t, x.a, x.b) else s
  }

  function FlipAll(s: Structure, xs: seq<Rename>): Structure
    decreases |xs|, s
  {
    if xs == [] then s else FlipAll(Flip(s, xs[0]), xs[1..])
  }

  function RenameSteps(xs: seq<Rename>): (p: Program)
    ensures |p| == |xs|
  {
    seq(|xs|, k requires 0 <= k < |xs| => RenameIf(xs[k]))
  }

  function Back(xs: seq<Rename>): (r: seq<Rename>)
    ensures |r| == |xs|
  {
    seq(|xs|, k requires 0 <= k < |xs| => Reversed(xs[k]))
  }

  predicate Mentions(x: Rename, t: Table, c: Column) {
    x.t == t && (x.a == c || x.b == c)
  }

  predicate Disjoint(x: Rename, y: Rename) {
    x.t != y.t || {x.a, x.b} !! {y.a, y.b}
  }

  predicate PairwiseDisjoint(xs: seq<Rename>) {
    forall j, k | 0 <= j < k < |xs| :: Disjoint(xs[j], xs[k])
  }

  /** The rename has not been done already: if the new name is there, so is the old one. */
  predicate NotYetRenamed(x: Rename, s: Structure) {
    Col(x.t, x.b) in s ==> Col(x.t, x.a) in s
  }

  lemma FlipStep(x: Rename, s: Structure, pub: set<Table>)
    ensures RunStep(RenameIf(x), s, pub) == Ok(Flip(s, x))
  {
    if Fires(x, s) {
      var op := RenameColumn(x.t, x.a, x.b);
      assert [op][1..] == [] && ApplyAll([], Flip(s, x), pub) == Ok(Flip(s, x));
      assert ApplyAll([op], s, pub) == Ok(Flip(s, x));
    }
  }

  /** Guarded renames never fail. */
  lemma {:induction false} RenameStepsRun(xs: seq<Rename>, s: Structure, pub: set<Table>)
    ensures Exec(RenameSteps(xs), s, pub) == Ok(FlipAll(s, xs))
  {
    if xs != [] {
      FlipStep(xs[0], s, pub);
      assert RenameSteps(xs)[1..] == RenameSteps(xs[1..]);
      RenameStepsRun(xs[1..], Flip(s, xs[0]), pub);
    }
  }

  lemma FlipKeepsWellFormed(s: Structure, x: Rename)
    requires WellFormed(s)
    ensures WellFormed(Flip(s, x))
  {
    if Fires(x, s) {
      RenameKeepsWellFormed(x.t, x.a, x.b, s);
    }
  }

  /** A rename leaves the presence of every other column, and of everything else, alone. */
  lemma FlipSpares(s: Structure, x: Rename, o: Obj)
    requires !(o.Col? && Mentions(x, o.t, o.c))
    ensures o in Flip(s, x) <==> o in s
  {
  }

  lemma DefsCommute(o: Obj, d: Def, x: Rename, y: Rename)
    requires Disjoint(x, y)
    ensures RenamedDef(o, RenamedDef(o, d, x.t, x.a, x.b), y.t, y.a, y.b) ==
            RenamedDef(o, RenamedDef(o, d, y.t, y.a, y.b), x.t, x.a, x.b)
  {
    if o.Idx? && d.OnColumns? && x.t == y.t {
      assert Swap(Swap(d.cols, x.a, x.b), y.a, y.b) == Swap(Swap(d.cols, y.a, y.b), x.a, x.b);
    }
  }

  lemma RenamesCommute(s: Structure, x: Rename, y: Rename)
    requires Disjoint(x, y) && Fires(x, s) && Fires(y, s)
    ensures Fires(y, Renamed(s, x.t, x.a, x.b)) && Fires(x, Renamed(s, y.t, y.a, y.b))
    ensures Renamed(Renamed(s, x.t, x.a, x.b), y.t, y.a, y.b) == Renamed(Renamed(s, y.t, y.a, y.b), x.t, x.a, x.b)
  {
    var l := Renamed(Renamed(s, x.t, x.a, x.b), y.t, y.a, y.b);
    var r := Renamed(Renamed(s, y.t, y.a, y.b), x.t, x.a, x.b);
    assert forall o :: o in l <==> o in r;
    forall o | o in l ensures l[o] == r[o] {
      if o.Idx? {
        DefsCommute(o, s[o], x, y);
      }
    }
  }

  lemma FlipsCommute(s: Structure, x: Rename, y: Rename)
    requires Disjoint(x, y)
    ensures Flip(Flip(s, x), y) == Flip(Flip(s, y), x)
  {
    FlipSparesPair(s, x, y);
    FlipSparesPair(s, y, x);
    if Fires(x, s) && Fires(y, s) {
      RenamesCommute(s, x, y);
    }
  }

  lemma FlipSparesPair(s: Structure, x: Rename, y: Rename)
    requires Disjoint(x, y)
    ensures Fires(y, Flip(s, x)) <==> Fires(y, s)
  {
    FlipSpares(s, x, Tab(y.t));
    FlipSpares(s, x, Col(y.t, y.a));
    FlipSpares(s, x, Col(y.t, y.b));
  }

  lemma {:induction false} FlipPastAll(s: Structure, x: Rename, xs: seq<Rename>)
    requires forall k | 0 <= k < |xs| :: Disjoint(x, xs[k])
    ensures Flip(FlipAll(s, xs), x) == FlipAll(Flip(s, x), xs)
    decreases |xs|
  {
    if xs != [] {
      FlipPastAll(Flip(s, xs[0]), x, xs[1..]);
      FlipsCommute(s, x, xs[0]);
    }
  }

  /** Renaming there and back undoes itself exactly when the rename was not already done. */
  lemma FlipBack(s: Structure, x: Rename)
    requires WellFormed(s) && x.a != x.b
    ensures NotYetRenamed(x, s) ==> Flip(Flip(s, x), Reversed(x)) == s
    ensures !NotYetRenamed(x, s) ==>
              Col(x.t, x.a) in Flip(Flip(s, x), Reversed(x)) && Col(x.t, x.b) !in Flip(Flip(s, x), Reversed(x))
  {
    if Fires(x, s) {
      var mid := Renamed(s, x.t, x.a, x.b);
      var end := Renamed(mid, x.t, x.b, x.a);
      assert forall o :: o in end <==> o in s;
      forall o | o in s ensures end[o] == s[o] {
        assert ObjectOk(s, o);
        if o.Idx? && o.t == x.t {
          assert x.b !in s[o].cols;
          assert Swap(Swap(s[o].cols, x.a, x.b), x.b, x.a) == s[o].cols;
        }
      }
    } else if !NotYetRenamed(x, s) {
      assert ObjectOk(s, Col(x.t, x.b));
    }
  }

  lemma {:induction false} FlipAllSpares(s: Structure, xs: seq<Rename>, o: Obj)
    requires forall k | 0 <= k < |xs| :: !(o.Col? && Mentions(xs[k], o.t, o.c))
    ensures o in FlipAll(s, xs) <==> o in s
    decreases |xs|
  {
    if xs != [] {
      FlipSpares(s, xs[0], o);
      FlipAllSpares(Flip(s, xs[0]), xs[1..], o);
    }
  }

  /** Running the renames and then the reversed renames, in the same order, gives back the schema
      if and only if none of them was already done. */
  lemma {:induction false} RenamesBackIff(s: Structure, xs: seq<Rename>)
    requires WellFormed(s) && PairwiseDisjoint(xs) && forall k | 0 <= k < |xs| :: xs[k].a != xs[k].b
    ensures FlipAll(FlipAll(s, xs), Back(xs)) == s <==> forall k | 0 <= k < |xs| :: NotYetRenamed(xs[k], s)
    decreases |xs|
  {
    if xs != [] {
      var x, rest := xs[0], xs[1..];
      var both := Flip(Flip(s, x), Reversed(x));
      assert Back(xs)[0] == Reversed(x) && Back(xs)[1..] == Back(rest);
      FlipPastAll(Flip(s, x), Reversed(x), rest);
      assert FlipAll(FlipAll(s, xs), Back(xs)) == FlipAll(FlipAll(both, rest), Back(rest));
      FlipBack(s, x);
      if NotYetRenamed(x, s) {
        RenamesBackIff(s, rest);
        assert forall k | 0 < k < |xs| :: xs[k] == rest[k - 1];
      } else {
        var o := Col(x.t, x.b);
        FlipAllSpares(both, rest, o);
        FlipAllSpares(FlipAll(both, rest), Back(rest), o);
      }
    }
  }
}
