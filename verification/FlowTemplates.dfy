/** The rows of a ProspectingFlow table, and inserting the flow templates that are missing. */
module FlowTemplates {

  datatype FlowRow = FlowRow(id: string, body: string)

  type Rows = seq<FlowRow>

  predicate HasId(rows: Rows, id: string) {
    exists k | 0 <= k < |rows| :: rows[k].id == id
  }

  /** The primary key. */
  predicate UniqueIds(rows: Rows) {
    forall j, k | 0 <= j < k < |rows| :: rows[j].id != rows[k].id
  }

  /** The five templates of 0012. */
  function Templates(): Rows {
    [ FlowRow("tpl-apollo-hunter-basic", "template"),
      FlowRow("tpl-clay-clearbit-enrichment", "template"),
      FlowRow("tpl-zoominfo-linkedin-verified", "template"),
      FlowRow("tpl-hiring-signal-trigger", "template"),
      FlowRow("tpl-snovio-kaspr-smb", "template") ]
  }

  /** Insert each of `tpls` from the `n`th on whose id is not there. */
  function AddMissing(rows: Rows, tpls: Rows, n: nat): Rows
    requires n <= |tpls|
    decreases |tpls| - n
  {
    if n == |tpls| then rows
    else AddMissing(if HasId(rows, tpls[n].id) then rows else rows + [tpls[n]], tpls, n + 1)
  }

  function Seeded(rows: Rows): Rows {
    AddMissing(rows, Templates(), 0)
  }

  function Occurrences(rows: Rows, id: string): nat {
    if rows == [] then 0 else (if rows[0].id == id then 1 else 0) + Occurrences(rows[1..], id)
  }

  lemma {:induction false} OccursOnce(rows: Rows, id: string)
    requires UniqueIds(rows)
    ensures Occurrences(rows, id) == if HasId(rows, id) then 1 else 0
  {
    if rows != [] {
      OccursOnce(rows[1..], id);
      if rows[0].id == id {
        assert !HasId(rows[1..], id);
      } else if HasId(rows, id) {
        var k :| 0 <= k < |rows| && rows[k].id == id;
        assert rows[1..][k - 1].id == id;
      } else {
        assert forall k | 0 <= k < |rows| - 1 :: rows[1..][k] == rows[k + 1];
      }
    }
  }

  lemma {:induction false} AddMissingKeeps(rows: Rows, tpls: Rows, n: nat)
    requires n <= |tpls|
    ensures var r := AddMissing(rows, tpls, n);
            && rows <= r
            && (forall k | |rows| <= k < |r| :: r[k] in tpls && !HasId(rows, r[k].id))
            && (forall k | n <= k < |tpls| :: HasId(r, tpls[k].id))
            && (UniqueIds(rows) ==> UniqueIds(r))
    decreases |tpls| - n
  {
    if n < |tpls| {
      var next := if HasId(rows, tpls[n].id) then rows else rows + [tpls[n]];
      AddMissingKeeps(next, tpls, n + 1);
      var r := AddMissing(rows, tpls, n);
      assert HasId(next, tpls[n].id) by {
        if next != rows { assert next[|rows|].id == tpls[n].id; }
      }
      var k :| 0 <= k < |next| && next[k].id == tpls[n].id;
      assert r[k].id == tpls[n].id;
      forall j | |rows| <= j < |r| ensures r[j] in tpls && !HasId(rows, r[j].id) {
        forall i | 0 <= i < |rows| ensures rows[i].id != r[j].id {
          assert next[i] == rows[i];
        }
      }
    }
  }

  lemma {:induction false} NothingMissing(rows: Rows, tpls: Rows, n: nat)
    requires n <= |tpls| && forall k | n <= k < |tpls| :: HasId(rows, tpls[k].id)
    ensures AddMissing(rows, tpls, n) == rows
    decreases |tpls| - n
  {
    if n < |tpls| {
      NothingMissing(rows, tpls, n + 1);
    }
  }

  lemma SeedingOf(rows: Rows, tpls: Rows)
    requires UniqueIds(rows)
    ensures var r := AddMissing(rows, tpls, 0);
            && rows <= r && UniqueIds(r)
            && (forall t | t in tpls :: Occurrences(r, t.id) == 1)
            && (forall k | |rows| <= k < |r| :: r[k] in tpls && !HasId(rows, r[k].id))
  {
    var r := AddMissing(rows, tpls, 0);
    AddMissingKeeps(rows, tpls, 0);
    forall t | t in tpls ensures Occurrences(r, t.id) == 1 {
      var k :| 0 <= k < |tpls| && tpls[k] == t;
      OccursOnce(r, t.id);
    }
  }

  /** After seeding, each template id is there exactly once, every earlier row is where it was, and
      any new row is a template whose id was missing. */
  lemma SeedingIsExact(rows: Rows)
    requires UniqueIds(rows)
    ensures rows <= Seeded(rows) && UniqueIds(Seeded(rows))
    ensures forall t | t in Templates() :: Occurrences(Seeded(rows), t.id) == 1
    ensures forall k | |rows| <= k < |Seeded(rows)| :: Seeded(rows)[k] in Templates() && !HasId(rows, Seeded(rows)[k].id)
  {
    SeedingOf(rows, Templates());
  }

  /** Seeding again changes nothing. */
  lemma SeedingTwice(rows: Rows)
    ensures Seeded(Seeded(rows)) == Seeded(rows)
  {
    SeededTwiceOf(rows, Templates());
  }

  lemma SeededTwiceOf(rows: Rows, tpls: Rows)
    ensures AddMissing(AddMissing(rows, tpls, 0), tpls, 0) == AddMissing(rows, tpls, 0)
  {
    AddMissingKeeps(rows, tpls, 0);
    NothingMissing(AddMissing(rows, tpls, 0), tpls, 0);
  }
}
