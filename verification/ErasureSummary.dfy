/** What the erasure script reports of its steps 1 to 4, and when the report is true. */
module ErasureSummary {
  import opened SchemaNames
  import opened TenantNaming
  import opened Databases
  import opened FlowTemplates
  import opened ChainTables
  import opened MigrationRunner
  import opened ModeBRuns
  import opened Erasure

  predicate Distinct(ts: seq<Table>) {
    forall i, j | 0 <= i < j < |ts| :: ts[i] != ts[j]
  }

  /** What a DELETE on a table that is there reports. */
  function FullReport(db: Database, name: string, t: Table): Report {
    Deleted(t, |RowsIn(db, name, t)|)
  }

  lemma {:induction false} StrictReportsAre(db: Database, name: string, ts: seq<Table>, refused: set<Table>, k: nat)
    requires PublicFree(db) && k <= |ts| && Distinct(ts) && AllOwn(db, name, ts, refused, k)
    requires forall j | 0 <= j < |ts| :: TenantTable(ts[j])
    ensures |StrictReports(db, name, ts, refused, k)| == |ts| - k
    ensures forall j | k <= j < |ts| :: StrictReports(db, name, ts, refused, k)[j - k] == FullReport(db, name, ts[j])
    decreases |ts| - k
  {
    if k < |ts| {
      var next := SetRows(db, name, ts[k], []);
      FirstStrict(db, name, ts, refused, k);
      StrictReportsAre(next, name, ts, refused, k + 1);
      var rest := StrictReports(next, name, ts, refused, k + 1);
      forall j | k < j < |ts| ensures ([FullReport(db, name, ts[k])] + rest)[j - k] == FullReport(db, name, ts[j]) {
        assert ([FullReport(db, name, ts[k])] + rest)[j - k] == rest[j - (k + 1)];
      }
    }
  }

  lemma FirstStrict(db: Database, name: string, ts: seq<Table>, refused: set<Table>, k: nat)
    requires PublicFree(db) && k < |ts| && Distinct(ts) && TenantTable(ts[k]) && AllOwn(db, name, ts, refused, k)
    ensures var next := SetRows(db, name, ts[k], []);
            && PublicFree(next) && AllOwn(next, name, ts, refused, k + 1)
            && StrictReports(db, name, ts, refused, k) == [FullReport(db, name, ts[k])] + StrictReports(next, name, ts, refused, k + 1)
            && forall j | k < j < |ts| :: FullReport(next, name, ts[j]) == FullReport(db, name, ts[j])
  {
    TargetIsOwn(db, name, ts[k]);
    DeleteFromIff(db, name, ts[k], refused);
    assert forall t :: Own(SetRows(db, name, ts[k], []), name, t) <==> Own(db, name, t);
  }

  /** The DELETEs from place `k` to place `j` all work. */
  predicate FineTo(db: Database, name: string, ts: seq<Table>, refused: set<Table>, k: nat, j: nat)
    requires j < |ts|
  {
    forall i | k <= i <= j :: Own(db, name, ts[i]) && ts[i] !in refused
  }

  lemma {:induction false} SkippedOnward(tx: Tx, name: string, ts: seq<Table>, refused: set<Table>, k: nat)
    requires tx.aborted && k <= |ts|
    ensures |LooseReports(tx, name, ts, refused, k)| == |ts| - k
    ensures forall j | k <= j < |ts| :: LooseReports(tx, name, ts, refused, k)[j - k] == Skipped(ts[j])
    decreases |ts| - k
  {
    if k < |ts| { SkippedOnward(tx, name, ts, refused, k + 1); }
  }

  lemma OneReported(db: Database, name: string, ts: seq<Table>, refused: set<Table>, k: nat)
    requires PublicFree(db) && k < |ts| && TenantTable(ts[k]) && Own(db, name, ts[k]) && ts[k] !in refused
    ensures PublicFree(SetRows(db, name, ts[k], []))
    ensures LooseReports(Tx(db, false), name, ts, refused, k) ==
            [FullReport(db, name, ts[k])] + LooseReports(Tx(SetRows(db, name, ts[k], []), false), name, ts, refused, k + 1)
  {
    TargetIsOwn(db, name, ts[k]);
    DeleteFromIff(db, name, ts[k], refused);
  }

  /** A DELETE that works is reported, and changes nothing for those after it. */
  lemma ReportsOnward(db: Database, name: string, ts: seq<Table>, refused: set<Table>, k: nat)
    requires k < |ts| && Distinct(ts) && Own(db, name, ts[k]) && ts[k] !in refused
    ensures var next := SetRows(db, name, ts[k], []);
            forall j | k < j < |ts| ::
              && (FineTo(next, name, ts, refused, k + 1, j) <==> FineTo(db, name, ts, refused, k, j))
              && FullReport(next, name, ts[j]) == FullReport(db, name, ts[j])
  {
    var next := SetRows(db, name, ts[k], []);
    assert forall t :: Own(next, name, t) <==> Own(db, name, t);
    forall j | k < j < |ts|
      ensures FineTo(next, name, ts, refused, k + 1, j) <==> FineTo(db, name, ts, refused, k, j)
    {
      if FineTo(next, name, ts, refused, k + 1, j) {
        assert forall i | k < i <= j :: Own(next, name, ts[i]) && ts[i] !in refused;
      }
    }
  }

  /** From place `k` on: each table whose DELETE and all before it work, with its rows; the others skipped. */
  ghost predicate ReportsAre(reports: seq<Report>, db: Database, name: string, ts: seq<Table>, refused: set<Table>, k: nat) {
    && k <= |ts| && |reports| == |ts| - k
    && forall j | k <= j < |ts| ::
         reports[j - k] == if FineTo(db, name, ts, refused, k, j) then FullReport(db, name, ts[j]) else Skipped(ts[j])
  }

  lemma OneMoreReport(reports: seq<Report>, db: Database, next: Database, name: string, ts: seq<Table>, refused: set<Table>, k: nat)
    requires k < |ts| && ReportsAre(reports, next, name, ts, refused, k + 1) && Own(db, name, ts[k]) && ts[k] !in refused
    requires forall j | k < j < |ts| :: FineTo(next, name, ts, refused, k + 1, j) <==> FineTo(db, name, ts, refused, k, j)
    requires forall j | k < j < |ts| :: FullReport(next, name, ts[j]) == FullReport(db, name, ts[j])
    ensures ReportsAre([FullReport(db, name, ts[k])] + reports, db, name, ts, refused, k)
  {
    var all := [FullReport(db, name, ts[k])] + reports;
    assert FineTo(db, name, ts, refused, k, k);
    forall j | k < j < |ts|
      ensures all[j - k] == if FineTo(db, name, ts, refused, k, j) then FullReport(db, name, ts[j]) else Skipped(ts[j])
    {
      assert all[j - k] == reports[j - (k + 1)];
    }
  }

  lemma {:induction false} LooseReportsAre(db: Database, name: string, ts: seq<Table>, refused: set<Table>, k: nat)
    requires PublicFree(db) && k <= |ts| && Distinct(ts) && forall j | 0 <= j < |ts| :: TenantTable(ts[j])
    ensures ReportsAre(LooseReports(Tx(db, false), name, ts, refused, k), db, name, ts, refused, k)
    decreases |ts| - k
  {
    if k < |ts| {
      if Own(db, name, ts[k]) && ts[k] !in refused {
        var next := SetRows(db, name, ts[k], []);
        OneReported(db, name, ts, refused, k);
        ReportsOnward(db, name, ts, refused, k);
        LooseReportsAre(next, name, ts, refused, k + 1);
        OneMoreReport(LooseReports(Tx(next, false), name, ts, refused, k + 1), db, next, name, ts, refused, k);
      } else {
        ReportsStop(db, name, ts, refused, k);
      }
    }
  }

  lemma ReportsStop(db: Database, name: string, ts: seq<Table>, refused: set<Table>, k: nat)
    requires PublicFree(db) && k < |ts| && TenantTable(ts[k]) && !(Own(db, name, ts[k]) && ts[k] !in refused)
    ensures ReportsAre(LooseReports(Tx(db, false), name, ts, refused, k), db, name, ts, refused, k)
  {
    FirstSkipped(db, name, ts, refused, k);
    SkippedOnward(Tx(db, true), name, ts, refused, k + 1);
    assert forall j | k <= j < |ts| :: !FineTo(db, name, ts, refused, k, j);
    var rest := LooseReports(Tx(db, true), name, ts, refused, k + 1);
    forall j | k < j < |ts| ensures ([Skipped(ts[k])] + rest)[j - k] == Skipped(ts[j]) {
      assert ([Skipped(ts[k])] + rest)[j - k] == rest[j - (k + 1)];
    }
  }

  lemma FirstSkipped(db: Database, name: string, ts: seq<Table>, refused: set<Table>, k: nat)
    requires PublicFree(db) && k < |ts| && TenantTable(ts[k]) && !(Own(db, name, ts[k]) && ts[k] !in refused)
    ensures LooseReports(Tx(db, false), name, ts, refused, k) ==
            [Skipped(ts[k])] + LooseReports(Tx(db, true), name, ts, refused, k + 1)
  {
    DeleteFromIff(db, name, ts[k], refused);
  }

  lemma AnonymisedCounts(db: Database, name: string)
    requires PublicFree(db) && Anonymise(db, name).Ok?
    ensures RowCount(db, name, Prospect) == |RowsIn(db, name, Prospect)|
    ensures forall t :: FullReport(Anonymise(db, name).value, name, t) == FullReport(db, name, t)
  {
    AnonymiseIff(db, name);
    assert TenantTable(Prospect);
    TargetIsOwn(db, name, Prospect);
  }

  /** What steps 1 to 4 report, for any lists of tables with no table twice. */
  ghost predicate SummaryOf(rep: seq<Report>, db: Database, name: string, strict: seq<Table>, loose: seq<Table>, refused: set<Table>) {
    && |rep| == 1 + |strict| + |loose|
    && rep[0] == Anonymised(|RowsIn(db, name, Prospect)|)
    && (forall k | 0 <= k < |strict| :: rep[1 + k] == FullReport(db, name, strict[k]))
    && (forall k | 0 <= k < |loose| ::
          rep[1 + |strict| + k] == if FineTo(db, name, loose, refused, 0, k) then FullReport(db, name, loose[k]) else Skipped(loose[k]))
  }

  lemma StrictPart(db: Database, name: string, strict: seq<Table>, refused: set<Table>)
    requires PublicFree(db) && Distinct(strict) && Anonymise(db, name).Ok?
    requires forall j | 0 <= j < |strict| :: TenantTable(strict[j])
    requires StrictDeletes(Anonymise(db, name).value, name, strict, refused, 0).Ok?
    ensures var reports := StrictReports(Anonymise(db, name).value, name, strict, refused, 0);
            |reports| == |strict| && forall k | 0 <= k < |strict| :: reports[k] == FullReport(db, name, strict[k])
  {
    var a := Anonymise(db, name).value;
    AnonymiseIff(db, name);
    AnonymisedCounts(db, name);
    StrictOwn(a, name, strict, refused);
    StrictReportsAre(a, name, strict, refused, 0);
    var reports := StrictReports(a, name, strict, refused, 0);
    forall k | 0 <= k < |strict| ensures reports[k] == FullReport(db, name, strict[k]) {
      assert reports[k - 0] == FullReport(a, name, strict[k]);
    }
  }

  lemma StrictOwn(db: Database, name: string, strict: seq<Table>, refused: set<Table>)
    requires PublicFree(db) && StrictDeletes(db, name, strict, refused, 0).Ok?
    requires forall j | 0 <= j < |strict| :: TenantTable(strict[j])
    ensures AllOwn(db, name, strict, refused, 0)
  {
    StrictDeletesIff(db, name, strict, refused, 0);
  }

  lemma LoosePart(db: Database, name: string, strict: seq<Table>, loose: seq<Table>, refused: set<Table>)
    requires PublicFree(db) && Distinct(loose) && Anonymise(db, name).Ok? && forall t | t in strict :: t !in loose
    requires forall j | 0 <= j < |strict| :: TenantTable(strict[j])
    requires forall j | 0 <= j < |loose| :: TenantTable(loose[j])
    requires StrictDeletes(Anonymise(db, name).value, name, strict, refused, 0).Ok?
    ensures var b := StrictDeletes(Anonymise(db, name).value, name, strict, refused, 0).value;
            var reports := LooseReports(Tx(b, false), name, loose, refused, 0);
            && |reports| == |loose|
            && forall k | 0 <= k < |loose| ::
                 reports[k] == if FineTo(db, name, loose, refused, 0, k) then FullReport(db, name, loose[k]) else Skipped(loose[k])
  {
    var a := Anonymise(db, name).value;
    AnonymiseIff(db, name);
    AnonymisedCounts(db, name);
    StrictDeletesIff(a, name, strict, refused, 0);
    var b := StrictDeletes(a, name, strict, refused, 0).value;
    assert strict[0..] == strict;
    LooseReportsAre(b, name, loose, refused, 0);
    SameTables(db, a, b, name, strict, loose, refused);
  }

  lemma SameTables(db: Database, a: Database, b: Database, name: string, strict: seq<Table>, loose: seq<Table>, refused: set<Table>)
    requires OnlyRows(db, a, name) && Emptied(a, b, name, strict, 0) && forall t | t in strict :: t !in loose
    requires forall t :: FullReport(a, name, t) == FullReport(db, name, t)
    ensures forall k | 0 <= k < |loose| ::
              && (FineTo(b, name, loose, refused, 0, k) <==> FineTo(db, name, loose, refused, 0, k))
              && FullReport(b, name, loose[k]) == FullReport(db, name, loose[k])
  {
    assert forall t :: Own(b, name, t) <==> Own(db, name, t);
    assert strict[0..] == strict;
    forall k | 0 <= k < |loose|
      ensures FullReport(b, name, loose[k]) == FullReport(db, name, loose[k])
    {
      assert FullReport(a, name, loose[k]) == FullReport(db, name, loose[k]);
    }
  }

  lemma SummaryIsOf(db: Database, name: string, strict: seq<Table>, loose: seq<Table>, refused: set<Table>)
    requires PublicFree(db) && Distinct(strict) && Distinct(loose) && forall t | t in strict :: t !in loose
    requires forall j | 0 <= j < |strict| :: TenantTable(strict[j])
    requires forall j | 0 <= j < |loose| :: TenantTable(loose[j])
    requires WipeOf(db, name, strict, loose, refused).Ok?
    ensures SummaryOf(WipeSummaryOf(db, name, strict, loose, refused), db, name, strict, loose, refused)
  {
    AnonymisedCounts(db, name);
    StrictPart(db, name, strict, refused);
    LoosePart(db, name, strict, loose, refused);
  }

  lemma LooseDistinct()
    ensures Distinct(LooseTables()) && forall t | t in StrictTables() :: t !in LooseTables()
  {
    forall i, j | 0 <= i < j < LOOSE ensures LooseTable(i) != LooseTable(j) {
    }
    StrictSince();
    forall k | 0 <= k < LOOSE ensures Since(LooseTable(k)) == 2 {
      LooseSince(k);
    }
  }

  lemma SummaryIs(db: Database, name: string, refused: set<Table>)
    requires PublicFree(db) && Wipe(db, name, refused).Ok?
    ensures SummaryOf(WipeSummary(db, name, refused), db, name, StrictTables(), LooseTables(), refused)
  {
    StrictAreTenantTables();
    LooseAreTenantTables();
    LooseDistinct();
    SummaryIsOf(db, name, StrictTables(), LooseTables(), refused);
  }

  /** Each reported deletion names the rows that were there, and they are gone after the commit exactly if
      there were none or every statement of the wipe has worked -- which is so exactly if the summary shows
      nothing skipped. */
  lemma SummaryTruthfulIff(db: Database, name: string, refused: set<Table>)
    requires Consistent(StructureAt, db) && Wipe(db, name, refused).Ok?
    ensures var rep := WipeSummary(db, name, refused);
            var end := Commit(db, Wipe(db, name, refused).value);
            && (WipeRuns(db, name, refused) <==> forall i | 0 <= i < |rep| :: !rep[i].Skipped?)
            && (forall i | 0 <= i < |rep| && rep[i].Deleted? ::
                  rep[i].rows == |RowsIn(db, name, rep[i].t)|
                  && (RowsIn(end, name, rep[i].t) == [] <==> rep[i].rows == 0 || WipeRuns(db, name, refused)))
  {
    ConsistentIsFree(db);
    WipeIff(db, name, refused);
    SummaryIs(db, name, refused);
    TruthOf(WipeSummary(db, name, refused), db, Commit(db, Wipe(db, name, refused).value), name,
            StrictTables(), LooseTables(), refused, WipeRuns(db, name, refused));
  }

  lemma TruthOf(rep: seq<Report>, db: Database, end: Database, name: string, strict: seq<Table>, loose: seq<Table>,
                refused: set<Table>, runs: bool)
    requires SummaryOf(rep, db, name, strict, loose, refused) && |loose| > 0
    requires runs <==> AllOwn(db, name, loose, refused, 0)
    requires if runs then WipedOf(db, end, name, strict, loose) else end == db
    ensures runs <==> forall i | 0 <= i < |rep| :: !rep[i].Skipped?
    ensures forall i | 0 <= i < |rep| && rep[i].Deleted? ::
              rep[i].rows == |RowsIn(db, name, rep[i].t)|
              && (RowsIn(end, name, rep[i].t) == [] <==> rep[i].rows == 0 || runs)
  {
    var last := |loose| - 1;
    assert FineTo(db, name, loose, refused, 0, last) <==> runs;
    assert rep[1 + |strict| + last].Skipped? <==> !runs;
    forall i | 0 <= i < |rep|
      ensures rep[i].Skipped? ==> !runs
      ensures rep[i].Deleted? ==> rep[i] == FullReport(db, name, rep[i].t) && (rep[i].t in strict || rep[i].t in loose)
    {
      if 1 <= i <= |strict| {
        assert rep[1 + (i - 1)] == FullReport(db, name, strict[i - 1]);
      } else if i > |strict| {
        var k := i - 1 - |strict|;
        assert rep[1 + |strict| + k] == if FineTo(db, name, loose, refused, 0, k) then FullReport(db, name, loose[k]) else Skipped(loose[k]);
      }
    }
  }

  /** From revision 10 on: the four strict DELETEs and the first eighteen of step 4, up to one that is
      refused, are reported with all their rows, the rest is skipped from CampaignMetric on, and nothing at
      all has been deleted. */
  lemma SummaryOverstates(db: Database, name: string, refused: set<Table>)
    requires Consistent(StructureAt, db) && name != PUBLIC && Rev(db, name) >= 10 && Wipe(db, name, refused).Ok?
    ensures Commit(db, Wipe(db, name, refused).value) == db
    ensures Overstated(WipeSummary(db, name, refused), db, name, StrictTables(), LooseTables(), refused)
  {
    ConsistentIsFree(db);
    WipePersistsIff(db, name, refused);
    SummaryIs(db, name, refused);
    AllButMetric(db, name);
    OverstatedBy(WipeSummary(db, name, refused), db, name, StrictTables(), LooseTables(), refused);
  }

  lemma AllButMetric(db: Database, name: string)
    requires Consistent(StructureAt, db) && name != PUBLIC && Rev(db, name) >= 10
    ensures forall k | 0 <= k < LOOSE :: Own(db, name, LooseTables()[k]) <==> k != 18
  {
    OwnIff(db, name);
    LooseThere(Rev(db, name));
  }

  /** All of the first list and the first eighteen of the second, up to a refused one. */
  ghost predicate Overstated(rep: seq<Report>, db: Database, name: string, strict: seq<Table>, loose: seq<Table>, refused: set<Table>) {
    && |rep| == 1 + |strict| + |loose|
    && (forall k | 0 <= k < |strict| :: rep[1 + k] == FullReport(db, name, strict[k]))
    && (forall k | 0 <= k < |loose| ::
          rep[1 + |strict| + k] == if k < 18 && NotRefused(loose[..k + 1], refused) then FullReport(db, name, loose[k]) else Skipped(loose[k]))
  }

  lemma OverstatedBy(rep: seq<Report>, db: Database, name: string, strict: seq<Table>, loose: seq<Table>, refused: set<Table>)
    requires SummaryOf(rep, db, name, strict, loose, refused) && |loose| > 18
    requires forall k | 0 <= k < |loose| :: Own(db, name, loose[k]) <==> k != 18
    ensures Overstated(rep, db, name, strict, loose, refused)
  {
    forall k | 0 <= k < |loose|
      ensures FineTo(db, name, loose, refused, 0, k) <==> k < 18 && NotRefused(loose[..k + 1], refused)
    {
      assert forall i | 0 <= i <= k :: loose[..k + 1][i] == loose[i];
      assert k >= 18 ==> !Own(db, name, loose[18]);
    }
  }

  /** So for 0014's tenant right after the first run: the templates of 0012 are reported as deleted and are
      all still there. */
  lemma OverstatedAfterFirstRun()
    ensures var db := ModeB(Up, EmptyDatabase(), [ACME.schema]).db;
            RowsIn(db, ACME.schema, ProspectingFlow) != [] && StillThere(db, ACME.schema, 8, ProspectingFlow)
  {
    RealChain();
    FirstRun(Up, StructureAt);
    FlowsAfterFirstRun(Up, StructureAt);
    FlowsInList();
    ReportedStillThere(ModeB(Up, EmptyDatabase(), [ACME.schema]).db, ACME.schema, 8);
  }

  /** With nothing refused, the DELETE at place `j` of step 4 is reported with all rows of `t`, and after the
      commit the rows are there. */
  predicate StillThere(db: Database, name: string, j: nat, t: Table) {
    && Wipe(db, name, {}).Ok? && 5 + j < |WipeSummary(db, name, {})|
    && WipeSummary(db, name, {})[5 + j] == Deleted(t, |RowsIn(db, name, t)|)
    && RowsIn(Commit(db, Wipe(db, name, {}).value), name, t) == RowsIn(db, name, t)
  }

  lemma ReportedStillThere(db: Database, name: string, j: nat)
    requires Consistent(StructureAt, db) && name != PUBLIC && Rev(db, name) >= 10 && j < 18
    ensures StillThere(db, name, j, LooseTables()[j])
  {
    WipePersistsIff(db, name, {});
    SummaryOverstates(db, name, {});
    FlowsInList();
    PlaceOf(WipeSummary(db, name, {}), db, name, StrictTables(), LooseTables(), j);
  }

  lemma PlaceOf(rep: seq<Report>, db: Database, name: string, strict: seq<Table>, loose: seq<Table>, j: nat)
    requires Overstated(rep, db, name, strict, loose, {}) && |strict| == 4 && j < 18 < |loose|
    ensures 5 + j < |rep| && rep[5 + j] == FullReport(db, name, loose[j])
  {
    assert rep[1 + |strict| + j] == FullReport(db, name, loose[j]);
  }

  lemma FlowsInList()
    ensures |StrictTables()| == 4 && LooseTables()[8] == ProspectingFlow
  {
    assert LooseTable(8) == ProspectingFlow;
  }

  lemma FlowsAfterFirstRun(ups: Scripts, at: Structures)
    requires Chained(ups, at)
    ensures RowsIn(ModeB(ups, EmptyDatabase(), [ACME.schema]).db, ACME.schema, ProspectingFlow) != []
  {
    FirstRun(ups, at);
    var end := ModeB(ups, EmptyDatabase(), [ACME.schema]).db;
    assert FlowsFinished(EmptyDatabase(), end, [ACME.schema], ACME.schema);
    AcmeSeeded(end);
    SeedingIsExact([]);
    assert Templates()[0] in Templates();
  }

  lemma AcmeSeeded(end: Database)
    requires ACME.schema in end.schemas && FlowsFinished(EmptyDatabase(), end, [ACME.schema], ACME.schema)
    ensures RowsIn(end, ACME.schema, ProspectingFlow) == Seeded([])
  {
    var db, order := EmptyDatabase(), [ACME.schema];
    assert RegistryAfter(db) == [ACME];
    assert Rev(db, order[0]) < 12;
    assert Home([ACME][0]) == ACME.schema;
  }
}
