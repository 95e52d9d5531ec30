/** Erasing one tenant: three transactions and a schema drop, with a crash possible between any two
    of them and inside each. */
module Erasure {
  import opened Wrappers
  import opened SchemaNames
  import opened Ddl
  import opened TenantNaming
  import opened FlowTemplates
  import opened Databases
  import opened SchemaChain
  import opened ChainStates
  import opened ChainTables
  import opened MigrationRunner
  import opened ModeBRuns
  import opened Lifecycle

  /** Steps 2 and 3: a failure here ends the script. */
  function StrictTables(): seq<Table> {
    [consent_logs, consents, support_messages, support_tickets]
  }

  /** Step 4: a failure here is caught and the loop goes on. Place `k` of its list. */
  function LooseTable(k: nat): Table {
    match k
    case 0 => FlowWebhookDelivery
    case 1 => FlowWebhook
    case 2 => FlowAbTest
    case 3 => FlowRunStep
    case 4 => FlowRun
    case 5 => AutopilotQueue
    case 6 => RateLimitLog
    case 7 => RateLimit
    case 8 => ProspectingFlow
    case 9 => AbTestAssignment
    case 10 => EmailAbTest
    case 11 => AbTest
    case 12 => ReplyDraft
    case 13 => SubjectLine
    case 14 => Sequence
    case 15 => CampaignCollateralLink
    case 16 => CampaignProspect
    case 17 => CampaignResult
    case 18 => CampaignMetric
    case 19 => Campaign
    case 20 => Deal
    case 21 => MeetingPrep
    case 22 => Meeting
    case 23 => CallLog
    case 24 => JobChangeAlert
    case 25 => Competitor
    case 26 => Collateral
    case 27 => LinkedInInboxMessage
    case 28 => LinkedInEngagement
    case 29 => LinkedInConfig
    case 30 => OptimizationAction
    case 31 => OptimizationRule
    case 32 => ContentIdea
    case 33 => WeeklyDigest
    case 34 => EmailTemplate
    case 35 => ProspectSource
    case 36 => SourceConfig
    case 37 => SignalMonitor
    case 38 => Signal
    case 39 => DomainEnrichment
    case 40 => SchedulerStatus
    case 41 => MailBridgeConfig
    case 42 => Domain
    case 43 => PromptTemplate
    case 44 => SystemParameter
    case 45 => ProspectingIntegration
    case 46 => ExclusionRule
    case 47 => LlmConfig
    case 48 => IcpProfile
    case _ => Prospect
  }

  const LOOSE: nat := 50

  function LooseTables(): (ts: seq<Table>)
    ensures |ts| == LOOSE && forall k | 0 <= k < LOOSE :: ts[k] == LooseTable(k)
  {
    seq(LOOSE, k requires 0 <= k < LOOSE => LooseTable(k))
  }

  datatype Report =
    | Anonymised(rows: nat)
    | Deleted(t: Table, rows: nat)
    | Skipped(t: Table)
    | Dropped(schema: string)
    | SoftDeleted
    | Logged

  // ---- Statements ----------------------------------------------------------

  /** Where an unqualified table name leads along the path `name`, public. */
  function Target(db: Database, name: string, t: Table): Option<string> {
    if name in db.schemas && Tab(t) in db.schemas[name].objs then Some(name)
    else if PUBLIC in db.schemas && Tab(t) in db.schemas[PUBLIC].objs then Some(PUBLIC)
    else None
  }

  function SetRows(db: Database, name: string, t: Table, rows: Rows): Database
    requires name in db.schemas
  {
    var st := db.schemas[name];
    db.(schemas := db.schemas[name := st.(data := st.data[t := rows])])
  }

  /** `refused` holds the tables whose DELETE fails although they exist, say because rows elsewhere
      still reference theirs. */
  function DeleteFrom(db: Database, name: string, t: Table, refused: set<Table>): Result<Database, SqlError> {
    match Target(db, name, t)
    case None => Err(Undefined)
    case Some(x) => if t in refused then Err(StillReferenced) else Ok(SetRows(db, x, t, []))
  }

  function Blanked(rows: Rows): (r: Rows)
    ensures |r| == |rows|
  {
    seq(|rows|, k requires 0 <= k < |rows| => FlowRow(rows[k].id, "[anonymized]"))
  }

  /** Step 1 writes the columns 0007 adds. */
  function Anonymise(db: Database, name: string): Result<Database, SqlError> {
    match Target(db, name, Prospect)
    case None => Err(Undefined)
    case Some(x) =>
      if ErasureColumns() <= db.schemas[x].objs.Keys
      then Ok(SetRows(db, x, Prospect, Blanked(RowsOf(db.schemas[x], Prospect))))
      else Err(Undefined)
  }

  function StrictDeletes(db: Database, name: string, ts: seq<Table>, refused: set<Table>, k: nat): Result<Database, SqlError>
    requires k <= |ts|
    decreases |ts| - k
  {
    if k == |ts| then Ok(db)
    else
      var next :- DeleteFrom(db, name, ts[k], refused);
      StrictDeletes(next, name, ts, refused, k + 1)
  }

  /** A transaction: its own view of the database, and whether a statement of it has failed; then
      every further statement fails and the commit rolls back. */
  datatype Tx = Tx(db: Database, aborted: bool)

  function LooseDelete(tx: Tx, name: string, t: Table, refused: set<Table>): Tx {
    if tx.aborted then tx
    else
      var r := DeleteFrom(tx.db, name, t, refused);
      if r.Ok? then Tx(r.value, false) else Tx(tx.db, true)
  }

  function LooseDeletes(tx: Tx, name: string, ts: seq<Table>, refused: set<Table>, k: nat): Tx
    requires k <= |ts|
    decreases |ts| - k
  {
    if k == |ts| then tx
    else LooseDeletes(LooseDelete(tx, name, ts[k], refused), name, ts, refused, k + 1)
  }

  /** Steps 1 to 4 up to the commit. */
  function Wipe(db: Database, name: string, refused: set<Table>): Result<Tx, SqlError> {
    WipeOf(db, name, StrictTables(), LooseTables(), refused)
  }

  function WipeOf(db: Database, name: string, strict: seq<Table>, loose: seq<Table>, refused: set<Table>): Result<Tx, SqlError> {
    var a :- Anonymise(db, name);
    var b :- StrictDeletes(a, name, strict, refused, 0);
    Ok(LooseDeletes(Tx(b, false), name, loose, refused, 0))
  }

  function Commit(db: Database, tx: Tx): Database {
    if tx.aborted then db else tx.db
  }

  // ---- What the script reports ---------------------------------------------

  function RowCount(db: Database, name: string, t: Table): nat {
    match Target(db, name, t)
    case None => 0
    case Some(x) => |RowsOf(db.schemas[x], t)|
  }

  function StrictReports(db: Database, name: string, ts: seq<Table>, refused: set<Table>, k: nat): seq<Report>
    requires k <= |ts|
    decreases |ts| - k
  {
    if k == |ts| then []
    else
      var r := DeleteFrom(db, name, ts[k], refused);
      if r.Err? then []
      else [Deleted(ts[k], RowCount(db, name, ts[k]))] + StrictReports(r.value, name, ts, refused, k + 1)
  }

  function LooseReport(tx: Tx, name: string, t: Table, refused: set<Table>): Report {
    if !tx.aborted && DeleteFrom(tx.db, name, t, refused).Ok? then Deleted(t, RowCount(tx.db, name, t)) else Skipped(t)
  }

  function LooseReports(tx: Tx, name: string, ts: seq<Table>, refused: set<Table>, k: nat): seq<Report>
    requires k <= |ts|
    decreases |ts| - k
  {
    if k == |ts| then []
    else
      [LooseReport(tx, name, ts[k], refused)] +
      LooseReports(LooseDelete(tx, name, ts[k], refused), name, ts, refused, k + 1)
  }

  /** The summary of steps 1 to 4 of a wipe that reaches its commit. */
  function WipeSummary(db: Database, name: string, refused: set<Table>): seq<Report> {
    WipeSummaryOf(db, name, StrictTables(), LooseTables(), refused)
  }

  function WipeSummaryOf(db: Database, name: string, strict: seq<Table>, loose: seq<Table>, refused: set<Table>): seq<Report> {
    var a := Anonymise(db, name);
    if a.Err? then []
    else
      var b := StrictDeletes(a.value, name, strict, refused, 0);
      [Report.Anonymised(RowCount(db, name, Prospect))] +
      StrictReports(a.value, name, strict, refused, 0) +
      (if b.Err? then [] else LooseReports(Tx(b.value, false), name, loose, refused, 0))
  }

  // ---- The script ----------------------------------------------------------

  /** Step 7's insert names the columns 0003 adds to the audit log. */
  predicate CanLog(db: Database) {
    PUBLIC in db.schemas && AuditColumns() <= db.schemas[PUBLIC].objs.Keys
  }

  datatype Ending = NotFound | WipeFailed | LogFailed | Stopped | Complete

  datatype Outcome = Outcome(db: Database, ending: Ending)

  const ERASE := "TENANT_ERASE"

  function Marked(db: Database, slug: string): Database {
    db.(tenants := WithDeleted(db.tenants, slug), audit := db.audit + [AuditRow(slug, ERASE)])
  }

  /** The script, cut off once `commits` of its three commits are done. */
  function Erase(db: Database, slug: string, refused: set<Table>, commits: nat): Outcome {
    var name := HomeFor(slug);
    if !LiveSlug(db.tenants, slug) then Outcome(db, NotFound)
    else if commits == 0 then Outcome(db, Stopped)
    else
      var tx := Wipe(db, name, refused);
      if tx.Err? then Outcome(db, WipeFailed)
      else
        var wiped := Commit(db, tx.value);
        if commits == 1 then Outcome(wiped, Stopped)
        else
          var dropped := Dropping(wiped, name);
          if commits == 2 then Outcome(dropped, Stopped)
          else if !CanLog(dropped) then Outcome(dropped, LogFailed)
          else Outcome(Marked(dropped, slug), Complete)
  }

  // ---- What the wipe can touch ---------------------------------------------

  /** Only rows of schema `name` differ. */
  predicate OnlyRows(db: Database, end: Database, name: string) {
    && end.tenants == db.tenants && end.audit == db.audit && end.schemas.Keys == db.schemas.Keys
    && (forall x | x in db.schemas ::
         end.schemas[x].objs == db.schemas[x].objs && end.schemas[x].rev == db.schemas[x].rev
         && (x != name ==> end.schemas[x] == db.schemas[x]))
  }

  predicate TenantTable(t: Table) {
    TablePlace(t) == 20 || TablePlace(t) == 39 || TablePlace(t) == 79
  }

  lemma StrictAreTenantTables()
    ensures forall k | 0 <= k < |StrictTables()| :: TenantTable(StrictTables()[k])
  {
  }

  lemma LooseAreTenantTables()
    ensures forall k | 0 <= k < LOOSE :: TenantTable(LooseTables()[k])
  {
    forall k | 0 <= k < LOOSE ensures TenantTable(LooseTable(k)) {
    }
  }

  /** The public schema has none of the tables the script names. */
  ghost predicate PublicFree(db: Database) {
    PUBLIC in db.schemas ==> forall t | TenantTable(t) :: Tab(t) !in db.schemas[PUBLIC].objs
  }

  lemma ConsistentIsFree(db: Database)
    requires Consistent(StructureAt, db)
    ensures PublicFree(db)
  {
    if PUBLIC in db.schemas {
      forall t | TenantTable(t) ensures Tab(t) !in db.schemas[PUBLIC].objs {
        PublicLacks(Rev(db, PUBLIC), t);
      }
    }
  }

  /** The statement on `t` reaches the tenant's own table or nothing. */
  predicate Own(db: Database, name: string, t: Table) {
    name in db.schemas && Tab(t) in db.schemas[name].objs
  }

  lemma TargetIsOwn(db: Database, name: string, t: Table)
    requires PublicFree(db) && TenantTable(t)
    ensures Target(db, name, t) == if Own(db, name, t) then Some(name) else None
  {
  }

  /** `end` is `db` with the tables `ts[k..]` of `name` emptied. */
  ghost predicate Emptied(db: Database, end: Database, name: string, ts: seq<Table>, k: nat) {
    && OnlyRows(db, end, name)
    && forall t :: RowsIn(end, name, t) == if t in ts[if k <= |ts| then k else |ts|..] then [] else RowsIn(db, name, t)
  }

  lemma DeleteFromIff(db: Database, name: string, t: Table, refused: set<Table>)
    requires PublicFree(db) && TenantTable(t)
    ensures DeleteFrom(db, name, t, refused).Ok? <==> Own(db, name, t) && t !in refused
    ensures DeleteFrom(db, name, t, refused).Ok? ==>
              DeleteFrom(db, name, t, refused).value == SetRows(db, name, t, [])
              && OnlyRows(db, SetRows(db, name, t, []), name) && PublicFree(SetRows(db, name, t, []))
  {
    TargetIsOwn(db, name, t);
  }

  predicate AllOwn(db: Database, name: string, ts: seq<Table>, refused: set<Table>, k: nat) {
    forall j | k <= j < |ts| :: Own(db, name, ts[j]) && ts[j] !in refused
  }

  lemma EmptiedMore(db: Database, end: Database, name: string, ts: seq<Table>, k: nat)
    requires k < |ts| && name in db.schemas && Emptied(SetRows(db, name, ts[k], []), end, name, ts, k + 1)
    ensures Emptied(db, end, name, ts, k)
  {
    assert ts[k..] == [ts[k]] + ts[k + 1..];
  }

  lemma {:induction false} StrictDeletesIff(db: Database, name: string, ts: seq<Table>, refused: set<Table>, k: nat)
    requires PublicFree(db) && k <= |ts| && forall j | 0 <= j < |ts| :: TenantTable(ts[j])
    ensures StrictDeletes(db, name, ts, refused, k).Ok? <==> AllOwn(db, name, ts, refused, k)
    ensures StrictDeletes(db, name, ts, refused, k).Ok? ==>
              var end := StrictDeletes(db, name, ts, refused, k).value; PublicFree(end) && Emptied(db, end, name, ts, k)
    decreases |ts| - k
  {
    if k < |ts| {
      DeleteFromIff(db, name, ts[k], refused);
      if Own(db, name, ts[k]) && ts[k] !in refused {
        var next := SetRows(db, name, ts[k], []);
        StrictDeletesIff(next, name, ts, refused, k + 1);
        assert forall t :: Own(next, name, t) <==> Own(db, name, t);
        if StrictDeletes(next, name, ts, refused, k + 1).Ok? {
          EmptiedMore(db, StrictDeletes(next, name, ts, refused, k + 1).value, name, ts, k);
        }
      }
    }
  }

  lemma {:induction false} AbortedStays(tx: Tx, name: string, ts: seq<Table>, refused: set<Table>, k: nat)
    requires tx.aborted && k <= |ts|
    ensures LooseDeletes(tx, name, ts, refused, k) == tx
    decreases |ts| - k
  {
    if k < |ts| { AbortedStays(tx, name, ts, refused, k + 1); }
  }

  /** One failed DELETE of step 4 aborts the transaction, however many succeed. */
  lemma {:induction false} LooseDeletesIff(db: Database, name: string, ts: seq<Table>, refused: set<Table>, k: nat)
    requires PublicFree(db) && k <= |ts| && forall j | 0 <= j < |ts| :: TenantTable(ts[j])
    ensures !LooseDeletes(Tx(db, false), name, ts, refused, k).aborted <==> AllOwn(db, name, ts, refused, k)
    ensures !LooseDeletes(Tx(db, false), name, ts, refused, k).aborted ==>
              Emptied(db, LooseDeletes(Tx(db, false), name, ts, refused, k).db, name, ts, k)
    decreases |ts| - k
  {
    if k < |ts| {
      DeleteFromIff(db, name, ts[k], refused);
      if Own(db, name, ts[k]) && ts[k] !in refused {
        var next := SetRows(db, name, ts[k], []);
        LooseDeletesIff(next, name, ts, refused, k + 1);
        assert forall t :: Own(next, name, t) <==> Own(db, name, t);
        if !LooseDeletes(Tx(next, false), name, ts, refused, k + 1).aborted {
          EmptiedMore(db, LooseDeletes(Tx(next, false), name, ts, refused, k + 1).db, name, ts, k);
        }
      } else {
        AbortedStays(Tx(db, true), name, ts, refused, k + 1);
      }
    }
  }

  predicate CanAnonymise(db: Database, name: string) {
    && Own(db, name, Prospect)
    && ErasureColumns() <= db.schemas[name].objs.Keys
  }

  /** Every statement of steps 1 to 4 succeeds. */
  predicate WipeRuns(db: Database, name: string, refused: set<Table>) {
    && CanAnonymise(db, name)
    && AllOwn(db, name, StrictTables(), refused, 0) && AllOwn(db, name, LooseTables(), refused, 0)
  }

  /** All of the tenant's listed tables are empty, and nothing else differs. */
  ghost predicate Wiped(db: Database, end: Database, name: string) {
    WipedOf(db, end, name, StrictTables(), LooseTables())
  }

  lemma AnonymiseIff(db: Database, name: string)
    requires PublicFree(db)
    ensures Anonymise(db, name).Ok? <==> CanAnonymise(db, name)
    ensures Anonymise(db, name).Ok? ==>
              var end := Anonymise(db, name).value;
              && OnlyRows(db, end, name) && PublicFree(end)
              && forall t | t != Prospect :: RowsIn(end, name, t) == RowsIn(db, name, t)
  {
    assert TenantTable(Prospect);
    TargetIsOwn(db, name, Prospect);
  }

  ghost predicate WipedOf(db: Database, end: Database, name: string, strict: seq<Table>, loose: seq<Table>) {
    && OnlyRows(db, end, name)
    && forall t :: RowsIn(end, name, t) == if t in strict || t in loose then [] else RowsIn(db, name, t)
  }

  lemma WipedBy(db: Database, a: Database, b: Database, end: Database, name: string, strict: seq<Table>, loose: seq<Table>)
    requires OnlyRows(db, a, name) && forall t | t != Prospect :: RowsIn(a, name, t) == RowsIn(db, name, t)
    requires Emptied(a, b, name, strict, 0) && Emptied(b, end, name, loose, 0) && Prospect in loose
    ensures WipedOf(db, end, name, strict, loose)
  {
    assert strict[0..] == strict && loose[0..] == loose;
  }

  lemma WipeOfIff(db: Database, name: string, strict: seq<Table>, loose: seq<Table>, refused: set<Table>)
    requires PublicFree(db) && Prospect in loose
    requires forall j | 0 <= j < |strict| :: TenantTable(strict[j])
    requires forall j | 0 <= j < |loose| :: TenantTable(loose[j])
    ensures var r := WipeOf(db, name, strict, loose, refused);
            var runs := CanAnonymise(db, name) && AllOwn(db, name, strict, refused, 0) && AllOwn(db, name, loose, refused, 0);
            && (r.Ok? <==> CanAnonymise(db, name) && AllOwn(db, name, strict, refused, 0))
            && (r.Ok? && !r.value.aborted <==> runs)
            && (runs ==> WipedOf(db, r.value.db, name, strict, loose))
  {
    AnonymiseIff(db, name);
    if Anonymise(db, name).Ok? {
      var a := Anonymise(db, name).value;
      StrictDeletesIff(a, name, strict, refused, 0);
      assert forall t :: Own(a, name, t) <==> Own(db, name, t);
      if StrictDeletes(a, name, strict, refused, 0).Ok? {
        var b := StrictDeletes(a, name, strict, refused, 0).value;
        LooseDeletesIff(b, name, loose, refused, 0);
        assert forall t :: Own(b, name, t) <==> Own(db, name, t);
        var tx := LooseDeletes(Tx(b, false), name, loose, refused, 0);
        if !tx.aborted {
          WipedBy(db, a, b, tx.db, name, strict, loose);
        }
      }
    }
  }

  /** The wipe reaches its commit with something to commit exactly when every statement succeeds;
      then it empties every listed table. */
  lemma WipeIff(db: Database, name: string, refused: set<Table>)
    requires PublicFree(db)
    ensures Wipe(db, name, refused).Ok? <==> CanAnonymise(db, name) && AllOwn(db, name, StrictTables(), refused, 0)
    ensures Wipe(db, name, refused).Ok? && !Wipe(db, name, refused).value.aborted <==> WipeRuns(db, name, refused)
    ensures Wipe(db, name, refused).Ok? ==>
              var end := Commit(db, Wipe(db, name, refused).value);
              if WipeRuns(db, name, refused) then Wiped(db, end, name) else end == db
  {
    StrictAreTenantTables();
    LooseAreTenantTables();
    assert LooseTables()[49] == LooseTable(49);
    WipeOfIff(db, name, StrictTables(), LooseTables(), refused);
  }

  predicate NotRefused(ts: seq<Table>, refused: set<Table>) {
    forall k | 0 <= k < |ts| :: ts[k] !in refused
  }

  /** At each revision the schema has exactly the tables and columns of that revision. */
  lemma OwnIff(db: Database, name: string)
    requires Consistent(StructureAt, db) && name != PUBLIC
    ensures forall t :: Own(db, name, t) <==> TenantHas(Rev(db, name), t)
    ensures CanAnonymise(db, name) <==> Rev(db, name) >= 7
  {
    if name in db.schemas {
      TablesAt(db.schemas[name].rev);
      ColumnsAt(db.schemas[name].rev);
    }
  }

  /** Which tables a list needs, and none refused. */
  lemma AllOwnIff(db: Database, name: string, ts: seq<Table>, refused: set<Table>, r: nat)
    requires forall t :: Own(db, name, t) <==> TenantHas(r, t)
    ensures AllOwn(db, name, ts, refused, 0) <==> (forall k | 0 <= k < |ts| :: TenantHas(r, ts[k])) && NotRefused(ts, refused)
  {
  }

  lemma LooseSince(k: nat)
    requires k < LOOSE
    ensures Since(LooseTable(k)) == 2 && (LooseTable(k) == CampaignMetric <==> k == 18)
  {
  }

  lemma LooseThere(r: nat)
    ensures (forall k | 0 <= k < LOOSE :: TenantHas(r, LooseTables()[k])) <==> 2 <= r < 10
    ensures forall k | 0 <= k < LOOSE :: TenantHas(r, LooseTables()[k]) <==> r >= 2 && (k == 18 ==> r < 10)
  {
    var ts := LooseTables();
    forall k | 0 <= k < LOOSE ensures Since(ts[k]) == 2 && (ts[k] == CampaignMetric <==> k == 18) {
      LooseSince(k);
    }
    assert TenantHas(r, ts[18]) <==> 2 <= r < 10;
  }

  lemma StrictSince()
    ensures Since(consent_logs) == 7 && Since(consents) == 7 && Since(support_messages) == 3 && Since(support_tickets) == 3
  {
  }

  lemma StrictThere(r: nat)
    ensures (forall k | 0 <= k < |StrictTables()| :: TenantHas(r, StrictTables()[k])) <==> r >= 7
  {
    StrictSince();
    var ts := StrictTables();
    assert ts[0] == consent_logs;
    assert TenantHas(r, ts[0]) <==> r >= 7;
  }

  /** The wipe persists at revisions 7 to 9 with nothing refused, and never else: before 0007 a table it
      names is not there yet; from 0010 on CampaignMetric is gone, and its failed DELETE rolls back all of
      it. */
  lemma WipePersistsIff(db: Database, name: string, refused: set<Table>)
    requires Consistent(StructureAt, db) && name != PUBLIC
    ensures WipeRuns(db, name, refused) <==>
            7 <= Rev(db, name) < 10 && NotRefused(StrictTables(), refused) && NotRefused(LooseTables(), refused)
    ensures Wipe(db, name, refused).Ok? <==> Rev(db, name) >= 7 && NotRefused(StrictTables(), refused)
    ensures Wipe(db, name, refused).Ok? ==>
              var end := Commit(db, Wipe(db, name, refused).value);
              if WipeRuns(db, name, refused) then Wiped(db, end, name) else end == db
  {
    ConsistentIsFree(db);
    WipeIff(db, name, refused);
    OwnIff(db, name);
    var r := Rev(db, name);
    AllOwnIff(db, name, StrictTables(), refused, r);
    AllOwnIff(db, name, LooseTables(), refused, r);
    StrictThere(r);
    LooseThere(r);
  }

  // ---- Crash points --------------------------------------------------------

  predicate NewlyDeleted(db: Database, end: Database, slug: string) {
    LiveSlug(db.tenants, slug) && !LiveSlug(end.tenants, slug)
  }

  /** Every other schema, and every other tenant's row, is as it was. */
  ghost predicate OthersSame(db: Database, end: Database, slug: string) {
    && (forall x | x != HomeFor(slug) :: (x in end.schemas <==> x in db.schemas))
    && (forall x | x != HomeFor(slug) && x in db.schemas :: end.schemas[x] == db.schemas[x])
    && |end.tenants| == |db.tenants|
    && (forall k | 0 <= k < |db.tenants| && db.tenants[k].slug != slug :: end.tenants[k] == db.tenants[k])
  }

  /** After every number of commits, for every set of refused deletes:
      - the tenant is newly marked deleted only if its schema is gone, and exactly then one
        TENANT_ERASE row has been added;
      - no other schema and no other tenant's row differs;
      - while the schema is there its structure is as before and its rows are all as before or all
        wiped;
      - a script that ends in steps 0 to 3 has changed nothing. */
  lemma CrashPoints(db: Database, slug: string, refused: set<Table>, commits: nat)
    requires Sound(StructureAt, db)
    ensures var name := HomeFor(slug);
            var out := Erase(db, slug, refused, commits);
            && OthersSame(db, out.db, slug)
            && (NewlyDeleted(db, out.db, slug) ==> name !in out.db.schemas)
            && out.db.audit == (if NewlyDeleted(db, out.db, slug) then db.audit + [AuditRow(slug, ERASE)] else db.audit)
            && (name in out.db.schemas ==> out.db == db || Wiped(db, out.db, name))
            && (out.ending == NotFound || out.ending == WipeFailed ==> out.db == db)
            && (out.ending == Complete ==> NewlyDeleted(db, out.db, slug))
  {
    var name := HomeFor(slug);
    WipeCommits(db, slug, refused);
    EraseCases(db, slug, refused, commits);
    if LiveSlug(db.tenants, slug) && Wipe(db, name, refused).Ok? {
      var wiped := Commit(db, Wipe(db, name, refused).value);
      DropFacts(db, wiped, slug);
      MarkFacts(db, Dropping(wiped, name), slug);
    }
  }

  function Dropping(db: Database, name: string): Database {
    db.(schemas := db.schemas - {name})
  }

  /** The four states a run can leave. */
  lemma EraseCases(db: Database, slug: string, refused: set<Table>, commits: nat)
    ensures var name := HomeFor(slug);
            var out := Erase(db, slug, refused, commits);
            var tx := Wipe(db, name, refused);
            || (out.db == db && out.ending in {NotFound, WipeFailed, Stopped})
            || (LiveSlug(db.tenants, slug) && tx.Ok? &&
                var wiped := Commit(db, tx.value);
                || (out.db == wiped && out.ending == Stopped)
                || (out.db == Dropping(wiped, name) && out.ending in {Stopped, LogFailed})
                || (out.db == Marked(Dropping(wiped, name), slug) && out.ending == Complete))
  {
  }

  lemma WipeCommits(db: Database, slug: string, refused: set<Table>)
    requires Sound(StructureAt, db)
    ensures var name := HomeFor(slug);
            var tx := Wipe(db, name, refused);
            tx.Ok? ==>
              && OnlyRows(db, Commit(db, tx.value), name) && Sound(StructureAt, Commit(db, tx.value))
              && (Commit(db, tx.value) == db || Wiped(db, Commit(db, tx.value), name))
  {
    var name := HomeFor(slug);
    ConsistentIsFree(db);
    WipeIff(db, name, refused);
    if Wipe(db, name, refused).Ok? {
      OnlyRowsSound(db, Commit(db, Wipe(db, name, refused).value), name);
    }
  }

  lemma OnlyRowsSound(db: Database, end: Database, name: string)
    requires Sound(StructureAt, db) && (end == db || OnlyRows(db, end, name))
    ensures Sound(StructureAt, end)
  {
    SoundBy(StructureAt, db, end, name);
  }

  lemma SoundBy(at: Structures, db: Database, end: Database, name: string)
    requires Sound(at, db) && (end == db || OnlyRows(db, end, name))
    ensures Sound(at, end)
  {
  }

  lemma DropFacts(db: Database, wiped: Database, slug: string)
    requires OnlyRows(db, wiped, HomeFor(slug))
    ensures OthersSame(db, wiped, slug) && OthersSame(db, Dropping(wiped, HomeFor(slug)), slug)
  {
  }

  lemma MarkFacts(db: Database, dropped: Database, slug: string)
    requires OthersSame(db, dropped, slug) && dropped.tenants == db.tenants
    ensures OthersSame(db, Marked(dropped, slug), slug) && !LiveSlug(Marked(dropped, slug).tenants, slug)
  {
  }

  /** From revision 10 on -- so always at head -- there are only three states a crash can leave: the
      one before, the one with the schema dropped, and the final one. */
  lemma CrashPointsAtHead(db: Database, slug: string, refused: set<Table>, commits: nat)
    requires Sound(StructureAt, db) && Rev(db, HomeFor(slug)) >= 10
    ensures var dropped := Dropping(db, HomeFor(slug));
            Erase(db, slug, refused, commits).db in {db, dropped, Marked(dropped, slug)}
  {
    KeptNotPublic(slug);
    NothingWiped(db, slug, refused);
    EraseCases(db, slug, refused, commits);
  }

  lemma NothingWiped(db: Database, slug: string, refused: set<Table>)
    requires Sound(StructureAt, db) && Rev(db, HomeFor(slug)) >= 10
    ensures var tx := Wipe(db, HomeFor(slug), refused); tx.Ok? ==> Commit(db, tx.value) == db
  {
    KeptNotPublic(slug);
    WipePersistsIff(db, HomeFor(slug), refused);
  }

  /** The run has got past its schema drop. */
  predicate DropDone(out: Outcome, commits: nat) {
    commits >= 2 && out.ending != NotFound && out.ending != WipeFailed
  }

  lemma DropDoneMeans(db: Database, slug: string, refused: set<Table>, commits: nat)
    requires Sound(StructureAt, db) && DropDone(Erase(db, slug, refused, commits), commits)
    ensures var mid := Erase(db, slug, refused, commits).db;
            && LiveSlug(db.tenants, slug) && HomeFor(slug) !in mid.schemas && Sound(StructureAt, mid)
            && (mid.tenants == db.tenants || mid.tenants == WithDeleted(db.tenants, slug))
  {
    ErasedIsSound(db, slug, refused, commits);
    WipeCommits(db, slug, refused);
  }

  // ---- Neighbours ----------------------------------------------------------

  /** In a registry: whose names lead to the same schema. */
  lemma SharesIff(db: Database, slug: string, j: nat)
    requires Sound(StructureAt, db) && LiveSlug(db.tenants, slug) && j < |db.tenants|
    ensures Home(db.tenants[j]) == HomeFor(slug) <==> db.tenants[j].slug == slug || AgreeOnRoom(db.tenants[j].slug, slug)
  {
    var k :| 0 <= k < |db.tenants| && db.tenants[k].slug == slug && !db.tenants[k].deleted;
    KeptNamesCollideIff(db.tenants[j].slug, slug);
    SchemaNamesCollideIff(db.tenants[j].slug, slug);
  }

  /** Another tenant's schema survives an erasure exactly if its slug does not share the first 56 characters
      with the erased one; if it does, it goes with it. */
  lemma NeighbourSurvivesIff(db: Database, slug: string, refused: set<Table>, commits: nat, j: nat)
    requires Sound(StructureAt, db) && DropDone(Erase(db, slug, refused, commits), commits)
    requires j < |db.tenants| && db.tenants[j].slug != slug && Home(db.tenants[j]) in db.schemas
    ensures var out := Erase(db, slug, refused, commits).db;
            && (Home(db.tenants[j]) in out.schemas <==> !AgreeOnRoom(db.tenants[j].slug, slug))
            && (Home(db.tenants[j]) in out.schemas ==> out.schemas[Home(db.tenants[j])] == db.schemas[Home(db.tenants[j])])
            && j < |out.tenants| && out.tenants[j] == db.tenants[j]
  {
    DropDoneMeans(db, slug, refused, commits);
    CrashPoints(db, slug, refused, commits);
    SharesIff(db, slug, j);
  }

  /** Reached from an empty database: erasing the tenant with 57 times "a" drops the schema of the one with
      56 times "a", whose row stays live. */
  lemma NeighbourLosesItsSchema()
    ensures CanAll(Up, EmptyDatabase(), ToTheNeighbours())
    ensures var a, b := Repeated('a', 56), Repeated('a', 57);
            var db := After(Up, EmptyDatabase(), ToTheNeighbours());
            var out := Erase(db, b, {}, 2);
            && LiveSlug(db.tenants, a) && HomeFor(a) in db.schemas
            && out.ending == Stopped && LiveSlug(out.db.tenants, a) && HomeFor(a) !in out.db.schemas
  {
    RealChain();
    NeighboursReached(Up, StructureAt);
    ErasingOne(After(Up, EmptyDatabase(), ToTheNeighbours()), Repeated('a', 56), Repeated('a', 57));
  }

  lemma ErasingOne(db: Database, a: string, b: string)
    requires Sound(StructureAt, db) && Neighbours(db, a, b)
    ensures var out := Erase(db, b, {}, 2);
            && LiveSlug(db.tenants, a) && HomeFor(a) in db.schemas
            && out.ending == Stopped && LiveSlug(out.db.tenants, a) && HomeFor(a) !in out.db.schemas
  {
    assert db.tenants[1].slug == a && db.tenants[2].slug == b;
    KeptNotPublic(b);
    WipePersistsIff(db, HomeFor(b), {});
    WipeCommits(db, b, {});
  }

  // ---- Afterwards ----------------------------------------------------------

  /** No tenant that is not deleted, but this one, leads to the same schema. */
  predicate Alone(rows: seq<Tenant>, slug: string) {
    forall k | 0 <= k < |rows| && !rows[k].deleted && rows[k].slug != slug :: !AgreeOnRoom(rows[k].slug, slug)
  }

  /** A completed erasure is for good: whatever happens next, no live row for the slug comes back, and
      unless another tenant shares that very schema or it is provisioned again, neither does the schema. */
  lemma ErasedForever(db: Database, slug: string, refused: set<Table>, commits: nat, es: seq<Event>)
    requires Sound(StructureAt, db) && Erase(db, slug, refused, commits).ending == Complete
    requires CanAll(Up, Erase(db, slug, refused, commits).db, es)
    ensures var end := After(Up, Erase(db, slug, refused, commits).db, es);
            && !LiveSlug(end.tenants, slug)
            && (Alone(db.tenants, slug) && AllSpare(es, slug) ==> HomeFor(slug) !in end.schemas)
  {
    var mid := Erase(db, slug, refused, commits).db;
    ErasedIsSound(db, slug, refused, commits);
    EraseLeaves(db, slug, refused, commits);
    RealChain();
    RowGoneForever(Up, StructureAt, mid, es, slug);
    if Alone(db.tenants, slug) && AllSpare(es, slug) {
      ErasedAlone(db, slug, refused, commits);
      GoneForever(Up, StructureAt, mid, es, slug);
    }
  }

  lemma EraseLeaves(db: Database, slug: string, refused: set<Table>, commits: nat)
    requires Sound(StructureAt, db) && Erase(db, slug, refused, commits).ending == Complete
    ensures var mid := Erase(db, slug, refused, commits).db;
            && LiveSlug(db.tenants, slug) && mid.tenants == WithDeleted(db.tenants, slug)
            && RowGone(mid.tenants, slug) && HomeFor(slug) !in mid.schemas
  {
    WipeCommits(db, slug, refused);
    var k :| 0 <= k < |db.tenants| && db.tenants[k].slug == slug && !db.tenants[k].deleted;
    assert WithDeleted(db.tenants, slug)[k].slug == slug;
  }

  lemma ErasedAlone(db: Database, slug: string, refused: set<Table>, commits: nat)
    requires Sound(StructureAt, db) && Erase(db, slug, refused, commits).ending == Complete && Alone(db.tenants, slug)
    ensures Gone(Erase(db, slug, refused, commits).db, slug)
  {
    EraseLeaves(db, slug, refused, commits);
    var rows := Erase(db, slug, refused, commits).db.tenants;
    forall k | 0 <= k < |rows| && !rows[k].deleted ensures Home(rows[k]) != HomeFor(slug) {
      assert rows[k] == db.tenants[k];
      SharesIff(db, slug, k);
    }
  }

  lemma ErasedIsSound(db: Database, slug: string, refused: set<Table>, commits: nat)
    requires Sound(StructureAt, db)
    ensures Sound(StructureAt, Erase(db, slug, refused, commits).db)
  {
    var name := HomeFor(slug);
    WipeCommits(db, slug, refused);
    EraseCases(db, slug, refused, commits);
    if LiveSlug(db.tenants, slug) && Wipe(db, name, refused).Ok? {
      var wiped := Commit(db, Wipe(db, name, refused).value);
      KeptNotPublic(slug);
      DroppedIsSound(StructureAt, wiped, slug);
    }
  }

  lemma DroppedIsSound(at: Structures, wiped: Database, slug: string)
    requires Sound(at, wiped) && HomeFor(slug) != PUBLIC
    ensures Sound(at, Dropping(wiped, HomeFor(slug))) && Sound(at, Marked(Dropping(wiped, HomeFor(slug)), slug))
  {
  }

  /** Some tenant to be migrated leads to the erased schema: this one, still, or one that shares it. */
  predicate Awaited(rows: seq<Tenant>, slug: string) {
    exists k | 0 <= k < |rows| :: Migratable(rows[k]) && (rows[k].slug == slug || AgreeOnRoom(rows[k].slug, slug))
  }

  /** After the drop, crashed or complete, the next run of the migrations that gets through builds the
      schema again, empty, exactly if some tenant to be migrated leads to it: after a crash the erased one
      itself, unless it was suspended; after completion only one that shares its schema. */
  lemma SchemaReturnsIff(db: Database, slug: string, refused: set<Table>, commits: nat, order: seq<string>)
    requires Sound(StructureAt, db) && DropDone(Erase(db, slug, refused, commits), commits)
    requires var mid := Erase(db, slug, refused, commits).db;
             Lists(order, RegistryAfter(mid)) && ModeB(Up, mid, order).ok
    ensures var mid := Erase(db, slug, refused, commits).db;
            var end := ModeB(Up, mid, order).db;
            && (HomeFor(slug) in end.schemas <==> Awaited(mid.tenants, slug))
            && (HomeFor(slug) in end.schemas ==>
                  Rev(end, HomeFor(slug)) == HEAD && forall t | t != ProspectingFlow :: RowsIn(end, HomeFor(slug), t) == [])
  {
    var mid := Erase(db, slug, refused, commits).db;
    DropDoneMeans(db, slug, refused, commits);
    KeptNotPublic(slug);
    RealChain();
    RunRestoresIff(Up, StructureAt, mid, HomeFor(slug), order);
    ToMigrateIff(db, slug, refused, commits);
    SameToMigrate(mid.tenants, slug);
  }

  lemma RunRestoresIff(ups: Scripts, at: Structures, mid: Database, name: string, order: seq<string>)
    requires Chained(ups, at) && Consistent(at, mid) && name !in mid.schemas && name != PUBLIC
    requires Lists(order, RegistryAfter(mid)) && ModeB(ups, mid, order).ok
    ensures var end := ModeB(ups, mid, order).db;
            && (name in end.schemas <==> ToMigrate(RegistryAfter(mid), name))
            && (name in end.schemas ==> Rev(end, name) == HEAD && forall t | t != ProspectingFlow :: RowsIn(end, name, t) == [])
  {
    ModeBIff(ups, at, mid, order);
  }

  /** The tenant's own row is there, so 0014 adds none that leads to the same schema. */
  lemma SameToMigrate(rows: seq<Tenant>, slug: string)
    requires SlugTaken(rows, slug)
    ensures ToMigrate(WithAcme(rows), HomeFor(slug)) <==> ToMigrate(rows, HomeFor(slug))
  {
    AcmeNamed();
    var all := WithAcme(rows);
    assert forall k | 0 <= k < |rows| :: all[k] == rows[k];
    if ToMigrate(all, HomeFor(slug)) && !SlugTaken(rows, ACME.slug) {
      var k :| 0 <= k < |all| && Migratable(all[k]) && Home(all[k]) == HomeFor(slug);
      if k == |rows| {
        OnlyAcme(slug);
      }
    }
  }

  lemma OnlyAcme(slug: string)
    requires HomeFor(slug) == ACME.schema
    ensures slug == ACME.slug
  {
    AcmeNamed();
    KeptNamesCollideIff(slug, ACME.slug);
    assert forall k | 0 <= k < 4 :: Replaced(ACME.slug[k]) == ACME.slug[k] && ACME.slug[k] != '_';
  }

  lemma ToMigrateIff(db: Database, slug: string, refused: set<Table>, commits: nat)
    requires Sound(StructureAt, db) && DropDone(Erase(db, slug, refused, commits), commits)
    ensures var rows := Erase(db, slug, refused, commits).db.tenants;
            SlugTaken(rows, slug) && (ToMigrate(rows, HomeFor(slug)) <==> Awaited(rows, slug))
  {
    DropDoneMeans(db, slug, refused, commits);
    var rows := Erase(db, slug, refused, commits).db.tenants;
    var j :| 0 <= j < |db.tenants| && db.tenants[j].slug == slug && !db.tenants[j].deleted;
    assert rows[j].slug == slug;
    forall k | 0 <= k < |rows|
      ensures Home(rows[k]) == HomeFor(slug) <==> rows[k].slug == slug || AgreeOnRoom(rows[k].slug, slug)
    {
      SharesIff(db, slug, k);
      assert rows[k].slug == db.tenants[k].slug && rows[k].schema == db.tenants[k].schema;
    }
  }

  // ---- When the script completes -------------------------------------------

  /** From revision 10 on the script, not cut off, completes exactly if the tenant is there and none of the
      four strict DELETEs is refused. */
  lemma CompletesIff(db: Database, slug: string, refused: set<Table>, commits: nat)
    requires Sound(StructureAt, db) && Rev(db, HomeFor(slug)) >= 10 && commits >= 3
    ensures Erase(db, slug, refused, commits).ending == Complete <==>
            LiveSlug(db.tenants, slug) && NotRefused(StrictTables(), refused)
  {
    KeptNotPublic(slug);
    NothingWiped(db, slug, refused);
    WipePersistsIff(db, HomeFor(slug), refused);
    if LiveSlug(db.tenants, slug) && Wipe(db, HomeFor(slug), refused).Ok? {
      AuditColumnsAt(Rev(db, PUBLIC));
      assert CanLog(Dropping(db, HomeFor(slug)));
    }
  }
}
