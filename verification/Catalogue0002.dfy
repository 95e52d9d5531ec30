/** The enum types and tables migration 0002 creates, in its order, with every column that carries
    a foreign key or an enum type or that a later migration reads. */
module Catalogue0002 {
  import opened SchemaNames
  import opened Ddl
  import opened TenantTables

  function Plain(): ColumnSpec {
    ColumnSpec(Scalar, NoKey)
  }

  function Plains(cs: set<Column>): (m: map<Column, ColumnSpec>)
    ensures m.Keys == cs
    ensures forall c | c in m :: m[c] == Plain()
  {
    map c | c in cs :: Plain()
  }

  function Fk(r: Table): ColumnSpec {
    ColumnSpec(Scalar, Unqualified(r))
  }

  /** The columns of CampaignMetric: 0002 creates them and the downgrade of 0010 recreates them. */
  function CampaignMetricColumns(): map<Column, ColumnSpec> {
    Plains({id, campaignId, date,
            totalSent, totalOpened, totalReplied,
            totalBounced, openRate, replyRate,
            bounceRate, diagnosticNote, createdAt})[campaignId := Fk(Campaign)]
  }

  function Enums(): seq<EnumType> {
    [seniority_tier, intent_source, enrichment_tier, touch_angle, email_status,
     flow_run_status, flow_run_step_kind, flow_run_step_status, flow_ab_test_status,
     webhook_trigger_event, webhook_delivery_status, autopilot_queue_status, rate_limit_window]
  }

  /** The table created at place `k`; 0002 creates places 0 to 49. */
  function TableAt(k: nat): Table {
    k as Table
  }

  function CreationOrder(): (order: seq<Table>)
    ensures |order| == 50
  {
    seq(50, k requires 0 <= k < 50 => TableAt(k))
  }

  /** What a column of this name references. */
  function KeyOf(c: Column): ForeignKey {
    if c == icpProfileId then Unqualified(IcpProfile)
    else if c == domainId then Unqualified(Domain)
    else if c == llmConfigId then Unqualified(LlmConfig)
    else if c == flowId then Unqualified(ProspectingFlow)
    else if c == campaignId then Unqualified(Campaign)
    else if c == prospectId then Unqualified(Prospect)
    else if c == collateralId then Unqualified(Collateral)
    else if c == runId then Unqualified(FlowRun)
    else if c == flowAId then Unqualified(ProspectingFlow)
    else if c == flowBId then Unqualified(ProspectingFlow)
    else if c == flowRunId then Unqualified(FlowRun)
    else if c == sequenceId then Unqualified(Sequence)
    else if c == abTestId then Unqualified(AbTest)
    else if c == ruleId then Unqualified(OptimizationRule)
    else if c == meetingPrepId then Unqualified(MeetingPrep)
    else if c == webhookId then Unqualified(FlowWebhook)
    else NoKey
  }

  function TypeOf(t: Table, c: Column): ColumnType {
    if c == window then OfEnum(rate_limit_window)
    else if c == seniority then OfEnum(seniority_tier)
    else if c == enrichmentTier then OfEnum(enrichment_tier)
    else if c == intentSource then OfEnum(intent_source)
    else if c == angle then OfEnum(touch_angle)
    else if c == kind then OfEnum(flow_run_step_kind)
    else if c == event then OfEnum(webhook_trigger_event)
    else if c != status then Scalar
    else if t == Sequence then OfEnum(email_status)
    else if t == FlowRun then OfEnum(flow_run_status)
    else if t == FlowRunStep then OfEnum(flow_run_step_status)
    else if t == FlowAbTest then OfEnum(flow_ab_test_status)
    else if t == AutopilotQueue then OfEnum(autopilot_queue_status)
    else OfEnum(webhook_delivery_status)
  }

  function SpecOf(t: Table, c: Column): ColumnSpec {
    ColumnSpec(TypeOf(t, c), KeyOf(c))
  }

  /** Which tables have a column of this name. */
  predicate Has(t: Table, c: Column) {
    c == id ||
    (c == apiKey && (t == ProspectingIntegration)) ||
    (c == window && (t == RateLimit)) ||
    (c == seniority && (t == Prospect)) ||
    (c == enrichmentTier && (t == Prospect)) ||
    (c == intentSource && (t == Prospect)) ||
    (c == icpProfileId && (t == Prospect || t == Campaign || t == FlowRun || t == JobChangeAlert || t == LinkedInEngagement ||
      t == FlowAbTest || t == AutopilotQueue || t == ContentIdea)) ||
    (c == domainId && (t == MailBridgeConfig || t == Campaign)) ||
    (c == llmConfigId && (t == Campaign)) ||
    (c == flowId && (t == FlowRun || t == FlowWebhook || t == AutopilotQueue)) ||
    (c == status && (t == FlowRun || t == Sequence || t == FlowRunStep || t == FlowAbTest || t == AutopilotQueue ||
      t == FlowWebhookDelivery)) ||
    (c == campaignId && (t == CampaignProspect || t == CampaignCollateralLink || t == Sequence || t == CampaignResult ||
      t == Deal || t == AbTest || t == EmailAbTest || t == OptimizationRule || t == OptimizationAction)) ||
    (c == prospectId && (t == CampaignProspect || t == Sequence || t == Deal || t == Competitor || t == CallLog ||
      t == JobChangeAlert || t == MeetingPrep || t == LinkedInEngagement || t == LinkedInInboxMessage ||
      t == ProspectSource || t == Signal || t == ReplyDraft || t == AbTestAssignment || t == Meeting)) ||
    (c == collateralId && (t == CampaignCollateralLink)) ||
    (c == angle && (t == Sequence)) ||
    (c == runId && (t == FlowRunStep)) ||
    (c == kind && (t == FlowRunStep)) ||
    (c == flowAId && (t == FlowAbTest)) ||
    (c == flowBId && (t == FlowAbTest)) ||
    (c == flowRunId && (t == AutopilotQueue || t == RateLimitLog)) ||
    (c == sequenceId && (t == SubjectLine || t == ReplyDraft || t == AbTestAssignment)) ||
    (c == abTestId && (t == AbTestAssignment)) ||
    (c == ruleId && (t == OptimizationAction)) ||
    (c == meetingPrepId && (t == Meeting)) ||
    (c == webhookId && (t == FlowWebhookDelivery)) ||
    (c == event && (t == FlowWebhookDelivery))
  }

  function ColumnNames(): set<Column> {
    {id, apiKey, window, seniority, enrichmentTier, intentSource, icpProfileId, domainId, llmConfigId, flowId, status,
     campaignId, prospectId, collateralId, angle, runId, kind, flowAId, flowBId, flowRunId, sequenceId, abTestId,
     ruleId, meetingPrepId, webhookId, event}
  }

  /** The columns of a table, as far as they are written out. */
  function Columns(t: Table): (m: map<Column, ColumnSpec>)
    ensures t == CampaignMetric ==> m == CampaignMetricColumns()
    ensures t != CampaignMetric ==> forall c :: c in m <==> c in ColumnNames() && Has(t, c)
    ensures t != CampaignMetric ==> forall c | c in m :: m[c] == SpecOf(t, c)
  {
    if t == CampaignMetric then CampaignMetricColumns()
    else map c | c in ColumnNames() && Has(t, c) :: SpecOf(t, c)
  }

  function Blocks(order: seq<Table>): (bs: seq<Block>)
    ensures |bs| == |order|
  {
    seq(|order|, k requires 0 <= k < |order| => Block(order[k], Columns(order[k]), []))
  }

  function Tables0002(): Catalogue {
    Catalogue(Enums(), Blocks(CreationOrder()))
  }

  // ---- The order is right --------------------------------------------------

  /** The place of a table in the creation order; 50 for a table 0002 does not create. */
  function Position(t: Table): nat {
    if t < 50 then t as nat else 50
  }

  predicate Backwards(t: Table, spec: ColumnSpec) {
    match spec.fk
    case NoKey => true
    case Unqualified(r) => Position(r) < Position(t)
    case _ => false
  }

  predicate InPlace(order: seq<Table>) {
    |order| == 50 && forall k | 0 <= k < 50 :: Position(order[k]) == k
  }

  lemma CreationOrderInPlace()
    ensures InPlace(CreationOrder())
  {
  }

  lemma PositionThere(t: Table)
    requires Position(t) < 50
    ensures TableAt(Position(t)) == t
  {
  }

  /** A column's key points to an earlier table, not to CampaignMetric, and its enum type is listed. */
  predicate ColumnFits(t: Table, spec: ColumnSpec) {
    && Backwards(t, spec)
    && (spec.fk.Unqualified? ==> spec.fk.r != CampaignMetric)
    && (spec.ty.OfEnum? ==> spec.ty.e in Enums())
  }

  predicate TableFits(t: Table) {
    forall x | x in Columns(t) :: ColumnFits(t, Columns(t)[x])
  }

  lemma KeysPointBack(t: Table, c: Column)
    requires Has(t, c)
    ensures Backwards(t, SpecOf(t, c)) && KeyOf(c) != Unqualified(CampaignMetric)
  {
  }

  lemma TypesListed(t: Table, c: Column)
    ensures TypeOf(t, c).OfEnum? ==> TypeOf(t, c).e in Enums()
  {
  }

  lemma MetricFits()
    ensures TableFits(CampaignMetric)
  {
  }

  lemma AllTablesFit(t: Table)
    ensures TableFits(t)
  {
    if t == CampaignMetric {
      MetricFits();
    } else {
      forall x | x in Columns(t) ensures ColumnFits(t, Columns(t)[x]) {
        KeysPointBack(t, x);
        TypesListed(t, x);
      }
    }
  }

  predicate BlockInPlace(c: Catalogue, k: nat)
    requires k < |c.blocks|
  {
    var b := c.blocks[k];
    && Position(b.t) == k && b.indexes == []
    && (forall x | x in b.specs :: Backwards(b.t, b.specs[x]))
    && (forall x | x in b.specs :: b.specs[x].ty.OfEnum? ==> b.specs[x].ty.e in c.enums)
  }

  lemma InPlaceIsOrdered(c: Catalogue)
    requires |c.blocks| == 50 && forall k | 0 <= k < 50 :: BlockInPlace(c, k)
    ensures Ordered(c)
    ensures forall t :: HasTable(c, t) <==> Position(t) < 50
  {
    forall t | Position(t) < 50 ensures c.blocks[Position(t)].t == t {
      assert BlockInPlace(c, Position(t));
      PositionThere(c.blocks[Position(t)].t);
      PositionThere(t);
    }
    forall k, x | 0 <= k < 50 && x in c.blocks[k].specs ensures SpecBackwards(c, k, c.blocks[k].specs[x]) {
      var spec := c.blocks[k].specs[x];
      assert BlockInPlace(c, k) && Backwards(c.blocks[k].t, spec);
      if spec.fk.Unqualified? {
        assert c.blocks[Position(spec.fk.r)].t == spec.fk.r;
      }
    }
    forall j, k | 0 <= j < k < |c.blocks| ensures c.blocks[j].t != c.blocks[k].t {
      assert BlockInPlace(c, j) && BlockInPlace(c, k);
    }
    forall t | HasTable(c, t) ensures Position(t) < 50 {
      var k :| 0 <= k < |c.blocks| && c.blocks[k].t == t;
      assert BlockInPlace(c, k);
    }
    forall k | 0 <= k < |c.blocks| ensures IndexesFit(c.blocks[k]) {
      assert BlockInPlace(c, k);
    }
  }

  /** In 0002 every foreign key points to a table created earlier, and each table is created once. */
  lemma Tables0002Ordered()
    ensures Ordered(Tables0002())
    ensures forall t :: HasTable(Tables0002(), t) <==> Position(t) < 50
  {
    var c := Tables0002();
    CreationOrderInPlace();
    forall k | 0 <= k < 50 ensures BlockInPlace(c, k) {
      var t := CreationOrder()[k];
      assert c.blocks[k] == Block(t, Columns(t), []);
      AllTablesFit(t);
    }
    InPlaceIsOrdered(c);
  }
}
