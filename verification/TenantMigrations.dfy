/** The tenant side of migrations 0003 to 0017 as guarded DDL programs, the downgrades, and what
    upgrading, downgrading and replaying them does. */
module TenantMigrations {
  import opened SchemaNames
  import opened Ddl
  import opened GuardedMoves
  import opened DdlRoundTrip
  import opened Catalogue0002
  import opened ColumnRenames

  function Own(r: Table): ColumnSpec {
    ColumnSpec(Scalar, InSchema(r))
  }

  // ---- Upgrades ------------------------------------------------------------

  function Moves0003(): seq<Move> {
    [ NewTable(roles, Plains({id}), []),
      NewTable(role_permissions, Plains({role_id})[role_id := Own(roles)], []),
      NewTable(support_tickets, Plains({id, status}), [(ix_support_tickets_status, [status])]),
      NewTable(support_messages, Plains({id, ticket_id})[ticket_id := Own(support_tickets)], []),
      Touches({Tab(roles), Tab(role_permissions)}) ]
  }

  function Moves0004(): seq<Move> {
    [ NewColumn(ProspectingIntegration, key_source, Plain(),
                [(prospecting_integration_key_source_check, [key_source])], false),
      NewColumn(ProspectingIntegration, api_key_encrypted, Plain(), [], false),
      Touches({Col(ProspectingIntegration, apiKey), Col(ProspectingIntegration, api_key_encrypted)}),
      NewColumn(MailBridgeConfig, owner_user_id, Plain(), [], false),
      NewColumn(LlmConfig, global_llm_config_id, ColumnSpec(Scalar, InPublic(global_llm_config)), [], false) ]
  }

  function IdentityColumns(): map<Column, ColumnSpec> {
    Plains({id, user_id, email, is_default, created_at, updated_at})
  }

  function QuotaColumns(): map<Column, ColumnSpec> {
    Plains({id, user_id, date, is_throttled, created_at, updated_at})
  }

  function Owners0005(): seq<Move> {
    [ NewColumn(Campaign, owner_user_id, Plain(), [], false),
      NewIndex(Campaign, ix_Campaign_owner_user_id, [owner_user_id]),
      NewColumn(Sequence, owner_user_id, Plain(), [], false),
      NewIndex(Sequence, ix_Sequence_owner_user_id, [owner_user_id]) ]
  }

  function Identities0005(): seq<Move> {
    [ NewTable(user_sender_identities, IdentityColumns(), []),
      NewIndex(user_sender_identities, ix_user_sender_identities_user_id_is_default, [user_id, is_default]) ]
  }

  function Quotas0005(): seq<Move> {
    [ NewTable(user_email_quotas, QuotaColumns(), []),
      NewIndex(user_email_quotas, ix_user_email_quotas_user_id_date, [user_id, date]),
      NewIndex(user_email_quotas, ix_user_email_quotas_is_throttled, [is_throttled]) ]
  }

  function Moves0005(): seq<Move> {
    Owners0005() + Identities0005() + Quotas0005()
  }

  function Usage0006(): seq<Move> {
    [ NewTable(usage_events, Plains({id, user_id, event_type, occurred_at}), []),
      NewIndex(usage_events, ix_usage_events_user_occurred, [user_id, occurred_at]),
      NewIndex(usage_events, ix_usage_events_type_occurred, [event_type, occurred_at]),
      NewIndex(usage_events, ix_usage_events_occurred, [occurred_at]) ]
  }

  function Summaries0006(): seq<Move> {
    [ NewTable(cost_summaries, Plains({id, user_id, period}), []),
      NewIndex(cost_summaries, ix_cost_summaries_period, [period]),
      NewIndex(cost_summaries, ix_cost_summaries_user_period, [user_id, period]) ]
  }

  function Moves0006(): seq<Move> {
    Usage0006() + Summaries0006()
  }

  function Prospects0007(): seq<Move> {
    [ NewColumn(Prospect, consent_status, Plain(), [], false),
      NewColumn(Prospect, lawful_basis, Plain(), [], false),
      NewColumn(Prospect, deleted_at, Plain(), [], false),
      NewColumn(Prospect, anonymized, Plain(), [], false),
      NewIndex(Prospect, ix_Prospect_deleted_at, [deleted_at]),
      NewIndex(Prospect, ix_Prospect_consent_status, [consent_status]) ]
  }

  function Consents0007(): seq<Move> {
    [ NewTable(consents, Plains({id, prospect_id, email})[prospect_id := Fk(Prospect)],
               [(ix_consents_email, [email]), (ix_consents_prospect_id, [prospect_id])]),
      NewTable(consent_logs, Plains({id, consent_id})[consent_id := Fk(consents)],
               [(ix_consent_logs_consent_id, [consent_id])]) ]
  }

  function Moves0007(): seq<Move> {
    Prospects0007() + Consents0007()
  }

  /** `if table_exists("CampaignMetric"): drop_table("CampaignMetric")` */
  function Up0010(): Program {
    DropSteps([Tab(CampaignMetric)], false)
  }

  function Moves0011(): seq<Move> {
    [ NewColumn(LinkedInEngagement, owner_user_id, Plain(), [], false),
      NewIndex(LinkedInEngagement, ix_LinkedInEngagement_owner_user_id, [owner_user_id]) ]
  }

  /** 0013 has no guard. */
  function Moves0013(): seq<Move> {
    [NewTable(CrmSyncLog, Plains({id}), [])]
  }

  function Up0013(): Program {
    Unguarded(Moves0013())
  }

  function Renames0015(): seq<Rename> {
    [ Rename(user_sender_identities, created_at, createdAt),
      Rename(user_sender_identities, updated_at, updatedAt),
      Rename(user_email_quotas, created_at, createdAt),
      Rename(user_email_quotas, updated_at, updatedAt) ]
  }

  function Up0015(): Program {
    RenameSteps(Renames0015())
  }

  function Moves0016(): seq<Move> {
    [ NewColumn(LinkedInEngagement, isIcpMatch, Plain(), [], true),
      NewColumn(LinkedInEngagement, suggestedNote, Plain(), [], true) ]
  }

  function Moves0017(): seq<Move> {
    [ NewColumn(MailBridgeConfig, mailbridge_api_key, Plain(), [], true),
      NewColumn(MailBridgeConfig, mailbridge_external_user_id, Plain(), [], true) ]
  }

  // ---- Downgrades ----------------------------------------------------------

  function Dropped0005(): seq<Obj> {
    [ Tab(user_email_quotas), Tab(user_sender_identities),
      Idx(Sequence, ix_Sequence_owner_user_id), Idx(Campaign, ix_Campaign_owner_user_id),
      Col(Sequence, owner_user_id), Col(Campaign, owner_user_id) ]
  }

  function Dropped0007(): seq<Obj> {
    [ Tab(consent_logs), Tab(consents),
      Idx(Prospect, ix_Prospect_consent_status), Idx(Prospect, ix_Prospect_deleted_at),
      Col(Prospect, anonymized), Col(Prospect, deleted_at),
      Col(Prospect, lawful_basis), Col(Prospect, consent_status) ]
  }

  function Down0010(): Program {
    Steps([NewTable(CampaignMetric, CampaignMetricColumns(), [])])
  }

  function Dropped0011(): seq<Obj> {
    [Idx(LinkedInEngagement, ix_LinkedInEngagement_owner_user_id), Col(LinkedInEngagement, owner_user_id)]
  }

  function Down0015(): Program {
    RenameSteps(Back(Renames0015()))
  }

  function Dropped0016(): seq<Obj> {
    [Col(LinkedInEngagement, suggestedNote), Col(LinkedInEngagement, isIcpMatch)]
  }

  function Dropped0017(): seq<Obj> {
    [Col(MailBridgeConfig, mailbridge_external_user_id), Col(MailBridgeConfig, mailbridge_api_key)]
  }
}
