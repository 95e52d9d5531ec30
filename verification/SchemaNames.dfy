/** The names the migrations use. A name is a number, so that telling two apart is arithmetic; the
    constants are spelled as in the migration files, and every other number is some other name. */
module SchemaNames {

  newtype Table = n: int | 0 <= n
  newtype Column = n: int | 0 <= n
  newtype Index = n: int | 0 <= n

  datatype EnumType =
    | seniority_tier | intent_source | enrichment_tier | touch_angle | email_status
    | flow_run_status | flow_run_step_kind | flow_run_step_status | flow_ab_test_status
    | webhook_trigger_event | webhook_delivery_status | autopilot_queue_status | rate_limit_window
    | OtherEnum(name: string)

  // the tables of 0002, numbered in the order it creates them
  const LlmConfig: Table := 0
  const IcpProfile: Table := 1
  const Domain: Table := 2
  const PromptTemplate: Table := 3
  const SystemParameter: Table := 4
  const ProspectingIntegration: Table := 5
  const ExclusionRule: Table := 6
  const Collateral: Table := 7
  const LinkedInConfig: Table := 8
  const EmailTemplate: Table := 9
  const SourceConfig: Table := 10
  const SignalMonitor: Table := 11
  const DomainEnrichment: Table := 12
  const SchedulerStatus: Table := 13
  const RateLimit: Table := 14
  const ProspectingFlow: Table := 15
  const WeeklyDigest: Table := 16
  const Prospect: Table := 17
  const MailBridgeConfig: Table := 18
  const Campaign: Table := 19
  const FlowRun: Table := 20
  const CampaignProspect: Table := 21
  const CampaignCollateralLink: Table := 22
  const Sequence: Table := 23
  const CampaignMetric: Table := 24
  const CampaignResult: Table := 25
  const Deal: Table := 26
  const AbTest: Table := 27
  const EmailAbTest: Table := 28
  const OptimizationRule: Table := 29
  const Competitor: Table := 30
  const CallLog: Table := 31
  const JobChangeAlert: Table := 32
  const MeetingPrep: Table := 33
  const LinkedInEngagement: Table := 34
  const LinkedInInboxMessage: Table := 35
  const ProspectSource: Table := 36
  const Signal: Table := 37
  const FlowRunStep: Table := 38
  const FlowAbTest: Table := 39
  const FlowWebhook: Table := 40
  const AutopilotQueue: Table := 41
  const RateLimitLog: Table := 42
  const SubjectLine: Table := 43
  const ReplyDraft: Table := 44
  const AbTestAssignment: Table := 45
  const OptimizationAction: Table := 46
  const Meeting: Table := 47
  const ContentIdea: Table := 48
  const FlowWebhookDelivery: Table := 49

  // later tenant tables
  const roles: Table := 50
  const role_permissions: Table := 51
  const support_tickets: Table := 52
  const support_messages: Table := 53
  const user_sender_identities: Table := 54
  const user_email_quotas: Table := 55
  const usage_events: Table := 56
  const cost_summaries: Table := 57
  const consents: Table := 58
  const consent_logs: Table := 59
  const CrmSyncLog: Table := 60

  // public tables
  const tenants: Table := 61
  const tenant_config: Table := 62
  const platform_audit_log: Table := 63
  const plans: Table := 64
  const subscriptions: Table := 65
  const tenant_signup_requests: Table := 66
  const permissions: Table := 67
  const feature_permissions: Table := 68
  const help_sections: Table := 69
  const help_articles: Table := 70
  const help_section_roles: Table := 71
  const contact_messages: Table := 72
  const global_llm_config: Table := 73
  const cost_config: Table := 74
  const data_subject_requests: Table := 75
  const retention_policies: Table := 76

  // columns: the key of most tables, and those later migrations add, rename, read or index
  const id: Column := 0

  // columns later migrations add, rename, read or index
  const owner_user_id: Column := 1
  const created_at: Column := 2
  const updated_at: Column := 3
  const createdAt: Column := 4
  const updatedAt: Column := 5
  const apiKey: Column := 6
  const key_source: Column := 7
  const api_key_encrypted: Column := 8
  const global_llm_config_id: Column := 9
  const user_id: Column := 10
  const is_default: Column := 11
  const date: Column := 12
  const is_throttled: Column := 13
  const occurred_at: Column := 14
  const event_type: Column := 15
  const period: Column := 16
  const consent_status: Column := 17
  const lawful_basis: Column := 18
  const deleted_at: Column := 19
  const anonymized: Column := 20
  const prospect_id: Column := 21
  const email: Column := 22
  const consent_id: Column := 23
  const isIcpMatch: Column := 24
  const suggestedNote: Column := 25
  const mailbridge_api_key: Column := 26
  const mailbridge_external_user_id: Column := 27
  const role_id: Column := 28
  const ticket_id: Column := 29
  const status: Column := 30
  const tenant_id: Column := 31
  const plan_id: Column := 32
  const section_id: Column := 33
  const required_permission: Column := 34
  const tenant_slug: Column := 35
  const subdomain: Column := 36
  const provider: Column := 37
  const actor_role: Column := 38
  const target_id: Column := 39
  const request_id: Column := 40
  const ip_address: Column := 41
  const integration_mode: Column := 42
  const effective_price_cents: Column := 43

  // foreign-key and enum columns of 0002
  const icpProfileId: Column := 44
  const domainId: Column := 45
  const llmConfigId: Column := 46
  const flowId: Column := 47
  const campaignId: Column := 48
  const prospectId: Column := 49
  const collateralId: Column := 50
  const runId: Column := 51
  const flowAId: Column := 52
  const flowBId: Column := 53
  const flowRunId: Column := 54
  const sequenceId: Column := 55
  const abTestId: Column := 56
  const ruleId: Column := 57
  const meetingPrepId: Column := 58
  const webhookId: Column := 59
  const seniority: Column := 60
  const enrichmentTier: Column := 61
  const intentSource: Column := 62
  const angle: Column := 63
  const window: Column := 64
  const kind: Column := 65
  const event: Column := 66

  // others
  const totalSent: Column := 67
  const totalOpened: Column := 68
  const totalReplied: Column := 69
  const totalBounced: Column := 70
  const openRate: Column := 71
  const replyRate: Column := 72
  const bounceRate: Column := 73
  const diagnosticNote: Column := 74
  const permission_key: Column := 75
  const is_active: Column := 76
  const policy_name: Column := 77

  // indexes and check constraints
  const ix_Campaign_owner_user_id: Index := 0
  const ix_Sequence_owner_user_id: Index := 1
  const ix_user_sender_identities_user_id_is_default: Index := 2
  const ix_user_email_quotas_user_id_date: Index := 3
  const ix_user_email_quotas_is_throttled: Index := 4
  const ix_usage_events_user_occurred: Index := 5
  const ix_usage_events_type_occurred: Index := 6
  const ix_usage_events_occurred: Index := 7
  const ix_cost_summaries_period: Index := 8
  const ix_cost_summaries_user_period: Index := 9
  const ix_Prospect_deleted_at: Index := 10
  const ix_Prospect_consent_status: Index := 11
  const ix_consents_email: Index := 12
  const ix_consents_prospect_id: Index := 13
  const ix_consent_logs_consent_id: Index := 14
  const ix_LinkedInEngagement_owner_user_id: Index := 15
  const ix_support_tickets_status: Index := 16
  const prospecting_integration_key_source_check: Index := 17
  const ix_tenants_status: Index := 18
  const ix_platform_audit_log_tenant_slug_created_at: Index := 19
  const ix_subscriptions_status: Index := 20
  const ix_tenant_signup_requests_status: Index := 21
  const ix_tenant_signup_requests_subdomain: Index := 22
  const ix_global_llm_config_provider: Index := 23
  const tenant_config_integration_mode_check: Index := 24
  const tenant_signup_requests_integration_mode_check: Index := 25
  const subscriptions_integration_mode_check: Index := 26
  const ix_cost_config_event_type: Index := 27
  const ix_cost_config_provider: Index := 28
  const ix_dsr_email: Index := 29
  const ix_dsr_tenant_slug: Index := 30
  const ix_dsr_status: Index := 31
  const ix_global_llm_config_is_default_is_active: Index := 32
}
