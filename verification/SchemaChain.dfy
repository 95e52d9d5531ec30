/** The structure of a schema after each migration of the chain, 0001 to 0017, on the public and on
    the tenant side, and that each migration gets from one to the next. */
module SchemaChain {
  import opened SchemaNames
  import opened Ddl
  import opened GuardedMoves
  import opened TenantTables
  import opened Catalogue0002
  import opened TenantMigrations
  import opened PublicMigrations

  /** What migration `n` does to the structure of a tenant schema. */
  function TenantUp(n: nat): Program {
    match n
    case 2 => Upgrade(Tables0002())
    case 3 => Steps(Moves0003())
    case 4 => Steps(Moves0004())
    case 5 => Steps(Moves0005())
    case 6 => Steps(Moves0006())
    case 7 => Steps(Moves0007())
    case 10 => Up0010()
    case 11 => Steps(Moves0011())
    case 13 => Up0013()
    case 15 => Up0015()
    case 16 => Steps(Moves0016())
    case 17 => Steps(Moves0017())
    case _ => []
  }

  /** What migration `n` does to the structure of the public schema. */
  function PublicUp(n: nat): Program {
    match n
    case 1 => Up0001()
    case 3 => Steps(Public0003())
    case 4 => Steps(Public0004())
    case 6 => Steps(Public0006())
    case 7 => Steps(Public0007())
    case 8 => Steps(Public0008())
    case 9 => Steps(Public0009())
    case 13 => Up0013()
    case 15 => Up0015()
    case 16 => Steps(Moves0016())
    case 17 => Steps(Moves0017())
    case _ => []
  }

  const HEAD: nat := 17

  // ---- Which part of which migration introduces an object ------------------

  /** Ten times the number of the migration that creates the table, plus the place of the part. */
  function TablePlace(t: Table): nat {
    if t < 50 then 20
    else if t == roles || t == role_permissions || t == support_tickets || t == support_messages then 39
    else if t == user_sender_identities then 51
    else if t == user_email_quotas then 52
    else if t == usage_events then 60
    else if t == cost_summaries then 61
    else if t == consents || t == consent_logs then 79
    else if t == CrmSyncLog then 130
    else if t == tenants || t == tenant_config || t == platform_audit_log then 10
    else if t == plans || t == subscriptions then 30
    else if t == tenant_signup_requests then 31
    else if t == permissions || t == feature_permissions then 32
    else if t == help_sections || t == help_articles then 33
    else if t == help_section_roles || t == contact_messages then 34
    else if t == global_llm_config then 40
    else if t == cost_config then 60
    else if t == data_subject_requests || t == retention_policies then 70
    else 180
  }

  function ColumnPlace(t: Table, c: Column): nat {
    if t == ProspectingIntegration && (c == key_source || c == api_key_encrypted) then 40
    else if t == MailBridgeConfig && c == owner_user_id then 40
    else if t == MailBridgeConfig && (c == mailbridge_api_key || c == mailbridge_external_user_id) then 170
    else if t == LlmConfig && c == global_llm_config_id then 40
    else if (t == Campaign || t == Sequence) && c == owner_user_id then 50
    else if t == Prospect && (c == consent_status || c == lawful_basis || c == deleted_at || c == anonymized) then 70
    else if t == LinkedInEngagement && c == owner_user_id then 110
    else if t == LinkedInEngagement && (c == isIcpMatch || c == suggestedNote) then 160
    else if (t == user_sender_identities || t == user_email_quotas) && (c == createdAt || c == updatedAt) then 150
    else if t == platform_audit_log && (c == actor_role || c == target_id || c == request_id || c == ip_address) then 35
    else if (t == tenant_config || t == tenant_signup_requests) && c == integration_mode then 41
    else if t == subscriptions && (c == integration_mode || c == effective_price_cents) then 42
    else TablePlace(t)
  }

  function IndexPlace(t: Table, i: Index): nat {
    if t == ProspectingIntegration then 40
    else if t == Campaign || t == Sequence then 50
    else if t == Prospect then 70
    else if t == LinkedInEngagement then 110
    else if t == tenant_config then 41
    else if t == tenant_signup_requests && i == tenant_signup_requests_integration_mode_check then 41
    else if t == subscriptions && i == subscriptions_integration_mode_check then 42
    else TablePlace(t)
  }

  function Place(o: Obj): nat {
    match o
    case Tab(t) => TablePlace(t)
    case Col(t, c) => ColumnPlace(t, c)
    case Idx(t, i) => IndexPlace(t, i)
    case Typ(_) => 20
  }

  predicate MoveFrom(m: Move, n: nat) {
    match m
    case NewTable(t, specs, ixs) =>
      && Place(Tab(t)) == n
      && (forall c | c in specs :: Place(Col(t, c)) == n)
      && (forall k | 0 <= k < |ixs| :: Place(Idx(t, ixs[k].0)) == n)
    case NewColumn(t, c, _, ixs, _) =>
      Place(Col(t, c)) == n && forall k | 0 <= k < |ixs| :: Place(Idx(t, ixs[k].0)) == n
    case NewIndex(t, i, _) => Place(Idx(t, i)) == n
    case NewEnum(e) => Place(Typ(e)) == n
    case Touches(_) => true
  }

  predicate AllFrom(ms: seq<Move>, n: nat) {
    forall k | 0 <= k < |ms| :: MoveFrom(ms[k], n)
  }

  lemma MadeFrom(m: Move, n: nat)
    requires MoveFrom(m, n)
    ensures forall o | o in Made(m) :: Place(o) == n
  {
  }

  lemma {:induction false} AllMadeFrom(ms: seq<Move>, k: nat, n: nat)
    requires k <= |ms| && AllFrom(ms, n)
    ensures forall o | o in AllMade(ms, k) :: Place(o) == n
    decreases |ms| - k
  {
    if k < |ms| {
      MadeFrom(ms[k], n);
      AllMadeFrom(ms, k + 1, n);
    }
  }

  function IntegrationTables(): set<Obj> {
    {Tab(ProspectingIntegration), Col(ProspectingIntegration, apiKey), Tab(MailBridgeConfig), Tab(LlmConfig)}
  }

  function PlatformTables(): set<Obj> {
    {Tab(platform_audit_log), Tab(plans), Tab(permissions), Tab(feature_permissions),
     Tab(help_sections), Tab(help_articles), Tab(help_section_roles)}
  }

  lemma RolesFrom()
    ensures AllFrom(Moves0003(), 39)
  {
  }

  lemma RolesReady()
    ensures AllReady(Moves0003(), 0, {}, {})
  {
  }

  lemma KeySourceFrom()
    ensures AllFrom(Moves0004(), 40)
  {
  }

  lemma KeySourceReady()
    ensures AllReady(Moves0004(), 0, IntegrationTables(), {global_llm_config})
  {
  }

  lemma OwnersFrom()
    ensures AllFrom(Owners0005(), 50)
  {
  }

  lemma OwnersReady()
    ensures AllReady(Owners0005(), 0, {Tab(Campaign), Tab(Sequence)}, {})
  {
  }

  lemma IdentitiesFrom()
    ensures AllFrom(Identities0005(), 51)
  {
  }

  lemma IdentitiesReady()
    ensures AllReady(Identities0005(), 0, {}, {})
  {
  }

  lemma QuotasFrom()
    ensures AllFrom(Quotas0005(), 52)
  {
  }

  lemma QuotasReady()
    ensures AllReady(Quotas0005(), 0, {}, {})
  {
  }

  lemma UsageFrom()
    ensures AllFrom(Usage0006(), 60)
  {
  }

  lemma UsageReady()
    ensures AllReady(Usage0006(), 0, {}, {})
  {
  }

  lemma SummariesFrom()
    ensures AllFrom(Summaries0006(), 61)
  {
  }

  lemma SummariesReady()
    ensures AllReady(Summaries0006(), 0, {}, {})
  {
  }

  lemma ProspectsFrom()
    ensures AllFrom(Prospects0007(), 70)
  {
  }

  lemma ProspectsReady()
    ensures AllReady(Prospects0007(), 0, {Tab(Prospect)}, {})
  {
  }

  lemma ConsentsFrom()
    ensures AllFrom(Consents0007(), 79)
  {
  }

  lemma ConsentsReady()
    ensures AllReady(Consents0007(), 0, {Tab(Prospect)}, {})
  {
  }

  lemma EngagementFrom()
    ensures AllFrom(Moves0011(), 110)
  {
  }

  lemma EngagementReady()
    ensures AllReady(Moves0011(), 0, {Tab(LinkedInEngagement)}, {})
  {
  }

  lemma IcpMatchFrom()
    ensures AllFrom(Moves0016(), 160)
  {
  }

  lemma IcpMatchReady()
    ensures AllReady(Moves0016(), 0, {Tab(LinkedInEngagement)}, {})
  {
  }

  lemma MailBridgeFrom()
    ensures AllFrom(Moves0017(), 170)
  {
  }

  lemma MailBridgeReady()
    ensures AllReady(Moves0017(), 0, {Tab(MailBridgeConfig)}, {})
  {
  }

  lemma SubscriptionsFrom()
    ensures MoveFrom(Plans0003()[1], 30)
  {
  }

  lemma PlansFrom()
    ensures AllFrom(Plans0003(), 30)
  {
    SubscriptionsFrom();
  }

  lemma PlansReady()
    ensures AllReady(Plans0003(), 0, {Tab(tenants)}, {})
  {
  }

  lemma SignupsFrom()
    ensures AllFrom(Signups0003(), 31)
  {
  }

  lemma SignupsReady()
    ensures AllReady(Signups0003(), 0, {Tab(tenants), Tab(plans)}, {})
  {
  }

  lemma PermissionsFrom()
    ensures AllFrom(Permissions0003(), 32)
  {
  }

  lemma PermissionsReady()
    ensures AllReady(Permissions0003(), 0, {}, {})
  {
  }

  lemma HelpFrom()
    ensures AllFrom(Help0003(), 33)
  {
  }

  lemma HelpReady()
    ensures AllReady(Help0003(), 0, {}, {})
  {
  }

  lemma ContactFrom()
    ensures AllFrom(Contact0003(), 34)
  {
  }

  lemma ContactReady()
    ensures AllReady(Contact0003(), 0, {Tab(help_sections)}, {})
  {
  }

  lemma AuditFrom()
    ensures AllFrom(Audit0003(), 35)
  {
  }

  lemma AuditReady()
    ensures AllReady(Audit0003(), 0, PlatformTables(), {})
  {
  }

  lemma GlobalFrom()
    ensures AllFrom(Global0004(), 40)
  {
  }

  lemma GlobalReady()
    ensures AllReady(Global0004(), 0, {}, {})
  {
  }

  lemma ModesFrom()
    ensures AllFrom(Modes0004(), 41)
  {
  }

  lemma ModesReady()
    ensures AllReady(Modes0004(), 0, {Tab(tenant_config), Tab(tenant_signup_requests)}, {})
  {
  }

  lemma PricesFrom()
    ensures AllFrom(Prices0004(), 42)
  {
  }

  lemma PricesReady()
    ensures AllReady(Prices0004(), 0, {Tab(subscriptions), Tab(plans)}, {})
  {
  }

  lemma CostsFrom()
    ensures AllFrom(Public0006(), 60)
  {
  }

  lemma CostsReady()
    ensures AllReady(Public0006(), 0, {}, {})
  {
  }

  lemma RequestsFrom()
    ensures AllFrom(Public0007(), 70)
  {
  }

  lemma RequestsReady()
    ensures AllReady(Public0007(), 0, {}, {})
  {
  }
}
