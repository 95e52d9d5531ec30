/** The public side of the migrations. */
module PublicMigrations {
  import opened SchemaNames
  import opened Ddl
  import opened GuardedMoves
  import opened Catalogue0002
  import opened TenantMigrations

  /** 0001 has no guards. */
  function Moves0001(): seq<Move> {
    [ NewTable(tenants, Plains({tenant_id, status, deleted_at}), [(ix_tenants_status, [status])]),
      NewTable(tenant_config, Plains({tenant_id})[tenant_id := Own(tenants)], []),
      NewTable(platform_audit_log, Plains({id, tenant_slug, created_at}),
               [(ix_platform_audit_log_tenant_slug_created_at, [tenant_slug, created_at])]) ]
  }

  function Up0001(): Program {
    Unguarded(Moves0001())
  }

  function Plans0003(): seq<Move> {
    [ NewTable(plans, Plains({id}), []),
      NewTable(subscriptions, Plains({id, tenant_id, plan_id, status})[tenant_id := Own(tenants)][plan_id := Own(plans)],
               [(ix_subscriptions_status, [status])]) ]
  }

  function Signups0003(): seq<Move> {
    [ NewTable(tenant_signup_requests,
               Plains({id, subdomain, tenant_id, plan_id, status})[tenant_id := Own(tenants)][plan_id := Own(plans)],
               [(ix_tenant_signup_requests_status, [status]), (ix_tenant_signup_requests_subdomain, [subdomain])]) ]
  }

  function Permissions0003(): seq<Move> {
    [ NewTable(permissions, Plains({permission_key}), []),
      NewTable(feature_permissions, Plains({required_permission})[required_permission := Own(permissions)], []) ]
  }

  function Help0003(): seq<Move> {
    [ NewTable(help_sections, Plains({id}), []),
      NewTable(help_articles, Plains({id, section_id})[section_id := Own(help_sections)], []) ]
  }

  function Contact0003(): seq<Move> {
    [ NewTable(help_section_roles, Plains({section_id})[section_id := Own(help_sections)], []),
      NewTable(contact_messages, Plains({id}), []) ]
  }

  function Audit0003(): seq<Move> {
    [ NewColumn(platform_audit_log, actor_role, Plain(), [], false),
      NewColumn(platform_audit_log, target_id, Plain(), [], false),
      NewColumn(platform_audit_log, request_id, Plain(), [], false),
      NewColumn(platform_audit_log, ip_address, Plain(), [], false),
      Touches({Tab(plans), Tab(permissions), Tab(feature_permissions),
               Tab(help_sections), Tab(help_articles), Tab(help_section_roles)}) ]
  }

  function Public0003(): seq<Move> {
    Plans0003() + Signups0003() + Permissions0003() + Help0003() + Contact0003() + Audit0003()
  }

  function Global0004(): seq<Move> {
    [ NewTable(global_llm_config, Plains({id, provider, is_default, is_active}),
               [(ix_global_llm_config_provider, [provider]),
                (ix_global_llm_config_is_default_is_active, [is_default, is_active])]) ]
  }

  function Modes0004(): seq<Move> {
    [ NewColumn(tenant_config, integration_mode, Plain(),
                [(tenant_config_integration_mode_check, [integration_mode])], false),
      NewColumn(tenant_signup_requests, integration_mode, Plain(),
                [(tenant_signup_requests_integration_mode_check, [integration_mode])], false) ]
  }

  function Prices0004(): seq<Move> {
    [ NewColumn(subscriptions, integration_mode, Plain(),
                [(subscriptions_integration_mode_check, [integration_mode])], false),
      NewColumn(subscriptions, effective_price_cents, Plain(), [], false),
      Touches({Tab(plans)}) ]
  }

  function Public0004(): seq<Move> {
    Global0004() + Modes0004() + Prices0004()
  }

  function Public0006(): seq<Move> {
    [ NewTable(cost_config, Plains({id, event_type, provider}),
               [(ix_cost_config_event_type, [event_type]), (ix_cost_config_provider, [provider])]),
      Touches({Tab(cost_config)}) ]
  }

  function Public0007(): seq<Move> {
    [ NewTable(data_subject_requests, Plains({id, email, tenant_slug, status}),
               [(ix_dsr_email, [email]), (ix_dsr_tenant_slug, [tenant_slug]), (ix_dsr_status, [status])]),
      NewTable(retention_policies, Plains({policy_name}), []),
      Touches({Tab(retention_policies)}) ]
  }

  function Public0008(): seq<Move> {
    [Touches({Tab(help_sections), Tab(help_articles), Tab(help_section_roles)})]
  }

  function Public0009(): seq<Move> {
    [Touches({Tab(permissions)})]
  }
}
