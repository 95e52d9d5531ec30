# Proofs about the multi-tenant backend

This project models the parts of the OUTRENA backend on which tenant separation and data integrity
rest, and proves what they promise. It covers the schema-per-tenant migrations and their runner, the
erasure script, the pooled database sessions and request admission, and several smaller algorithms
and protocols.

## How the model is built

- **Schemas** (`Ddl`, `DdlPrograms`, `GuardedMoves`, `DdlRoundTrip`, `ColumnRenames`). A schema's
  structure is a map from tables, columns, indexes and enum types to their definitions. A migration is
  a list of guarded steps, and every statement can fail as PostgreSQL lets it. General theorems are
  proved over all such programs.
- **Migrations** (`Catalogue0002`, `TenantTables`, `TenantMigrations`, `PublicMigrations`,
  `SchemaChain`, `ChainStates`, `ChainTables`). Migrations 0001 to 0017 are written in that language, for the public
  schema and for a tenant's. Their round trips and replay are in `MigrationRoundTrips`,
  `MigrationReplay` and `ChainRoundTrips`; `SchemaSession` runs them imperatively.
- **The runner** (`Databases`, `FlowTemplates`, `MigrationRunner`, `ModeBRuns`, `Lifecycle`). A database
  is a map from schema names, as PostgreSQL keeps them, to structure, revision and rows, with the tenant
  registry and the audit log. `Postgres` holds the programs that change it, as a class, each proved against its specification
  function.
- **Tenants** (`TenantNaming`, `CacheKeys`, `Erasure`, `ErasureSummary`, `Admission`, `SessionPool`). Names, cache keys,
  erasure with its crash points, request admission, and sessions over reused connections as a state
  machine over interleaved steps.
- **Algorithms and small protocols** (`Base36`, `JsonText`, `JsonRoundTrip`, `CoerceLayers`,
  `PosthogSingleton`, `MetricsLabels`, `EnvFile`).

The clock, random characters, the order in which a query returns tenants, the order in which threads,
sessions and requests take turns, which DELETE statements are refused, and at which commit the erasure
script is cut off are parameters. All theorems hold for every choice of them.

## Where the code does not do what is written about it

- A Mode B run fails whenever two tenants wait for their first migration: 0012 runs in each schema's
  pass and visits every tenant that is not deleted. `ModeBIff` is the exact condition for a run to
  succeed. Migrating one of the two alone fails as well, and only soft-deleting one of them, as the
  compensation of a failed provisioning does, ends it (`StuckIff`, `StuckMeans`, `TwoRegistrationsBlock`,
  `BlockedFromTheStart`).
- Steps 1 to 4 of the erasure script never take effect at head. CampaignMetric has been dropped by
  0010, its failed DELETE aborts the transaction, and the commit rolls it back, while the summary
  reports the deletions (`WipePersistsIff`, `SummaryOverstates`, `OverstatedAfterFirstRun`). The report is
  true exactly if it shows nothing skipped (`SummaryTruthfulIff`). Only the schema drop removes data.
- A crash of that script between the schema drop and the soft delete is undone by the next migration
  run, which rebuilds the schema empty, unless the tenant is suspended (`SchemaReturnsIff`).
- Downgrade after upgrade restores a schema only if the upgrade did not find its objects there already;
  the round-trip lemmas give the exact conditions, and `DowngradeRestores` shows that they hold on
  every schema the chain itself has built.
- A session's SET covers its statements up to its first commit or rollback. Later ones use whatever path
  their next connection carries (`LateStatementIff`, `LateStatementsStray`).
- Identifiers have 29 characters, not 24, and counters 936 apart can be written alike
  (`CuidLengthIff`, `CountersCollideIff`, `FarCountersCanCollide`).
- The prefix scan does not reach a tenant's key without segments (`ScanMeetsTenantKeyIff`), and the
  count it returns is exact only if the scan repeats no key.
- Schema names longer than 63 bytes are cut by PostgreSQL, while the registry keeps only the whole names
  apart. Tenants whose slugs have at least 56 characters and agree on the first 56 share one schema
  (`SlugsShareSchemaIff`, `LongSlugsCollide`): their users' sessions work on the same tables
  (`AdmittedShareIff`, `AdmittedStatementsStayHome`), and erasing one drops the other's schema
  (`NeighbourSurvivesIff`, `NeighbourLosesItsSchema`). All other tenants are kept apart.
- A user whose token spells the tenant's slug with a capital is locked out (`CapitalsLockOut`).
- Reading the settings can raise inside the construction of the PostHog client, which the documentation
  calls impossible. `RaisedIff` says exactly when a call raises, `OneRaisesOneReturns` is a run in which one
  does, and `NeverStuck` that the lock is released then.

## Model

| member | source | states |
|---|---|---|
| `Ddl.ApplyKeepsWellFormed` | outrena-backend/alembic/versions/0002_initial_tenant.py:266-1632 | any single DDL statement that succeeds on a schema without dangling references leaves one without dangling references |
| `Ddl.ExecKeepsWellFormed` | outrena-backend/alembic/versions/0002_initial_tenant.py:266-1632 | for every program of guarded DDL steps: after any number of its steps no foreign key, enum column or index points at something missing |
| `DdlPrograms.AdditiveSettles` | outrena-backend/alembic/versions/0005_user_capabilities.py:118-268 | after any guarded additive program has run, from any schema, none of its steps would do anything again |
| `GuardedMoves.ReadyMovesSucceed` | outrena-backend/alembic/versions/0007_gdpr_compliance.py:251-364 | a list of guarded creations checked against the objects it needs succeeds on every schema that has those and none of what it makes, and makes exactly that |
| `TenantTables.UpgradeCompletes` | outrena-backend/alembic/versions/0002_initial_tenant.py:266-1632 | from any schema without dangling references, whatever part of the tables it holds, 0002 succeeds, completes them with all columns as listed, leaves what existed as it was, and no reference dangles at any step in between |
| `TenantTables.DowngradeLeavesRest` | outrena-backend/alembic/versions/0002_initial_tenant.py:1635-1691 | a downgrade of 0002 that finishes leaves exactly the objects that are not 0002's |
| `TenantTables.DowngradeSucceedsIff` | outrena-backend/alembic/versions/0002_initial_tenant.py:1635-1691 | the downgrade never drops a table or type still referenced and gets through if and only if no other table references one of 0002's tables or uses one of its enum types |
| `Catalogue0002.Tables0002Ordered` | outrena-backend/alembic/versions/0002_initial_tenant.py:266-1632 | 0002's fifty tables: every foreign key points to a table created earlier, and each table is created once |
| `ColumnRenames.RenamesBackIff` | outrena-backend/alembic/versions/0015_fix_timestamp_columns.py:65-118 | guarded renames followed by the reversed renames, in the same order, restore a schema if and only if none of them was already done |
| `DdlRoundTrip.RoundTripIff` | outrena-backend/alembic/versions/0007_gdpr_compliance.py:251-396 | for any additive upgrade and a downgrade that drops each of its objects if present, referrers first: the downgrade restores the starting structure exactly, if and only if none of the objects the upgrade's guards look for existed before |
| `MigrationRoundTrips.RoundTrip0005` | outrena-backend/alembic/versions/0005_user_capabilities.py:118-304 | 0005 and back restores any schema if and only if none of its tables, columns and indexes existed |
| `MigrationRoundTrips.RoundTrip0007` | outrena-backend/alembic/versions/0007_gdpr_compliance.py:251-396 | the same for 0007, whose consent_logs must be dropped before consents |
| `MigrationRoundTrips.RoundTrip0010` | outrena-backend/alembic/versions/0010_drop_campaign_metrics.py:88-169 | dropping CampaignMetric and rebuilding it restores a schema if and only if the table was there in the form 0002 gives it |
| `MigrationRoundTrips.RoundTrip0011` | outrena-backend/alembic/versions/0011_linkedin_engagement_owner.py:86-143 | 0011 and back restores a schema if and only if neither the column nor the index existed |
| `MigrationRoundTrips.RoundTrip0015` | outrena-backend/alembic/versions/0015_fix_timestamp_columns.py:65-118 | 0015 always runs, and restores if and only if no camel-case column stood there without its snake-case form, which the downgrade alone would rename |
| `MigrationRoundTrips.RoundTrip0016` | outrena-backend/alembic/versions/0016_linkedin_icp_match_columns.py:73-124 | the same condition for 0016, also when its table is missing |
| `MigrationRoundTrips.RoundTrip0017` | outrena-backend/alembic/versions/0017_mailbridge_tenancy_columns.py:73-124 | the same for 0017 |
| `MigrationReplay.ReplayChangesNothing` | outrena-backend/alembic/versions/0015_fix_timestamp_columns.py:65-91 | from any schema without dangling references: if the tenant chain gets through, running the guarded migrations again on the result succeeds and changes nothing, although 0002 alone recreates CampaignMetric and 0005 creates columns that 0015 renames |
| `ChainStates.TenantAdvance` | outrena-backend/alembic/versions/0002_initial_tenant.py:160-268 | each tenant migration takes the structure of one revision to the one structure of the next, whatever else the public schema holds |
| `ChainStates.TenantBlocked` | outrena-backend/alembic/versions/0004_integration_dual_path.py:250-302 | 0004 fails on a tenant schema while public.global_llm_config is missing |
| `ChainTables.TablesAt` | outrena-backend/alembic/versions/0002_initial_tenant.py:266-1632 | exactly which tables a tenant schema has at each revision: those the migrations up to it create, and CampaignMetric only before 0010 |
| `ChainTables.ColumnsAt` | outrena-backend/alembic/versions/0007_gdpr_compliance.py:251-364 | the columns the erasure script writes are there exactly from revision 7 on |
| `ChainStates.PublicAdvance` | outrena-backend/alembic/versions/0003_saas_platform.py:314-556 | each public migration takes the public structure of one revision to that of the next |
| `ChainRoundTrips.DowngradeRestores` | outrena-backend/alembic/versions/0010_drop_campaign_metrics.py:88-169 | on the schema the chain itself builds up to the revision before, upgrade and downgrade restore the exact structure, for 0002, 0005, 0007, 0010, 0011, 0015, 0016 and 0017 |
| `ChainRoundTrips.Undo0002` | outrena-backend/alembic/versions/0002_initial_tenant.py:1635-1691 | dropping all 0002 built in an empty schema never meets a table or type still referenced and leaves nothing |
| `ChainRoundTrips.HeadReplays` | outrena-backend/alembic/versions/0002_initial_tenant.py:885-907 | a tenant schema at head is a fixed point of the guarded migrations 0002-0007, 0010, 0011 and 0015-0017 |
| `SchemaSession.Session.RunScript` | outrena-backend/alembic/versions/0005_user_capabilities.py:118-268 | running a script statement by statement, each behind its test, ends as the specification says, error or not |
| `SchemaSession.Session.DropEach` | outrena-backend/alembic/versions/0007_gdpr_compliance.py:377-396 | the downgrade loops that drop each object if it is there |
| `SchemaSession.Session.DropTables` | outrena-backend/alembic/versions/0002_initial_tenant.py:1647-1671 | the loop over the tables in reverse order |
| `SchemaSession.Session.RenameTimestamps` | outrena-backend/alembic/versions/0015_fix_timestamp_columns.py:65-91 | the nested loop of renames does exactly 0015 |
| `FlowTemplates.SeedingIsExact` | outrena-backend/alembic/versions/0012_flow_templates_signals_nav.py:93-120 | after seeding, each template id is there exactly once, every earlier row is where it was, and every new row is a template that was missing |
| `FlowTemplates.SeedingTwice` | outrena-backend/alembic/versions/0012_flow_templates_signals_nav.py:93-120 | seeding again changes nothing |
| `MigrationRunner.SeedFromIff` | outrena-backend/alembic/versions/0012_flow_templates_signals_nav.py:77-120 | 0012 succeeds if and only if every tenant that is not deleted has the table, and then touches only those tables' rows |
| `MigrationRunner.RegisterAcmeIff` | outrena-backend/alembic/versions/0014_seed_dev_tenant.py:46-56 | 0014 fails exactly on a schema name taken under another slug, and otherwise adds the row once |
| `MigrationRunner.MigrateIff` | outrena-backend/alembic/env.py:206-232 | the pending migrations of one schema get through if and only if 0004, 0012 and 0014 find what they need; then the schema is at head and no other schema's structure differs |
| `ModeBRuns.PassIsExact` | outrena-backend/alembic/env.py:206-236 | one pass either fails and leaves the database alone, exactly when that condition fails, or brings its schema to head and changes no other schema's structure |
| `ModeBRuns.ModeBIff` | outrena-backend/alembic/env.py:239-261 | a Mode B run succeeds if and only if a condition checkable beforehand holds, and then public, every live tenant and the tenant 0014 registers are at head and all else is unchanged but for 0012's rows and CampaignMetric's where 0010 had still to run |
| `ModeBRuns.SecondRunDoesNothing` | outrena-backend/alembic/env.py:239-261 | a second run after a successful one changes nothing, in whatever order tenants are listed |
| `ModeBRuns.TwoFreshTenantsBlock` | outrena-backend/alembic/versions/0012_flow_templates_signals_nav.py:82-101 | two tenants both waiting for their first migration make every run fail, in every order |
| `ModeBRuns.FirstRun` | outrena-backend/alembic/versions/0014_seed_dev_tenant.py:46-56 | on an empty database the run registers 0014's tenant and migrates it in the same run |
| `ModeBRuns.FlowsWhateverTheOrder` | outrena-backend/alembic/versions/0012_flow_templates_signals_nav.py:77-120 | which rows 0012 adds does not depend on the order of the passes |
| `ModeBRuns.RealChain` | outrena-backend/alembic/env.py:206-232 | migrations 0001 to 0017 satisfy what the runner's theorems assume of a chain |
| `Lifecycle.AlwaysSound` | outrena-backend/alembic/env.py:239-261 | over every sequence of runs, registrations, status changes, schema creations and drops, every schema keeps exactly the structure of its revision |
| `Lifecycle.ReachableModeB` | outrena-backend/alembic/env.py:239-261 | on every reachable database: when Mode B succeeds, what it does, and that it is then done |
| `Lifecycle.StuckIff` | outrena-backend/alembic/versions/0012_flow_templates_signals_nav.py:82-101 | two tenants waiting for their first migration, with a schema each, still wait after any sequence of runs of one schema or all, registrations, status changes, schemas created and dropped, if and only if neither has been soft-deleted |
| `Lifecycle.StuckMeans` | outrena-backend/alembic/env.py:206-261 | while they wait, migrating either on its own fails, and so does every run over all schemas, in every order, if one of the two is to be migrated |
| `Lifecycle.TwoRegistrationsBlock` | outrena-backend/app/services/tenant_provisioning_service.py:80-105 | so two registrations between runs block both tenants, and every run over all schemas while one of them is to be migrated, through all later events short of deleting one |
| `Lifecycle.BlockedFromTheStart` | outrena-backend/app/services/tenant_provisioning_service.py:80-105 | such a database is reached from an empty one by one run and two registrations |
| `Lifecycle.RowGoneForever` | scripts/gdpr-tenant-erasure.py:174-185 | no sequence of events revives a registry row that is marked deleted |
| `Lifecycle.GoneForever` | scripts/gdpr-tenant-erasure.py:168-208 | a tenant whose row is marked deleted, whose schema is gone and shared by no live tenant stays gone through every sequence of events that does not provision that very schema, be it for a tenant whose longer name is cut to it |
| `Postgres.Server.SeedFlowTemplates` | outrena-backend/alembic/versions/0012_flow_templates_signals_nav.py:77-120 | the nested loops do exactly what the seeding specification says, error or not |
| `Postgres.Server.SeedDevTenant` | outrena-backend/alembic/versions/0014_seed_dev_tenant.py:46-56 | the insert with its two constraints |
| `Postgres.Server.DoRunMigrations` | outrena-backend/alembic/env.py:206-231 | one schema in one transaction: all its pending migrations or, on an error, nothing |
| `Postgres.Server.ListActiveTenantSchemas` | outrena-backend/alembic/env.py:133-156 | exactly the schema names of tenants that are active or provisioning and not deleted, each once |
| `Postgres.Server.RunMigrationsOnline` | outrena-backend/alembic/env.py:239-261 | public first, then the loop over the tenants listed after it: exactly Mode B, with committed passes kept and the failing one rolled back |
| `Postgres.Server.WipeTransaction` | scripts/gdpr-tenant-erasure.py:97-166 | steps 1 to 4: the new state and the summary, with a commit that rolls back once a statement has failed |
| `Postgres.Server.RunErasure` | scripts/gdpr-tenant-erasure.py:74-212 | the whole script, cut off after any number of its commits, ends in the specified state |
| `Erasure.LooseDeletesIff` | scripts/gdpr-tenant-erasure.py:127-164 | step 4 leaves its transaction usable if and only if every DELETE succeeds; one failure aborts it, however many are caught |
| `Erasure.WipeIff` | scripts/gdpr-tenant-erasure.py:97-166 | steps 1 to 4 persist all or nothing: all exactly when every statement succeeds |
| `Erasure.WipePersistsIff` | scripts/gdpr-tenant-erasure.py:97-166 | they persist if and only if the schema is at revision 7, 8 or 9 and no DELETE is refused; from 0010 on never, because CampaignMetric is gone |
| `ErasureSummary.SummaryTruthfulIff` | scripts/gdpr-tenant-erasure.py:97-166 | every deletion in the summary names the rows that were there; they are gone after the commit if and only if there were none or every statement worked, which is so exactly if the summary shows nothing skipped |
| `ErasureSummary.SummaryOverstates` | scripts/gdpr-tenant-erasure.py:127-166 | from revision 10 on, whatever is refused: which of the fifty DELETEs of step 4 are reported and which skipped, while nothing at all is deleted |
| `ErasureSummary.OverstatedAfterFirstRun` | scripts/gdpr-tenant-erasure.py:127-166 | for 0014's tenant right after the first run the templates of 0012 are reported as deleted and are all still there |
| `Erasure.CrashPoints` | scripts/gdpr-tenant-erasure.py:74-212 | at every crash point, for every pattern of failing deletes: a newly set deleted_at implies the schema is gone and exactly one TENANT_ERASE row was added, no other schema and no other tenant's row differs, and an end in steps 0 to 3 changes nothing |
| `Erasure.NeighbourSurvivesIff` | scripts/gdpr-tenant-erasure.py:168-171 | another tenant's schema survives the drop if and only if the two slugs do not agree on their first 56 characters |
| `Erasure.NeighbourLosesItsSchema` | scripts/gdpr-tenant-erasure.py:168-171 | reached from an empty database: erasing the tenant with 57 times a drops the schema of the one with 56 times a |
| `Erasure.CompletesIff` | scripts/gdpr-tenant-erasure.py:74-212 | from revision 10 on a script that is not cut off completes if and only if the tenant is there and none of the four strict deletes is refused |
| `Erasure.CrashPointsAtHead` | scripts/gdpr-tenant-erasure.py:168-208 | at head only three states can be left: untouched, schema dropped, or complete |
| `Erasure.ErasedForever` | scripts/gdpr-tenant-erasure.py:168-208 | after a completed erasure no later events bring back a live row, nor the schema unless a tenant sharing it is there or it is provisioned again |
| `Erasure.SchemaReturnsIff` | scripts/gdpr-tenant-erasure.py:168-185 | after the drop, crashed or complete, the next successful Mode B run builds the schema again, empty, if and only if a tenant to be migrated leads to it: the erased one itself unless it was suspended or is marked deleted, or one sharing its schema |
| `TenantNaming.SchemaNamesCollideIff` | outrena-backend/app/utils/slug.py:43-45 | exactly which slugs share a schema name: those equal up to hyphen and underscore |
| `TenantNaming.SchemaNameInjective` | scripts/gdpr-tenant-erasure.py:57-71 | slugs the pattern accepts, even with the final newline it lets through, never share a schema |
| `TenantNaming.SchemaNameLegal` | scripts/verify_schema_health.py:68 | the schema name of a valid slug is a legal identifier of 10 to 70 characters |
| `TenantNaming.KeptNamesCollideIff` | outrena-backend/app/utils/slug.py:12-45 | cut to the 63 bytes PostgreSQL keeps, the schema names of any two slugs are equal if and only if the slugs are equal up to hyphen and underscore or both have at least 56 characters and agree so on the first 56 |
| `TenantNaming.SlugsShareSchemaIff` | outrena-backend/app/utils/slug.py:12-45 | for slugs the pattern accepts, of any lengths: one schema if and only if the slugs are the same or both have at least 56 characters and the same first 56 |
| `TenantNaming.ShortSlugsKeepApart` | outrena-backend/app/utils/slug.py:12-45 | a slug of at most 55 characters shares its schema with no other |
| `TenantNaming.LongSlugsCollide` | outrena-backend/app/utils/slug.py:12-45 | 56 and 57 times a are two valid slugs with one schema |
| `CacheKeys.TenantKeysDisjoint` | outrena-backend/app/core/cache.py:31-39 | keys of different tenants never coincide, whatever the segments |
| `CacheKeys.JoinInjective` | outrena-backend/app/core/cache.py:31-44 | keys tell their segments apart as long as none contains a colon |
| `CacheKeys.PlatformKeyIsTenantKeyIff` | outrena-backend/app/core/cache.py:42-44 | a platform key is a tenant key exactly when it spells that schema first |
| `CacheKeys.ScanMeetsTenantKeyIff` | outrena-backend/app/core/cache.py:60-70 | the prefix scan meets a key of a tenant if and only if it is that tenant's and has at least one segment |
| `CacheKeys.Cache.InvalidateTenant` | outrena-backend/app/core/cache.py:60-70 | the loop deletes exactly the keys with the tenant's prefix |
| `CacheKeys.InvalidationCountIff` | outrena-backend/app/core/cache.py:66-70 | the count returned is the number of entries removed if and only if the scan repeats none |
| `Base36.Encode` | outrena-backend/app/models/base.py:33-42 | repeated division yields the digits of n |
| `Base36.RoundTrip` | outrena-backend/app/models/base.py:33-42 | decoding inverts encoding from 1 on, 0 is encoded as 26 would be, and no code begins with digit 0 |
| `Base36.RoundTripBack` | outrena-backend/app/models/base.py:33-42 | every digit string that does not begin with digit 0 is the code of its value |
| `Base36.LengthIsLeast` | outrena-backend/app/models/base.py:33-42 | the code has the least length whose strings reach n |
| `Base36.CountersCollideIff` | outrena-backend/app/models/base.py:56-60 | two counters are written alike exactly when their difference is 26 in each place one pads and the other does not |
| `Base36.NearCountersDiffer` | outrena-backend/app/models/base.py:56-60 | counters from 1 less than 936 apart are never written alike |
| `Base36.FarCountersCanCollide` | outrena-backend/app/models/base.py:56-60 | 936 apart can be: 1 and 937 |
| `Base36.WindowCollidesIff` | outrena-backend/app/models/base.py:56-60 | among fewer than 936 counters in a row, around the wrap too, only 0 and 26 are written alike |
| `Base36.CuidLengthIff` | outrena-backend/app/models/base.py:45-62 | an identifier has 29 characters exactly from 36^7 to 36^8 milliseconds; the docstring says 24 |
| `Base36.IdsInARow` | outrena-backend/app/models/base.py:45-62 | two identifiers fewer than 936 calls apart are equal only with the same millisecond, the same random part and counters 0 and 26 |
| `Base36.CuidGenerator.Generate` | outrena-backend/app/models/base.py:55-62 | one call moves the counter by one, around the wrap, and returns the identifier for it |
| `JsonText.LoadsShrinks` | outrena-backend/app/schemas/flow_run.py:386-393 | a text that decodes to a string has at least two characters more (section 7 of RFC 8259) |
| `JsonRoundTrip.BodyReads` | outrena-backend/app/schemas/flow_run.py:386-389 | a written string reads back with its surrogate pairs joined |
| `JsonRoundTrip.StringComesBackIff` | outrena-backend/app/schemas/flow_run.py:386-389 | a string comes back exactly when no high surrogate stands before a low one |
| `JsonRoundTrip.LoadsDumps` | outrena-backend/app/schemas/flow_run.py:386-389 | reading what was written gives back every value of dictionaries, lists, strings, numbers and constants |
| `CoerceLayers.CoerceWith` | outrena-backend/app/schemas/flow_run.py:379-411 | the bounded loop, for any decoding that never gives its own input back: the wanted value under at most five layers, and the input otherwise |
| `CoerceLayers.Coerce` | outrena-backend/app/schemas/flow_run.py:362-411 | with json.loads as the decoding |
| `CoerceLayers.NoProgressNeverHappens` | outrena-backend/app/schemas/flow_run.py:390-391 | the test for a decode without progress never holds |
| `CoerceLayers.CoercedLayers` | outrena-backend/app/schemas/flow_run.py:362-411 | a dictionary or list under zero to five layers, each encoded in any way, comes out; under six or more the text is returned as it was |
| `CoerceLayers.CoercedIff` | outrena-backend/app/schemas/flow_run.py:362-411 | for every input: the result is v of the wanted kind if and only if v stands under at most five layers, and otherwise the input |
| `CoerceLayers.CoercingTwice` | outrena-backend/app/schemas/flow_run.py:362-411 | coercing the result again changes nothing |
| `CoerceLayers.CoercedDumps` | outrena-backend/app/schemas/flow_run.py:362-411 | the same for layers as json.dumps writes them, for every dictionary and list and every number of layers |
| `CoerceLayers.CapMatters` | outrena-backend/app/schemas/flow_run.py:379-393 | without the cap the loop would end too, and agrees with a cap of half the text's length |
| `SessionPool.StatementsStayHome` | outrena-backend/app/api/deps.py:20-35 | in every interleaving of any sessions over any reused connections with any leftover paths: each statement before a session's first commit or rollback resolves along its own schema and public; later ones along a path some session set or that was left over |
| `SessionPool.UncachedIsDirect` | outrena-backend/app/core/database.py:126-157 | with the statement cache off each statement reaches what its name resolves to under its connection's current path |
| `SessionPool.CachedPlansMixTenants` | outrena-backend/app/core/database.py:126-157 | with plans cached by text a two-tenant run breaks this: a tenant's first statement reaches the other's table |
| `SessionPool.LateStatementIff` | outrena-backend/app/api/deps.py:20-35 | over every run, for every statement: it reaches what its own tenant's path would reach if and only if the session that set the path in force has the same schema or neither of the two schemas has the table; with a path left over from before, if and only if that path meets the tenant's table, or public's for want of one, first |
| `SessionPool.LateStatementsStray` | outrena-backend/app/api/deps.py:20-35 | and a concrete run in which it reaches the other tenant's table |
| `SessionPool.RollbackLeavesNoTrace` | outrena-backend/app/api/deps.py:31-35 | a session that sets its path, executes any statements and rolls back leaves every connection as it found it |
| `SessionPool.Pool.GetDb` | outrena-backend/app/api/deps.py:20-35 | the dependency's checkout and SET leave the session locked to its own path |
| `Admission.PayloadToToken` | outrena-backend/app/api/security.py:381-440 | which token a payload becomes: the role is named by its own claim, else by the first known realm role, else by the first known role of the top-level list, in any case; the slug is the tenant_slug claim |
| `Admission.TokenIs` | outrena-backend/app/api/security.py:381-440 | the same of the specification, in both directions |
| `Admission.TokenIff` | outrena-backend/app/api/security.py:381-440 | exactly which payloads become tokens; a misspelt own role claim is not rescued by the lists |
| `Admission.AdmittedIff` | outrena-backend/app/middleware/tenant_middleware.py:236-346 | exactly which requests of a tenant's user get in: the identified tenant is live, active, and letter for letter the one the verified token names |
| `Admission.CapitalsLockOut` | outrena-backend/app/middleware/tenant_middleware.py:263-300 | a user whose token spells the slug with a capital is admitted nowhere, since the request's slug is put into lower case |
| `Admission.AdmittedWorksAtHome` | outrena-backend/app/api/security.py:463-500 | an admitted user's session gets the registry's schema for the token's tenant, never the public one |
| `Admission.AdmittedShareIff` | outrena-backend/app/api/security.py:463-500 | admitted users of different tenants work in one schema if and only if the slugs agree on the first 56 characters |
| `Admission.AdmittedStatementsStayHome` | outrena-backend/app/api/deps.py:20-35 | from token to table, whatever else runs on the pool: statements before the first commit or rollback reach the schema of the token's own tenant or public, and another tenant's schema if and only if the slugs agree on the first 56 characters and that one schema has the table |
| `Admission.ErasedNeverResolves` | outrena-backend/app/middleware/tenant_middleware.py:303-346 | after a completed erasure no request is resolved to the erased tenant, whatever happens |
| `PosthogSingleton.OneClientForAll` | outrena-backend/app/core/posthog_client.py:238-253 | in every interleaving of any number of calls the client is built successfully at most once, nobody gets None and all get the stored one |
| `PosthogSingleton.ClientIsFinal` | outrena-backend/app/core/posthog_client.py:238-253 | once stored the client is never replaced |
| `PosthogSingleton.NeverStuck` | outrena-backend/app/core/posthog_client.py:248-252 | while a call is unfinished some thread can move, also after a construction has raised |
| `PosthogSingleton.RaisedIff` | outrena-backend/app/core/posthog_client.py:238-253 | over every interleaving a call has raised if and only if it was the one constructing at a step at which the settings could not be read |
| `PosthogSingleton.ReadableNeverRaises` | outrena-backend/app/core/posthog_client.py:238-253 | while the settings can be read no call raises, whatever the SDK does |
| `PosthogSingleton.OneRaisesOneReturns` | outrena-backend/app/core/posthog_client.py:238-253 | a run in which the first call raises and the second, after it, gets the client |
| `MetricsLabels.MetricsAddUp` | outrena-backend/app/middleware/metrics_middleware.py:74-118 | over every run of overlapping requests: at most 257 endpoint labels, the gauge is the number in flight, the counts add up to the requests finished less those whose recording failed |
| `MetricsLabels.OneLabelPerEndpoint` | outrena-backend/app/middleware/metrics_middleware.py:100-106 | an endpoint is recorded under one label for the life of the process |
| `MetricsLabels.Metrics.Enter` | outrena-backend/app/middleware/metrics_middleware.py:74-95 | the part before the handler: the gauge goes up and the request is in flight |
| `MetricsLabels.Metrics.Leave` | outrena-backend/app/middleware/metrics_middleware.py:96-118 | the finally block, also when recording fails half-way |
| `EnvFile.ParseEnvFile` | scripts/audit_env.py:142-170 | the loop yields the last-wins map and the keys in order |
| `EnvFile.LastLineWins` | scripts/audit_env.py:142-170 | the last line that sets a key decides its value |
| `EnvFile.QuotedReadsBack` | scripts/audit_env.py:155-168 | any value between double quotes reads back verbatim |
| `EnvFile.BareReadsBackIff` | scripts/audit_env.py:155-168 | exactly which values read back without quotes |
| `EnvFile.AuditDuplicates` | scripts/audit_env.py:173-189 | the audit fails if and only if some key is set twice, that is, if the map has fewer entries than there are keys |

## Left out

- Catalogue0002.Tables0002Ordered: of 0002's columns only those with a foreign key or an enum type, those a later migration reads, and all of CampaignMetric's are written out, and none of its indexes; the theorems over catalogues hold for every list of columns and indexes.
- ChainStates.TenantAdvance: column types, defaults, nullability, column order, unique constraints inside a table's definition and the contents of seed tables (0003, 0006, 0008, 0009) are not part of a structure; a seeding statement only requires its tables.
- Ddl.ExecKeepsWellFormed: index names are kept per table, while PostgreSQL keeps them per schema.
- ColumnRenames.RenamesBackIff: modelled on a map of objects, so what PostgreSQL does in place to a renamed column is not captured.
- MigrationReplay.ReplayChangesNothing: 0001 and 0013 create tables without a test and are not replayed.
- MigrationRunner.MigrateIff: a pass over a schema name longer than 63 bytes is modelled as one over the name PostgreSQL keeps; what Alembic's version lookup and the migrations' existence tests find when they ask the catalog for the longer name depends on the driver and is not part of this model.
- ModeBRuns.ModeBIff: one runner at a time; two concurrent runs are not modelled. ORDER BY schema_name is not fixed to a collation, since the result holds for every order.
- CoerceLayers.CoerceWith: the decoding is a parameter of the loop; the source calls json.loads in place.
- FlowTemplates.SeedingIsExact: template bodies and the two timestamps of a row are one constant.
- Lifecycle.GoneForever: hard deletion of registry rows happens only in the downgrade of 0014, which is not among the events.
- Erasure.CrashPoints: step 1 blanks whole rows instead of the listed columns, and rows already anonymised are not skipped; the schema drop is one step.
- CacheKeys.ScanMeetsTenantKeyIff: Redis patterns with brackets are not modelled; no legal schema name contains one.
- Admission.AdmittedIff: letter case is changed for ASCII letters only, signature checks and the development bypass are left out, and a list of roles that is not a list counts as empty.
- SessionPool.StatementsStayHome: the pool's limits, pre-ping and sessions that set another path themselves are not modelled.
- JsonRoundTrip.LoadsDumps: numbers are kept as spelled, the limit of 4300 digits for an integer is Python's default, and the recursion limit of the parser is not modelled.
- Base36.CuidGenerator.Generate: the lock is not modelled; a call is one step.
- PosthogSingleton.OneClientForAll: modelled on values, as a state machine over interleaved steps, because its subject is the order of steps of several threads.
- MetricsLabels.MetricsAddUp: how an endpoint is found for a request is not modelled.
- EnvFile.ParseEnvFile: splitting the file into lines is not modelled.
- Migration downgrades of 0003, 0004, 0006, 0012 and 0014, and the offline mode of the runner.
- RBAC permission resolution beyond the role and tenant checks, audit and exception middleware, the terraform checks, and all feature services.
