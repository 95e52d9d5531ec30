/** One PostgreSQL database: its schemas, by the names it keeps, the tenant registry and the audit log. */
module Databases {
  import opened SchemaNames
  import opened Ddl
  import opened FlowTemplates
  import opened TenantNaming

  datatype Status = PROVISIONING | ACTIVE | SUSPENDED

  /** A row of public.tenants; `deleted` is `deleted_at IS NOT NULL`. */
  datatype Tenant = Tenant(slug: string, schema: string, status: Status, deleted: bool)

  /** `rev` is the schema's own alembic_version; 0 when there is none. */
  datatype SchemaState = SchemaState(objs: Structure, rev: nat, data: map<Table, Rows>)

  datatype AuditRow = AuditRow(slug: string, action: string)

  datatype Database = Database(schemas: map<string, SchemaState>, tenants: seq<Tenant>, audit: seq<AuditRow>)

  function RowsOf(st: SchemaState, t: Table): Rows {
    if t in st.data then st.data[t] else []
  }

  function EmptySchema(): SchemaState {
    SchemaState(map[], 0, map[])
  }

  /** The revision of a schema; 0 also when it does not exist. */
  function Rev(db: Database, name: string): nat {
    if name in db.schemas then db.schemas[name].rev else 0
  }

  function PublicTables(db: Database): set<Table> {
    if PUBLIC in db.schemas then set o | o in db.schemas[PUBLIC].objs && o.Tab? :: o.t else {}
  }

  /** The schema a row's name leads to in any statement: what PostgreSQL keeps of it. */
  function Home(t: Tenant): string {
    Kept(t.schema)
  }

  /** Some tenant that is not deleted has this schema. */
  predicate LiveSchema(rows: seq<Tenant>, name: string) {
    exists k | 0 <= k < |rows| :: !rows[k].deleted && Home(rows[k]) == name
  }

  predicate SlugTaken(rows: seq<Tenant>, slug: string) {
    exists k | 0 <= k < |rows| :: rows[k].slug == slug
  }

  predicate SchemaTaken(rows: seq<Tenant>, name: string) {
    exists k | 0 <= k < |rows| :: rows[k].schema == name
  }

  /** The two unique constraints on public.tenants; the second is on the whole name. */
  predicate UniqueTenants(rows: seq<Tenant>) {
    forall j, k | 0 <= j < k < |rows| :: rows[j].slug != rows[k].slug && rows[j].schema != rows[k].schema
  }

  /** ACTIVE or PROVISIONING, and not deleted. */
  predicate Migratable(t: Tenant) {
    !t.deleted && (t.status == ACTIVE || t.status == PROVISIONING)
  }

  predicate ToMigrate(rows: seq<Tenant>, name: string) {
    exists k | 0 <= k < |rows| :: Migratable(rows[k]) && Home(rows[k]) == name
  }
}
