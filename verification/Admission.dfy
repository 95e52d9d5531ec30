/** Which requests get in, for which tenant, and along which schema their session then works. */
module Admission {
  import opened Wrappers
  import opened SchemaNames
  import opened TenantNaming
  import opened Databases
  import opened MigrationRunner
  import opened ModeBRuns
  import opened Lifecycle
  import opened Erasure
  import SessionPool

  // ---- Text ----------------------------------------------------------------

  function LowerChar(c: char): char {
    if 'A' <= c <= 'Z' then (c as int + 32) as char else c
  }

  function UpperChar(c: char): char {
    if 'a' <= c <= 'z' then (c as int - 32) as char else c
  }

  function Lower(s: string): (r: string)
    ensures |r| == |s|
  {
    seq(|s|, k requires 0 <= k < |s| => LowerChar(s[k]))
  }

  function Upper(s: string): (r: string)
    ensures |r| == |s|
  {
    seq(|s|, k requires 0 <= k < |s| => UpperChar(s[k]))
  }

  predicate EndsWith(s: string, suffix: string) {
    |suffix| <= |s| && s[|s| - |suffix|..] == suffix
  }

  function UpTo(s: string, c: char): string {
    if s == "" || s[0] == c then "" else [s[0]] + UpTo(s[1..], c)
  }

  // ---- Claims and tokens ---------------------------------------------------

  /** A claim's value; numbers, booleans and null make no difference here. */
  datatype Claim = Words(s: string) | Many(items: seq<Claim>) | Fields(m: map<string, Claim>) | Nothing

  type Claims = map<string, Claim>

  datatype Role = REP | MANAGER | TENANT_ADMIN | SUPER_ADMIN

  function Rank(r: Role): nat {
    match r
    case REP => 10
    case MANAGER => 20
    case TENANT_ADMIN => 30
    case SUPER_ADMIN => 40
  }

  function RoleName(r: Role): string {
    match r
    case REP => "REP"
    case MANAGER => "MANAGER"
    case TENANT_ADMIN => "TENANT_ADMIN"
    case SUPER_ADMIN => "SUPER_ADMIN"
  }

  function RoleNamed(s: string): Option<Role> {
    if s == "REP" then Some(REP)
    else if s == "MANAGER" then Some(MANAGER)
    else if s == "TENANT_ADMIN" then Some(TENANT_ADMIN)
    else if s == "SUPER_ADMIN" then Some(SUPER_ADMIN)
    else None
  }

  datatype Token = Token(role: Role, slug: Option<string>)

  datatype Http = BadRequest | Unauthorized | Forbidden | NotFound

  predicate Known(s: string) {
    exists r: Role :: Lower(s) == Lower(RoleName(r))
  }

  function FirstKnown(items: seq<Claim>): Option<string> {
    if items == [] then None
    else if items[0].Words? && Known(items[0].s) then Some(items[0].s)
    else FirstKnown(items[1..])
  }

  function ItemsOf(c: Claim): seq<Claim> {
    if c.Many? then c.items else []
  }

  function Get(claims: Claims, name: string): Claim {
    if name in claims then claims[name] else Nothing
  }

  function RealmRoles(claims: Claims): seq<Claim> {
    var access := Get(claims, "realm_access");
    if access.Fields? then ItemsOf(Get(access.m, "roles")) else []
  }

  /** The role a payload asks for: its own claim, else the first known realm role, else the first
      known one of the top-level list. */
  function RawRole(claims: Claims): Option<string> {
    var own := Get(claims, "role");
    if own.Words? && own.s != "" then Some(own.s)
    else
      var realm := FirstKnown(RealmRoles(claims));
      if realm.Some? then realm else FirstKnown(ItemsOf(Get(claims, "roles")))
  }

  function TokenOf(claims: Claims): Result<Token, Http> {
    var raw := RawRole(claims);
    if raw.None? || "sub" !in claims then Err(Unauthorized)
    else
      var role := RoleNamed(Upper(raw.value));
      var slug := Get(claims, "tenant_slug");
      if role.None? then Err(Unauthorized)
      else Ok(Token(role.value, if slug.Words? then Some(slug.s) else None))
  }

  /** `_payload_to_token`, tier by tier. */
  method PayloadToToken(claims: Claims) returns (r: Result<Token, Http>)
    ensures r == TokenOf(claims)
    ensures forall token :: r == Ok(token) <==> IsToken(claims, token)
  {
    forall token ensures TokenOf(claims) == Ok(token) <==> IsToken(claims, token) {
      TokenIs(claims, token);
    }
    var raw := None;
    var own := Get(claims, "role");
    if own.Words? && own.s != "" {
      raw := Some(own.s);
    } else {
      raw := FirstKnown(RealmRoles(claims));
    }
    if raw.None? {
      raw := FirstKnown(ItemsOf(Get(claims, "roles")));
    }
    if raw.None? || "sub" !in claims {
      return Err(Unauthorized);
    }
    var role := RoleNamed(Upper(raw.value));
    if role.None? {
      return Err(Unauthorized);
    }
    var slug := Get(claims, "tenant_slug");
    return Ok(Token(role.value, if slug.Words? then Some(slug.s) else None));
  }

  lemma UpperLower(s: string, t: string)
    requires Lower(s) == Lower(t)
    ensures Upper(s) == Upper(t)
  {
    forall k | 0 <= k < |s| ensures Upper(s)[k] == Upper(t)[k] {
      assert Lower(s)[k] == Lower(t)[k];
    }
  }

  lemma KnownIsNamed(s: string)
    requires Known(s)
    ensures RoleNamed(Upper(s)).Some?
  {
    var r: Role :| Lower(s) == Lower(RoleName(r));
    UpperLower(s, RoleName(r));
    assert Upper(RoleName(r)) == RoleName(r);
  }

  // ---- Which role a token carries ------------------------------------------

  predicate KnownWord(c: Claim) {
    c.Words? && Known(c.s)
  }

  /** `word` stands at place `k` and is the first of the list that is one of the four names in any case. */
  predicate FirstAt(items: seq<Claim>, k: nat, word: string) {
    && k < |items| && KnownWord(items[k]) && items[k].s == word
    && forall j | 0 <= j < k :: !KnownWord(items[j])
  }

  ghost predicate FirstWord(items: seq<Claim>, word: string) {
    exists k: nat :: FirstAt(items, k, word)
  }

  predicate NoneKnown(items: seq<Claim>) {
    forall k | 0 <= k < |items| :: !KnownWord(items[k])
  }

  lemma {:induction false} FirstKnownAt(items: seq<Claim>)
    ensures FirstKnown(items).None? <==> NoneKnown(items)
    ensures forall word :: FirstKnown(items) == Some(word) <==> FirstWord(items, word)
  {
    if items != [] {
      FirstKnownAt(items[1..]);
      assert forall k | 0 < k < |items| :: items[k] == items[1..][k - 1];
      assert forall k | 0 <= k < |items| - 1 :: items[1..][k] == items[k + 1];
      if KnownWord(items[0]) {
        assert FirstAt(items, 0, items[0].s);
      } else {
        forall word ensures FirstWord(items, word) <==> FirstWord(items[1..], word) {
          FirstAtOnward(items, word);
        }
      }
    }
  }

  lemma FirstAtOnward(items: seq<Claim>, word: string)
    requires items != [] && !KnownWord(items[0])
    ensures FirstWord(items, word) <==> FirstWord(items[1..], word)
  {
    if k: nat :| FirstAt(items, k, word) {
      assert FirstAt(items[1..], k - 1, word);
    }
    if k: nat :| FirstAt(items[1..], k, word) {
      assert forall j | 0 < j <= k :: items[j] == items[1..][j - 1];
      assert FirstAt(items, k + 1, word);
    }
  }

  /** The word is the role's name, in any case. */
  predicate Names(word: string, role: Role) {
    Lower(word) == Lower(RoleName(role))
  }

  lemma NamedIff(word: string, role: Role)
    ensures RoleNamed(Upper(word)) == Some(role) <==> Names(word, role)
  {
    var name := RoleName(role);
    assert Upper(name) == name;
    if Names(word, role) {
      UpperLower(word, name);
    }
    if RoleNamed(Upper(word)) == Some(role) {
      assert Upper(word) == name;
      forall k | 0 <= k < |word| ensures Lower(word)[k] == Lower(name)[k] {
        assert Upper(word)[k] == name[k];
      }
    }
  }

  /** The word the payload's role is taken from: its own claim, if it is not empty; else the first known realm
      role; else, if no realm role is known, the first known one of the top-level list. */
  ghost predicate AsksFor(claims: Claims, word: string) {
    var own := Get(claims, "role");
    var realm, top := RealmRoles(claims), ItemsOf(Get(claims, "roles"));
    if own.Words? && own.s != "" then word == own.s
    else if NoneKnown(realm) then FirstWord(top, word)
    else FirstWord(realm, word)
  }

  lemma RawRoleIs(claims: Claims)
    ensures forall word :: RawRole(claims) == Some(word) <==> AsksFor(claims, word)
  {
    FirstKnownAt(RealmRoles(claims));
    FirstKnownAt(ItemsOf(Get(claims, "roles")));
  }

  /** It has a subject; its role is the one named by the word the tiers lead to, so that a misspelt own
      claim is not rescued by the lists; its slug is the tenant_slug claim. */
  ghost predicate IsToken(claims: Claims, token: Token) {
    var slug := Get(claims, "tenant_slug");
    && "sub" in claims && token.slug == (if slug.Words? then Some(slug.s) else None)
    && exists word :: AsksFor(claims, word) && Names(word, token.role)
  }

  /** Exactly which token a payload becomes, if any. */
  lemma TokenIs(claims: Claims, token: Token)
    ensures TokenOf(claims) == Ok(token) <==> IsToken(claims, token)
  {
    RawRoleIs(claims);
    var raw := RawRole(claims);
    if raw.Some? {
      NamedIff(raw.value, token.role);
      assert AsksFor(claims, raw.value);
    }
  }

  /** A payload becomes a token exactly when it has a subject and either names a role itself and the
      name is one of the four in any case, or names none and one of the lists holds one. */
  lemma TokenIff(claims: Claims)
    ensures var own := Get(claims, "role");
            TokenOf(claims).Ok? <==>
              && "sub" in claims
              && if own.Words? && own.s != "" then RoleNamed(Upper(own.s)).Some?
                 else !NoneKnown(RealmRoles(claims)) || !NoneKnown(ItemsOf(Get(claims, "roles")))
  {
    FirstKnownAt(RealmRoles(claims));
    FirstKnownAt(ItemsOf(Get(claims, "roles")));
    RawRoleIs(claims);
    var raw := RawRole(claims);
    if raw.Some? && !(Get(claims, "role").Words? && Get(claims, "role").s != "") {
      assert AsksFor(claims, raw.value);
      KnownIsNamed(raw.value);
    }
  }

  // ---- The middleware ------------------------------------------------------

  /** What identification looks at; `bearer` holds the unverified claims of a well-formed token. */
  datatype Request = Request(exempt: bool, host: string, tenantHeader: string, bearer: Option<Claims>)

  function HostName(req: Request): string {
    Lower(UpTo(req.host, ':'))
  }

  function SlugFromBearer(req: Request): Option<string> {
    match req.bearer
    case None => None
    case Some(claims) =>
      var slug := Get(claims, "tenant_slug");
      if slug.Words? && slug.s != "" then Some(Lower(slug.s)) else None
  }

  function SlugFromHost(req: Request, base: string): Option<string> {
    var host := HostName(req);
    var suffix := "." + Lower(base);
    if !EndsWith(host, suffix) then None
    else
      var candidate := host[..|host| - |suffix|];
      if candidate != "" && '.' !in candidate then Some(candidate) else None
  }

  /** Subdomain first; the header only on localhost; the token's claim last. */
  function ExtractSlug(req: Request, base: string): Option<string> {
    if SlugFromHost(req, base).Some? then SlugFromHost(req, base)
    else if (HostName(req) == "localhost" || HostName(req) == "127.0.0.1") && req.tenantHeader != ""
    then Some(Lower(req.tenantHeader))
    else SlugFromBearer(req)
  }

  predicate HasCapital(s: string) {
    exists k | 0 <= k < |s| :: 'A' <= s[k] <= 'Z'
  }

  lemma LowerHasNone(s: string)
    ensures !HasCapital(Lower(s))
  {
  }

  /** Wherever the slug comes from, it is put into lower case first. */
  lemma ExtractedIsLower(req: Request, base: string)
    requires ExtractSlug(req, base).Some?
    ensures !HasCapital(ExtractSlug(req, base).value)
  {
    LowerHasNone(UpTo(req.host, ':'));
    LowerHasNone(req.tenantHeader);
    if SlugFromHost(req, base).Some? {
      var slug := SlugFromHost(req, base).value;
      assert slug <= HostName(req);
      assert forall k | 0 <= k < |slug| :: slug[k] == HostName(req)[k];
    } else if req.bearer.Some? && Get(req.bearer.value, "tenant_slug").Words? {
      LowerHasNone(Get(req.bearer.value, "tenant_slug").s);
    }
  }

  /** The row with this slug that is not deleted. */
  function Lookup(rows: seq<Tenant>, slug: string): (r: Option<Tenant>)
    ensures r.Some? ==> r.value in rows && r.value.slug == slug && !r.value.deleted
    ensures r.Some? <==> LiveSlug(rows, slug)
  {
    if rows == [] then None
    else if rows[0].slug == slug && !rows[0].deleted then Some(rows[0])
    else
      var r := Lookup(rows[1..], slug);
      assert LiveSlug(rows[1..], slug) <==> LiveSlug(rows, slug) by {
        assert forall k | 0 < k < |rows| :: rows[k] == rows[1..][k - 1];
        assert forall k | 0 <= k < |rows| - 1 :: rows[1..][k] == rows[k + 1];
      }
      r
  }

  function Middleware(rows: seq<Tenant>, req: Request, base: string): Result<Option<Tenant>, Http> {
    if req.exempt then Ok(None)
    else
      var slug := ExtractSlug(req, base);
      if slug.None? || slug.value == "" then Err(BadRequest)
      else
        var t := Lookup(rows, slug.value);
        if t.None? then Err(Http.NotFound)
        else if t.value.status != ACTIVE then Err(Forbidden)
        else Ok(t)
  }

  predicate RoleOk(token: Token, required: Role) {
    Rank(token.role) >= Rank(required)
  }

  predicate TenantOk(token: Token, tenant: Option<Tenant>) {
    token.role == SUPER_ADMIN || (tenant.Some? && token.slug == Some(tenant.value.slug))
  }

  /** `require_role`: authentication, then the role, then the tenant. */
  function Guarded(claims: Claims, tenant: Option<Tenant>, required: Role): Result<Token, Http> {
    var token :- TokenOf(claims);
    if RoleOk(token, required) && TenantOk(token, tenant) then Ok(token) else Err(Forbidden)
  }

  datatype Admitted = Admitted(token: Token, tenant: Option<Tenant>)

  function Admit(rows: seq<Tenant>, req: Request, base: string, claims: Claims, required: Role): Result<Admitted, Http> {
    var tenant :- Middleware(rows, req, base);
    var token :- Guarded(claims, tenant, required);
    Ok(Admitted(token, tenant))
  }

  /** `get_db`'s choice of schema. */
  function SessionSchema(a: Admitted): string {
    if a.tenant.Some? then a.tenant.value.schema else PUBLIC
  }

  /** Exactly which requests of a tenant's user get in: those the middleware identifies as belonging to
      an active, undeleted tenant whose slug is, letter for letter, the one the verified token names. */
  lemma AdmittedIff(rows: seq<Tenant>, req: Request, base: string, claims: Claims, required: Role)
    requires TokenOf(claims).Ok? && TokenOf(claims).value.role != SUPER_ADMIN
    ensures var token := TokenOf(claims).value;
            Admit(rows, req, base, claims, required).Ok? <==>
              && !req.exempt && RoleOk(token, required)
              && token.slug.Some? && token.slug.value != "" && ExtractSlug(req, base) == token.slug
              && LiveSlug(rows, token.slug.value) && Lookup(rows, token.slug.value).value.status == ACTIVE
  {
  }

  /** The slug of the request is compared in lower case, the one of the token as it is: a user whose token
      spells it with a capital gets in nowhere, not even with that token in the request. */
  lemma CapitalsLockOut(rows: seq<Tenant>, req: Request, base: string, claims: Claims, required: Role)
    requires TokenOf(claims).Ok? && TokenOf(claims).value.role != SUPER_ADMIN
    requires TokenOf(claims).value.slug.Some? && HasCapital(TokenOf(claims).value.slug.value)
    ensures Admit(rows, req, base, claims, required).Err?
  {
    AdmittedIff(rows, req, base, claims, required);
    if ExtractSlug(req, base).Some? {
      ExtractedIsLower(req, base);
    }
  }

  /** And their session then works along the schema of the token's own tenant. */
  lemma AdmittedWorksAtHome(db: Database, req: Request, base: string, claims: Claims, required: Role)
    requires Sound(StructureAt, db) && Admit(db.tenants, req, base, claims, required).Ok?
    requires TokenOf(claims).value.role != SUPER_ADMIN
    ensures var a := Admit(db.tenants, req, base, claims, required).value;
            && a.token == TokenOf(claims).value && a.token.slug.Some? && LiveSlug(db.tenants, a.token.slug.value)
            && SessionSchema(a) == SchemaNameFor(a.token.slug.value) && Kept(SessionSchema(a)) != PUBLIC
  {
    var a := Admit(db.tenants, req, base, claims, required).value;
    var k :| 0 <= k < |db.tenants| && db.tenants[k] == a.tenant.value;
    KeptNotPublic(a.token.slug.value);
  }

  /** Two tenants of the registry lead to one schema exactly if their slugs agree on the first 56 characters;
      the registry's own constraint keeps only the whole names apart. */
  lemma TenantsShareIff(db: Database, a: string, b: string)
    requires Sound(StructureAt, db) && LiveSlug(db.tenants, a) && SlugTaken(db.tenants, b) && a != b
    ensures HomeFor(a) == HomeFor(b) <==> AgreeOnRoom(a, b)
  {
    var k :| 0 <= k < |db.tenants| && db.tenants[k].slug == b;
    SharesIff(db, a, k);
    KeptNamesCollideIff(a, b);
    KeptNamesCollideIff(b, a);
    SchemaNamesCollideIff(a, b);
    var j :| 0 <= j < |db.tenants| && db.tenants[j].slug == a && !db.tenants[j].deleted;
    assert j != k;
  }

  /** Two users of different tenants work in the same schema exactly if their tenants' slugs agree on the
      first 56 characters. */
  lemma AdmittedShareIff(db: Database, req: Request, req1: Request, base: string,
                         claims: Claims, claims1: Claims, required: Role)
    requires Sound(StructureAt, db)
    requires Admit(db.tenants, req, base, claims, required).Ok? && Admit(db.tenants, req1, base, claims1, required).Ok?
    requires TokenOf(claims).value.role != SUPER_ADMIN && TokenOf(claims1).value.role != SUPER_ADMIN
    requires TokenOf(claims).value.slug != TokenOf(claims1).value.slug
    ensures TokenOf(claims).value.slug.Some? && TokenOf(claims1).value.slug.Some?
    ensures Kept(SessionSchema(Admit(db.tenants, req, base, claims, required).value)) ==
            Kept(SessionSchema(Admit(db.tenants, req1, base, claims1, required).value)) <==>
            AgreeOnRoom(TokenOf(claims).value.slug.value, TokenOf(claims1).value.slug.value)
  {
    AdmittedWorksAtHome(db, req, base, claims, required);
    AdmittedWorksAtHome(db, req1, base, claims1, required);
    TenantsShareIff(db, TokenOf(claims).value.slug.value, TokenOf(claims1).value.slug.value);
  }

  /** From the token to the table: whatever else runs on the pool, each statement of an admitted user's
      session, up to its first commit or rollback, reaches the schema of the token's own tenant or public; and
      it reaches another tenant's schema exactly if the slugs agree on the first 56 characters and that one
      schema has the table. */
  lemma AdmittedStatementsStayHome(db: Database, req: Request, base: string, claims: Claims, required: Role,
                                   st: SessionPool.State, tables: SessionPool.Tables, steps: seq<SessionPool.Step>, k: nat,
                                   other: string)
    requires Sound(StructureAt, db) && Admit(db.tenants, req, base, claims, required).Ok?
    requires TokenOf(claims).value.role != SUPER_ADMIN
    requires SessionPool.Initial(st) && k < |SessionPool.Run(st, tables, false, steps).log|
    requires var e := SessionPool.Run(st, tables, false, steps).log[k];
             e.phase == SessionPool.LOCKED && e.session < |st.sessions| &&
             st.sessions[e.session].schema == SessionSchema(Admit(db.tenants, req, base, claims, required).value)
    requires SlugTaken(db.tenants, other) && TokenOf(claims).value.slug != Some(other)
    ensures TokenOf(claims).value.slug.Some?
    ensures var e := SessionPool.Run(st, tables, false, steps).log[k];
            var slug := TokenOf(claims).value.slug.value;
            && (e.reached.Some? ==> e.reached.value in {HomeFor(slug), PUBLIC})
            && (SessionPool.Has(tables, HomeFor(slug), e.sql.table) ==> e.reached == Some(HomeFor(slug)))
            && (e.reached == Some(HomeFor(other)) <==>
                  AgreeOnRoom(slug, other) && SessionPool.Has(tables, HomeFor(slug), e.sql.table))
  {
    SessionPool.StatementsStayHome(st, tables, steps, k);
    AdmittedWorksAtHome(db, req, base, claims, required);
    var e := SessionPool.Run(st, tables, false, steps).log[k];
    SessionPool.OwnResolves(tables, st.sessions[e.session].schema, e.sql.table);
    KeptNotPublic(other);
    TenantsShareIff(db, TokenOf(claims).value.slug.value, other);
  }

  /** After a completed erasure, whatever happens, no request is ever resolved to the erased tenant. */
  lemma ErasedNeverResolves(db: Database, slug: string, refused: set<Table>, commits: nat, es: seq<Event>,
                            req: Request, base: string)
    requires Sound(StructureAt, db) && Erase(db, slug, refused, commits).ending == Complete
    requires CanAll(Up, Erase(db, slug, refused, commits).db, es)
    requires !req.exempt && ExtractSlug(req, base) == Some(slug) && slug != ""
    ensures Middleware(After(Up, Erase(db, slug, refused, commits).db, es).tenants, req, base) == Err(Http.NotFound)
  {
    ErasedForever(db, slug, refused, commits, es);
  }
}
