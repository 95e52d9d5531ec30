/** Tenant slugs and the schema names derived from them. */
module TenantNaming {

  predicate LowerAlnum(c: char) {
    'a' <= c <= 'z' || '0' <= c <= '9'
  }

  /** A full match of ^[a-z0-9][a-z0-9-]{1,61}[a-z0-9]$. */
  predicate ValidSlug(s: string) {
    && 3 <= |s| <= 63
    && LowerAlnum(s[0]) && LowerAlnum(s[|s| - 1])
    && forall k | 0 <= k < |s| :: LowerAlnum(s[k]) || s[k] == '-'
  }

  /** What `re.match` with that pattern lets through: `$` also matches before a final newline. */
  predicate AcceptedSlug(s: string) {
    ValidSlug(s) || (|s| > 0 && s[|s| - 1] == '\n' && ValidSlug(s[..|s| - 1]))
  }

  function Replaced(c: char): char {
    if c == '-' then '_' else c
  }

  function Underscored(s: string): (r: string)
    ensures |r| == |s|
    ensures forall k | 0 <= k < |s| :: r[k] == Replaced(s[k])
  {
    seq(|s|, k requires 0 <= k < |s| => Replaced(s[k]))
  }

  const PUBLIC: string := "public"
  const PREFIX: string := "tenant_"

  function SchemaNameFor(slug: string): string {
    PREFIX + Underscored(slug)
  }

  predicate NameStart(c: char) {
    'a' <= c <= 'z' || 'A' <= c <= 'Z' || c == '_'
  }

  predicate NameChar(c: char) {
    NameStart(c) || '0' <= c <= '9'
  }

  /** A full match of ^[A-Za-z_][A-Za-z0-9_]*$. */
  predicate LegalName(s: string) {
    |s| > 0 && NameStart(s[0]) && forall k | 0 <= k < |s| :: NameChar(s[k])
  }

  /** The same up to reading '-' and '_' as one character. */
  predicate SameButDashes(a: string, b: string) {
    |a| == |b| && forall k | 0 <= k < |a| :: Replaced(a[k]) == Replaced(b[k])
  }

  /** Exactly which slugs share a schema. */
  lemma SchemaNamesCollideIff(a: string, b: string)
    ensures SchemaNameFor(a) == SchemaNameFor(b) <==> SameButDashes(a, b)
  {
    var p := |PREFIX|;
    if SchemaNameFor(a) == SchemaNameFor(b) {
      assert |SchemaNameFor(a)| == p + |a|;
      forall k | 0 <= k < |a| ensures Replaced(a[k]) == Replaced(b[k]) {
        assert SchemaNameFor(a)[p + k] == Replaced(a[k]);
        assert SchemaNameFor(b)[p + k] == Replaced(b[k]);
      }
    }
    if SameButDashes(a, b) {
      assert Underscored(a) == Underscored(b);
    }
  }

  predicate NoUnderscore(s: string) {
    forall k | 0 <= k < |s| :: s[k] != '_'
  }

  lemma AcceptedIsPlain(s: string)
    requires AcceptedSlug(s)
    ensures NoUnderscore(s)
  {
    if !ValidSlug(s) {
      assert forall k | 0 <= k < |s| - 1 :: s[..|s| - 1][k] == s[k];
    }
  }

  lemma DashesTellApart(a: string, b: string)
    requires NoUnderscore(a) && NoUnderscore(b)
    ensures SameButDashes(a, b) <==> a == b
  {
  }

  /** Different valid slugs have different schemas, even if one of them ends in the newline the
      pattern lets through. */
  lemma SchemaNameInjective(a: string, b: string)
    requires AcceptedSlug(a) && AcceptedSlug(b) && SchemaNameFor(a) == SchemaNameFor(b)
    ensures a == b
  {
    SchemaNamesCollideIff(a, b);
    AcceptedIsPlain(a);
    AcceptedIsPlain(b);
    DashesTellApart(a, b);
  }

  lemma SchemaNameLegal(slug: string)
    requires ValidSlug(slug)
    ensures LegalName(SchemaNameFor(slug)) && 10 <= |SchemaNameFor(slug)| <= 70
  {
    var r := SchemaNameFor(slug);
    forall k | 0 <= k < |r| ensures NameChar(r[k]) {
      if k >= |PREFIX| {
        assert r[k] == Replaced(slug[k - |PREFIX|]);
      }
    }
  }

  /** No slug's schema is the public one. */
  lemma SchemaNameNotPublic(slug: string)
    ensures SchemaNameFor(slug) != PUBLIC
  {
    assert SchemaNameFor(slug)[0] == 't';
  }

  // ---- PostgreSQL keeps 63 bytes of an identifier --------------------------

  const KEPT: nat := 63

  /** The first 63 of its bytes, which for the characters of a slug are its characters. */
  function Kept(name: string): (r: string)
    ensures |r| <= KEPT && r <= name && (|name| <= KEPT ==> r == name)
  {
    if |name| <= KEPT then name else name[..KEPT]
  }

  /** The schema a tenant's statements reach. */
  function HomeFor(slug: string): string {
    Kept(SchemaNameFor(slug))
  }

  /** How many characters of a slug are left after the prefix. */
  const ROOM: nat := KEPT - |PREFIX|

  predicate AgreeOnRoom(a: string, b: string) {
    |a| >= ROOM && |b| >= ROOM && SameButDashes(a[..ROOM], b[..ROOM])
  }

  /** What is kept of a schema name is the schema name of what is kept of the slug. */
  lemma KeptOfSlug(a: string)
    ensures HomeFor(a) == SchemaNameFor(if |a| <= ROOM then a else a[..ROOM])
  {
    var r := SchemaNameFor(a);
    assert |r| == |PREFIX| + |a|;
    if |a| > ROOM {
      assert Underscored(a)[..ROOM] == Underscored(a[..ROOM]);
      assert r[..KEPT] == PREFIX + Underscored(a)[..ROOM];
    }
  }

  /** Exactly which slugs share a schema in PostgreSQL: those whose schema names are equal, and those of
      at least 56 characters that agree on the first 56, whatever their lengths. */
  lemma KeptNamesCollideIff(a: string, b: string)
    ensures HomeFor(a) == HomeFor(b) <==> SameButDashes(a, b) || AgreeOnRoom(a, b)
  {
    var x, y := if |a| <= ROOM then a else a[..ROOM], if |b| <= ROOM then b else b[..ROOM];
    KeptOfSlug(a);
    KeptOfSlug(b);
    SchemaNamesCollideIff(x, y);
    assert |a| == ROOM ==> a[..ROOM] == a;
    assert |b| == ROOM ==> b[..ROOM] == b;
    if SameButDashes(a, b) && |a| > ROOM {
      assert forall k | 0 <= k < ROOM :: Replaced(a[k]) == Replaced(b[k]);
    }
  }

  lemma PlainNamesCollideIff(a: string, b: string)
    requires NoUnderscore(a) && NoUnderscore(b)
    ensures HomeFor(a) == HomeFor(b) <==>
            a == b || (|a| >= ROOM && |b| >= ROOM && a[..ROOM] == b[..ROOM])
  {
    KeptNamesCollideIff(a, b);
    DashesTellApart(a, b);
    if |a| >= ROOM && |b| >= ROOM {
      DashesTellApart(a[..ROOM], b[..ROOM]);
    }
  }

  /** For the slugs the pattern lets through: only a slug itself, or two of at least 56 characters with
      the same first 56. */
  lemma SlugsShareSchemaIff(a: string, b: string)
    requires AcceptedSlug(a) && AcceptedSlug(b)
    ensures HomeFor(a) == HomeFor(b) <==>
            a == b || (|a| >= ROOM && |b| >= ROOM && a[..ROOM] == b[..ROOM])
  {
    AcceptedIsPlain(a);
    AcceptedIsPlain(b);
    PlainNamesCollideIff(a, b);
  }

  /** Up to 55 characters a slug shares its schema with no other. */
  lemma ShortSlugsKeepApart(a: string, b: string)
    requires AcceptedSlug(a) && AcceptedSlug(b) && |a| < ROOM && a != b
    ensures HomeFor(a) != HomeFor(b)
  {
    SlugsShareSchemaIff(a, b);
  }

  function Repeated(c: char, n: nat): (r: string)
    ensures |r| == n && forall k | 0 <= k < n :: r[k] == c
  {
    seq(n, _ => c)
  }

  /** 56 times "a" and 57 times "a": two valid slugs, two schema names, one schema. */
  lemma LongSlugsCollide()
    ensures var a, b := Repeated('a', 56), Repeated('a', 57);
            && ValidSlug(a) && ValidSlug(b) && SchemaNameFor(a) != SchemaNameFor(b)
            && HomeFor(a) == HomeFor(b)
  {
    var a, b := Repeated('a', 56), Repeated('a', 57);
    assert a[..ROOM] == b[..ROOM];
    SlugsShareSchemaIff(a, b);
    assert |SchemaNameFor(a)| != |SchemaNameFor(b)|;
  }

  /** No slug's schema is the public one, cut or not. */
  lemma KeptNotPublic(slug: string)
    ensures HomeFor(slug) != PUBLIC
  {
    assert SchemaNameFor(slug)[0] == 't' && |SchemaNameFor(slug)| >= |PREFIX|;
    assert HomeFor(slug)[0] == 't';
  }
}
