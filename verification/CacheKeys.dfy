/** Cache keys per tenant, and deleting one tenant's entries by a prefix scan. */
module CacheKeys {
  import opened Wrappers
  import opened TenantNaming

  function Join(parts: seq<string>): string {
    if parts == [] then ""
    else if |parts| == 1 then parts[0]
    else parts[0] + ":" + Join(parts[1..])
  }

  datatype KeyError = EmptySchemaName

  function TenantKey(schema: string, segments: seq<string>): Result<string, KeyError> {
    if schema == "" then Err(EmptySchemaName) else Ok(Join([schema] + segments))
  }

  function PlatformKey(segments: seq<string>): string {
    Join(segments)
  }

  predicate ColonFree(s: string) {
    ':' !in s
  }

  predicate AllColonFree(parts: seq<string>) {
    forall k | 0 <= k < |parts| :: ColonFree(parts[k])
  }

  predicate HasPrefix(s: string, p: string) {
    |p| <= |s| && s[..|p|] == p
  }

  // ---- Keys of different tenants -------------------------------------------

  lemma TenantKeyShape(schema: string, segments: seq<string>)
    requires schema != ""
    ensures segments == [] ==> TenantKey(schema, segments) == Ok(schema)
    ensures segments != [] ==> TenantKey(schema, segments) == Ok(schema + ":" + Join(segments))
  {
    assert ([schema] + segments)[1..] == segments;
  }

  /** The place of the first colon; the length if there is none. */
  function FirstColon(s: string): (n: nat)
    ensures n <= |s|
  {
    if s == "" || s[0] == ':' then 0 else 1 + FirstColon(s[1..])
  }

  lemma {:induction false} FirstColonAfter(a: string, x: string)
    requires ColonFree(a)
    ensures FirstColon(a) == |a| && FirstColon(a + ":" + x) == |a|
  {
    if a != "" {
      assert a[0] in a;
      assert (a + ":" + x)[1..] == a[1..] + ":" + x;
      FirstColonAfter(a[1..], x);
    }
  }

  lemma ColonSplits(a: string, b: string, x: string, y: string)
    requires ColonFree(a) && ColonFree(b) && a + ":" + x == b + ":" + y
    ensures a == b && x == y
  {
    var l, r := a + ":" + x, b + ":" + y;
    FirstColonAfter(a, x);
    FirstColonAfter(b, y);
    assert l[..|a|] == a && r[..|b|] == b;
    assert l[|a| + 1..] == x && r[|b| + 1..] == y;
  }

  lemma LegalIsColonFree(name: string)
    requires LegalName(name)
    ensures ColonFree(name)
  {
    forall c | c in name ensures c != ':' {
      var k :| 0 <= k < |name| && name[k] == c;
      assert NameChar(name[k]);
    }
  }

  /** Everything up to the first colon of a tenant's key is its schema name. */
  lemma KeyStartsWithSchema(schema: string, segments: seq<string>)
    requires schema != "" && ColonFree(schema)
    ensures var key := TenantKey(schema, segments).value;
            |schema| <= |key| && key[..|schema|] == schema && FirstColon(key) == |schema|
            && (segments == [] <==> |key| == |schema|)
  {
    TenantKeyShape(schema, segments);
    FirstColonAfter(schema, Join(segments));
  }

  /** Whatever the segments hold, two tenants never share a key. */
  lemma TenantKeysDisjoint(a: string, b: string, xs: seq<string>, ys: seq<string>)
    requires LegalName(a) && LegalName(b) && TenantKey(a, xs) == TenantKey(b, ys)
    ensures a == b
  {
    LegalIsColonFree(a);
    LegalIsColonFree(b);
    KeyStartsWithSchema(a, xs);
    KeyStartsWithSchema(b, ys);
  }

  lemma JoinStarts(xs: seq<string>)
    requires AllColonFree(xs) && xs != []
    ensures FirstColon(Join(xs)) == |xs[0]| <= |Join(xs)| && Join(xs)[..|xs[0]|] == xs[0]
    ensures |xs| == 1 <==> |Join(xs)| == |xs[0]|
    ensures |xs| > 1 ==> Join(xs) == xs[0] + ":" + Join(xs[1..])
  {
    assert ColonFree(xs[0]);
    FirstColonAfter(xs[0], Join(xs[1..]));
  }

  /** Keys tell their segments apart as long as no segment contains a colon. */
  lemma {:induction false} JoinInjective(xs: seq<string>, ys: seq<string>)
    requires AllColonFree(xs) && AllColonFree(ys) && xs != [] && ys != [] && Join(xs) == Join(ys)
    ensures xs == ys
    decreases |xs|
  {
    JoinStarts(xs);
    JoinStarts(ys);
    assert xs[0] == ys[0];
    if |xs| > 1 {
      ColonSplits(xs[0], ys[0], Join(xs[1..]), Join(ys[1..]));
      JoinInjective(xs[1..], ys[1..]);
    }
    assert xs == [xs[0]] + xs[1..] && ys == [ys[0]] + ys[1..];
  }

  /** A platform key is a tenant's key exactly when it spells that tenant's schema first. */
  lemma PlatformKeyIsTenantKeyIff(schema: string, xs: seq<string>, ps: seq<string>)
    requires LegalName(schema) && AllColonFree(xs) && AllColonFree(ps) && ps != []
    ensures TenantKey(schema, xs) == Ok(PlatformKey(ps)) <==> ps == [schema] + xs
  {
    LegalIsColonFree(schema);
    if TenantKey(schema, xs) == Ok(PlatformKey(ps)) {
      JoinInjective([schema] + xs, ps);
    }
  }

  // ---- The scan ------------------------------------------------------------

  /** Redis glob matching for patterns without brackets. */
  predicate Glob(p: string, s: string)
    decreases |p|, |s|
  {
    if p == "" then s == ""
    else if p[0] == '*' then Glob(p[1..], s) || (s != "" && Glob(p, s[1..]))
    else if p[0] == '\\' && |p| > 1 then s != "" && s[0] == p[1] && Glob(p[2..], s[1..])
    else s != "" && (p[0] == '?' || s[0] == p[0]) && Glob(p[1..], s[1..])
  }

  predicate Literal(p: string) {
    forall c | c in p :: c != '*' && c != '?' && c != '[' && c != '\\'
  }

  lemma {:induction false} StarMatchesAll(s: string)
    ensures Glob("*", s)
    decreases |s|
  {
    if s == "" {
      assert Glob("", "");
    } else {
      StarMatchesAll(s[1..]);
    }
  }

  lemma {:induction false} GlobPrefix(p: string, s: string)
    requires Literal(p)
    ensures Glob(p + "*", s) <==> HasPrefix(s, p)
    decreases |p|
  {
    if p == "" {
      assert p + "*" == "*";
      StarMatchesAll(s);
    } else {
      assert (p + "*")[0] == p[0] && (p + "*")[1..] == p[1..] + "*";
      assert p[0] in p && forall c | c in p[1..] :: c in p;
      if s != "" {
        GlobPrefix(p[1..], s[1..]);
        assert HasPrefix(s, p) <==> s[0] == p[0] && HasPrefix(s[1..], p[1..]) by {
          if HasPrefix(s, p) {
            assert s[1..][..|p| - 1] == s[..|p|][1..];
          }
          if s[0] == p[0] && HasPrefix(s[1..], p[1..]) {
            assert s[..|p|] == [s[0]] + s[1..][..|p| - 1];
          }
        }
      }
    }
  }

  function Pattern(schema: string): string {
    schema + ":*"
  }

  lemma PatternMatches(schema: string, key: string)
    requires LegalName(schema)
    ensures Glob(Pattern(schema), key) <==> HasPrefix(key, schema + ":")
  {
    assert forall c | c in schema :: NameChar(c);
    assert Pattern(schema) == (schema + ":") + "*";
    GlobPrefix(schema + ":", key);
  }

  /** The scan meets a tenant's key exactly when it has at least one segment. */
  lemma ScanMeetsTenantKeyIff(schema: string, tenant: string, segments: seq<string>)
    requires LegalName(schema) && LegalName(tenant)
    ensures Glob(Pattern(schema), TenantKey(tenant, segments).value) <==> tenant == schema && segments != []
  {
    var key := TenantKey(tenant, segments).value;
    TenantKeyShape(tenant, segments);
    PatternMatches(schema, key);
    LegalIsColonFree(schema);
    LegalIsColonFree(tenant);
    KeyStartsWithSchema(tenant, segments);
    if HasPrefix(key, schema + ":") {
      var rest := key[|schema| + 1..];
      assert key == key[..|schema| + 1] + rest;
      FirstColonAfter(schema, rest);
      assert key == schema + ":" + rest;
    }
    if tenant == schema && segments != [] {
      assert key[..|schema| + 1] == schema + ":";
    }
  }

  // ---- Invalidation --------------------------------------------------------

  /** A Redis scan for `pattern`: every matching key at least once, in any order, perhaps again. */
  ghost predicate Scans(visited: seq<string>, pattern: string, keys: set<string>) {
    forall k :: k in visited <==> k in keys && Glob(pattern, k)
  }

  function Distinct(visited: seq<string>): set<string> {
    set k | k in visited
  }

  class Cache {
    var store: map<string, string>

    /** Deletes what the scan visits and counts visits. */
    method InvalidateTenant(schema: string, visited: seq<string>) returns (deleted: nat)
      requires LegalName(schema) && Scans(visited, Pattern(schema), store.Keys)
      modifies this
      ensures store == map k | k in old(store) && !HasPrefix(k, schema + ":") :: old(store)[k]
      ensures deleted == |visited|
    {
      deleted := 0;
      while deleted < |visited|
        invariant deleted <= |visited|
        invariant store == map k | k in old(store) && k !in visited[..deleted] :: old(store)[k]
      {
        store := store - {visited[deleted]};
        assert visited[..deleted + 1] == visited[..deleted] + [visited[deleted]];
        deleted := deleted + 1;
      }
      assert visited[..deleted] == visited;
      forall k | k in old(store) ensures k in visited <==> HasPrefix(k, schema + ":") {
        PatternMatches(schema, k);
      }
    }
  }

  lemma {:induction false} DistinctCount(visited: seq<string>)
    ensures |Distinct(visited)| <= |visited|
    ensures |Distinct(visited)| == |visited| <==> forall i, j | 0 <= i < j < |visited| :: visited[i] != visited[j]
    decreases |visited|
  {
    if visited != [] {
      var rest, last := visited[..|visited| - 1], visited[|visited| - 1];
      DistinctCount(rest);
      assert visited == rest + [last];
      assert Distinct(visited) == Distinct(rest) + {last};
      if last in rest {
        var i :| 0 <= i < |rest| && rest[i] == last;
        assert visited[i] == visited[|visited| - 1];
        assert Distinct(visited) == Distinct(rest);
      } else {
        assert forall i | 0 <= i < |rest| :: visited[i] != last;
        assert (forall i, j | 0 <= i < j < |rest| :: rest[i] != rest[j]) ==>
               forall i, j | 0 <= i < j < |visited| :: visited[i] != visited[j];
        if |Distinct(rest)| != |rest| {
          var i, j :| 0 <= i < j < |rest| && rest[i] == rest[j];
          assert visited[i] == visited[j];
        }
      }
    }
  }

  /** The count returned is the number of entries removed exactly when the scan repeats none. */
  lemma InvalidationCountIff(schema: string, visited: seq<string>, keys: set<string>)
    requires Scans(visited, Pattern(schema), keys)
    ensures |visited| == |set k | k in keys && Glob(Pattern(schema), k)| <==>
            forall i, j | 0 <= i < j < |visited| :: visited[i] != visited[j]
  {
    assert Distinct(visited) == set k | k in keys && Glob(Pattern(schema), k);
    DistinctCount(visited);
  }
}
