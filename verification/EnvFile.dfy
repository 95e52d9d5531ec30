/** Reading a .env file line by line, and finding keys that are set more than once. */
module EnvFile {
  import opened Wrappers

  /** What Python's strip and its patterns take for white space. */
  predicate White(c: char) {
    var n := c as int;
    || 0x09 <= n <= 0x0D || 0x1C <= n <= 0x20 || n == 0x85 || n == 0xA0 || n == 0x1680 || 0x2000 <= n <= 0x200A
    || n == 0x2028 || n == 0x2029 || n == 0x202F || n == 0x205F || n == 0x3000
  }

  function TrimLeft(s: string): string {
    if s != "" && White(s[0]) then TrimLeft(s[1..]) else s
  }

  function TrimRight(s: string): string {
    if s != "" && White(s[|s| - 1]) then TrimRight(s[..|s| - 1]) else s
  }

  function Trim(s: string): string {
    TrimRight(TrimLeft(s))
  }

  predicate Trimmed(s: string) {
    s == "" || (!White(s[0]) && !White(s[|s| - 1]))
  }

  predicate KeyStart(c: char) {
    'a' <= c <= 'z' || 'A' <= c <= 'Z' || c == '_'
  }

  predicate KeyChar(c: char) {
    KeyStart(c) || '0' <= c <= '9'
  }

  predicate IsKey(s: string) {
    s != "" && KeyStart(s[0]) && forall k | 0 <= k < |s| :: KeyChar(s[k])
  }

  function KeyRun(s: string): (n: nat)
    ensures n <= |s| && (forall k | 0 <= k < n :: KeyChar(s[k])) && (n < |s| ==> !KeyChar(s[n]))
  {
    if s != "" && KeyChar(s[0]) then 1 + KeyRun(s[1..]) else 0
  }

  datatype Binding = Binding(key: string, value: string)

  /** `key = rest of the line` */
  function Bind(s: string): Option<Binding> {
    var n := KeyRun(s);
    if n == 0 || !KeyStart(s[0]) then None
    else
      var t := TrimLeft(s[n..]);
      if t == "" || t[0] != '=' then None else Some(Binding(s[..n], TrimLeft(t[1..])))
  }

  const EXPORT: string := "export"

  /** With an `export ` in front if that way the line matches, else without. */
  function Match(line: string): Option<Binding> {
    if |line| > 6 && line[..6] == EXPORT && White(line[6]) && Bind(TrimLeft(line[6..])).Some?
    then Bind(TrimLeft(line[6..]))
    else Bind(line)
  }

  predicate Quote(c: char) {
    c == '\'' || c == '"'
  }

  /** The part before the first " #". */
  function BeforeComment(s: string): string {
    if |s| < 2 then s
    else if s[0] == ' ' && s[1] == '#' then ""
    else [s[0]] + BeforeComment(s[1..])
  }

  predicate HasComment(s: string) {
    exists k | 0 <= k < |s| - 1 :: s[k] == ' ' && s[k + 1] == '#'
  }

  function Uncommented(value: string): string {
    if value != "" && !Quote(value[0]) && HasComment(value) then TrimRight(BeforeComment(value)) else value
  }

  function Unwrapped(value: string): string {
    if |value| >= 2 && value[0] == value[|value| - 1] && Quote(value[0]) then value[1..|value| - 1] else value
  }

  /** What one line sets, if anything. */
  function ParseLine(raw: string): Option<Binding> {
    var line := Trim(raw);
    if line == "" || line[0] == '#' then None
    else
      match Match(line)
      case None => None
      case Some(b) => Some(Binding(b.key, Unwrapped(Uncommented(Trim(b.value)))))
  }

  // ---- What can be written so that it reads back ---------------------------

  lemma {:induction false} TrimmedStays(s: string)
    requires Trimmed(s)
    ensures Trim(s) == s
  {
  }

  lemma {:induction false} TrimRightEnds(s: string)
    ensures TrimRight(s) == "" || !White(TrimRight(s)[|TrimRight(s)| - 1])
    ensures TrimRight(s) <= s
    ensures s == "" || White(s[|s| - 1]) ==> |TrimRight(s)| < |s| || s == ""
    decreases |s|
  {
    if s != "" && White(s[|s| - 1]) {
      TrimRightEnds(s[..|s| - 1]);
    }
  }

  lemma {:induction false} TrimLeftShortens(s: string)
    ensures |TrimLeft(s)| <= |s|
    ensures s != "" && White(s[0]) ==> |TrimLeft(s)| < |s|
  {
    if s != "" && White(s[0]) {
      TrimLeftShortens(s[1..]);
    }
  }

  lemma {:induction false} KeyRunOf(key: string, rest: string)
    requires (forall k | 0 <= k < |key| :: KeyChar(key[k])) && (rest == "" || !KeyChar(rest[0]))
    ensures KeyRun(key + rest) == |key|
  {
    if key == "" {
      assert key + rest == rest;
    } else {
      assert (key + rest)[1..] == key[1..] + rest;
      KeyRunOf(key[1..], rest);
    }
  }

  lemma BindOf(key: string, value: string)
    requires IsKey(key)
    ensures Bind(key + ("=" + value)) == Some(Binding(key, TrimLeft(value)))
  {
    var s := key + ("=" + value);
    KeyRunOf(key, "=" + value);
    assert s[0] == key[0] && s[..|key|] == key && s[|key|..] == "=" + value;
    assert ("=" + value)[1..] == value;
  }

  /** `export` in front needs white space after it, which neither a key nor "=" is. */
  lemma NotExported(key: string, rest: string)
    requires IsKey(key)
    ensures var s := key + ("=" + rest); !(|s| > 6 && s[..6] == EXPORT && White(s[6]))
  {
    var s := key + ("=" + rest);
    assert forall k | 0 <= k <= |key| :: s[k] == (if k < |key| then key[k] else '=');
    assert |s| > 6 && s[..6] == EXPORT ==> forall k | 0 <= k < 6 :: s[k] == EXPORT[k];
    assert forall k | 0 <= k < 6 :: EXPORT[k] != '=';
    assert s[|key|] == '=';
    assert |key| >= 6 ==> !White(s[6]);
  }

  lemma MatchOf(key: string, value: string)
    requires IsKey(key)
    ensures Match(key + ("=" + value)) == Some(Binding(key, TrimLeft(value)))
  {
    BindOf(key, value);
    NotExported(key, value);
  }

  lemma {:induction false} TrimRightOver(a: string, value: string)
    requires a != "" && !White(a[|a| - 1])
    ensures TrimRight(a + value) == a + TrimRight(value)
    decreases |value|
  {
    if value == "" {
      assert a + value == a;
    } else {
      assert (a + value)[..|a + value| - 1] == a + value[..|value| - 1];
      if White(value[|value| - 1]) {
        TrimRightOver(a, value[..|value| - 1]);
      }
    }
  }

  lemma Regroup(a: string, b: string, c: string)
    ensures (a + b) + c == a + (b + c)
  {
  }

  lemma TrimOf(key: string, value: string)
    requires IsKey(key)
    ensures Trim(key + ("=" + value)) == key + ("=" + TrimRight(value))
  {
    var raw := key + ("=" + value);
    assert raw[0] == key[0];
    Regroup(key, "=", value);
    Regroup(key, "=", TrimRight(value));
    TrimRightOver(key + "=", value);
  }

  /** A line `key=value` sets the key to what the value's own treatment leaves of it. */
  lemma LineOf(key: string, value: string)
    requires IsKey(key)
    ensures ParseLine(key + ("=" + value)) == Some(Binding(key, Unwrapped(Uncommented(Trim(TrimRight(value))))))
  {
    TrimOf(key, value);
    MatchOf(key, TrimRight(value));
    TrimLeftTwice(TrimRight(value));
    assert (key + ("=" + TrimRight(value)))[0] == key[0];
  }

  lemma {:induction false} TrimLeftTwice(s: string)
    ensures TrimLeft(TrimLeft(s)) == TrimLeft(s)
  {
    if s != "" && White(s[0]) {
      TrimLeftTwice(s[1..]);
    }
  }

  /** Any value written between double quotes reads back verbatim. */
  lemma QuotedReadsBack(key: string, v: string)
    requires IsKey(key)
    ensures ParseLine(key + ("=" + ("\"" + v + "\""))) == Some(Binding(key, v))
  {
    var q := "\"" + v + "\"";
    LineOf(key, q);
    assert q[0] == '"' && q[|q| - 1] == '"';
    assert TrimRight(q) == q;
    TrimmedStays(q);
    assert q[1..|q| - 1] == v;
  }

  lemma {:induction false} BeforeCommentShorter(s: string)
    ensures |BeforeComment(s)| <= |s|
    ensures HasComment(s) ==> |BeforeComment(s)| < |s|
  {
    if |s| >= 2 && !(s[0] == ' ' && s[1] == '#') {
      BeforeCommentShorter(s[1..]);
      if HasComment(s) {
        var k :| 0 <= k < |s| - 1 && s[k] == ' ' && s[k + 1] == '#';
        assert s[1..][k - 1] == ' ' && s[1..][k] == '#';
      }
    }
  }

  /** What reads back when written without quotes. */
  predicate Bare(v: string) {
    && Trimmed(v)
    && (v != "" && !Quote(v[0]) ==> !HasComment(v))
    && !(|v| >= 2 && v[0] == v[|v| - 1] && Quote(v[0]))
  }

  lemma TreatmentShortens(v: string)
    ensures |Unwrapped(Uncommented(v))| <= |Uncommented(v)| <= |v|
    ensures Unwrapped(Uncommented(v)) == v <==>
              (v != "" && !Quote(v[0]) ==> !HasComment(v)) && !(|v| >= 2 && v[0] == v[|v| - 1] && Quote(v[0]))
  {
    BeforeCommentShorter(v);
    TrimRightEnds(BeforeComment(v));
  }

  /** Without quotes a value reads back exactly when it has no white space around it, no " #" in it
      unless it begins with a quote, and no pair of quotes around it. */
  lemma BareReadsBackIff(key: string, v: string)
    requires IsKey(key)
    ensures ParseLine(key + ("=" + v)) == Some(Binding(key, v)) <==> Bare(v)
  {
    LineOf(key, v);
    TrimRightEnds(v);
    TrimLeftShortens(TrimRight(v));
    TrimRightEnds(TrimLeft(TrimRight(v)));
    TreatmentShortens(Trim(TrimRight(v)));
    if Trimmed(v) {
      assert TrimRight(v) == v;
      TrimmedStays(v);
    } else if v != "" && !White(v[|v| - 1]) {
      assert TrimRight(v) == v;
    }
  }

  // ---- The whole file ------------------------------------------------------

  /** The keys in source order. */
  function Keys(lines: seq<string>): seq<string> {
    if lines == [] then []
    else
      var b := ParseLine(lines[|lines| - 1]);
      Keys(lines[..|lines| - 1]) + (if b.Some? then [b.value.key] else [])
  }

  /** What the runtime sees. */
  function Env(lines: seq<string>): map<string, string> {
    if lines == [] then map[]
    else
      var b := ParseLine(lines[|lines| - 1]);
      var before := Env(lines[..|lines| - 1]);
      if b.Some? then before[b.value.key := b.value.value] else before
  }

  method ParseEnvFile(lines: seq<string>) returns (env: map<string, string>, ordered: seq<string>)
    ensures env == Env(lines) && ordered == Keys(lines)
  {
    env, ordered := map[], [];
    var n := 0;
    while n < |lines|
      invariant n <= |lines| && env == Env(lines[..n]) && ordered == Keys(lines[..n])
    {
      assert lines[..n + 1][..n] == lines[..n];
      var b := ParseLine(lines[n]);
      if b.Some? {
        env := env[b.value.key := b.value.value];
        ordered := ordered + [b.value.key];
      }
      n := n + 1;
    }
    assert lines[..n] == lines;
  }

  /** The last line that sets a key wins. */
  lemma {:induction false} LastLineWins(lines: seq<string>, n: nat)
    requires n < |lines| && ParseLine(lines[n]).Some?
    requires forall j | n < j < |lines| && ParseLine(lines[j]).Some? :: ParseLine(lines[j]).value.key != ParseLine(lines[n]).value.key
    ensures var b := ParseLine(lines[n]).value;
            b.key in Env(lines) && Env(lines)[b.key] == b.value
  {
    var front := lines[..|lines| - 1];
    if n < |lines| - 1 {
      assert front[n] == lines[n];
      LastLineWins(front, n);
    }
  }

  lemma {:induction false} EnvKeys(lines: seq<string>)
    ensures forall k :: k in Env(lines) <==> k in Keys(lines)
    ensures |Env(lines)| <= |Keys(lines)|
    ensures |Env(lines)| == |Keys(lines)| <==> forall i, j | 0 <= i < j < |Keys(lines)| :: Keys(lines)[i] != Keys(lines)[j]
  {
    if lines != [] {
      var front := lines[..|lines| - 1];
      EnvKeys(front);
      var b := ParseLine(lines[|lines| - 1]);
      if b.Some? {
        KeyAdded(Env(front), Keys(front), b.value.key, b.value.value);
      }
    }
  }

  lemma KeyAdded(env: map<string, string>, keys: seq<string>, k: string, v: string)
    requires forall x :: x in env <==> x in keys
    requires |env| <= |keys|
    requires |env| == |keys| <==> forall i, j | 0 <= i < j < |keys| :: keys[i] != keys[j]
    ensures |env[k := v]| <= |keys + [k]|
    ensures |env[k := v]| == |keys + [k]| <==> forall i, j | 0 <= i < j < |keys + [k]| :: (keys + [k])[i] != (keys + [k])[j]
  {
    var next := keys + [k];
    assert env[k := v].Keys == env.Keys + {k};
    assert |env[k := v]| == |env[k := v].Keys| && |env| == |env.Keys|;
    if k in env {
      assert env.Keys + {k} == env.Keys;
      var i :| 0 <= i < |keys| && keys[i] == k;
      assert next[i] == next[|keys|];
    } else {
      assert |env.Keys + {k}| == |env.Keys| + 1;
      assert forall i | 0 <= i < |keys| :: next[i] == keys[i] && keys[i] != k;
    }
  }

  /** `audit_env_duplicates`: counting the keys. */
  method AuditDuplicates(lines: seq<string>) returns (failed: bool)
    ensures failed <==> exists i, j :: 0 <= i < j < |Keys(lines)| && Keys(lines)[i] == Keys(lines)[j]
    ensures failed <==> |Env(lines)| < |Keys(lines)|
  {
    var env, ordered := ParseEnvFile(lines);
    EnvKeys(lines);
    var counted: set<string> := {};
    failed := false;
    var n := 0;
    while n < |ordered|
      invariant n <= |ordered| && counted == set k | 0 <= k < n :: ordered[k]
      invariant failed <==> exists i, j :: 0 <= i < j < n && ordered[i] == ordered[j]
    {
      if ordered[n] in counted {
        failed := true;
      }
      counted := counted + {ordered[n]};
      n := n + 1;
    }
  }
}
