/** Undoing an unknown number of JSON string encodings around a dictionary or a list. */
module CoerceLayers {
  import opened Wrappers
  import opened JsonText
  import opened JsonRoundTrip

  datatype Kind = Dict | List

  predicate Is(v: Json, kind: Kind) {
    if kind == Dict then v.Obj? else v.Arr?
  }

  /** What is under one layer of encoding, if it is a layer. */
  function Decode(v: Json): Option<Json> {
    if !v.Str? || Loads(v.s).Err? then None else Some(Loads(v.s).value)
  }

  type Decoder = Json -> Option<Json>

  /** The wanted value under at most `n` layers that `decode` takes off. */
  function Under(decode: Decoder, v: Json, kind: Kind, n: nat): Option<Json>
    decreases n
  {
    if Is(v, kind) then Some(v)
    else if n == 0 || decode(v).None? then None
    else Under(decode, decode(v).value, kind, n - 1)
  }

  const CAP: nat := 5

  function CoercedBy(decode: Decoder, v: Json, kind: Kind, n: nat): Json {
    var r := Under(decode, v, kind, n);
    if r.Some? then r.value else v
  }

  function Coerced(v: Json, kind: Kind): Json {
    CoercedBy(Decode, v, kind, CAP)
  }

  /** Only strings are layers, and taking one off never gives the same string back. */
  ghost predicate Proper(decode: Decoder) {
    forall v :: decode(v).Some? ==> v.Str? && decode(v).value != v
  }

  /** The loop, with the decoding it uses as a parameter. The test for a decode that makes no progress
      is there, and `Proper` says that it never holds. */
  method CoerceWith(decode: Decoder, v: Json, kind: Kind) returns (r: Json)
    requires Proper(decode)
    ensures r == CoercedBy(decode, v, kind, CAP)
  {
    var seen := v;
    var n := 0;
    while n < CAP
      invariant n <= CAP
      invariant Under(decode, seen, kind, CAP - n) == Under(decode, v, kind, CAP)
    {
      if Is(seen, kind) {
        return seen;
      }
      if !seen.Str? {
        return v;
      }
      var parsed := decode(seen);
      if parsed.None? || parsed.value == seen {
        return v;
      }
      seen := parsed.value;
      n := n + 1;
    }
    r := if Is(seen, kind) then seen else v;
  }

  /** `_coerce_dict`, and `_coerce_list` with the other kind. */
  method Coerce(v: Json, kind: Kind) returns (r: Json)
    ensures r == Coerced(v, kind)
  {
    DecodeIsProper();
    r := CoerceWith(Decode, v, kind);
  }

  lemma DecodeIsProper()
    ensures Proper(Decode)
  {
    forall v ensures Decode(v).Some? ==> v.Str? && Decode(v).value != v {
      if v.Str? {
        NoProgressNeverHappens(v.s);
      }
    }
  }

  /** Decoding never gives back the text it started from. */
  lemma NoProgressNeverHappens(s: Text)
    ensures Loads(s) != Ok(Str(s))
  {
    if Loads(s).Ok? && Loads(s).value.Str? {
      LoadsShrinks(s);
    }
  }

  // ---- Layers --------------------------------------------------------------

  /** `t` is `v` under exactly `k` layers that `decode` takes off. */
  predicate LayeredBy(decode: Decoder, t: Json, v: Json, k: nat)
    decreases k
  {
    if k == 0 then t == v else decode(t).Some? && LayeredBy(decode, decode(t).value, v, k - 1)
  }

  /** `t` is `v` under exactly `k` layers of JSON encoding, each written in any way that decodes. */
  predicate Layered(t: Json, v: Json, k: nat) {
    LayeredBy(Decode, t, v, k)
  }

  lemma {:induction false} UnderLayers(decode: Decoder, t: Json, v: Json, k: nat, kind: Kind, n: nat)
    requires Proper(decode) && LayeredBy(decode, t, v, k) && Is(v, kind)
    ensures Under(decode, t, kind, n) == if k <= n then Some(v) else None
    decreases k
  {
    if k > 0 && n > 0 {
      UnderLayers(decode, decode(t).value, v, k - 1, kind, n - 1);
    }
  }

  lemma {:induction false} UnderIsLayered(decode: Decoder, t: Json, kind: Kind, n: nat)
    requires Under(decode, t, kind, n).Some?
    ensures exists k | 0 <= k <= n :: LayeredBy(decode, t, Under(decode, t, kind, n).value, k)
    ensures Is(Under(decode, t, kind, n).value, kind)
    decreases n
  {
    if Is(t, kind) {
      assert LayeredBy(decode, t, t, 0);
    } else {
      var x := decode(t).value;
      UnderIsLayered(decode, x, kind, n - 1);
      var k :| 0 <= k <= n - 1 && LayeredBy(decode, x, Under(decode, x, kind, n - 1).value, k);
      assert LayeredBy(decode, t, Under(decode, t, kind, n).value, k + 1);
    }
  }

  lemma UnderIff(decode: Decoder, t: Json, kind: Kind, n: nat, v: Json)
    requires Proper(decode)
    ensures Under(decode, t, kind, n) == Some(v) <==> Is(v, kind) && exists k | 0 <= k <= n :: LayeredBy(decode, t, v, k)
  {
    if Under(decode, t, kind, n).Some? {
      UnderIsLayered(decode, t, kind, n);
    }
    if Is(v, kind) && exists k | 0 <= k <= n :: LayeredBy(decode, t, v, k) {
      var k :| 0 <= k <= n && LayeredBy(decode, t, v, k);
      UnderLayers(decode, t, v, k, kind, n);
    }
  }

  /** A dictionary or list under zero to five layers comes out; under six or more the text comes back
      as it was. */
  lemma CoercedLayers(t: Json, v: Json, k: nat, kind: Kind)
    requires Layered(t, v, k) && Is(v, kind)
    ensures Coerced(t, kind) == if k <= 5 then v else t
  {
    DecodeIsProper();
    UnderLayers(Decode, t, v, k, kind, CAP);
  }

  lemma CoercedByIff(decode: Decoder, t: Json, kind: Kind, n: nat, v: Json)
    requires Proper(decode) && Is(v, kind)
    ensures CoercedBy(decode, t, kind, n) == v <==> exists k | 0 <= k <= n :: LayeredBy(decode, t, v, k)
    ensures !Is(CoercedBy(decode, t, kind, n), kind) ==> CoercedBy(decode, t, kind, n) == t
    ensures CoercedBy(decode, CoercedBy(decode, t, kind, n), kind, n) == CoercedBy(decode, t, kind, n)
  {
    UnderIff(decode, t, kind, n, v);
    if Under(decode, t, kind, n).Some? {
      UnderIsLayered(decode, t, kind, n);
    }
  }

  /** For every input: the result is `v`, of the wanted kind, exactly when `v` is under at most five
      layers; if there is no such value the result is the input. */
  lemma CoercedIff(t: Json, kind: Kind, v: Json)
    requires Is(v, kind)
    ensures Coerced(t, kind) == v <==> exists k | 0 <= k <= 5 :: LayeredBy(Decode, t, v, k)
    ensures !Is(Coerced(t, kind), kind) ==> Coerced(t, kind) == t
  {
    DecodeIsProper();
    CoercedByIff(Decode, t, kind, CAP, v);
  }

  lemma CoercingTwice(t: Json, kind: Kind)
    ensures Coerced(Coerced(t, kind), kind) == Coerced(t, kind)
  {
    DecodeIsProper();
    CoercedByIff(Decode, t, kind, CAP, if kind == Dict then Obj([]) else Arr([]));
  }

  // ---- Layers as json.dumps writes them ------------------------------------

  lemma {:induction false} BodyIsAscii(s: Text)
    requires CodePoints(s)
    ensures forall k | 0 <= k < |Body(s)| :: 32 <= Body(s)[k] <= 126
  {
    if s != [] {
      BodyIsAscii(s[1..]);
      EscapeIsAscii(s[0]);
    }
  }

  predicate Ascii(s: Text) {
    forall k | 0 <= k < |s| :: s[k] < 0x80
  }

  lemma EscapeIsAscii(c: nat)
    requires c < 0x110000
    ensures forall k | 0 <= k < |EscapeChar(c)| :: 32 <= EscapeChar(c)[k] <= 126
  {
  }

  /** `k` times json.dumps. */
  function Wrapped(v: Json, k: nat): (r: Json)
    requires Clean(v)
    ensures Clean(r)
  {
    if k == 0 then v
    else
      var t := Dumps(Wrapped(v, k - 1));
      DumpsIsText(Wrapped(v, k - 1));
      Str(t)
  }

  lemma DumpsIsText(v: Json)
    requires Clean(v)
    ensures Ascii(Dumps(v)) && CodePoints(Dumps(v)) && NoPairs(Dumps(v))
  {
    DumpsIsAscii(v);
  }

  lemma {:induction false} DigitsAscii(l: Text)
    requires Lexeme(l)
    ensures Ascii(l)
  {
    var i := IntLength(l);
    var f := FractionLength(l[i..]);
    forall k | 0 <= k < |l| ensures l[k] < 0x80 {
      if k < i {
        assert k > 0 ==> Digit(l[(if l[0] == MINUS then 1 else 0)..][k - (if l[0] == MINUS then 1 else 0)]);
      }
    }
  }

  lemma Enclosed(t: Text, a: nat, b: nat)
    requires Ascii(t) && a < 0x80 && b < 0x80
    ensures Ascii([a] + t + [b])
  {
  }

  lemma {:induction false} DumpsIsAscii(v: Json)
    requires Clean(v)
    ensures Ascii(Dumps(v))
    decreases v, 0
  {
    match v
    case Constant(w) =>
    case Number(l) => DigitsAscii(l);
    case Str(s) => BodyIsAscii(s); Enclosed(Body(s), QUOTE, QUOTE);
    case Arr(items) => ItemsAscii(v, 0); Enclosed(DumpItems(v, 0), OPEN_BRACKET, CLOSE_BRACKET);
    case Obj(fields) => FieldsAscii(v, 0); Enclosed(DumpFields(v, 0), OPEN_BRACE, CLOSE_BRACE);
  }

  lemma {:induction false} ItemsAscii(v: Json, k: nat)
    requires Clean(v) && v.Arr? && k <= |v.items|
    ensures Ascii(DumpItems(v, k))
    decreases v, 0, |v.items| - k
  {
    if k < |v.items| {
      DumpsIsAscii(v.items[k]);
      if k + 1 < |v.items| { ItemsAscii(v, k + 1); }
    }
  }

  lemma {:induction false} FieldsAscii(v: Json, k: nat)
    requires Clean(v) && v.Obj? && k <= |v.fields|
    ensures Ascii(DumpFields(v, k))
    decreases v, 0, |v.fields| - k
  {
    if k < |v.fields| {
      BodyIsAscii(v.fields[k].0);
      DumpsIsAscii(v.fields[k].1);
      if k + 1 < |v.fields| { FieldsAscii(v, k + 1); }
    }
  }

  lemma LayerOn(t: Json, inner: Json, v: Json, k: nat)
    requires t.Str? && Loads(t.s) == Ok(inner) && Layered(inner, v, k)
    ensures Layered(t, v, k + 1)
  {
  }

  lemma WrappedUnfolds(v: Json, k: nat)
    requires Clean(v)
    ensures Wrapped(v, k + 1).Str? && Loads(Wrapped(v, k + 1).s) == Ok(Wrapped(v, k))
  {
    LoadsDumps(Wrapped(v, k));
  }

  lemma WrappedOnward(v: Json, k: nat)
    requires Clean(v) && Layered(Wrapped(v, k), v, k)
    ensures Layered(Wrapped(v, k + 1), v, k + 1)
  {
    WrappedUnfolds(v, k);
    LayerOn(Wrapped(v, k + 1), Wrapped(v, k), v, k);
  }

  lemma WrappedZero(v: Json)
    requires Clean(v)
    ensures Layered(Wrapped(v, 0), v, 0)
  {
  }

  lemma WrappedIsLayered(v: Json, k: nat)
    requires Clean(v)
    ensures Layered(Wrapped(v, k), v, k)
  {
    var p := (j: int) => j >= 0 && Layered(Wrapped(v, j), v, j);
    WrappedZero(v);
    forall j | j >= 0 && p(j) ensures p(j + 1) {
      WrappedOnward(v, j);
    }
    FromZero(p, k);
  }

  /** `_coerce_dict(dumps(...dumps(d)...))` for every dictionary `d` and any number of layers. */
  lemma CoercedDumps(d: Json, k: nat, kind: Kind)
    requires Clean(d) && Is(d, kind)
    ensures Coerced(Wrapped(d, k), kind) == if k <= 5 then d else Wrapped(d, k)
  {
    WrappedIsLayered(d, k);
    CoercedLayers(Wrapped(d, k), d, k, kind);
  }

  // ---- Without the cap -----------------------------------------------------

  /** The loop without its cap ends, because every decode to a string shortens it. */
  function Uncapped(v: Json, kind: Kind): Option<Json>
    decreases if v.Str? then |v.s| + 1 else 0
  {
    if Is(v, kind) then Some(v)
    else if !v.Str? || Loads(v.s).Err? then None
    else
      var x := Loads(v.s).value;
      StringsShrink(v.s);
      Uncapped(x, kind)
  }

  lemma StringsShrink(s: Text)
    ensures Loads(s).Ok? && Loads(s).value.Str? ==> |Loads(s).value.s| + 2 <= |s|
  {
    if Loads(s).Ok? && Loads(s).value.Str? {
      LoadsShrinks(s);
    }
  }

  /** The cap makes a difference only for values under more than five layers; a cap of half the text's
      length would make none. */
  lemma {:induction false} CapMatters(v: Json, kind: Kind, n: nat)
    requires v.Str? ==> 2 * n >= |v.s|
    ensures Under(Decode, v, kind, n + 1) == Uncapped(v, kind)
    decreases n
  {
    if !Is(v, kind) && v.Str? && Loads(v.s).Ok? {
      StringsShrink(v.s);
      var x := Loads(v.s).value;
      if n > 0 {
        CapMatters(x, kind, n - 1);
      }
    }
  }
}
