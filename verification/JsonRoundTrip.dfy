/** Writing JSON text as `json.dumps` does by default, and reading it back. */
module JsonRoundTrip {
  import opened Wrappers
  import opened JsonText

  // ---- Strings -------------------------------------------------------------

  predicate CodePoints(s: Text) {
    forall k | 0 <= k < |s| :: s[k] < 0x110000
  }

  function Escape(u: nat): (r: Text)
    requires u < 0x10000
    ensures |r| == 6 && Unit(r) == Some(u)
  {
    var q := u / 16;
    var p := q / 16;
    [BACKSLASH, LETTER_U, HexChar(p / 16), HexChar(p % 16), HexChar(q % 16), HexChar(u % 16)]
  }

  function HighHalf(c: nat): (u: nat)
    requires 0x10000 <= c < 0x110000
    ensures High(u)
  {
    0xD800 + (c - 0x10000) / 0x400
  }

  function LowHalf(c: nat): (u: nat)
    requires 0x10000 <= c < 0x110000
    ensures Low(u)
  {
    0xDC00 + (c - 0x10000) % 0x400
  }

  function EscapeChar(c: nat): (r: Text)
    requires c < 0x110000
    ensures r != []
  {
    if c == QUOTE || c == BACKSLASH then [BACKSLASH, c]
    else if c == 10 then [BACKSLASH, 110]
    else if c == 13 then [BACKSLASH, 114]
    else if c == 9 then [BACKSLASH, 116]
    else if c == 12 then [BACKSLASH, 102]
    else if c == 8 then [BACKSLASH, 98]
    else if SPACE <= c <= 126 then [c]
    else if c < 0x10000 then Escape(c)
    else Escape(HighHalf(c)) + Escape(LowHalf(c))
  }

  function Body(s: Text): Text
    requires CodePoints(s)
  {
    if s == [] then [] else EscapeChar(s[0]) + Body(s[1..])
  }

  function Quoted(s: Text): Text
    requires CodePoints(s)
  {
    [QUOTE] + Body(s) + [QUOTE]
  }

  /** A high surrogate directly before a low one reads back as the one character they encode. */
  function Joined(s: Text): (r: Text)
    ensures |r| <= |s|
    decreases |s|
  {
    if s == [] then []
    else if |s| > 1 && High(s[0]) && Low(s[1]) then [Combine(s[0], s[1])] + Joined(s[2..])
    else [s[0]] + Joined(s[1..])
  }

  predicate NoPairs(s: Text) {
    forall k | 0 <= k < |s| - 1 :: !(High(s[k]) && Low(s[k + 1]))
  }

  lemma {:induction false} JoinedIsSameIff(s: Text)
    ensures Joined(s) == s <==> NoPairs(s)
    ensures !NoPairs(s) ==> |Joined(s)| < |s|
    decreases |s|
  {
    if |s| > 1 && High(s[0]) && Low(s[1]) {
      assert !NoPairs(s);
    } else if s != [] {
      JoinedIsSameIff(s[1..]);
      assert s == [s[0]] + s[1..];
      if NoPairs(s[1..]) {
        forall k | 0 <= k < |s| - 1 ensures !(High(s[k]) && Low(s[k + 1])) {
          if k > 0 { assert s[1..][k - 1] == s[k] && s[1..][k] == s[k + 1]; }
        }
      } else {
        var k :| 0 <= k < |s[1..]| - 1 && High(s[1..][k]) && Low(s[1..][k + 1]);
        assert High(s[k + 1]) && Low(s[k + 2]);
      }
    }
  }

  lemma UnitThen(u: nat, rest: Text)
    requires u < 0x10000
    ensures Unit(Escape(u) + rest) == Some(u) && (Escape(u) + rest)[6..] == rest
  {
    var t := Escape(u) + rest;
    assert forall k | 0 <= k < 6 :: t[k] == Escape(u)[k];
  }

  /** The three ways a character is written. */
  predicate Plain(c: nat) {
    SPACE <= c <= 126 && c != QUOTE && c != BACKSLASH
  }

  predicate Short(c: nat) {
    c == QUOTE || c == BACKSLASH || c == 10 || c == 13 || c == 9 || c == 12 || c == 8
  }

  lemma HalvesCombine(c: nat)
    requires 0x10000 <= c < 0x110000
    ensures Combine(HighHalf(c), LowHalf(c)) == c
    ensures EscapeChar(c) == Escape(HighHalf(c)) + Escape(LowHalf(c))
  {
  }

  lemma ShortEscape(c: nat)
    requires Short(c)
    ensures EscapeChar(c) == [BACKSLASH, EscapeChar(c)[1]] && EscapeChar(c)[1] != LETTER_U
    ensures Simple(EscapeChar(c)[1]) == Some(c)
  {
  }

  lemma FirstUnit(c: nat, rest: Text)
    requires c < 0x110000
    ensures var next := Unit(EscapeChar(c) + rest);
            (next.Some? && Low(next.value) <==> Low(c)) && (Low(c) ==> next == Some(c))
  {
    if Plain(c) {
      PlainIsNoUnit(c, rest);
    } else if Short(c) {
      ShortIsNoUnit(c, rest);
    } else if c < 0x10000 {
      UnitThen(c, rest);
    } else {
      PairUnit(c, rest);
    }
  }

  lemma PlainIsNoUnit(c: nat, rest: Text)
    requires Plain(c)
    ensures Unit(EscapeChar(c) + rest) == None
  {
    assert (EscapeChar(c) + rest)[0] == c;
  }

  lemma ShortIsNoUnit(c: nat, rest: Text)
    requires Short(c)
    ensures Unit(EscapeChar(c) + rest) == None
  {
    ShortEscape(c);
    assert |EscapeChar(c)| == 2;
    assert (EscapeChar(c) + rest)[1] == EscapeChar(c)[1];
  }

  lemma PairUnit(c: nat, rest: Text)
    requires 0x10000 <= c < 0x110000
    ensures Unit(EscapeChar(c) + rest) == Some(HighHalf(c))
  {
    HalvesCombine(c);
    UnitThen(HighHalf(c), Escape(LowHalf(c)));
    UnitOfPrefix(EscapeChar(c), rest);
  }

  lemma UnitOfPrefix(a: Text, b: Text)
    requires |a| >= 6
    ensures Unit(a + b) == Unit(a)
  {
    assert forall k | 0 <= k < 6 :: (a + b)[k] == a[k];
  }

  /** What a body starts with, seen from a `\u` escape before it. */
  lemma NextUnit(s: Text, rest: Text)
    requires CodePoints(s)
    ensures var next := Unit(Body(s) + ([QUOTE] + rest));
            (next.Some? && Low(next.value) <==> s != [] && Low(s[0])) && (s != [] && Low(s[0]) ==> next == Some(s[0]))
  {
    if s != [] {
      assert Body(s) + ([QUOTE] + rest) == EscapeChar(s[0]) + (Body(s[1..]) + ([QUOTE] + rest));
      FirstUnit(s[0], Body(s[1..]) + ([QUOTE] + rest));
    }
  }

  lemma EscapeReads(u: nat, tail: Text)
    requires u < 0x10000
    ensures OneChar(Escape(u) + tail) ==
            var next := Unit(tail);
            if High(u) && next.Some? && Low(next.value) then Some((Combine(u, next.value), 12)) else Some((u, 6))
  {
    UnitThen(u, tail);
    var t := Escape(u) + tail;
    assert t[0] == BACKSLASH && t[1] == LETTER_U;
    assert Unit(tail).Some? ==> |tail| >= 6;
  }

  lemma DropFirst(a: Text, b: Text)
    ensures (a + b)[|a|..] == b
  {
  }

  /** One written character reads back as itself, unless it is a high surrogate before a low one. */
  lemma CharReads(c: nat, tail: Text)
    requires c < 0x110000 && !(High(c) && Unit(tail).Some? && Low(Unit(tail).value))
    ensures OneChar(EscapeChar(c) + tail) == Some((c, |EscapeChar(c)|))
  {
    if Plain(c) {
      assert (EscapeChar(c) + tail)[0] == c;
    } else if Short(c) {
      ShortReads(c, tail);
    } else if c < 0x10000 {
      EscapeReads(c, tail);
    } else {
      LongReads(c, tail);
    }
  }

  lemma ShortReads(c: nat, tail: Text)
    requires Short(c)
    ensures OneChar(EscapeChar(c) + tail) == Some((c, |EscapeChar(c)|))
  {
    var t := EscapeChar(c) + tail;
    ShortEscape(c);
    assert t[0] == BACKSLASH && t[1] == EscapeChar(c)[1];
  }

  lemma LongReads(c: nat, tail: Text)
    requires 0x10000 <= c < 0x110000
    ensures OneChar(EscapeChar(c) + tail) == Some((c, |EscapeChar(c)|))
  {
    HalvesCombine(c);
    HalvesRead(HighHalf(c), LowHalf(c), tail);
    ThreeParts(Escape(HighHalf(c)), Escape(LowHalf(c)), tail);
  }

  lemma ThreeParts(a: Text, b: Text, c: Text)
    ensures a + b + c == a + (b + c)
  {
  }

  lemma HalvesRead(high: nat, low: nat, tail: Text)
    requires High(high) && Low(low)
    ensures OneChar(Escape(high) + (Escape(low) + tail)) == Some((Combine(high, low), 12))
  {
    UnitThen(low, tail);
    EscapeReads(high, Escape(low) + tail);
  }

  lemma OneCharReads(s: Text, rest: Text)
    requires CodePoints(s) && s != []
    requires !(|s| > 1 && High(s[0]) && Low(s[1]))
    ensures OneChar(Body(s) + ([QUOTE] + rest)) == Some((s[0], |EscapeChar(s[0])|))
    ensures (Body(s) + ([QUOTE] + rest))[|EscapeChar(s[0])|..] == Body(s[1..]) + ([QUOTE] + rest)
  {
    NextUnit(s[1..], rest);
    BodySplits(s, rest);
    CharReads(s[0], Body(s[1..]) + ([QUOTE] + rest));
    DropFirst(EscapeChar(s[0]), Body(s[1..]) + ([QUOTE] + rest));
  }

  lemma BodySplits(s: Text, rest: Text)
    requires CodePoints(s) && s != []
    ensures Body(s) + ([QUOTE] + rest) == EscapeChar(s[0]) + (Body(s[1..]) + ([QUOTE] + rest))
  {
  }

  lemma SurrogateEscape(c: nat)
    requires High(c) || Low(c)
    ensures EscapeChar(c) == Escape(c)
  {
  }

  lemma PairReads(s: Text, rest: Text)
    requires CodePoints(s) && |s| > 1 && High(s[0]) && Low(s[1])
    ensures OneChar(Body(s) + ([QUOTE] + rest)) == Some((Combine(s[0], s[1]), 12))
    ensures (Body(s) + ([QUOTE] + rest))[12..] == Body(s[2..]) + ([QUOTE] + rest)
  {
    var tail := Body(s[2..]) + ([QUOTE] + rest);
    SurrogateEscape(s[0]);
    SurrogateEscape(s[1]);
    assert s[1..][1..] == s[2..] && s[1..][0] == s[1];
    assert Body(s[1..]) == Escape(s[1]) + Body(s[2..]);
    assert Body(s) + ([QUOTE] + rest) == Escape(s[0]) + (Escape(s[1]) + tail);
    HalvesRead(s[0], s[1], tail);
    DropFirst(Escape(s[0]) + Escape(s[1]), tail);
    assert Escape(s[0]) + (Escape(s[1]) + tail) == Escape(s[0]) + Escape(s[1]) + tail;
  }

  /** A written string reads back with its surrogate pairs joined. */
  lemma {:induction false} BodyReads(s: Text, rest: Text)
    requires CodePoints(s)
    ensures ParseBody(Body(s) + ([QUOTE] + rest)) == Some((Joined(s), rest))
    decreases |s|
  {
    var t := Body(s) + ([QUOTE] + rest);
    if s == [] {
      assert t == [QUOTE] + rest;
    } else if |s| > 1 && High(s[0]) && Low(s[1]) {
      PairReads(s, rest);
      BodyReads(s[2..], rest);
    } else {
      OneCharReads(s, rest);
      BodyReads(s[1..], rest);
    }
  }

  // ---- Numbers -------------------------------------------------------------

  /** What can follow a value inside a text that `json.dumps` writes. */
  predicate Delimited(rest: Text) {
    rest == [] || rest[0] == COMMA || rest[0] == CLOSE_BRACKET || rest[0] == CLOSE_BRACE
  }

  /** The spelling of a number Python can hold. */
  predicate Lexeme(l: Text) {
    l != [] && NumberLength(l) == |l| && !TooLong(l)
  }

  lemma {:induction false} DigitRunThen(x: Text, rest: Text)
    requires Delimited(rest)
    ensures DigitRun(x + rest) == DigitRun(x)
  {
    if x == [] {
      assert x + rest == rest;
    } else {
      assert (x + rest)[1..] == x[1..] + rest;
      DigitRunThen(x[1..], rest);
    }
  }

  lemma IntThen(l: Text, rest: Text)
    requires Delimited(rest) && IntLength(l) > 0
    ensures IntLength(l + rest) == IntLength(l)
  {
    var sign := if l[0] == MINUS then 1 else 0;
    assert (l + rest)[sign..] == l[sign..] + rest;
    DigitRunThen(l[sign..], rest);
  }

  lemma FractionThen(x: Text, rest: Text)
    requires Delimited(rest) && (x == [] || x[0] != POINT || FractionLength(x) > 0)
    ensures FractionLength(x + rest) == FractionLength(x)
  {
    if x == [] {
      assert x + rest == rest;
    } else {
      assert (x + rest)[1..] == x[1..] + rest;
      DigitRunThen(x[1..], rest);
    }
  }

  lemma ExponentThen(x: Text, rest: Text)
    requires Delimited(rest) && ExponentLength(x) == |x|
    ensures ExponentLength(x + rest) == ExponentLength(x)
  {
    if x == [] {
      assert x + rest == rest;
    } else {
      var sign := if x[1] == MINUS || x[1] == PLUS then 2 else 1;
      assert (x + rest)[sign..] == x[sign..] + rest;
      DigitRunThen(x[sign..], rest);
    }
  }

  lemma TailThen(x: Text, rest: Text)
    requires Delimited(rest) && FractionLength(x) + ExponentLength(x[FractionLength(x)..]) == |x|
    ensures FractionLength(x + rest) == FractionLength(x)
    ensures ExponentLength((x + rest)[FractionLength(x)..]) == ExponentLength(x[FractionLength(x)..])
  {
    var f := FractionLength(x);
    FractionThen(x, rest);
    assert (x + rest)[f..] == x[f..] + rest;
    ExponentThen(x[f..], rest);
  }

  lemma NumberThen(l: Text, rest: Text)
    requires Delimited(rest) && Lexeme(l)
    ensures NumberLength(l + rest) == |l| && IntLength(l + rest) == IntLength(l)
  {
    var i := IntLength(l);
    IntThen(l, rest);
    NumberParts(l, i);
    var x := l[i..];
    assert (l + rest)[i..] == x + rest;
    TailThen(x, rest);
    NumberParts(l + rest, i);
  }

  lemma NotTooLong(l: Text, rest: Text)
    requires Lexeme(l) && NumberLength(l + rest) == |l| && IntLength(l + rest) == IntLength(l)
    ensures !TooLong(l + rest)
  {
    assert (l + rest)[0] == l[0];
  }

  lemma NumberParts(l: Text, i: nat)
    requires i == IntLength(l) && i > 0
    ensures NumberLength(l) == i + FractionLength(l[i..]) + ExponentLength(l[i..][FractionLength(l[i..])..])
  {
  }

  /** A number's spelling begins with a digit or a minus sign and a digit. */
  lemma LexemeStart(l: Text)
    requires Lexeme(l)
    ensures Digit(l[0]) || (l[0] == MINUS && |l| > 1 && Digit(l[1]))
  {
  }

  // ---- Values --------------------------------------------------------------

  /** A value made of what Python's dictionaries, lists, strings and numbers hold, with each key once
      and no string in which two surrogates would join. */
  predicate Clean(v: Json)
    decreases v
  {
    match v
    case Constant(_) => true
    case Number(l) => Lexeme(l)
    case Str(s) => CodePoints(s) && NoPairs(s)
    case Arr(items) => forall k | 0 <= k < |items| :: Clean(items[k])
    case Obj(fields) =>
      && (forall k | 0 <= k < |fields| :: CodePoints(fields[k].0) && NoPairs(fields[k].0) && Clean(fields[k].1))
      && (forall j, k | 0 <= j < k < |fields| :: fields[j].0 != fields[k].0)
  }

  /** `json.dumps` */
  function Dumps(v: Json): Text
    requires Clean(v)
    decreases v, 0
  {
    match v
    case Constant(w) => Spelling(w)
    case Number(l) => l
    case Str(s) => Quoted(s)
    case Arr(items) => [OPEN_BRACKET] + DumpItems(v, 0) + [CLOSE_BRACKET]
    case Obj(fields) => [OPEN_BRACE] + DumpFields(v, 0) + [CLOSE_BRACE]
  }

  function DumpItems(v: Json, k: nat): Text
    requires Clean(v) && v.Arr? && k <= |v.items|
    decreases v, 0, |v.items| - k
  {
    if k == |v.items| then []
    else Dumps(v.items[k]) + (if k + 1 < |v.items| then [COMMA, SPACE] + DumpItems(v, k + 1) else [])
  }

  function DumpFields(v: Json, k: nat): Text
    requires Clean(v) && v.Obj? && k <= |v.fields|
    decreases v, 0, |v.fields| - k
  {
    if k == |v.fields| then []
    else
      Quoted(v.fields[k].0) + [COLON, SPACE] + Dumps(v.fields[k].1) +
      (if k + 1 < |v.fields| then [COMMA, SPACE] + DumpFields(v, k + 1) else [])
  }

  // ---- Reading back --------------------------------------------------------

  lemma WordReads(w: Word, rest: Text)
    ensures WordAt(Spelling(w) + rest) == Some(w) && (Spelling(w) + rest)[|Spelling(w)|..] == rest
    ensures Spelling(w)[0] != QUOTE && Spelling(w)[0] != OPEN_BRACKET && Spelling(w)[0] != OPEN_BRACE
  {
    var t := Spelling(w) + rest;
    assert t[..|Spelling(w)|] == Spelling(w);
    assert forall o: Word | StartsWith(t, Spelling(o)) :: t[0] == Spelling(o)[0];
  }

  lemma NotThatWord(t: Text, w: Word)
    requires t != [] && (Digit(t[0]) || (t[0] == MINUS && |t| > 1 && Digit(t[1])))
    ensures !StartsWith(t, Spelling(w))
  {
    if |Spelling(w)| <= |t| {
      assert t[..|Spelling(w)|][0] == t[0] && t[..|Spelling(w)|][1] == t[1];
    }
  }

  lemma NoWord(t: Text)
    requires t != [] && (Digit(t[0]) || (t[0] == MINUS && |t| > 1 && Digit(t[1])))
    ensures WordAt(t) == None
  {
    NotThatWord(t, NULL); NotThatWord(t, TRUE); NotThatWord(t, FALSE);
    NotThatWord(t, NAN); NotThatWord(t, INFINITY); NotThatWord(t, MINUS_INFINITY);
  }

  lemma NumberParses(t: Text, n: nat)
    requires t != [] && (Digit(t[0]) || t[0] == MINUS) && WordAt(t) == None && n == NumberLength(t) > 0 && !TooLong(t)
    ensures ParseValue(t) == Some((Number(t[..n]), t[n..]))
  {
  }

  lemma NumberReads(l: Text, rest: Text)
    requires Lexeme(l) && Delimited(rest)
    ensures ParseValue(l + rest) == Some((Number(l), rest))
  {
    LexemeStart(l);
    NumberThen(l, rest);
    NotTooLong(l, rest);
    var t := l + rest;
    assert t[0] == l[0] && (|l| > 1 ==> t[1] == l[1]);
    NoWord(t);
    NumberParses(t, |l|);
    assert t[..|l|] == l && t[|l|..] == rest;
  }

  lemma QuotedReads(s: Text, rest: Text)
    requires CodePoints(s) && NoPairs(s)
    ensures var t := Quoted(s) + rest;
            t != [] && t[0] == QUOTE && ParseBody(t[1..]) == Some((s, rest))
  {
    var t := Quoted(s) + rest;
    assert t == [QUOTE] + (Body(s) + ([QUOTE] + rest));
    assert t[1..] == Body(s) + ([QUOTE] + rest);
    BodyReads(s, rest);
    JoinedIsSameIff(s);
  }

  lemma {:induction false} PutNew(fields: seq<(Text, Json)>, key: Text, v: Json)
    requires forall k | 0 <= k < |fields| :: fields[k].0 != key
    ensures Put(fields, key, v) == fields + [(key, v)]
  {
    if fields != [] {
      PutNew(fields[1..], key, v);
      assert fields == [fields[0]] + fields[1..];
    }
  }

  lemma {:induction false} PutAllDistinct(fields: seq<(Text, Json)>, more: seq<(Text, Json)>)
    requires forall j, k | 0 <= j < k < |fields + more| :: (fields + more)[j].0 != (fields + more)[k].0
    ensures PutAll(fields, more) == fields + more
    decreases |more|
  {
    if more != [] {
      forall k | 0 <= k < |fields| ensures fields[k].0 != more[0].0 {
        assert (fields + more)[k].0 != (fields + more)[|fields|].0;
      }
      PutNew(fields, more[0].0, more[0].1);
      assert fields + [(more[0].0, more[0].1)] + more[1..] == fields + more;
      PutAllDistinct(fields + [(more[0].0, more[0].1)], more[1..]);
    }
  }

  /** A written value never begins with white space. */
  lemma DumpsStart(v: Json)
    requires Clean(v)
    ensures Dumps(v) != [] && !White(Dumps(v)[0]) && Dumps(v)[0] != CLOSE_BRACKET
  {
    match v
    case Constant(w) =>
    case Number(l) => LexemeStart(l);
    case Str(s) => assert Dumps(v)[0] == QUOTE;
    case Arr(items) => assert Dumps(v)[0] == OPEN_BRACKET;
    case Obj(fields) => assert Dumps(v)[0] == OPEN_BRACE;
  }

  lemma SkipNothing(s: Text)
    requires s == [] || !White(s[0])
    ensures Skip(s) == s
  {
  }

  lemma SkipOne(s: Text)
    requires s == [] || !White(s[0])
    ensures Skip([SPACE] + s) == s
  {
    assert ([SPACE] + s)[1..] == s;
  }

  /** Reading what was written gives back the value, wherever the text stands. */
  lemma {:induction false} ValueReads(v: Json, rest: Text)
    requires Clean(v) && Delimited(rest)
    ensures ParseValue(Dumps(v) + rest) == Some((v, rest))
    decreases v, 0
  {
    match v
    case Constant(w) => WordReads(w, rest);
    case Number(l) => NumberReads(l, rest);
    case Str(s) => QuotedReads(s, rest);
    case Arr(items) => ArrReads(v, rest);
    case Obj(fields) => ObjReads(v, rest);
  }

  lemma {:induction false} ArrReads(v: Json, rest: Text)
    requires Clean(v) && v.Arr?
    ensures ParseValue(Dumps(v) + rest) == Some((v, rest))
    decreases v, 0, |v.items| + 1
  {
    var inner := DumpItems(v, 0) + ([CLOSE_BRACKET] + rest);
    assert Dumps(v) + rest == [OPEN_BRACKET] + inner;
    assert (Dumps(v) + rest)[1..] == inner;
    if v.items == [] {
      assert inner == [CLOSE_BRACKET] + rest;
      SkipNothing(inner);
    } else {
      ItemsRead(v, 0, rest);
      DumpsStart(v.items[0]);
      assert inner[0] == Dumps(v.items[0])[0];
      SkipNothing(inner);
      assert v.items[0..] == v.items;
    }
  }

  /** The items after a comma. */
  lemma CommaThenItems(first: Json, text: Text, more: Text, items: seq<Json>, rest: Text)
    requires more != [] && !White(more[0])
    requires ParseValue(text + ([COMMA] + ([SPACE] + more))) == Some((first, [COMMA] + ([SPACE] + more)))
    requires ParseItems(more) == Some((items, rest))
    ensures ParseItems(text + ([COMMA] + ([SPACE] + more))) == Some(([first] + items, rest))
  {
    var tail := [COMMA] + ([SPACE] + more);
    SkipNothing(tail);
    assert tail[1..] == [SPACE] + more;
    SkipOne(more);
  }

  lemma DumpItemsOnward(v: Json, k: nat, end: Text)
    requires Clean(v) && v.Arr? && k + 1 < |v.items|
    ensures DumpItems(v, k) + end == Dumps(v.items[k]) + ([COMMA] + ([SPACE] + (DumpItems(v, k + 1) + end)))
  {
  }

  lemma {:induction false} ItemsRead(v: Json, k: nat, rest: Text)
    requires Clean(v) && v.Arr? && k < |v.items|
    ensures ParseItems(DumpItems(v, k) + ([CLOSE_BRACKET] + rest)) == Some((v.items[k..], rest))
    decreases v, 0, |v.items| - k
  {
    var end := [CLOSE_BRACKET] + rest;
    if k + 1 == |v.items| {
      ValueReads(v.items[k], end);
      LastItemReads(v, k, rest);
    } else {
      var more := DumpItems(v, k + 1) + end;
      ValueReads(v.items[k], [COMMA] + ([SPACE] + more));
      ItemsRead(v, k + 1, rest);
      InnerItemReads(v, k, more, rest);
    }
  }

  lemma LastItemReads(v: Json, k: nat, rest: Text)
    requires Clean(v) && v.Arr? && k + 1 == |v.items|
    requires ParseValue(Dumps(v.items[k]) + ([CLOSE_BRACKET] + rest)) == Some((v.items[k], [CLOSE_BRACKET] + rest))
    ensures ParseItems(DumpItems(v, k) + ([CLOSE_BRACKET] + rest)) == Some((v.items[k..], rest))
  {
    var end := [CLOSE_BRACKET] + rest;
    assert v.items[k..] == [v.items[k]];
    assert DumpItems(v, k) == Dumps(v.items[k]);
    SkipNothing(end);
    assert end[1..] == rest;
  }

  lemma CleanItem(v: Json, k: nat)
    requires Clean(v) && v.Arr? && k < |v.items|
    ensures Clean(v.items[k]) && v.items[k..] == [v.items[k]] + v.items[k + 1..]
    ensures forall end: Text :: DumpItems(v, k) + end != [] && !White((DumpItems(v, k) + end)[0])
  {
    DumpsStart(v.items[k]);
    forall end: Text ensures DumpItems(v, k) + end != [] && !White((DumpItems(v, k) + end)[0]) {
      assert (DumpItems(v, k) + end)[0] == Dumps(v.items[k])[0];
    }
  }

  lemma InnerItemReads(v: Json, k: nat, more: Text, rest: Text)
    requires Clean(v) && v.Arr? && k + 1 < |v.items| && more == DumpItems(v, k + 1) + ([CLOSE_BRACKET] + rest)
    requires ParseValue(Dumps(v.items[k]) + ([COMMA] + ([SPACE] + more))) == Some((v.items[k], [COMMA] + ([SPACE] + more)))
    requires ParseItems(more) == Some((v.items[k + 1..], rest))
    ensures ParseItems(DumpItems(v, k) + ([CLOSE_BRACKET] + rest)) == Some((v.items[k..], rest))
  {
    DumpItemsOnward(v, k, [CLOSE_BRACKET] + rest);
    CleanItem(v, k);
    CleanItem(v, k + 1);
    CommaThenItems(v.items[k], Dumps(v.items[k]), more, v.items[k + 1..], rest);
  }

  lemma {:induction false} ObjReads(v: Json, rest: Text)
    requires Clean(v) && v.Obj?
    ensures ParseValue(Dumps(v) + rest) == Some((v, rest))
    decreases v, 0, |v.fields| + 1
  {
    if v.fields == [] {
      EmptyObjReads(v, rest);
    } else {
      FieldsRead(v, 0, rest);
      FullObjReads(v, rest);
    }
  }

  lemma ObjText(v: Json, rest: Text)
    requires Clean(v) && v.Obj?
    ensures Dumps(v) + rest == [OPEN_BRACE] + (DumpFields(v, 0) + ([CLOSE_BRACE] + rest))
  {
  }

  lemma EmptyObjReads(v: Json, rest: Text)
    requires Clean(v) && v == Obj([])
    ensures ParseValue(Dumps(v) + rest) == Some((v, rest))
  {
    var inner := [CLOSE_BRACE] + rest;
    ObjText(v, rest);
    assert DumpFields(v, 0) + inner == inner;
    assert ([OPEN_BRACE] + inner)[1..] == inner && inner[1..] == rest;
    SkipNothing(inner);
  }

  lemma FullObjReads(v: Json, rest: Text)
    requires Clean(v) && v.Obj? && |v.fields| > 0
    requires ParseFields(DumpFields(v, 0) + ([CLOSE_BRACE] + rest)) == Some((v.fields[0..], rest))
    ensures ParseValue(Dumps(v) + rest) == Some((v, rest))
  {
    ObjText(v, rest);
    DumpFieldsStart(v, 0, [CLOSE_BRACE] + rest);
    assert v.fields[0..] == v.fields && [] + v.fields == v.fields;
    PutAllDistinct([], v.fields);
    ObjParses(DumpFields(v, 0) + ([CLOSE_BRACE] + rest), v.fields, rest);
  }

  lemma ObjParses(inner: Text, fields: seq<(Text, Json)>, rest: Text)
    requires inner != [] && inner[0] == QUOTE && ParseFields(inner) == Some((fields, rest))
    ensures ParseValue([OPEN_BRACE] + inner) == Some((Obj(PutAll([], fields)), rest))
  {
    assert ([OPEN_BRACE] + inner)[1..] == inner;
    SkipNothing(inner);
  }

  /** `t` begins with this `"key": value`, and `tail` follows. */
  predicate FieldAt(t: Text, key: Text, v: Json, tail: Text) {
    && t != [] && t[0] == QUOTE && ParseBody(t[1..]).Some? && ParseBody(t[1..]).value.0 == key
    && var colon := Skip(ParseBody(t[1..]).value.1);
       colon != [] && colon[0] == COLON && ParseValue(Skip(colon[1..])) == Some((v, tail))
  }

  /** One `"key": value` and what follows it; `x` is how the value is written. */
  lemma FieldReads(key: Text, x: Text, v: Json, tail: Text)
    requires CodePoints(key) && NoPairs(key) && x != [] && !White(x[0])
    requires ParseValue(x + tail) == Some((v, tail))
    ensures FieldAt(Quoted(key) + ([COLON, SPACE] + (x + tail)), key, v, tail)
  {
    var y := x + tail;
    assert y[0] == x[0];
    QuotedReads(key, [COLON, SPACE] + y);
    AfterKey(y);
  }

  lemma AfterKey(y: Text)
    requires y != [] && !White(y[0])
    ensures var after := [COLON, SPACE] + y;
            Skip(after) == after && after[0] == COLON && Skip(after[1..]) == y
  {
    var after := [COLON, SPACE] + y;
    SkipNothing(after);
    assert after[1..] == [SPACE] + y;
    SkipOne(y);
  }

  lemma LastField(t: Text, key: Text, v: Json, rest: Text)
    requires FieldAt(t, key, v, [CLOSE_BRACE] + rest)
    ensures ParseFields(t) == Some(([(key, v)], rest))
  {
    SkipNothing([CLOSE_BRACE] + rest);
    assert ([CLOSE_BRACE] + rest)[1..] == rest;
  }

  lemma CommaThenFields(t: Text, key: Text, v: Json, more: Text, fields: seq<(Text, Json)>, rest: Text)
    requires FieldAt(t, key, v, [COMMA] + ([SPACE] + more)) && more != [] && !White(more[0])
    requires ParseFields(more) == Some((fields, rest))
    ensures ParseFields(t) == Some(([(key, v)] + fields, rest))
  {
    var tail := [COMMA] + ([SPACE] + more);
    SkipNothing(tail);
    assert tail[1..] == [SPACE] + more;
    SkipOne(more);
  }

  lemma DumpFieldsStart(v: Json, k: nat, end: Text)
    requires Clean(v) && v.Obj? && k < |v.fields|
    ensures DumpFields(v, k) + end != [] && (DumpFields(v, k) + end)[0] == QUOTE
  {
  }

  lemma DumpFieldsEnd(v: Json, k: nat, end: Text)
    requires Clean(v) && v.Obj? && k + 1 == |v.fields|
    ensures DumpFields(v, k) + end == Quoted(v.fields[k].0) + ([COLON, SPACE] + (Dumps(v.fields[k].1) + end))
  {
  }

  lemma DumpFieldsOnward(v: Json, k: nat, end: Text)
    requires Clean(v) && v.Obj? && k + 1 < |v.fields|
    ensures DumpFields(v, k) + end ==
            Quoted(v.fields[k].0) +
            ([COLON, SPACE] + (Dumps(v.fields[k].1) + ([COMMA] + ([SPACE] + (DumpFields(v, k + 1) + end)))))
  {
    var q, x, more := Quoted(v.fields[k].0), Dumps(v.fields[k].1), DumpFields(v, k + 1);
    assert DumpFields(v, k) == q + [COLON, SPACE] + x + ([COMMA, SPACE] + more);
    Regroup(q, x, more, end);
  }

  lemma Regroup(q: Text, x: Text, more: Text, end: Text)
    ensures q + [COLON, SPACE] + x + ([COMMA, SPACE] + more) + end ==
            q + ([COLON, SPACE] + (x + ([COMMA] + ([SPACE] + (more + end)))))
  {
  }

  lemma LastFieldReads(v: Json, k: nat, rest: Text)
    requires Clean(v) && v.Obj? && k + 1 == |v.fields|
    requires ParseValue(Dumps(v.fields[k].1) + ([CLOSE_BRACE] + rest)) == Some((v.fields[k].1, [CLOSE_BRACE] + rest))
    ensures ParseFields(DumpFields(v, k) + ([CLOSE_BRACE] + rest)) == Some((v.fields[k..], rest))
  {
    var end := [CLOSE_BRACE] + rest;
    assert v.fields[k..] == [(v.fields[k].0, v.fields[k].1)];
    DumpFieldsEnd(v, k, end);
    DumpsStart(v.fields[k].1);
    FieldReads(v.fields[k].0, Dumps(v.fields[k].1), v.fields[k].1, end);
    LastField(DumpFields(v, k) + end, v.fields[k].0, v.fields[k].1, rest);
  }

  /** A `"key": value` written out, a comma, and the fields after it. */
  lemma OneMoreField(key: Text, x: Text, v: Json, more: Text, fields: seq<(Text, Json)>, rest: Text)
    requires CodePoints(key) && NoPairs(key) && x != [] && !White(x[0]) && more != [] && more[0] == QUOTE
    requires ParseValue(x + ([COMMA] + ([SPACE] + more))) == Some((v, [COMMA] + ([SPACE] + more)))
    requires ParseFields(more) == Some((fields, rest))
    ensures ParseFields(Quoted(key) + ([COLON, SPACE] + (x + ([COMMA] + ([SPACE] + more))))) == Some(([(key, v)] + fields, rest))
  {
    var tail := [COMMA] + ([SPACE] + more);
    FieldReads(key, x, v, tail);
    CommaThenFields(Quoted(key) + ([COLON, SPACE] + (x + tail)), key, v, more, fields, rest);
  }

  lemma CleanField(v: Json, k: nat)
    requires Clean(v) && v.Obj? && k < |v.fields|
    ensures CodePoints(v.fields[k].0) && NoPairs(v.fields[k].0) && Clean(v.fields[k].1)
    ensures Dumps(v.fields[k].1) != [] && !White(Dumps(v.fields[k].1)[0])
    ensures v.fields[k..] == [(v.fields[k].0, v.fields[k].1)] + v.fields[k + 1..]
  {
    DumpsStart(v.fields[k].1);
  }

  lemma InnerFieldReads(v: Json, k: nat, more: Text, rest: Text)
    requires Clean(v) && v.Obj? && k + 1 < |v.fields| && more == DumpFields(v, k + 1) + ([CLOSE_BRACE] + rest)
    requires ParseValue(Dumps(v.fields[k].1) + ([COMMA] + ([SPACE] + more))) == Some((v.fields[k].1, [COMMA] + ([SPACE] + more)))
    requires ParseFields(more) == Some((v.fields[k + 1..], rest))
    ensures ParseFields(DumpFields(v, k) + ([CLOSE_BRACE] + rest)) == Some((v.fields[k..], rest))
  {
    var end := [CLOSE_BRACE] + rest;
    CleanField(v, k);
    DumpFieldsOnward(v, k, end);
    DumpFieldsStart(v, k + 1, end);
    OneMoreField(v.fields[k].0, Dumps(v.fields[k].1), v.fields[k].1, more, v.fields[k + 1..], rest);
  }

  lemma {:induction false} FieldsRead(v: Json, k: nat, rest: Text)
    requires Clean(v) && v.Obj? && k < |v.fields|
    ensures ParseFields(DumpFields(v, k) + ([CLOSE_BRACE] + rest)) == Some((v.fields[k..], rest))
    decreases v, 0, |v.fields| - k
  {
    var end := [CLOSE_BRACE] + rest;
    if k + 1 == |v.fields| {
      ValueReads(v.fields[k].1, end);
      LastFieldReads(v, k, rest);
    } else {
      var more := DumpFields(v, k + 1) + end;
      ValueReads(v.fields[k].1, [COMMA] + ([SPACE] + more));
      FieldsRead(v, k + 1, rest);
      InnerFieldReads(v, k, more, rest);
    }
  }

  /** `json.loads(json.dumps(v)) == v` */
  lemma LoadsDumps(v: Json)
    requires Clean(v)
    ensures Loads(Dumps(v)) == Ok(v)
  {
    DumpsStart(v);
    SkipNothing(Dumps(v));
    assert Dumps(v) + [] == Dumps(v);
    ValueReads(v, []);
  }

  /** A string by itself comes back exactly when it has no surrogates that join. */
  lemma StringComesBackIff(s: Text)
    requires CodePoints(s)
    ensures Loads(Quoted(s)) == Ok(Str(s)) <==> NoPairs(s)
  {
    var t := Quoted(s);
    assert t[1..] == Body(s) + ([QUOTE] + []);
    BodyReads(s, []);
    JoinedIsSameIff(s);
    SkipNothing(t);
  }
}
