/** JSON text as Python's json module reads and writes it. Characters are code points, so that a
    string may hold lone surrogates, as Python's can. */
module JsonText {
  import opened Wrappers

  type Text = seq<nat>

  /** The constants Python's parser knows. */
  datatype Word = NULL | TRUE | FALSE | NAN | INFINITY | MINUS_INFINITY

  /** A parsed value; numbers are kept as they are spelled, dictionaries in insertion order. */
  datatype Json =
    | Constant(w: Word)
    | Number(lexeme: Text)
    | Str(s: Text)
    | Arr(items: seq<Json>)
    | Obj(fields: seq<(Text, Json)>)

  const QUOTE: nat := 34
  const BACKSLASH: nat := 92
  const SLASH: nat := 47
  const COMMA: nat := 44
  const COLON: nat := 58
  const SPACE: nat := 32
  const OPEN_BRACKET: nat := 91
  const CLOSE_BRACKET: nat := 93
  const OPEN_BRACE: nat := 123
  const CLOSE_BRACE: nat := 125
  const MINUS: nat := 45
  const PLUS: nat := 43
  const POINT: nat := 46
  const LETTER_U: nat := 117

  // ---- Strings: section 7 of RFC 8259 --------------------------------------

  predicate High(c: nat) {
    0xD800 <= c <= 0xDBFF
  }

  predicate Low(c: nat) {
    0xDC00 <= c <= 0xDFFF
  }

  function Combine(high: nat, low: nat): nat
    requires High(high) && Low(low)
  {
    0x10000 + (high - 0xD800) * 0x400 + (low - 0xDC00)
  }

  predicate HexDigit(c: nat) {
    48 <= c <= 57 || 97 <= c <= 102 || 65 <= c <= 70
  }

  function HexValue(c: nat): (d: nat)
    requires HexDigit(c)
    ensures d < 16
  {
    if c <= 57 then c - 48 else if c >= 97 then c - 87 else c - 55
  }

  function HexChar(d: nat): (c: nat)
    requires d < 16
    ensures HexDigit(c) && HexValue(c) == d
  {
    if d < 10 then 48 + d else 87 + d
  }

  /** The code unit `\uXXXX` at the start of `s` stands for. */
  function Unit(s: Text): Option<nat> {
    if |s| >= 6 && s[0] == BACKSLASH && s[1] == LETTER_U && HexDigit(s[2]) && HexDigit(s[3]) && HexDigit(s[4]) && HexDigit(s[5])
    then Some(0x1000 * HexValue(s[2]) + 0x100 * HexValue(s[3]) + 0x10 * HexValue(s[4]) + HexValue(s[5]))
    else None
  }

  /** The two-character escapes: what follows the backslash, and what it stands for. */
  function Simple(c: nat): Option<nat> {
    if c == QUOTE || c == BACKSLASH || c == SLASH then Some(c)
    else if c == 98 then Some(8)       // \b
    else if c == 102 then Some(12)     // \f
    else if c == 110 then Some(10)     // \n
    else if c == 114 then Some(13)     // \r
    else if c == 116 then Some(9)      // \t
    else None
  }

  /** The first character of a string's body and how many characters spell it. */
  function OneChar(s: Text): (r: Option<(nat, nat)>)
    ensures r.Some? ==> 1 <= r.value.1 <= |s|
  {
    if s == [] || s[0] < SPACE || s[0] == QUOTE then None
    else if s[0] != BACKSLASH then Some((s[0], 1))
    else if |s| < 2 then None
    else if s[1] == LETTER_U then
      match Unit(s) {
        case None => None
        case Some(u) =>
          var next := Unit(s[6..]);
          if High(u) && next.Some? && Low(next.value) then Some((Combine(u, next.value), 12)) else Some((u, 6))
      }
    else
      match Simple(s[1]) {
        case None => None
        case Some(c) => Some((c, 2))
      }
  }

  /** The body of a string up to its closing quote, and what comes after. */
  function ParseBody(s: Text): (r: Option<(Text, Text)>)
    ensures r.Some? ==> |r.value.0| + 1 + |r.value.1| <= |s|
    decreases |s|
  {
    if s != [] && s[0] == QUOTE then Some(([], s[1..]))
    else
      match OneChar(s) {
        case None => None
        case Some(one) =>
          var r := ParseBody(s[one.1..]);
          if r.None? then None else Some(([one.0] + r.value.0, r.value.1))
      }
  }

  // ---- Numbers -------------------------------------------------------------

  predicate Digit(c: nat) {
    48 <= c <= 57
  }

  /** How many digits `s` begins with. */
  function DigitRun(s: Text): (n: nat)
    ensures n <= |s|
    ensures forall k | 0 <= k < n :: Digit(s[k])
    ensures n < |s| ==> !Digit(s[n])
  {
    if s == [] || !Digit(s[0]) then 0 else 1 + DigitRun(s[1..])
  }

  /** The lengths of the parts of a number at the start of `s`; 0 for a part that is not there. */
  function IntLength(s: Text): (n: nat)
    ensures n <= |s|
  {
    var sign := if s != [] && s[0] == MINUS then 1 else 0;
    if sign < |s| && s[sign] == 48 then sign + 1
    else if sign < |s| && Digit(s[sign]) then sign + DigitRun(s[sign..])
    else 0
  }

  function FractionLength(s: Text): (n: nat)
    ensures n <= |s|
  {
    if |s| > 1 && s[0] == POINT && Digit(s[1]) then 1 + DigitRun(s[1..]) else 0
  }

  function ExponentLength(s: Text): (n: nat)
    ensures n <= |s|
  {
    if |s| > 1 && (s[0] == 101 || s[0] == 69) then
      var sign := if s[1] == MINUS || s[1] == PLUS then 2 else 1;
      if sign < |s| && Digit(s[sign]) then sign + DigitRun(s[sign..]) else 0
    else 0
  }

  function NumberLength(s: Text): (n: nat)
    ensures n <= |s|
  {
    var i := IntLength(s);
    if i == 0 then 0
    else
      var t := s[i..];
      i + FractionLength(t) + ExponentLength(t[FractionLength(t)..])
  }

  /** Python converts no integer of more digits than this. */
  const MAX_DIGITS: nat := 4300

  /** The number at the start of `s` is an integer with more. */
  predicate TooLong(s: Text) {
    var sign := if s != [] && s[0] == MINUS then 1 else 0;
    NumberLength(s) == IntLength(s) && IntLength(s) > sign + MAX_DIGITS
  }

  // ---- Values --------------------------------------------------------------

  function Spelling(w: Word): Text {
    match w
    case NULL => [110, 117, 108, 108]
    case TRUE => [116, 114, 117, 101]
    case FALSE => [102, 97, 108, 115, 101]
    case NAN => [78, 97, 78]
    case INFINITY => [73, 110, 102, 105, 110, 105, 116, 121]
    case MINUS_INFINITY => [45, 73, 110, 102, 105, 110, 105, 116, 121]
  }

  predicate StartsWith(s: Text, p: Text) {
    |p| <= |s| && s[..|p|] == p
  }

  function WordAt(s: Text): Option<Word> {
    if StartsWith(s, Spelling(NULL)) then Some(NULL)
    else if StartsWith(s, Spelling(TRUE)) then Some(TRUE)
    else if StartsWith(s, Spelling(FALSE)) then Some(FALSE)
    else if StartsWith(s, Spelling(NAN)) then Some(NAN)
    else if StartsWith(s, Spelling(INFINITY)) then Some(INFINITY)
    else if StartsWith(s, Spelling(MINUS_INFINITY)) then Some(MINUS_INFINITY)
    else None
  }

  predicate White(c: nat) {
    c == 32 || c == 9 || c == 10 || c == 13
  }

  function Skip(s: Text): (r: Text)
    ensures |r| <= |s|
  {
    if s != [] && White(s[0]) then Skip(s[1..]) else s
  }

  /** Setting a key of a dictionary: a new key goes to the end, an old one keeps its place. */
  function Put(fields: seq<(Text, Json)>, key: Text, v: Json): seq<(Text, Json)> {
    if fields == [] then [(key, v)]
    else if fields[0].0 == key then [(key, v)] + fields[1..]
    else [fields[0]] + Put(fields[1..], key, v)
  }

  function PutAll(fields: seq<(Text, Json)>, more: seq<(Text, Json)>): seq<(Text, Json)>
    decreases |more|
  {
    if more == [] then fields else PutAll(Put(fields, more[0].0, more[0].1), more[1..])
  }

  /** A value at the start of `s`, and what comes after it. */
  function ParseValue(s: Text): (r: Option<(Json, Text)>)
    ensures r.Some? ==> |r.value.1| < |s|
    decreases |s|, 1
  {
    if s == [] then None
    else if s[0] == QUOTE then
      var r := ParseBody(s[1..]);
      if r.None? then None else Some((Str(r.value.0), r.value.1))
    else if s[0] == OPEN_BRACKET then
      var t := Skip(s[1..]);
      if t != [] && t[0] == CLOSE_BRACKET then Some((Arr([]), t[1..]))
      else
        var r := ParseItems(t);
        if r.None? then None else Some((Arr(r.value.0), r.value.1))
    else if s[0] == OPEN_BRACE then
      var t := Skip(s[1..]);
      if t != [] && t[0] == CLOSE_BRACE then Some((Obj([]), t[1..]))
      else
        var r := ParseFields(t);
        if r.None? then None else Some((Obj(PutAll([], r.value.0)), r.value.1))
    else if WordAt(s).Some? then
      Some((Constant(WordAt(s).value), s[|Spelling(WordAt(s).value)|..]))
    else if NumberLength(s) > 0 && !TooLong(s) then
      Some((Number(s[..NumberLength(s)]), s[NumberLength(s)..]))
    else None
  }

  /** Items up to and with the closing bracket. */
  function ParseItems(s: Text): (r: Option<(seq<Json>, Text)>)
    ensures r.Some? ==> |r.value.1| < |s|
    decreases |s|, 2
  {
    var first := ParseValue(s);
    if first.None? then None
    else
      var t := Skip(first.value.1);
      if t == [] then None
      else if t[0] == CLOSE_BRACKET then Some(([first.value.0], t[1..]))
      else if t[0] == COMMA then
        var more := ParseItems(Skip(t[1..]));
        if more.None? then None else Some(([first.value.0] + more.value.0, more.value.1))
      else None
  }

  /** `"key": value` pairs up to and with the closing brace. */
  function ParseFields(s: Text): (r: Option<(seq<(Text, Json)>, Text)>)
    ensures r.Some? ==> |r.value.1| < |s|
    decreases |s|, 2
  {
    if s == [] || s[0] != QUOTE then None
    else
      var key := ParseBody(s[1..]);
      if key.None? then None
      else
        var colon := Skip(key.value.1);
        if colon == [] || colon[0] != COLON then None
        else
          var v := ParseValue(Skip(colon[1..]));
          if v.None? then None
          else
            var t := Skip(v.value.1);
            if t == [] then None
            else if t[0] == CLOSE_BRACE then Some(([(key.value.0, v.value.0)], t[1..]))
            else if t[0] == COMMA then
              var more := ParseFields(Skip(t[1..]));
              if more.None? then None else Some(([(key.value.0, v.value.0)] + more.value.0, more.value.1))
            else None
  }

  datatype JsonError = NotJson

  /** `json.loads` */
  function Loads(s: Text): Result<Json, JsonError> {
    var r := ParseValue(Skip(s));
    if r.Some? && Skip(r.value.1) == [] then Ok(r.value.0) else Err(NotJson)
  }

  // ---- A text is longer than the string it spells --------------------------

  /** A text that decodes to a string has at least two characters more than the string. */
  lemma LoadsShrinks(s: Text)
    requires Loads(s).Ok? && Loads(s).value.Str?
    ensures |s| >= |Loads(s).value.s| + 2
  {
    var t := Skip(s);
    assert t[0] == QUOTE;
  }
}
