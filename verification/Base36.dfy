/** Base-36 identifiers with the alphabet a-z, 0-9: the letter `a` is digit 0 and the character `0`,
    which also pads, is digit 26. */
module Base36 {

  predicate IsDigit(c: char) {
    'a' <= c <= 'z' || '0' <= c <= '9'
  }

  function Value(c: char): (d: nat)
    requires IsDigit(c)
    ensures d < 36
  {
    if 'a' <= c <= 'z' then c as int - 'a' as int else 26 + (c as int - '0' as int)
  }

  function Digit(d: nat): (c: char)
    requires d < 36
    ensures IsDigit(c) && Value(c) == d
  {
    if d < 26 then ('a' as int + d) as char else ('0' as int + d - 26) as char
  }

  predicate AllDigits(s: string) {
    forall k | 0 <= k < |s| :: IsDigit(s[k])
  }

  function Decode(s: string): nat
    requires AllDigits(s)
  {
    if s == "" then 0 else 36 * Decode(s[..|s| - 1]) + Value(s[|s| - 1])
  }

  function Pow36(k: nat): (p: nat)
    ensures p >= 1
  {
    if k == 0 then 1 else 36 * Pow36(k - 1)
  }

  // ---- Encoding ------------------------------------------------------------

  /** The digits of `n`, most significant first; none for 0. */
  function Digits(n: nat): (s: string)
    ensures AllDigits(s)
  {
    if n == 0 then "" else Digits(n / 36) + [Digit(n % 36)]
  }

  function Encoded(n: nat): (s: string)
    ensures AllDigits(s)
  {
    if n == 0 then "0" else Digits(n)
  }

  function Reversed(s: string): (r: string)
    ensures |r| == |s| && forall k | 0 <= k < |s| :: r[k] == s[|s| - 1 - k]
  {
    seq(|s|, k requires 0 <= k < |s| => s[|s| - 1 - k])
  }

  /** Repeated division, collecting the digits backwards. */
  method Encode(n: nat) returns (s: string)
    ensures s == Encoded(n)
  {
    if n == 0 {
      return "0";
    }
    var rest, out := n, "";
    while rest > 0
      invariant Digits(rest) + Reversed(out) == Digits(n)
    {
      var digit := Digit(rest % 36);
      assert Reversed(out + [digit]) == [digit] + Reversed(out);
      assert Digits(rest) + Reversed(out) == Digits(rest / 36) + ([digit] + Reversed(out));
      rest, out := rest / 36, out + [digit];
    }
    assert Digits(0) + Reversed(out) == Reversed(out);
    s := Reversed(out);
  }

  /** Decoding inverts encoding from 1 on, and 0 is encoded as if it were 26. */
  lemma {:induction false} RoundTrip(n: nat)
    ensures Decode(Encoded(n)) == if n == 0 then 26 else n
    ensures n > 0 ==> Encoded(n)[0] != 'a'
  {
    if n > 0 {
      DigitsRoundTrip(n);
    } else {
      assert "0"[..0] == "";
    }
  }

  lemma {:induction false} DigitsRoundTrip(n: nat)
    ensures Decode(Digits(n)) == n
    ensures n > 0 ==> |Digits(n)| > 0 && Digits(n)[0] != 'a'
  {
    if n > 0 {
      DigitsRoundTrip(n / 36);
      assert Digits(n)[..|Digits(n)| - 1] == Digits(n / 36);
      if n < 36 {
        assert Digits(n / 36) == "";
        assert Digits(n) == [Digit(n)];
      } else {
        assert Digits(n)[0] == Digits(n / 36)[0];
      }
    }
  }

  /** Every string of digits that does not begin with digit 0 is the code of its value: together
      with RoundTrip, encoding is one-to-one from the positive numbers onto those strings. */
  lemma {:induction false} RoundTripBack(s: string)
    requires AllDigits(s) && s != "" && s[0] != 'a'
    ensures Decode(s) > 0 && Encoded(Decode(s)) == s
    decreases |s|
  {
    var front, last := s[..|s| - 1], s[|s| - 1];
    assert s == front + [last];
    if front == "" {
      assert Decode(front) == 0 && Decode(s) == Value(last);
      assert Digits(Decode(s)) == Digits(0) + [Digit(Value(last))];
      DigitOfValue(last);
    } else {
      RoundTripBack(front);
      var n := Decode(s);
      assert n / 36 == Decode(front) && n % 36 == Value(last);
      DigitOfValue(last);
    }
  }

  lemma DigitOfValue(c: char)
    requires IsDigit(c)
    ensures Digit(Value(c)) == c
  {
  }

  /** The code of `n` has the least length whose strings can count up to `n`. */
  lemma {:induction false} LengthIsLeast(n: nat)
    requires n > 0
    ensures |Encoded(n)| >= 1 && Pow36(|Encoded(n)| - 1) <= n < Pow36(|Encoded(n)|)
  {
    if n < 36 {
      assert Digits(n / 36) == "";
      assert |Encoded(n)| == 1;
    } else {
      LengthIsLeast(n / 36);
      var k := |Encoded(n / 36)|;
      assert Digits(n) == Digits(n / 36) + [Digit(n % 36)];
      assert |Encoded(n)| == k + 1;
      assert Pow36(k) == 36 * Pow36(k - 1) && Pow36(k + 1) == 36 * Pow36(k);
    }
  }

  lemma {:induction false} Pow36Grows(j: nat, k: nat)
    requires j <= k
    ensures Pow36(j) <= Pow36(k)
    decreases k - j
  {
    if j < k { Pow36Grows(j, k - 1); }
  }

  lemma LengthIff(n: nat, k: nat)
    requires n > 0 && k > 0
    ensures |Encoded(n)| == k <==> Pow36(k - 1) <= n < Pow36(k)
  {
    LengthIsLeast(n);
    var l := |Encoded(n)|;
    if l < k { Pow36Grows(l, k - 1); }
    if k < l { Pow36Grows(k, l - 1); }
  }

  // ---- The padded counter --------------------------------------------------

  const WIDTH: nat := 4
  const LIMIT: nat := 1679616     // 36 to the 4th

  lemma LimitIsPow()
    ensures Pow36(WIDTH) == LIMIT && Pow36(3) == 46656 && Pow36(2) == 1296 && Pow36(1) == 36
  {
    assert Pow36(1) == 36 * Pow36(0);
    assert Pow36(2) == 36 * Pow36(1);
    assert Pow36(3) == 36 * Pow36(2);
    assert Pow36(4) == 36 * Pow36(3);
  }

  function Zeros(k: nat): (s: string)
    ensures |s| == k && AllDigits(s)
  {
    seq(k, i => '0')
  }

  /** `rjust(4, "0")` */
  function Padded(s: string): string {
    if |s| >= WIDTH then s else Zeros(WIDTH - |s|) + s
  }

  function CounterText(c: nat): string {
    Padded(Encoded(c))
  }

  /** 36^k + ... + 36^(m-1) */
  function Geometric(k: nat, m: nat): nat
    decreases m - k
  {
    if m <= k then 0 else Geometric(k, m - 1) + Pow36(m - 1)
  }

  lemma {:induction false} DecodeZeros(k: nat, s: string)
    requires AllDigits(s)
    ensures AllDigits(Zeros(k) + s)
    ensures Decode(Zeros(k) + s) == 26 * Geometric(|s|, |s| + k) + Decode(s)
    decreases k, |s|
  {
    if s == "" {
      assert Zeros(k) + s == Zeros(k);
      if k > 0 {
        assert Zeros(k)[..k - 1] == Zeros(k - 1) + "";
        DecodeZeros(k - 1, "");
        GeometricShift(0, k - 1);
        assert Geometric(0, k) == Geometric(0, k - 1) + Pow36(k - 1);
        GeometricUp(k - 1);
      }
    } else {
      var t := Zeros(k) + s;
      var front := s[..|s| - 1];
      assert t[..|t| - 1] == Zeros(k) + front;
      DecodeZeros(k, front);
      GeometricShift(|front|, |front| + k);
    }
  }

  lemma {:induction false} GeometricShift(k: nat, m: nat)
    requires k <= m
    ensures 36 * Geometric(k, m) == Geometric(k + 1, m + 1)
    decreases m - k
  {
    if k < m { GeometricShift(k, m - 1); }
  }

  lemma {:induction false} GeometricUp(k: nat)
    ensures 36 * Geometric(0, k) + 1 == Geometric(0, k + 1)
  {
    if k > 0 {
      GeometricUp(k - 1);
    }
  }

  lemma {:induction false} GeometricSplit(k: nat, l: nat, m: nat)
    requires k <= l <= m
    ensures Geometric(k, m) == Geometric(k, l) + Geometric(l, m)
    decreases m - l
  {
    if l < m { GeometricSplit(k, l, m - 1); }
  }

  lemma {:induction false} DecodeInjective(s: string, t: string)
    requires AllDigits(s) && AllDigits(t) && |s| == |t| && Decode(s) == Decode(t)
    ensures s == t
    decreases |s|
  {
    if s != "" {
      var a, b := s[..|s| - 1], t[..|t| - 1];
      DecodeInjective(a, b);
      DigitOfValue(s[|s| - 1]);
      DigitOfValue(t[|t| - 1]);
      assert s == a + [s[|s| - 1]] && t == b + [t[|t| - 1]];
    }
  }

  /** What a counter counts as: 0 as 26. */
  function Effective(c: nat): nat {
    if c == 0 then 26 else c
  }

  /** The unpadded length. */
  function Length(c: nat): nat {
    |Encoded(c)|
  }

  lemma CounterTextValue(c: nat)
    requires c < LIMIT
    ensures 1 <= Length(c) <= 4 && |CounterText(c)| == 4 && AllDigits(CounterText(c))
    ensures Decode(CounterText(c)) == Effective(c) + 26 * Geometric(Length(c), 4)
  {
    LimitIsPow();
    RoundTrip(c);
    if c > 0 {
      LengthIsLeast(c);
      if Length(c) > 4 { Pow36Grows(4, Length(c) - 1); }
    }
    DecodeZeros(4 - Length(c), Encoded(c));
    if Length(c) == 4 {
      assert Zeros(0) + Encoded(c) == Encoded(c);
    }
  }

  lemma LengthMonotone(a: nat, b: nat)
    requires 0 < a <= b
    ensures Length(a) <= Length(b)
  {
    LengthIsLeast(a);
    LengthIsLeast(b);
    if Length(b) < Length(a) { Pow36Grows(Length(b), Length(a) - 1); }
  }

  /** Counter 0 is written exactly as 26 is. */
  lemma ZeroIsTwentySix()
    ensures CounterText(0) == CounterText(26)
  {
    assert Digits(26) == Digits(0) + [Digit(26)];
    assert Encoded(26) == "0";
  }

  /** Exactly when two counters are written alike: their difference is 26 in each place that one of
      them fills with padding and the other does not. */
  lemma CountersCollideIff(a: nat, b: nat)
    requires 1 <= a < b < LIMIT
    ensures CounterText(a) == CounterText(b) <==> b - a == 26 * Geometric(Length(a), Length(b))
  {
    CounterTextValue(a);
    CounterTextValue(b);
    LengthMonotone(a, b);
    GeometricSplit(Length(a), Length(b), 4);
    if b - a == 26 * Geometric(Length(a), Length(b)) {
      DecodeInjective(CounterText(a), CounterText(b));
    }
  }

  lemma GeometricAtLeast(k: nat, m: nat)
    requires 1 <= k < m
    ensures Geometric(k, m) >= 36
  {
    LimitIsPow();
    Pow36Grows(1, m - 1);
  }

  /** So counters less than 936 apart are never written alike ... */
  lemma NearCountersDiffer(a: nat, b: nat)
    requires 1 <= a < b < LIMIT && b - a < 936
    ensures CounterText(a) != CounterText(b)
  {
    CountersCollideIff(a, b);
    CounterTextValue(a);
    LengthMonotone(a, b);
    if Length(a) < Length(b) {
      GeometricAtLeast(Length(a), Length(b));
    } else {
      assert Geometric(Length(a), Length(b)) == 0;
    }
  }

  /** ... and counters 936 apart can be. */
  lemma FarCountersCanCollide()
    ensures CounterText(1) == CounterText(937)
  {
    LimitIsPow();
    LengthIff(1, 1);
    LengthIff(937, 2);
    assert Geometric(1, 2) == Geometric(1, 1) + Pow36(1);
    CountersCollideIff(1, 937);
  }

  /** Steps from counter `a` forward to `b`, around the wrap if need be. */
  function Ahead(a: nat, b: nat): nat
    requires a < LIMIT && b < LIMIT
  {
    if a <= b then b - a else b + LIMIT - a
  }

  lemma WrappedCountersDiffer(a: nat, b: nat)
    requires a < LIMIT && 1 <= b < a && Ahead(a, b) < 1000
    ensures CounterText(a) != CounterText(b)
  {
    LimitIsPow();
    LengthIff(a, 4);
    CounterTextValue(b);
    GeometricSplit(1, Length(b), 4);
    assert Geometric(1, 4) == Geometric(1, 3) + Pow36(3);
    assert Geometric(1, 3) == Geometric(1, 2) + Pow36(2);
    assert Geometric(1, 2) == Geometric(1, 1) + Pow36(1);
    GeometricSplit(Length(b), 4, 4);
    CountersCollideIff(b, a);
  }

  /** Among fewer than 936 counters in a row, wherever they start and around the wrap, the only two
      written alike are 0 and 26. */
  lemma WindowCollidesIff(a: nat, b: nat)
    requires a < LIMIT && b < LIMIT && a != b && Ahead(a, b) < 936
    ensures CounterText(a) == CounterText(b) <==> a == 0 && b == 26
  {
    ZeroIsTwentySix();
    if a == 0 {
      if b < 26 { NearCountersDiffer(b, 26); }
      if b > 26 { NearCountersDiffer(26, b); }
    } else if b == 0 {
      LimitIsPow();
      WrappedCountersDiffer(a, 26);
    } else if a < b {
      NearCountersDiffer(a, b);
    } else {
      WrappedCountersDiffer(a, b);
    }
  }

  // ---- Identifiers ---------------------------------------------------------

  const RANDOM: nat := 16

  function Assembled(ts: string, count: string, random: string): string {
    "c" + ts + count + random
  }

  /** 'c', the time in milliseconds, the counter, 16 random characters. */
  function Cuid(ms: nat, counter: nat, random: string): string {
    Assembled(Encoded(ms), CounterText(counter), random)
  }

  /** An identifier has 29 characters -- not the 24 its documentation says -- exactly from 36^7 to
      36^8 milliseconds after the epoch, the years 1972 to 2059. */
  lemma CuidLengthIff(ms: nat, counter: nat, random: string)
    requires counter < LIMIT && |random| == RANDOM && ms > 0
    ensures |Cuid(ms, counter, random)| == 21 + |Encoded(ms)|
    ensures |Cuid(ms, counter, random)| == 29 <==> Pow36(7) <= ms < Pow36(8)
  {
    CounterTextValue(counter);
    LengthIff(ms, 8);
  }

  /** Equal identifiers agree in all three parts. */
  lemma CuidsEqualIff(ms: nat, counter: nat, random: string, ms1: nat, counter1: nat, random1: string)
    requires counter < LIMIT && counter1 < LIMIT && |random| == |random1| == RANDOM && ms > 0 && ms1 > 0
    ensures Cuid(ms, counter, random) == Cuid(ms1, counter1, random1) <==>
            ms == ms1 && CounterText(counter) == CounterText(counter1) && random == random1
  {
    CounterTextValue(counter);
    CounterTextValue(counter1);
    AssembledEqualIff(Encoded(ms), CounterText(counter), random, Encoded(ms1), CounterText(counter1), random1);
    RoundTrip(ms);
    RoundTrip(ms1);
  }

  lemma AssembledEqualIff(t: string, n: string, r: string, t1: string, n1: string, r1: string)
    requires |n| == |n1| && |r| == |r1|
    ensures Assembled(t, n, r) == Assembled(t1, n1, r1) <==> t == t1 && n == n1 && r == r1
  {
    assert Assembled(t, n, r) == "c" + (t + n + r);
    assert Assembled(t1, n1, r1) == "c" + (t1 + n1 + r1);
    if Assembled(t, n, r) == Assembled(t1, n1, r1) {
      assert t + n + r == Assembled(t, n, r)[1..];
      assert t1 + n1 + r1 == Assembled(t1, n1, r1)[1..];
      PartsEqual(t, n, r, t1, n1, r1);
    }
  }

  lemma PartsEqual(a: string, b: string, c: string, a1: string, b1: string, c1: string)
    requires |b| == |b1| && |c| == |c1| && a + b + c == a1 + b1 + c1
    ensures a == a1 && b == b1 && c == c1
  {
    var l, r := a + b + c, a1 + b1 + c1;
    assert |a| == |a1|;
    assert l[..|a|] == a && r[..|a|] == a1;
    assert l[|a|..|a| + |b|] == b && r[|a|..|a| + |b|] == b1;
    assert l[|a| + |b|..] == c && r[|a| + |b|..] == c1;
  }

  /** The `n`th next value of the counter. */
  function CounterAfter(counter: nat, n: nat): nat {
    (counter + n) % LIMIT
  }

  class CuidGenerator {
    var counter: nat

    ghost predicate Valid()
      reads this
    {
      counter < LIMIT
    }

    constructor ()
      ensures Valid() && counter == 0
    {
      counter := 0;
    }

    /** One identifier; the counter moves under the lock. */
    method Generate(ms: nat, random: string) returns (id: string)
      requires Valid() && |random| == RANDOM
      modifies this
      ensures Valid() && counter == CounterAfter(old(counter), 1)
      ensures id == Cuid(ms, counter, random)
    {
      counter := (counter + 1) % LIMIT;
      var ts := Encode(ms);
      var count := Encode(counter);
      id := "c" + ts + Padded(count) + random;
    }
  }

  /** Two identifiers fewer than 936 calls apart are equal only if they share the millisecond and the
      random part and their counters are 0 and 26. */
  lemma IdsInARow(counter: nat, i: nat, j: nat, ms: nat, ms1: nat, random: string, random1: string)
    requires counter < LIMIT && i < j && j - i < 936 && ms > 0 && ms1 > 0 && |random| == |random1| == RANDOM
    ensures Cuid(ms, CounterAfter(counter, i), random) == Cuid(ms1, CounterAfter(counter, j), random1) <==>
            ms == ms1 && random == random1 && CounterAfter(counter, i) == 0 && CounterAfter(counter, j) == 26
  {
    var a, b := CounterAfter(counter, i), CounterAfter(counter, j);
    AheadAfter(counter, i, j);
    WindowCollidesIff(a, b);
    CuidsEqualIff(ms, a, random, ms1, b, random1);
  }

  lemma AheadAfter(counter: nat, i: nat, j: nat)
    requires i < j && j - i < LIMIT
    ensures CounterAfter(counter, i) != CounterAfter(counter, j)
    ensures Ahead(CounterAfter(counter, i), CounterAfter(counter, j)) == j - i
  {
    var x := counter + i;
    var d := j - i;
    assert counter + j == x + d;
    ModuloStep(x, d);
  }

  lemma ModuloStep(x: nat, d: nat)
    requires 0 < d < LIMIT
    ensures (x + d) % LIMIT == if x % LIMIT + d < LIMIT then x % LIMIT + d else x % LIMIT + d - LIMIT
  {
    var q, r := x / LIMIT, x % LIMIT;
    assert x + d == q * LIMIT + (r + d);
    if r + d < LIMIT {
      assert (x + d) / LIMIT == q;
    } else {
      assert x + d == (q + 1) * LIMIT + (r + d - LIMIT);
      assert (x + d) / LIMIT == q + 1;
    }
  }
}
