/** Characters, decimal and hexadecimal text, as the Go standard library
    reads and prints them (ASCII only: RE2's \d, \s, \w; strconv; fmt's %d and %02x). */
module Text {
  import opened Wrappers

  /** A Go `byte`. */
  type uint8 = x: int | 0 <= x < 256

  /** Go's `int` on a 64-bit platform. */
  const MinInt64: int := -0x8000_0000_0000_0000
  const MaxInt64: int := 0x7fff_ffff_ffff_ffff

  function Pow2(n: nat): (r: nat)
    ensures r >= 1
  {
    if n == 0 then 1 else 2 * Pow2(n - 1)
  }

  lemma {:induction false} Pow2Monotone(i: nat, j: nat)
    requires i <= j
    ensures Pow2(i) <= Pow2(j)
    decreases j
  {
    if i < j { Pow2Monotone(i, j - 1); }
  }

  /** Bitwise AND of two naturals (Go's `&` on non-negative values), one bit at a time from the lowest. */
  function BitAnd(a: nat, b: nat): (r: nat)
    ensures r <= a && r <= b
    decreases a
  {
    if a == 0 || b == 0 then 0 else 2 * BitAnd(a / 2, b / 2) + (a % 2) * (b % 2)
  }

  /** Bitwise OR of two naturals (Go's `|`), one bit at a time from the lowest. */
  function BitOr(a: nat, b: nat): nat
    decreases a + b
  {
    if a == 0 then b
    else if b == 0 then a
    else 2 * BitOr(a / 2, b / 2) + (if a % 2 == 1 || b % 2 == 1 then 1 else 0)
  }

  /** Applying the same mask twice changes nothing more. */
  lemma {:induction false} AndIdempotent(a: nat, m: nat)
    ensures BitAnd(BitAnd(a, m), m) == BitAnd(a, m)
    decreases a
  {
    if a != 0 && m != 0 {
      var low := BitAnd(a / 2, m / 2);
      var bit := if a % 2 == 1 && m % 2 == 1 then 1 else 0;
      assert (a % 2) * (m % 2) == bit;
      var r := 2 * low + bit;
      assert BitAnd(a, m) == r;
      assert r / 2 == low && r % 2 == bit;
      AndIdempotent(a / 2, m / 2);
      if r != 0 {
        assert (r % 2) * (m % 2) == bit;
        assert BitAnd(r, m) == 2 * BitAnd(low, m / 2) + bit;
      }
    }
  }

  /** A mask of `n` low one-bits keeps every value below 2^n as it is. */
  lemma {:induction false} AndLowOnes(a: nat, n: nat)
    requires a < Pow2(n)
    ensures BitAnd(a, Pow2(n) - 1) == a
    decreases n
  {
    if n > 0 && a != 0 {
      var q := Pow2(n - 1);
      assert (2 * q - 1) / 2 == q - 1 && (2 * q - 1) % 2 == 1;
      AndLowOnes(a / 2, n - 1);
    }
  }

  /** The remainder modulo 2q is twice the half's remainder modulo q, plus the lowest bit. */
  lemma ModDouble(a: nat, q: nat)
    requires q >= 1
    ensures a % (2 * q) == 2 * ((a / 2) % q) + a % 2
  {
    var h, b := a / 2, a % 2;
    var t, r := h / q, h % q;
    var s := 2 * r + b;
    assert a == (2 * q) * t + s && 0 <= s < 2 * q;
    ModOfSum(a, 2 * q, t, s);
  }

  /** Division with remainder is unique: `s` is the remainder of `d * t + s` when `s < d`. */
  lemma ModOfSum(a: nat, d: nat, t: nat, s: nat)
    requires d >= 1 && a == d * t + s && s < d
    ensures a % d == s
  {
    var k, m := a / d, a % d;
    assert d * k + m == d * t + s;
    if t > k {
      MulAtLeast(d, t - k);
    } else if t < k {
      MulAtLeast(d, k - t);
    }
  }

  lemma {:induction false} MulAtLeast(d: nat, x: int)
    requires x >= 1
    ensures d * x >= d
    decreases x
  {
    if x > 1 {
      MulAtLeast(d, x - 1);
      assert d * x == d * (x - 1) + d;
    }
  }

  /** A mask whose bits `j` to `n - 1` are set clears the `j` low bits of any value below 2^n. */
  lemma {:induction false} AndHighOnes(a: nat, n: nat, j: nat)
    requires j <= n && a < Pow2(n) && Pow2(j) <= Pow2(n)
    ensures BitAnd(a, Pow2(n) - Pow2(j)) == a - a % Pow2(j)
    decreases j
  {
    if j == 0 {
      AndLowOnes(a, n);
    } else if j == n {
      ModOfSum(a, Pow2(n), 0, a);
    } else if a != 0 {
      var q, p := Pow2(j - 1), Pow2(n - 1);
      assert Pow2(j) == 2 * q && Pow2(n) == 2 * p;
      Pow2Monotone(j, n - 1);
      var m := 2 * (p - q);
      assert m / 2 == p - q && m % 2 == 0 && m != 0;
      assert BitAnd(a, m) == 2 * BitAnd(a / 2, p - q);
      AndHighOnes(a / 2, n - 1, j - 1);
      ModDouble(a, q);
      assert m == Pow2(n) - Pow2(j);
      var r := (a / 2) % q;
      assert a % Pow2(j) == 2 * r + a % 2;
      assert BitAnd(a, m) == 2 * (a / 2 - r);
    } else {
      ModOfSum(0, Pow2(j), 0, 0);
    }
  }

  /** RE2's \d. */
  predicate IsDigit(c: char) { '0' <= c <= '9' }

  /** RE2's \s (Perl class): tab, newline, form feed, carriage return and space. */
  predicate IsSpace(c: char) { c == '\t' || c == '\n' || c as int == 0x0C || c == '\r' || c == ' ' }

  /** RE2's \w: ASCII letters, digits and underscore. */
  predicate IsWord(c: char) { IsDigit(c) || 'a' <= c <= 'z' || 'A' <= c <= 'Z' || c == '_' }

  predicate AllDigits(s: string) { forall i :: 0 <= i < |s| ==> IsDigit(s[i]) }

  predicate AllWord(s: string) { forall i :: 0 <= i < |s| ==> IsWord(s[i]) }

  function DigitValue(c: char): (d: nat)
    requires IsDigit(c)
    ensures d < 10
  {
    c as int - '0' as int
  }

  function DigitChar(d: nat): (c: char)
    requires d < 10
    ensures IsDigit(c) && DigitValue(c) == d
  {
    ('0' as int + d) as char
  }

  /** The number a string of decimal digits denotes; leading zeros are allowed. */
  function DecimalValue(s: string): nat
    requires AllDigits(s)
    decreases |s|
  {
    if s == [] then 0 else 10 * DecimalValue(s[..|s| - 1]) + DigitValue(s[|s| - 1])
  }

  /** The shortest decimal numeral of `n`, as `%d` and `strconv.Itoa` print it. */
  function DecimalString(n: nat): (s: string)
    ensures 1 <= |s| && AllDigits(s)
    ensures s[0] == '0' <==> n == 0
    ensures n < 10 <==> |s| == 1
    ensures n < 100 ==> |s| <= 2
    ensures n < 1000 ==> |s| <= 3
    decreases n
  {
    if n < 10 then [DigitChar(n)] else DecimalString(n / 10) + [DigitChar(n % 10)]
  }

  /** Reading back a printed number gives the number. */
  lemma {:induction false} DecimalRoundTrip(n: nat)
    ensures DecimalValue(DecimalString(n)) == n
    decreases n
  {
    if n >= 10 {
      DecimalRoundTrip(n / 10);
      var s := DecimalString(n);
      assert s[..|s| - 1] == DecimalString(n / 10);
    }
  }

  /** strconv.Atoi: an optional sign followed by at least one decimal digit,
      with a value that fits in a 64-bit `int`; anything else is an error. */
  function Atoi(s: string): (r: Option<int>)
    ensures r.Some? ==> MinInt64 <= r.value <= MaxInt64
  {
    if |s| == 0 then None
    else
      var negative := s[0] == '-';
      var body := if s[0] == '+' || s[0] == '-' then s[1..] else s;
      if |body| == 0 || !AllDigits(body) then None
      else
        var v: int := if negative then -(DecimalValue(body) as int) else DecimalValue(body) as int;
        if MinInt64 <= v <= MaxInt64 then Some(v) else None
  }

  /** Atoi reads back every numeral that `%d` prints for a non-negative `int`. */
  lemma AtoiOfDecimal(n: nat)
    requires n <= MaxInt64
    ensures Atoi(DecimalString(n)) == Some(n)
  {
    DecimalRoundTrip(n);
  }

  /** Atoi reads back every numeral that `%d` prints for a negative `int`. */
  lemma AtoiOfNegative(n: nat)
    requires 1 <= n <= MaxInt64 + 1
    ensures Atoi("-" + DecimalString(n)) == Some(-(n as int))
  {
    var s := "-" + DecimalString(n);
    assert s[0] == '-' && s[1..] == DecimalString(n);
    DecimalRoundTrip(n);
  }

  /** What Atoi accepts: an optional '+' or '-' followed by at least one
      decimal digit and nothing else; the value is that of the digits,
      negated after a '-'. */
  lemma AtoiMeaning(s: string, v: int)
    requires Atoi(s) == Some(v)
    ensures |s| >= 1
    ensures s[0] == '-' ==> |s| >= 2 && AllDigits(s[1..]) && v == -(DecimalValue(s[1..]) as int)
    ensures s[0] == '+' ==> |s| >= 2 && AllDigits(s[1..]) && v == DecimalValue(s[1..])
    ensures s[0] != '-' && s[0] != '+' ==> AllDigits(s) && v == DecimalValue(s)
  {
  }

  /** A numeral without superfluous leading zeros is the one `%d` prints for its value. */
  lemma {:induction false} DecimalCanonical(s: string)
    requires 1 <= |s| && AllDigits(s) && !(|s| > 1 && s[0] == '0')
    ensures DecimalString(DecimalValue(s)) == s
    decreases |s|
  {
    if |s| > 1 {
      var t := s[..|s| - 1];
      assert t[0] == s[0];
      DecimalCanonical(t);
      var n := DecimalValue(s);
      assert DecimalValue(t) != 0;
      assert n / 10 == DecimalValue(t) && n % 10 == DigitValue(s[|s| - 1]);
      assert DigitChar(n % 10) == s[|s| - 1];
      assert s == t + [s[|s| - 1]];
    }
  }

  const LowerHexDigits: string := "0123456789abcdef"

  predicate IsLowerHex(c: char) { '0' <= c <= '9' || 'a' <= c <= 'f' }

  function HexValue(c: char): (v: nat)
    requires IsLowerHex(c)
    ensures v < 16 && LowerHexDigits[v] == c
  {
    if c <= '9' then c as int - '0' as int else c as int - 'a' as int + 10
  }

  /** `%02x`: a byte as exactly two lower-case hexadecimal digits. */
  function Hex2(b: uint8): (s: string)
    ensures |s| == 2 && IsLowerHex(s[0]) && IsLowerHex(s[1])
    ensures 16 * HexValue(s[0]) + HexValue(s[1]) == b
  {
    HexDigitValue(b / 16);
    HexDigitValue(b % 16);
    [LowerHexDigits[b / 16], LowerHexDigits[b % 16]]
  }

  lemma HexDigitValue(k: nat)
    requires k < 16
    ensures IsLowerHex(LowerHexDigits[k]) && HexValue(LowerHexDigits[k]) == k
  {
    if k < 10 {
      assert LowerHexDigits[k] as int == '0' as int + k;
    } else {
      assert LowerHexDigits[k] as int == 'a' as int + k - 10;
    }
  }

  /** The byte that a two-digit lower-case hexadecimal pair denotes. */
  function HexPairValue(s: string): (b: uint8)
    requires |s| == 2 && IsLowerHex(s[0]) && IsLowerHex(s[1])
  {
    16 * HexValue(s[0]) + HexValue(s[1])
  }
}
