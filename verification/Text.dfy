/** The text the handlers produce: snprintf and its %u, %d and %.Nf conversions. */
module Text {

  // ---- Decimal integers ----

  const DIGITS: string := "0123456789"

  function Digit(d: nat): char
    requires d < 10
  {
    DIGITS[d]
  }

  predicate IsDigit(c: char) { '0' <= c <= '9' }

  function DigitValue(c: char): nat
    requires IsDigit(c)
  {
    c as int - '0' as int
  }

  /** %u */
  function Dec(n: nat): string {
    if n < 10 then [Digit(n)] else Dec(n / 10) + [Digit(n % 10)]
  }

  /** %d */
  function Int(n: int): string {
    if n < 0 then "-" + Dec(-n) else Dec(n)
  }

  predicate AllDigits(s: string) { forall i :: 0 <= i < |s| ==> IsDigit(s[i]) }

  /** Reading digits back. */
  function Value(s: string): nat
    requires AllDigits(s)
  {
    if s == [] then 0 else 10 * Value(s[..|s| - 1]) + DigitValue(s[|s| - 1])
  }

  function ParseInt(s: string): int
    requires AllDigits(if s != [] && s[0] == '-' then s[1..] else s)
  {
    if s != [] && s[0] == '-' then 0 - Value(s[1..]) else Value(s)
  }

  lemma DigitFacts(d: nat)
    requires d < 10
    ensures IsDigit(Digit(d)) && DigitValue(Digit(d)) == d
  {
  }

  lemma {:induction false} DecDigits(n: nat)
    ensures AllDigits(Dec(n)) && |Dec(n)| >= 1 && Value(Dec(n)) == n
  {
    hide Digit;
    DigitFacts(n % 10);
    if n < 10 {
      assert [Digit(n)][..0] == [];
    } else {
      DecDigits(n / 10);
      assert Dec(n)[..|Dec(n)| - 1] == Dec(n / 10);
    }
  }

  /** Printing an integer and reading it back is the identity. */
  lemma IntRoundTrip(n: int)
    ensures Int(n) != [] && AllDigits(if Int(n)[0] == '-' then Int(n)[1..] else Int(n))
    ensures ParseInt(Int(n)) == n
    ensures ',' !in Int(n)
  {
    hide Dec, Value;
    DecDigits(if n < 0 then -n else n);
    var d := Dec(if n < 0 then -n else n);
    assert ("-" + d)[1..] == d;
  }

  function Pow10(k: nat): (p: nat)
    ensures p >= 1
  {
    if k == 0 then 1 else 10 * Pow10(k - 1)
  }

  lemma {:induction false} DecLength(n: nat, k: nat)
    requires k >= 1 && n < Pow10(k)
    ensures 1 <= |Dec(n)| <= k
    decreases k
  {
    if n >= 10 {
      assert k >= 2;
      assert n / 10 < Pow10(k - 1);
      DecLength(n / 10, k - 1);
    }
  }

  lemma IntLength(n: int, k: nat)
    requires k >= 1 && 0 - Pow10(k) < n < Pow10(k)
    ensures 1 <= |Int(n)| <= k + 1 && (n >= 0 ==> |Int(n)| <= k)
  {
    hide Dec;
    DecLength(if n < 0 then -n else n, k);
  }

  // ---- Fixed-point conversions of finite floating-point values ----

  /** A finite floating-point value; the sign is kept apart because C prints that of a zero. */
  datatype Finite = Finite(neg: bool, mag: real) {
    function Val(): real { if neg then -mag else mag }
  }
  type Float = x: Finite | x.mag >= 0.0 witness Finite(false, 0.0)

  /** The largest finite single-precision value, (2 - 2^-23) * 2^127, has 39 decimal digits. */
  const FLT_MAX: real := 340282346638528859811704183484516925440.0

  type Single = x: Float | x.mag <= FLT_MAX witness Finite(false, 0.0)

  /** Nearest integer, ties to even. */
  function Round(x: real): (r: nat)
    requires x >= 0.0
    ensures x - 0.5 <= r as real <= x + 0.5
  {
    var f := x.Floor;
    var rest := x - f as real;
    if rest < 0.5 || (rest == 0.5 && f % 2 == 0) then f else f + 1
  }

  /** `d` digits with leading zeros. */
  function Pad(n: nat, d: nat): (s: string)
    ensures |s| == d
  {
    if d == 0 then [] else Pad(n / 10, d - 1) + [Digit(n % 10)]
  }

  /** A magnitude in units of 1/p. */
  function Scaled(m: real, p: nat): nat
    requires m >= 0.0
  {
    MulMono(0.0, m, p as real);
    Round(m * p as real)
  }

  /** %.df, for d > 0 */
  function Fixed(x: Float, d: nat): string {
    (if x.neg then "-" else "") + Point(Scaled(x.mag, Pow10(d)), Pow10(d), d)
  }

  function Point(n: nat, p: nat, d: nat): string
    requires p >= 1
  {
    Dec(n / p) + "." + Pad(n % p, d)
  }

  lemma {:induction false} PadValue(n: nat, d: nat)
    requires n < Pow10(d)
    ensures AllDigits(Pad(n, d)) && Value(Pad(n, d)) == n
    decreases d
  {
    hide Digit;
    if d > 0 {
      DigitFacts(n % 10);
      PadValue(n / 10, d - 1);
      assert Pad(n, d)[..d - 1] == Pad(n / 10, d - 1);
    }
  }

  /** The digits before and after the point denote the magnitude to within half a unit in the last place. */
  lemma FixedReadsBack(x: Float, d: nat) returns (whole: string, frac: string)
    ensures Fixed(x, d) == (if x.neg then "-" else "") + (whole + "." + frac)
    ensures AllDigits(whole) && AllDigits(frac) && |frac| == d
    ensures -0.5 <= (Value(whole) * Pow10(d) + Value(frac)) as real - x.mag * Pow10(d) as real <= 0.5
  {
    hide Dec, Pad, Pow10, Value, Round;
    var p := Pow10(d);
    var n := Scaled(x.mag, p);
    MulMono(0.0, x.mag, p as real);
    whole, frac := Dec(n / p), Pad(n % p, d);
    DecDigits(n / p);
    PadValue(n % p, d);
    assert (n / p) * p + n % p == n;
  }

  lemma FixedLength(x: Float, d: nat, k: nat)
    requires k >= 1 && x.mag <= (Pow10(k) - 1) as real
    ensures d + 2 <= |Fixed(x, d)| <= k + d + 2
  {
    hide Dec, Pad, Scaled, Pow10;
    var p, q := Pow10(d), Pow10(k);
    ScaledBound(x.mag, p, q);
    DivBound(Scaled(x.mag, p), p, q);
    DecLength(Scaled(x.mag, p) / p, k);
  }

  lemma ScaledBound(m: real, p: nat, q: nat)
    requires 0.0 <= m <= (q - 1) as real && p >= 1 && q >= 1
    ensures Scaled(m, p) < p * q
  {
    hide Round;
    MulMono(m, (q - 1) as real, p as real);
    assert (q - 1) as real * p as real == ((q - 1) * p) as real;
    assert (q - 1) * p == p * q - p;
    MulMono(0.0, m, p as real);
  }

  lemma MulMono(a: real, b: real, c: real)
    requires 0.0 <= a <= b && c >= 0.0
    ensures 0.0 <= a * c <= b * c
  {
  }

  lemma DivBound(n: nat, p: nat, q: nat)
    requires p >= 1 && n < p * q
    ensures n / p < q
  {
    assert p * (n / p) <= n;
  }

  // ---- Flat JSON objects ----

  /** A key and the text of its value. */
  type Entry = (string, string)

  function Item(e: Entry): string { "\"" + e.0 + "\":" + e.1 }

  function Items(es: seq<Entry>): string {
    if es == [] then [] else if |es| == 1 then Item(es[0]) else Item(es[0]) + "," + Items(es[1..])
  }

  /** A format string of the handlers: {"key":value,...}. */
  function Obj(es: seq<Entry>): string { "{" + Items(es) + "}" }

  function Weight(es: seq<Entry>): nat {
    if es == [] then 0 else |es[0].0| + |es[0].1| + 4 + Weight(es[1..])
  }

  lemma {:induction false} ObjLength(es: seq<Entry>)
    requires es != []
    ensures |Obj(es)| == Weight(es) + 1
  {
    if |es| > 1 {
      ObjLength(es[1..]);
    } else {
      assert Weight(es[1..]) == 0;
    }
  }

  lemma {:induction false} WeightConcat(a: seq<Entry>, b: seq<Entry>)
    ensures Weight(a + b) == Weight(a) + Weight(b)
  {
    if a == [] {
      assert a + b == b;
    } else {
      assert (a + b)[1..] == a[1..] + b;
      WeightConcat(a[1..], b);
    }
  }

  // ---- snprintf ----

  /** What snprintf leaves in a buffer of `size` bytes (without the NUL) and what it returns. */
  datatype Printed = Printed(buf: string, ret: nat)

  function Snprintf(size: nat, text: string): (p: Printed)
    requires size >= 1
    ensures p.buf <= text && |p.buf| == (if |text| < size then |text| else size - 1) && p.ret == |text|
    ensures p.ret == |p.buf| <==> |text| < size
    ensures p.ret == |p.buf| ==> p.buf == text
  {
    Printed(if |text| < size then text else text[..size - 1], |text|)
  }

  /** The C string at the start of `s`: everything before the first NUL. */
  function CStr(s: string): (c: string)
    ensures c <= s && '\0' !in c
    ensures |c| < |s| ==> s[|c|] == '\0'
  {
    if s == [] || s[0] == '\0' then [] else [s[0]] + CStr(s[1..])
  }
}
