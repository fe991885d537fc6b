/** Shared vocabulary for the calculator: optional values, the dynamically
    typed values the UI hands to the core, and the numeric primitives the
    code uses (Math.round, Math.pow with a whole exponent, Math.max/min). */
module JsValues {

  datatype Option<T> = None | Some(value: T) {
    /** `x ?? d`, and `x || d` for a value that is never falsy when present. */
    function GetOr(d: T): T {
      if Some? then value else d
    }
  }

  /** A JavaScript value of the kinds the calculator passes around: a property
      that is missing, an explicit null, a number or a string. NaN and the
      infinities are not represented. */
  datatype Value = Undefined | Null | Num(x: real) | Str(s: string)

  /** `v == null` (loose equality: null and undefined alike). */
  predicate IsNullish(v: Value) {
    v.Undefined? || v.Null?
  }

  /** JavaScript truthiness of a value. */
  predicate Truthy(v: Value) {
    match v
    case Undefined => false
    case Null => false
    case Num(x) => x != 0.0
    case Str(s) => s != ""
  }

  /** The numeric conversion a relational comparison applies; None stands for
      NaN. null becomes 0, the empty string becomes 0, and every other string
      is taken to be one that does not spell a number. */
  function ToNumber(v: Value): (n: Option<real>)
    ensures v.Num? ==> n == Some(v.x)
    ensures v.Undefined? ==> n.None?
    ensures v.Null? ==> n == Some(0.0)
    ensures v.Str? ==> (n.Some? <==> v.s == "") && (n.Some? ==> n.value == 0.0)
  {
    match v
    case Undefined => None
    case Null => Some(0.0)
    case Num(x) => Some(x)
    case Str(s) => if s == "" then Some(0.0) else None
  }

  /** `v < c` in JavaScript: false whenever either side converts to NaN. */
  predicate LessThan(v: Value, c: real) {
    ToNumber(v).Some? && ToNumber(v).value < c
  }

  /** `v >= c` in JavaScript: false whenever either side converts to NaN. */
  predicate AtLeast(v: Value, c: real) {
    ToNumber(v).Some? && ToNumber(v).value >= c
  }

  /** `v || 0` for a value that is a number, or missing. */
  function NumOrZero(v: Value): real {
    if v.Num? then v.x else 0.0
  }

  function Max(a: real, b: real): (m: real)
    ensures m >= a && m >= b && (m == a || m == b)
  {
    if a >= b then a else b
  }

  function Min(a: real, b: real): (m: real)
    ensures m <= a && m <= b && (m == a || m == b)
  {
    if a <= b then a else b
  }

  /** `Math.min` on counts and indices. */
  function MinNat(a: nat, b: nat): (m: nat)
    ensures m <= a && m <= b && (m == a || m == b)
  {
    if a <= b then a else b
  }

  function Abs(x: real): (a: real)
    ensures a >= 0.0 && (a == x || a == -x)
  {
    if x < 0.0 then -x else x
  }

  /** A ratio over a positive denominator exceeds c exactly when the numerator
      exceeds c times the denominator. */
  lemma RatioAbove(a: real, b: real, c: real)
    ensures b > 0.0 ==> (a / b > c <==> a > c * b)
  {
    if b > 0.0 {
      var q := a / b;
      assert q * b == a;
      if q > c {
        assert (q - c) * b > 0.0;
      } else {
        assert (c - q) * b >= 0.0;
      }
    }
  }

  /** The same for "at least". */
  lemma RatioAtLeast(a: real, b: real, c: real)
    ensures b > 0.0 ==> (a / b >= c <==> a >= c * b)
  {
    if b > 0.0 {
      var q := a / b;
      assert q * b == a;
      if q >= c {
        assert (q - c) * b >= 0.0;
      } else {
        assert (c - q) * b > 0.0;
      }
    }
  }

  /** Dividing by a positive number preserves order. */
  lemma RatioMonotone(a1: real, a2: real, b: real)
    requires a1 <= a2 && b > 0.0
    ensures a1 / b <= a2 / b
  {
    RatioAtLeast(a2, b, a1 / b);
    var q := a1 / b;
    assert q * b == a1;
  }

  /** Math.round: the nearest integer, halves rounded up. */
  function Round(x: real): (n: int)
    ensures x - 0.5 < n as real <= x + 0.5
  {
    (x + 0.5).Floor
  }

  lemma RoundMonotone(x: real, y: real)
    requires x <= y
    ensures Round(x) <= Round(y)
  {
  }

  lemma RoundOfInt(n: int)
    ensures Round(n as real) == n
  {
  }

  /** Math.pow(x, n) for a whole, non-negative exponent. */
  function Pow(x: real, n: nat): real {
    if n == 0 then 1.0 else x * Pow(x, n - 1)
  }

  lemma {:induction false} PowPositive(x: real, n: nat)
    requires x > 0.0
    ensures Pow(x, n) > 0.0
  {
    if n > 0 {
      PowPositive(x, n - 1);
    }
  }

  lemma {:induction false} PowAtLeastOne(x: real, n: nat)
    requires x >= 1.0
    ensures Pow(x, n) >= 1.0
  {
    if n > 0 {
      PowAtLeastOne(x, n - 1);
      assert x * Pow(x, n - 1) >= Pow(x, n - 1);
    }
  }

  /** A base above 1 raised to a positive power is above 1; a base in (0, 1)
      raised to a positive power stays in (0, 1). */
  lemma {:induction false} PowStrict(x: real, n: nat)
    requires x > 0.0 && n >= 1
    ensures x > 1.0 ==> Pow(x, n) > 1.0
    ensures x < 1.0 ==> Pow(x, n) < 1.0
  {
    if n > 1 {
      PowStrict(x, n - 1);
      PowPositive(x, n - 1);
      if x > 1.0 {
        assert x * Pow(x, n - 1) > Pow(x, n - 1);
      } else if x < 1.0 {
        assert x * Pow(x, n - 1) < Pow(x, n - 1);
      }
    }
  }

  /** For a base in [0, 1], raising to a higher power never increases the value. */
  lemma {:induction false} PowAntitoneInExponent(x: real, m: nat, n: nat)
    requires 0.0 <= x <= 1.0 && m <= n
    ensures 0.0 <= Pow(x, n) <= Pow(x, m) <= 1.0
  {
    if n > m {
      PowAntitoneInExponent(x, m, n - 1);
      PowInUnitInterval(x, n);
      PowStepDown(x, n - 1);
    } else {
      PowInUnitInterval(x, m);
    }
  }

  lemma PowStepDown(x: real, n: nat)
    requires 0.0 <= x <= 1.0
    ensures Pow(x, n + 1) <= Pow(x, n)
  {
    PowInUnitInterval(x, n);
    var p := Pow(x, n);
    assert x * p <= 1.0 * p;
  }

  lemma {:induction false} PowInUnitInterval(x: real, n: nat)
    requires 0.0 <= x <= 1.0
    ensures 0.0 <= Pow(x, n) <= 1.0
  {
    if n > 0 {
      PowInUnitInterval(x, n - 1);
      var p := Pow(x, n - 1);
      assert (1.0 - x) * p >= 0.0;
      assert x * p >= 0.0;
    }
  }

  /** For a base of at least 1, raising to a higher power never decreases the value. */
  lemma {:induction false} PowMonotoneInExponent(x: real, m: nat, n: nat)
    requires x >= 1.0 && m <= n
    ensures 1.0 <= Pow(x, m) <= Pow(x, n)
  {
    if n > m {
      PowMonotoneInExponent(x, m, n - 1);
      assert x * Pow(x, n - 1) >= Pow(x, n - 1);
    } else {
      PowAtLeastOne(x, m);
    }
  }

  /** The decimal digits of a natural number, as `String(n)` writes them. */
  function NatToString(n: nat): (s: string)
    ensures |s| >= 1
    ensures forall i :: 0 <= i < |s| ==> '0' <= s[i] <= '9'
  {
    if n < 10 then [DigitChar(n)] else NatToString(n / 10) + [DigitChar(n % 10)]
  }

  function DigitChar(d: nat): (c: char)
    requires d < 10
    ensures '0' <= c <= '9' && (c as int) - ('0' as int) == d
  {
    ('0' as int + d) as char
  }
}
