/** The JavaScript values the scripts test for presence: a field that may be
    `undefined`/`null`, and a message that may not parse. */
module Wrappers {

  datatype Option<+T> = None | Some(value: T)
}

/** The two string operations the scripts rely on: `String.prototype.includes`
    and decimal rendering of a loop counter inside a template literal. */
module Strings {

  /** `sub` occurs in `s` starting at index `i`. */
  predicate OccursAt(s: string, sub: string, i: nat)
  {
    i + |sub| <= |s| && s[i..i + |sub|] == sub
  }

  /** Search for `sub` in `s` from index `i` onwards, the way `includes` scans. */
  function ContainsFrom(s: string, sub: string, i: nat): (b: bool)
    requires i <= |s|
    ensures b <==> exists k :: i <= k && OccursAt(s, sub, k)
    decreases |s| - i
  {
    if OccursAt(s, sub, i) then true
    else if i == |s| then false
    else ContainsFrom(s, sub, i + 1)
  }

  /** `s.includes(sub)`. */
  function Contains(s: string, sub: string): (b: bool)
    ensures b <==> exists k :: OccursAt(s, sub, k)
  {
    ContainsFrom(s, sub, 0)
  }

  function DigitChar(d: nat): (c: char)
    requires d < 10
  {
    "0123456789"[d]
  }

  /** Decimal rendering of a non-negative integer, as `${i}` produces it. */
  function NatToString(n: nat): (s: string)
    ensures |s| >= 1
    ensures n < 10 <==> |s| == 1
    ensures s[|s| - 1] == DigitChar(n % 10)
    decreases n
  {
    if n < 10 then [DigitChar(n)] else NatToString(n / 10) + [DigitChar(n % 10)]
  }

  lemma DigitCharInjective(a: nat, b: nat)
    requires a < 10 && b < 10 && DigitChar(a) == DigitChar(b)
    ensures a == b
  {
  }

  /** Distinct numbers render to distinct strings. */
  lemma {:induction false} NatToStringInjective(m: nat, n: nat)
    requires NatToString(m) == NatToString(n)
    ensures m == n
    decreases m
  {
    var s := NatToString(m);
    DigitCharInjective(m % 10, n % 10);
    if m >= 10 {
      assert n >= 10;
      assert NatToString(m / 10) == s[..|s| - 1] == NatToString(n / 10);
      NatToStringInjective(m / 10, n / 10);
    }
  }
}

/** Comparisons of a quotient, for the ratios the scripts compute in floating point. */
module RealArith {

  lemma QuotientCompare(a: real, t: real, c: real)
    requires t > 0.0
    ensures a / t <= c <==> a <= c * t
    ensures a / t == c <==> a == c * t
    ensures a / t >= c <==> a >= c * t
  {
    var q := a / t;
    assert q * t == a;
    if q <= c {
      assert q * t <= c * t;
    } else {
      assert q * t > c * t;
    }
    if q >= c {
      assert q * t >= c * t;
    } else {
      assert q * t < c * t;
    }
  }
}
