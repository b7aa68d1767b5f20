/** Construct ids built by appending a loop index to a fixed prefix.

The stacks name their constructs `'Vpc' + index`, `'DefaultSecurityGroup' + index`,
`'RouteFromPrivateSubnetOfVpc1ToVpc2' + index` and so on.  JavaScript renders a
non-negative integer in such a concatenation as its decimal digits without leading
zeros.  Two constructs of one scope must not share an id, so the facts worth having
are that this rendering is injective and that differing prefixes keep ids apart.
 */
module Naming {

  /** True iff every character of `s` is a decimal digit. */
  predicate IsDigits(s: string) {
    forall i :: 0 <= i < |s| ==> '0' <= s[i] <= '9'
  }

  /** The digit character for a digit value. */
  function DigitChar(d: nat): (c: char)
    requires d < 10
    ensures '0' <= c <= '9'
    ensures c as int - '0' as int == d
  {
    (d + '0' as int) as char
  }

  /** The text JavaScript produces for a non-negative integer in a string
      concatenation: `'Vpc' + 10` is `"Vpc10"`. */
  function Decimal(n: nat): (s: string)
    ensures |s| >= 1 && IsDigits(s)
    ensures s[0] == '0' <==> n == 0
    ensures n >= 10 <==> |s| >= 2
    decreases n
  {
    if n < 10 then [DigitChar(n)] else Decimal(n / 10) + [DigitChar(n % 10)]
  }

  /** The number a string of decimal digits denotes (the inverse of `Decimal`). */
  function DigitsValue(s: string): nat
    requires IsDigits(s)
  {
    if |s| == 0 then 0
    else 10 * DigitsValue(s[..|s| - 1]) + (s[|s| - 1] as int - '0' as int)
  }

  /** Reading back the digits of `Decimal(n)` gives `n`. */
  lemma {:induction false} DigitsValueOfDecimal(n: nat)
    ensures DigitsValue(Decimal(n)) == n
    decreases n
  {
    if n >= 10 {
      var s := Decimal(n);
      assert s[..|s| - 1] == Decimal(n / 10);
      DigitsValueOfDecimal(n / 10);
    }
  }

  /** Distinct indices are rendered as distinct strings. */
  lemma DecimalInjective(m: nat, n: nat)
    ensures Decimal(m) == Decimal(n) ==> m == n
  {
    DigitsValueOfDecimal(m);
    DigitsValueOfDecimal(n);
  }

  /** The construct id `prefix + index`. */
  function Numbered(prefix: string, index: nat): (id: string)
    ensures |id| > |prefix|
  {
    prefix + Decimal(index)
  }

  /** Ids that share a prefix are equal exactly when their indices are. */
  lemma NumberedInjective(prefix: string, i: nat, j: nat)
    ensures Numbered(prefix, i) == Numbered(prefix, j) <==> i == j
  {
    if Numbered(prefix, i) == Numbered(prefix, j) {
      assert Numbered(prefix, i)[|prefix|..] == Decimal(i);
      assert Numbered(prefix, j)[|prefix|..] == Decimal(j);
      DecimalInjective(i, j);
    }
  }

  /** True iff neither string is a prefix of the other: they differ at some
      position both have. */
  predicate Diverge(p: string, q: string) {
    exists k :: 0 <= k < |p| && k < |q| && p[k] != q[k]
  }

  /** Ids with diverging prefixes never collide, whatever their indices. */
  lemma NumberedApart(p: string, q: string, i: nat, j: nat)
    requires Diverge(p, q)
    ensures Numbered(p, i) != Numbered(q, j)
  {
    var k :| 0 <= k < |p| && k < |q| && p[k] != q[k];
    assert Numbered(p, i)[k] == p[k];
    assert Numbered(q, j)[k] == q[k];
  }
}
