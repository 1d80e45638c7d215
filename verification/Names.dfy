/** The names a plan takes on its way through Substrait: columns by position, seams and common table expressions by
index. Different numbers give different names.
*/
module Names {

  const DIGITS := "0123456789"

  /** A number in base ten. */
  function Decimal(n: nat): (s: string)
    ensures |s| > 0
  {
    if n < 10 then [DIGITS[n]] else Decimal(n / 10) + [DIGITS[n % 10]]
  }

  lemma {:induction false} DecimalInjective(m: nat, n: nat)
    requires Decimal(m) == Decimal(n)
    ensures m == n
  {
    assert m < 10 <==> |Decimal(m)| == 1;
    assert n < 10 <==> |Decimal(n)| == 1;
    if m < 10 {
    } else {
      var a, b := Decimal(m / 10), Decimal(n / 10);
      assert Decimal(m)[|a|] == DIGITS[m % 10] && Decimal(n)[|b|] == DIGITS[n % 10];
      assert |a| == |b|;
      assert Decimal(m)[..|a|] == a && Decimal(n)[..|a|] == b;
      DecimalInjective(m / 10, n / 10);
      assert m == 10 * (m / 10) + m % 10 && n == 10 * (n / 10) + n % 10;
    }
  }

  function ColumnName(i: nat): string {
    "c" + Decimal(i)
  }

  function SeamName(index: nat): string {
    "seam_" + Decimal(index)
  }

  function CteName(index: nat): string {
    "crossing_cte_" + Decimal(index)
  }

  function ColumnNames(width: nat): (r: seq<string>)
    ensures |r| == width
    ensures forall i :: 0 <= i < width ==> r[i] == ColumnName(i)
  {
    seq(width, i requires 0 <= i < width => ColumnName(i))
  }

  /** A name made of a fixed prefix and a number tells the number. */
  lemma PrefixedInjective(prefix: string, m: nat, n: nat)
    requires prefix + Decimal(m) == prefix + Decimal(n)
    ensures m == n
  {
    assert (prefix + Decimal(m))[|prefix|..] == Decimal(m) && (prefix + Decimal(n))[|prefix|..] == Decimal(n);
    DecimalInjective(m, n);
  }

  lemma ColumnNamesDiffer(i: nat, j: nat)
    ensures ColumnName(i) == ColumnName(j) <==> i == j
    ensures SeamName(i) == SeamName(j) <==> i == j
    ensures CteName(i) == CteName(j) <==> i == j
  {
    if ColumnName(i) == ColumnName(j) {
      PrefixedInjective("c", i, j);
    }
    if SeamName(i) == SeamName(j) {
      PrefixedInjective("seam_", i, j);
    }
    if CteName(i) == CteName(j) {
      PrefixedInjective("crossing_cte_", i, j);
    }
  }
}
