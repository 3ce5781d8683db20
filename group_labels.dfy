/**
 * The series label `Grupo ${idx + 1}` that the page gives to cluster `idx`:
 * the JavaScript template literal renders the number in decimal, so the
 * label is "Grupo " followed by the decimal digits of idx + 1.
 */
module GroupLabels {

  predicate IsDigit(c: char) {
    '0' <= c <= '9'
  }

  predicate AllDigits(s: string) {
    forall k :: 0 <= k < |s| ==> IsDigit(s[k])
  }

  function DigitChar(d: nat): (c: char)
    requires d < 10
    ensures IsDigit(c)
  {
    ('0' as int + d) as char
  }

  function DigitValue(c: char): (d: nat)
    requires IsDigit(c)
    ensures d < 10
  {
    c as int - '0' as int
  }

  /** How a JavaScript number that is a non-negative integer prints: decimal, no leading zeros. */
  function Decimal(n: nat): (s: string)
    ensures |s| >= 1 && AllDigits(s)
    ensures |s| == 1 <==> n < 10
  {
    if n < 10 then [DigitChar(n)] else Decimal(n / 10) + [DigitChar(n % 10)]
  }

  /** A positive number prints without a leading zero. */
  lemma {:induction false} DecimalNoLeadingZero(n: nat)
    requires n > 0
    ensures Decimal(n)[0] != '0'
  {
    if n >= 10 {
      DecimalNoLeadingZero(n / 10);
    }
  }

  /** Reads a string of decimal digits back as a number. */
  function DecimalValue(s: string): nat
    requires AllDigits(s)
  {
    if s == [] then 0 else DecimalValue(s[..|s| - 1]) * 10 + DigitValue(s[|s| - 1])
  }

  /** Decimal rendering is undone by reading the digits back. */
  lemma {:induction false} DecimalRoundTrip(n: nat)
    ensures DecimalValue(Decimal(n)) == n
  {
    var s := Decimal(n);
    if n < 10 {
      assert s[..0] == [];
    } else {
      assert s[..|s| - 1] == Decimal(n / 10);
      DecimalRoundTrip(n / 10);
    }
  }

  /** The label of the cluster at (0-based) position idx. */
  function GroupLabel(idx: nat): (name: string)
    ensures |name| > 6 && name[..6] == "Grupo "
  {
    "Grupo " + Decimal(idx + 1)
  }

  /** The labels of the first n clusters. */
  function GroupLabelsUpTo(n: nat): set<string> {
    if n == 0 then {} else GroupLabelsUpTo(n - 1) + {GroupLabel(n - 1)}
  }

  /** The labels of the first n clusters are those of the positions below n. */
  lemma {:induction false} GroupLabelsUpToMembers(n: nat, name: string)
    ensures name in GroupLabelsUpTo(n) <==> exists i :: 0 <= i < n && name == GroupLabel(i)
  {
    if n > 0 {
      GroupLabelsUpToMembers(n - 1, name);
      if name == GroupLabel(n - 1) {
        assert 0 <= n - 1 < n && name == GroupLabel(n - 1);
      } else if exists i :: 0 <= i < n && name == GroupLabel(i) {
        var i :| 0 <= i < n && name == GroupLabel(i);
        assert i < n - 1;
      }
    }
  }

  /** Different clusters never share a label. */
  lemma GroupLabelInjective(i: nat, j: nat)
    requires GroupLabel(i) == GroupLabel(j)
    ensures i == j
  {
    assert GroupLabel(i)[6..] == Decimal(i + 1);
    assert GroupLabel(j)[6..] == Decimal(j + 1);
    DecimalRoundTrip(i + 1);
    DecimalRoundTrip(j + 1);
  }

  /** The label of cluster m is not among the labels of the clusters before position n <= m. */
  lemma {:induction false} GroupLabelFresh(m: nat, n: nat)
    requires n <= m
    ensures GroupLabel(m) !in GroupLabelsUpTo(n)
  {
    if n > 0 {
      GroupLabelFresh(m, n - 1);
      if GroupLabel(m) == GroupLabel(n - 1) {
        GroupLabelInjective(m, n - 1);
      }
    }
  }

  /** There are exactly n labels for n clusters. */
  lemma {:induction false} GroupLabelsUpToSize(n: nat)
    ensures |GroupLabelsUpTo(n)| == n
  {
    if n > 0 {
      GroupLabelsUpToSize(n - 1);
      GroupLabelFresh(n - 1, n - 1);
    }
  }
}
