/** Notions shared by several models: optional values, text at a position of a longer text, powers of two
    and decimal numbers. */
module Common {

  datatype Option<+T> = None | Some(value: T)

  predicate At(s: string, i: nat, t: string) {
    i + |t| <= |s| && forall k :: 0 <= k < |t| ==> s[i + k] == t[k]
  }

  lemma AtSplit(s: string, i: nat, a: string, b: string)
    requires At(s, i, a + b)
    ensures At(s, i, a) && At(s, i + |a|, b)
  {
    assert forall k :: 0 <= k < |a| ==> (a + b)[k] == a[k];
    forall k | 0 <= k < |b| ensures s[i + |a| + k] == b[k] {
      assert (a + b)[|a| + k] == b[k];
    }
  }

  // ---------------------------------------------------------------- numbers

  function Min(a: nat, b: nat): nat {
    if a <= b then a else b
  }

  function Max(a: nat, b: nat): nat {
    if a <= b then b else a
  }

  function Pow2(n: nat): (r: nat)
    ensures r > 0
  {
    if n == 0 then 1 else 2 * Pow2(n - 1)
  }

  function Doubled(start: nat, n: nat): nat {
    if n == 0 then start else 2 * Doubled(start, n - 1)
  }

  lemma {:induction false} DoubledIsProduct(start: nat, n: nat)
    ensures Doubled(start, n) == start * Pow2(n)
  {
    if n > 0 {
      DoubledIsProduct(start, n - 1);
      assert start * (2 * Pow2(n - 1)) == 2 * (start * Pow2(n - 1));
    }
  }

  lemma {:induction false} DoubledGrows(start: nat, m: nat, n: nat)
    requires m <= n
    ensures Doubled(start, m) <= Doubled(start, n)
    decreases n - m
  {
    if m < n {
      DoubledGrows(start, m, n - 1);
    }
  }

  // ---------------------------------------------------------------- decimal numbers as text

  predicate IsDigit(c: char) {
    '0' <= c <= '9'
  }

  function DigitChar(d: nat): (c: char)
    requires d < 10
    ensures IsDigit(c) && (c - '0') as nat == d
  {
    '0' + d as char
  }

  function Decimal(n: nat): (s: string)
    ensures |s| > 0
    ensures forall k :: 0 <= k < |s| ==> IsDigit(s[k])
  {
    if n < 10 then [DigitChar(n)] else Decimal(n / 10) + [DigitChar(n % 10)]
  }

  /** The number spelled by the digits from i on, after acc has been read. */
  function {:tailrecursion false} NumberAt(s: string, i: nat, acc: nat): nat
    decreases |s| - i
  {
    if i < |s| && IsDigit(s[i]) then NumberAt(s, i + 1, acc * 10 + (s[i] - '0') as nat) else acc
  }

  lemma {:induction false} ReadDecimal(s: string, i: nat, n: nat)
    requires At(s, i, Decimal(n))
    ensures NumberAt(s, i, 0) == NumberAt(s, i + |Decimal(n)|, n)
    decreases n
  {
    if n < 10 {
      assert s[i + 0] == Decimal(n)[0];
    } else {
      var front, last := Decimal(n / 10), [DigitChar(n % 10)];
      AtSplit(s, i, front, last);
      assert s[i + |front| + 0] == last[0];
      ReadDecimal(s, i, n / 10);
    }
  }
}
