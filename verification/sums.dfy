/** Sums and truncating means of packet-size sequences, the reference against
    which every aggregation strategy is compared. */
module Sums {

  /** The sum of all sizes in `s`. */
  function Sum(s: seq<nat>): nat
  {
    if |s| == 0 then 0 else Sum(s[..|s| - 1]) + s[|s| - 1]
  }

  /** The arithmetic mean of `s`, truncated; zero for no samples. */
  function Mean(s: seq<nat>): nat
  {
    if |s| == 0 then 0 else Sum(s) / |s|
  }

  /** Every size in `s` lies in `[lo, hi]`. */
  predicate AllWithin(s: seq<nat>, lo: nat, hi: nat)
  {
    forall i :: 0 <= i < |s| ==> lo <= s[i] <= hi
  }

  /** The sequence `s` read back to front. */
  function Reverse<T>(s: seq<T>): (r: seq<T>)
    ensures |r| == |s|
    ensures forall i :: 0 <= i < |s| ==> r[i] == s[|s| - 1 - i]
  {
    if |s| == 0 then [] else [s[|s| - 1]] + Reverse(s[..|s| - 1])
  }

  lemma {:induction false} SumAppend(s: seq<nat>, t: seq<nat>)
    ensures Sum(s + t) == Sum(s) + Sum(t)
    decreases |t|
  {
    if |t| == 0 {
      assert s + t == s;
    } else {
      assert (s + t)[..|s + t| - 1] == s + t[..|t| - 1];
      SumAppend(s, t[..|t| - 1]);
    }
  }

  /** The sum splits off the first element. */
  lemma SumCons(s: seq<nat>)
    requires |s| > 0
    ensures Sum(s) == s[0] + Sum(s[1..])
  {
    SumAppend([s[0]], s[1..]);
    assert [s[0]] + s[1..] == s;
    assert [s[0]][..0] == [];
  }

  /** Summing is insensitive to the order the sizes are visited in. */
  lemma {:induction false} SumReverse(s: seq<nat>)
    ensures Sum(Reverse(s)) == Sum(s)
    decreases |s|
  {
    if |s| > 0 {
      var p := s[..|s| - 1];
      SumReverse(p);
      SumAppend([s[|s| - 1]], Reverse(p));
      assert [s[|s| - 1]][..0] == [];
    }
  }

  /** Go's `/` on `int` truncates toward zero; Dafny's is Euclidean. */
  function GoDiv(a: int, b: int): (q: int)
    requires b > 0
    ensures a >= 0 ==> q * b <= a < q * b + b
    ensures a < 0 ==> q <= 0 && a <= q * b && q * b - b < a
  {
    if a >= 0 then a / b else -((-a) / b)
  }

  /** Truncated division of naturals: the quotient times the divisor never
      exceeds the dividend and the remainder is below the divisor. */
  lemma DivBounds(a: nat, d: nat)
    requires d > 0
    ensures (a / d) * d <= a < (a / d) * d + d
  {
  }

  /** `a / d` is at least `lo` when `a` is at least `lo * d`. */
  lemma DivAtLeast(a: nat, d: nat, lo: nat)
    requires d > 0 && lo * d <= a
    ensures lo <= a / d
  {
    DivBounds(a, d);
    if a / d < lo {
      assert (a / d + 1) * d <= lo * d by {
        MulMonotone(a / d + 1, lo, d);
      }
    }
  }

  /** `a / d` is at most `hi` when `a` is at most `hi * d`. */
  lemma DivAtMost(a: nat, d: nat, hi: nat)
    requires d > 0 && a <= hi * d
    ensures a / d <= hi
  {
    DivBounds(a, d);
    if a / d > hi {
      assert (hi + 1) * d <= (a / d) * d by {
        MulMonotone(hi + 1, a / d, d);
      }
    }
  }

  /** Quotient and remainder are determined by the division equation. */
  lemma DivUnique(a: nat, d: nat, q: nat, r: nat)
    requires d > 0 && r < d && a == q * d + r
    ensures a / d == q && a % d == r
  {
    DivBounds(a, d);
    if a / d < q {
      MulMonotone(a / d + 1, q, d);
    } else if a / d > q {
      MulMonotone(q + 1, a / d, d);
    }
  }

  lemma MulSucc(a: nat, b: nat)
    ensures a * (b + 1) == a * b + a
  {
  }

  lemma MulMonotone(x: nat, y: nat, d: nat)
    requires x <= y
    ensures x * d <= y * d
  {
  }
}
