/** The size-to-occurrences histogram kept by the map strategy of both
    statistics files (`smap map[int]uint64`), with its two reductions: the
    number of samples and the weighted sum of sizes. */
module Histogram {
  import opened Sums

  type Hist = map<nat, nat>

  /** The count recorded for `size`; an absent key reads as zero, as a Go map
      lookup does. */
  function Get(h: Hist, size: nat): nat
  {
    if size in h then h[size] else 0
  }

  /** `smap[pktSize]++`. */
  function Add(h: Hist, size: nat): (r: Hist)
    ensures r.Keys == h.Keys + {size}
    ensures Get(r, size) == Get(h, size) + 1
    ensures forall k :: k != size ==> Get(r, k) == Get(h, k)
  {
    h[size := Get(h, size) + 1]
  }

  /** Some key of a non-empty histogram. */
  ghost function Pick(h: Hist): (k: nat)
    requires |h| > 0
    ensures k in h
  {
    assert |h.Keys| > 0;
    var k :| k in h.Keys; k
  }

  /** What one entry contributes: its count, or its count times its size. */
  function Entry(size: nat, count: nat, weighted: bool): nat
  {
    if weighted then size * count else count
  }

  /** Sum of `Entry` over all entries, visiting keys in an arbitrary order
      (Go's map iteration order is unspecified). */
  ghost function Fold(h: Hist, weighted: bool): nat
    decreases |h|
  {
    if |h| == 0 then 0
    else
      var k := Pick(h);
      Entry(k, h[k], weighted) + Fold(h - {k}, weighted)
  }

  /** `sum(v)`: the number of samples recorded. */
  ghost function Total(h: Hist): nat
  {
    Fold(h, false)
  }

  /** `sum(k * v)`: the sum of all recorded sizes. */
  ghost function Weighted(h: Hist): nat
  {
    Fold(h, true)
  }

  /** The fold does not depend on which key is visited first. */
  lemma {:induction false} FoldRemove(h: Hist, w: bool, k: nat)
    requires k in h
    ensures Fold(h, w) == Entry(k, h[k], w) + Fold(h - {k}, w)
    decreases |h|
  {
    var j := Pick(h);
    if j != k {
      var hj := h - {j};
      var hk := h - {k};
      assert hj.Keys == h.Keys - {j};
      assert hk.Keys == h.Keys - {k};
      assert k in hj && hj[k] == h[k];
      assert j in hk && hk[j] == h[j];
      FoldRemove(hj, w, k);
      FoldRemove(hk, w, j);
      assert hj - {k} == hk - {j};
    }
  }

  /** Recording one sample of `size` replaces that key's old contribution
      by its new one. */
  lemma FoldAdd(h: Hist, w: bool, size: nat)
    ensures Fold(Add(h, size), w) + Entry(size, Get(h, size), w)
            == Fold(h, w) + Entry(size, Get(h, size) + 1, w)
  {
    var r := Add(h, size);
    var rest := h - {size};
    assert Fold(r, w) == Entry(size, Get(h, size) + 1, w) + Fold(rest, w) by {
      FoldRemove(r, w, size);
      assert r - {size} == rest;
    }
    assert Fold(h, w) == Entry(size, Get(h, size), w) + Fold(rest, w) by {
      if size in h {
        FoldRemove(h, w, size);
      } else {
        assert rest == h;
        assert Entry(size, 0, w) == 0;
      }
    }
  }

  /** One more sample of `size` raises the sample count by one and the weighted
      sum by `size`. */
  lemma AddTotals(h: Hist, size: nat)
    ensures Total(Add(h, size)) == Total(h) + 1
    ensures Weighted(Add(h, size)) == Weighted(h) + size
  {
    var n := Get(h, size);
    assert Total(Add(h, size)) == Total(h) + 1 by {
      FoldAdd(h, false, size);
      assert Entry(size, n + 1, false) == Entry(size, n, false) + 1;
    }
    assert Weighted(Add(h, size)) == Weighted(h) + size by {
      FoldAdd(h, true, size);
      MulSucc(size, n);
    }
  }

  /** A histogram with an entry has a positive total when its counts are all
      positive; the update never creates a zero count. */
  predicate PositiveCounts(h: Hist)
  {
    forall k :: k in h ==> h[k] >= 1
  }

  lemma {:induction false} TotalAtLeastSize(h: Hist)
    requires PositiveCounts(h)
    ensures Total(h) >= |h|
    decreases |h|
  {
    if |h| > 0 {
      var k := Pick(h);
      FoldRemove(h, false, k);
      assert (h - {k}).Keys == h.Keys - {k};
      TotalAtLeastSize(h - {k});
    }
  }

  /** The histogram built by recording each size of `s` in turn. */
  function OfSeq(s: seq<nat>): (h: Hist)
    ensures PositiveCounts(h)
  {
    if |s| == 0 then map[] else Add(OfSeq(s[..|s| - 1]), s[|s| - 1])
  }

  /** The histogram is the multiset of the recorded sizes. */
  lemma {:induction false} OfSeqIsMultiset(s: seq<nat>)
    ensures forall k :: Get(OfSeq(s), k) == multiset(s)[k]
    ensures forall k :: k in OfSeq(s) <==> k in multiset(s)
  {
    if |s| > 0 {
      var p := s[..|s| - 1];
      OfSeqIsMultiset(p);
      assert s == p + [s[|s| - 1]];
      assert multiset(s) == multiset(p) + multiset{s[|s| - 1]};
    }
  }

  /** Its totals are the number and the sum of the recorded sizes. */
  lemma {:induction false} OfSeqTotals(s: seq<nat>)
    ensures Total(OfSeq(s)) == |s|
    ensures Weighted(OfSeq(s)) == Sum(s)
  {
    if |s| > 0 {
      OfSeqTotals(s[..|s| - 1]);
      AddTotals(OfSeq(s[..|s| - 1]), s[|s| - 1]);
    }
  }

  /** The read of the map strategy: zero on an empty map, otherwise the
      truncated weighted mean `sum(k * v) / sum(v)`. */
  ghost function HistMean(h: Hist): nat
    requires |h| == 0 || Total(h) > 0
  {
    if |h| == 0 then 0 else Weighted(h) / Total(h)
  }

  /** A histogram recording as many samples as `s` holds, of the same total
      size, has the mean of `s`. */
  lemma HistMeanOfTotals(h: Hist, s: seq<nat>)
    requires Total(h) == |s| && Weighted(h) == Sum(s)
    requires |s| == 0 ==> |h| == 0
    ensures |h| == 0 || Total(h) > 0
    ensures HistMean(h) == Mean(s)
  {
    if |s| > 0 {
      assert |h| > 0;
    }
  }

  /** The weighted mean of a histogram equals the plain mean of the sizes it
      was built from, e.g. 5, 5, 5, 15 gives 7. */
  lemma HistMeanIsMean(s: seq<nat>)
    ensures |OfSeq(s)| == 0 || Total(OfSeq(s)) > 0
    ensures HistMean(OfSeq(s)) == Mean(s)
  {
    OfSeqTotals(s);
    OfSeqIsMultiset(s);
    if |s| > 0 {
      assert s[0] in multiset(s);
      assert s[0] in OfSeq(s);
    } else {
      assert OfSeq(s) == map[];
    }
  }

  /** Computes `sum(k * v)` and `sum(v)` by one pass over the entries, then
      divides; Go panics on a non-empty map whose counts sum to zero, which the
      precondition excludes. */
  method WeightedMean(h: Hist) returns (r: nat)
    requires |h| == 0 || Total(h) > 0
    ensures r == HistMean(h)
  {
    if |h| == 0 {
      return 0;
    }
    var s: nat := 0;
    var c: nat := 0;
    var rest := h;
    while |rest| != 0
      invariant s + Weighted(rest) == Weighted(h)
      invariant c + Total(rest) == Total(h)
      decreases |rest|
    {
      var k :| k in rest;
      FoldRemove(rest, true, k);
      FoldRemove(rest, false, k);
      s := s + k * rest[k];
      c := c + rest[k];
      assert (rest - {k}).Keys == rest.Keys - {k};
      rest := rest - {k};
    }
    r := s / c;
  }

  /** Reading the histogram of 5, 5, 5, 15 yields 30 / 4 = 7. */
  lemma ScenarioFiveFiveFiveFifteen()
    ensures OfSeq([5, 5, 5, 15]) == map[5 := 3, 15 := 1]
    ensures HistMean(OfSeq([5, 5, 5, 15])) == 7
  {
    var s: seq<nat> := [5, 5, 5, 15];
    assert OfSeq(s[..1]) == map[5 := 1] by {
      assert s[..1][..0] == [];
    }
    assert OfSeq(s[..2]) == map[5 := 2] by {
      assert s[..2][..1] == s[..1];
    }
    assert OfSeq(s[..3]) == map[5 := 3] by {
      assert s[..3][..2] == s[..2];
    }
    assert OfSeq(s) == map[5 := 3, 15 := 1] by {
      assert s[..3] == s[..|s| - 1];
    }
    assert Sum(s) == 30 by {
      assert Sum(s[..1]) == 5 by { assert s[..1][..0] == []; }
      assert Sum(s[..2]) == 10 by { assert s[..2][..1] == s[..1]; }
      assert Sum(s[..3]) == 15 by { assert s[..3][..2] == s[..2]; }
      assert s[..3] == s[..|s| - 1];
    }
    HistMeanIsMean(s);
  }
}
