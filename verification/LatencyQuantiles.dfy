/** The histogram's quantiles by counting samples alone, without any order of them. */
module LatencyQuantiles {
  import opened LatencyHistogram
  import opened Sets

  function NotAbove(s: seq<real>, v: real): set<int> {
    set i | 0 <= i < |s| && s[i] <= v
  }

  function Below(s: seq<real>, v: real): set<int> {
    set i | 0 <= i < |s| && s[i] < v
  }

  /** v is the p-quantile of the samples: a sample with at least the share p of them not above
      it, and less than that below it. */
  ghost predicate IsQuantile(s: seq<real>, p: real, v: real) {
    && v in s
    && |NotAbove(s, v)| as real >= |s| as real * p
    && |Below(s, v)| as real < |s| as real * p
  }

  function CountIf(s: seq<real>, f: real -> bool): nat {
    if s == [] then 0 else CountIf(s[..|s| - 1], f) + (if f(s[|s| - 1]) then 1 else 0)
  }

  lemma {:induction false} CountIfInsert(x: real, s: seq<real>, f: real -> bool)
    requires Ordered(s)
    ensures CountIf(Insert(x, s), f) == CountIf(s, f) + (if f(x) then 1 else 0)
  {
    var r := Insert(x, s);
    if s == [] || s[|s| - 1] <= x {
      assert r[..|r| - 1] == s;
    } else {
      var init := s[..|s| - 1];
      CountIfInsert(x, init, f);
      assert r[..|r| - 1] == Insert(x, init);
    }
  }

  lemma {:induction false} CountIfSorted(s: seq<real>, f: real -> bool)
    ensures CountIf(Sorted(s), f) == CountIf(s, f)
  {
    if s != [] {
      CountIfSorted(s[..|s| - 1], f);
      CountIfInsert(s[|s| - 1], Sorted(s[..|s| - 1]), f);
    }
  }

  function Where(s: seq<real>, f: real -> bool): set<int> {
    set i | 0 <= i < |s| && f(s[i])
  }

  lemma {:induction false} CountIfIsSize(s: seq<real>, f: real -> bool)
    ensures CountIf(s, f) == |Where(s, f)|
  {
    if s == [] {
      assert Where(s, f) == {};
    } else {
      var k := |s| - 1;
      CountIfIsSize(s[..k], f);
      assert k !in Where(s[..k], f);
      assert Where(s, f) == Where(s[..k], f) + (if f(s[k]) then {k} else {});
    }
  }

  /** In an ordered sequence everything up to index r - 1 is not above the entry there, and only
      entries before it are below. */
  lemma {:induction false} CountIfPrefix(t: seq<real>, f: real -> bool, r: nat)
    requires r <= |t|
    ensures (forall i :: 0 <= i < r ==> f(t[i])) ==> CountIf(t, f) >= r
    ensures (forall i :: r <= i < |t| ==> !f(t[i])) ==> CountIf(t, f) <= r
  {
    if t != [] {
      var k := |t| - 1;
      CountIfPrefix(t[..k], f, if r <= k then r else k);
    }
  }

  lemma SortedCounts(s: seq<real>, f: real -> bool)
    ensures CountIf(Sorted(s), f) == |Where(s, f)|
  {
    CountIfSorted(s, f);
    CountIfIsSize(s, f);
  }

  lemma OrderedPrefix(t: seq<real>, f: real -> bool, r: nat, v: real)
    requires Ordered(t) && 1 <= r <= |t| && v == t[r - 1] && forall x :: f(x) <==> x <= v
    ensures CountIf(t, f) >= r
  {
    CountIfPrefix(t, f, r);
  }

  lemma OrderedSuffix(t: seq<real>, f: real -> bool, r: nat, v: real)
    requires Ordered(t) && 1 <= r <= |t| && v == t[r - 1] && forall x :: f(x) <==> x < v
    ensures CountIf(t, f) < r
  {
    CountIfPrefix(t, f, r - 1);
  }

  lemma EnoughNotAbove(s: seq<real>, r: nat, v: real)
    requires 1 <= r <= |s| && v == Sorted(s)[r - 1]
    ensures |NotAbove(s, v)| >= r
  {
    hide Sorted, Ordered, CountIf;
    var f := (x: real) => x <= v;
    SortedCounts(s, f);
    OrderedPrefix(Sorted(s), f, r, v);
    assert NotAbove(s, v) == Where(s, f);
  }

  lemma FewBelow(s: seq<real>, r: nat, v: real)
    requires 1 <= r <= |s| && v == Sorted(s)[r - 1]
    ensures |Below(s, v)| < r
  {
    hide Sorted, Ordered, CountIf;
    var f := (x: real) => x < v;
    SortedCounts(s, f);
    OrderedSuffix(Sorted(s), f, r, v);
    assert Below(s, v) == Where(s, f);
  }

  /** The nearest-rank quantile is a quantile, and the only one. */
  lemma NearestIsQuantile(s: seq<real>, p: real)
    requires s != [] && 0.0 < p <= 1.0
    ensures IsQuantile(s, p, NearestRank(s, p))
  {
    hide Sorted, NotAbove, Below;
    RankInRange(|s|, p);
    NearestIsSample(s, p);
    EnoughNotAbove(s, Rank(|s|, p), NearestRank(s, p));
    FewBelow(s, Rank(|s|, p), NearestRank(s, p));
  }

  lemma QuantileIsNearest(s: seq<real>, p: real, v: real)
    requires s != [] && 0.0 < p <= 1.0
    ensures IsQuantile(s, p, v) <==> v == NearestRank(s, p)
  {
    NearestIsQuantile(s, p);
    var w := NearestRank(s, p);
    if v < w { SubsetSize(NotAbove(s, v), Below(s, w)); }
    if w < v { SubsetSize(NotAbove(s, w), Below(s, v)); }
    hide NearestRank;
  }

  /** MAIN RESULT: the answer is the exact quantile rounded up to a whole millisecond, or the
      true maximum when the quantile is in the overflow bucket. */
  lemma QuantileErrorBound(s: seq<real>, p: real)
    requires s != [] && NonNegative(s) && 0.0 < p <= 1.0
    ensures var v, q := NearestRank(s, p), QuantileOf(s, p);
            && IsQuantile(s, p, v)
            && if v <= 600000.0 then q == q.Floor as real && v <= q < v + 1.0
               else q in s && (forall i :: 0 <= i < |s| ==> s[i] <= q)
  {
    NearestIsQuantile(s, p);
    if Maximum(s) == 0.0 {
      assert s[0] in s;
    }
    hide IsQuantile;
  }

  lemma MaximumIsSample(s: seq<real>)
    requires s != [] && NonNegative(s)
    ensures Maximum(s) in s && forall i :: 0 <= i < |s| ==> s[i] <= Maximum(s)
  {
    if Maximum(s) == 0.0 { assert s[0] in s; }
  }

  /** The summary: the number of samples, the answers for one half, 95 and 99 hundredths, and
      the greatest sample. */
  lemma SummaryMeans(s: seq<real>, p50: real, p95: real, p99: real)
    requires s != [] && NonNegative(s) && (forall i :: 0 <= i < |s| ==> s[i] <= 600000.0)
    requires IsQuantile(s, 1.0 / 2.0, p50) && IsQuantile(s, 95.0 / 100.0, p95) && IsQuantile(s, 99.0 / 100.0, p99)
    ensures var m := SummaryOf(s);
            && m.samples == |s| && m.max in s && (forall i :: 0 <= i < |s| ==> s[i] <= m.max)
            && p50 <= m.p50 < p50 + 1.0 && p95 <= m.p95 < p95 + 1.0 && p99 <= m.p99 < p99 + 1.0
            && m.p50 == m.p50.Floor as real && m.p95 == m.p95.Floor as real && m.p99 == m.p99.Floor as real
  {
    hide QuantileOf, NearestRank, IsQuantile, NonNegative;
    QuantileIsNearest(s, 0.5, p50);
    QuantileIsNearest(s, 0.95, p95);
    QuantileIsNearest(s, 0.99, p99);
    NearestIsSample(s, 0.5);
    NearestIsSample(s, 0.95);
    NearestIsSample(s, 0.99);
    QuantileErrorBound(s, 0.5);
    QuantileErrorBound(s, 0.95);
    QuantileErrorBound(s, 0.99);
    MaximumIsSample(s);
  }
}
