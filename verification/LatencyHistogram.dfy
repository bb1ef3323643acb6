/** The benchmark's latency histogram (cmd/chatbench/histogram.go): one bucket per millisecond,
    the last one for everything above, against exact order statistics of the samples. */
module LatencyHistogram {

  const BUCKETS := 600002
  const OVERFLOW := BUCKETS - 1

  function Ceil(x: real): (r: int)
    ensures (r - 1) as real < x <= r as real
  {
    if x.Floor as real == x then x.Floor else x.Floor + 1
  }

  /** The bucket a sample is counted in: its ceiling, kept within the table. */
  function Bucket(ms: real): (b: nat)
    ensures b <= OVERFLOW
  {
    var c := Ceil(ms);
    var low := if c < 0 then 0 else c;
    if low < OVERFLOW then low else OVERFLOW
  }

  // ------------------------------------------------- the samples and their order

  function Top(a: real, b: real): real { if a < b then b else a }

  /** The running maximum, which starts at zero. */
  function Maximum(s: seq<real>): (m: real)
    ensures m >= 0.0 && forall i :: 0 <= i < |s| ==> s[i] <= m
    ensures m == 0.0 || m in s
  {
    if s == [] then 0.0 else Top(Maximum(s[..|s| - 1]), s[|s| - 1])
  }

  function CountIn(s: seq<real>, b: nat): nat {
    if s == [] then 0 else CountIn(s[..|s| - 1], b) + (if Bucket(s[|s| - 1]) == b then 1 else 0)
  }

  /** How many samples fall in buckets 0 .. b. */
  function CountUpTo(s: seq<real>, b: int): (n: nat)
    ensures n <= |s|
  {
    if s == [] then 0 else CountUpTo(s[..|s| - 1], b) + (if Bucket(s[|s| - 1]) <= b then 1 else 0)
  }

  ghost predicate Ordered(s: seq<real>) {
    forall i, j :: 0 <= i < j < |s| ==> s[i] <= s[j]
  }

  function Insert(x: real, s: seq<real>): (r: seq<real>)
    requires Ordered(s)
    ensures Ordered(r) && |r| == |s| + 1 && multiset(r) == multiset(s) + multiset{x}
  {
    if s == [] || s[|s| - 1] <= x then s + [x] else
    var r := Insert(x, s[..|s| - 1]);
    assert s == s[..|s| - 1] + [s[|s| - 1]];
    assert forall i :: 0 <= i < |r| ==> r[i] <= s[|s| - 1] by {
      forall i | 0 <= i < |r| ensures r[i] <= s[|s| - 1] {
        assert r[i] in multiset(r);
        if r[i] != x { assert r[i] in s[..|s| - 1]; }
      }
    }
    r + [s[|s| - 1]]
  }

  function Sorted(s: seq<real>): (r: seq<real>)
    ensures Ordered(r) && |r| == |s| && multiset(r) == multiset(s)
  {
    if s == [] then [] else
    assert s == s[..|s| - 1] + [s[|s| - 1]];
    Insert(s[|s| - 1], Sorted(s[..|s| - 1]))
  }

  function Rank(n: nat, p: real): int { Ceil(n as real * p) }

  lemma RankInRange(n: nat, p: real)
    requires n > 0 && 0.0 < p <= 1.0
    ensures 1 <= Rank(n, p) <= n
  {
    assert 0.0 < n as real * p <= n as real;
  }

  /** The exact p-quantile: the smallest sample with at least n*p samples not above it. */
  function NearestRank(s: seq<real>, p: real): real
    requires s != [] && 0.0 < p <= 1.0
  {
    RankInRange(|s|, p);
    Sorted(s)[Rank(|s|, p) - 1]
  }

  /** What the histogram answers, in terms of the exact quantile. */
  function QuantileOf(s: seq<real>, p: real): real
    requires s != [] && 0.0 < p <= 1.0
  {
    Answer(NearestRank(s, p), Maximum(s))
  }

  function Answer(v: real, maximum: real): real {
    if Bucket(v) == OVERFLOW then maximum else Bucket(v) as real
  }

  // --------------------------------------------------------- counting in buckets

  lemma {:induction false} CountInsert(x: real, s: seq<real>, b: int)
    requires Ordered(s)
    ensures CountUpTo(Insert(x, s), b) == CountUpTo(s, b) + (if Bucket(x) <= b then 1 else 0)
  {
    var r := Insert(x, s);
    if s == [] || s[|s| - 1] <= x {
      assert r[..|r| - 1] == s;
    } else {
      var init := s[..|s| - 1];
      CountInsert(x, init, b);
      assert r[..|r| - 1] == Insert(x, init);
    }
  }

  lemma {:induction false} CountSorted(s: seq<real>, b: int)
    ensures CountUpTo(Sorted(s), b) == CountUpTo(s, b)
  {
    if s != [] {
      CountSorted(s[..|s| - 1], b);
      CountInsert(s[|s| - 1], Sorted(s[..|s| - 1]), b);
    }
  }

  lemma {:induction false} CountAll(s: seq<real>, b: int)
    requires forall i :: 0 <= i < |s| ==> Bucket(s[i]) <= b
    ensures CountUpTo(s, b) == |s|
  {
    if s != [] { CountAll(s[..|s| - 1], b); }
  }

  lemma {:induction false} CountOrdered(s: seq<real>, r: int, b: int)
    requires Ordered(s) && 1 <= r <= |s|
    ensures CountUpTo(s, b) >= r <==> Bucket(s[r - 1]) <= b
  {
    if Bucket(s[|s| - 1]) <= b {
      CountAll(s, b);
    } else if r < |s| {
      CountOrdered(s[..|s| - 1], r, b);
    }
  }

  /** The r-th smallest sample is in bucket b or below exactly when the buckets up to b hold at
      least r samples. */
  lemma RankBucket(s: seq<real>, r: int, b: int)
    requires 1 <= r <= |s|
    ensures CountUpTo(s, b) >= r <==> Bucket(Sorted(s)[r - 1]) <= b
  {
    CountSorted(s, b);
    CountOrdered(Sorted(s), r, b);
  }

  lemma RankInBucket(s: seq<real>, r: int, b: int)
    requires 1 <= r <= |s| && CountUpTo(s, b - 1) < r <= CountUpTo(s, b)
    ensures Bucket(Sorted(s)[r - 1]) == b
  {
    RankBucket(s, r, b);
    RankBucket(s, r, b - 1);
  }

  /** The first bucket at which the running total reaches the rank holds the exact quantile. */
  lemma FirstBucketReached(s: seq<real>, p: real, b: int)
    requires s != [] && 0.0 < p <= 1.0
    requires CountUpTo(s, b - 1) < Rank(|s|, p) <= CountUpTo(s, b)
    ensures Bucket(NearestRank(s, p)) == b
  {
    hide Rank, Sorted, CountUpTo, Bucket;
    RankInRange(|s|, p);
    RankInBucket(s, Rank(|s|, p), b);
  }

  lemma {:induction false} CountNext(s: seq<real>, b: nat)
    ensures CountUpTo(s, b) == CountUpTo(s, b - 1) + CountIn(s, b)
  {
    if s != [] { CountNext(s[..|s| - 1], b); }
  }

  lemma {:induction false} CountBelowZero(s: seq<real>)
    ensures CountUpTo(s, -1) == 0
  {
    if s != [] { CountBelowZero(s[..|s| - 1]); }
  }

  // ------------------------------------------------------------- the histogram

  datatype Summary = Summary(samples: int, p50: real, p95: real, p99: real, max: real)

  function SummaryOf(s: seq<real>): Summary {
    if s == [] then Summary(0, 0.0, 0.0, 0.0, 0.0) else
    Summary(|s|, QuantileOf(s, 0.5), QuantileOf(s, 0.95), QuantileOf(s, 0.99), Maximum(s))
  }

  function Total(buckets: seq<int>): int {
    if buckets == [] then 0 else Total(buckets[..|buckets| - 1]) + buckets[|buckets| - 1]
  }

  class Histogram {
    const buckets: array<int>
    var count: int
    var maximum: real
    ghost var samples: seq<real>

    ghost predicate Valid()
      reads this, buckets
    {
      && buckets.Length == BUCKETS
      && count == |samples|
      && maximum == Maximum(samples)
      && forall b :: 0 <= b < BUCKETS ==> buckets[b] == CountIn(samples, b)
    }

    constructor ()
      ensures Valid() && samples == [] && fresh(buckets)
    {
      buckets := new int[BUCKETS](_ => 0);
      count := 0;
      maximum := 0.0;
      samples := [];
    }

    method Add(ms: real)
      requires Valid()
      modifies this, buckets
      ensures Valid() && samples == old(samples) + [ms]
    {
      var i := Bucket(ms);
      buckets[i] := buckets[i] + 1;
      count := count + 1;
      maximum := Top(maximum, ms);
      samples := samples + [ms];
      assert samples[..|samples| - 1] == old(samples);
    }

    method Quantile(p: real) returns (q: real)
      requires Valid() && samples != [] && 0.0 < p <= 1.0
      ensures q == QuantileOf(samples, p)
    {
      var target := Ceil(count as real * p);
      assert target == Rank(|samples|, p);
      RankInRange(|samples|, p);
      var total := 0;
      CountBelowZero(samples);
      for i := 0 to buckets.Length
        invariant total == CountUpTo(samples, i - 1) < target
      {
        total := total + buckets[i];
        CountNext(samples, i);
        if total >= target {
          FirstBucketReached(samples, p, i);
          if i == buckets.Length - 1 { return maximum; }
          return i as real;
        }
      }
      CountAll(samples, OVERFLOW);
      assert false;
    }

    method Summarize() returns (s: Summary)
      requires Valid()
      ensures s == SummaryOf(samples)
    {
      if count == 0 { return Summary(0, 0.0, 0.0, 0.0, 0.0); }
      var p50 := Quantile(0.5);
      var p95 := Quantile(0.95);
      var p99 := Quantile(0.99);
      s := Summary(count, p50, p95, p99, maximum);
    }

    /** No sample is lost or counted twice: the buckets add up to the count. */
    lemma BucketsSumToCount()
      requires Valid()
      ensures Total(buckets[..]) == count
    {
      CountBelowZero(samples);
      for b := 0 to BUCKETS
        invariant Total(buckets[..b]) == CountUpTo(samples, b - 1)
      {
        CountNext(samples, b);
        assert buckets[..b + 1][..b] == buckets[..b];
      }
      CountAll(samples, OVERFLOW);
      assert buckets[..BUCKETS] == buckets[..];
    }
  }

  // ------------------------------------------------------------------ the claims

  ghost predicate NonNegative(s: seq<real>) {
    forall i :: 0 <= i < |s| ==> s[i] >= 0.0
  }

  lemma NearestIsSample(s: seq<real>, p: real)
    requires s != [] && 0.0 < p <= 1.0
    ensures NearestRank(s, p) in s
  {
    RankInRange(|s|, p);
    assert NearestRank(s, p) in multiset(Sorted(s));
  }

  lemma AnswerMonotone(v: real, w: real, m: real)
    requires v <= w <= m
    ensures Answer(v, m) <= Answer(w, m)
  {
    assert Ceil(v) <= Ceil(w);
  }

  lemma AnswerAboveIff(v: real, m: real)
    requires v <= m && 0.0 <= m
    ensures Answer(v, m) > m <==> Bucket(v) != OVERFLOW && Bucket(v) == Bucket(m) && m != m.Floor as real
  {
    assert Ceil(v) <= Ceil(m);
  }

  lemma NearestMonotone(s: seq<real>, p: real, r: real)
    requires s != [] && 0.0 < p <= r <= 1.0
    ensures NearestRank(s, p) <= NearestRank(s, r)
  {
    RankInRange(|s|, p);
    RankInRange(|s|, r);
    RankMonotone(|s|, p, r);
  }

  lemma RankMonotone(n: nat, p: real, r: real)
    requires p <= r
    ensures Rank(n, p) <= Rank(n, r)
  {
    assert n as real * p <= n as real * r;
  }

  /** MAIN RESULT: the answers grow with p, the overflow answer included. */
  lemma QuantileMonotone(s: seq<real>, p: real, r: real)
    requires s != [] && 0.0 < p <= r <= 1.0
    ensures QuantileOf(s, p) <= QuantileOf(s, r)
  {
    NearestMonotone(s, p, r);
    NearestIsSample(s, r);
    AnswerMonotone(NearestRank(s, p), NearestRank(s, r), Maximum(s));
  }

  lemma SummaryOrdered(s: seq<real>)
    ensures var m := SummaryOf(s); m.p50 <= m.p95 <= m.p99
  {
    if s != [] {
      QuantileMonotone(s, 0.5, 0.95);
      QuantileMonotone(s, 0.95, 0.99);
    }
  }

  /** An answer exceeds the reported maximum exactly when the exact quantile shares the
      maximum's bucket, that bucket is not the overflow one, and the maximum is not whole. */
  lemma QuantileAboveMaximumIff(s: seq<real>, p: real)
    requires s != [] && 0.0 < p <= 1.0
    ensures var b, m := Bucket(NearestRank(s, p)), Maximum(s);
            QuantileOf(s, p) > m <==> b != OVERFLOW && b == Bucket(m) && m != m.Floor as real
  {
    NearestIsSample(s, p);
    AnswerAboveIff(NearestRank(s, p), Maximum(s));
  }

  /** One sample of 0.3 ms: the reported P99 is 1 and the reported maximum is 0.3. */
  lemma P99AboveMax()
    ensures SummaryOf([0.3]).p99 == 1.0 && SummaryOf([0.3]).max == 0.3
  {
    var s := [0.3];
    NearestIsSample(s, 0.99);
    assert s[..0] == [];
    assert Maximum(s) == 0.3;
  }
}
