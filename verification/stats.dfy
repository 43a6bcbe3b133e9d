/**
 * One-pass statistics: Welford's update and Chan's merge, over exact reals.
 *
 * `Describes` says what an accumulator should hold, in terms of all its samples
 * at once; the class is proved to hold exactly that after any mix of updates
 * and merges.
 */
module Statistics {
  import opened Words

  datatype Stats = Stats(count: nat, mean: real, m2: real, min: real, max: real, total: Word)

  function Sum(s: seq<real>): real {
    if s == [] then 0.0 else Sum(s[..|s| - 1]) + s[|s| - 1]
  }

  /** The sum of squared deviations from `c`. */
  function SquaredDeviations(s: seq<real>, c: real): real {
    if s == [] then 0.0
    else SquaredDeviations(s[..|s| - 1], c) + Square(s[|s| - 1] - c)
  }

  function Square(x: real): real { x * x }

  /** A product under a name, so that proofs about sequences treat it as one quantity. */
  function Times(x: real, y: real): real { x * y }

  function Min(a: real, b: real): real { if a <= b then a else b }
  function Max(a: real, b: real): real { if a >= b then a else b }

  function Smallest(s: seq<real>): real
    requires s != []
  {
    if |s| == 1 then s[0] else Min(Smallest(s[..|s| - 1]), s[|s| - 1])
  }

  function Largest(s: seq<real>): real
    requires s != []
  {
    if |s| == 1 then s[0] else Max(Largest(s[..|s| - 1]), s[|s| - 1])
  }

  /** `x.round() as u64`: half away from zero, saturating at both ends. */
  function RoundToWord(x: real): Word {
    if x < 0.0 then 0
    else
      var r := (x + 0.5).Floor;
      if r >= WORD then WORD - 1 else r
  }

  /** Rounding goes to the nearest whole number, halves up, within the range of a word; nothing is negative. */
  lemma RoundsToNearest(x: real)
    ensures x < 0.0 ==> RoundToWord(x) == 0
    ensures 0.0 <= x < WORD as real - 0.5 ==>
              RoundToWord(x) as real - 0.5 <= x < RoundToWord(x) as real + 0.5
    ensures x >= WORD as real - 0.5 ==> RoundToWord(x) == WORD - 1
  {
  }

  /** The rounded total, which wraps. */
  function Total(s: seq<real>): Word {
    if s == [] then 0 else WrappingAdd(Total(s[..|s| - 1]), RoundToWord(s[|s| - 1]))
  }

  /**
   * `a` holds the true count, mean, sum of squared deviations from the mean,
   * extremes and wrapping total of the samples `s`.
   */
  ghost predicate Describes(a: Stats, s: seq<real>) {
    && a.count == |s|
    && (s == [] ==> a == Stats(0, 0.0, 0.0, 0.0, 0.0, 0))
    && Times(|s| as real, a.mean) == Sum(s)
    && a.m2 == SquaredDeviations(s, a.mean)
    && (s != [] ==> a.min == Smallest(s) && a.max == Largest(s))
    && a.total == Total(s)
  }

  /** There is only one such accumulator. */
  lemma DescribesOne(a: Stats, b: Stats, s: seq<real>)
    requires Describes(a, s) && Describes(b, s)
    ensures a == b
  {
    if s != [] {
      CancelFactor(|s| as real, a.mean, b.mean);
    }
  }

  lemma CancelFactor(n: real, x: real, y: real)
    requires n > 0.0 && Times(n, x) == Times(n, y)
    ensures x == y
  {
    assert n * (x - y) == 0.0;
  }

  // ----- the reference is what it says -----

  /** The total without a bound. */
  function RoundedSum(s: seq<real>): nat {
    if s == [] then 0 else RoundedSum(s[..|s| - 1]) + RoundToWord(s[|s| - 1])
  }

  /** The total is the sum of the rounded samples modulo 2^64. */
  lemma {:induction false} TotalIsSum(s: seq<real>)
    ensures Total(s) == RoundedSum(s) % WORD
  {
    if s != [] {
      TotalIsSum(s[..|s| - 1]);
      AddModulo(RoundedSum(s[..|s| - 1]), RoundToWord(s[|s| - 1]));
    }
  }

  lemma AddModulo(a: nat, b: nat)
    ensures (a % WORD + b) % WORD == (a + b) % WORD
  {
  }

  lemma {:induction false} ExtremesAreAttained(s: seq<real>)
    requires s != []
    ensures Smallest(s) in s && Largest(s) in s
    ensures forall i :: 0 <= i < |s| ==> Smallest(s) <= s[i] <= Largest(s)
  {
    if |s| > 1 {
      ExtremesAreAttained(s[..|s| - 1]);
    }
  }

  lemma SquareNonNegative(x: real)
    ensures Square(x) >= 0.0
  {
  }

  lemma {:induction false} DeviationsNonNegative(s: seq<real>, c: real)
    ensures SquaredDeviations(s, c) >= 0.0
  {
    if s != [] {
      DeviationsNonNegative(s[..|s| - 1], c);
      SquareNonNegative(s[|s| - 1] - c);
    }
  }

  /** How the sum of squared deviations changes when the centre moves from `c` to `d`. */
  lemma {:induction false} MoveCentre(s: seq<real>, c: real, d: real)
    ensures SquaredDeviations(s, d) == SquaredDeviations(s, c) + Moved(|s| as real, Sum(s), c, d)
  {
    if s == [] {
      assert Moved(0.0, 0.0, c, d) == 0.0;
    } else {
      var n := |s| - 1;
      MoveCentre(s[..n], c, d);
      MovedStep(n as real, Sum(s[..n]), s[n], c, d);
      assert |s| as real == n as real + 1.0;
    }
  }

  function Moved(n: real, sum: real, c: real, d: real): real {
    2.0 * (c - d) * (sum - n * c) + n * (c - d) * (c - d)
  }

  lemma MovedStep(n: real, sum: real, x: real, c: real, d: real)
    ensures Moved(n + 1.0, sum + x, c, d) == Moved(n, sum, c, d) + Square(x - d) - Square(x - c)
  {
  }

  /** Any centre but the mean `m` costs `n` times its squared distance from the mean. */
  lemma FromMean(s: seq<real>, n: real, m: real, d: real)
    requires n == |s| as real && Times(n, m) == Sum(s)
    ensures SquaredDeviations(s, d) == SquaredDeviations(s, m) + Times(n, Square(m - d))
  {
    MoveCentre(s, m, d);
    MovedFromMean(n, Sum(s), m, d);
  }

  lemma MovedFromMean(n: real, sum: real, m: real, d: real)
    requires Times(n, m) == sum
    ensures Moved(n, sum, m, d) == Times(n, Square(m - d))
  {
  }

  // ----- concatenation -----

  lemma {:induction false} ConcatenateSums(a: seq<real>, b: seq<real>)
    ensures Sum(a + b) == Sum(a) + Sum(b)
  {
    if b == [] {
      assert a + b == a;
    } else {
      ConcatenateSums(a, b[..|b| - 1]);
      assert (a + b)[..|a + b| - 1] == a + b[..|b| - 1];
    }
  }

  lemma {:induction false} ConcatenateDeviations(a: seq<real>, b: seq<real>, c: real)
    ensures SquaredDeviations(a + b, c) == SquaredDeviations(a, c) + SquaredDeviations(b, c)
  {
    if b == [] {
      assert a + b == a;
    } else {
      ConcatenateDeviations(a, b[..|b| - 1], c);
      assert (a + b)[..|a + b| - 1] == a + b[..|b| - 1];
    }
  }

  lemma {:induction false} ConcatenateTotals(a: seq<real>, b: seq<real>)
    ensures Total(a + b) == WrappingAdd(Total(a), Total(b))
  {
    if b == [] {
      assert a + b == a;
    } else {
      ConcatenateTotals(a, b[..|b| - 1]);
      assert (a + b)[..|a + b| - 1] == a + b[..|b| - 1];
      WrappingAddAssociative(Total(a), Total(b[..|b| - 1]), RoundToWord(b[|b| - 1]));
    }
  }

  lemma WrappingAddAssociative(x: Word, y: Word, z: Word)
    ensures WrappingAdd(WrappingAdd(x, y), z) == WrappingAdd(x, WrappingAdd(y, z))
  {
  }

  lemma {:induction false} ConcatenateExtremes(a: seq<real>, b: seq<real>)
    requires a != [] && b != []
    ensures Smallest(a + b) == Min(Smallest(a), Smallest(b))
    ensures Largest(a + b) == Max(Largest(a), Largest(b))
  {
    var n := |b| - 1;
    assert (a + b)[..|a + b| - 1] == a + b[..n];
    if n == 0 {
      assert a + b[..n] == a;
    } else {
      ConcatenateExtremes(a, b[..n]);
    }
  }

  // ----- update and merge -----

  /** Welford's update on values. */
  function Updated(a: Stats, x: real): Stats {
    var mean := a.mean + (x - a.mean) / ((a.count + 1) as real);
    Stats(a.count + 1, mean, a.m2 + Times(x - a.mean, x - mean),
          if a.count == 0 then x else Min(a.min, x), if a.count == 0 then x else Max(a.max, x),
          WrappingAdd(a.total, RoundToWord(x)))
  }

  /** The squared deviations that come from two means being apart. */
  function Between(m: real, a: real, n: real, b: real): real
    requires m > 0.0 && n > 0.0
  {
    (b - a) * (b - a) * m * n / (m + n)
  }

  function CombinedMean(m: real, a: real, n: real, b: real): real
    requires m > 0.0 && n > 0.0
  {
    (m * a + n * b) / (m + n)
  }

  /** Chan's merge on values. */
  function Merged(a: Stats, b: Stats): Stats {
    if b.count == 0 then a
    else if a.count == 0 then b
    else
      var (m, n) := (a.count as real, b.count as real);
      Stats(a.count + b.count,
            CombinedMean(m, a.mean, n, b.mean),
            a.m2 + (b.m2 + Between(m, a.mean, n, b.mean)),
            Min(a.min, b.min), Max(a.max, b.max), WrappingAdd(a.total, b.total))
  }

  lemma Quotient(p: real, q: real)
    requires q > 0.0
    ensures Times(q, p / q) == p
    ensures p >= 0.0 ==> p / q >= 0.0
  {
  }

  /** Feeding one more sample gives the statistics of the longer sequence. */
  lemma UpdateIsExact(a: Stats, s: seq<real>, x: real)
    requires Describes(a, s)
    ensures Describes(Updated(a, x), s + [x])
  {
    assert (s + [x])[..|s|] == s;
    var n := |s| as real;
    var mean := Updated(a, x).mean;
    assert |s + [x]| as real == n + 1.0;
    UpdateMean(n, a.mean, x);
    UpdateM2(s, n, a.mean, x, mean);
    if s != [] {
      ConcatenateExtremes(s, [x]);
    }
  }

  lemma UpdateMean(n: real, m: real, x: real)
    requires n >= 0.0
    ensures Times(n + 1.0, m + (x - m) / (n + 1.0)) == Times(n, m) + x
  {
    Quotient(x - m, n + 1.0);
  }

  lemma UpdateM2(s: seq<real>, n: real, m: real, x: real, mean: real)
    requires n == |s| as real && Times(n, m) == Sum(s) && Times(n + 1.0, mean) == Sum(s) + x
    ensures SquaredDeviations(s + [x], mean) == SquaredDeviations(s, m) + Times(x - m, x - mean)
  {
    assert (s + [x])[..|s|] == s;
    FromMean(s, n, m, mean);
    UpdateDeviations(n, m, x, mean);
  }

  lemma UpdateDeviations(n: real, m: real, x: real, mean: real)
    requires Times(n + 1.0, mean) == Times(n, m) + x
    ensures Times(n, Square(m - mean)) + Square(x - mean) == Times(x - m, x - mean)
  {
    assert n * (mean - m) == x - mean;
    assert n * Square(m - mean) == (n * (mean - m)) * (mean - m);
  }

  /** Merging two accumulators gives the statistics of the concatenation. */
  lemma MergeIsExact(a: Stats, s: seq<real>, b: Stats, t: seq<real>)
    requires Describes(a, s) && Describes(b, t)
    ensures Describes(Merged(a, b), s + t)
  {
    if t == [] {
      assert s + t == s;
    } else if s == [] {
      assert s + t == t;
    } else {
      MergeNonEmpty(a, s, b, t, Merged(a, b));
    }
  }

  lemma MergeNonEmpty(a: Stats, s: seq<real>, b: Stats, t: seq<real>, c: Stats)
    requires Describes(a, s) && Describes(b, t) && s != [] && t != [] && c == Merged(a, b)
    ensures Describes(c, s + t)
  {
    MergedMeanIsExact(a, s, b, t);
    MergedM2IsExact(a, s, b, t);
    MergedRestIsExact(a, s, b, t);
  }

  lemma MergedRestIsExact(a: Stats, s: seq<real>, b: Stats, t: seq<real>)
    requires Describes(a, s) && Describes(b, t) && s != [] && t != []
    ensures var c := Merged(a, b);
            c.count == |s + t| && c.min == Smallest(s + t) && c.max == Largest(s + t) && c.total == Total(s + t)
  {
    ConcatenateTotals(s, t);
    ConcatenateExtremes(s, t);
  }

  lemma MergedMeanIsExact(a: Stats, s: seq<real>, b: Stats, t: seq<real>)
    requires Describes(a, s) && Describes(b, t) && s != [] && t != []
    ensures Times(|s + t| as real, Merged(a, b).mean) == Sum(s + t)
  {
    ConcatenateSums(s, t);
    MergeMean(|s| as real, a.mean, |t| as real, b.mean);
    assert |s + t| as real == |s| as real + |t| as real;
  }

  lemma MergedM2IsExact(a: Stats, s: seq<real>, b: Stats, t: seq<real>)
    requires Describes(a, s) && Describes(b, t) && s != [] && t != []
    ensures Merged(a, b).m2 == SquaredDeviations(s + t, Merged(a, b).mean)
  {
    MergeM2(s, |s| as real, a.mean, t, |t| as real, b.mean);
  }

  lemma MergeMean(m: real, a: real, n: real, b: real)
    requires m > 0.0 && n > 0.0
    ensures Times(m + n, CombinedMean(m, a, n, b)) == Times(m, a) + Times(n, b)
  {
    Quotient(m * a + n * b, m + n);
  }

  lemma MergeM2(s: seq<real>, m: real, a: real, t: seq<real>, n: real, b: real)
    requires m > 0.0 && n > 0.0 && m == |s| as real && n == |t| as real
    requires Times(m, a) == Sum(s) && Times(n, b) == Sum(t)
    ensures SquaredDeviations(s + t, CombinedMean(m, a, n, b))
         == SquaredDeviations(s, a) + SquaredDeviations(t, b) + Between(m, a, n, b)
  {
    MergeDeviations(m, a, n, b);
    ConcatenateFromMeans(s, m, a, t, n, b, CombinedMean(m, a, n, b));
  }

  lemma ConcatenateFromMeans(s: seq<real>, m: real, a: real, t: seq<real>, n: real, b: real, c: real)
    requires m == |s| as real && n == |t| as real && Times(m, a) == Sum(s) && Times(n, b) == Sum(t)
    ensures SquaredDeviations(s + t, c)
         == SquaredDeviations(s, a) + SquaredDeviations(t, b) + (Times(m, Square(a - c)) + Times(n, Square(b - c)))
  {
    ConcatenateDeviations(s, t, c);
    FromMean(s, m, a, c);
    FromMean(t, n, b, c);
  }

  lemma MergeDeviations(m: real, a: real, n: real, b: real)
    requires m > 0.0 && n > 0.0
    ensures var c := CombinedMean(m, a, n, b);
            Times(m, Square(a - c)) + Times(n, Square(b - c)) == Between(m, a, n, b)
  {
    var c, w := CombinedMean(m, a, n, b), Between(m, a, n, b);
    Quotient(m * a + n * b, m + n);
    Quotient((b - a) * (b - a) * m * n, m + n);
    MergeIdentity(m, a, n, b, c, w);
  }

  lemma MergeIdentity(m: real, a: real, n: real, b: real, c: real, w: real)
    requires m > 0.0 && n > 0.0
    requires Times(m + n, c) == m * a + n * b
    requires Times(m + n, w) == (b - a) * (b - a) * m * n
    ensures Times(m, Square(a - c)) + Times(n, Square(b - c)) == w
  {
    var v := m * Square(a - c) + n * Square(b - c);
    assert (m + n) * (c - a) == n * (b - a);
    assert (m + n) * (b - c) == m * (b - a);
    assert (m + n) * v == m * (c - a) * ((m + n) * (c - a)) + n * (b - c) * ((m + n) * (b - c));
    assert m * (c - a) * (n * (b - a)) + n * (b - c) * (m * (b - a)) == (b - a) * (b - a) * m * n;
    CancelFactor(m + n, v, w);
  }

  /** Merging is associative on whatever was accumulated. */
  lemma MergeAssociative(a: Stats, s: seq<real>, b: Stats, t: seq<real>, c: Stats, u: seq<real>)
    requires Describes(a, s) && Describes(b, t) && Describes(c, u)
    ensures Merged(Merged(a, b), c) == Merged(a, Merged(b, c))
  {
    MergeIsExact(a, s, b, t);
    MergeIsExact(Merged(a, b), s + t, c, u);
    MergeIsExact(b, t, c, u);
    MergeIsExact(a, s, Merged(b, c), t + u);
    assert s + t + u == s + (t + u);
    DescribesOne(Merged(Merged(a, b), c), Merged(a, Merged(b, c)), s + t + u);
  }

  /** Merging is commutative on whatever was accumulated. */
  lemma MergeCommutative(a: Stats, s: seq<real>, b: Stats, t: seq<real>)
    requires Describes(a, s) && Describes(b, t)
    ensures Merged(a, b) == Merged(b, a)
  {
    MergeIsExact(a, s, b, t);
    MergeIsExact(b, t, a, s);
    if s != [] && t != [] {
      SwapSamples(Merged(b, a), s, t);
    }
    DescribesOne(Merged(a, b), Merged(b, a), s + t);
  }

  /** The order of two halves does not matter to what describes them. */
  lemma SwapSamples(a: Stats, s: seq<real>, t: seq<real>)
    requires s != [] && t != [] && Describes(a, t + s)
    ensures Describes(a, s + t)
  {
    ConcatenateSums(s, t);
    ConcatenateSums(t, s);
    ConcatenateDeviations(s, t, a.mean);
    ConcatenateDeviations(t, s, a.mean);
    ConcatenateTotals(s, t);
    ConcatenateTotals(t, s);
    ConcatenateExtremes(s, t);
    ConcatenateExtremes(t, s);
    assert |s + t| == |t + s|;
  }
}

module RunningStatistics {
  import opened Wrappers
  import opened Words
  import opened Statistics

  class RunningStatistics {
    var count: nat
    var mean: real
    var m2: real
    var min: real
    var max: real
    var total: Word
    ghost var samples: seq<real>

    ghost function Value(): Stats
      reads this
    {
      Stats(count, mean, m2, min, max, total)
    }

    /** The accumulator describes the samples it was fed, directly or by merging. */
    ghost predicate Valid()
      reads this
    {
      Describes(Value(), samples)
    }

    constructor ()
      ensures Valid() && samples == []
    {
      count, mean, m2, min, max, total, samples := 0, 0.0, 0.0, 0.0, 0.0, 0, [];
    }

    method Reset()
      modifies this
      ensures Valid() && samples == []
    {
      count, mean, m2, min, max, total, samples := 0, 0.0, 0.0, 0.0, 0.0, 0, [];
    }

    method AddSample(x: real)
      requires Valid()
      modifies this
      ensures Valid() && samples == old(samples) + [x]
    {
      UpdateIsExact(Value(), samples, x);
      Update(x);
      samples := samples + [x];
    }

    /** The arithmetic of `add_sample`. */
    method Update(x: real)
      modifies this`count, this`mean, this`m2, this`min, this`max, this`total
      ensures Value() == Updated(old(Value()), x)
    {
      if count == 0 {
        min, max := x, x;
      } else {
        min, max := Min(min, x), Max(max, x);
      }
      total := WrappingAdd(total, RoundToWord(x));
      count := count + 1;
      var delta := x - mean;
      mean := mean + delta / (count as real);
      var delta2 := x - mean;
      m2 := m2 + Times(delta, delta2);
    }

    method Merge(other: RunningStatistics)
      requires other != this && Valid() && other.Valid()
      modifies this
      ensures Valid() && samples == old(samples) + other.samples
    {
      MergeIsExact(Value(), samples, other.Value(), other.samples);
      Combine(other);
      samples := samples + other.samples;
    }

    /** The arithmetic of `merge`. */
    method Combine(other: RunningStatistics)
      requires other != this
      modifies this`count, this`mean, this`m2, this`min, this`max, this`total
      ensures Value() == Merged(old(Value()), other.Value())
    {
      if other.count == 0 {
        return;
      }
      if count == 0 {
        count, mean, m2, min, max, total := other.count, other.mean, other.m2, other.min, other.max, other.total;
        return;
      }
      m2 := m2 + (other.m2 + Between(count as real, mean, other.count as real, other.mean));
      mean := CombinedMean(count as real, mean, other.count as real, other.mean);
      min, max := Min(min, other.min), Max(max, other.max);
      total := WrappingAdd(total, other.total);
      count := count + other.count;
    }

    /** The sample variance: never negative, and the squared deviations over `n - 1`. */
    method Variance() returns (v: Option<real>)
      requires Valid()
      ensures v.Some? <==> |samples| > 1
      ensures v.Some? ==> v.value >= 0.0
      ensures v.Some? ==> Times((|samples| - 1) as real, v.value) == SquaredDeviations(samples, mean)
    {
      if count <= 1 {
        return None;
      }
      DeviationsNonNegative(samples, mean);
      var n := (count - 1) as real;
      Quotient(m2, n);
      return Some(m2 / n);
    }
  }
}
