/**
 * The statistics of `RouterStats`: running sums from which mean and variance are computed
 * without the samples, running extremes, and a ring of the last message sizes. Doubles
 * are modelled as reals.
 */
module Stats {

  function Sum(s: seq<real>): real {
    if s == [] then 0.0 else Sum(s[..|s| - 1]) + s[|s| - 1]
  }

  function SumSq(s: seq<real>): real {
    if s == [] then 0.0 else SumSq(s[..|s| - 1]) + s[|s| - 1] * s[|s| - 1]
  }

  /** The length as a real. */
  function Count(s: seq<real>): real {
    if s == [] then 0.0 else Count(s[..|s| - 1]) + 1.0
  }

  /** Sum of squared distances from m: the textbook definition. */
  function Spread(s: seq<real>, m: real): real {
    if s == [] then 0.0 else Spread(s[..|s| - 1], m) + (s[|s| - 1] - m) * (s[|s| - 1] - m)
  }

  /** The numerator of the running form, n * sum(x^2) - (sum x)^2. */
  function Excess(n: real, sq: real, sum: real): real {
    n * sq - sum * sum
  }

  /** What compute takes the square root of. */
  function Radicand(n: real, sq: real, sum: real): real
    requires n > 1.0
  {
    Excess(n, sq, sum) / n / (n - 1.0)
  }

  /** The spread around m in terms of the running sums. */
  function Expanded(n: real, sq: real, sum: real, m: real): real {
    sq - 2.0 * m * sum + n * m * m
  }

  lemma {:induction false} CountIsLength(s: seq<real>)
    ensures Count(s) == |s| as real
  {
    if s != [] {
      CountIsLength(s[..|s| - 1]);
    }
  }

  lemma OneMore(n: real, sq: real, sum: real, d: real, x: real, m: real, n': real, sq': real, sum': real, d': real)
    requires n' == n + 1.0 && sq' == sq + x * x && sum' == sum + x && d' == d + (x - m) * (x - m)
    requires d == Expanded(n, sq, sum, m)
    ensures d' == Expanded(n', sq', sum', m)
  {
  }

  /** The recursive definitions, one sample on. */
  lemma {:induction false} OneMoreSample(s: seq<real>, m: real)
    requires s != []
    ensures var t, x := s[..|s| - 1], s[|s| - 1];
            && Count(s) == Count(t) + 1.0 && Sum(s) == Sum(t) + x && SumSq(s) == SumSq(t) + x * x
            && Spread(s, m) == Spread(t, m) + (x - m) * (x - m)
  {
  }

  lemma {:induction false} SpreadExpands(s: seq<real>, m: real)
    ensures Spread(s, m) == Expanded(Count(s), SumSq(s), Sum(s), m)
  {
    if s != [] {
      var t, x := s[..|s| - 1], s[|s| - 1];
      SpreadExpands(t, m);
      OneMoreSample(s, m);
      OneMore(Count(t), SumSq(t), Sum(t), Spread(t, m), x, m, Count(s), SumSq(s), Sum(s), Spread(s, m));
    }
  }

  lemma {:induction false} SpreadNonNegative(s: seq<real>, m: real)
    ensures Spread(s, m) >= 0.0
  {
    if s != [] {
      SpreadNonNegative(s[..|s| - 1], m);
      var d := s[|s| - 1] - m;
      assert d * d >= 0.0;
    }
  }

  lemma AroundMean(n: real, sq: real, sum: real, m: real, d: real)
    requires n * m == sum && d == Expanded(n, sq, sum, m)
    ensures Excess(n, sq, sum) == n * d
  {
    assert n * (2.0 * m * sum) == 2.0 * sum * sum;
    assert n * (n * m * m) == (n * m) * (n * m);
  }

  lemma NonNegativeProduct(n: real, v: real)
    requires n > 0.0 && v >= 0.0
    ensures n * v >= 0.0
  {
  }

  lemma NonNegativeQuotient(v: real, d: real)
    requires d > 0.0 && v >= 0.0
    ensures v / d >= 0.0
  {
  }

  lemma Cancel(x: real, n: real, v: real)
    requires n > 0.0 && x == n * v
    ensures x / n == v
  {
  }

  lemma MeanTimesCount(sum: real, n: real)
    requires n > 0.0
    ensures n * (sum / n) == sum
  {
  }

  /** n * sum(x^2) - (sum x)^2 is n times the spread around the mean m. */
  lemma {:induction false} RunningForm(s: seq<real>, m: real)
    requires Count(s) * m == Sum(s)
    ensures Excess(Count(s), SumSq(s), Sum(s)) == Count(s) * Spread(s, m)
  {
    SpreadExpands(s, m);
    AroundMean(Count(s), SumSq(s), Sum(s), m, Spread(s, m));
  }

  lemma RadicandOf(n: real, sq: real, sum: real, v: real)
    requires n > 1.0 && v >= 0.0 && Excess(n, sq, sum) == n * v
    ensures Radicand(n, sq, sum) == v / (n - 1.0)
  {
    Cancel(Excess(n, sq, sum), n, v);
  }

  /** So for more than two samples it is never negative, and the value under the square
      root is the sample variance around the mean. */
  lemma {:induction false} VarianceIsSound(s: seq<real>, m: real)
    requires Count(s) > 1.0 && Count(s) * m == Sum(s)
    ensures Excess(Count(s), SumSq(s), Sum(s)) >= 0.0
    ensures Radicand(Count(s), SumSq(s), Sum(s)) == Spread(s, m) / (Count(s) - 1.0) >= 0.0
  {
    RunningForm(s, m);
    SpreadNonNegative(s, m);
    NonNegativeProduct(Count(s), Spread(s, m));
    RadicandOf(Count(s), SumSq(s), Sum(s), Spread(s, m));
    NonNegativeQuotient(Spread(s, m), Count(s) - 1.0);
  }

  lemma {:induction false} VarianceOfSamples(s: seq<real>, n: real, mean: real)
    requires |s| > 2 && n == |s| as real && n * mean == Sum(s)
    ensures Radicand(n, SumSq(s), Sum(s)) == Spread(s, mean) / (n - 1.0) >= 0.0
  {
    CountIsLength(s);
    VarianceIsSound(s, mean);
  }

  predicate IsMin(x: real, s: seq<real>) {
    x in s && forall i :: 0 <= i < |s| ==> x <= s[i]
  }

  predicate IsMax(x: real, s: seq<real>) {
    x in s && forall i :: 0 <= i < |s| ==> s[i] <= x
  }

  /** The samples the extremes range over: with two samples or more, all but the first. */
  function Watched(s: seq<real>): seq<real> {
    if |s| <= 1 then s else s[1..]
  }

  /** The kept extremes are those of all samples exactly when the first sample, which they
      leave out, does not lie outside them. */
  lemma ExtremesIff(s: seq<real>, lo: real, hi: real)
    requires |s| >= 2 && IsMin(lo, Watched(s)) && IsMax(hi, Watched(s))
    ensures IsMin(lo, s) <==> lo <= s[0]
    ensures IsMax(hi, s) <==> s[0] <= hi
  {
    assert s == [s[0]] + s[1..];
  }

  /** It may: of 1, 2, 3 the kept minimum is 2, and of 3, 2, 1 the kept maximum is 2. */
  lemma FirstSampleIsMissed()
    ensures IsMin(2.0, Watched([1.0, 2.0, 3.0])) && !IsMin(2.0, [1.0, 2.0, 3.0])
    ensures IsMax(2.0, Watched([3.0, 2.0, 1.0])) && !IsMax(2.0, [3.0, 2.0, 1.0])
  {
    var up, down := [1.0, 2.0, 3.0], [3.0, 2.0, 1.0];
    assert up[1..] == [2.0, 3.0] && down[1..] == [2.0, 1.0];
    assert up[1..][0] == 2.0 && down[1..][0] == 2.0;
    assert up[0] == 1.0 && down[0] == 3.0;
  }

  lemma {:induction false} SumsSnoc(s: seq<real>, x: real)
    ensures Sum(s + [x]) == Sum(s) + x && SumSq(s + [x]) == SumSq(s) + x * x
  {
    assert (s + [x])[..|s|] == s;
  }

  lemma WatchedSnoc(s: seq<real>, x: real)
    ensures Watched(s + [x]) == if |s| <= 1 then [x] else Watched(s) + [x]
  {
  }

  lemma ExtremesSnoc(lo: real, hi: real, s: seq<real>, x: real)
    requires IsMin(lo, s) && IsMax(hi, s)
    ensures IsMin(if x < lo then x else lo, s + [x])
    ensures IsMax(if x > hi then x else hi, s + [x])
  {
    assert (s + [x])[|s|] == x;
    assert forall i :: 0 <= i < |s| ==> (s + [x])[i] == s[i];
  }

  class RouteTimeStats {
    var deltaSum: real
    var deltaSq: real
    var deltaMin: real
    var deltaMax: real
    var count: nat
    ghost var samples: seq<real>

    ghost predicate Valid()
      reads this
    {
      && count == |samples| && deltaSum == Sum(samples) && deltaSq == SumSq(samples)
      && (count == 0 ==> deltaMin == 3.0 && deltaMax == 0.0)
      && (count > 0 ==> IsMin(deltaMin, Watched(samples)) && IsMax(deltaMax, Watched(samples)))
    }

    constructor ()
      ensures Valid() && samples == []
    {
      deltaSum, deltaSq, deltaMin, deltaMax, count := 0.0, 0.0, 3.0, 0.0, 0;
      samples := [];
    }

    method Sample(delta: real)
      requires Valid()
      modifies this
      ensures Valid() && samples == old(samples) + [delta]
    {
      SumsSnoc(samples, delta);
      deltaSum := deltaSum + delta;
      deltaSq := deltaSq + delta * delta;
      Watch(delta);
      count := count + 1;
      samples := samples + [delta];
    }

    /** From the third sample on the extremes are compared; before, they are replaced. */
    method Watch(delta: real)
      requires count == |samples|
      requires count > 1 ==> IsMin(deltaMin, Watched(samples)) && IsMax(deltaMax, Watched(samples))
      modifies this`deltaMin, this`deltaMax
      ensures IsMin(deltaMin, Watched(samples + [delta])) && IsMax(deltaMax, Watched(samples + [delta]))
    {
      WatchedSnoc(samples, delta);
      if count > 1 {
        ExtremesSnoc(deltaMin, deltaMax, Watched(samples), delta);
        if delta < deltaMin { deltaMin := delta; }
        if delta > deltaMax { deltaMax := delta; }
      } else {
        deltaMin := delta;
        deltaMax := delta;
      }
    }

    /** stddev is the square root of the radicand returned here. */
    method Compute() returns (n: nat, mean: real, radicand: real, min: real, max: real)
      requires Valid()
      ensures n == |samples|
      ensures n > 2 ==> mean == Sum(samples) / n as real && radicand == Spread(samples, mean) / (n as real - 1.0) >= 0.0
      ensures n <= 2 ==> mean == 0.0 && radicand == 0.0
      ensures n > 0 ==> IsMin(min, Watched(samples)) && IsMax(max, Watched(samples))
      ensures n == 0 ==> min == 3.0 && max == 0.0
    {
      mean, radicand := 0.0, 0.0;
      if count > 2 {
        var c := count as real;
        mean := deltaSum / c;
        radicand := Radicand(c, deltaSq, deltaSum);
        MeanTimesCount(deltaSum, c);
        VarianceOfSamples(samples, c, mean);
      }
      n, min, max := count, deltaMin, deltaMax;
    }
  }

  // ---------------------------------------------------------------------------
  // The ring of recent message sizes

  const SAMPLE_SIZE := 20

  /** Slot of the k-th newest sample when `current` is the next slot to write. */
  function Slot(current: nat, k: nat): nat
    requires k < SAMPLE_SIZE && current < SAMPLE_SIZE
  {
    (SAMPLE_SIZE - k + current - 1) % SAMPLE_SIZE
  }

  /** Writing one sample makes every earlier one a place older. */
  lemma SlotShift(current: nat, k: nat)
    requires current < SAMPLE_SIZE && k < SAMPLE_SIZE
    ensures var next := (current + 1) % SAMPLE_SIZE;
            && (k == 0 ==> Slot(next, k) == current)
            && (k > 0 ==> Slot(next, k) == Slot(current, k - 1) && Slot(current, k - 1) != current)
  {
  }

  class RouteByteStats {
    const sampleLength: array<int>
    var currentSample: nat
    ghost var history: seq<int>

    ghost predicate Valid()
      reads this, sampleLength
    {
      && sampleLength.Length == SAMPLE_SIZE && currentSample < SAMPLE_SIZE
      && forall k :: 0 <= k < SAMPLE_SIZE && k < |history| ==> sampleLength[Slot(currentSample, k)] == history[|history| - 1 - k]
    }

    constructor ()
      ensures Valid() && history == [] && fresh(sampleLength)
    {
      sampleLength := new int[SAMPLE_SIZE];
      currentSample := 0;
      history := [];
    }

    method Sample(bytes: int)
      requires Valid()
      modifies this, sampleLength
      ensures Valid() && history == old(history) + [bytes]
    {
      sampleLength[currentSample] := bytes;
      currentSample := (currentSample + 1) % SAMPLE_SIZE;
      history := history + [bytes];
      forall k | 0 <= k < SAMPLE_SIZE && k < |history|
        ensures sampleLength[Slot(currentSample, k)] == history[|history| - 1 - k]
      {
        SlotShift(old(currentSample), k);
      }
    }

    /** print_lastmsg lists the most recent sizes, newest first. */
    method LastMessages() returns (out: seq<int>)
      requires Valid()
      ensures |out| == SAMPLE_SIZE
      ensures forall k :: 0 <= k < SAMPLE_SIZE && k < |history| ==> out[k] == history[|history| - 1 - k]
    {
      out := [];
      var i := SAMPLE_SIZE;
      while i > 0
        invariant 0 <= i <= SAMPLE_SIZE && |out| == SAMPLE_SIZE - i
        invariant forall k :: 0 <= k < |out| ==> out[k] == sampleLength[Slot(currentSample, k)]
      {
        var ndx := (i + currentSample - 1) % SAMPLE_SIZE;
        out := out + [sampleLength[ndx]];
        i := i - 1;
      }
    }
  }
}
