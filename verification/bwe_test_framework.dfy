/** Pieces of the bandwidth-estimation test framework whose behaviour is
    visible in its header: the memoising sample store Stats, the ordering
    of packet lists that every processing stage must leave behind, and
    the inline accessors of the rate counter and the packet sender. */
module BweTestFramework {

  // ---------------------------------------------------------------------
  // Aggregates over a sample sequence, each computed from the whole
  // sequence, left to right
  // ---------------------------------------------------------------------

  function Sum(s: seq<real>): real
  {
    if s == [] then 0.0 else Sum(s[..|s| - 1]) + s[|s| - 1]
  }

  /** Arithmetic mean; 0 for no samples, which is what a fresh store reports. */
  function Mean(s: seq<real>): real
  {
    if s == [] then 0.0 else Sum(s) / |s| as real
  }

  function SumOfSquares(s: seq<real>, m: real): real
  {
    if s == [] then 0.0 else SumOfSquares(s[..|s| - 1], m) + (s[|s| - 1] - m) * (s[|s| - 1] - m)
  }

  /** Population variance (divided by the number of samples, not one less). */
  function Variance(s: seq<real>): real
  {
    if s == [] then 0.0 else SumOfSquares(s, Mean(s)) / |s| as real
  }

  function Min2(a: real, b: real): real
  {
    if b < a then b else a
  }

  function Max2(a: real, b: real): real
  {
    if a < b then b else a
  }

  /** Smallest sample, folded left to right; 0 for no samples. */
  function MinOf(s: seq<real>): real
  {
    if |s| <= 1 then (if s == [] then 0.0 else s[0])
    else Min2(MinOf(s[..|s| - 1]), s[|s| - 1])
  }

  /** Largest sample, folded left to right; 0 for no samples. */
  function MaxOf(s: seq<real>): real
  {
    if |s| <= 1 then (if s == [] then 0.0 else s[0])
    else Max2(MaxOf(s[..|s| - 1]), s[|s| - 1])
  }

  lemma {:induction false} MinOfIsSmallest(s: seq<real>)
    requires s != []
    ensures MinOf(s) in s
    ensures forall x :: x in s ==> MinOf(s) <= x
  {
    if |s| > 1 {
      var init := s[..|s| - 1];
      MinOfIsSmallest(init);
      assert s == init + [s[|s| - 1]];
    }
  }

  lemma {:induction false} MaxOfIsLargest(s: seq<real>)
    requires s != []
    ensures MaxOf(s) in s
    ensures forall x :: x in s ==> x <= MaxOf(s)
  {
    if |s| > 1 {
      var init := s[..|s| - 1];
      MaxOfIsLargest(init);
      assert s == init + [s[|s| - 1]];
    }
  }

  lemma {:induction false} SumOfSquaresNonNegative(s: seq<real>, m: real)
    ensures SumOfSquares(s, m) >= 0.0
  {
    if s != [] {
      SumOfSquaresNonNegative(s[..|s| - 1], m);
      var diff := s[|s| - 1] - m;
      if diff < 0.0 {
        assert diff * diff == (-diff) * (-diff);
      }
    }
  }

  lemma SumOfSquaresStep(s: seq<real>, i: nat, m: real)
    requires i < |s|
    ensures SumOfSquares(s[..i + 1], m) == SumOfSquares(s[..i], m) + (s[i] - m) * (s[i] - m)
  {
    assert s[..i + 1][..i] == s[..i];
  }

  lemma VarianceNonNegative(s: seq<real>)
    ensures Variance(s) >= 0.0
  {
    SumOfSquaresNonNegative(s, Mean(s));
  }

  lemma {:induction false} SumBetweenExtremes(s: seq<real>)
    requires s != []
    ensures |s| as real * MinOf(s) <= Sum(s) <= |s| as real * MaxOf(s)
  {
    if |s| > 1 {
      var init := s[..|s| - 1];
      var n := |init| as real;
      var last := s[|s| - 1];
      SumBetweenExtremes(init);
      assert Sum(s) == Sum(init) + last;
      assert |s| as real == n + 1.0;
      ScaleMonotone(n, MinOf(s), MinOf(init));
      ScaleMonotone(n, MaxOf(init), MaxOf(s));
      assert (n + 1.0) * MinOf(s) == n * MinOf(s) + MinOf(s);
      assert (n + 1.0) * MaxOf(s) == n * MaxOf(s) + MaxOf(s);
    }
  }

  lemma ScaleMonotone(n: real, a: real, b: real)
    requires n >= 0.0 && a <= b
    ensures n * a <= n * b
  {
  }

  lemma QuotientBounds(x: real, n: real, lo: real, hi: real)
    requires n > 0.0 && n * lo <= x <= n * hi
    ensures lo <= x / n <= hi
  {
  }

  /** The mean of a non-empty sample set lies between its minimum and maximum. */
  lemma MeanBetweenExtremes(s: seq<real>)
    requires s != []
    ensures MinOf(s) <= Mean(s) <= MaxOf(s)
  {
    SumBetweenExtremes(s);
    QuotientBounds(Sum(s), |s| as real, MinOf(s), MaxOf(s));
  }

  /** Five samples 1..5: mean 3, population variance 2, minimum 1, maximum 5. */
  lemma FiveSamples()
    ensures Mean([1.0, 2.0, 3.0, 4.0, 5.0]) == 3.0
    ensures Variance([1.0, 2.0, 3.0, 4.0, 5.0]) == 2.0
    ensures MinOf([1.0, 2.0, 3.0, 4.0, 5.0]) == 1.0
    ensures MaxOf([1.0, 2.0, 3.0, 4.0, 5.0]) == 5.0
  {
    var s1, s2, s3, s4, s5 := [1.0], [1.0, 2.0], [1.0, 2.0, 3.0], [1.0, 2.0, 3.0, 4.0], [1.0, 2.0, 3.0, 4.0, 5.0];
    assert s1[..0] == [] && s2[..1] == s1 && s3[..2] == s2 && s4[..3] == s3 && s5[..4] == s4;
    assert Sum(s1) == 1.0 && Sum(s2) == 3.0 && Sum(s3) == 6.0 && Sum(s4) == 10.0 && Sum(s5) == 15.0;
    assert SumOfSquares(s1, 3.0) == 4.0 && SumOfSquares(s2, 3.0) == 5.0 && SumOfSquares(s3, 3.0) == 5.0;
    assert SumOfSquares(s4, 3.0) == 6.0 && SumOfSquares(s5, 3.0) == 10.0;
    assert MinOf(s2) == 1.0 && MinOf(s3) == 1.0 && MinOf(s4) == 1.0 && MinOf(s5) == 1.0;
    assert MaxOf(s2) == 2.0 && MaxOf(s3) == 3.0 && MaxOf(s4) == 4.0 && MaxOf(s5) == 5.0;
  }

  // ---------------------------------------------------------------------
  // Stats: an append-only sample store with three memoised aggregates.
  // Each aggregate is tagged with the number of samples it was computed
  // from and is recomputed only when that number has changed.
  // ---------------------------------------------------------------------

  class Stats {
    var data: seq<real>
    var last_mean_count: nat
    var last_variance_count: nat
    var last_minmax_count: nat
    var mean: real
    var variance: real
    var min: real
    var max: real

    /** The mean cache holds the mean of the samples its tag counts. */
    ghost predicate MeanCached()
      reads this`data, this`last_mean_count, this`mean
    {
      last_mean_count <= |data| && mean == Mean(data[..last_mean_count])
    }

    ghost predicate VarianceCached()
      reads this`data, this`last_variance_count, this`variance
    {
      last_variance_count <= |data| && variance == Variance(data[..last_variance_count])
    }

    ghost predicate MinMaxCached()
      reads this`data, this`last_minmax_count, this`min, this`max
    {
      && last_minmax_count <= |data|
      && min == MinOf(data[..last_minmax_count])
      && max == MaxOf(data[..last_minmax_count])
    }

    /** No tag exceeds the number of samples, and each cache equals its
        aggregate recomputed over the samples its tag counts; so a cache
        whose tag equals the number of samples is up to date. */
    ghost predicate Valid()
      reads this
    {
      MeanCached() && VarianceCached() && MinMaxCached()
    }

    constructor ()
      ensures Valid()
      ensures data == []
      ensures last_mean_count == 0 && last_variance_count == 0 && last_minmax_count == 0
      ensures mean == 0.0 && variance == 0.0 && min == 0.0 && max == 0.0
    {
      data := [];
      last_mean_count, last_variance_count, last_minmax_count := 0, 0, 0;
      mean, variance, min, max := 0.0, 0.0, 0.0, 0.0;
    }

    /** Appends one sample; the caches and their tags are left alone. */
    method Push(data_point: real)
      requires Valid()
      modifies this
      ensures Valid()
      ensures data == old(data) + [data_point]
      ensures last_mean_count == old(last_mean_count) && mean == old(mean)
      ensures last_variance_count == old(last_variance_count) && variance == old(variance)
      ensures last_minmax_count == old(last_minmax_count) && min == old(min) && max == old(max)
    {
      assert (data + [data_point])[..last_mean_count] == data[..last_mean_count];
      assert (data + [data_point])[..last_variance_count] == data[..last_variance_count];
      assert (data + [data_point])[..last_minmax_count] == data[..last_minmax_count];
      data := data + [data_point];
    }

    /** The mean of all samples, recomputed only if samples arrived since
        it was last computed. */
    method GetMean() returns (r: real)
      requires MeanCached()
      modifies this
      ensures MeanCached()
      ensures r == Mean(data) && mean == r && last_mean_count == |data|
      ensures data == old(data)
      ensures last_variance_count == old(last_variance_count) && variance == old(variance)
      ensures last_minmax_count == old(last_minmax_count) && min == old(min) && max == old(max)
      ensures old(last_mean_count) == |data| ==> mean == old(mean)
    {
      if last_mean_count != |data| {
        last_mean_count := |data|;
        mean := Sum(data);
        assert last_mean_count != 0;
        mean := mean / last_mean_count as real;
      }
      assert data[..last_mean_count] == data;
      r := mean;
    }

    /** The population variance of all samples, recomputed only if samples
        arrived since it was last computed; a recomputation brings the
        mean cache up to date too. */
    method GetVariance() returns (r: real)
      requires Valid()
      modifies this
      ensures Valid()
      ensures r == Variance(data) && variance == r && last_variance_count == |data|
      ensures data == old(data)
      ensures last_minmax_count == old(last_minmax_count) && min == old(min) && max == old(max)
      ensures old(last_variance_count) == |data| ==>
        && variance == old(variance)
        && last_mean_count == old(last_mean_count) && mean == old(mean)
      ensures old(last_variance_count) != |data| ==> last_mean_count == |data| && mean == Mean(data)
    {
      if last_variance_count != |data| {
        last_variance_count := |data|;
        var m := GetMean();
        var sum_of_squares := SquaredDeviations(data, m);
        assert last_variance_count != 0;
        variance := sum_of_squares / last_variance_count as real;
        assert data[..last_mean_count] == data;
      }
      assert data[..last_variance_count] == data;
      r := variance;
    }

    /** The loop inside GetVariance: adds up the squared distance of every
        sample from the mean. */
    static method SquaredDeviations(samples: seq<real>, m: real) returns (sum_of_squares: real)
      ensures sum_of_squares == SumOfSquares(samples, m)
      ensures 0.0 <= sum_of_squares
    {
      sum_of_squares := 0.0;
      var i := 0;
      while i < |samples|
        invariant 0 <= i <= |samples|
        invariant sum_of_squares == SumOfSquares(samples[..i], m)
      {
        var diff := samples[i] - m;
        SumOfSquaresStep(samples, i, m);
        sum_of_squares := sum_of_squares + diff * diff;
        i := i + 1;
      }
      assert samples[..i] == samples;
      SumOfSquaresNonNegative(samples, m);
    }

    /** The smallest sample, or 0 when there are none. */
    method GetMin() returns (r: real)
      requires Valid()
      modifies this
      ensures Valid()
      ensures r == MinOf(data) && last_minmax_count == |data|
      ensures data == old(data) && min == r && max == MaxOf(data)
      ensures last_mean_count == old(last_mean_count) && mean == old(mean)
      ensures last_variance_count == old(last_variance_count) && variance == old(variance)
    {
      RefreshMinMax();
      r := min;
    }

    /** The largest sample, or 0 when there are none. */
    method GetMax() returns (r: real)
      requires Valid()
      modifies this
      ensures Valid()
      ensures r == MaxOf(data) && last_minmax_count == |data|
      ensures data == old(data) && max == r && min == MinOf(data)
      ensures last_mean_count == old(last_mean_count) && mean == old(mean)
      ensures last_variance_count == old(last_variance_count) && variance == old(variance)
    {
      RefreshMinMax();
      r := max;
    }

    /** Recomputes the minimum and maximum together when samples arrived
        since they were last computed. */
    method RefreshMinMax()
      requires Valid()
      modifies this
      ensures Valid()
      ensures last_minmax_count == |data| && min == MinOf(data) && max == MaxOf(data)
      ensures data == old(data)
      ensures last_mean_count == old(last_mean_count) && mean == old(mean)
      ensures last_variance_count == old(last_variance_count) && variance == old(variance)
      ensures old(last_minmax_count) == |data| ==> min == old(min) && max == old(max)
    {
      if last_minmax_count != |data| {
        last_minmax_count := |data|;
        // A tag below the sample count means there is at least one sample,
        // so the early return for an empty store cannot be taken here.
        min, max := data[0], data[0];
        var i := 1;
        while i < |data|
          invariant 1 <= i <= |data|
          invariant min == MinOf(data[..i]) && max == MaxOf(data[..i])
          invariant data == old(data) && last_minmax_count == |data|
          invariant last_mean_count == old(last_mean_count) && mean == old(mean)
          invariant last_variance_count == old(last_variance_count) && variance == old(variance)
        {
          assert data[..i + 1][..i] == data[..i];
          min := Min2(min, data[i]);
          max := Max2(max, data[i]);
          i := i + 1;
        }
        assert data[..i] == data;
      }
      assert data[..last_minmax_count] == data;
    }
  }

  /** A fresh store reports 0 for every aggregate, and computes nothing. */
  method FreshStatsReportZero() returns (mean: real, variance: real, min: real, max: real)
    ensures mean == 0.0 && variance == 0.0 && min == 0.0 && max == 0.0
  {
    var stats := new Stats();
    mean := stats.GetMean();
    variance := stats.GetVariance();
    min := stats.GetMin();
    max := stats.GetMax();
  }

  // ---------------------------------------------------------------------
  // Packets and the ordering every processing stage must leave behind
  // ---------------------------------------------------------------------

  newtype uint32 = x: int | 0 <= x < 0x1_0000_0000

  /** A simulated packet: the time it left the last stage that touched it
      (microseconds) and the size of its payload, which is not carried. */
  datatype Packet = Packet(send_time_us: int, payload_size: uint32)

  /** Send times never decrease from one packet to the next. */
  predicate IsTimeSorted(packets: seq<Packet>)
  {
    forall i :: 0 < i < |packets| ==> packets[i - 1].send_time_us <= packets[i].send_time_us
  }

  lemma {:induction false} TimeSortedUpTo(packets: seq<Packet>, i: nat, j: nat)
    requires IsTimeSorted(packets)
    requires i <= j < |packets|
    ensures packets[i].send_time_us <= packets[j].send_time_us
    decreases j - i
  {
    if i < j {
      TimeSortedUpTo(packets, i, j - 1);
    }
  }

  /** Neighbour-by-neighbour order is the same as order between any two packets. */
  lemma TimeSortedIffPairwise(packets: seq<Packet>)
    ensures IsTimeSorted(packets) <==>
      forall i, j :: 0 <= i <= j < |packets| ==> packets[i].send_time_us <= packets[j].send_time_us
  {
    if IsTimeSorted(packets) {
      forall i, j | 0 <= i <= j < |packets|
        ensures packets[i].send_time_us <= packets[j].send_time_us
      {
        TimeSortedUpTo(packets, i, j);
      }
    }
  }

  /** A processing stage seen through RunFor: given the simulated time to
      run for (ms) and the packet list, the packet list it leaves behind. */
  type Stage = (int, seq<Packet>) -> seq<Packet>

  /** What every RunFor must guarantee: whatever it consumed or produced,
      the list it leaves behind is sorted by send time. */
  ghost predicate MeetsRunForContract(run_for: Stage)
  {
    forall time_ms, in_out :: IsTimeSorted(run_for(time_ms, in_out))
  }

  /** Runs each stage of `chain` in turn on the same time slice. */
  function RunChain(chain: seq<Stage>, time_ms: int, in_out: seq<Packet>): seq<Packet>
    decreases |chain|
  {
    if chain == [] then in_out else RunChain(chain[1..], time_ms, chain[0](time_ms, in_out))
  }

  /** The list a non-empty chain leaves behind is what its last stage
      produced, so that stage's RunFor contract alone makes it sorted,
      whatever the earlier stages did and whatever list was fed in. */
  lemma {:induction false} ChainLeavesTimeSorted(chain: seq<Stage>, time_ms: int, in_out: seq<Packet>)
    requires chain != []
    requires MeetsRunForContract(chain[|chain| - 1])
    ensures IsTimeSorted(RunChain(chain, time_ms, in_out))
    decreases |chain|
  {
    if |chain| == 1 {
      assert MeetsRunForContract(chain[0]);
    } else {
      assert chain[1..][|chain[1..]| - 1] == chain[|chain| - 1];
      ChainLeavesTimeSorted(chain[1..], time_ms, chain[0](time_ms, in_out));
    }
  }

  // ---------------------------------------------------------------------
  // Inline accessors
  // ---------------------------------------------------------------------

  /** The rate counter reports bits per second as its byte rate times 8,
      in unsigned 32-bit arithmetic: the product wraps modulo 2^32. */
  function BitsPerSecond(bytes_per_second: uint32): (r: uint32)
    ensures bytes_per_second < 0x2000_0000 ==> r as int == 8 * bytes_per_second as int
    ensures bytes_per_second >= 0x2000_0000 ==> r as int < 8 * bytes_per_second as int
    ensures r as int % 8 == 0
    ensures (r as int - 8 * bytes_per_second as int) % 0x1_0000_0000 == 0
  {
    ((bytes_per_second as int * 8) % 0x1_0000_0000) as uint32
  }

  /** A packet sender's defaults: no capacity limit, feedback once a second. */
  const DEFAULT_CAPACITY_KBPS: uint32 := 0
  const DEFAULT_FEEDBACK_INTERVAL_MS: int := 1000
}
