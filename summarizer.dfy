// redis-app/summarizer: reads the backend's counters and histograms on
// each poll and derives deltas, rates, the backlog and bucket percentiles.
module Summarizer {
  import opened Wrappers
  import opened Strings
  import opened Numbers
  import Ordering

  /** One parsed exposition sample: its labels and its value. */
  datatype Sample = Sample(labels: map<string, string>, value: real)

  /** Metric name to samples, as parse_metrics_text returns them. */
  type Metrics = map<string, seq<Sample>>

  /** A bucket bound as Python's float() gives it, infinities included. */
  datatype Bound = NegInf | Finite(v: real) | PosInf

  predicate BoundLe(a: Bound, b: Bound) {
    match a
    case NegInf => true
    case Finite(x) => b.PosInf? || (b.Finite? && x <= b.v)
    case PosInf => b.PosInf?
  }

  /** A histogram bucket: its `le` bound and its sample value. */
  type Bucket = (Bound, real)

  /** The sort key of get_histogram: the bound. */
  predicate BucketLe(a: Bucket, b: Bucket) { BoundLe(a.0, b.0) }

  lemma {:induction false} BucketLePreorder()
    ensures Ordering.TotalPreorder(BucketLe)
  {
  }

  function Sum(samples: seq<Sample>): real
    decreases |samples|
  {
    if samples == [] then 0.0 else Sum(samples[..|samples| - 1]) + samples[|samples| - 1].value
  }

  /** get_counter: the sum over every label variant of the name, and 0 when the name has no samples. */
  function GetCounter(metrics: Metrics, name: string): (r: real)
    ensures name !in metrics ==> r == 0.0
    ensures name in metrics ==> r == Sum(metrics[name])
  {
    if name !in metrics || metrics[name] == [] then 0.0 else Sum(metrics[name])
  }

  /** One more sample under a name adds its value to the counter, and leaves every other name's counter alone. */
  lemma {:induction false} CounterAddsSample(metrics: Metrics, name: string, s: Sample, other: string)
    requires other != name
    ensures var m' := metrics[name := (if name in metrics then metrics[name] else []) + [s]];
      GetCounter(m', name) == GetCounter(metrics, name) + s.value &&
      GetCounter(m', other) == GetCounter(metrics, other)
  {
    var old_ := if name in metrics then metrics[name] else [];
    assert (old_ + [s])[..|old_ + [s]| - 1] == old_;
    assert Sum(old_ + [s]) == Sum(old_) + s.value;
    assert GetCounter(metrics, name) == Sum(old_);
  }

  /** Counters are sums of non-negative samples, so they are non-negative. */
  lemma {:induction false} SumNonNegative(samples: seq<Sample>)
    requires forall i :: 0 <= i < |samples| ==> samples[i].value >= 0.0
    ensures Sum(samples) >= 0.0
    decreases |samples|
  {
    if samples != [] {
      SumNonNegative(samples[..|samples| - 1]);
    }
  }

  /** The exponent of a float literal: an optional sign and at least one digit. */
  function ExponentReading(e: string): Option<int> {
    var (neg, digits) := SignAndBody(e);
    if |digits| > 0 && AllDigits(digits) then
      Some(if neg then -(DigitsValue(digits) as int) else DigitsValue(digits))
    else None
  }

  function ScaleBy10(v: real, e: int): real {
    if e >= 0 then v * Pow10(e) as real else v / Pow10(-e) as real
  }

  /**
   * Python's float() on a string: surrounding white space, an optional
   * sign, then "inf"/"infinity" in any case, or a decimal numeral with an
   * optional exponent. None for every other text: where float() raises
   * ValueError, and also for "nan" and numerals with underscores such as
   * "1_0", which float() accepts but this reading does not.
   */
  function FloatReading(s: string): Option<Bound> {
    var (neg, body) := SignAndBody(Trim(s));
    var low := Lower(body);
    if low == "inf" || low == "infinity" then Some(if neg then NegInf else PosInf)
    else
      var i := IndexOf(low, 'e');
      var mantissa := if i < 0 then UnsignedReading(body) else UnsignedReading(body[..i]);
      var exponent := if i < 0 then Some(0) else ExponentReading(body[i + 1..]);
      if mantissa.None? || exponent.None? then None
      else
        var v := ScaleBy10(mantissa.value, exponent.value);
        Some(Finite(if neg then -v else v))
  }

  /** A bucket's bound: its `le` label read by float(), and +infinity when the label is missing or unreadable. */
  function LeBound(labels: map<string, string>): (b: Bound)
    ensures "le" !in labels ==> b == PosInf
    ensures "le" in labels && FloatReading(labels["le"]).None? ==> b == PosInf
    ensures "le" in labels && FloatReading(labels["le"]).Some? ==> b == FloatReading(labels["le"]).value
  {
    if "le" !in labels then PosInf
    else match FloatReading(labels["le"])
      case None => PosInf
      case Some(b) => b
  }

  function Samples(metrics: Metrics, name: string): seq<Sample> {
    if name in metrics then metrics[name] else []
  }

  /** The buckets in exposition order, before sorting. */
  function RawBuckets(samples: seq<Sample>): (r: seq<Bucket>)
    ensures |r| == |samples|
    ensures forall i :: 0 <= i < |samples| ==> r[i] == (LeBound(samples[i].labels), samples[i].value)
  {
    seq(|samples|, i requires 0 <= i < |samples| => (LeBound(samples[i].labels), samples[i].value))
  }

  function HistogramBuckets(metrics: Metrics, base: string): seq<Bucket> {
    Ordering.SortBy(RawBuckets(Samples(metrics, base + "_bucket")), BucketLe)
  }

  /**
   * get_histogram: the `<base>_bucket` samples as (bound, value) pairs,
   * sorted ascending by bound, and the `<base>_count` and `<base>_sum`
   * totals (each 0 when absent).
   */
  method GetHistogram(metrics: Metrics, base: string) returns (buckets: seq<Bucket>, count: real, total: real)
    ensures Ordering.SortedBy(buckets, BucketLe)
    ensures multiset(buckets) == multiset(RawBuckets(Samples(metrics, base + "_bucket")))
    ensures buckets == HistogramBuckets(metrics, base)
    ensures count == GetCounter(metrics, base + "_count") && total == GetCounter(metrics, base + "_sum")
  {
    var samples := Samples(metrics, base + "_bucket");
    buckets := [];
    for i := 0 to |samples|
      invariant buckets == RawBuckets(samples[..i])
    {
      buckets := buckets + [(LeBound(samples[i].labels), samples[i].value)];
    }
    assert samples[..|samples|] == samples;
    buckets := Ordering.SortBy(buckets, BucketLe);
    BucketLePreorder();
    Ordering.SortBySorted(RawBuckets(samples), BucketLe);
    Ordering.SortByPermutes(RawBuckets(samples), BucketLe);
    count := GetCounter(metrics, base + "_count");
    total := GetCounter(metrics, base + "_sum");
  }

  /** The running sum of the first n bucket values. */
  function RunningSum(b: seq<Bucket>, n: nat): real
    requires n <= |b|
  {
    if n == 0 then 0.0 else RunningSum(b, n - 1) + b[n - 1].1
  }

  /** The running sum through bucket j. */
  function CumAt(b: seq<Bucket>, j: nat): real
    requires j < |b|
  {
    RunningSum(b, j + 1)
  }

  /** The first index at or after k whose running sum reaches the target, or -1. */
  function Reach(b: seq<Bucket>, target: real, k: nat): (i: int)
    requires k <= |b|
    requires forall j :: 0 <= j < k ==> CumAt(b, j) < target
    ensures -1 <= i < |b|
    ensures i >= 0 ==> CumAt(b, i) >= target && forall j :: 0 <= j < i ==> CumAt(b, j) < target
    ensures i < 0 ==> forall j :: 0 <= j < |b| ==> CumAt(b, j) < target
    decreases |b| - k
  {
    if k == |b| then -1
    else if CumAt(b, k) >= target then k
    else Reach(b, target, k + 1)
  }

  /**
   * The percentile histogram_percentile reports: 0 for an empty histogram;
   * otherwise the bound of the first bucket at which the running sum of
   * bucket values reaches q*count; failing that, the last bucket's bound,
   * or 0 when there are no buckets.
   */
  function Percentile(b: seq<Bucket>, count: real, q: real): (r: Bound)
    ensures count == 0.0 ==> r == Finite(0.0)
    ensures count != 0.0 ==> forall i :: 0 <= i < |b| && CumAt(b, i) >= q * count ==>
      ((forall j :: 0 <= j < i ==> CumAt(b, j) < q * count) ==> r == b[i].0)
    ensures (count != 0.0 && forall j :: 0 <= j < |b| ==> CumAt(b, j) < q * count) ==>
      r == if b == [] then Finite(0.0) else b[|b| - 1].0
  {
    if count == 0.0 then Finite(0.0)
    else
      var i := Reach(b, q * count, 0);
      if i >= 0 then b[i].0 else if b == [] then Finite(0.0) else b[|b| - 1].0
  }

  /** histogram_percentile: the walk with the running sum `cum`. */
  method HistogramPercentile(b: seq<Bucket>, count: real, q: real) returns (r: Bound)
    ensures r == Percentile(b, count, q)
  {
    if count == 0.0 {
      return Finite(0.0);
    }
    var target := q * count;
    var cum := 0.0;
    for k := 0 to |b|
      invariant cum == RunningSum(b, k)
      invariant forall j :: 0 <= j < k ==> CumAt(b, j) < target
    {
      cum := cum + b[k].1;
      if cum >= target {
        return b[k].0;
      }
    }
    r := if b == [] then Finite(0.0) else b[|b| - 1].0;
  }

  /**
   * The walk adds up bucket values that the exposition format already
   * reports cumulatively, so it can stop early: here 80% of the 10
   * observations fall at or below 3 and only 6 at or below 2, yet the walk
   * reports 2.
   */
  lemma {:induction false} ReaccumulationExample()
    ensures var b := [(Finite(1.0), 3.0), (Finite(2.0), 6.0), (Finite(3.0), 10.0)];
      Percentile(b, 10.0, 0.8) == Finite(2.0) && b[1].1 < 0.8 * 10.0 && b[2].1 >= 0.8 * 10.0
  {
    var b := [(Finite(1.0), 3.0), (Finite(2.0), 6.0), (Finite(3.0), 10.0)];
    assert RunningSum(b, 1) == 3.0;
    assert RunningSum(b, 2) == 9.0;
  }

  /** The _state dict: the last observed counters and the time of the last successful poll. */
  datatype PollState = PollState(lastEnqueued: Option<real>, lastProcessed: Option<real>, lastPollTime: Option<real>)

  datatype Percentiles = Percentiles(p50: Bound, p90: Bound, p99: Bound)

  /** The summarizer's own exported metrics. */
  datatype Gauges = Gauges(
    pollErrors: nat, lastPollTs: real, queueLength: int,
    enqueuedTotal: real, processedTotal: real, enqueueRate: real, processRate: real,
    e2e: Percentiles, processing: Percentiles)

  datatype Snapshot = Snapshot(st: PollState, g: Gauges)

  /** What one poll fetched: the parsed /metrics samples and the /queue/length value. */
  datatype Observed = Observed(metrics: Metrics, queueLength: int)

  const Zero := Percentiles(Finite(0.0), Finite(0.0), Finite(0.0))
  const Initial := Snapshot(PollState(None, None, None), Gauges(0, 0.0, 0, 0.0, 0.0, 0.0, 0.0, Zero, Zero))

  const EnqueuedName := "gateway_jobs_enqueued_total"
  const ProcessedName := "worker_jobs_processed_total"
  const EndToEndBase := "worker_job_end_to_end_latency_seconds"
  const ProcessingBase := "worker_job_processing_seconds"

  /** The observed growth of a counter: 0 on its first observation, and never negative. */
  function Delta(current: real, last: Option<real>): (d: real)
    ensures d >= 0.0
    ensures last.None? ==> d == 0.0
    ensures last.Some? && current >= last.value ==> d == current - last.value
    ensures last.Some? && current < last.value ==> d == 0.0
  {
    if last.None? then 0.0 else if current - last.value > 0.0 then current - last.value else 0.0
  }

  function Interval(last: Option<real>, now: real): Option<real> {
    if last.None? then None else Some(now - last.value)
  }

  /** A per-second rate over the interval, or 0 when there is no usable interval. */
  function Rate(delta: real, interval: Option<real>): (r: real)
    ensures interval.Some? && interval.value > 0.0 ==> r == delta / interval.value
    ensures interval.None? || interval.value <= 0.0 ==> r == 0.0
  {
    if interval.Some? && interval.value != 0.0 && interval.value > 0.0 then delta / interval.value else 0.0
  }

  function Quantiles(metrics: Metrics, base: string): Percentiles {
    var b := HistogramBuckets(metrics, base);
    var count := GetCounter(metrics, base + "_count");
    Percentiles(Percentile(b, count, 0.5), Percentile(b, count, 0.9), Percentile(b, count, 0.99))
  }

  /** poll_and_update, with the fetch result (None when a fetch raised) and time.time() as inputs. */
  function PollStep(s: Snapshot, fetched: Option<Observed>, now: real): Snapshot {
    match fetched
    case None => s.(g := s.g.(pollErrors := s.g.pollErrors + 1))
    case Some(obs) =>
      var enqueued := GetCounter(obs.metrics, EnqueuedName);
      var processed := GetCounter(obs.metrics, ProcessedName);
      var dEnq := Delta(enqueued, s.st.lastEnqueued);
      var dProc := Delta(processed, s.st.lastProcessed);
      var interval := Interval(s.st.lastPollTime, now);
      Snapshot(
        PollState(Some(enqueued), Some(processed), Some(now)),
        s.g.(
          lastPollTs := now,
          queueLength := obs.queueLength,
          enqueuedTotal := s.g.enqueuedTotal + (if dEnq > 0.0 then dEnq else 0.0),
          processedTotal := s.g.processedTotal + (if dProc > 0.0 then dProc else 0.0),
          enqueueRate := Rate(dEnq, interval),
          processRate := Rate(dProc, interval),
          e2e := Quantiles(obs.metrics, EndToEndBase),
          processing := Quantiles(obs.metrics, ProcessingBase)))
  }

  /** A failed fetch counts one poll error and changes nothing else. */
  lemma {:induction false} FetchFailureKeepsState(s: Snapshot, now: real)
    ensures var s' := PollStep(s, None, now);
      s'.st == s.st && s'.g.pollErrors == s.g.pollErrors + 1 && s'.g == s.g.(pollErrors := s'.g.pollErrors)
  {
  }

  /**
   * After a successful poll the state holds the current observations, the
   * totals have grown by the clamped deltas, and the rates are the deltas
   * over the interval only when a positive interval since the last
   * successful poll exists.
   */
  lemma {:induction false} PollUpdates(s: Snapshot, obs: Observed, now: real)
    ensures var s' := PollStep(s, Some(obs), now);
      var enq := GetCounter(obs.metrics, EnqueuedName);
      var dEnq := Delta(enq, s.st.lastEnqueued);
      var proc := GetCounter(obs.metrics, ProcessedName);
      var dProc := Delta(proc, s.st.lastProcessed);
      s'.st == PollState(Some(enq), Some(proc), Some(now)) &&
      s'.g.pollErrors == s.g.pollErrors && s'.g.queueLength == obs.queueLength && s'.g.lastPollTs == now &&
      s'.g.enqueuedTotal == s.g.enqueuedTotal + dEnq &&
      s'.g.processedTotal == s.g.processedTotal + dProc &&
      (s.st.lastEnqueued.None? ==> s'.g.enqueuedTotal == s.g.enqueuedTotal) &&
      (s.st.lastProcessed.None? ==> s'.g.processedTotal == s.g.processedTotal) &&
      (s.st.lastPollTime.Some? && now - s.st.lastPollTime.value > 0.0 ==>
        s'.g.enqueueRate == dEnq / (now - s.st.lastPollTime.value) &&
        s'.g.processRate == dProc / (now - s.st.lastPollTime.value)) &&
      (s.st.lastPollTime.None? || now - s.st.lastPollTime.value <= 0.0 ==>
        s'.g.enqueueRate == 0.0 && s'.g.processRate == 0.0)
  {
  }

  /** The exported totals never decrease, and the rates are never negative when time moves forward. */
  lemma {:induction false} PollMonotone(s: Snapshot, fetched: Option<Observed>, now: real)
    requires s.g.enqueueRate >= 0.0 && s.g.processRate >= 0.0
    ensures var s' := PollStep(s, fetched, now);
      s'.g.enqueuedTotal >= s.g.enqueuedTotal && s'.g.processedTotal >= s.g.processedTotal &&
      s'.g.enqueueRate >= 0.0 && s'.g.processRate >= 0.0 && s'.g.pollErrors >= s.g.pollErrors
  {
  }

  /** The state after a finite prefix of poller_loop's endless polls. */
  function Polls(s: Snapshot, polls: seq<(Option<Observed>, real)>): Snapshot
    decreases |polls|
  {
    if polls == [] then s
    else var p := polls[|polls| - 1]; PollStep(Polls(s, polls[..|polls| - 1]), p.0, p.1)
  }

  function Failures(polls: seq<(Option<Observed>, real)>): nat
    decreases |polls|
  {
    if polls == [] then 0 else Failures(polls[..|polls| - 1]) + (if polls[|polls| - 1].0.None? then 1 else 0)
  }

  /** Over any run the totals only grow, and the error counter counts exactly the failed polls. */
  lemma {:induction false} PollsMonotone(s: Snapshot, polls: seq<(Option<Observed>, real)>)
    requires s.g.enqueueRate >= 0.0 && s.g.processRate >= 0.0
    ensures var s' := Polls(s, polls);
      s'.g.enqueuedTotal >= s.g.enqueuedTotal && s'.g.processedTotal >= s.g.processedTotal &&
      s'.g.enqueueRate >= 0.0 && s'.g.processRate >= 0.0 &&
      s'.g.pollErrors == s.g.pollErrors + Failures(polls)
    decreases |polls|
  {
    if polls != [] {
      var before := Polls(s, polls[..|polls| - 1]);
      PollsMonotone(s, polls[..|polls| - 1]);
      PollMonotone(before, polls[|polls| - 1].0, polls[|polls| - 1].1);
    }
  }

  /** The summarizer process: _state and the exported gauges and counters. */
  class Poller {
    var st: PollState
    var g: Gauges

    function Model(): Snapshot
      reads this
    {
      Snapshot(st, g)
    }

    constructor ()
      ensures Model() == Initial
    {
      st := Initial.st;
      g := Initial.g;
    }

    /** The six percentile gauges of one poll. */
    method ReadQuantiles(metrics: Metrics, base: string) returns (p: Percentiles)
      ensures p == Quantiles(metrics, base)
    {
      var b, count, _ := GetHistogram(metrics, base);
      var p50 := HistogramPercentile(b, count, 0.5);
      var p90 := HistogramPercentile(b, count, 0.9);
      var p99 := HistogramPercentile(b, count, 0.99);
      p := Percentiles(p50, p90, p99);
    }

    /** poll_and_update. */
    method Poll(fetched: Option<Observed>, now: real)
      modifies this
      ensures Model() == PollStep(old(Model()), fetched, now)
    {
      if fetched.None? {
        g := g.(pollErrors := g.pollErrors + 1);
        return;
      }
      var obs := fetched.value;
      var enqueued := GetCounter(obs.metrics, EnqueuedName);
      var processed := GetCounter(obs.metrics, ProcessedName);
      var dEnq := Delta(enqueued, st.lastEnqueued);
      var dProc := Delta(processed, st.lastProcessed);
      var interval := Interval(st.lastPollTime, now);
      if dEnq > 0.0 {
        g := g.(enqueuedTotal := g.enqueuedTotal + dEnq);
      }
      if dProc > 0.0 {
        g := g.(processedTotal := g.processedTotal + dProc);
      }
      g := g.(enqueueRate := Rate(dEnq, interval), processRate := Rate(dProc, interval));
      g := g.(queueLength := obs.queueLength);
      var e2e := ReadQuantiles(obs.metrics, EndToEndBase);
      var processing := ReadQuantiles(obs.metrics, ProcessingBase);
      g := g.(e2e := e2e, processing := processing, lastPollTs := now);
      st := PollState(Some(enqueued), Some(processed), Some(now));
    }

    /** poller_loop, run for the given polls; the sleep between them is not modelled. */
    method Loop(polls: seq<(Option<Observed>, real)>)
      modifies this
      ensures Model() == Polls(old(Model()), polls)
    {
      for i := 0 to |polls|
        invariant Model() == Polls(old(Model()), polls[..i])
      {
        Poll(polls[i].0, polls[i].1);
        assert polls[..i + 1][..i] == polls[..i];
      }
      assert polls[..|polls|] == polls;
    }
  }
}
