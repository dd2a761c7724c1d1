/**
 * The metrics collector of metrics.py: a FIFO history of request records capped
 * at 1000 entries, and statistics over the last 100 of them.
 *
 * The clock (`time.time()`) and the host sampler (`psutil`) are not modelled;
 * their readings are passed in as a `HostReading`. Floating-point values are
 * modelled as reals, without rounding.
 */
module Metrics {

  /** `max_requests`: the history keeps at most this many records. */
  const MaxRequests: nat := 1000
  /** The statistics are computed over at most this many latest records. */
  const StatsWindow: nat := 100
  /** The marker `get_stats` returns on an empty history. */
  const NoRequestsMessage: string := "No requests recorded"

  /** `RequestMetrics`: one served request. */
  datatype RequestMetrics = RequestMetrics(
    timestamp: real,
    responseTime: real,
    inputLength: nat,
    outputLength: nat,
    cacheHit: bool,
    memoryUsage: real,
    cpuUsage: real)

  /**
   * What `record_request` reads from its host: the clock twice (once for the
   * response time, once for the timestamp) and the memory and CPU percentages.
   */
  datatype HostReading = HostReading(
    elapsedClock: real,
    stampClock: real,
    memoryPercent: real,
    cpuPercent: real)

  /** The dictionary `get_stats` returns: the no-data marker, or the statistics. */
  datatype Stats =
    | NoData(message: string)
    | Summary(
        totalRequests: nat,
        avgResponseTime: real,
        cacheHits: nat,
        windowSize: nat,
        avgMemoryUsage: real,
        avgCpuUsage: real,
        latestRequest: RequestMetrics)
  {
    /**
     * `cache_hit_rate`: the fraction of windowed records that were cache hits;
     * a fraction in [0, 1] that is 0 with no hit and 1 when every record hit.
     */
    function CacheHitRate(): (rate: real)
      requires Summary? && windowSize > 0
      ensures cacheHits <= windowSize ==> 0.0 <= rate <= 1.0
      ensures cacheHits == 0 ==> rate == 0.0
      ensures cacheHits == windowSize ==> rate == 1.0
    {
      if cacheHits <= windowSize then
        FractionInUnitInterval(cacheHits, windowSize);
        cacheHits as real / windowSize as real
      else
        cacheHits as real / windowSize as real
    }
  }

  function Min(a: int, b: int): int
  {
    if a <= b then a else b
  }

  /** The last `n` elements of `s`, or all of `s` when it is shorter (Python's `s[-n:]` for n > 0). */
  function LastN<T>(s: seq<T>, n: nat): (r: seq<T>)
    requires n > 0
    ensures |r| == Min(|s|, n)
    ensures r == s[|s| - |r|..]
  {
    if |s| <= n then s else s[|s| - n..]
  }

  /** Drop the head of a list that has grown past `cap` (`pop(0)` after `append`). */
  function Evict<T>(s: seq<T>, cap: nat): (r: seq<T>)
    ensures |r| <= |s| && r == s[|s| - |r|..]
    ensures |s| <= cap + 1 ==> |r| == Min(|s|, cap)
  {
    if |s| > cap then s[1..] else s
  }

  /**
   * Appending to the last `n` records and evicting the head once the cap is
   * exceeded keeps exactly the last `n` records of the longer history.
   */
  lemma LastNAppend<T>(s: seq<T>, x: T, n: nat)
    requires n > 0
    ensures LastN(s + [x], n) == Evict(LastN(s, n) + [x], n)
  {
    if |s| >= n {
      calc {
        Evict(LastN(s, n) + [x], n);
        (s[|s| - n..] + [x])[1..];
        { assert (s[|s| - n..] + [x])[1..] == s[|s| - n + 1..] + [x]; }
        s[|s| - n + 1..] + [x];
        { assert (s + [x])[|s| + 1 - n..] == s[|s| + 1 - n..] + [x]; }
        LastN(s + [x], n);
      }
    }
  }

  /** The record `record_request` builds from its arguments and host readings. */
  function NewRecord(startTime: real, inputText: string, outputText: string,
                     cacheHit: bool, host: HostReading): (m: RequestMetrics)
    ensures m.inputLength == |inputText| && m.outputLength == |outputText|
    ensures m.cacheHit == cacheHit
    ensures m.responseTime == host.elapsedClock - startTime && m.timestamp == host.stampClock
    ensures m.memoryUsage == host.memoryPercent && m.cpuUsage == host.cpuPercent
  {
    RequestMetrics(
      timestamp := host.stampClock,
      responseTime := host.elapsedClock - startTime,
      inputLength := |inputText|,
      outputLength := |outputText|,
      cacheHit := cacheHit,
      memoryUsage := host.memoryPercent,
      cpuUsage := host.cpuPercent)
  }

  /** The number of records in `rs` that were cache hits. */
  function CountHits(rs: seq<RequestMetrics>): (n: nat)
    ensures n <= |rs|
    ensures n == 0 <== (forall i :: 0 <= i < |rs| ==> !rs[i].cacheHit)
  {
    if rs == [] then 0
    else CountHits(rs[..|rs| - 1]) + (if rs[|rs| - 1].cacheHit then 1 else 0)
  }

  /** The positions of the cache hits in `rs`. */
  ghost function HitIndices(rs: seq<RequestMetrics>): set<nat>
  {
    set i: nat | i < |rs| && rs[i].cacheHit
  }

  /** Counting hits one by one gives the number of hit positions. */
  lemma {:induction false} CountHitsIsHitIndexCount(rs: seq<RequestMetrics>)
    ensures CountHits(rs) == |HitIndices(rs)|
  {
    if rs != [] {
      var front := rs[..|rs| - 1];
      CountHitsIsHitIndexCount(front);
      var last: nat := |rs| - 1;
      assert HitIndices(front) == HitIndices(rs) - {last};
      if rs[last].cacheHit {
        assert HitIndices(rs) == HitIndices(front) + {last};
      } else {
        assert HitIndices(rs) == HitIndices(front);
      }
    }
  }

  function ResponseTimeOf(r: RequestMetrics): real { r.responseTime }
  function MemoryUsageOf(r: RequestMetrics): real { r.memoryUsage }
  function CpuUsageOf(r: RequestMetrics): real { r.cpuUsage }

  /** The sum of `f` over the records, added up in order. */
  function Sum(rs: seq<RequestMetrics>, f: RequestMetrics -> real): real
  {
    if rs == [] then 0.0 else Sum(rs[..|rs| - 1], f) + f(rs[|rs| - 1])
  }

  /** The arithmetic mean of `f` over the records: the common value when all are equal. */
  function Average(rs: seq<RequestMetrics>, f: RequestMetrics -> real): (mean: real)
    requires rs != []
    ensures (forall i :: 0 <= i < |rs| ==> f(rs[i]) == f(rs[0])) ==> mean == f(rs[0])
  {
    if forall i :: 0 <= i < |rs| ==> f(rs[i]) == f(rs[0]) then
      SumBounds(rs, f, f(rs[0]), f(rs[0]));
      Sum(rs, f) / (|rs| as real)
    else
      Sum(rs, f) / (|rs| as real)
  }

  /** A sum of values between `lo` and `hi` lies between |rs|*lo and |rs|*hi. */
  lemma {:induction false} SumBounds(rs: seq<RequestMetrics>, f: RequestMetrics -> real, lo: real, hi: real)
    requires forall i :: 0 <= i < |rs| ==> lo <= f(rs[i]) <= hi
    ensures |rs| as real * lo <= Sum(rs, f) <= |rs| as real * hi
  {
    if rs != [] {
      SumBounds(rs[..|rs| - 1], f, lo, hi);
    }
  }

  /** A mean of values between `lo` and `hi` lies between them. */
  lemma AverageBounds(rs: seq<RequestMetrics>, f: RequestMetrics -> real, lo: real, hi: real)
    requires rs != []
    requires forall i :: 0 <= i < |rs| ==> lo <= f(rs[i]) <= hi
    ensures lo <= Average(rs, f) <= hi
  {
    SumBounds(rs, f, lo, hi);
    var n := |rs| as real;
    assert Sum(rs, f) / n >= (n * lo) / n;
    assert Sum(rs, f) / n <= (n * hi) / n;
  }

  /**
   * `get_stats` on a history: the no-data marker when it is empty, otherwise
   * the total length of the history and, over its last 100 records, the mean
   * response time, the hit count, the mean memory and CPU usage and the latest
   * record.
   */
  function ComputeStats(requests: seq<RequestMetrics>): (s: Stats)
    ensures s.NoData? <==> requests == []
    ensures s.NoData? ==> s.message == NoRequestsMessage
    ensures s.Summary? ==>
      && s.totalRequests == |requests|
      && s.windowSize == Min(StatsWindow, |requests|)
      && 0 <= s.cacheHits <= s.windowSize
      && s.latestRequest == requests[|requests| - 1]
  {
    if requests == [] then NoData(NoRequestsMessage)
    else
      var recent := LastN(requests, StatsWindow);
      Summary(
        totalRequests := |requests|,
        avgResponseTime := Average(recent, ResponseTimeOf),
        cacheHits := CountHits(recent),
        windowSize := |recent|,
        avgMemoryUsage := Average(recent, MemoryUsageOf),
        avgCpuUsage := Average(recent, CpuUsageOf),
        latestRequest := recent[|recent| - 1])
  }

  /**
   * The hit rate of a non-empty history is the number of cache hits among its
   * last min(100, n) records divided by that window size, so it lies in [0, 1].
   */
  lemma HitRateIsWindowFraction(requests: seq<RequestMetrics>)
    requires requests != []
    ensures var s := ComputeStats(requests);
      var window := requests[|requests| - Min(StatsWindow, |requests|)..];
      && s.windowSize > 0
      && s.CacheHitRate() == |HitIndices(window)| as real / |window| as real
      && 0.0 <= s.CacheHitRate() <= 1.0
  {
    var s := ComputeStats(requests);
    var window := LastN(requests, StatsWindow);
    assert s.cacheHits == CountHits(window) && s.windowSize == |window|;
    CountHitsIsHitIndexCount(window);
    FractionInUnitInterval(s.cacheHits, s.windowSize);
  }

  /** A count out of a positive total is a fraction in [0, 1]. */
  lemma FractionInUnitInterval(part: nat, whole: nat)
    requires part <= whole && whole > 0
    ensures 0.0 <= part as real / whole as real <= 1.0
  {
    assert part as real / whole as real <= whole as real / whole as real;
  }

  /** Memory and CPU percentages in [0, 100] give averages in [0, 100]. */
  lemma UsageAveragesArePercentages(requests: seq<RequestMetrics>)
    requires forall i :: 0 <= i < |requests| ==>
      0.0 <= requests[i].memoryUsage <= 100.0 && 0.0 <= requests[i].cpuUsage <= 100.0
    ensures var s := ComputeStats(requests);
      s.Summary? ==>
        0.0 <= s.avgMemoryUsage <= 100.0 && 0.0 <= s.avgCpuUsage <= 100.0
  {
    if requests != [] {
      var recent := LastN(requests, StatsWindow);
      assert forall i :: 0 <= i < |recent| ==> recent[i] == requests[|requests| - |recent| + i];
      AverageBounds(recent, MemoryUsageOf, 0.0, 100.0);
      AverageBounds(recent, CpuUsageOf, 0.0, 100.0);
    }
  }

  /** `MetricsCollector`: the bounded history of request records. */
  class MetricsCollector {
    /** `requests`: the retained records, oldest first. */
    var requests: seq<RequestMetrics>
    /** Every record ever recorded, oldest first. */
    ghost var recorded: seq<RequestMetrics>

    /** The retained history is the last (at most 1000) records, in order. */
    ghost predicate Valid()
      reads this
    {
      requests == LastN(recorded, MaxRequests)
    }

    constructor ()
      ensures Valid()
      ensures requests == [] && recorded == []
    {
      requests := [];
      recorded := [];
    }

    /**
     * `record_request`: append the new record and, once the history holds more
     * than 1000 records, evict the oldest.
     */
    method RecordRequest(startTime: real, inputText: string, outputText: string,
                         cacheHit: bool, host: HostReading)
      requires Valid()
      modifies this
      ensures Valid()
      ensures recorded == old(recorded) + [NewRecord(startTime, inputText, outputText, cacheHit, host)]
      ensures requests == Evict(old(requests) + [NewRecord(startTime, inputText, outputText, cacheHit, host)], MaxRequests)
      ensures |requests| == Min(|old(requests)| + 1, MaxRequests) <= MaxRequests
      ensures var last := requests[|requests| - 1];
        && last.inputLength == |inputText|
        && last.outputLength == |outputText|
        && last.cacheHit == cacheHit
        && last.responseTime == host.elapsedClock - startTime
    {
      var metrics := NewRecord(startTime, inputText, outputText, cacheHit, host);
      LastNAppend(recorded, metrics, MaxRequests);
      requests := requests + [metrics];
      if |requests| > MaxRequests {
        requests := requests[1..];
      }
      recorded := recorded + [metrics];
    }

    /** `get_stats`: the statistics of the current history; reads it and changes nothing. */
    function GetStats(): (s: Stats)
      reads this
      ensures s == ComputeStats(requests)
      ensures s.NoData? <==> requests == []
    {
      ComputeStats(requests)
    }
  }

  /**
   * The retained history is exactly the last min(n, 1000) of the n records
   * ever recorded, oldest first.
   */
  lemma RetainedAreLatest(c: MetricsCollector)
    requires c.Valid()
    ensures |c.requests| == Min(|c.recorded|, MaxRequests)
    ensures forall i :: 0 <= i < |c.requests| ==>
      c.requests[i] == c.recorded[|c.recorded| - |c.requests| + i]
  {
  }
}
