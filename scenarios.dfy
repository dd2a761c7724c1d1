/**
 * Clients of the cache and the request handler: what a caller can conclude
 * from their contracts alone about several calls in a row.
 */
module Scenarios {
  import opened Wrappers
  import Cache
  import opened Metrics
  import opened App

  /** A second `set` for the same text replaces the first; other fingerprints are untouched. */
  method OverwriteKeepsLatest(c: Cache.Cache, text: string, first: string, second: string)
    modifies c
    ensures c.Get(text) == Some(second)
    ensures forall t :: c.key(t) != c.key(text) ==> c.Get(t) == old(c.Get(t))
  {
    c.Set(text, first);
    c.Set(text, second);
  }

  /**
   * The same request twice, starting from a miss: if the first answer is a
   * non-empty generated response, the second is that response served from the
   * cache, the model ran once, and two records were added.
   */
  method RepeatedRequest(server: Server, request: GenerateRequest,
                         start1: real, clock1: real, host1: HostReading,
                         start2: real, clock2: real, host2: HostReading)
    returns (first: Result<GenerateResponse, HttpException>, second: Result<GenerateResponse, HttpException>)
    requires server.Valid()
    requires !IsHit(server.cache.Get(request.text))
    modifies server.cache, server.metricsCollector, server.backend
    ensures server.Valid()
    ensures first.Success? ==> !first.value.cached
    ensures first.Success? && first.value.response != "" ==>
      && second == Success(GenerateResponse(first.value.response, true, clock2 - start2))
      && |server.backend.generations| == |old(server.backend.generations)| + 1
      && server.metricsCollector.recorded == old(server.metricsCollector.recorded) + [
           NewRecord(start1, request.text, first.value.response, false, host1),
           NewRecord(start2, request.text, first.value.response, true, host2)]
      && server.GetMetrics().Summary?
      && server.GetMetrics().totalRequests == Min(|old(server.metricsCollector.requests)| + 2, MaxRequests)
  {
    ghost var recorded0 := server.metricsCollector.recorded;
    first := server.GenerateText(request, start1, clock1, host1);
    if first.Success? && first.value.response != "" {
      var response := first.value.response;
      ghost var recorded1 := server.metricsCollector.recorded;
      assert recorded1 == recorded0 + [NewRecord(start1, request.text, response, false, host1)];
      assert server.cache.Get(request.text) == Some(response);
      second := server.GenerateText(request, start2, clock2, host2);
      assert server.metricsCollector.recorded == recorded1 + [NewRecord(start2, request.text, response, true, host2)];
    } else {
      second := server.GenerateText(request, start2, clock2, host2);
    }
  }

  /**
   * On a fresh server, a request answered with a non-empty response and then
   * repeated yields two records, one of them a hit: a hit rate of one half.
   */
  method FreshServerHitRate(key: string -> Cache.Fingerprint, encode: string -> Result<nat, string>,
                            request: GenerateRequest,
                            start1: real, clock1: real, host1: HostReading,
                            start2: real, clock2: real, host2: HostReading)
    returns (first: Result<GenerateResponse, HttpException>, second: Result<GenerateResponse, HttpException>, stats: Stats)
    ensures first.Success? ==> !first.value.cached
    ensures first.Success? && first.value.response != "" ==>
      && second == Success(GenerateResponse(first.value.response, true, clock2 - start2))
      && stats.Summary?
      && stats.totalRequests == 2 && stats.windowSize == 2 && stats.cacheHits == 1
      && stats.CacheHitRate() == 0.5
  {
    var cache := new Cache.Cache(key);
    var metrics := new MetricsCollector();
    var backend := new Backend(encode);
    var server := new Server(cache, metrics, backend);
    first, second := RepeatedRequest(server, request, start1, clock1, host1, start2, clock2, host2);
    stats := server.GetMetrics();
    if first.Success? && first.value.response != "" {
      var miss := NewRecord(start1, request.text, first.value.response, false, host1);
      var hit := NewRecord(start2, request.text, first.value.response, true, host2);
      assert metrics.recorded == [miss, hit];
      MissThenHitStats(miss, hit);
    }
  }

  /** The statistics of a miss followed by a hit. */
  lemma MissThenHitStats(miss: RequestMetrics, hit: RequestMetrics)
    requires !miss.cacheHit && hit.cacheHit
    ensures var s := ComputeStats([miss, hit]);
      && s.Summary?
      && s.totalRequests == 2 && s.windowSize == 2 && s.cacheHits == 1
      && s.CacheHitRate() == 0.5
  {
    assert LastN([miss, hit], StatsWindow) == [miss, hit];
    assert [miss, hit][..1] == [miss];
    assert CountHits([miss]) == 0;
  }

  /**
   * On a fresh server, a request whose generation fails is answered with a 500
   * carrying the reason, leaves nothing cached and nothing recorded.
   */
  method FailedRequestLeavesNoTrace(key: string -> Cache.Fingerprint, encode: string -> Result<nat, string>,
                                    request: GenerateRequest, start: real, clock: real, host: HostReading)
    returns (result: Result<GenerateResponse, HttpException>, stats: Stats, cachedAfter: Option<string>)
    ensures result.Failure? ==>
      && result.error.statusCode == InternalServerError
      && GenerationFailedPrefix <= result.error.detail
      && stats == NoData(NoRequestsMessage)
      && cachedAfter == None
    ensures result.Success? ==> !result.value.cached && stats.Summary? && stats.totalRequests == 1
  {
    var cache := new Cache.Cache(key);
    var metrics := new MetricsCollector();
    var backend := new Backend(encode);
    var server := new Server(cache, metrics, backend);
    result := server.GenerateText(request, start, clock, host);
    stats := server.GetMetrics();
    cachedAfter := cache.Get(request.text);
  }
}
