/**
 * The request handlers of app.py: `generate_text` (cache lookup, generation on
 * a miss, caching and metrics recording) and `get_metrics`.
 *
 * The tokenizer and the language model are not modelled: `Backend` stands for
 * them, with a deterministic token count for the input and a generation step
 * whose outcome (decoded text or a raised error) is arbitrary.
 */
module App {
  import opened Wrappers
  import opened PyText
  import Cache
  import opened Metrics

  /** Tokens the handler lets the model produce beyond the prompt. */
  const ExtraTokens: nat := 50
  /** Status code and detail prefix of the exception raised when generation fails. */
  const InternalServerError: int := 500
  const GenerationFailedPrefix: string := "Generation failed: "

  /** `GenerateRequest`: the body of a generation request. */
  datatype GenerateRequest = GenerateRequest(text: string, maxLength: int, temperature: real)

  /** `GenerateResponse`: the body of a successful generation response. */
  datatype GenerateResponse = GenerateResponse(response: string, cached: bool, responseTime: real)

  /** `HTTPException`: the error response the handler raises. */
  datatype HttpException = HttpException(statusCode: int, detail: string)

  /** One call of the model: its arguments and what it produced after decoding. */
  datatype Generation = Generation(
    inputTokens: nat,
    maxLength: int,
    temperature: real,
    outcome: Result<string, string>)

  /** The tokenizer and the model. */
  class Backend {
    /** `tokenizer.encode`: the number of input tokens, or the reason it failed. */
    const encode: string -> Result<nat, string>
    /** Every call of the model so far, oldest first. */
    var generations: seq<Generation>

    constructor (encode: string -> Result<nat, string>)
      ensures this.encode == encode && generations == []
    {
      this.encode := encode;
      generations := [];
    }

    /**
     * `model.generate` followed by `tokenizer.decode`: sampled text, or the
     * reason it failed. Any outcome is possible; the call is logged.
     */
    method Generate(inputTokens: nat, maxLength: int, temperature: real)
      returns (outcome: Result<string, string>)
      modifies this
      ensures generations == old(generations) + [Generation(inputTokens, maxLength, temperature, outcome)]
    {
      outcome :| true;
      generations := generations + [Generation(inputTokens, maxLength, temperature, outcome)];
    }
  }

  /** The `max_length` passed to the model: `min(max_length, input tokens + 50)`. */
  function GenerationLength(maxLength: int, inputTokens: nat): (n: int)
    ensures n <= maxLength && n <= inputTokens + ExtraTokens
    ensures n == maxLength || n == inputTokens + ExtraTokens
  {
    Min(maxLength, inputTokens + ExtraTokens)
  }

  /** The response made of the decoded output: the input's length cut off, then stripped. */
  function StripInputPrefix(decoded: string, text: string): (response: string)
    ensures |decoded| <= |text| ==> response == []
    ensures |text| < |decoded| ==> |response| <= |decoded| - |text|
  {
    Strip(DropPrefix(decoded, |text|), IsSpace)
  }

  /** The response never has whitespace at either end. */
  lemma StripInputPrefixTrimmed(decoded: string, text: string)
    ensures Trimmed(StripInputPrefix(decoded, text), IsSpace)
  {
    StripTrimmed(DropPrefix(decoded, |text|), IsSpace);
  }

  /**
   * The response is the part of the decoded output after its first |text|
   * characters that is left once the whitespace on both sides is removed:
   * whenever decoded[i..j] lies after position |text|, has only whitespace
   * between |text| and i and after j, and no whitespace at its ends, the
   * response is exactly decoded[i..j].
   */
  lemma StripInputPrefixIsInnerSlice(decoded: string, text: string, i: nat, j: nat)
    requires |text| <= i <= j <= |decoded|
    requires forall k :: |text| <= k < i ==> IsSpace(decoded[k])
    requires forall k :: j <= k < |decoded| ==> IsSpace(decoded[k])
    requires i < j ==> !IsSpace(decoded[i]) && !IsSpace(decoded[j - 1])
    ensures StripInputPrefix(decoded, text) == decoded[i..j]
  {
    var n := |text|;
    assert DropPrefix(decoded, n) == decoded[n..];
    StripTailUnique(decoded, IsSpace, n, i, j);
  }

  /** Python truthiness of `cache.get(...)`: present and not the empty string. */
  predicate IsHit(cached: Option<string>)
    ensures cached == None ==> !IsHit(cached)
    ensures cached == Some("") ==> !IsHit(cached)
    ensures cached.Some? && |cached.value| > 0 ==> IsHit(cached)
  {
    cached.Some? && cached.value != ""
  }

  /** The module-level `cache`, `metrics_collector`, tokenizer and model that the handlers share. */
  class Server {
    const cache: Cache.Cache
    const metricsCollector: MetricsCollector
    const backend: Backend

    ghost predicate Valid()
      reads this, metricsCollector
    {
      metricsCollector.Valid()
    }

    constructor (cache: Cache.Cache, metricsCollector: MetricsCollector, backend: Backend)
      requires metricsCollector.Valid()
      ensures Valid()
      ensures this.cache == cache && this.metricsCollector == metricsCollector && this.backend == backend
    {
      this.cache := cache;
      this.metricsCollector := metricsCollector;
      this.backend := backend;
    }

    /**
     * `generate_text`. `startTime` and `responseClock` are the two readings of
     * the clock in the handler, `host` what `record_request` reads.
     *
     * A hit (a non-empty cached response) is returned with `cached` set, without
     * calling the model or touching the cache, and recorded as a hit. On a miss
     * the model is called once with `min(max_length, input tokens + 50)`; its
     * output, cut and stripped, is cached, recorded as a miss and returned. If
     * the tokenizer or the model fails, a 500 is raised and the cache and the
     * metrics are left as they were.
     */
    method GenerateText(request: GenerateRequest, startTime: real, responseClock: real, host: HostReading)
      returns (result: Result<GenerateResponse, HttpException>)
      requires Valid()
      modifies cache, metricsCollector, backend
      ensures Valid()
      ensures IsHit(old(cache.Get(request.text))) ==>
        var cached := old(cache.Get(request.text)).value;
        && result == Success(GenerateResponse(cached, true, responseClock - startTime))
        && cache.memoryCache == old(cache.memoryCache)
        && backend.generations == old(backend.generations)
        && metricsCollector.recorded == old(metricsCollector.recorded) + [NewRecord(startTime, request.text, cached, true, host)]
      ensures !IsHit(old(cache.Get(request.text))) && backend.encode(request.text).Failure? ==>
        && result == Failure(HttpException(InternalServerError, GenerationFailedPrefix + backend.encode(request.text).error))
        && cache.memoryCache == old(cache.memoryCache)
        && backend.generations == old(backend.generations)
        && metricsCollector.requests == old(metricsCollector.requests)
        && metricsCollector.recorded == old(metricsCollector.recorded)
      ensures !IsHit(old(cache.Get(request.text))) && backend.encode(request.text).Success? ==>
        var tokens := backend.encode(request.text).value;
        && |backend.generations| == |old(backend.generations)| + 1
        && var g := backend.generations[|backend.generations| - 1];
        && backend.generations == old(backend.generations) + [g]
        && g.inputTokens == tokens
        && g.maxLength == GenerationLength(request.maxLength, tokens)
        && g.temperature == request.temperature
        && match g.outcome
           case Failure(reason) =>
             && result == Failure(HttpException(InternalServerError, GenerationFailedPrefix + reason))
             && cache.memoryCache == old(cache.memoryCache)
             && metricsCollector.requests == old(metricsCollector.requests)
             && metricsCollector.recorded == old(metricsCollector.recorded)
           case Success(decoded) =>
             var response := StripInputPrefix(decoded, request.text);
             && result == Success(GenerateResponse(response, false, responseClock - startTime))
             && cache.memoryCache == old(cache.memoryCache)[cache.key(request.text) := response]
             && metricsCollector.recorded == old(metricsCollector.recorded) + [NewRecord(startTime, request.text, response, false, host)]
    {
      var cachedResponse := cache.Get(request.text);
      if IsHit(cachedResponse) {
        metricsCollector.RecordRequest(startTime, request.text, cachedResponse.value, true, host);
        return Success(GenerateResponse(cachedResponse.value, true, responseClock - startTime));
      }
      var inputs := backend.encode(request.text);
      if inputs.Failure? {
        return Failure(HttpException(InternalServerError, GenerationFailedPrefix + inputs.error));
      }
      var outputs := backend.Generate(inputs.value, GenerationLength(request.maxLength, inputs.value), request.temperature);
      if outputs.Failure? {
        return Failure(HttpException(InternalServerError, GenerationFailedPrefix + outputs.error));
      }
      var response := StripInputPrefix(outputs.value, request.text);
      cache.Set(request.text, response);
      metricsCollector.RecordRequest(startTime, request.text, response, false, host);
      return Success(GenerateResponse(response, false, responseClock - startTime));
    }

    /** `get_metrics`: the collector's statistics, as they are. */
    function GetMetrics(): (stats: Stats)
      reads this, metricsCollector
      ensures stats == metricsCollector.GetStats()
    {
      metricsCollector.GetStats()
    }
  }
}
