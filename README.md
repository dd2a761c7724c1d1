# Request-serving layer of a text-generation HTTP service, in Dafny

This project models the core of a small text-generation web service: the
in-memory response cache (`cache.py`), the bounded metrics history
(`metrics.py`) and the `/generate` and `/metrics` handlers that tie them to the
language model (`app.py`). It proves what each operation promises and what
follows from several calls in a row.

- `cache.dfy`, module `Cache`: the class `Cache`, whose dictionary
  `memoryCache` maps a fingerprint of the input text to the response. The
  fingerprint function (an MD5 hex digest in the source) is a deterministic
  function `key`, fixed when the cache is built and never assumed injective.
  So every hit/miss property is stated in terms of `key(t1) == key(t2)`.
- `metrics.dfy`, module `Metrics`: the record `RequestMetrics`, the class
  `MetricsCollector` and `ComputeStats`. The collector holds `requests`, capped
  at 1000 records, and a ghost `recorded`, which holds every record ever
  appended. Its invariant is that `requests` is the last `min(n, 1000)` of those
  records, in order. The statistics cover the last `min(100, n)` records, except
  `totalRequests`, which is the length of the whole retained history.
- `pytext.dfy`, module `PyText`: the Python string operations used at
  app.py:73. These are `s[n:]` and `str.strip()`, with Python's `isspace`
  character set. `Strip` follows CPython's algorithm: it skips whitespace
  forward from the start, then backs off whitespace from the end. The
  whitespace test is a parameter, so the lemmas hold for any test, and the
  handler passes `IsSpace`.
- `app.dfy`, module `App`: the class `Server` holds the shared cache, collector
  and backend, with `GenerateText` and `GetMetrics`. `Backend` stands for the
  tokenizer and the model. Its `encode` is a deterministic token count that may
  fail. Its `Generate` may return any outcome, either decoded text or an error
  reason, and logs each call in `generations`. So "the model was not called"
  means that `generations` is unchanged.
- `scenarios.dfy`, module `Scenarios`: client methods that show what a caller
  can conclude from the contracts alone. They cover an overwrite, a repeated
  request (a miss, then a hit), the hit rate of one half on a fresh server, and
  a failed request that leaves no trace.
- `wrappers.dfy`, module `Wrappers`: `Option` (Python's `None`-or-value) and
  `Result` (a value or a raised error's reason).

The clock (`time.time()`) and the host sampler (`psutil`) are parameters.
`startTime` and `responseClock` are the handler's two clock readings. A
`HostReading` carries the two clock readings and the two percentages that
`record_request` takes.

Three facts about the code shape the model:
- The cache has no `clear` operation, and the service has no readiness flag and
  no "not ready" error.
- A cached empty string counts as a miss, because the handler tests the
  truthiness of `cache.get(...)`. The text is then generated again and its entry
  overwritten.
- `total_requests` is the length of the retained history, so it stops growing
  at 1000.

## Model

| member | source | states |
|---|---|---|
| `Cache.Cache.constructor` | cache.py:12-14 | a new in-memory cache is empty: `Get` returns `None` for every text |
| `Cache.Cache.Get` | cache.py:19-29 | returns `Some(v)` exactly when the text's fingerprint has an entry, and `v` is that entry; being a function of the state, it changes nothing |
| `Cache.Cache.Set` | cache.py:31-40 | the entry at `key(text)` becomes `response` (overwriting any earlier one), every text with that fingerprint now gets `response`, and every text with another fingerprint gets what it got before |
| `Cache.SameKeySameEntry` | cache.py:16-20 | two texts with equal fingerprints see the same cached value (collisions shared, not excluded) |
| `Metrics.LastN` | metrics.py:43 | for n > 0, `s[-n:]` has `min(|s|, n)` elements and is the suffix of `s` of that length |
| `Metrics.Evict` | metrics.py:36-37 | dropping the head once past the cap leaves a suffix of the list, and a list at most one over the cap is brought down to `min(length, cap)` |
| `Metrics.NewRecord` | metrics.py:23-33 | the new record's lengths are those of the input and output texts, its hit flag is the argument, its response time is the first clock reading minus the start, its timestamp the second reading, and its usage figures the host samples |
| `Metrics.LastNAppend` | metrics.py:35-37 | appending one record to the last `n` records and dropping the head once past `n` gives the last `n` records of the extended history |
| `Metrics.MetricsCollector.constructor` | metrics.py:17-19 | a new collector has an empty history and satisfies the retention invariant |
| `Metrics.MetricsCollector.RecordRequest` | metrics.py:21-37 | appends the new record (input length, output length, hit flag, response time from the arguments and readings), evicts the oldest once past 1000, so the length becomes `min(old + 1, 1000)`, the new record is last, and the history stays the last 1000 records ever recorded |
| `Metrics.RetainedAreLatest` | metrics.py:18-19 | under the invariant, the history is exactly the last `min(n, 1000)` of the `n` records ever recorded, oldest first |
| `Metrics.Stats.CacheHitRate` | metrics.py:48 | the hit rate is a fraction in [0, 1] when hits do not exceed the window, 0 with no hit and 1 when every windowed record hit |
| `Metrics.Average` | metrics.py:47-50 | a mean over records that all have the same value is that value |
| `Metrics.CountHits` | metrics.py:48 | the hit count of a window is at most the window's size, and zero when it holds no hit |
| `Metrics.CountHitsIsHitIndexCount` | metrics.py:48 | the hit count equals the number of positions in the window whose record is a cache hit |
| `Metrics.ComputeStats` | metrics.py:39-52 | the no-data marker "No requests recorded" exactly when the history is empty; otherwise `totalRequests` is the history length, the window size is `min(100, length)`, the hit count is at most the window size, and `latestRequest` is the last record |
| `Metrics.HitRateIsWindowFraction` | metrics.py:43-48 | on a non-empty history the hit rate is the number of hits among the last `min(100, n)` records divided by that count, and lies in [0, 1] |
| `Metrics.SumBounds` | metrics.py:47-50 | a sum of values in `[lo, hi]` lies in `[n*lo, n*hi]` |
| `Metrics.AverageBounds` | metrics.py:47-50 | a mean over the window lies between the least and the greatest bound of its values |
| `Metrics.UsageAveragesArePercentages` | metrics.py:49-50 | when every memory and CPU reading is a percentage, so are their averages |
| `Metrics.MetricsCollector.GetStats` | metrics.py:39-43 | the statistics of the current history, read without changing it; no-data exactly when the history is empty |
| `PyText.IsSpace` | app.py:73 | the whitespace test of `str.strip()` holds for exactly the 29 code points Python's `str.isspace()` accepts |
| `PyText.Strip` | app.py:73 | `str.strip()` never lengthens a string and returns the empty string exactly when the string is all whitespace |
| `PyText.DropPrefix` | app.py:73 | `s[n:]` is empty once `n` reaches the length, otherwise the `|s| - n` characters from position `n` |
| `PyText.SkipSpace` | app.py:73 | the first position from a start point that is not whitespace: everything skipped is whitespace, and the character there is not |
| `PyText.BackOffSpace` | app.py:73 | the end of a range once trailing whitespace is removed, never before its start: everything removed is whitespace, and the character before the new end is not |
| `PyText.StripTrimmed` | app.py:73 | `strip()` leaves no whitespace at either end |
| `PyText.StripUnique` | app.py:73 | reference definition: any slice with only whitespace outside it and none at its ends is exactly what `strip()` returns |
| `PyText.StripIdempotent` | app.py:73 | stripping twice is stripping once |
| `App.GenerationLength` | app.py:64 | the generation length is at most `max_length` and at most input tokens + 50, and equals one of them |
| `App.StripInputPrefix` | app.py:71-73 | the response is empty when the decoded output is no longer than the input, and otherwise no longer than the output minus the input's length |
| `App.StripInputPrefixTrimmed` | app.py:71-73 | the response never starts or ends with whitespace |
| `App.IsHit` | app.py:44-45 | the handler's truthiness test: `None` and a cached `""` are misses, any non-empty cached string is a hit |
| `App.StripInputPrefixIsInnerSlice` | app.py:73 | the response is the slice of the decoded output after its first `|text|` characters that has only whitespace around it there |
| `App.Backend.constructor` | app.py:16-17 | the backend starts with no model calls |
| `App.Backend.Generate` | app.py:62-71 | one model call is logged with its input token count, length, temperature and outcome |
| `App.Server.constructor` | app.py:7-9 | the server shares the given cache, collector and backend |
| `App.Server.GenerateText` | app.py:39-89 | hit (non-empty cached value): the cached response with `cached` set, the model not called, the cache unchanged, one hit record appended; miss: if the tokenizer fails, a 500 with "Generation failed: " and the reason and nothing changed; otherwise one model call with `min(max_length, tokens + 50)` and then either a 500 with the reason and the cache and history unchanged, or the cut and stripped output cached at the text's fingerprint, one miss record appended and the response returned with `cached` false |
| `App.Server.GetMetrics` | app.py:91-93 | returns the collector's `GetStats()` unchanged |
| `Scenarios.OverwriteKeepsLatest` | cache.py:40 | after two `set`s for one text, `get` returns the second response; other fingerprints are untouched |
| `Scenarios.RepeatedRequest` | app.py:44-86 | starting from a miss, a first non-empty generated response is served from the cache the second time, with one model call, one miss and one hit record, and `total_requests` grows by two up to the cap of 1000 |
| `Scenarios.FreshServerHitRate` | app.py:44-86 | on a fresh server, the same request twice (first answer non-empty) gives total 2, window 2, one hit and a hit rate of 0.5 |
| `Scenarios.MissThenHitStats` | metrics.py:43-48 | the statistics of a miss followed by a hit: two requests, one hit, rate one half |
| `Scenarios.FailedRequestLeavesNoTrace` | app.py:55-89 | on a fresh server, a failed generation answers 500 with the "Generation failed: " prefix, caches nothing and records nothing |

## Left out

- The Redis branch of the cache (cache.py:9-11, 22-27, 34-38) is left out. It is a network client whose entries expire on the server after `CACHE_TTL`. The source swallows its errors, so there `get` returns `None` and `set` does nothing.
- MD5 itself is left out. The fingerprint is the function `key` given to the constructor, so the source's `Cache()` with no arguments becomes `Cache(key)`.
- Loading the tokenizer and the model, `tokenizer.encode`, `model.generate` and `tokenizer.decode` (app.py:4-5, 14-23, 57-71) are left out. They are foreign library calls, replaced by `Backend`, whose `Generate` combines generation and decoding.
- FastAPI routing, the pydantic validation of request bodies, `root`, `health_check` and `uvicorn.run` (app.py:2-3, 11-12, 35-37, 95-105) are left out as HTTP plumbing. The request and response bodies are plain datatypes.
- The handlers are `async`, but they share the cache and the collector without locks. The model treats them as a sequential state machine, with one request handled at a time.
- `Metrics.Sum` has no contract of its own; `Metrics.SumBounds` states what it computes.
- The pydantic defaults of the request body (`max_length = Config.MAX_LENGTH`, `temperature = Config.TEMPERATURE`, app.py:27-28) are left out; every modelled request carries both values.
- `Metrics.ComputeStats`: the averages and the hit rate are exact reals, not 64-bit floats summed with rounding. The hit rate is kept as a hit count over the window size.
- `Metrics.ComputeStats`: `asdict(recent[-1])` is modelled as the record itself. Its `else None` branch is unreachable, because the window is never empty there.
- `App.Server.GenerateText` does not model an exception raised by `cache.set` or by `record_request`. In the source, `record_request` reads the clock and `psutil`, which could raise, on the hit path outside the `try` as well as inside it. Here those readings are parameters, so they cannot fail.
- `config.py` holds only constants and environment reads, and none of them is used by the modelled code. The bounds 1000 and 100, the 50 extra tokens and the status 500 are literals in metrics.py and app.py, and appear as named constants in the modules.
