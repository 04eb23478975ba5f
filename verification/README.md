# speedtest-exporter: refresh-coordinated cache, in Dafny

This project models the core of the speedtest exporter's collector
(`collector/speedtest.go`). A Prometheus scrape must answer quickly, but a
speed measurement takes tens of seconds and must not run twice at once. The
collector therefore keeps a single cached result plus an `updating` flag:

- a scrape against an empty slot measures synchronously;
- later scrapes serve the cached result at once and, when it is stale, spawn
  a background goroutine that refreshes it unless a refresh is already in
  flight.

The model has six modules:

- `Optional` (`optional.dfy`): the `Option` wrapper used for the cache slot.
- `Measurements` (`measurements.dfy`): the measurement result, reduced to the
  fields the collector's logic uses, and a run's outcome (`Ok(result)` or
  `Err(ExecutionFailed | DecodeFailed)`). The zero-valued result is what
  `collect` returns alongside an error.
- `Runner` (`runner.dfy`): the argument list passed to the `speedtest` tool.
  It also has an independent word-by-word reading of a command line, used to
  state what those arguments ask for.
- `RefreshCache` (`cache.dfy`): the state machine. The state is the cache
  slot, the `updating` flag and the phase of every background task spawned so
  far. `cachedOrCollect` and `collectAndCache` are atomic steps. The goroutine
  is three steps:
  - `Begin`: check-and-set under the mutex.
  - `Finish`: the measurement returns and `collectAndCache` stores a success.
  - `Release`: the deferred clear of `updating` under the mutex.
  The coordination invariant `Inv` is proved to hold initially and to be
  preserved by each step.
- `MetricAdapter` (`adapter.dfy`): the descriptors' label names and the
  samples `Collect` emits for whatever `cachedOrCollect` returned.
- `Exporter` (`exporter.dfy`): arbitrary interleavings of scrapes and task
  steps as schedules, with lemmas that hold for every schedule.

Wall-clock time is an integer parameter `now`, on the same scale as the
result's timestamp and the refresh interval. The tool's run is a parameter:
the outcome a scrape would get if it measured synchronously, and the outcome
a background task's measurement produced.

Four behaviours of the code worth stating explicitly:

- On a failed lookup, `Collect` still emits all seven measurement samples,
  taken from the zero-valued result (speedtest.go:170-176, 234, 239).
- Staleness compares the clock with the result's own `Timestamp` field, as
  reported by the tool (speedtest.go:186).
- The background store (`c.cache.Set` inside `collectAndCache`) does not run
  under `c.mutex`; only the check-and-set and the clearing of `updating` do.
  Hence the separate `Finish` and `Release` steps. A store that lands during a
  scrape is equivalent to one just before or after it, because `Collect`
  reads the cache once.
- The goroutine's check-and-set looks only at `updating`, not at the cached
  result's age (speedtest.go:188-194). Two scrapes of a stale result spawn
  two goroutines. If the first finishes and clears the flag before the second
  takes the lock, the second measures again although the cache is fresh
  (`Exporter.LateTaskMeasuresAgain`). The two measurements never overlap, but
  a stale window can cause more than one measurement.

## Model

| member | source | states |
|---|---|---|
| Runner.Args | collector/speedtest.go:224-227 | The argument list is the six fixed flags, then `-s serverID` exactly when the id is non-empty, so its length is 6 or 8 |
| Exporter.RunsUseConfiguredServer | collector/speedtest.go:121-123 | The configured server id, stored at construction, is the id the argument builder receives. Its command line reads back as both licences accepted, JSON in B/s, and that server selected exactly when an id was configured |
| Runner.ArgsReadBack | collector/speedtest.go:224-227 | Read back word by word, every argument list accepts the licence and GDPR terms and asks for JSON in B/s. It selects a server exactly when the configured id is non-empty, and that server is the id |
| RefreshCache.CollectAndCache | collector/speedtest.go:212-219 | A successful run is stored, replacing any previous result, and returned with no error. A failed run returns its error with the zero-valued result and leaves the slot untouched. Neither touches the flag or the tasks |
| RefreshCache.CachedOrCollect | collector/speedtest.go:179-210 | Cold slot: delegates to the synchronous collect-and-cache. Warm slot: returns the stored result with no error whatever its age. The lookup fails exactly when the slot was empty and the run failed. Exactly one task is spawned exactly when the slot is warm and its result's age strictly exceeds the interval |
| RefreshCache.FreshHitChangesNothing | collector/speedtest.go:186-209 | A warm result whose age is at most the interval (age equal to the interval included) is a plain hit: stored result, no error, state entirely unchanged |
| RefreshCache.StaleHitSpawnsOneTask | collector/speedtest.go:185-209 | A strictly stale warm result is still returned at once with no error. The only change is one newly spawned task |
| RefreshCache.Begin | collector/speedtest.go:188-194 | A spawned task that finds `updating` set exits without measuring. Otherwise it sets `updating` and starts measuring. The slot and the other tasks are untouched |
| RefreshCache.Finish | collector/speedtest.go:202-204 | A finished background measurement replaces the stored result on success and leaves it unchanged on failure. The flag stays set |
| RefreshCache.Release | collector/speedtest.go:196-200 | The deferred cleanup clears `updating` and ends the task, whatever the measurement's outcome, leaving the slot alone |
| RefreshCache.CachedOrCollectPreservesInv | collector/speedtest.go:179-210 | A scrape's lookup preserves the coordination invariant: at most one flag holder, flag set exactly when one holds it, no tasks while the slot is empty |
| RefreshCache.BeginPreservesInv | collector/speedtest.go:188-194 | The check-and-set preserves the coordination invariant |
| RefreshCache.FinishPreservesInv | collector/speedtest.go:202-204 | Committing a background result preserves the coordination invariant |
| RefreshCache.ReleasePreservesInv | collector/speedtest.go:196-200 | Clearing the flag preserves the coordination invariant |
| RefreshCache.AtMostOneMeasurement | collector/speedtest.go:35 | Under the invariant at most one background measurement runs. An empty slot, the only case that measures synchronously, has no background measurement and a clear flag |
| MetricAdapter.LabelNames | collector/speedtest.go:55-58 | Reading descriptors declare exactly `server_name`, `server_location`, `server_country`, `server_host`, in that order, when `ShowServerLabels` is set, and no names otherwise |
| MetricAdapter.LabelNamesPairWithValues | collector/speedtest.go:160-168 | The label values are listed in the order of the names declared at line 57: the k-th declared name names the server field whose value is the k-th label value, so `server_name` pairs with `Server.Name`, location with `Location`, country with `Country` and host with `Host` |
| MetricAdapter.Descriptors | collector/speedtest.go:60-116 | One descriptor per metric. `up` and the scrape duration declare no labels; the seven reading metrics declare the configured label names |
| MetricAdapter.ReadingSamples | collector/speedtest.go:170-176 | Seven samples, one per reading metric, each with the field the reference mapping assigns it (latency and jitter divided by 1000) and all with the same labels |
| MetricAdapter.Emit | collector/speedtest.go:147-176 | A scrape emits nine samples: the seven readings of the returned result, then scrape duration, then `up`. `up` is 1 exactly when the lookup had no error and 0 exactly when it had one |
| MetricAdapter.Collect | collector/speedtest.go:143-177 | A scrape emits nine samples ending in `up`, which is 1 exactly when the slot was warm or the synchronous run succeeded and 0 otherwise. A warm slot keeps its result, a cold slot with a successful run now holds that result, and a cold slot with a failed run leaves the state unchanged |
| MetricAdapter.UpReportsLookup | collector/speedtest.go:147-158 | The deferred block emits the duration sample and then `up` at the end of every scrape, and `up` appears nowhere else, so each scrape reports its lookup exactly once |
| MetricAdapter.MetricsDistinct | collector/speedtest.go:150-176 | No metric is emitted twice in one scrape |
| MetricAdapter.LabelsUniform | collector/speedtest.go:160-176 | With labels on, every reading sample carries the same four values, the returned result's server name, location, country and host. With labels off, no sample carries labels |
| MetricAdapter.SamplesMatchDescriptors | collector/speedtest.go:55-58 | Every emitted sample has a descriptor for its metric declaring exactly as many label names as the sample has label values |
| MetricAdapter.FailedLookupEmitsZeros | collector/speedtest.go:170-176 | After a failed lookup all seven readings are still emitted, from the zero-valued result: every value 0, labels (when on) four empty strings, `up` 0 |
| MetricAdapter.ColdFailedScrape | collector/speedtest.go:179-183 | A scrape against an empty slot whose run fails leaves the state unchanged, so the next scrape measures synchronously again. It emits the samples of the error with the zero-valued result |
| Exporter.NextPreservesInv | collector/speedtest.go:143-205 | Every atomic step of the exporter, scrape or task step, preserves the coordination invariant |
| Exporter.NextSlot | collector/speedtest.go:202-217 | Only a successful measurement changes the slot, and it then holds exactly that result. Failed runs, hits and lock steps leave it alone, and no step empties a filled slot |
| Exporter.ExecutePreservesInv | collector/speedtest.go:143-205 | Any schedule of enabled steps from a state satisfying the invariant ends in a state satisfying it |
| Exporter.ReachableStates | collector/speedtest.go:187-205 | In every reachable state at most one background measurement runs and at most one task holds `updating`. The flag is set exactly when one does. An empty slot has no tasks, so a synchronous measurement never overlaps a background one |
| Exporter.WarmStaysWarm | collector/speedtest.go:213-217 | Once the slot holds a result, no schedule empties it: there is no delete and the entry never expires |
| Exporter.UpAfterFirstSuccess | collector/speedtest.go:154-158 | After the slot is filled, every later scrape under any schedule finds it still filled and looks up the stored result with no error. Its seven readings are that result's, `up` is 1, the slot is unchanged, and the scrape does not depend on the tool's outcome, so it never measures synchronously |
| Exporter.LoserDoesNotMeasure | collector/speedtest.go:189-192 | A task that finds a refresh in flight exits without adding a running measurement; the single holder remains |
| Exporter.StaleScrapesThenBegin | collector/speedtest.go:186-194 | Two scrapes of a stale result spawn two tasks; the first to take the lock sets `updating` and measures |
| Exporter.WinnerDoneThenLateBegin | collector/speedtest.go:188-204 | After the winning task stores a fresh result and clears the flag, a still-pending task that takes the lock starts measuring |
| Exporter.LateTaskMeasuresAgain | collector/speedtest.go:186-204 | The check-and-set does not re-check staleness. A schedule of two stale scrapes where the first task completes before the second begins ends with a fresh cached result and a second measurement running |

Proof helpers without a row: `RefreshCache.CountAppend`, `CountUpdate`,
`MeasurersAtMostHolders` and `HolderCounted` (counting over the task list),
and `Exporter.ScrapeStepIsCollect`, `ExecuteCons` and `ExecuteAppend` (a
scrape step changes the state as `Collect` does, running a schedule step by
step, and running two schedules back to back).

The coordination invariant counts flag holders, not measurements: a task
holds `updating` from its check-and-set until the deferred clear, including
the stretch after its result is stored (speedtest.go:196-204). So the flag is
set exactly while the single holder exists, whether it is still measuring
or has already stored its result; it is not set exactly while a measurement
runs. `RefreshCache.AtMostOneMeasurement` derives the measurement bound from
the holder bound.

## Left out

- main.go: flag parsing, logger setup and HTTP handler wiring. These are
  plumbing with no logic of their own.
- The subprocess run (`exec.Command`, stderr passthrough) and JSON decoding.
  They are foreign calls, modelled as an outcome `Ok(result)` or
  `Err(ExecutionFailed | DecodeFailed)` supplied as a parameter. The exit
  detail wrapped into the error text is not modelled.
- Result fields the collector's logic never uses (`Type`, `Isp`, `Interface`,
  server id/port/ip, the result id, elapsed times) and the result URL, which
  only the log line at speedtest.go:241 reads. They play no part in the
  logic, and logging is left out.
- Prometheus `Desc`, `BuildFQName`, `MustNewConstMetric`, gauge types and
  `Describe`'s channel sends. Samples and descriptors are plain records; the
  metric names and help strings are not modelled.
- float64 arithmetic. Readings are idealised reals, so `Latency/1000` is
  exact real division, and no IEEE rounding is claimed.
- The scrape duration (`time.Since(start).Seconds()`) is an opaque `elapsed`
  parameter.
- Time is unbounded integers. Go's `time.Duration` is int64 nanoseconds and
  `time.Since` saturates; neither limit is modelled.
- The go-cache library's internals. The cache is a single `Option` slot with
  no expiry, matching `cache.NoExpiration`.
- Real goroutine scheduling and the mutex implementation. Both are
  represented only as interleavings of the atomic steps. Schedules may leave
  a spawned task unstepped forever, so the lemmas cover a goroutine that
  never runs; what is not modelled is liveness, that a spawned goroutine
  eventually runs. A panic inside a goroutine is not modelled; the source
  clears `updating` in a `defer`.
- Logging calls.
