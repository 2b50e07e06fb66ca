# Load balancer routing core, in Dafny

This project models the request-routing core of an Express load balancer. It covers:

- the three selection strategies: round-robin, weighted and random;
- the base strategy class with its server validation;
- the proxy handler that picks a healthy backend, honours the session-affinity cookie, counts requests and folds the backend's answer back into error counts and health flags;
- the periodic health checker;
- the integer parts of the two metrics endpoints.

Every handler is a pure function. It takes an immutable state plus the outside inputs that the JavaScript obtains by side effect, and returns a new state and an outcome. Those inputs are:

- the index `Math.random` produces, constrained by `ValidDraw`;
- the affinity cookie;
- the clock reading stored as `lastUsed`;
- the backend's status or proxy error code;
- the outcome of each health probe.

Modules follow the source files:

| module | file | contents |
|---|---|---|
| `Strategy` | `strategies/strategy.js` | backend descriptors, errors, `validateServers`, the name table |
| `RoundRobinStrategy` | `strategies/roundRobinStrategy.js` | cursor and change detector |
| `WeightedStrategy` | `strategies/weightedRoundRobinStrategy.js` | expanded list, cache key, draw, weight stats |
| `RandomStrategy` | `strategies/randomStrategy.js` | indexed draw |
| `Registry` | `config.js` | the shared `config.servers` list with its `healthy` flags, the healthy filter, and the shipped configuration as a fixture |
| `Proxy` | `routes/proxy.js` | `getNextServer`, the request handler, `onProxyRes`, `onError`, `getMetrics` |
| `Health` | `routes/health.js` | probe classification, one health-check tick, the summary |
| `Metrics` | `routes/metrics.js` | uptime arithmetic, the JSON report's counts, the Prometheus lines |
| `Text` | none | the JavaScript built-ins the code relies on: `join`, the default string `sort` and integer `toString`. `Split` is not a built-in the code calls; it exists only as the proof-side inverse of `join` |

Design decisions:

- **Descriptors and health are kept apart.** Strategies see `Backend` descriptors (id, host, port, weight). The mutable `healthy` flag lives in `Registry.Member`. The strategies never read `healthy`, so nothing is lost by this split.
- **Falsy values.** A JavaScript falsy field is an empty string for `id`/`host` and 0 for `port`/`weight`. Where the code tests truthiness (`validateServers`, `weight || 1`) an absent field behaves like these values. Where it prints a field, an absent one would print `undefined`; the model has no absent fields (see "## Left out").
- **The registry invariant.** The configuration is assumed to hold distinct, non-empty ids free of `,`, `:` and `|` (`Registry.Valid`). Under that assumption the string-based change detectors are proved exact. Without it, they are only proved sound in the direction "same servers, same key".

The model follows the code as written, including:

- a backend answer counts as an error from status 400 upwards;
- a stale affinity cookie falls through to the strategy, and no new cookie is set for the request;
- only `ECONNREFUSED` and `ETIMEDOUT` demote a server;
- round-robin sorts its stored ids in place, so after a call without a reset the stored ids are the sorted ones;
- the file `weightedRoundRobinStrategy.js` implements a weighted random draw, not a weighted rotation;
- `metrics.errorCount` is never incremented.

## Model

Several definitions transcribe one source expression each and are used by the members below rather than carrying contracts of their own:

- `RoundRobinStrategy.Key` is the sorted, comma-joined ids (`strategies/roundRobinStrategy.js:28-29`).
- `WeightedStrategy.Entry` and `WeightedStrategy.CacheKey` are the `id:weight` entry and the sorted, `|`-joined key (`strategies/weightedRoundRobinStrategy.js:53`).
- `Metrics.Format` is the uptime string (`routes/metrics.js:49`).
- `Metrics.RequestsLine` and `Metrics.ErrorsLine` are the per-server Prometheus value lines (`routes/metrics.js:125`, `:129`).
- `Proxy.Skips` is the `/health` and `/metrics` pass-through test on the handler's `req.path` (`routes/proxy.js:73`). See `Proxy.Route` under "## Left out" for what that path is.
- `Proxy.Demotes` is the demoting error-code test (`routes/proxy.js:124`).
- `Proxy.CookieSet` is the truthiness test on the affinity cookie (`routes/proxy.js:49`, `:87`).

| member | source | states |
|---|---|---|
| Strategy.LookupByName | routes/proxy.js:14-21 | The strategy table finds each subclass under the name its constructor sets and finds the base class under no name. A name that is found is the found strategy's own name. |
| Strategy.SelectBase | strategies/strategy.js:18-20 | The base `selectServer` fails with the not-implemented error whatever it is given. |
| Strategy.FieldError | strategies/strategy.js:53-63 | For an incomplete server the error names the id when the id is falsy, otherwise the host when the host is falsy, otherwise the port. Each case holds if and only if its condition holds. |
| Strategy.ValidateFrom | strategies/strategy.js:53-63 | The per-server scan passes exactly when every remaining server has truthy id, host and port. A failure is the field error of the first incomplete server. |
| Strategy.ValidateServers | strategies/strategy.js:43-64 | A non-array is rejected first, then an empty array. Validation passes if and only if the array is non-empty and every server is complete. Otherwise the error belongs to the first incomplete server. |
| RoundRobinStrategy.Advance | strategies/roundRobinStrategy.js:38 | The advanced cursor is below n. It is the old cursor plus one, or 0 when that reaches n. |
| RoundRobinStrategy.Select | strategies/roundRobinStrategy.js:23-39 | No list or an empty list fails and keeps the state. Otherwise the returned server is `servers[index]` with index in [0, n). A changed key resets the cursor to 0 and stores the current ids. An unchanged key advances the cursor by one modulo n and leaves the stored ids sorted. |
| RoundRobinStrategy.Reset | strategies/roundRobinStrategy.js:49-53 | Whatever the state, `reset` leaves cursor -1 and no stored ids, so `getCurrentPosition` then reports index -1 of 0. |
| RoundRobinStrategy.GetCurrentPosition | strategies/roundRobinStrategy.js:58-63 | Reports the cursor and the number of stored ids. `PositionAfterSelect` bounds both after a call. |
| RoundRobinStrategy.ReorderKeepsKey | strategies/roundRobinStrategy.js:28-29 | Two server lists with the same multiset of ids have the same detector key, so reordering never resets the cursor. |
| RoundRobinStrategy.KeyDetectsChange | strategies/roundRobinStrategy.js:28-35 | For well-formed ids the detector fires if and only if the multiset of current ids differs from the stored one. |
| RoundRobinStrategy.SelectStabilises | strategies/roundRobinStrategy.js:28-35 | After a successful call the stored ids carry the key of the servers just given, so an immediate repeat does not reset. |
| RoundRobinStrategy.ResetThenSelect | strategies/roundRobinStrategy.js:49-53 | `reset` restores the constructor's state (cursor -1, no ids). The next call returns `servers[0]` at cursor 0, and for well-formed ids it stores the current ids. |
| RoundRobinStrategy.PositionAfterSelect | strategies/roundRobinStrategy.js:58-63 | After a call on well-formed ids, `getCurrentPosition` reports a cursor in [0, n) and n stored ids. |
| RoundRobinStrategy.RunRotates | strategies/roundRobinStrategy.js:38-39 | Over a stable id set, the j-th of k ≤ n consecutive calls returns position index+1+j, wrapped at n. |
| RoundRobinStrategy.WrapIsBijective | strategies/roundRobinStrategy.js:38 | Wrapping c+1+j for j in [0, n) hits every position in [0, n) exactly once. |
| RoundRobinStrategy.VisitsEachOnce | strategies/roundRobinStrategy.js:38-39 | Over a stable id set, n consecutive calls return every position exactly once, starting just after the stored cursor. |
| RoundRobinStrategy.CycleAfterSelect | strategies/roundRobinStrategy.js:28-39 | From any state, after one call with a list, the next n calls with the same list form a full cycle over its positions. |
| WeightedStrategy.EffectiveWeight | strategies/weightedRoundRobinStrategy.js:27 | The effective weight is the weight when it is truthy, and 1 when it is 0 or missing. It is never 0. |
| WeightedStrategy.Build | strategies/weightedRoundRobinStrategy.js:22-31 | The expanded list has one entry per copy of each server, so its length is the total copy count, and every entry is one of the given servers. |
| WeightedStrategy.BlockLayout | strategies/weightedRoundRobinStrategy.js:22-31 | Server i occupies exactly the entries from its offset to its offset plus its copy count, and the blocks follow input order. |
| WeightedStrategy.BlocksCoverList | strategies/weightedRoundRobinStrategy.js:22-31 | The blocks together exhaust the expanded list. |
| WeightedStrategy.BuildAppend | strategies/weightedRoundRobinStrategy.js:25-31 | Building a concatenation is concatenating the builds, and the lengths add up. |
| WeightedStrategy.DrawsPerServer | strategies/weightedRoundRobinStrategy.js:22-31 | With distinct ids, exactly `Copies(servers[i])` entries of the expanded list carry server i's id. |
| WeightedStrategy.ExpandedAtLeastServers | strategies/weightedRoundRobinStrategy.js:27-30 | With no negative weight the expanded list has at least one entry per server. |
| WeightedStrategy.EntryNamesServer | strategies/weightedRoundRobinStrategy.js:53 | For ids without `:`, equal `id:weight` entries have equal ids. |
| WeightedStrategy.CacheKeyIff | strategies/weightedRoundRobinStrategy.js:53 | For well-formed ids the cache keys are equal if and only if the multisets of `id:weight` entries are equal. |
| WeightedStrategy.ReorderKeepsCacheKey | strategies/weightedRoundRobinStrategy.js:53 | A permutation of the same servers has the same cache key. |
| WeightedStrategy.MultisetMap | strategies/weightedRoundRobinStrategy.js:53 | Servers with equal multisets have equal multisets of entries. |
| WeightedStrategy.Refresh | strategies/weightedRoundRobinStrategy.js:53-57 | The key is always the current one. The state is untouched when the cached key equals it. Otherwise the list is rebuilt from the given servers. |
| WeightedStrategy.RefreshIdempotent | strategies/weightedRoundRobinStrategy.js:53-57 | A second refresh with the same servers changes nothing. |
| WeightedStrategy.Select | strategies/weightedRoundRobinStrategy.js:48-61 | No list or an empty list fails with the state kept. Otherwise the state is refreshed, and the draw succeeds if and only if the expanded list is non-empty. A success returns the entry at the drawn index. |
| WeightedStrategy.RebuiltSelection | strategies/weightedRoundRobinStrategy.js:53-61 | After a rebuild, a draw inside server i's block returns server i. |
| WeightedStrategy.RefreshWithin | strategies/weightedRoundRobinStrategy.js:53-57 | Refreshing with servers from a universe keeps the cached list built from servers of that universe. |
| WeightedStrategy.CachedEntriesMatch | strategies/weightedRoundRobinStrategy.js:53-57 | A kept cache was built from servers whose entry multiset equals that of the current servers. |
| WeightedStrategy.SelectionInInput | strategies/weightedRoundRobinStrategy.js:53-61 | Whether the cache was kept or rebuilt, a drawn server is one of the servers given, provided all come from one universe of distinct, well-formed ids. |
| WeightedStrategy.KeptMultiplicity | strategies/weightedRoundRobinStrategy.js:53-60 | For servers of one universe of distinct, well-formed ids, given with distinct ids, the list the draw indexes holds server i's id exactly `Copies(servers[i])` times. This holds whether the cache was rebuilt or kept. |
| WeightedStrategy.SelectionSucceeds | strategies/weightedRoundRobinStrategy.js:53-61 | With no negative weight and a non-empty list, the draw always lands on an entry. |
| WeightedStrategy.GetWeightStats | strategies/weightedRoundRobinStrategy.js:78-91 | One entry per server in input order, each with its id and effective weight. |
| WeightedStrategy.TotalWeight | strategies/weightedRoundRobinStrategy.js:79 | With no negative weight every server adds at least 1, so the total is at least the number of servers. |
| WeightedStrategy.TotalWeightIsListLength | strategies/weightedRoundRobinStrategy.js:79 | With no negative weight the reported total weight equals the length of the expanded list the draw indexes. |
| RandomStrategy.GetName | strategies/randomStrategy.js:12 | The name is `random`, which differs from the base name and is registered under itself. |
| RandomStrategy.Select | strategies/randomStrategy.js:20-32 | No list or an empty list fails. Otherwise the result is `servers[draw]`, a member of the input, and there is no state to change. |
| RandomStrategy.EachPositionReachable | strategies/randomStrategy.js:26-27 | Draw i returns `servers[i]`, and a draw returns that server exactly when it sits at the drawn position. |
| RandomStrategy.UniqueDrawPerServer | strategies/randomStrategy.js:26-27 | With distinct ids, each server is returned by exactly one draw. |
| Registry.HealthyIndices | routes/proxy.js:42 | The kept positions are in range and healthy, strictly increasing, and include every healthy position. |
| Registry.Healthy | routes/proxy.js:42 | The healthy list is the healthy members' descriptors in config order. |
| Registry.HealthyMembers | routes/proxy.js:42 | A descriptor is in the healthy list if and only if some healthy member carries it. |
| Registry.HealthyUnique | routes/proxy.js:42 | The healthy list of a valid registry has distinct, well-formed ids. |
| Registry.CountPartition | routes/metrics.js:54-56 | Healthy and unhealthy counts add up to the total, and the healthy list's length is the healthy count. |
| Registry.Find | routes/health.js:49 | The first position with the id, or none if and only if no position has it. |
| Registry.FindUnique | routes/health.js:49 | In a list of distinct ids, the lookup returns the one position holding the id. |
| Registry.SetHealth | routes/health.js:52 | Only the flag at the given position changes. |
| Registry.ConfigFixture | config.js:3-25 | The shipped servers have distinct, well-formed ids and pass `validateServers`. |
| Registry.ConfigAllHealthy | config.js:3-25 | All shipped servers start healthy, so the healthy list is the whole list. |
| Registry.ConfigWeights | config.js:3-25 | The shipped weights 2, 1 and 3 expand to six entries carrying server1, server2 and server3 two, one and three times. |
| Proxy.SelectorFor | routes/proxy.js:14-21 | The configured name selects the registered strategy of that name in its initial state, or no strategy at all. |
| Proxy.Init | routes/proxy.js:24-34 | Zero requests and a zeroed stats record for every configured id. A valid configuration satisfies the invariant. |
| Proxy.Strategize | routes/proxy.js:61 | The selected strategy's outcome. Random returns the drawn healthy server. Round-robin returns a healthy server. Weighted leaves its cache refreshed. An unregistered name fails. |
| Proxy.Pinned | routes/proxy.js:49-57 | A pin exists only with affinity on and a truthy cookie naming a healthy server. It always exists when such a server is in the healthy list. |
| Proxy.GetNextServer | routes/proxy.js:40-65 | No healthy server fails with the strategy untouched. Otherwise the pinned server wins, and the strategy over the healthy list decides otherwise. |
| Proxy.Commit | routes/proxy.js:78-94 | A selection error becomes 503, and only the strategy state changes. A success bumps the request count, then 503 if the target has no stats record. Otherwise it bumps exactly the target's requests, sets its `lastUsed`, and sets the cookie to the target's id if and only if affinity is on and no cookie came. |
| Proxy.Route | routes/proxy.js:70-94 | A handler path of exactly `/health` or `/metrics` passes through untouched. Every other path is selected and committed. |
| Proxy.OnProxyRes | routes/proxy.js:109-116 | A status of 400 or above adds one error to the target. Nothing else changes. |
| Proxy.OnError | routes/proxy.js:119-137 | One error is added to the target. On a refused or timed-out connection exactly the target's member is demoted. The reply is 502 if and only if headers were not sent. Nothing else changes. |
| Proxy.Demote | routes/proxy.js:125 | Only members carrying the target descriptor lose their healthy flag. |
| Proxy.Handle | routes/proxy.js:70-153 | One request end to end. It is handed on if and only if its handler path passes the `/health`/`/metrics` test. It is answered 503 if and only if routing failed or the backend said 503, and 502 if and only if the connection failed before any answer or the backend said 502. The body is cut off if and only if the connection broke after the backend's status went out. The forwarded target gains exactly the errors its callbacks count: one from `onProxyRes` for a status of 400 or above, and one from `onError` for a failure, which follows `onProxyRes` when the headers were already sent. |
| Proxy.BrokenErrorCountsTwice | routes/proxy.js:111-121 | A backend answering 400 or above and then breaking the connection is charged two errors. |
| Proxy.GetMetrics | routes/proxy.js:157-163 | Reports the request count, the stats, the strategy name, the healthy count, and the total, which the healthy and unhealthy counts add up to. |
| Proxy.StrategizeInHealthy | routes/proxy.js:61 | Under the invariant, every strategy returns a server from the healthy list. |
| Proxy.ForwardsToHealthy | routes/proxy.js:42-61 | A request is only forwarded to a currently healthy configured server. |
| Proxy.SelectionSucceeds | routes/proxy.js:40-65 | With a registered strategy, no negative weight and some healthy server, selection succeeds with a healthy server. |
| Proxy.WeightedDrawSucceeds | routes/proxy.js:61 | The weighted strategy over a non-empty healthy list always draws an entry. |
| Proxy.WeightedShare | routes/proxy.js:42-61 | Under the invariant and the weighted strategy, the list a request draws from holds each healthy server exactly as many times as its effective weight, whether the cache was kept or rebuilt. |
| Proxy.NoHealthyUnavailable | routes/proxy.js:42-46 | For any configuration and strategy, a request that finds no healthy server gets 503 and changes nothing, not even the request count. |
| Proxy.UnavailableIffNoneHealthy | routes/proxy.js:42-46 | Under the same conditions, a request gets 503 if and only if no server is healthy, and then the state is unchanged. |
| Proxy.AffinityWins | routes/proxy.js:49-57 | A cookie naming a healthy server routes there, leaves the strategy untouched and sets no cookie. |
| Proxy.StaleCookieIgnored | routes/proxy.js:51-61 | A cookie naming no healthy server leaves the choice to the strategy and is not replaced. |
| Proxy.RouteKeepsInv | routes/proxy.js:70-94 | Routing keeps the invariant. |
| Proxy.ProxyResKeepsInv | routes/proxy.js:109-116 | A backend answer keeps the invariant. |
| Proxy.OnErrorKeepsInv | routes/proxy.js:119-137 | A proxy error keeps the invariant. |
| Proxy.DemotedNotRouted | routes/proxy.js:124-125 | After a refused or timed-out connection, the next request is never forwarded to the demoted server. |
| Health.Classify | routes/health.js:16-19 | A probe is healthy if and only if it answered status 200. |
| Health.CheckServerHealth | routes/health.js:11-36 | The result carries the server's id, and it is healthy if and only if the probe answered 200. |
| Health.CheckAll | routes/health.js:44-45 | One result per configured server, in config order, whatever its current flag. |
| Health.ProbesIgnoreHealth | routes/health.js:44 | Registries that differ only in health flags get the same results. |
| Health.ApplyOne | routes/health.js:49-57 | An unknown id changes nothing. Otherwise only the first match's flag is overwritten, and one change is logged if and only if the flag flipped. |
| Health.ApplyAll | routes/health.js:48-59 | The descriptors are kept, and every logged change is a real flip. |
| Health.ApplyMatchesReference | routes/health.js:48-59 | With distinct ids, applying all results sets each server to its own verdict and logs exactly the changed servers, in config order. |
| Health.TransitionsFromIff | routes/health.js:55-57 | A change is logged for a server if and only if its verdict differs from its flag. |
| Health.CountMatchesRegistry | routes/health.js:61 | The healthy-result count equals the number of healthy servers afterwards. |
| Health.PerformHealthChecks | routes/health.js:41-65 | Every server is probed, the descriptors are kept, the healthy count is at most the number of servers, and every logged change is a real flip. |
| Health.TickUpdates | routes/health.js:41-65 | With distinct ids, a tick sets every flag from its probe, logs exactly the changes, and reports the number of servers now healthy. |
| Health.SecondTickQuiet | routes/health.js:48-57 | A second tick with the same probe outcomes changes nothing and logs nothing. |
| Health.TickDecidesRouting | routes/health.js:52 | After a tick, a server is in the proxy's healthy list if and only if its probe answered 200. |
| Health.TickKeepsInv | routes/health.js:48-59 | A tick keeps the balancer's invariant. |
| Health.HealthRoute | routes/health.js:74-79 | The summary reports the configured total, and its healthy and unhealthy counts add up to it. |
| Metrics.FloorDiv | routes/metrics.js:37-39 | `Math.floor(a / d)` is the q with q·d ≤ a < q·d + d. |
| Metrics.JsRem | routes/metrics.js:49 | The remainder keeps the dividend's sign, has magnitude below n, and is the dividend minus a multiple of n. |
| Metrics.UptimeOf | routes/metrics.js:36-49 | Seconds, minutes and hours are successive floor divisions by 1000, 60 and 60. The formatted string shows hours, minutes mod 60 and seconds mod 60. |
| Metrics.ClockRecombines | routes/metrics.js:49 | For a non-negative uptime the formatted parts are below 60 and recombine to the whole seconds. |
| Metrics.FormattedReadsBack | routes/metrics.js:49 | The formatted uptime splits at its spaces into three unit-suffixed parts, each reading back as the number written. |
| Metrics.Overview | routes/metrics.js:51-57 | Reports the strategy, the affinity flag and the total. The healthy count matches `getMetrics`, and the healthy and unhealthy counts add up to the total. |
| Metrics.StatsFor | routes/metrics.js:72-74 | The proxy's stats for the id, or zero requests, zero errors and no `lastUsed`. |
| Metrics.Reports | routes/metrics.js:65-78 | One entry per configured server in config order, with its fields and its stats or zero defaults. |
| Metrics.MetricsReport | routes/metrics.js:29-91 | The JSON report carries the uptime of the elapsed time, the overview, the proxy's request count, and one report per configured server. |
| Metrics.Header | routes/metrics.js:102-115 | Twelve lines whose value lines carry the total requests, the healthy count and the total count. |
| Metrics.Block | routes/metrics.js:122-131 | Eight lines per server, with its request line third and its error line seventh. |
| Metrics.Blocks | routes/metrics.js:118-132 | Eight lines per configured server, in config order, with each server's request and error lines at fixed offsets. |
| Metrics.SimpleLines | routes/metrics.js:102-132 | Twelve header lines, then eight per server. The global values and each server's request and error lines sit at fixed positions. |
| Metrics.SimpleMetrics | routes/metrics.js:134-135 | When no id or host holds a line break, the text splits at line breaks back into exactly the lines it was joined from. |
| Metrics.PrometheusAgreesWithJson | routes/metrics.js:59-135 | The Prometheus lines carry the same totals, healthy count and per-server requests and errors as the JSON report. |
| Text.SplitJoin | routes/metrics.js:135 | Splitting the joined text at the separator gives back the parts, provided no part holds the separator. |
| Text.JoinInjective | strategies/roundRobinStrategy.js:28-29 | Separable lists join to the same string only if they are equal. |
| Text.InsertSorted | strategies/roundRobinStrategy.js:28-29 | Insertion keeps a list sorted and adds exactly the inserted string. |
| Text.Sort | strategies/roundRobinStrategy.js:28-29 | The default string `sort` returns a sorted permutation of its input. |
| Text.SortedUnique | strategies/roundRobinStrategy.js:28-29 | A multiset has only one sorted arrangement. |
| Text.SortByMultiset | strategies/weightedRoundRobinStrategy.js:53 | Sorting depends only on the multiset of its input. |
| Text.SortIdempotent | strategies/roundRobinStrategy.js:29 | Sorting a sorted list changes nothing, so re-sorting the stored ids is harmless. |
| Text.SortedJoinIff | strategies/roundRobinStrategy.js:28-31 | For separable lists, the sorted joins agree if and only if the multisets agree. |
| Text.NatToStringRoundTrip | routes/metrics.js:105 | Reading the decimal digits back gives the number written. |
| Text.NatToStringInjective | routes/metrics.js:105 | Distinct numbers are written differently. |

## Left out

- `index.js`, `backend-servers/server.js`, TLS and `listen`: process set-up and a sample backend, all I/O.
- `http-proxy-middleware`, `axios` and the Express router are not modelled. They become inputs: the backend's status or proxy error code (`Proxy.Reply`) and the probe outcome (`Health.Probe`).
- `Math.random` is a `draw` input constrained by `Strategy.ValidDraw`. Probabilities are not modelled. The counts behind them (`WeightedStrategy.DrawsPerServer`, `RandomStrategy.UniqueDrawPerServer`) are.
- `setInterval`, `Promise.all` and async timing are not modelled. One health tick is a sequential application of the probe results. The event loop is single-threaded, so interleaved requests, replies and ticks are sequences of calls to `Proxy.Route`, `Proxy.OnProxyRes`, `Proxy.OnError` and `Health.PerformHealthChecks`. `Proxy.Handle` is the uninterleaved case.
- Floating-point output is left out: the logged probability, `percentage`, `requestsPerSecond`, `errorRate` and `loadPercentage`. `errorRate` is always 0, because `metrics.errorCount` is never incremented. The module-local `metrics.serverStats` is never read.
- `Date` values are left out. `lastUsed` is an opaque clock reading passed in as `now`. The timestamps, `lastCheck` and `responseTime` are not modelled.
- `console.log` output, `getDescription` strings, the 502/503 JSON bodies and the cookie options are left out.
- The 500 answers of the metrics and health routes are left out. The modelled code has no input that makes them throw.
- Text.Sort: orders strings by Unicode scalar value. JavaScript compares UTF-16 code units, which differs only for characters outside the Basic Multilingual Plane.
- Strategy.Backend: `port` and `weight` are integers, as the shipped configuration (`config.js:3-25`) has them. JavaScript accepts any number there, and fractional weights are not modelled. A weight of 1.5 would give two list entries, because the loop at `strategies/weightedRoundRobinStrategy.js:28` runs while `i < 1.5`. It would add only 1.5 to `totalWeight` (`:79`) and print as `1.5` in the cache key (`:53`). So `WeightedStrategy.TotalWeightIsListLength` and the entry counts hold only for integer weights.
- Text.IntToString: covers integers only. The model has no fractional numbers, because `Strategy.Backend` types `port` and `weight` as integers (see that line); the fractional case is not modelled.
- Proxy.Route: `Request.path` is the `req.path` the handler sees inside `router.use('*', ...)` (`routes/proxy.js:70`). That is the path after the router has stripped the part its layer matched. This stripping is not modelled, and nor is the order in which `index.js:17-19` mounts the routers. `Proxy.Skips` tests the path exactly as written at `routes/proxy.js:73`. The model does not claim that a request for `/health` or `/metrics` reaches this handler with that path. Whether the skip can fire, or the health and metrics routers are reached at all, depends on the Express router, which is not part of this model.
- Metrics.ClockRecombines: requires a non-negative uptime. For a negative uptime (a clock set backwards) JavaScript's `%` keeps the dividend's sign while `Math.floor` rounds down, so the parts do not recombine.
- Proxy.UnavailableIffNoneHealthy: requires a registered strategy and no negative weight. Its "no healthy server" direction holds unconditionally (Proxy.NoHealthyUnavailable). An unregistered name answers 503 to every request that is not pinned to a healthy server by its affinity cookie. A list of only negative weights makes the weighted draw read an undefined entry and answer 503, and `Proxy.Commit` models both.
- WeightedStrategy.SelectionInInput: requires the cached and current servers to come from one list of distinct, well-formed ids. With ids containing `:` or `|`, different server sets can share a cache key, and the kept list may then hold servers that were not given.
- RoundRobinStrategy.KeyDetectsChange: requires well-formed ids. With ids containing `,`, different id sets can share a key and the cursor is not reset.
- Proxy.OnProxyRes: requires a stats record for the target. The callback is only installed after the handler has updated that record.
- Absent descriptor fields are not modelled. The metrics text (`routes/metrics.js:66-69`, `:125`, `:129`) and the weighted cache key (`strategies/weightedRoundRobinStrategy.js:53`) would print an absent `id`, `host`, `port` or `weight` as `undefined`. `Metrics.Labels` prints the model's empty string or 0 instead.
- Counters are unbounded naturals in `Proxy.Stats` and `Proxy.Balancer`. JavaScript numbers are IEEE doubles, so `requestCount++` and the per-server `requests++` and `errors++` stop changing at 2^53.
- Text.NatToString: writes every natural in plain decimal. JavaScript's `${n}` switches to exponent notation from 1e21, a value the counters cannot reach before 2^53.
