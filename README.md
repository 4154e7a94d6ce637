# yt-relay cache and authorisation layer, in Dafny

This project models the core of yt-relay, a caching reverse proxy in front of the YouTube
Data API v3. The core is the layer that sits between the HTTP routes and the upstream. It
covers:

- **Cache keys.** The write side builds `namespace:cache:name` (`Cache.GetCacheKey`). The
  read-side middleware builds `namespace.cache.name` (`Middleware.GetCacheKey`).
- **Backend selection.** `Cache.NewRedis` picks one of four Redis topologies from the
  configuration: cluster, single, sentinel or replica. `Config.Valid` is the check that is
  meant to guarantee a usable topology.
- **The replica pool** (`Replica.ReplicaRedis`). Writes are routed round-robin over the
  writer connections. A read takes its slot as the read counter modulo the number of
  *writers* and then looks that slot up among the reader connections (see Findings). Each
  direction has its own `uint32` counter that wraps at 2^32.
- **TTL resolution and cache writes.** `Route.GetCacheTTL` resolves the TTL.
  `Route.SaveOKCache`, `Route.SaveErrCache` and `Route.SaveCache` do the best-effort writes.
- **Admission.** `Route.Search`, `Route.Videos` and `Route.PlaylistItems` run each endpoint's
  checks in order: bind the query, check the mandatory parameters, check the allow-list,
  call the upstream, save to the cache, answer. `Middleware.CacheStep` is the read side in
  front of them. `Route.HandleRequest` puts the two together for one request.
- **The static allow-list predicates** (`Whitelist`).

The backend is modelled as an abstract map from key to entry (`Cache.Store`, `Cache.Read`).
Each topology client is an opaque handle (`Cache.Rediser`, `Clients.Client`). Each handler is
a function from its inputs to a `Decision`. The inputs are the bound query or the binding
error, the allow-maps and what the upstream would answer. The `Decision` holds the status,
the payload, the cache write to attempt, and whether the upstream was called at all.
`Route.Respond` carries out a decision against the store.

The source revisions do not agree with each other. The model follows what the code does:

- **Cache section of the configuration.** `config.Cache` declares neither a disabled table nor
  an error TTL, and it declares the TTL overrides as a list. The router reads all three as
  maps keyed by endpoint string (server/route/route.go:28,30,55). `Config.Cache` follows the
  router.
- **Missing and renamed whitelist members.** The router calls `ValidatePlaylistIDs`, but the
  allow-list implements `ValidatePlaylistID`; the model uses the latter. `ValidateParameters`
  reads a parameter table that the whitelist record does not declare. The model passes that
  table in explicitly, and the method accepts every input.
- **The disabled table is read in two ways.** The middleware skips the cache when the URL
  *path* is merely present in the table. The save functions skip the write only when the
  full *request URI* maps to true.
- **Comma-separated playlist lists.** whitelist/youtube.go:26 looks the whole `playlistId`
  string up as one key. A comma-joined list is allowed only if that exact string is listed.
- **Upstream failures.** The code answers them with 400. It caches them
  as a 200 envelope, whatever response code the caller passed in.
- **Replayed entries.** A cache hit answers 200 with the stored envelope string as the body.
  The body is not the original response.
- **Videos without a snippet.** The video-list check reads each video's snippet without a
  nil check, so a video without one panics. The server is built with gin's default engine
  (server/server.go:24), whose recovery answers such a panic with a bare 500 and no body.
- **Read and write keys never meet.** The write key uses `:` and `URL.String()`. The read key
  uses `.` and `RequestURI`. So the middleware never finds an entry that a handler saved
  (see Findings).

## Model

| member | source | states |
|---|---|---|
| `Config.Valid` | config/config.go:81-148 | Valid exactly when the API key is non-empty, both allow-maps are non-empty, and a present Redis section names a known topology that has its sub-configuration and at least one address (both lists for a replica pool); a nil Redis section imposes nothing |
| `Config.UnknownTypeInvalid` | config/config.go:142-143 | an unrecognised topology tag makes the configuration invalid |
| `Config.ValidIgnoresCache` | config/config.go:81-148 | replacing the cache section, with any TTLs, never changes the verdict |
| `Clients.FormatAddr` | cache/cache.go:52 | `host:port` starts with the host and a colon, and the rest reads back as the port |
| `Clients.FormatAddrs` | cache/cache.go:50-53 | the formatted list has the configured list's length and order, one `host:port` per address |
| `Replica.Inc32` | cache/redis.go:22 | the atomic increment is one more, wrapping to 0 at 2^32 |
| `Replica.ReplicaRedis.constructor` | cache/redis.go:51 | a new pool has both counters at 0 and keeps the given connection lists |
| `Replica.ReplicaRedis.RouteWrite` | cache/redis.go:22-24 | raises the write counter by 1 modulo 2^32, leaves the read counter alone, and picks `writers[newCount % len(writers)]`, or a divide-by-zero panic with no writers |
| `Replica.ReplicaRedis.Set` | cache/redis.go:21-25 | routes a Set as a write-class call: write counter +1 mod 2^32, read counter unchanged, writer `newCount % len(writers)`, connection lists untouched |
| `Replica.ReplicaRedis.SetXX` | cache/redis.go:27-31 | the same routing for a set-if-present |
| `Replica.ReplicaRedis.SetNX` | cache/redis.go:33-37 | the same routing for a set-if-absent |
| `Replica.ReplicaRedis.Del` | cache/redis.go:44-48 | the same routing for a delete |
| `Replica.ReplicaRedis.Get` | cache/redis.go:39-43 | read counter +1 mod 2^32, write counter unchanged; the slot is the new count modulo the number of WRITERS, served by that reader when it exists and an index-out-of-range panic otherwise |
| `Replica.ReplicaRedis.GetFromReaders` | cache/redis.go:39-43 | the corrected read: slot is the new count modulo the number of readers, always a reader when there is one |
| `Replica.WriteSlotsFrom` | cache/redis.go:22-24 | before wrap-around, the j-th write after counter c goes to writer `(c + j + 1) % len(writers)` |
| `Replica.SetRepeatedly` | cache/redis.go:21-25 | k successive `Set` calls on one pool are routed to exactly the writer slots `WriteSlots` predicts from the pool's starting counter, and leave the read counter alone |
| `Replica.WritesCycleFromFreshPool` | cache/redis.go:22-24 | from a fresh pool the k-th write goes to writer `k % len(writers)`: round-robin |
| `Replica.ReadSlotsInBoundsIff` | cache/redis.go:40-42 | reads stay inside the reader list for every counter value if and only if there are at least as many readers as writers |
| `Replica.ReadPastReadersWitness` | cache/redis.go:39-43 | with two writers and one reader the first read already indexes past the readers |
| `Replica.ReadFromReadersWitness` | cache/redis.go:39-43 | the corrected read serves that same first read from reader 0 |
| `Replica.OpenClients` | cache/redis.go:52-64 | one pool connection per address, in order, with the fixed pool settings |
| `Replica.NewReplicaRedisService` | cache/redis.go:50-81 | one writer per master address and one reader per slave address, in order, both counters 0, and never an error |
| `Cache.GetCacheKey` | cache/cache.go:29-41 | an empty namespace fails first, even with an empty name; an empty name fails; otherwise the key is the namespace, `:cache:`, then the name |
| `Cache.GetCacheKeyInjective` | cache/cache.go:40 | within one namespace distinct names give distinct keys |
| `Cache.NewRedis` | cache/cache.go:43-100 | a nil section or sub-configuration panics; cluster/sentinel with no addresses, single with an empty address, replica with no writers or no readers each fail with their own error; unknown tags fail; otherwise the client carries the formatted addresses in order; a configuration `Valid` accepts with a Redis section always yields a client |
| `Cache.Read` | cache/cache.go:25 | an unreachable backend errors, a present key returns its stored value, an absent key is a miss |
| `Cache.Store.Set` | cache/cache.go:21 | upserts one key with its TTL and leaves every other key as it was |
| `Middleware.GetCacheKey` | middleware/cache.go:17-29 | an empty namespace fails first, then an empty name; otherwise the namespace, `.cache.`, then the name |
| `Middleware.ReadKeyNeverMatchesWriteKey` | middleware/cache.go:28 | in one namespace, a read key never equals a write key, whatever the two names, because they differ right after the namespace |
| `Middleware.CacheStep` | middleware/cache.go:31-59 | a path merely present in the disabled table passes through; a key failure aborts with 500; any failed read, miss included, passes through; a hit answers 200 with the stored string verbatim |
| `Middleware.CacheStepSameKey` | middleware/cache.go:42-54 | the corrected read that uses the write side's key and URI source |
| `Middleware.WriteKeysAreWriteSide` | cache/cache.go:40 | every key the write side builds has a colon right after the namespace |
| `Middleware.NeverServesWriteSideEntries` | middleware/cache.go:36-57 | on a store holding only write-side keys the middleware passes the request on or fails with 500, never answering from the cache |
| `Whitelist.Effective` | whitelist/youtube.go:19 | a comma-ok map read yields false for a missing key and the stored value otherwise |
| `Whitelist.ValidateChannelID` | whitelist/youtube.go:18-23 | true exactly when the channel id is present and mapped to true |
| `Whitelist.ValidatePlaylistID` | whitelist/youtube.go:25-30 | true exactly when the playlist string is present and mapped to true |
| `Whitelist.AbsentOrFalseDenies` | whitelist/youtube.go:19-29 | absence and an explicit false both deny |
| `Whitelist.MapsAreIndependent` | whitelist/youtube.go:18-30 | channel validation never reads the playlist map and playlist validation never reads the channel map |
| `Whitelist.NoCommaSplitting` | whitelist/youtube.go:26 | two allowed playlists do not make their comma-joined list allowed |
| `Whitelist.ValidateParameters` | whitelist/youtube.go:9-16 | always true, because a missing key is never effective |
| `Route.GetCacheTTL` | server/route/route.go:26-37 | disabled exactly when the endpoint maps to true; the TTL is the override when present, else the default, computed even when disabled |
| `Route.SaveCacheWrite` | server/route/route.go:63-88 | the envelope is written under the colon key of `URL.String()`, or under the empty key when the key cannot be built, with the given TTL |
| `Route.OKCacheWrite` | server/route/route.go:39-49 | writes only when caching is on and the request URI is not disabled, as a 200 envelope under the resolved TTL |
| `Route.ErrCacheWrite` | server/route/route.go:50-61 | same gate; always the error TTL and always a 200 envelope, whatever the response code |
| `Route.ErrorTTLIgnoresOverride` | server/route/route.go:52-56 | with an override for the endpoint, a success uses the override and an error still uses the error TTL |
| `Route.SaveCache` | server/route/route.go:63-88 | the store afterwards is the old store with that one write applied |
| `Route.SaveOKCache` | server/route/route.go:39-49 | the store changes exactly by the success write, independently of the ignored `isEnabled` argument |
| `Route.SaveErrCache` | server/route/route.go:50-61 | the store changes exactly by the error write, independently of the ignored arguments |
| `Route.Search` | server/route/route.go:107-152 | the upstream is called exactly when binding succeeds, `part` is set and the channel is allowed; every other answer is 400 with the error cache requested; 200 exactly on an upstream answer, relayed and cached as a success |
| `Route.FirstInvalid` | server/route/route.go:271-279 | the first position whose video has no snippet or a channel that is not allowed; none exactly when every video has an allowed channel |
| `Route.ValidateYouTubeVideoListResponse` | server/route/route.go:271-279 | succeeds exactly when every video has a snippet with an allowed channel; otherwise, at the first video that fails, reports its channel id, or panics when that video has no snippet |
| `Route.Videos` | server/route/route.go:156-210 | a binding error is 400 with no cache write; empty `part` or `id` is 400 with the error cache; the upstream is called exactly when both are set; 200 exactly on an upstream answer whose videos pass the channel check (when relaying to YouTube); a bare 500 with no cache write exactly when that check stops at a video without a snippet; every other refusal is 400 |
| `Route.PlaylistItems` | server/route/route.go:213-259 | the upstream is called exactly when binding succeeds, `part` is set and the playlist is allowed; every refusal is 400 with the error cache; 200 exactly on an upstream answer |
| `Route.RefusalIndependentOfUpstream` | server/route/route.go:113-139 | a refusal made before the upstream call is the same whatever the upstream would answer |
| `Route.Respond` | server/route/route.go:117-118 | answers with the decision's status and its payload as JSON (nothing at all for the bare 500 of a recovered panic) after applying exactly the requested cache write |
| `Route.HandleRequest` | server/route/route.go:102-104 | the handler runs exactly when caching is off or the cache middleware passes the request on; it then answers and writes; otherwise the reply is the middleware's own status and body (a cache hit, or the 500 of a key failure) and the store is untouched |
| `Route.CacheOffAlwaysForwards` | server/route/route.go:102-104 | with caching off every request reaches its handler and nothing is written |
| `Route.CachedResponsesNeverReplayed` | server/route/route.go:77-81 | a store holding only write-side keys keeps that form, and no request on it is answered from the cache |
| `Route.RepeatedRequestReachesHandler` | server/route/route.go:141-151 | the same request twice from an empty store reaches its handler the second time too, unless its key cannot be built |
| `Route.UnlistedChannelRefused` | server/route/route.go:131-139 | a search for a channel absent from the allow-map is refused before the upstream call, whatever the upstream answers and whatever the write side has stored |
| `Route.UpstreamErrorCachedUnderErrorTTL` | server/route/route.go:141-149 | an upstream error on an allowed search is stored as a 200 envelope of the error payload under the error TTL |
| `Route.SameKeyReadReplaysSavedResponse` | server/route/route.go:77-81 | with the corrected read, a saved success is found and replayed by the next identical request |

## Left out

- The upstream relay (relay/youtube.go) is not part of this model. What it answers is an input to each handler (`UpstreamResult`).
- The go-redis clients behind the cluster, single and sentinel topologies are opaque handles. Their network behaviour, pooling and timeouts are not modelled.
- Real TTL expiry is not modelled. A TTL is recorded with each entry in whole seconds, and an entry never expires.
- `Cache.Store.Set`: a failed backend write is not modelled. The source only logs such a failure and answers the same way.
- The replica routing methods say which connection gets which command. The command's effect on that connection is not modelled. Neither are the "applied" flag of set-if-present/set-if-absent and the count returned by delete.
- JSON marshalling and base64 encoding of the envelope (server/route/route.go:64-76) are not modelled. The envelope is stored as a value, and the marshal-error branches are left out.
- `Route.GetCacheTTL`: the TTL is kept in whole seconds. `time.Duration(seconds) * time.Second` overflows int64 above about 9.2e9 seconds; that overflow is not modelled.
- `Route.ValidateYouTubeVideoListResponse`: the type assertion to a video-list response always succeeds here. The relay's `ListByVideoIDs` actually returns nil, and the assertion would panic on it.
- `Route.Videos`: the YouTube-relay type test (server/route/route.go:196) names a type the relay does not declare. It is a boolean input here.
- Query binding (gin `BindQuery`) and gin routing are not modelled. Binding is an input that either holds the options or an error message.
- Logging and `time.Now` are left out.
- The `/health` route (server/route/route.go:96-98) answers 200 outside the cached group and is not modelled.
- Request-context cancellation is not modelled.
- `Replica.ReplicaRedis.RouteWrite`, `Replica.ReplicaRedis.Get`: the model assumes a 64-bit Go `int`, where `int(wc)` and `int(rc)` (cache/redis.go:23,29,35,41,46) are exact. On a 32-bit target the conversion is negative for every counter of 2^31 or more. Go's `%` truncates toward zero, so the index would then be negative and the call would panic. That case is not modelled.
- Concurrency is not verified. Each atomic counter increment is one sequential step.
- `LoadFile` and `LoadConfig` (file reading and YAML decoding) are not modelled. Only `Valid` is.
- Process bootstrap is not part of this model: server/server.go, cli/serve/serve.go, cli/config.go and cmd/yt-relay/main.go.

## Findings

| source | as written | input that shows it | evidently intended | confidence | as-written member | corrected member |
|---|---|---|---|---|---|---|
| cache/redis.go:41 | the read slot is the read counter modulo `len(r.writers)`, then looked up in `r.readers` | two writers and one reader: the first `Get` computes slot 1 and indexes past the single reader | take the slot modulo `len(r.readers)` | high; not executed | `Replica.ReplicaRedis.Get`, shown by `Replica.ReadPastReadersWitness` | `Replica.ReplicaRedis.GetFromReaders` |
| middleware/cache.go:28 | the read key is `namespace.cache.` + `RequestURI`, while `saveCache` writes `namespace:cache:` + `URL.String()` (server/route/route.go:77) | any cacheable request: the write goes under `app:cache:/youtube/v3/search?part=x`, and the next identical request looks under `app.cache./youtube/v3/search?part=x` and misses | both sides build the same colon key from the same URI | high; not executed | `Middleware.CacheStep`, shown by `Route.RepeatedRequestReachesHandler` | `Middleware.CacheStepSameKey`, proved by `Route.SameKeyReadReplaysSavedResponse` |
