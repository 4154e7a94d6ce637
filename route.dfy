/**
 * The router (server/route/route.go): TTL resolution, the best-effort cache writes, the
 * admission sequence of the three relay endpoints, and the video-list channel check.
 *
 * A handler is a decision function from its inputs (the bound query or the binding error,
 * the allow-maps, what the upstream answers if asked) to a `Decision`: the status, the
 * payload, which cache write to attempt, and whether the upstream was called at all.
 * `Respond` carries a decision out against the store.
 */
module Route {
  import opened Wrappers
  import opened YtRelay
  import opened Http
  import Config
  import Cache
  import Whitelist
  import Middleware

  const ErrorEmptyPart := "part cannot be empty"
  const ErrorEmptyID := "id cannot be empty"

  /** `getCacheTTL`'s two results: the TTL in seconds and whether the endpoint is disabled. */
  datatype TTLResolution = TTLResolution(ttlSeconds: int, isDisabled: bool)

  /**
   * Disabled exactly when the endpoint maps to true (absent counts as false). The TTL is
   * the override when one exists and the default otherwise, computed whether or not the
   * endpoint is disabled.
   */
  function GetCacheTTL(conf: Config.Cache, api: string): (r: TTLResolution)
    ensures r.isDisabled <==> api in conf.disabledApis && conf.disabledApis[api]
    ensures api in conf.overwriteTtl ==> r.ttlSeconds == conf.overwriteTtl[api]
    ensures api !in conf.overwriteTtl ==> r.ttlSeconds == conf.ttl
  {
    var isDisabled := Whitelist.Effective(conf.disabledApis, api);
    if api in conf.overwriteTtl then TTLResolution(conf.overwriteTtl[api], isDisabled)
    else TTLResolution(conf.ttl, isDisabled)
  }

  /** One `Set` the router issues against the store. */
  datatype CacheWrite = CacheWrite(key: string, value: Cache.HTTP, ttlSeconds: int)

  /** The store after an optional write. */
  function Apply(entries: map<string, Cache.Entry>, w: Option<CacheWrite>): map<string, Cache.Entry> {
    match w
    case None => entries
    case Some(w) => entries[w.key := Cache.Entry(w.value, w.ttlSeconds)]
  }

  /**
   * What `saveCache` writes: the envelope under the colon key of `URL.String()`. When the
   * key cannot be built the failure is only logged and the write still goes out, under the
   * empty key.
   */
  function SaveCacheWrite(appName: string, req: Request, respCode: int, resp: Payload, ttlSeconds: int)
    : (w: CacheWrite)
    ensures Cache.GetCacheKey(appName, req.urlString).Success? ==> w.key == Cache.GetCacheKey(appName, req.urlString).value
    ensures Cache.GetCacheKey(appName, req.urlString).Failure? ==> w.key == ""
    ensures w.value == Cache.HTTP(respCode, resp) && w.ttlSeconds == ttlSeconds
    ensures Middleware.WriteSideKey(appName, w.key)
  {
    Middleware.WriteKeysAreWriteSide(appName, req.urlString);
    var key := match Cache.GetCacheKey(appName, req.urlString)
      case Success(k) => k
      case Failure(_) => "";
    CacheWrite(key, Cache.HTTP(respCode, resp), ttlSeconds)
  }

  /**
   * What `saveOKCache` writes: nothing unless caching is on and the request URI is not
   * disabled; otherwise status 200 under the TTL `getCacheTTL` resolves.
   */
  function OKCacheWrite(conf: Config.Cache, appName: string, req: Request, resp: Payload): (w: Option<CacheWrite>)
    ensures w.Some? <==> conf.isEnabled && !GetCacheTTL(conf, req.requestUri).isDisabled
    ensures w.Some? ==> w.value == SaveCacheWrite(appName, req, StatusOK, resp, GetCacheTTL(conf, req.requestUri).ttlSeconds)
  {
    if conf.isEnabled then
      var resolution := GetCacheTTL(conf, req.requestUri);
      if !resolution.isDisabled then Some(SaveCacheWrite(appName, req, StatusOK, resp, resolution.ttlSeconds))
      else None
    else None
  }

  /**
   * What `saveErrCache` writes: the same gate as `saveOKCache`, but always the error TTL,
   * never an override, and the envelope says 200 whatever response code was passed in.
   */
  function ErrCacheWrite(conf: Config.Cache, appName: string, req: Request, httpResponseCode: nat, resp: Payload)
    : (w: Option<CacheWrite>)
    ensures w.Some? <==> conf.isEnabled && !GetCacheTTL(conf, req.requestUri).isDisabled
    ensures w.Some? ==> w.value == SaveCacheWrite(appName, req, StatusOK, resp, conf.errorTtl)
  {
    if conf.isEnabled then
      var resolution := GetCacheTTL(conf, req.requestUri);
      if !resolution.isDisabled then Some(SaveCacheWrite(appName, req, StatusOK, resp, conf.errorTtl))
      else None
    else None
  }

  /** An error is cached under the error TTL even where an override exists for the endpoint. */
  lemma ErrorTTLIgnoresOverride(conf: Config.Cache, appName: string, req: Request, code: nat, resp: Payload)
    requires conf.isEnabled && !GetCacheTTL(conf, req.requestUri).isDisabled
    requires req.requestUri in conf.overwriteTtl
    ensures ErrCacheWrite(conf, appName, req, code, resp).value.ttlSeconds == conf.errorTtl
    ensures OKCacheWrite(conf, appName, req, resp).value.ttlSeconds == conf.overwriteTtl[req.requestUri]
  {
  }

  method SaveCache(conf: Config.Cache, store: Cache.Store, appName: string, req: Request, respCode: int,
                   resp: Payload, ttlSeconds: int)
    modifies store
    ensures store.entries == Apply(old(store.entries), Some(SaveCacheWrite(appName, req, respCode, resp, ttlSeconds)))
  {
    var key := "";
    match Cache.GetCacheKey(appName, req.urlString) {
      case Failure(_) =>
      case Success(k) => key := k;
    }
    store.Set(key, Cache.HTTP(respCode, resp), ttlSeconds);
  }

  /** The `isEnabled` argument is not consulted; the configuration's own flag is. */
  method SaveOKCache(isEnabled: bool, conf: Config.Cache, store: Cache.Store, appName: string, req: Request,
                     resp: Payload)
    modifies store
    ensures store.entries == Apply(old(store.entries), OKCacheWrite(conf, appName, req, resp))
  {
    if conf.isEnabled {
      var resolution := GetCacheTTL(conf, req.requestUri);
      if !resolution.isDisabled {
        SaveCache(conf, store, appName, req, StatusOK, resp, resolution.ttlSeconds);
      }
    }
  }

  /** The `isEnabled` and `httpResponseCode` arguments are not consulted. */
  method SaveErrCache(isEnabled: bool, conf: Config.Cache, store: Cache.Store, appName: string, req: Request,
                      httpResponseCode: nat, resp: Payload)
    modifies store
    ensures store.entries == Apply(old(store.entries), ErrCacheWrite(conf, appName, req, httpResponseCode, resp))
  {
    if conf.isEnabled {
      var resolution := GetCacheTTL(conf, req.requestUri);
      if !resolution.isDisabled {
        SaveCache(conf, store, appName, req, StatusOK, resp, conf.errorTtl);
      }
    }
  }

  /** Which cache write a handler asks for before it answers. */
  datatype SaveAction = NoSave | SaveOK(resp: Payload) | SaveErr(code: nat, resp: Payload)

  datatype Decision = Decision(status: int, body: Payload, save: SaveAction, upstreamCalled: bool)

  /** The write a save action turns into under a given configuration. */
  function PlannedWrite(conf: Config.Cache, appName: string, req: Request, save: SaveAction): Option<CacheWrite> {
    match save
    case NoSave => None
    case SaveOK(resp) => OKCacheWrite(conf, appName, req, resp)
    case SaveErr(code, resp) => ErrCacheWrite(conf, appName, req, code, resp)
  }

  /** A 400 answer whose error payload is also handed to `saveErrCache`. */
  function Reject(message: string, upstreamCalled: bool): Decision {
    Decision(StatusBadRequest, ErrorResp(message), SaveErr(StatusBadRequest, ErrorResp(message)), upstreamCalled)
  }

  function InvalidChannelMessage(channelId: string): string {
    "channelId(" + channelId + ") is invalid"
  }

  function InvalidPlaylistMessage(playlistId: string): string {
    "playlistId(" + playlistId + ") is invalid"
  }

  const InvalidVideoChannelPrefix := "some video's channel id is invalid: "

  /**
   * `GET /search`: bind, require `part`, require an allowed `channelId`, then ask the
   * upstream. Every refusal answers 400 and asks for the error cache; the upstream is called
   * only once both checks pass, and only its answer yields 200.
   */
  function Search(parsed: Result<Options, string>, api: Whitelist.API, upstream: UpstreamResult): (d: Decision)
    ensures d.upstreamCalled <==>
      parsed.Success? && parsed.value.part != "" && Whitelist.ValidateChannelID(api, parsed.value.channelId)
    ensures d.status != StatusOK ==> d.status == StatusBadRequest && d.save == SaveErr(StatusBadRequest, d.body)
    ensures d.status == StatusOK <==> d.upstreamCalled && upstream.UpstreamOk?
    ensures d.status == StatusOK ==> d.body == Relayed(upstream.resp) && d.save == SaveOK(d.body)
    ensures parsed.Success? && parsed.value.part != "" && !Whitelist.ValidateChannelID(api, parsed.value.channelId) ==>
      d.body == ErrorResp(InvalidChannelMessage(parsed.value.channelId))
  {
    match parsed
    case Failure(e) => Reject(e, false)
    case Success(q) =>
      if q.part == "" then Reject(ErrorEmptyPart, false)
      else if !Whitelist.ValidateChannelID(api, q.channelId) then Reject(InvalidChannelMessage(q.channelId), false)
      else
        match upstream
        case UpstreamErr(message) => Reject(message, true)
        case UpstreamOk(resp) => Decision(StatusOK, Relayed(resp), SaveOK(Relayed(resp)), true)
  }

  /** A video passes the channel check: it has a snippet whose channel is allowed. */
  predicate Allowed(api: Whitelist.API, v: Video) {
    v.snippet.Some? && Whitelist.ValidateChannelID(api, v.snippet.value.channelId)
  }

  /**
   * The position where the channel check stops: the first video that has no snippet (the
   * source dereferences it and panics) or whose channel is not allowed.
   */
  function FirstInvalid(api: Whitelist.API, items: seq<Video>): (r: Option<nat>)
    ensures r.None? <==> forall i :: 0 <= i < |items| ==> Allowed(api, items[i])
    ensures r.Some? ==>
      && r.value < |items|
      && !Allowed(api, items[r.value])
      && forall j :: 0 <= j < r.value ==> Allowed(api, items[j])
  {
    if |items| == 0 then None
    else if !Allowed(api, items[0]) then Some(0)
    else
      match FirstInvalid(api, items[1..])
      case None => None
      case Some(k) => Some(k + 1)
  }

  /** What the video-list check ends in: success, the error for a disallowed channel, or a nil-snippet panic. */
  datatype ChannelCheck = AllAllowed | Disallowed(message: string) | NilSnippetPanic(index: nat)

  /**
   * `validateYouTubeVideoListResponse`: walks the videos in order; succeeds exactly when
   * every one has an allowed channel, reports the first disallowed channel, and panics at
   * the first video without a snippet if it comes before any disallowed one.
   */
  method ValidateYouTubeVideoListResponse(api: Whitelist.API, resp: UpstreamResponse) returns (r: ChannelCheck)
    ensures r.AllAllowed? <==> forall i :: 0 <= i < |resp.items| ==> Allowed(api, resp.items[i])
    ensures r.Disallowed? ==>
      var k := FirstInvalid(api, resp.items).value;
      resp.items[k].snippet.Some? && r.message == InvalidChannelMessage(resp.items[k].snippet.value.channelId)
    ensures r.NilSnippetPanic? ==>
      r.index == FirstInvalid(api, resp.items).value && resp.items[r.index].snippet.None?
  {
    for i := 0 to |resp.items|
      invariant forall j :: 0 <= j < i ==> Allowed(api, resp.items[j])
    {
      var item := resp.items[i];
      match item.snippet {
        case None =>
          return NilSnippetPanic(i);
        case Some(snippet) =>
          if !Whitelist.ValidateChannelID(api, snippet.channelId) {
            return Disallowed(InvalidChannelMessage(snippet.channelId));
          }
      }
    }
    return AllAllowed;
  }

  /**
   * `GET /videos`: a binding error answers 400 WITHOUT touching the cache; an empty `part`
   * or `id` answers 400 and asks for the error cache; then the upstream is called, and
   * against the YouTube relay every returned video's channel must be allowed. A video
   * without a snippet panics inside the check; the server's recovery answers a bare 500
   * and nothing is cached.
   */
  function Videos(parsed: Result<Options, string>, api: Whitelist.API, isYouTube: bool, upstream: UpstreamResult)
    : (d: Decision)
    ensures parsed.Failure? ==> d == Decision(StatusBadRequest, ErrorResp(parsed.error), NoSave, false)
    ensures parsed.Success? && d.status != StatusOK ==>
      || (d.status == StatusBadRequest && d.save == SaveErr(StatusBadRequest, d.body))
      || (d.status == StatusInternalServerError && d.body == NoBody && d.save == NoSave)
    ensures d.upstreamCalled <==> parsed.Success? && parsed.value.part != "" && parsed.value.ids != ""
    ensures d.status == StatusOK <==>
      && d.upstreamCalled && upstream.UpstreamOk?
      && (isYouTube ==> forall i :: 0 <= i < |upstream.resp.items| ==> Allowed(api, upstream.resp.items[i]))
    ensures d.status == StatusInternalServerError <==>
      && d.upstreamCalled && upstream.UpstreamOk? && isYouTube
      && FirstInvalid(api, upstream.resp.items).Some?
      && upstream.resp.items[FirstInvalid(api, upstream.resp.items).value].snippet.None?
    ensures d.status == StatusOK ==> d.body == Relayed(upstream.resp) && d.save == SaveOK(d.body)
  {
    match parsed
    case Failure(e) => Decision(StatusBadRequest, ErrorResp(e), NoSave, false)
    case Success(q) =>
      if q.part == "" then Reject(ErrorEmptyPart, false)
      else if q.ids == "" then Reject(ErrorEmptyID, false)
      else
        match upstream
        case UpstreamErr(message) => Reject(message, true)
        case UpstreamOk(resp) =>
          if isYouTube && FirstInvalid(api, resp.items).Some? then
            match resp.items[FirstInvalid(api, resp.items).value].snippet
            case None => Decision(StatusInternalServerError, NoBody, NoSave, true)
            case Some(snippet) => Reject(InvalidVideoChannelPrefix + InvalidChannelMessage(snippet.channelId), true)
          else
            Decision(StatusOK, Relayed(resp), SaveOK(Relayed(resp)), true)
  }

  /**
   * `GET /playlistItems`: like `/search`, with the playlist allow-map in place of the
   * channel one; here a binding error also asks for the error cache.
   */
  function PlaylistItems(parsed: Result<Options, string>, api: Whitelist.API, upstream: UpstreamResult)
    : (d: Decision)
    ensures d.upstreamCalled <==>
      parsed.Success? && parsed.value.part != "" && Whitelist.ValidatePlaylistID(api, parsed.value.playlistId)
    ensures d.status != StatusOK ==> d.status == StatusBadRequest && d.save == SaveErr(StatusBadRequest, d.body)
    ensures d.status == StatusOK <==> d.upstreamCalled && upstream.UpstreamOk?
    ensures d.status == StatusOK ==> d.body == Relayed(upstream.resp) && d.save == SaveOK(d.body)
  {
    match parsed
    case Failure(e) => Reject(e, false)
    case Success(q) =>
      if q.part == "" then Reject(ErrorEmptyPart, false)
      else if !Whitelist.ValidatePlaylistID(api, q.playlistId) then Reject(InvalidPlaylistMessage(q.playlistId), false)
      else
        match upstream
        case UpstreamErr(message) => Reject(message, true)
        case UpstreamOk(resp) => Decision(StatusOK, Relayed(resp), SaveOK(Relayed(resp)), true)
  }

  /** A refused request's answer does not depend on what the upstream would have said. */
  lemma RefusalIndependentOfUpstream(parsed: Result<Options, string>, api: Whitelist.API, isYouTube: bool,
                                     u1: UpstreamResult, u2: UpstreamResult)
    ensures !Search(parsed, api, u1).upstreamCalled ==> Search(parsed, api, u1) == Search(parsed, api, u2)
    ensures !Videos(parsed, api, isYouTube, u1).upstreamCalled ==>
      Videos(parsed, api, isYouTube, u1) == Videos(parsed, api, isYouTube, u2)
    ensures !PlaylistItems(parsed, api, u1).upstreamCalled ==>
      PlaylistItems(parsed, api, u1) == PlaylistItems(parsed, api, u2)
  {
  }

  /** Carries out a handler's decision: the requested cache write, then the JSON answer. */
  method Respond(conf: Config.Cache, store: Cache.Store, appName: string, req: Request, d: Decision)
    returns (status: int, body: Middleware.Body)
    modifies store
    ensures status == d.status && body == Middleware.Send(d.body)
    ensures store.entries == Apply(old(store.entries), PlannedWrite(conf, appName, req, d.save))
  {
    match d.save {
      case NoSave =>
      case SaveOK(resp) => SaveOKCache(conf.isEnabled, conf, store, appName, req, resp);
      case SaveErr(code, resp) => SaveErrCache(conf.isEnabled, conf, store, appName, req, code, resp);
    }
    status, body := d.status, Middleware.Send(d.body);
  }

  /** The answer to one request and the store it leaves; `handlerRan` says the middleware let it through. */
  datatype Reply = Reply(status: int, body: Middleware.Body, entries: map<string, Cache.Entry>, handlerRan: bool)

  /**
   * One request through the relay group: the cache middleware, installed only when caching
   * is enabled, then the endpoint's handler with decision `d`.
   */
  function HandleRequest(appName: string, conf: Config.Cache, entries: map<string, Cache.Entry>, reachable: bool,
                         req: Request, d: Decision): (r: Reply)
    ensures r.handlerRan <==> !conf.isEnabled || Middleware.CacheStep(appName, conf, entries, req, reachable).Next?
    ensures r.handlerRan ==> r.status == d.status && r.body == Middleware.Send(d.body)
    ensures r.handlerRan ==> r.entries == Apply(entries, PlannedWrite(conf, appName, req, d.save))
    ensures !r.handlerRan ==>
      var step := Middleware.CacheStep(appName, conf, entries, req, reachable);
      r.entries == entries && r.status == step.status && r.body == step.body
  {
    var handled := Reply(d.status, Middleware.Send(d.body), Apply(entries, PlannedWrite(conf, appName, req, d.save)), true);
    if !conf.isEnabled then handled
    else
      match Middleware.CacheStep(appName, conf, entries, req, reachable)
      case Next => handled
      case Abort(status, body) => Reply(status, body, entries, false)
  }

  /** With caching off every request reaches its handler and the store is never written. */
  lemma CacheOffAlwaysForwards(appName: string, conf: Config.Cache, entries: map<string, Cache.Entry>,
                               reachable: bool, req: Request, d: Decision)
    requires !conf.isEnabled
    ensures HandleRequest(appName, conf, entries, reachable, req, d)
         == Reply(d.status, Middleware.Send(d.body), entries, true)
  {
  }

  /**
   * The store keeps holding only write-side keys, and on such a store no request is ever
   * answered from the cache: it reaches its handler or fails with 500.
   */
  lemma CachedResponsesNeverReplayed(appName: string, conf: Config.Cache, entries: map<string, Cache.Entry>,
                                     reachable: bool, req: Request, d: Decision)
    requires Middleware.OnlyWriteSideKeys(appName, entries)
    ensures var r := HandleRequest(appName, conf, entries, reachable, req, d);
      && Middleware.OnlyWriteSideKeys(appName, r.entries)
      && (r.handlerRan || r.status == StatusInternalServerError)
  {
    var w := PlannedWrite(conf, appName, req, d.save);
    if w.Some? {
      assert Middleware.WriteSideKey(appName, w.value.key);
    }
    if conf.isEnabled {
      Middleware.NeverServesWriteSideEntries(appName, conf, entries, req, reachable);
    }
  }

  /**
   * The same request twice from an empty store: the second reaches its handler again (and
   * so the upstream, if the checks pass) unless the cache key cannot be built at all.
   */
  lemma RepeatedRequestReachesHandler(appName: string, conf: Config.Cache, reachable: bool, req: Request,
                                      d1: Decision, d2: Decision)
    ensures var first := HandleRequest(appName, conf, map[], reachable, req, d1);
      var second := HandleRequest(appName, conf, first.entries, reachable, req, d2);
      second.handlerRan || second.status == StatusInternalServerError
  {
    CachedResponsesNeverReplayed(appName, conf, map[], reachable, req, d1);
    var first := HandleRequest(appName, conf, map[], reachable, req, d1);
    CachedResponsesNeverReplayed(appName, conf, first.entries, reachable, req, d2);
  }

  /**
   * A search for a channel that is absent from the allow-map is refused with 400 before the
   * upstream is called, whatever the upstream would answer and whatever the write side has
   * stored.
   */
  lemma UnlistedChannelRefused(appName: string, conf: Config.Cache, entries: map<string, Cache.Entry>,
                               reachable: bool, req: Request, q: Options, api: Whitelist.API, upstream: UpstreamResult)
    requires Middleware.OnlyWriteSideKeys(appName, entries)
    requires q.part != "" && q.channelId !in api.whitelist.channelIds
    ensures var d := Search(Success(q), api, upstream);
      var r := HandleRequest(appName, conf, entries, reachable, req, d);
      && !d.upstreamCalled
      && (r.status == StatusBadRequest || r.status == StatusInternalServerError)
  {
    CachedResponsesNeverReplayed(appName, conf, entries, reachable, req, Search(Success(q), api, upstream));
  }

  /**
   * An upstream error on an allowed search is cached, when caching applies, as a 200
   * envelope of the error payload under the error TTL.
   */
  lemma UpstreamErrorCachedUnderErrorTTL(appName: string, conf: Config.Cache, entries: map<string, Cache.Entry>,
                                         req: Request, q: Options, api: Whitelist.API, message: string)
    requires conf.isEnabled && !GetCacheTTL(conf, req.requestUri).isDisabled
    requires q.part != "" && Whitelist.ValidateChannelID(api, q.channelId)
    ensures var d := Search(Success(q), api, UpstreamErr(message));
      var key := SaveCacheWrite(appName, req, StatusOK, ErrorResp(message), conf.errorTtl).key;
      && d.status == StatusBadRequest && d.upstreamCalled
      && key in Apply(entries, PlannedWrite(conf, appName, req, d.save))
      && Apply(entries, PlannedWrite(conf, appName, req, d.save))[key]
         == Cache.Entry(Cache.HTTP(StatusOK, ErrorResp(message)), conf.errorTtl)
  {
  }

  /**
   * The read that matches the write side (the colon key of `URL.String()`) replays a saved
   * success: the next identical request is answered from the cache.
   */
  lemma SameKeyReadReplaysSavedResponse(appName: string, conf: Config.Cache, entries: map<string, Cache.Entry>,
                                        req: Request, resp: Payload)
    requires conf.isEnabled && !GetCacheTTL(conf, req.requestUri).isDisabled
    requires req.path !in conf.disabledApis
    requires appName != "" && req.urlString != ""
    ensures Middleware.CacheStepSameKey(appName, conf, Apply(entries, OKCacheWrite(conf, appName, req, resp)), req, true)
         == Middleware.Abort(StatusOK, Middleware.Raw(Cache.HTTP(StatusOK, resp)))
  {
  }
}
