/**
 * The read side of the cache (middleware/cache.go): the dotted cache key and the gin
 * middleware that answers from the store or lets the request through to its handler.
 */
module Middleware {
  import opened Wrappers
  import opened YtRelay
  import opened Http
  import Config
  import Cache

  const CacheInfix := ".cache."

  /** `namespace.cache.name`; an empty namespace is reported before an empty name. */
  function GetCacheKey(namespace: string, name: string): (r: Result<string, Cache.KeyError>)
    ensures namespace == "" ==> r == Failure(Cache.EmptyNamespace)
    ensures namespace != "" && name == "" ==> r == Failure(Cache.EmptyName)
    ensures namespace != "" && name != "" ==> r.Success?
    ensures r.Success? ==>
      && |r.value| == |namespace| + |CacheInfix| + |name|
      && r.value[..|namespace|] == namespace
      && r.value[|namespace|..|namespace| + |CacheInfix|] == CacheInfix
      && r.value[|namespace| + |CacheInfix|..] == name
  {
    if namespace == "" then Failure(Cache.EmptyNamespace)
    else if name == "" then Failure(Cache.EmptyName)
    else Success(namespace + CacheInfix + name)
  }

  /**
   * Within one namespace the dotted key never equals a colon key, whatever the two names:
   * right after the namespace one has '.' and the other ':'.
   */
  lemma ReadKeyNeverMatchesWriteKey(namespace: string, readName: string, writeName: string)
    requires GetCacheKey(namespace, readName).Success?
    requires Cache.GetCacheKey(namespace, writeName).Success?
    ensures GetCacheKey(namespace, readName).value != Cache.GetCacheKey(namespace, writeName).value
  {
    var readKey := GetCacheKey(namespace, readName).value;
    var writeKey := Cache.GetCacheKey(namespace, writeName).value;
    assert readKey[|namespace|] == readKey[|namespace|..|namespace| + |CacheInfix|][0] == '.';
    assert writeKey[|namespace|] == writeKey[|namespace|..|namespace| + |Cache.CacheInfix|][0] == ':';
  }

  /**
   * A response body: a payload serialised as JSON, the stored string replayed verbatim, or
   * nothing at all.
   */
  datatype Body = Json(payload: Payload) | Raw(stored: Cache.HTTP) | Empty

  /** What is sent for a handler's payload: JSON, except that `NoBody` sends nothing. */
  function Send(p: Payload): (b: Body)
    ensures b.Empty? <==> p.NoBody?
    ensures !p.NoBody? ==> b == Json(p)
  {
    match p
    case NoBody => Empty
    case _ => Json(p)
  }

  /** What the middleware does with a request: pass it on, or answer it itself. */
  datatype Outcome = Next | Abort(status: int, body: Body)

  const KeyErrorPrefix := "Fail to get cache key in cache middleware: "

  /**
   * A path merely listed in the disabled table skips the cache, whatever it maps to. A key
   * that cannot be built aborts with 500. Any failed read, a miss included, passes the
   * request on. A hit answers 200 with the stored string itself as the body, whatever code
   * the stored envelope carries.
   */
  function CacheStep(namespace: string, conf: Config.Cache, entries: map<string, Cache.Entry>,
                     req: Request, reachable: bool): (o: Outcome)
    ensures req.path in conf.disabledApis ==> o == Next
    ensures req.path !in conf.disabledApis && GetCacheKey(namespace, req.requestUri).Failure? ==>
      o == Abort(StatusInternalServerError,
                 Json(ErrorResp(KeyErrorPrefix + Cache.KeyErrorMessage(GetCacheKey(namespace, req.requestUri).error))))
    ensures req.path !in conf.disabledApis && GetCacheKey(namespace, req.requestUri).Success? ==>
      var key := GetCacheKey(namespace, req.requestUri).value;
      && (!reachable || key !in entries ==> o == Next)
      && (reachable && key in entries ==> o == Abort(StatusOK, Raw(entries[key].value)))
  {
    if req.path in conf.disabledApis then Next
    else
      match GetCacheKey(namespace, req.requestUri)
      case Failure(e) =>
        Abort(StatusInternalServerError, Json(ErrorResp(KeyErrorPrefix + Cache.KeyErrorMessage(e))))
      case Success(key) =>
        match Cache.Read(entries, key, reachable)
        case Failure(_) => Next
        case Success(stored) => Abort(StatusOK, Raw(stored))
  }

  /**
   * The read the write side calls for: the same colon key, built from the same
   * `URL.String()`, so that what a handler saved can be found again.
   */
  function CacheStepSameKey(namespace: string, conf: Config.Cache, entries: map<string, Cache.Entry>,
                            req: Request, reachable: bool): (o: Outcome)
    ensures req.path in conf.disabledApis ==> o == Next
    ensures req.path !in conf.disabledApis && Cache.GetCacheKey(namespace, req.urlString).Failure? ==>
      o.Abort? && o.status == StatusInternalServerError
    ensures req.path !in conf.disabledApis && Cache.GetCacheKey(namespace, req.urlString).Success? ==>
      var key := Cache.GetCacheKey(namespace, req.urlString).value;
      && (!reachable || key !in entries ==> o == Next)
      && (reachable && key in entries ==> o == Abort(StatusOK, Raw(entries[key].value)))
  {
    if req.path in conf.disabledApis then Next
    else
      match Cache.GetCacheKey(namespace, req.urlString)
      case Failure(e) =>
        Abort(StatusInternalServerError, Json(ErrorResp(KeyErrorPrefix + Cache.KeyErrorMessage(e))))
      case Success(key) =>
        match Cache.Read(entries, key, reachable)
        case Failure(_) => Next
        case Success(stored) => Abort(StatusOK, Raw(stored))
  }

  /** A key of the colon form under `namespace`, or the empty key a failed construction leaves. */
  predicate WriteSideKey(namespace: string, key: string) {
    key == "" || (|key| > |namespace| && key[..|namespace|] == namespace && key[|namespace|] == ':')
  }

  /** Every key in the store was written by the colon-keyed write side. */
  predicate OnlyWriteSideKeys(namespace: string, entries: map<string, Cache.Entry>) {
    forall key :: key in entries ==> WriteSideKey(namespace, key)
  }

  /** Every key the write side builds is of that form. */
  lemma WriteKeysAreWriteSide(namespace: string, name: string)
    ensures Cache.GetCacheKey(namespace, name).Success? ==> WriteSideKey(namespace, Cache.GetCacheKey(namespace, name).value)
  {
    if Cache.GetCacheKey(namespace, name).Success? {
      var key := Cache.GetCacheKey(namespace, name).value;
      assert key[|namespace|] == key[|namespace|..|namespace| + |Cache.CacheInfix|][0];
    }
  }

  /**
   * On a store that holds only what the write side wrote, the middleware never answers from
   * the cache: it passes the request on, or fails it with 500.
   */
  lemma NeverServesWriteSideEntries(namespace: string, conf: Config.Cache, entries: map<string, Cache.Entry>,
                                    req: Request, reachable: bool)
    requires OnlyWriteSideKeys(namespace, entries)
    ensures CacheStep(namespace, conf, entries, req, reachable) == Next
         || CacheStep(namespace, conf, entries, req, reachable).status == StatusInternalServerError
  {
    if req.path !in conf.disabledApis && GetCacheKey(namespace, req.requestUri).Success? {
      var key := GetCacheKey(namespace, req.requestUri).value;
      assert key[|namespace|] == key[|namespace|..|namespace| + |CacheInfix|][0] == '.';
      assert !WriteSideKey(namespace, key);
    }
  }
}
