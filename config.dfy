/**
 * The configuration document (config/config.go) and its validity check `Conf.Valid`.
 *
 * Nil-able pointer fields become `Option`s. The `Cache` section is modelled the way the router
 * reads it (an error TTL, per-endpoint overrides and a disabled-endpoint table, both keyed by
 * endpoint string), not as the struct declared in config.go.
 */
module Config {
  import opened Wrappers

  datatype RedisAddress = RedisAddress(addr: string, port: int)

  datatype RedisCluster = RedisCluster(addrs: seq<RedisAddress>, password: string)

  datatype RedisSingleInstance = RedisSingleInstance(instance: RedisAddress, password: string)

  datatype RedisSentinel = RedisSentinel(addrs: seq<RedisAddress>, password: string)

  datatype RedisReplicaInstances = RedisReplicaInstances(
    masterAddrs: seq<RedisAddress>,
    slaveAddrs: seq<RedisAddress>,
    password: string)

  /** The topology tag is a free string in the document; four values are recognised. */
  type RedisType = string

  const Cluster: RedisType := "cluster"
  const Single: RedisType := "single"
  const Sentinel: RedisType := "sentinel"
  const Replica: RedisType := "replica"

  datatype RedisService = RedisService(
    redisType: RedisType,
    cluster: Option<RedisCluster>,
    singleInstance: Option<RedisSingleInstance>,
    sentinel: Option<RedisSentinel>,
    replica: Option<RedisReplicaInstances>)

  /** Allow-maps: an id is effective only when present and mapped to true. */
  datatype Whitelists = Whitelists(channelIds: map<string, bool>, playlistIds: map<string, bool>)

  /** TTLs are whole seconds. */
  datatype Cache = Cache(
    isEnabled: bool,
    ttl: int,
    errorTtl: int,
    overwriteTtl: map<string, int>,
    disabledApis: map<string, bool>)

  datatype Conf = Conf(
    address: string,
    apiKey: string,
    cache: Cache,
    port: int,
    redis: Option<RedisService>,
    whitelists: Whitelists)

  /**
   * The selected topology has its sub-configuration and at least one address for it: the
   * independent statement of what a usable Redis section is.
   */
  predicate TopologyConfigured(r: RedisService) {
    || (r.redisType == Cluster && r.cluster.Some? && |r.cluster.value.addrs| > 0)
    || (r.redisType == Single && r.singleInstance.Some? && r.singleInstance.value.instance.addr != "")
    || (r.redisType == Sentinel && r.sentinel.Some? && |r.sentinel.value.addrs| > 0)
    || (r.redisType == Replica && r.replica.Some?
        && |r.replica.value.masterAddrs| > 0 && |r.replica.value.slaveAddrs| > 0)
  }

  /** The `switch redis.Type` of `Valid`, case by case. */
  function RedisSectionValid(r: RedisService): bool {
    if r.redisType == Cluster then
      if r.cluster.None? then false
      else if |r.cluster.value.addrs| == 0 then false
      else true
    else if r.redisType == Single then
      if r.singleInstance.None? then false
      else if r.singleInstance.value.instance.addr == "" then false
      else true
    else if r.redisType == Sentinel then
      if r.sentinel.None? then false
      else if |r.sentinel.value.addrs| == 0 then false
      else true
    else if r.redisType == Replica then
      if r.replica.None? then false
      else if |r.replica.value.masterAddrs| == 0 then false
      else if |r.replica.value.slaveAddrs| == 0 then false
      else true
    else
      false
  }

  /**
   * `Conf.Valid`: an API key, two non-empty whitelists, and, when a Redis section is present,
   * a configured topology. The cache section is never looked at.
   */
  function Valid(c: Conf): (ok: bool)
    ensures ok <==>
      && c.apiKey != ""
      && |c.whitelists.channelIds| > 0
      && |c.whitelists.playlistIds| > 0
      && (c.redis.Some? ==> TopologyConfigured(c.redis.value))
  {
    if c.apiKey == "" then false
    else if |c.whitelists.channelIds| == 0 then false
    else if |c.whitelists.playlistIds| == 0 then false
    else if c.redis.Some? then RedisSectionValid(c.redis.value)
    else true
  }

  /** An unrecognised topology tag is rejected whatever else the section holds. */
  lemma UnknownTypeInvalid(c: Conf)
    requires c.redis.Some?
    requires c.redis.value.redisType !in {Cluster, Single, Sentinel, Replica}
    ensures !Valid(c)
  {
  }

  /** Replacing the cache section (any TTLs, any tables) never changes the verdict. */
  lemma ValidIgnoresCache(c: Conf, other: Cache)
    ensures Valid(c.(cache := other)) == Valid(c)
  {
  }
}
