/**
 * The cache layer's entry points (cache/cache.go): the stored envelope, the colon-form cache
 * key, backend-topology selection, and the key-value view of a backend that the router uses.
 */
module Cache {
  import opened Wrappers
  import opened YtRelay
  import Config
  import opened Clients
  import Replica

  /** The stored envelope: a status code and the serialised response. */
  datatype HTTP = HTTP(statusCode: int, response: Payload)

  datatype KeyError = EmptyNamespace | EmptyName

  function KeyErrorMessage(e: KeyError): string {
    match e
    case EmptyNamespace => "namespace cannot be empty"
    case EmptyName => "key cannot be empty"
  }

  const CacheInfix := ":cache:"

  /**
   * `namespace:cache:name`. An empty namespace is reported first, even when the name is
   * empty too.
   */
  function GetCacheKey(namespace: string, name: string): (r: Result<string, KeyError>)
    ensures namespace == "" ==> r == Failure(EmptyNamespace)
    ensures namespace != "" && name == "" ==> r == Failure(EmptyName)
    ensures namespace != "" && name != "" ==> r.Success?
    ensures r.Success? ==>
      && |r.value| == |namespace| + |CacheInfix| + |name|
      && r.value[..|namespace|] == namespace
      && r.value[|namespace|..|namespace| + |CacheInfix|] == CacheInfix
      && r.value[|namespace| + |CacheInfix|..] == name
  {
    if namespace == "" then Failure(EmptyNamespace)
    else if name == "" then Failure(EmptyName)
    else Success(namespace + CacheInfix + name)
  }

  /** Within one namespace, distinct names never share a key. */
  lemma GetCacheKeyInjective(namespace: string, a: string, b: string)
    requires GetCacheKey(namespace, a).Success? && GetCacheKey(namespace, b).Success?
    requires GetCacheKey(namespace, a).value == GetCacheKey(namespace, b).value
    ensures a == b
  {
    var k := GetCacheKey(namespace, a).value;
    assert a == k[|namespace| + |CacheInfix|..];
  }

  /** The opaque client `NewRedis` hands back, one shape per topology. */
  datatype Rediser =
    | ClusterClient(addrs: seq<string>, password: string)
    | SingleClient(client: Client)
    | FailoverClient(sentinelAddrs: seq<string>, password: string)
    | ReplicaService(pool: Replica.ReplicaRedis)

  /**
   * Why `NewRedis` refuses a configuration. `NilDereference` stands for the run-time panic
   * of reading through a nil Redis section or a nil sub-configuration.
   */
  datatype NewRedisError =
    | NoClusterAddress
    | NoSingleAddress
    | NoSentinelAddress
    | NoMasterAddress
    | NoSlaveAddress
    | UnsupportedType(redisType: Config.RedisType)
    | ReplicaServiceError(message: string)
    | NilDereference

  /**
   * Selects and opens the backend named by the topology tag. Cluster and Sentinel addresses
   * are formatted in order; a replica pool gets one connection per address. A configuration
   * that `Conf.Valid` accepts, with a Redis section, always yields a client.
   */
  method NewRedis(c: Config.Conf) returns (r: Result<Rediser, NewRedisError>)
    ensures c.redis.None? ==> r == Failure(NilDereference)
    ensures c.redis.Some? && c.redis.value.redisType == Config.Cluster ==>
      var cluster := c.redis.value.cluster;
      && (cluster.None? ==> r == Failure(NilDereference))
      && (cluster.Some? && |cluster.value.addrs| == 0 ==> r == Failure(NoClusterAddress))
      && (cluster.Some? && |cluster.value.addrs| > 0 ==>
            && r.Success? && r.value.ClusterClient?
            && FormattedFrom(r.value.addrs, cluster.value.addrs)
            && r.value.password == cluster.value.password)
    ensures c.redis.Some? && c.redis.value.redisType == Config.Single ==>
      var single := c.redis.value.singleInstance;
      && (single.None? ==> r == Failure(NilDereference))
      && (single.Some? && single.value.instance.addr == "" ==> r == Failure(NoSingleAddress))
      && (single.Some? && single.value.instance.addr != "" ==>
            r == Success(SingleClient(Client(FormatAddr(single.value.instance), single.value.password, LibraryDefaults))))
    ensures c.redis.Some? && c.redis.value.redisType == Config.Sentinel ==>
      var sentinel := c.redis.value.sentinel;
      && (sentinel.None? ==> r == Failure(NilDereference))
      && (sentinel.Some? && |sentinel.value.addrs| == 0 ==> r == Failure(NoSentinelAddress))
      && (sentinel.Some? && |sentinel.value.addrs| > 0 ==>
            && r.Success? && r.value.FailoverClient?
            && FormattedFrom(r.value.sentinelAddrs, sentinel.value.addrs)
            && r.value.password == sentinel.value.password)
    ensures c.redis.Some? && c.redis.value.redisType == Config.Replica ==>
      var replica := c.redis.value.replica;
      && (replica.None? ==> r == Failure(NilDereference))
      && (replica.Some? && |replica.value.masterAddrs| == 0 ==> r == Failure(NoMasterAddress))
      && (replica.Some? && |replica.value.masterAddrs| > 0 && |replica.value.slaveAddrs| == 0 ==>
            r == Failure(NoSlaveAddress))
      && (replica.Some? && |replica.value.masterAddrs| > 0 && |replica.value.slaveAddrs| > 0 ==>
            && r.Success? && r.value.ReplicaService?
            && Replica.OpenedFrom(r.value.pool.writers[..], replica.value.masterAddrs, replica.value.password)
            && Replica.OpenedFrom(r.value.pool.readers[..], replica.value.slaveAddrs, replica.value.password)
            && r.value.pool.writeCount == 0 && r.value.pool.readCount == 0)
    ensures c.redis.Some? && c.redis.value.redisType !in {Config.Cluster, Config.Single, Config.Sentinel, Config.Replica} ==>
      r == Failure(UnsupportedType(c.redis.value.redisType))
    ensures Config.Valid(c) && c.redis.Some? ==> r.Success?
  {
    if c.redis.None? {
      return Failure(NilDereference);
    }
    var redis := c.redis.value;
    if redis.redisType == Config.Cluster {
      if redis.cluster.None? {
        return Failure(NilDereference);
      }
      var cluster := redis.cluster.value;
      if |cluster.addrs| == 0 {
        return Failure(NoClusterAddress);
      }
      var addrs := FormatAddrs(cluster.addrs);
      r := Success(ClusterClient(addrs, cluster.password));
    } else if redis.redisType == Config.Single {
      if redis.singleInstance.None? {
        return Failure(NilDereference);
      }
      var single := redis.singleInstance.value;
      if single.instance.addr == "" {
        return Failure(NoSingleAddress);
      }
      var addr := FormatAddr(single.instance);
      r := Success(SingleClient(Client(addr, single.password, LibraryDefaults)));
    } else if redis.redisType == Config.Sentinel {
      if redis.sentinel.None? {
        return Failure(NilDereference);
      }
      var sentinel := redis.sentinel.value;
      if |sentinel.addrs| == 0 {
        return Failure(NoSentinelAddress);
      }
      var addrs := FormatAddrs(sentinel.addrs);
      r := Success(FailoverClient(addrs, sentinel.password));
    } else if redis.redisType == Config.Replica {
      if redis.replica.None? {
        return Failure(NilDereference);
      }
      var replica := redis.replica.value;
      if |replica.masterAddrs| == 0 {
        return Failure(NoMasterAddress);
      }
      if |replica.slaveAddrs| == 0 {
        return Failure(NoSlaveAddress);
      }
      var pool, err := Replica.NewReplicaRedisService(replica.masterAddrs, replica.slaveAddrs, replica.password);
      match err {
        case Some(e) => return Failure(ReplicaServiceError("Cannot create Replica type Redis service: " + e));
        case None =>
      }
      r := Success(ReplicaService(pool));
    } else {
      r := Failure(UnsupportedType(redis.redisType));
    }
  }

  /** A stored value and the TTL, in seconds, it was written with. */
  datatype Entry = Entry(value: HTTP, ttlSeconds: int)

  /** A failed read: a miss (`redis.Nil`) or any backend error. */
  datatype ReadError = Nil | BackendError

  /** `Get` on the backend, seen as a key-value map that is or is not reachable. */
  function Read(entries: map<string, Entry>, key: string, reachable: bool): (r: Result<HTTP, ReadError>)
    ensures !reachable ==> r == Failure(BackendError)
    ensures reachable ==> (r.Success? <==> key in entries)
    ensures reachable && key in entries ==> r.value == entries[key].value
    ensures reachable && key !in entries ==> r.error == Nil
  {
    if !reachable then Failure(BackendError)
    else if key in entries then Success(entries[key].value)
    else Failure(Nil)
  }

  /** The backend as the router writes to it: an abstract map from key to entry. */
  class Store {
    var entries: map<string, Entry>

    constructor ()
      ensures entries == map[]
    {
      entries := map[];
    }

    /** `Set`: unconditional upsert of one key; every other key keeps its entry. */
    method Set(key: string, value: HTTP, ttlSeconds: int)
      modifies this
      ensures entries == old(entries)[key := Entry(value, ttlSeconds)]
    {
      entries := entries[key := Entry(value, ttlSeconds)];
    }
  }
}
