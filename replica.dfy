/**
 * The manually sharded replica pool (cache/redis.go): writes go round-robin over the writer
 * connections. A read takes the read counter modulo the number of WRITERS and looks that
 * slot up among the reader connections (see `ReplicaRedis.Get`). Each direction has its own
 * 32-bit unsigned counter.
 */
module Replica {
  import opened Wrappers
  import Config
  import opened Clients

  const Uint32Modulus: nat := 0x1_0000_0000

  /** The value `atomic.AddUint32(&c, 1)` stores and returns: one more, wrapping at 2^32. */
  function Inc32(c: nat): (r: nat)
    requires c < Uint32Modulus
    ensures r < Uint32Modulus
    ensures c + 1 < Uint32Modulus ==> r == c + 1
    ensures c + 1 == Uint32Modulus ==> r == 0
  {
    (c + 1) % Uint32Modulus
  }

  /** The command a routing method forwards to the connection it picked. */
  datatype Command =
    | SetCmd(key: string, value: string, ttlSeconds: int)
    | SetXXCmd(key: string, value: string, ttlSeconds: int)
    | SetNXCmd(key: string, value: string, ttlSeconds: int)
    | GetCmd(key: string)
    | DelCmd(keys: seq<string>)

  /**
   * Where a call went: the slot and connection chosen, or the run-time panic Go raises
   * (an integer division by zero with no writers, an index past the readers).
   */
  datatype Routing =
    | Routed(index: nat, client: Client, cmd: Command)
    | DivideByZero
    | IndexOutOfRange(index: nat)

  /** The slot a read lands on for a given post-increment counter, as the source computes it. */
  function ReadSlot(count: nat, writerCount: nat): nat
    requires writerCount > 0
  {
    count % writerCount
  }

  class ReplicaRedis {
    var writeCount: nat
    var readCount: nat
    const writers: array<Client>
    const readers: array<Client>

    /** The counters hold `uint32` values. */
    ghost predicate Valid()
      reads this
    {
      writeCount < Uint32Modulus && readCount < Uint32Modulus
    }

    /** `replicaTypeRedis{}` with its two slices filled in: both counters start at zero. */
    constructor (writers: array<Client>, readers: array<Client>)
      ensures Valid()
      ensures this.writers == writers && this.readers == readers
      ensures writeCount == 0 && readCount == 0
    {
      this.writers := writers;
      this.readers := readers;
      writeCount, readCount := 0, 0;
    }

    /** The shared step of every write-class call: bump the write counter, pick a writer. */
    method RouteWrite(cmd: Command) returns (r: Routing)
      requires Valid()
      modifies this
      ensures Valid()
      ensures writeCount == Inc32(old(writeCount)) && readCount == old(readCount)
      ensures writers.Length == 0 ==> r == DivideByZero
      ensures writers.Length > 0 ==>
        r == Routed(writeCount % writers.Length, writers[writeCount % writers.Length], cmd)
      ensures writers[..] == old(writers[..]) && readers[..] == old(readers[..])
    {
      writeCount := Inc32(writeCount);
      if writers.Length == 0 {
        return DivideByZero;
      }
      var i := writeCount % writers.Length;
      r := Routed(i, writers[i], cmd);
    }

    method Set(key: string, value: string, ttl: int) returns (r: Routing)
      requires Valid()
      modifies this
      ensures Valid()
      ensures writeCount == Inc32(old(writeCount)) && readCount == old(readCount)
      ensures writers.Length == 0 ==> r == DivideByZero
      ensures writers.Length > 0 ==>
        r == Routed(writeCount % writers.Length, writers[writeCount % writers.Length], SetCmd(key, value, ttl))
      ensures writers[..] == old(writers[..]) && readers[..] == old(readers[..])
    {
      r := RouteWrite(SetCmd(key, value, ttl));
    }

    method SetXX(key: string, value: string, ttl: int) returns (r: Routing)
      requires Valid()
      modifies this
      ensures Valid()
      ensures writeCount == Inc32(old(writeCount)) && readCount == old(readCount)
      ensures writers.Length == 0 ==> r == DivideByZero
      ensures writers.Length > 0 ==>
        r == Routed(writeCount % writers.Length, writers[writeCount % writers.Length], SetXXCmd(key, value, ttl))
      ensures writers[..] == old(writers[..]) && readers[..] == old(readers[..])
    {
      r := RouteWrite(SetXXCmd(key, value, ttl));
    }

    method SetNX(key: string, value: string, ttl: int) returns (r: Routing)
      requires Valid()
      modifies this
      ensures Valid()
      ensures writeCount == Inc32(old(writeCount)) && readCount == old(readCount)
      ensures writers.Length == 0 ==> r == DivideByZero
      ensures writers.Length > 0 ==>
        r == Routed(writeCount % writers.Length, writers[writeCount % writers.Length], SetNXCmd(key, value, ttl))
      ensures writers[..] == old(writers[..]) && readers[..] == old(readers[..])
    {
      r := RouteWrite(SetNXCmd(key, value, ttl));
    }

    method Del(keys: seq<string>) returns (r: Routing)
      requires Valid()
      modifies this
      ensures Valid()
      ensures writeCount == Inc32(old(writeCount)) && readCount == old(readCount)
      ensures writers.Length == 0 ==> r == DivideByZero
      ensures writers.Length > 0 ==>
        r == Routed(writeCount % writers.Length, writers[writeCount % writers.Length], DelCmd(keys))
      ensures writers[..] == old(writers[..]) && readers[..] == old(readers[..])
    {
      r := RouteWrite(DelCmd(keys));
    }

    /**
     * A read as the source writes it: the slot is the read counter modulo the number of
     * WRITERS, and that slot is then looked up among the readers.
     */
    method Get(key: string) returns (r: Routing)
      requires Valid()
      modifies this
      ensures Valid()
      ensures readCount == Inc32(old(readCount)) && writeCount == old(writeCount)
      ensures writers.Length == 0 ==> r == DivideByZero
      ensures writers.Length > 0 && ReadSlot(readCount, writers.Length) < readers.Length ==>
        r == Routed(ReadSlot(readCount, writers.Length), readers[ReadSlot(readCount, writers.Length)], GetCmd(key))
      ensures writers.Length > 0 && ReadSlot(readCount, writers.Length) >= readers.Length ==>
        r == IndexOutOfRange(ReadSlot(readCount, writers.Length))
      ensures writers[..] == old(writers[..]) && readers[..] == old(readers[..])
    {
      readCount := Inc32(readCount);
      if writers.Length == 0 {
        return DivideByZero;
      }
      var i := readCount % writers.Length;
      if i >= readers.Length {
        return IndexOutOfRange(i);
      }
      r := Routed(i, readers[i], GetCmd(key));
    }

    /**
     * The read the round-robin design calls for: the read counter modulo the number of
     * readers, so every slot exists whenever there is a reader at all.
     */
    method GetFromReaders(key: string) returns (r: Routing)
      requires Valid()
      modifies this
      ensures Valid()
      ensures readCount == Inc32(old(readCount)) && writeCount == old(writeCount)
      ensures readers.Length == 0 ==> r == DivideByZero
      ensures readers.Length > 0 ==>
        r == Routed(readCount % readers.Length, readers[readCount % readers.Length], GetCmd(key))
      ensures writers[..] == old(writers[..]) && readers[..] == old(readers[..])
    {
      readCount := Inc32(readCount);
      if readers.Length == 0 {
        return DivideByZero;
      }
      var i := readCount % readers.Length;
      r := Routed(i, readers[i], GetCmd(key));
    }
  }

  /** The slots hit by `k` successive write-class calls on a pool whose write counter is `c`. */
  function WriteSlots(c: nat, k: nat, writerCount: nat): seq<nat>
    requires c < Uint32Modulus && writerCount > 0
    decreases k
  {
    if k == 0 then [] else [Inc32(c) % writerCount] + WriteSlots(Inc32(c), k - 1, writerCount)
  }

  /** Before the counter wraps, the j-th call after counter value `c` lands on `(c + j + 1) % n`. */
  lemma {:induction false} WriteSlotsFrom(c: nat, k: nat, writerCount: nat)
    requires writerCount > 0 && c + k < Uint32Modulus
    decreases k
    ensures |WriteSlots(c, k, writerCount)| == k
    ensures forall j :: 0 <= j < k ==> WriteSlots(c, k, writerCount)[j] == (c + j + 1) % writerCount
  {
    if k > 0 {
      WriteSlotsFrom(c + 1, k - 1, writerCount);
    }
  }

  /**
   * Round-robin from a fresh pool: the k-th write (counting from 1) goes to writer
   * `k % len(writers)`.
   */
  lemma WritesCycleFromFreshPool(k: nat, writerCount: nat)
    requires writerCount > 0 && k < Uint32Modulus
    ensures |WriteSlots(0, k, writerCount)| == k
    ensures forall j :: 0 <= j < k ==> WriteSlots(0, k, writerCount)[j] == (j + 1) % writerCount
  {
    WriteSlotsFrom(0, k, writerCount);
  }

  /**
   * `k` successive `Set` calls on one pool: the writers they are routed to are exactly the
   * slots `WriteSlots` predicts from the counter the pool started with.
   */
  method SetRepeatedly(pool: ReplicaRedis, k: nat, key: string, value: string, ttl: int) returns (slots: seq<nat>)
    requires pool.Valid() && pool.writers.Length > 0
    modifies pool
    ensures pool.Valid()
    ensures slots == WriteSlots(old(pool.writeCount), k, pool.writers.Length)
    ensures pool.readCount == old(pool.readCount)
  {
    ghost var c0 := pool.writeCount;
    var n := pool.writers.Length;
    slots := [];
    for i := 0 to k
      invariant pool.Valid() && pool.readCount == old(pool.readCount)
      invariant slots + WriteSlots(pool.writeCount, k - i, n) == WriteSlots(c0, k, n)
    {
      ghost var before := pool.writeCount;
      var r := pool.Set(key, value, ttl);
      match r {
        case Routed(index, _, _) =>
          assert WriteSlots(before, k - i, n) == [index] + WriteSlots(pool.writeCount, k - i - 1, n);
          assert slots + [index] + WriteSlots(pool.writeCount, k - i - 1, n)
              == slots + ([index] + WriteSlots(pool.writeCount, k - i - 1, n));
          slots := slots + [index];
      }
    }
  }

  /**
   * Reads as the source computes them stay inside the reader list for every counter value
   * exactly when there are at least as many readers as writers.
   */
  lemma ReadSlotsInBoundsIff(writerCount: nat, readerCount: nat)
    requires 0 < writerCount <= Uint32Modulus
    ensures (forall c :: 0 <= c < Uint32Modulus ==> ReadSlot(c, writerCount) < readerCount)
            <==> readerCount >= writerCount
  {
    if readerCount < writerCount {
      assert ReadSlot(writerCount - 1, writerCount) == writerCount - 1;
    }
  }

  /** Two writers and one reader: the very first read already indexes past the readers. */
  method ReadPastReadersWitness() returns (r: Routing)
    ensures r == IndexOutOfRange(1)
  {
    var writers := new Client[2];
    var readers := new Client[1];
    var pool := new ReplicaRedis(writers, readers);
    r := pool.Get("key");
  }

  /** With the reader-count modulus the same pool serves that read from its only reader. */
  method ReadFromReadersWitness() returns (r: Routing)
    ensures r.Routed? && r.index == 0
  {
    var writers := new Client[2];
    var readers := new Client[1];
    var pool := new ReplicaRedis(writers, readers);
    r := pool.GetFromReaders("key");
  }

  /** The connection a replica-pool address is opened as. */
  function PoolClient(a: Config.RedisAddress, password: string): Client {
    Client(FormatAddr(a), password, ReplicaPoolOptions)
  }

  /** `clients` holds one pool connection per address, in the configured order. */
  ghost predicate OpenedFrom(clients: seq<Client>, addrs: seq<Config.RedisAddress>, password: string) {
    |clients| == |addrs| && forall i :: 0 <= i < |clients| ==> clients[i] == PoolClient(addrs[i], password)
  }

  /** One of the two append loops of `NewReplicaRedisService`. */
  method OpenClients(addrs: seq<Config.RedisAddress>, password: string) returns (clients: array<Client>)
    ensures fresh(clients)
    ensures OpenedFrom(clients[..], addrs, password)
  {
    clients := new Client[|addrs|];
    for i := 0 to |addrs|
      invariant forall j :: 0 <= j < i ==> clients[j] == PoolClient(addrs[j], password)
    {
      clients[i] := PoolClient(addrs[i], password);
    }
  }

  /**
   * Opens one writer per master address and one reader per slave address, in order, with
   * both counters at zero. It reports no error, even for empty address lists.
   */
  method NewReplicaRedisService(masterAddrs: seq<Config.RedisAddress>, slaveAddrs: seq<Config.RedisAddress>,
                                password: string)
    returns (pool: ReplicaRedis, err: Option<string>)
    ensures fresh(pool) && pool.Valid()
    ensures OpenedFrom(pool.writers[..], masterAddrs, password)
    ensures OpenedFrom(pool.readers[..], slaveAddrs, password)
    ensures pool.writeCount == 0 && pool.readCount == 0
    ensures err == None
  {
    var writers := OpenClients(masterAddrs, password);
    var readers := OpenClients(slaveAddrs, password);
    pool := new ReplicaRedis(writers, readers);
    err := None;
  }
}
