/**
 * Connection handles and the `"%s:%d"` address strings they are opened with
 * (cache/cache.go and cache/redis.go both format addresses this way).
 */
module Clients {
  import Config

  predicate IsDigit(c: char) {
    '0' <= c <= '9'
  }

  predicate AllDigits(s: string) {
    forall i :: 0 <= i < |s| ==> IsDigit(s[i])
  }

  function DigitChar(d: nat): (c: char)
    requires d < 10
    ensures IsDigit(c) && c as int - '0' as int == d
  {
    (d + '0' as int) as char
  }

  /** Decimal notation of a natural number, most significant digit first, no leading zeros. */
  function Decimal(n: nat): (s: string)
    ensures |s| > 0 && AllDigits(s)
  {
    if n < 10 then [DigitChar(n)] else Decimal(n / 10) + [DigitChar(n % 10)]
  }

  /** The value a string of decimal digits denotes. */
  function DecimalValue(s: string): nat
    requires AllDigits(s)
  {
    if s == [] then 0
    else DecimalValue(s[..|s| - 1]) * 10 + (s[|s| - 1] as int - '0' as int)
  }

  lemma {:induction false} DecimalRoundTrip(n: nat)
    ensures DecimalValue(Decimal(n)) == n
  {
    var s := Decimal(n);
    if n >= 10 {
      DecimalRoundTrip(n / 10);
      assert s[..|s| - 1] == Decimal(n / 10);
    }
  }

  /** Go's `%d` verb on an `int`. */
  function FormatInt(i: int): (s: string)
    ensures |s| > 0
  {
    if i < 0 then "-" + Decimal(-i) else Decimal(i)
  }

  /** Reads back what `FormatInt` writes; any other string reads as 0. */
  function ParseInt(s: string): int {
    if |s| > 0 && s[0] == '-' && AllDigits(s[1..]) then -(DecimalValue(s[1..]) as int)
    else if AllDigits(s) then DecimalValue(s)
    else 0
  }

  lemma FormatIntRoundTrip(i: int)
    ensures ParseInt(FormatInt(i)) == i
  {
    if i < 0 {
      DecimalRoundTrip(-i);
      assert FormatInt(i)[1..] == Decimal(-i);
    } else {
      DecimalRoundTrip(i);
    }
  }

  /**
   * `fmt.Sprintf("%s:%d", a.Addr, a.Port)`: the host, a colon, then a number that reads back
   * as the port.
   */
  function FormatAddr(a: Config.RedisAddress): (s: string)
    ensures |s| > |a.addr| + 1 && s[..|a.addr|] == a.addr && s[|a.addr|] == ':'
    ensures ParseInt(s[|a.addr| + 1..]) == a.port
  {
    FormatIntRoundTrip(a.port);
    var s := a.addr + ":" + FormatInt(a.port);
    assert s[|a.addr| + 1..] == FormatInt(a.port);
    s
  }

  /** The pool settings of a go-redis client: the library's own defaults, or explicit ones. */
  datatype PoolOptions =
    | LibraryDefaults
    | Tuned(poolSize: int, maxRetries: int, dialTimeoutSeconds: int, idleTimeoutSeconds: int,
            readTimeoutSeconds: int, writeTimeoutSeconds: int)

  /** An opaque client handle: where it connects and how. */
  datatype Client = Client(addr: string, password: string, options: PoolOptions)

  /** The settings every replica-pool connection is opened with (cache/redis.go:57-62). */
  const ReplicaPoolOptions := Tuned(20, 0, 1, 10, 1, 1)

  /** `out` is `addrs` formatted one by one, same length, same order. */
  predicate FormattedFrom(out: seq<string>, addrs: seq<Config.RedisAddress>) {
    |out| == |addrs| && forall i :: 0 <= i < |out| ==> out[i] == FormatAddr(addrs[i])
  }

  /** The append loop that turns configured addresses into `host:port` strings. */
  method FormatAddrs(addrs: seq<Config.RedisAddress>) returns (out: seq<string>)
    ensures FormattedFrom(out, addrs)
  {
    out := [];
    for i := 0 to |addrs|
      invariant FormattedFrom(out, addrs[..i])
    {
      out := out + [FormatAddr(addrs[i])];
    }
    assert addrs[..|addrs|] == addrs;
  }
}
