/**
  The shared resources of the simulator: a bounded stack of RADIUS clients
  reused between exchanges, a cache of network interfaces looked up by
  name, and a token bucket that admits a fixed number of requests per
  second. Locks are left out (every operation here runs as one step); the
  bucket's channel is its token count and its timer-driven refill is an
  explicit tick.
 */
module Pools {
  import opened Base
  import opened Net

  /** The settings of a `radius.Client` the pool chooses. */
  class RadiusClient {
    var retry: int
    var maxPacketErrors: int

    constructor (retry: int, maxPacketErrors: int)
      ensures this.retry == retry && this.maxPacketErrors == maxPacketErrors
    {
      this.retry := retry;
      this.maxPacketErrors := maxPacketErrors;
    }
  }

  /** `RADIUSClientPool`: idle clients, the most recently returned last. */
  class RadiusClientPool {
    var clients: seq<RadiusClient>
    const maxSize: int
    /** Carried for the clients' exchanges; no operation here reads it. */
    const timeout: int

    /** The pool never holds more than `maxSize` clients. */
    ghost predicate Valid()
      reads this
    {
      |clients| <= maxSize
    }

    /** NewRADIUSClientPool: an empty pool (`make` rejects a negative capacity). */
    constructor (maxSize: int, timeout: int)
      requires maxSize >= 0
      ensures Valid()
      ensures clients == [] && this.maxSize == maxSize && this.timeout == timeout
    {
      clients := [];
      this.maxSize := maxSize;
      this.timeout := timeout;
    }

    /**
      Get pops the most recently returned client; on an empty pool it makes
      a new client with Retry 3 and MaxPacketErrors 2 and the pool stays empty.
     */
    method Get() returns (client: RadiusClient)
      requires Valid()
      modifies this
      ensures Valid()
      ensures old(clients) != [] ==> client == old(clients)[|old(clients)| - 1] && clients == old(clients)[..|old(clients)| - 1]
      ensures old(clients) == [] ==> fresh(client) && client.retry == 3 && client.maxPacketErrors == 2 && clients == []
    {
      if |clients| > 0 {
        client := clients[|clients| - 1];
        clients := clients[..|clients| - 1];
        return;
      }
      client := new RadiusClient(3, 2);
    }

    /** Put pushes a client back unless it is nil or the pool is full. */
    method Put(client: RadiusClient?)
      requires Valid()
      modifies this
      ensures Valid()
      ensures client == null || |old(clients)| >= maxSize ==> clients == old(clients)
      ensures client != null && |old(clients)| < maxSize ==> clients == old(clients) + [client]
    {
      if client == null {
        return;
      }
      if |clients| < maxSize {
        clients := clients + [client];
      }
    }
  }

  /**
    A client put back into a pool with room is the one the next Get hands
    out, and the pool is as it was before.
   */
  method PutThenGet(pool: RadiusClientPool, client: RadiusClient) returns (got: RadiusClient)
    requires pool.Valid() && |pool.clients| < pool.maxSize
    modifies pool
    ensures pool.Valid()
    ensures got == client && pool.clients == old(pool.clients)
  {
    pool.Put(client);
    got := pool.Get();
  }

  /** The error `net.InterfaceByName` reports. */
  datatype LookupError = NoSuchInterface(name: string)

  /** `NetworkInterface`: interfaces already looked up, by name. */
  class NetworkInterface {
    var interfaces: map<string, NetInterface>

    constructor ()
      ensures interfaces == map[]
    {
      interfaces := map[];
    }

    /**
      GetInterface answers from the cache when it can, whatever the lookup
      would say; otherwise it looks the name up (`lookup` stands for
      `net.InterfaceByName`) and caches a success, leaving the cache
      unchanged on a failure.
     */
    method GetInterface(name: string, lookup: string -> Option<NetInterface>) returns (r: Result<NetInterface, LookupError>)
      modifies this
      ensures name in old(interfaces) ==> r == Ok(old(interfaces)[name]) && interfaces == old(interfaces)
      ensures name !in old(interfaces) && lookup(name).Some? ==>
        r == Ok(lookup(name).value) && interfaces == old(interfaces)[name := lookup(name).value]
      ensures name !in old(interfaces) && lookup(name).None? ==>
        r == Err(NoSuchInterface(name)) && interfaces == old(interfaces)
    {
      if name in interfaces {
        return Ok(interfaces[name]);
      }
      var found := lookup(name);
      if found.None? {
        return Err(NoSuchInterface(name));
      }
      interfaces := interfaces[name := found.value];
      return Ok(found.value);
    }

    method ClearCache()
      modifies this
      ensures interfaces == map[]
    {
      interfaces := map[];
    }
  }

  /**
    `RateLimiter`: a bucket of at most `capacity` tokens, refilled one per
    `rate` nanoseconds until it is closed.
   */
  class RateLimiter {
    /** The tokens buffered in the channel. */
    var tokens: nat
    /** The channel's buffer size, the requests allowed per second. */
    const capacity: nat
    /** The refill period in nanoseconds. */
    const rate: int
    /** Whether the context was cancelled by Close. */
    var cancelled: bool

    ghost predicate Valid()
      reads this
    {
      tokens <= capacity
    }

    /**
      NewRateLimiter: a full bucket and a refill period of one second over
      `requestsPerSecond`, truncated to whole nanoseconds. A count that is
      not positive makes Go panic (a negative channel size, a division by
      zero), and so does a count above one billion: the period truncates to
      zero and the refill goroutine's `time.NewTicker` panics on it. Both
      are required away.
     */
    constructor (requestsPerSecond: int)
      requires 0 < requestsPerSecond <= Second
      ensures Valid()
      ensures capacity == requestsPerSecond && tokens == capacity && !cancelled
      ensures rate == Quo(Second, requestsPerSecond) && rate * requestsPerSecond <= Second
      ensures rate >= 1
    {
      capacity := requestsPerSecond;
      rate := Second / requestsPerSecond;
      tokens := 0;
      cancelled := false;
      new;
      var i := 0;
      while i < requestsPerSecond
        invariant 0 <= i <= requestsPerSecond
        invariant tokens == i && capacity == requestsPerSecond && !cancelled
        invariant rate == Second / requestsPerSecond
      {
        tokens := tokens + 1;
        i := i + 1;
      }
    }

    /** TryWait takes a token when there is one, without blocking. */
    method TryWait() returns (ok: bool)
      requires Valid()
      modifies this
      ensures Valid()
      ensures ok <==> old(tokens) > 0
      ensures tokens == (if ok then old(tokens) - 1 else old(tokens))
      ensures cancelled == old(cancelled)
    {
      if tokens > 0 {
        tokens := tokens - 1;
        return true;
      }
      return false;
    }

    /**
      One tick of `refillTokens`: a token is added unless the bucket is full;
      once the limiter is closed, ticks add nothing.
     */
    method RefillTick()
      requires Valid()
      modifies this
      ensures Valid()
      ensures tokens == (if !old(cancelled) && old(tokens) < capacity then old(tokens) + 1 else old(tokens))
      ensures cancelled == old(cancelled)
    {
      if cancelled {
        return;
      }
      if tokens < capacity {
        tokens := tokens + 1;
      }
    }

    /** Close cancels the context, which stops the refills. */
    method Close()
      modifies this
      ensures cancelled && tokens == old(tokens)
    {
      cancelled := true;
    }
  }

  /**
    A new limiter for `n` requests per second admits exactly `n` TryWait
    calls in a row; the next one is refused.
   */
  method FreshLimiterAdmitsExactly(n: int) returns (results: seq<bool>)
    requires 0 < n <= Second
    ensures |results| == n + 1
    ensures forall i | 0 <= i < n :: results[i]
    ensures !results[n]
  {
    var limiter := new RateLimiter(n);
    results := [];
    var i := 0;
    while i <= n
      invariant 0 <= i <= n + 1
      invariant limiter.Valid() && limiter.capacity == n
      invariant limiter.tokens == if i <= n then n - i else 0
      invariant |results| == i
      invariant forall j | 0 <= j < i && j < n :: results[j]
      invariant i == n + 1 ==> !results[n]
    {
      var ok := limiter.TryWait();
      results := results + [ok];
      i := i + 1;
    }
  }

  /**
    After a closed limiter has been emptied, no number of ticks gives it a
    token back.
   */
  method ClosedLimiterStaysEmpty(n: int, ticks: nat) returns (ok: bool)
    requires 0 < n <= Second
    ensures !ok
  {
    var limiter := new RateLimiter(n);
    limiter.Close();
    var i := 0;
    while i < n
      invariant 0 <= i <= n
      invariant limiter.Valid() && limiter.cancelled && limiter.tokens == n - i
    {
      var _ := limiter.TryWait();
      i := i + 1;
    }
    i := 0;
    while i < ticks
      invariant limiter.Valid() && limiter.cancelled && limiter.tokens == 0
    {
      limiter.RefillTick();
      i := i + 1;
    }
    ok := limiter.TryWait();
  }

  /**
    An open limiter that has been emptied gets exactly one token from a
    tick: one TryWait succeeds again, the next does not.
   */
  method RefillAfterExhaustion(n: int) returns (first: bool, second: bool)
    requires 0 < n <= Second
    ensures first && !second
  {
    var limiter := new RateLimiter(n);
    var i := 0;
    while i < n
      invariant 0 <= i <= n
      invariant limiter.Valid() && limiter.capacity == n && !limiter.cancelled && limiter.tokens == n - i
    {
      var _ := limiter.TryWait();
      i := i + 1;
    }
    limiter.RefillTick();
    first := limiter.TryWait();
    second := limiter.TryWait();
  }
}
