/**
 * `TVGuideAPIClient.fetch_listings`: cache first, fail fast in cache-only
 * mode, then up to `max_retries + 1` HTTP attempts with exponential backoff,
 * writing a successful listing back to the cache.
 *
 * The HTTP layer is the parameter `net`: what attempt `i` yields.  The
 * clock is `now`, and `time.sleep` is recorded as the list of waits.
 */
module Client {
  import opened Wrappers
  import opened Listings
  import opened Cache

  /** What one HTTP attempt yields. */
  datatype HttpOutcome =
    | Transport             // a `requests.RequestException`: connection, timeout or HTTP status error
    | BadJson               // a response body that is not JSON
    | NotList               // JSON that is not an array
    | Listing(data: seq<Channel>)

  type Network = nat -> HttpOutcome

  /** `2 ** i`. */
  function Pow2(i: nat): (p: nat)
    ensures p >= 1 && p > i
  {
    if i == 0 then 1 else 2 * Pow2(i - 1)
  }

  /** The sleeps `2**i` for `i` from `from` on, `n` of them. */
  function Backoff(from: nat, n: nat): (w: seq<int>) {
    seq(n, j requires 0 <= j < n => Pow2(from + j))
  }

  /** With the default three retries the sleeps are 1, 2 and 4 seconds, as the loop's comment says. */
  lemma DefaultBackoff()
    ensures Backoff(0, 3) == [1, 2, 4]
  {
    assert Pow2(1) == 2 && Pow2(2) == 4;
  }

  /** Each sleep is twice the one before it. */
  lemma BackoffDoubles(from: nat, n: nat, j: nat)
    requires j + 1 < n
    ensures Backoff(from, n)[j + 1] == 2 * Backoff(from, n)[j]
  {
    var k := from + j + 1;
    assert Backoff(from, n)[j + 1] == Pow2(k) && Backoff(from, n)[j] == Pow2(k - 1);
  }

  /** The outcome of a fetch: what it returns or raises, how many requests it made, its sleeps, and what it writes to the cache. */
  datatype Fetched = Fetched(result: Result<seq<Channel>, Err>, attempts: nat, waits: seq<int>, saved: Option<seq<Channel>>)

  /**
   * The retry loop from attempt `i` on: at least one and at most the
   * remaining allowed attempts, one sleep fewer than attempts, and a listing
   * saved exactly when one is returned.
   */
  function RetryFrom(net: Network, maxRetries: int, i: nat): (f: Fetched)
    ensures i <= maxRetries ==> i + 1 <= f.attempts <= maxRetries + 1 && |f.waits| == f.attempts - 1 - i
    ensures i > maxRetries ==> f.attempts == i && f.waits == []
    ensures f.result.Success? <==> f.saved.Some?
    ensures f.saved.Some? ==> f.result == Success(f.saved.value)
    decreases if i <= maxRetries then maxRetries + 1 - i else 0
  {
    if i > maxRetries then Fetched(Failure(FetchFailed(maxRetries + 1)), i, [], None)
    else match net(i)
      case Transport =>
        var rest := RetryFrom(net, maxRetries, i + 1);
        if i < maxRetries then rest.(waits := [Pow2(i)] + rest.waits) else rest
      case BadJson => Fetched(Failure(InvalidJson), i + 1, [], None)
      case NotList => Fetched(Failure(NotAList), i + 1, [], None)
      case Listing(data) => Fetched(Success(data), i + 1, [], Some(data))
  }

  /**
   * `fetch_listings`, given what the cache holds for the request (if it is
   * consulted): a hit is returned without a request; otherwise the retry
   * loop decides, and its listing is written back only when the cache is on.
   */
  function FetchSpec(cached: Option<seq<Channel>>, useCache: bool, cacheOnly: bool, key: string, net: Network, maxRetries: int): (f: Fetched)
    ensures useCache && cached.Some? ==> f.result == Success(cached.value) && f.attempts == 0 && f.saved == None
    ensures f.saved.Some? ==> useCache && f.result == Success(f.saved.value) && f.attempts > 0
    ensures f.result.Success? && f.attempts > 0 ==> useCache == f.saved.Some?
  {
    if useCache && cached.Some? then Fetched(Success(cached.value), 0, [], None)
    else if cacheOnly then Fetched(Failure(CacheMiss(key)), 0, [], None)
    else
      var f := RetryFrom(net, maxRetries, 0);
      if useCache then f else f.(saved := None)
  }

  /** What a non-transport outcome makes `fetch_listings` return or raise. */
  function Answer(o: HttpOutcome): (r: Result<seq<Channel>, Err>)
    requires !o.Transport?
    ensures r.Success? <==> o.Listing?
  {
    match o
    case BadJson => Failure(InvalidJson)
    case NotList => Failure(NotAList)
    case Listing(data) => Success(data)
  }

  /**
   * The shape of every run of the loop from attempt `i`: it stops at the
   * first answer that is not a transport failure, or after the last allowed
   * attempt; it sleeps `2**j` after each failed attempt `j` except the last
   * allowed one; it saves exactly the listing it returns.
   */
  lemma {:induction false} RetryShape(net: Network, maxRetries: int, i: nat)
    ensures var f := RetryFrom(net, maxRetries, i);
      && (i <= maxRetries ==> i + 1 <= f.attempts <= maxRetries + 1)
      && (i > maxRetries ==> f.attempts == i)
      && f.waits == (if i <= maxRetries then Backoff(i, f.attempts - 1 - i) else [])
      && (forall j :: i <= j < f.attempts - 1 ==> net(j).Transport?)
      && (f.result.Success? <==> f.saved.Some?)
      && (f.result.Failure? ==> f.result.error in {InvalidJson, NotAList, FetchFailed(maxRetries + 1)})
      && (f.saved.Some? ==> f.result.value == f.saved.value && net(f.attempts - 1) == Listing(f.saved.value))
    decreases if i <= maxRetries then maxRetries + 1 - i else 0
  {
    if i <= maxRetries && net(i).Transport? {
      RetryShape(net, maxRetries, i + 1);
    }
  }

  /** When attempts `i .. k-1` fail in transport and attempt `k` answers, that answer decides the fetch. */
  lemma {:induction false} RetryFirstAnswer(net: Network, maxRetries: int, i: nat, k: nat)
    requires i <= k <= maxRetries
    requires forall j :: i <= j < k ==> net(j).Transport?
    requires !net(k).Transport?
    ensures var f := RetryFrom(net, maxRetries, i);
      f.result == Answer(net(k)) && f.attempts == k + 1 && f.waits == Backoff(i, k - i)
    decreases k - i
  {
    if i < k {
      RetryFirstAnswer(net, maxRetries, i + 1, k);
    }
  }

  /** When every allowed attempt fails in transport, the fetch raises after `max_retries + 1` attempts with `max_retries` sleeps. */
  lemma {:induction false} RetryAllTransport(net: Network, maxRetries: int, i: nat)
    requires forall j :: i <= j <= maxRetries ==> net(j).Transport?
    ensures var f := RetryFrom(net, maxRetries, i);
      && f.result == Failure(FetchFailed(maxRetries + 1)) && f.saved == None
      && f.attempts == (if i <= maxRetries then maxRetries + 1 else i)
      && f.waits == (if i <= maxRetries then Backoff(i, maxRetries - i) else [])
    decreases if i <= maxRetries then maxRetries + 1 - i else 0
  {
    if i <= maxRetries {
      RetryAllTransport(net, maxRetries, i + 1);
    }
  }

  /**
   * The policy of `fetch_listings` as a whole: the network is used only on a
   * cache miss outside cache-only mode, at most `max_retries + 1` times, with
   * one doubling sleep between consecutive attempts and none after the last;
   * only a listing fetched with the cache enabled is written back.
   */
  lemma FetchPolicy(cached: Option<seq<Channel>>, useCache: bool, cacheOnly: bool, key: string, net: Network, maxRetries: int)
    ensures var f := FetchSpec(cached, useCache, cacheOnly, key, net, maxRetries);
      && (f.attempts > 0 <==> !(useCache && cached.Some?) && !cacheOnly && maxRetries >= 0)
      && f.attempts <= (if maxRetries < 0 then 0 else maxRetries + 1)
      && f.waits == Backoff(0, if f.attempts == 0 then 0 else f.attempts - 1)
      && (f.saved.Some? <==> useCache && f.attempts > 0 && f.result.Success?)
      && (f.saved.Some? ==> f.result == Success(f.saved.value))
      && (f.result.Success? && f.attempts > 0 ==> net(f.attempts - 1) == Listing(f.result.value))
      && (f.result == Failure(CacheMiss(key)) <==> cacheOnly && !(useCache && cached.Some?))
  {
    RetryShape(net, maxRetries, 0);
  }

  /** The attempt loop of `fetch_listings`. */
  method Retry(net: Network, maxRetries: int) returns (f: Fetched)
    ensures f == RetryFrom(net, maxRetries, 0)
  {
    var waits: seq<int> := [];
    var attempt: nat := 0;
    while attempt < maxRetries + 1
      invariant maxRetries >= 0 ==> attempt <= maxRetries + 1
      invariant maxRetries < 0 ==> attempt == 0
      invariant RetryFrom(net, maxRetries, 0) ==
        RetryFrom(net, maxRetries, attempt).(waits := waits + RetryFrom(net, maxRetries, attempt).waits)
      decreases maxRetries + 1 - attempt
    {
      match net(attempt)
      case BadJson =>
        return Fetched(Failure(InvalidJson), attempt + 1, waits, None);
      case NotList =>
        return Fetched(Failure(NotAList), attempt + 1, waits, None);
      case Listing(data) =>
        return Fetched(Success(data), attempt + 1, waits, Some(data));
      case Transport =>
        ghost var next := RetryFrom(net, maxRetries, attempt + 1);
        ghost var here := RetryFrom(net, maxRetries, attempt);
        if attempt < maxRetries {
          assert here == next.(waits := [Pow2(attempt)] + next.waits);
          assert waits + here.waits == (waits + [Pow2(attempt)]) + next.waits;
          waits := waits + [Pow2(attempt)];
        } else {
          assert here == next;
        }
      attempt := attempt + 1;
    }
    return Fetched(Failure(FetchFailed(maxRetries + 1)), attempt, waits, None);
  }

  class ApiClient {
    const cache: CacheManager

    constructor(cacheDir: string, existing: map<string, CacheEntry>)
      ensures fresh(cache) && cache.cacheDir == cacheDir && cache.files == existing
    {
      cache := new CacheManager(cacheDir, existing);
    }

    /** `fetch_listings`; `writeOk` says whether writing the cache file succeeds. */
    method FetchListings(platform: string, region: string, date: string, hour: int, maxRetries: int,
                         useCache: bool, ttl: int, cacheOnly: bool, now: int, net: Network, writeOk: bool)
      returns (r: Result<seq<Channel>, Err>, attempts: nat, waits: seq<int>)
      modifies cache
      ensures var file := FileName(cache.cacheDir, platform, region, date, hour);
        var f := FetchSpec(Lookup(old(cache.files), file, ttl, now), useCache, cacheOnly,
                           CacheKey(platform, region, date, hour), net, maxRetries);
        && r == f.result && attempts == f.attempts && waits == f.waits
        && cache.files == if f.saved.Some? && writeOk then Store(old(cache.files), file, f.saved.value, now) else old(cache.files)
      ensures cache.cacheDir == old(cache.cacheDir)
    {
      if useCache {
        var cached := cache.GetCachedData(platform, region, date, hour, ttl, now);
        if cached.Some? {
          return Success(cached.value), 0, [];
        }
      }
      if cacheOnly {
        return Failure(CacheMiss(CacheKey(platform, region, date, hour))), 0, [];
      }
      var f := Retry(net, maxRetries);
      if useCache && f.saved.Some? {
        cache.SaveCachedData(platform, region, date, hour, f.saved.value, now, writeOk);
      }
      return f.result, f.attempts, f.waits;
    }
  }
}
