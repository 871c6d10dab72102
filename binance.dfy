/**
 * The Bitcoin price cache: a price fetched less than two minutes ago is
 * served from the cache, otherwise a request already in flight is shared, and
 * only when there is none is a new request made. The price itself is opaque
 * here (`Price`), and the clock is the parameter `now`, in milliseconds.
 */
module Binance {
  import opened Wrappers

  /** How long a fetched price is served, in milliseconds. */
  const CacheExpiryMs: int := 120000

  /** How long after a fetch completes its request is still shared, in milliseconds. */
  const RequestSlotMs: int := 1000

  datatype CachedPrice<Price> = CachedPrice(price: Price, timestamp: int)

  /** What `getBitcoinPrice` hands back: the cached price, the request in flight, or a new request. */
  datatype PriceAnswer<Price> = CacheHit(price: Price) | ReuseRequest | NewRequest

  /** A cached price is served while less than `CacheExpiryMs` has passed since it was stored. */
  predicate Fresh<Price>(cache: Option<CachedPrice<Price>>, now: int)
    ensures Fresh(cache, now) ==> cache.Some?
    ensures cache.Some? ==> (Fresh(cache, now) <==> now < cache.value.timestamp + CacheExpiryMs)
  {
    cache.Some? && now - cache.value.timestamp < CacheExpiryMs
  }

  /** `Math.round(ms / 1000)` for a whole number of milliseconds `ms > 0`: halves round up. */
  function RoundSeconds(ms: int): (s: int)
    requires ms > 0
    ensures s >= 0
    ensures 1000 * s - 500 <= ms < 1000 * s + 500
  {
    (ms + 500) / 1000
  }

  class BinanceService<Price> {
    var cache: Option<CachedPrice<Price>>
    /** Whether a request is in flight or was completed less than `RequestSlotMs` ago. */
    var inFlight: bool

    constructor()
      ensures cache.None? && !inFlight
    {
      cache := None;
      inFlight := false;
    }

    /**
     * The price a caller receives at time `now`: the cached price while it is
     * fresh, else the request in flight, else a new request, which then holds
     * the slot.
     */
    method GetBitcoinPrice(now: int) returns (answer: PriceAnswer<Price>)
      modifies this`inFlight
      ensures Fresh(cache, now) <==> answer.CacheHit?
      ensures answer.CacheHit? ==> answer.price == cache.value.price && inFlight == old(inFlight)
      ensures !Fresh(cache, now) && old(inFlight) ==> answer.ReuseRequest? && inFlight
      ensures !Fresh(cache, now) && !old(inFlight) ==> answer.NewRequest? && inFlight
    {
      if cache.Some? && now - cache.value.timestamp < CacheExpiryMs {
        return CacheHit(cache.value.price);
      }
      if inFlight {
        return ReuseRequest;
      }
      inFlight := true;
      answer := NewRequest;
    }

    /** The request answered with `price` at time `now`: that price is cached from `now`. */
    method FetchCompleted(price: Price, now: int)
      modifies this`cache
      ensures cache == Some(CachedPrice(price, now))
    {
      cache := Some(CachedPrice(price, now));
    }

    /**
     * The slot timer set when a fetch completes: it frees the slot, whichever
     * request holds it by then.
     */
    method RequestSlotTimerFired()
      modifies this`inFlight
      ensures !inFlight
    {
      inFlight := false;
    }

    /**
     * Whole seconds, rounded, until the cached price stops being served; 0
     * when there is none or it has expired.
     */
    function GetCacheExpiryTime(now: int): (seconds: int)
      reads this
      ensures seconds >= 0
      ensures cache.None? ==> seconds == 0
      ensures seconds > 0 ==> Fresh(cache, now)
      ensures cache.Some? && cache.value.timestamp <= now ==> seconds <= CacheExpiryMs / 1000
      ensures cache.Some? && cache.value.timestamp + CacheExpiryMs - now >= 500 ==> seconds > 0
      ensures cache.Some? && cache.value.timestamp + CacheExpiryMs <= now ==> seconds == 0
      ensures cache.Some? && cache.value.timestamp + CacheExpiryMs > now ==>
        seconds == RoundSeconds(cache.value.timestamp + CacheExpiryMs - now)
    {
      if cache.None? then 0
      else
        var expiresAt := cache.value.timestamp + CacheExpiryMs;
        if expiresAt <= now then 0
        else RoundSeconds(expiresAt - now)
    }

    /** Drops the cached price and frees the request slot. */
    method ClearCache()
      modifies this`cache, this`inFlight
      ensures cache.None? && !inFlight
    {
      cache := None;
      inFlight := false;
    }
  }

  /** Right after a fetch completes, every caller within the next two minutes gets that price. */
  method FetchThenGet<Price>(service: BinanceService<Price>, price: Price, fetchedAt: int, now: int)
    returns (answer: PriceAnswer<Price>)
    requires fetchedAt <= now < fetchedAt + CacheExpiryMs
    modifies service
    ensures answer == CacheHit(price)
  {
    service.FetchCompleted(price, fetchedAt);
    answer := service.GetBitcoinPrice(now);
  }

  /** After clearing, the expiry time is 0 and the next call makes a new request. */
  method ClearThenGet<Price>(service: BinanceService<Price>, now: int)
    returns (seconds: int, answer: PriceAnswer<Price>)
    modifies service
    ensures seconds == 0 && answer.NewRequest?
  {
    service.ClearCache();
    seconds := service.GetCacheExpiryTime(now);
    answer := service.GetBitcoinPrice(now);
  }

  /** Two callers after the cache expired share one request. */
  method ExpiredTwice<Price>(service: BinanceService<Price>, now: int)
    returns (first: PriceAnswer<Price>, second: PriceAnswer<Price>)
    requires !Fresh(service.cache, now)
    modifies service
    ensures first.NewRequest? || first.ReuseRequest?
    ensures second.ReuseRequest?
  {
    first := service.GetBitcoinPrice(now);
    second := service.GetBitcoinPrice(now);
  }
}
