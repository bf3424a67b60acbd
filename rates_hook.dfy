/** The `useRates` hook of `hooks/useRates.js`: one provider (Frankfurter) for the
    currency list, single rates and trends, session caches for rates and trends,
    and a recent-pairs list of at most five entries kept in local storage. */
module RatesHook {
  import opened Types
  import opened StrOrder
  import opened Lists
  import opened Payloads
  import opened RecentPairs

  /** `.slice(0, 5)`. */
  const RecentBound: nat := 5

  // ---------------------------------------------------------------- currency list

  /** `Object.entries(json).map(...).sort((a, b) => a.code.localeCompare(b.code))`. */
  function CurrencyList(entries: seq<(string, string)>): (r: seq<Currency>)
    ensures |r| == |entries| && SortedBy(r, CodeOf)
  {
    SortBy(FromEntries(entries), CodeOf)
  }

  /** The list holds exactly the provider's entries, sorted by code; codes stay
      distinct when the provider's are, as the keys of a JSON object are. */
  lemma CurrencyListSpec(entries: seq<(string, string)>)
    ensures SortedBy(CurrencyList(entries), CodeOf)
    ensures multiset(CurrencyList(entries)) == multiset(FromEntries(entries))
    ensures DistinctKeys(FromEntries(entries), CodeOf) ==> DistinctKeys(CurrencyList(entries), CodeOf)
  {
    if DistinctKeys(FromEntries(entries), CodeOf) {
      SortKeepsDistinct(FromEntries(entries), CodeOf);
    }
  }

  // ---------------------------------------------------------------- rates

  /** `getRate(from, to)` against the rate cache `cache` and the provider's `reply`. */
  function LookupRate(cache: map<string, Quote>, from: string, to: string, today: string, reply: RateReply): (r: RateStep)
    ensures r.result.Err? ==> r.cache == cache
    ensures r.sent.Some? ==> r.sent.value == Latest(Frankfurter, from, to)
  {
    if from == to then RateStep(Ok(Quote(1.0, today)), cache, None)
    else if PairKey(from, to) in cache then RateStep(Ok(cache[PairKey(from, to)]), cache, None)
    else
      var sent := Some(Latest(Frankfurter, from, to));
      match reply
      case RateNetworkError(m) => RateStep(Err(m), cache, sent)
      case RateNotOk => RateStep(Err("Rate fetch failed"), cache, sent)
      case RateOk(date, rates) =>
        if to !in rates || rates[to] == 0.0 then RateStep(Err("No rate for target currency"), cache, sent)
        else
          var value := Quote(rates[to], date);
          RateStep(Ok(value), cache[PairKey(from, to) := value], sent)
  }

  /** A same-currency pair is rate 1 as of today, with no request and no cache access. */
  lemma LookupRateSamePair(cache: map<string, Quote>, code: string, today: string, reply: RateReply)
    ensures LookupRate(cache, code, code, today, reply) == RateStep(Ok(Quote(1.0, today)), cache, None)
  {
  }

  /** A cached pair returns the stored quote without a request. */
  lemma LookupRateCacheHit(cache: map<string, Quote>, from: string, to: string, today: string, reply: RateReply)
    requires from != to && PairKey(from, to) in cache
    ensures LookupRate(cache, from, to, today, reply) == RateStep(Ok(cache[PairKey(from, to)]), cache, None)
  {
  }

  /** An uncached pair asks Frankfurter; it succeeds exactly when the reply is ok and
      holds a non-zero rate for `to`, and then stores `{ rate, date }` under the pair's key. */
  lemma LookupRateMiss(cache: map<string, Quote>, from: string, to: string, today: string, reply: RateReply)
    requires from != to && PairKey(from, to) !in cache
    ensures var step := LookupRate(cache, from, to, today, reply);
      && step.sent == Some(Latest(Frankfurter, from, to))
      && (step.result.Ok? <==> reply.RateOk? && to in reply.rates && reply.rates[to] != 0.0)
      && (step.result.Ok? ==> step.result.value == Quote(reply.rates[to], reply.date)
                              && step.cache == cache[PairKey(from, to) := step.result.value])
      && (step.result.Err? ==> step.cache == cache)
  {
  }

  /** The cache is written through on success and never changes on failure. */
  lemma LookupRateWritesThrough(cache: map<string, Quote>, from: string, to: string, today: string, reply: RateReply)
    ensures var step := LookupRate(cache, from, to, today, reply);
      && (step.result.Err? ==> step.cache == cache)
      && (step.result.Ok? && from != to ==> step.cache == cache[PairKey(from, to) := step.result.value])
      && (from == to ==> step.cache == cache)
  {
  }

  /** Every cached rate is non-zero. */
  ghost predicate RateCacheValid(cache: map<string, Quote>) {
    forall k :: k in cache ==> cache[k].rate != 0.0
  }

  /** Lookups keep the cache valid, and a pair of two currencies never gets rate 0. */
  lemma LookupRateNonZero(cache: map<string, Quote>, from: string, to: string, today: string, reply: RateReply)
    requires RateCacheValid(cache)
    ensures RateCacheValid(LookupRate(cache, from, to, today, reply).cache)
    ensures LookupRate(cache, from, to, today, reply).result.Ok? ==> LookupRate(cache, from, to, today, reply).result.value.rate != 0.0
  {
  }

  /** After a successful lookup of two currencies, asking again returns the identical
      quote without a second request, whatever the provider would now say. */
  lemma LookupRateRepeat(cache: map<string, Quote>, from: string, to: string, today: string, reply: RateReply,
                         today2: string, reply2: RateReply)
    requires from != to
    requires LookupRate(cache, from, to, today, reply).result.Ok?
    ensures var first := LookupRate(cache, from, to, today, reply);
      LookupRate(first.cache, from, to, today2, reply2) == RateStep(first.result, first.cache, None)
  {
  }

  // ---------------------------------------------------------------- trend

  /** `loadTrend(from, to)` against the trend cache and the provider's `reply`. */
  function LookupTrend(cache: map<string, seq<TrendPoint>>, from: string, to: string, reply: TrendReply): (r: TrendStep)
    ensures r.result.Err? ==> r.cache == cache
    ensures r.sent.Some? ==> r.sent.value == TimeSeries(Frankfurter, from, to)
  {
    var key := PairKey(from, to);
    if key in cache then TrendStep(Ok(cache[key]), cache, None)
    else
      var sent := Some(TimeSeries(Frankfurter, from, to));
      match reply
      case TrendNetworkError(m) => TrendStep(Err(m), cache, sent)
      case TrendNotOk => TrendStep(Err("Trend fetch failed"), cache, sent)
      case TrendOk(rates) =>
        var points := TrendPoints(rates, to);
        TrendStep(Ok(points), cache[key := points], sent)
  }

  /** A cached pair returns the stored list; otherwise one time-series request is
      sent and, on an ok reply, its points are stored under the pair's key. Every
      trend returned ascends by date, and the cache stays so. */
  lemma LookupTrendSpec(cache: map<string, seq<TrendPoint>>, from: string, to: string, reply: TrendReply)
    requires TrendCacheValid(cache)
    ensures var step := LookupTrend(cache, from, to, reply);
      && (PairKey(from, to) in cache ==> step == TrendStep(Ok(cache[PairKey(from, to)]), cache, None))
      && (PairKey(from, to) !in cache ==> step.sent == Some(TimeSeries(Frankfurter, from, to)))
      && (PairKey(from, to) !in cache && reply.TrendOk? ==> step.result == Ok(TrendPoints(reply.rates, to)))
      && (PairKey(from, to) !in cache && reply.TrendNotOk? ==> step.result == Err("Trend fetch failed"))
      && (PairKey(from, to) !in cache && reply.TrendNetworkError? ==> step.result == Err(reply.message))
      && (step.result.Ok? <==> PairKey(from, to) in cache || reply.TrendOk?)
      && (step.result.Ok? ==> step.cache == cache[PairKey(from, to) := step.result.value]
                              && SortedBy(step.result.value, PointDate))
      && (step.result.Err? ==> step.cache == cache)
      && TrendCacheValid(step.cache)
  {
    if PairKey(from, to) !in cache && reply.TrendOk? {
      TrendPointsSorted(reply.rates, to);
    }
  }

  /** After a successful trend lookup, asking again returns the same list without a request. */
  lemma LookupTrendRepeat(cache: map<string, seq<TrendPoint>>, from: string, to: string, reply: TrendReply, reply2: TrendReply)
    requires LookupTrend(cache, from, to, reply).result.Ok?
    ensures var first := LookupTrend(cache, from, to, reply);
      LookupTrend(first.cache, from, to, reply2) == TrendStep(first.result, first.cache, None)
  {
  }

  // ---------------------------------------------------------------- hook state

  /** The hook's state: React state, the two `useRef` caches, the value stored
      under `recentPairs` in local storage, and the log of requests sent. */
  class RatesHookState {
    var currencies: seq<Currency>
    var currencyError: string
    var rate: Option<real>
    var rateDate: string
    var rateError: string
    var trend: Option<seq<TrendPoint>>
    var trendError: string
    var rateCache: map<string, Quote>
    var trendCache: map<string, seq<TrendPoint>>
    var recentPairs: seq<string>
    var storedRecentPairs: Option<seq<string>>
    var requests: seq<Request>

    /** Mounting the hook: the recent pairs come from storage (`None` when absent or
        unparsable, which gives `[]`); everything else starts empty. */
    constructor (stored: Option<seq<string>>)
      ensures recentPairs == (if stored.Some? then stored.value else [])
      ensures storedRecentPairs == stored
      ensures currencies == [] && currencyError == ""
      ensures rate == None && rateDate == "" && rateError == ""
      ensures trend == None && trendError == ""
      ensures rateCache == map[] && trendCache == map[] && requests == []
    {
      recentPairs := if stored.Some? then stored.value else [];
      storedRecentPairs := stored;
      currencies, currencyError := [], "";
      rate, rateDate, rateError := None, "", "";
      trend, trendError := None, "";
      rateCache, trendCache, requests := map[], map[], [];
    }

    /** The effect run when `from`/`to` change: update the list and write it to storage. */
    method SelectPair(from: string, to: string)
      modifies this`recentPairs, this`storedRecentPairs
      ensures recentPairs == NextRecent(old(recentPairs), from, to, RecentBound)
      ensures storedRecentPairs == if Skipped(from, to) then old(storedRecentPairs) else Some(recentPairs)
    {
      if from == "" || to == "" || from == to {
        return;
      }
      var next := NextRecent(recentPairs, from, to, RecentBound);
      storedRecentPairs := Some(next);
      recentPairs := next;
    }

    /** The currency-list effect; `reply` is the entries of an ok response, `None`
        when the request failed. */
    method LoadCurrencies(reply: Option<seq<(string, string)>>)
      modifies this`currencies, this`currencyError, this`requests
      ensures requests == old(requests) + [CurrencyIndex(Frankfurter)]
      ensures reply.Some? ==> currencies == CurrencyList(reply.value) && currencyError == ""
      ensures reply.None? ==> currencies == old(currencies) && currencyError == "Could not load currencies."
    {
      currencyError := "";
      requests := requests + [CurrencyIndex(Frankfurter)];
      if reply.Some? {
        currencies := CurrencyList(reply.value);
      } else {
        currencyError := "Could not load currencies.";
      }
    }

    /** `getRate`, updating the cache in place. */
    method GetRate(from: string, to: string, today: string, reply: RateReply) returns (res: Result<Quote>)
      modifies this`rateCache, this`requests
      ensures var step := LookupRate(old(rateCache), from, to, today, reply);
        res == step.result && rateCache == step.cache && requests == old(requests) + Sent(step.sent)
    {
      if from == to {
        return Ok(Quote(1.0, today));
      }
      var key := PairKey(from, to);
      if key in rateCache {
        return Ok(rateCache[key]);
      }
      requests := requests + [Latest(Frankfurter, from, to)];
      match reply {
        case RateNetworkError(m) =>
          return Err(m);
        case RateNotOk =>
          return Err("Rate fetch failed");
        case RateOk(date, rates) =>
          if to !in rates || rates[to] == 0.0 {
            return Err("No rate for target currency");
          }
          var value := Quote(rates[to], date);
          rateCache := rateCache[key := value];
          return Ok(value);
      }
    }

    /** The effect that loads the rate when the pair changes; on failure the previous
        rate and date stay and the message depends on `navigator.onLine`. */
    method LoadRate(from: string, to: string, today: string, reply: RateReply, online: bool)
      modifies this`rateCache, this`requests, this`rate, this`rateDate, this`rateError
      ensures from == "" || to == "" ==>
        rateCache == old(rateCache) && requests == old(requests)
        && rate == old(rate) && rateDate == old(rateDate) && rateError == old(rateError)
      ensures from != "" && to != "" ==>
        var step := LookupRate(old(rateCache), from, to, today, reply);
        && rateCache == step.cache && requests == old(requests) + Sent(step.sent)
        && (step.result.Ok? ==> rate == Some(step.result.value.rate) && rateDate == step.result.value.date && rateError == "")
        && (step.result.Err? ==> rate == old(rate) && rateDate == old(rateDate)
                                 && rateError == if online then "Could not load exchange rate." else "You appear to be offline.")
    {
      if from == "" || to == "" {
        return;
      }
      rateError := "";
      var res := GetRate(from, to, today, reply);
      if res.Ok? {
        rate := Some(res.value.rate);
        rateDate := res.value.date;
      } else {
        rateError := if online then "Could not load exchange rate." else "You appear to be offline.";
      }
    }

    /** `loadTrend`, updating the trend cache in place. */
    method LoadTrend(from: string, to: string, reply: TrendReply) returns (res: Result<seq<TrendPoint>>)
      modifies this`trendCache, this`requests
      ensures var step := LookupTrend(old(trendCache), from, to, reply);
        res == step.result && trendCache == step.cache && requests == old(requests) + Sent(step.sent)
    {
      var key := PairKey(from, to);
      if key in trendCache {
        return Ok(trendCache[key]);
      }
      requests := requests + [TimeSeries(Frankfurter, from, to)];
      match reply {
        case TrendNetworkError(m) =>
          return Err(m);
        case TrendNotOk =>
          return Err("Trend fetch failed");
        case TrendOk(rates) =>
          var points := TrendPoints(rates, to);
          trendCache := trendCache[key := points];
          return Ok(points);
      }
    }

    /** `fetchTrend`: on failure the previous trend stays and a fixed message is shown. */
    method FetchTrend(from: string, to: string, reply: TrendReply)
      modifies this`trendCache, this`requests, this`trend, this`trendError
      ensures var step := LookupTrend(old(trendCache), from, to, reply);
        && trendCache == step.cache && requests == old(requests) + Sent(step.sent)
        && (step.result.Ok? ==> trend == Some(step.result.value) && trendError == "")
        && (step.result.Err? ==> trend == old(trend) && trendError == "Could not load trend.")
    {
      trendError := "";
      var res := LoadTrend(from, to, reply);
      if res.Ok? {
        trend := Some(res.value);
      } else {
        trendError := "Could not load trend.";
      }
    }
  }
}
