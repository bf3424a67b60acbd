/** The `useRates` hook of `hooks/useRates.jsx`: like the `.js` hook, but with
    Nigerian naira support. Pairs with NGN on either side are priced by the
    open.er-api provider and are never cached; NGN is added to the currency list;
    trends for NGN are refused; the recent-pairs list keeps six entries. */
module RatesHookNgn {
  import opened Types
  import opened StrOrder
  import opened Lists
  import opened Payloads
  import opened RecentPairs

  /** `.slice(0, 6)`. */
  const RecentBound: nat := 6

  /** The entry appended so that NGN is always offered. */
  const Naira := Currency("NGN", "Nigerian Naira")

  predicate InvolvesNgn(from: string, to: string) {
    from == "NGN" || to == "NGN"
  }

  // ---------------------------------------------------------------- currency list

  /** The provider's entries with NGN appended, de-duplicated by code (first wins). */
  function WithNaira(entries: seq<(string, string)>): (r: seq<Currency>)
    ensures |r| <= |entries| + 1
    ensures forall i :: 0 <= i < |r| ==> r[i] in FromEntries(entries) + [Naira]
  {
    DedupKeepsElements(FromEntries(entries) + [Naira], CodeOf);
    DedupBy(FromEntries(entries) + [Naira], CodeOf)
  }

  /** `...map(...).concat([NGN]).filter(first of its code).sort(by code)`. */
  function CurrencyList(entries: seq<(string, string)>): (r: seq<Currency>)
    ensures |r| <= |entries| + 1 && SortedBy(r, CodeOf)
  {
    SortBy(WithNaira(entries), CodeOf)
  }

  /** The list is sorted by code, holds no code twice, and has every provider code and NGN. */
  lemma CurrencyListCodes(entries: seq<(string, string)>)
    ensures SortedBy(CurrencyList(entries), CodeOf)
    ensures DistinctKeys(CurrencyList(entries), CodeOf)
    ensures HasKey(CurrencyList(entries), "NGN", CodeOf)
    ensures forall k :: HasKey(FromEntries(entries), k, CodeOf) ==> HasKey(CurrencyList(entries), k, CodeOf)
  {
    var all := FromEntries(entries) + [Naira];
    var d := WithNaira(entries);
    var r := CurrencyList(entries);
    DedupDistinct(all, CodeOf);
    SortKeepsDistinct(d, CodeOf);
    forall k | HasKey(all, k, CodeOf) ensures HasKey(r, k, CodeOf) {
      DedupKeepsKeys(all, k, CodeOf);
      HasKeyPermutation(d, r, k, CodeOf);
    }
    assert CodeOf(all[|all| - 1]) == "NGN";
    forall k | HasKey(FromEntries(entries), k, CodeOf) ensures HasKey(all, k, CodeOf) {
      var i :| 0 <= i < |FromEntries(entries)| && CodeOf(FromEntries(entries)[i]) == k;
      assert all[i] == FromEntries(entries)[i];
    }
  }

  /** Each entry of the list is the first the provider-plus-NGN list has for its code,
      so NGN keeps the provider's name when the provider lists it, and is
      "Nigerian Naira" otherwise. */
  lemma CurrencyListFirstWins(entries: seq<(string, string)>, i: nat)
    requires i < |CurrencyList(entries)|
    ensures FirstByKey(FromEntries(entries) + [Naira], CurrencyList(entries)[i].code, CodeOf) == Some(CurrencyList(entries)[i])
    ensures CurrencyList(entries)[i].code == "NGN" ==>
      CurrencyList(entries)[i] == (if HasKey(FromEntries(entries), "NGN", CodeOf)
                                   then FirstByKey(FromEntries(entries), "NGN", CodeOf).value else Naira)
  {
    var all := FromEntries(entries) + [Naira];
    var d := WithNaira(entries);
    var c := CurrencyList(entries)[i];
    assert c in multiset(d);
    var j :| 0 <= j < |d| && d[j] == c;
    DedupKeepsFirst(all, CodeOf);
    assert FirstByKey(all, CodeOf(d[j]), CodeOf) == Some(d[j]);
    FirstByKeyConcat(FromEntries(entries), [Naira], "NGN", CodeOf);
  }

  // ---------------------------------------------------------------- rates

  /** `getRate(f, t)` against the rate cache and the reply of whichever provider is asked.
      For the open.er-api reply, `date` stands for the day of `time_last_update_utc`,
      `""` when that field is absent. */
  function LookupRate(cache: map<string, Quote>, from: string, to: string, today: string, reply: RateReply): (r: RateStep)
    ensures InvolvesNgn(from, to) || r.result.Err? ==> r.cache == cache
    ensures r.sent.Some? ==>
      r.sent.value == if InvolvesNgn(from, to) then LatestForBase(OpenEr, from) else Latest(Frankfurter, from, to)
  {
    if from == to then RateStep(Ok(Quote(1.0, today)), cache, None)
    else if InvolvesNgn(from, to) then
      var sent := Some(LatestForBase(OpenEr, from));
      match reply
      case RateNetworkError(m) => RateStep(Err(m), cache, sent)
      case RateNotOk => RateStep(Err("rate"), cache, sent)
      case RateOk(updated, rates) =>
        if to !in rates || rates[to] == 0.0 then RateStep(Err("rate"), cache, sent)
        else RateStep(Ok(Quote(rates[to], if updated == "" then today else updated)), cache, sent)
    else if PairKey(from, to) in cache then RateStep(Ok(cache[PairKey(from, to)]), cache, None)
    else
      var sent := Some(Latest(Frankfurter, from, to));
      match reply
      case RateNetworkError(m) => RateStep(Err(m), cache, sent)
      case RateNotOk => RateStep(Err("rate"), cache, sent)
      case RateOk(date, rates) =>
        if to !in rates || rates[to] == 0.0 then RateStep(Err("rate"), cache, sent)
        else
          var value := Quote(rates[to], date);
          RateStep(Ok(value), cache[PairKey(from, to) := value], sent)
  }

  /** A same-currency pair is rate 1 as of today, with no request and no cache access. */
  lemma LookupRateSamePair(cache: map<string, Quote>, code: string, today: string, reply: RateReply)
    ensures LookupRate(cache, code, code, today, reply) == RateStep(Ok(Quote(1.0, today)), cache, None)
  {
  }

  /** A pair with NGN on one side asks open.er-api for the base currency's table,
      neither reads nor writes the cache (the outcome is the same for any cache),
      and fails on a missing or zero rate. */
  lemma LookupRateNgn(cache: map<string, Quote>, other: map<string, Quote>, from: string, to: string,
                      today: string, reply: RateReply)
    requires from != to && InvolvesNgn(from, to)
    ensures var step := LookupRate(cache, from, to, today, reply);
      && step.sent == Some(LatestForBase(OpenEr, from))
      && step.cache == cache
      && step.result == LookupRate(other, from, to, today, reply).result
      && (step.result.Ok? <==> reply.RateOk? && to in reply.rates && reply.rates[to] != 0.0)
      && (step.result.Ok? ==>
            step.result.value == Quote(reply.rates[to], if reply.date == "" then today else reply.date))
  {
  }

  /** A cached pair without NGN returns the stored quote without a request. */
  lemma LookupRateCacheHit(cache: map<string, Quote>, from: string, to: string, today: string, reply: RateReply)
    requires from != to && !InvolvesNgn(from, to) && PairKey(from, to) in cache
    ensures LookupRate(cache, from, to, today, reply) == RateStep(Ok(cache[PairKey(from, to)]), cache, None)
  {
  }

  /** An uncached pair without NGN asks Frankfurter, succeeds exactly on an ok reply
      with a non-zero rate, and then stores `{ rate, date }` under the pair's key. */
  lemma LookupRateMiss(cache: map<string, Quote>, from: string, to: string, today: string, reply: RateReply)
    requires from != to && !InvolvesNgn(from, to) && PairKey(from, to) !in cache
    ensures var step := LookupRate(cache, from, to, today, reply);
      && step.sent == Some(Latest(Frankfurter, from, to))
      && (step.result.Ok? <==> reply.RateOk? && to in reply.rates && reply.rates[to] != 0.0)
      && (step.result.Ok? ==> step.result.value == Quote(reply.rates[to], reply.date)
                              && step.cache == cache[PairKey(from, to) := step.result.value])
      && (step.result.Err? ==> step.cache == cache)
  {
  }

  /** The cache changes only by writing a successful non-NGN quote under its pair's key. */
  lemma LookupRateWritesThrough(cache: map<string, Quote>, from: string, to: string, today: string, reply: RateReply)
    ensures var step := LookupRate(cache, from, to, today, reply);
      && (step.result.Err? || from == to || InvolvesNgn(from, to) ==> step.cache == cache)
      && (step.result.Ok? && from != to && !InvolvesNgn(from, to) ==>
            step.cache == cache[PairKey(from, to) := step.result.value])
  {
  }

  /** After a successful lookup of two non-NGN currencies, asking again returns the
      identical quote without a second request. */
  lemma LookupRateRepeat(cache: map<string, Quote>, from: string, to: string, today: string, reply: RateReply,
                         today2: string, reply2: RateReply)
    requires from != to && !InvolvesNgn(from, to)
    requires LookupRate(cache, from, to, today, reply).result.Ok?
    ensures var first := LookupRate(cache, from, to, today, reply);
      LookupRate(first.cache, from, to, today2, reply2) == RateStep(first.result, first.cache, None)
  {
  }

  // ---------------------------------------------------------------- trend

  /** The message `loadTrend` throws for NGN. */
  const NgnTrendMessage := "Trend unavailable for NGN on this free source."

  /** `loadTrend(f, t)` against the trend cache and the provider's reply. */
  function LookupTrend(cache: map<string, seq<TrendPoint>>, from: string, to: string, reply: TrendReply): (r: TrendStep)
    ensures InvolvesNgn(from, to) ==> r.sent.None? && r.result.Err?
    ensures r.result.Err? ==> r.cache == cache
  {
    if InvolvesNgn(from, to) then TrendStep(Err(NgnTrendMessage), cache, None)
    else
      var key := PairKey(from, to);
      if key in cache then TrendStep(Ok(cache[key]), cache, None)
      else
        var sent := Some(TimeSeries(Frankfurter, from, to));
        match reply
        case TrendNetworkError(m) => TrendStep(Err(m), cache, sent)
        case TrendNotOk => TrendStep(Err("trend"), cache, sent)
        case TrendOk(rates) =>
          var points := TrendPoints(rates, to);
          TrendStep(Ok(points), cache[key := points], sent)
  }

  /** NGN is refused before the cache is read or a request is made. */
  lemma LookupTrendNgn(cache: map<string, seq<TrendPoint>>, from: string, to: string, reply: TrendReply)
    requires InvolvesNgn(from, to)
    ensures LookupTrend(cache, from, to, reply) == TrendStep(Err(NgnTrendMessage), cache, None)
  {
  }

  /** For a pair without NGN: a cached pair returns the stored list; otherwise one
      time-series request is sent and, on an ok reply, its points are stored under
      the pair's key. Every trend returned ascends by date, and the cache stays so. */
  lemma LookupTrendSpec(cache: map<string, seq<TrendPoint>>, from: string, to: string, reply: TrendReply)
    requires !InvolvesNgn(from, to) && TrendCacheValid(cache)
    ensures var step := LookupTrend(cache, from, to, reply);
      && (PairKey(from, to) in cache ==> step == TrendStep(Ok(cache[PairKey(from, to)]), cache, None))
      && (PairKey(from, to) !in cache ==> step.sent == Some(TimeSeries(Frankfurter, from, to)))
      && (PairKey(from, to) !in cache && reply.TrendOk? ==> step.result == Ok(TrendPoints(reply.rates, to)))
      && (PairKey(from, to) !in cache && reply.TrendNotOk? ==> step.result == Err("trend"))
      && (PairKey(from, to) !in cache && reply.TrendNetworkError? ==> step.result == Err(reply.message))
      && (step.result.Ok? <==> PairKey(from, to) in cache || reply.TrendOk?)
      && (step.result.Ok? ==> step.cache == cache[PairKey(from, to) := step.result.value]
                              && SortedBy(step.result.value, PointDate))
      && (step.result.Err? ==> step.cache == cache)
      && TrendCacheValid(step.cache)
  {
    if PairKey(from, to) !in cache && reply.TrendOk? {
      TrendPointsSorted(reply.rates, to);
    }
  }

  /** The message `fetchTrend` shows: the thrown message, or the fallback when it is empty. */
  function TrendErrorMessage(thrown: string): (m: string)
    ensures thrown == "" ==> m == "Could not load trend."
    ensures thrown != "" ==> m == thrown
  {
    if thrown == "" then "Could not load trend." else thrown
  }

  // ---------------------------------------------------------------- hook state

  /** The hook's state: React state, the two `useRef` caches, the value stored
      under `recentPairs` in local storage, and the log of requests sent. */
  class RatesHookState {
    var currencies: seq<Currency>
    var currencyError: string
    var rate: Option<real>
    var rateDate: string
    var rateError: string
    var trend: Option<seq<TrendPoint>>
    var trendError: string
    var rateCache: map<string, Quote>
    var trendCache: map<string, seq<TrendPoint>>
    var recentPairs: seq<string>
    var storedRecentPairs: Option<seq<string>>
    var requests: seq<Request>

    /** Mounting the hook: the recent pairs come from storage (`None` when absent or
        unparsable, which gives `[]`); everything else starts empty. */
    constructor (stored: Option<seq<string>>)
      ensures recentPairs == (if stored.Some? then stored.value else [])
      ensures storedRecentPairs == stored
      ensures currencies == [] && currencyError == ""
      ensures rate == None && rateDate == "" && rateError == ""
      ensures trend == None && trendError == ""
      ensures rateCache == map[] && trendCache == map[] && requests == []
    {
      recentPairs := if stored.Some? then stored.value else [];
      storedRecentPairs := stored;
      currencies, currencyError := [], "";
      rate, rateDate, rateError := None, "", "";
      trend, trendError := None, "";
      rateCache, trendCache, requests := map[], map[], [];
    }

    /** The effect run when `from`/`to` change: update the list and write it to storage. */
    method SelectPair(from: string, to: string)
      modifies this`recentPairs, this`storedRecentPairs
      ensures recentPairs == NextRecent(old(recentPairs), from, to, RecentBound)
      ensures storedRecentPairs == if Skipped(from, to) then old(storedRecentPairs) else Some(recentPairs)
    {
      if from == "" || to == "" || from == to {
        return;
      }
      var next := NextRecent(recentPairs, from, to, RecentBound);
      storedRecentPairs := Some(next);
      recentPairs := next;
    }

    /** The currency-list effect; `reply` is the entries of an ok response, `None`
        when the request failed. */
    method LoadCurrencies(reply: Option<seq<(string, string)>>)
      modifies this`currencies, this`currencyError, this`requests
      ensures requests == old(requests) + [CurrencyIndex(Frankfurter)]
      ensures reply.Some? ==> currencies == CurrencyList(reply.value) && currencyError == ""
      ensures reply.None? ==> currencies == old(currencies) && currencyError == "Failed to load currencies."
    {
      currencyError := "";
      requests := requests + [CurrencyIndex(Frankfurter)];
      if reply.Some? {
        currencies := CurrencyList(reply.value);
      } else {
        currencyError := "Failed to load currencies.";
      }
    }

    /** `getRate`, updating the cache in place for non-NGN pairs. */
    method GetRate(from: string, to: string, today: string, reply: RateReply) returns (res: Result<Quote>)
      modifies this`rateCache, this`requests
      ensures var step := LookupRate(old(rateCache), from, to, today, reply);
        res == step.result && rateCache == step.cache && requests == old(requests) + Sent(step.sent)
    {
      if from == to {
        return Ok(Quote(1.0, today));
      }
      if from == "NGN" || to == "NGN" {
        requests := requests + [LatestForBase(OpenEr, from)];
        match reply {
          case RateNetworkError(m) =>
            return Err(m);
          case RateNotOk =>
            return Err("rate");
          case RateOk(updated, rates) =>
            if to !in rates || rates[to] == 0.0 {
              return Err("rate");
            }
            var date := if updated == "" then today else updated;
            return Ok(Quote(rates[to], date));
        }
      }
      var key := PairKey(from, to);
      if key in rateCache {
        return Ok(rateCache[key]);
      }
      requests := requests + [Latest(Frankfurter, from, to)];
      match reply {
        case RateNetworkError(m) =>
          return Err(m);
        case RateNotOk =>
          return Err("rate");
        case RateOk(date, rates) =>
          if to !in rates || rates[to] == 0.0 {
            return Err("rate");
          }
          var value := Quote(rates[to], date);
          rateCache := rateCache[key := value];
          return Ok(value);
      }
    }

    /** The effect that loads the rate when the pair changes; on failure the previous
        rate and date stay and the message depends on `navigator.onLine`. */
    method LoadRate(from: string, to: string, today: string, reply: RateReply, online: bool)
      modifies this`rateCache, this`requests, this`rate, this`rateDate, this`rateError
      ensures from == "" || to == "" ==>
        rateCache == old(rateCache) && requests == old(requests)
        && rate == old(rate) && rateDate == old(rateDate) && rateError == old(rateError)
      ensures from != "" && to != "" ==>
        var step := LookupRate(old(rateCache), from, to, today, reply);
        && rateCache == step.cache && requests == old(requests) + Sent(step.sent)
        && (step.result.Ok? ==> rate == Some(step.result.value.rate) && rateDate == step.result.value.date && rateError == "")
        && (step.result.Err? ==> rate == old(rate) && rateDate == old(rateDate)
                                 && rateError == if online then "Could not load exchange rate." else "You appear to be offline.")
    {
      if from == "" || to == "" {
        return;
      }
      rateError := "";
      var res := GetRate(from, to, today, reply);
      if res.Ok? {
        rate := Some(res.value.rate);
        rateDate := res.value.date;
      } else {
        rateError := if online then "Could not load exchange rate." else "You appear to be offline.";
      }
    }

    /** `loadTrend`, updating the trend cache in place. */
    method LoadTrend(from: string, to: string, reply: TrendReply) returns (res: Result<seq<TrendPoint>>)
      modifies this`trendCache, this`requests
      ensures var step := LookupTrend(old(trendCache), from, to, reply);
        res == step.result && trendCache == step.cache && requests == old(requests) + Sent(step.sent)
    {
      if from == "NGN" || to == "NGN" {
        return Err(NgnTrendMessage);
      }
      var key := PairKey(from, to);
      if key in trendCache {
        return Ok(trendCache[key]);
      }
      requests := requests + [TimeSeries(Frankfurter, from, to)];
      match reply {
        case TrendNetworkError(m) =>
          return Err(m);
        case TrendNotOk =>
          return Err("trend");
        case TrendOk(rates) =>
          var points := TrendPoints(rates, to);
          trendCache := trendCache[key := points];
          return Ok(points);
      }
    }

    /** `fetchTrend`: on failure the trend is cleared and the thrown message shown. */
    method FetchTrend(from: string, to: string, reply: TrendReply)
      modifies this`trendCache, this`requests, this`trend, this`trendError
      ensures var step := LookupTrend(old(trendCache), from, to, reply);
        && trendCache == step.cache && requests == old(requests) + Sent(step.sent)
        && (step.result.Ok? ==> trend == Some(step.result.value) && trendError == "")
        && (step.result.Err? ==> trend == None && trendError == TrendErrorMessage(step.result.message))
    {
      trendError := "";
      var res := LoadTrend(from, to, reply);
      if res.Ok? {
        trend := Some(res.value);
      } else {
        trend := None;
        trendError := TrendErrorMessage(res.message);
      }
    }
  }
}
