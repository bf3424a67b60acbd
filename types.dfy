/** Values shared by every part of the converter: optional values, results of
    provider calls, quotes, currency entries, trend points, and the replies a
    provider can give. */
module Types {

  /** A JavaScript value that may be `null`/`undefined`. */
  datatype Option<+T> = None | Some(value: T)

  /** The outcome of an async call that either resolves or throws `Error(message)`. */
  datatype Result<+T> = Ok(value: T) | Err(message: string)

  /** `{ rate, date }` as returned by the rate lookups. */
  datatype Quote = Quote(rate: real, date: string)

  /** `{ code, name }` entry of a currency list. */
  datatype Currency = Currency(code: string, name: string)

  /** `{ date, value }` point of a trend; `value` is `obj[to]`, which may be undefined. */
  datatype TrendPoint = TrendPoint(date: string, value: Option<real>)

  /** The exchange-rate services the hooks talk to. */
  datatype Provider = Frankfurter | OpenEr | ExchangerateHost

  /** A network request, reduced to the provider and the parameters that matter. */
  datatype Request =
    | Latest(provider: Provider, base: string, symbol: string)  // `latest?from=..&to=..` / `latest?base=..&symbols=..`
    | LatestForBase(provider: Provider, base: string)           // base currency as a path segment
    | TimeSeries(provider: Provider, base: string, symbol: string)
    | CurrencyIndex(provider: Provider)                          // `/currencies`, `/symbols`

  /** What a single-rate or full-table request can produce: `fetch` rejecting, a
      response with `!res.ok`, or an ok response whose `date` and `rates` were read.
      A rate that is `null` or absent in the JSON is a key absent from `rates`. */
  datatype RateReply =
    | RateNetworkError(message: string)
    | RateNotOk
    | RateOk(date: string, rates: map<string, real>)

  /** What a time-series request can produce; `rates` lists `Object.entries(json.rates)`,
      date string to the day's rate table. */
  datatype TrendReply =
    | TrendNetworkError(message: string)
    | TrendNotOk
    | TrendOk(rates: seq<(string, map<string, real>)>)

  /** One rate lookup: what it returns or throws, the rate cache afterwards, and
      the request it sent, if any. */
  datatype RateStep = RateStep(result: Result<Quote>, cache: map<string, Quote>, sent: Option<Request>)

  /** One trend lookup: what it returns or throws, the trend cache afterwards, and
      the request it sent, if any. */
  datatype TrendStep = TrendStep(result: Result<seq<TrendPoint>>, cache: map<string, seq<TrendPoint>>, sent: Option<Request>)

  /** The requests a step adds to the log of network calls. */
  function Sent(r: Option<Request>): seq<Request> {
    if r.Some? then [r.value] else []
  }

  /** `"${from}->${to}"`, the key of the rate and trend caches and of a recent pair. */
  function PairKey(from: string, to: string): (k: string)
    ensures |k| == |from| + 2 + |to|
    ensures k[..|from|] == from && k[|from|..|from| + 2] == "->" && k[|from| + 2..] == to
  {
    from + "->" + to
  }

  /** A code without a '-', as every currency code is. */
  predicate NoDash(s: string) {
    forall i :: 0 <= i < |s| ==> s[i] != '-'
  }

  /** In the key of a pair whose base code has no '-', the first '-' sits right after the base. */
  lemma FirstDashEndsBase(f: string, t: string)
    requires NoDash(f)
    ensures forall i :: 0 <= i < |f| ==> PairKey(f, t)[i] != '-'
    ensures PairKey(f, t)[|f|] == '-'
  {
  }

  /** Cache keys of different pairs differ as long as the codes contain no '-',
      so a cache hit for `PairKey(f, t)` is a quote stored for that same pair. */
  lemma PairKeyInjective(f1: string, t1: string, f2: string, t2: string)
    requires NoDash(f1) && NoDash(f2)
    requires PairKey(f1, t1) == PairKey(f2, t2)
    ensures f1 == f2 && t1 == t2
  {
    var k := PairKey(f1, t1);
    FirstDashEndsBase(f1, t1);
    FirstDashEndsBase(f2, t2);
    assert |f1| == |f2|;
    assert f1 == k[..|f1|] == f2;
  }
}
