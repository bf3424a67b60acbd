/** The pure logic of `App.jsx`: the symbol list, `fetchRate`, and the rows of
    the multi-convert section. The conversion is `Conversion.Converted` and
    `toggleTarget` is `Lists.Toggle`. */
module App {
  import opened Types
  import opened Lists
  import opened Payloads
  import opened Conversion

  // ---------------------------------------------------------------- symbols

  /** `{ description }` of an entry of the `/symbols` reply. */
  datatype SymbolInfo = SymbolInfo(description: string)

  /** `Object.entries(data.symbols).map(([code, obj]) => ({ code, name: obj.description }))`. */
  function SymbolEntries(entries: seq<(string, SymbolInfo)>): (r: seq<Currency>)
    ensures |r| == |entries|
    ensures forall i :: 0 <= i < |r| ==> r[i] == Currency(entries[i].0, entries[i].1.description)
  {
    seq(|entries|, i requires 0 <= i < |entries| => Currency(entries[i].0, entries[i].1.description))
  }

  /** The symbol list: the entries, sorted by code. */
  function Symbols(entries: seq<(string, SymbolInfo)>): (r: seq<Currency>)
    ensures |r| == |entries| && SortedBy(r, CodeOf)
  {
    SortBy(SymbolEntries(entries), CodeOf)
  }

  /** One currency per provider key, named by its description, sorted by code,
      and nothing else. */
  lemma SymbolsSpec(entries: seq<(string, SymbolInfo)>)
    ensures SortedBy(Symbols(entries), CodeOf)
    ensures |Symbols(entries)| == |entries|
    ensures forall j :: 0 <= j < |entries| ==> Currency(entries[j].0, entries[j].1.description) in Symbols(entries)
    ensures forall i :: 0 <= i < |Symbols(entries)| ==> Symbols(entries)[i] in SymbolEntries(entries)
  {
    var m := SymbolEntries(entries);
    var r := Symbols(entries);
    forall j | 0 <= j < |entries| ensures Currency(entries[j].0, entries[j].1.description) in r {
      assert m[j] in multiset(m);
    }
    forall i | 0 <= i < |r| ensures r[i] in m {
      assert r[i] in multiset(r);
    }
  }

  // ---------------------------------------------------------------- fetchRate

  /** What `fetchRate` returns or throws, and the request it sent, if any. */
  datatype Fetch = Fetch(result: Result<Quote>, sent: Option<Request>)

  /** `fetchRate(base, sym)` given the provider's reply. The rate must be present
      (`r == null` throws) but may be zero. */
  function FetchRate(base: string, sym: string, today: string, reply: RateReply): (f: Fetch)
    ensures f.sent.None? <==> base == sym
    ensures f.result.Ok? && base != sym ==> reply.RateOk? && sym in reply.rates
  {
    if base == sym then Fetch(Ok(Quote(1.0, today)), None)
    else
      var sent := Some(Latest(ExchangerateHost, base, sym));
      match reply
      case RateNetworkError(m) => Fetch(Err(m), sent)
      case RateNotOk => Fetch(Err("rate"), sent)
      case RateOk(date, rates) =>
        if sym !in rates then Fetch(Err("rate"), sent) else Fetch(Ok(Quote(rates[sym], date)), sent)
  }

  /** A same-currency pair is rate 1 as of today, whatever the provider would say, with no request. */
  lemma FetchRateSamePair(code: string, today: string, reply: RateReply)
    ensures FetchRate(code, code, today, reply) == Fetch(Ok(Quote(1.0, today)), None)
  {
  }

  /** Any other pair sends one request and yields a quote exactly when the reply is ok
      and lists the symbol, including a rate of 0; a not-ok reply or a missing rate
      throws "rate", a network failure its own message. */
  lemma FetchRateOtherPair(base: string, sym: string, today: string, reply: RateReply)
    requires base != sym
    ensures var f := FetchRate(base, sym, today, reply);
      && f.sent == Some(Latest(ExchangerateHost, base, sym))
      && (f.result.Ok? <==> reply.RateOk? && sym in reply.rates)
      && (f.result.Ok? ==> f.result.value == Quote(reply.rates[sym], reply.date))
      && (reply.RateNetworkError? ==> f.result == Err(reply.message))
      && (reply.RateNotOk? || (reply.RateOk? && sym !in reply.rates) ==> f.result == Err("rate"))
  {
  }

  /** A zero rate is passed through as a quote. */
  lemma FetchRateAcceptsZero(base: string, sym: string, today: string, date: string, rates: map<string, real>)
    requires base != sym && sym in rates && rates[sym] == 0.0
    ensures FetchRate(base, sym, today, RateOk(date, rates)).result == Ok(Quote(0.0, date))
  {
  }

  // ---------------------------------------------------------------- rows

  /** `{ code, value }` of a multi-convert row. */
  datatype AppRow = AppRow(code: string, value: real)

  /** A target gets a row when it is not `from` and its rate is not null; zero counts. */
  predicate Listed(rates: map<string, real>, code: string, from: string) {
    code != from && code in rates
  }

  /** The filter and map over `targets`, with `a` the amount already read. */
  function TargetRows(rates: map<string, real>, targets: seq<string>, a: real, from: string): (r: seq<AppRow>)
    ensures |r| <= |targets|
    ensures forall i :: 0 <= i < |r| ==>
      r[i].code in targets && Listed(rates, r[i].code, from) && r[i].value == a * rates[r[i].code]
    decreases |targets|
  {
    if targets == [] then []
    else
      var init := TargetRows(rates, targets[..|targets| - 1], a, from);
      var code := targets[|targets| - 1];
      if Listed(rates, code, from) then init + [AppRow(code, a * rates[code])] else init
  }

  function AppRowCode(r: AppRow): string { r.code }

  /** The codes of a list of rows. */
  function RowCodes(rows: seq<AppRow>): seq<string> {
    Keys(rows, AppRowCode)
  }

  /** `rows`: empty with no rate table; otherwise one row per listed target, valued at
      `Number(amount) || 0` times its rate. */
  function Rows(allRates: Option<map<string, real>>, targets: seq<string>, amount: Option<real>, from: string): (r: seq<AppRow>)
    ensures allRates.None? ==> r == []
    ensures |r| <= |targets|
    ensures allRates.Some? ==> forall i :: 0 <= i < |r| ==>
      r[i].code in targets && Listed(allRates.value, r[i].code, from)
      && r[i].value == AmountOrZero(amount) * allRates.value[r[i].code]
  {
    if allRates.None? then [] else TargetRows(allRates.value, targets, AmountOrZero(amount), from)
  }

  /** `TargetRows` over a list with one more target at the end. */
  lemma TargetRowsSnoc(rates: map<string, real>, targets: seq<string>, code: string, a: real, from: string)
    ensures RowCodes(TargetRows(rates, targets + [code], a, from)) ==
            RowCodes(TargetRows(rates, targets, a, from)) + (if Listed(rates, code, from) then [code] else [])
  {
    var s := targets + [code];
    assert s[..|s| - 1] == targets;
    if Listed(rates, code, from) {
      KeysSnoc(TargetRows(rates, targets, a, from), AppRow(code, a * rates[code]), AppRowCode);
    }
  }

  /** Every listed target gets a row. */
  lemma {:induction false} TargetRowsComplete(rates: map<string, real>, targets: seq<string>, a: real, from: string, i: nat)
    requires i < |targets| && Listed(rates, targets[i], from)
    ensures targets[i] in RowCodes(TargetRows(rates, targets, a, from))
    decreases |targets|
  {
    var rest := targets[..|targets| - 1];
    var code := targets[|targets| - 1];
    assert targets == rest + [code];
    TargetRowsSnoc(rates, rest, code, a, from);
    if i < |rest| {
      assert rest[i] == targets[i];
      TargetRowsComplete(rates, rest, a, from, i);
    }
  }

  /** The rows come in target order. */
  lemma {:induction false} TargetRowsInOrder(rates: map<string, real>, targets: seq<string>, a: real, from: string)
    ensures IsSubsequence(RowCodes(TargetRows(rates, targets, a, from)), targets)
    decreases |targets|
  {
    if targets != [] {
      var rest := targets[..|targets| - 1];
      var code := targets[|targets| - 1];
      assert targets == rest + [code];
      TargetRowsInOrder(rates, rest, a, from);
      TargetRowsSnoc(rates, rest, code, a, from);
      SubsequenceOfSnoc(RowCodes(TargetRows(rates, rest, a, from)), rest, code);
    }
  }

  /** `rows` come in target order, and with a rate table every listed target has a row. */
  lemma RowsInOrder(allRates: Option<map<string, real>>, targets: seq<string>, amount: Option<real>, from: string)
    ensures IsSubsequence(RowCodes(Rows(allRates, targets, amount, from)), targets)
    ensures allRates.Some? ==> forall i :: 0 <= i < |targets| && Listed(allRates.value, targets[i], from) ==>
      targets[i] in RowCodes(Rows(allRates, targets, amount, from))
  {
    if allRates.Some? {
      TargetRowsInOrder(allRates.value, targets, AmountOrZero(amount), from);
      forall i | 0 <= i < |targets| && Listed(allRates.value, targets[i], from)
        ensures targets[i] in RowCodes(Rows(allRates, targets, amount, from))
      {
        TargetRowsComplete(allRates.value, targets, AmountOrZero(amount), from, i);
      }
    }
  }
}
