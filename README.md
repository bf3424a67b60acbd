# Currency converter core, modelled in Dafny

This project models the logic of a browser currency converter, a React app that gets
exchange rates from public providers. The logic consists of:

- rate lookups behind a per-session cache keyed `"FROM->TO"`;
- the most-recently-used list of currency pairs kept in local storage;
- normalisation of the currency lists sent by the providers;
- the conversion rule;
- the date-ordered trend points;
- per-pair rate alerts kept in local storage;
- the target selection and derived rows of the multi-currency panels.

The model follows the code's form. Pure expressions become functions, and the
properties the code promises are lemmas about those functions. Each hook's in-place
state becomes a class whose methods carry `modifies` frames: the `rateCache` and
`trendCache` maps, the stored recent pairs, and the alert panel's storage and state.
Each method's `ensures` ties the new state to a pure step function of the old state,
such as `LookupRate`, `LookupTrend`, `NextRecent`, `LoadPanel`, `SaveAlert` or
`RemoveAlert`.

Network access is a parameter:

- A provider reply is a `RateReply` or `TrendReply`. It covers a rejected `fetch`, a
  not-ok response, and an ok response with its rate table.
- A field `requests` logs each request made. "No network call" means the log is
  unchanged.
- Today's date is the parameter `today`.
- `navigator.onLine` is the parameter `online`.
- JavaScript's `Number()` applied to text is an `Option<real>`, where `None` stands for
  a non-finite value.

Modules:

- `Types`: shared values, replies, requests and `PairKey`.
- `StrOrder`: the order the `localeCompare` sorts use.
- `Lists`: sorting, first-wins de-duplication, filtering, toggling and subsequences.
- `Payloads`: provider JSON turned into currency entries and trend points.
- `Conversion`: the `converted` rule.
- `RecentPairs`: the recent-pairs update.
- `RatesHook`: `hooks/useRates.js`.
- `RatesHookNgn`: `hooks/useRates.jsx`, which adds NGN routing.
- `Alerts`: `components/AlertsPanel.jsx`.
- `MultiConvert`: `components/MultiConvert.jsx`.
- `App`: the logic in `App.jsx`.

## Model

| member | source | states |
|---|---|---|
| Types.PairKey | currency-converter/src/hooks/useRates.js:84 | the cache key is the base code, then `->`, then the target code |
| Types.PairKeyInjective | currency-converter/src/hooks/useRates.js:84-85 | two pairs of dash-free codes have the same key only when they are the same pair, so a cache hit holds that pair's quote |
| StrOrder.StrLeTotal | currency-converter/src/hooks/useRates.js:68 | the sort comparator orders any two strings one way or the other |
| StrOrder.StrLeTransitive | currency-converter/src/hooks/useRates.js:68 | the sort comparator is transitive |
| StrOrder.StrLeAntisymmetric | currency-converter/src/hooks/useRates.js:68 | two strings that each sort at or before the other are equal |
| Lists.FirstByKey | currency-converter/src/hooks/useRates.jsx:67 | `findIndex` by code finds an element exactly when the code occurs, and the element it finds has that code |
| Lists.DedupBy | currency-converter/src/hooks/useRates.jsx:67 | the de-duplicated list is no longer than its input |
| Lists.DedupKeepsElements | currency-converter/src/hooks/useRates.jsx:67 | every element of the de-duplicated list is an element of the input |
| Lists.SortBy | currency-converter/src/hooks/useRates.js:68 | the sorted list is a permutation of its input, with the same length, ascending by key |
| Lists.DedupDistinct | currency-converter/src/hooks/useRates.jsx:67 | after keeping only the first element of each code, no code appears twice |
| Lists.DedupKeepsKeys | currency-converter/src/hooks/useRates.jsx:67 | de-duplication loses no code |
| Lists.DedupKeepsFirst | currency-converter/src/hooks/useRates.jsx:67 | each kept element is the first element with its code in the input |
| Lists.DedupCons | currency-converter/src/hooks/useRates.js:48-49 | de-duplicating `[pair, ...prev]` gives `pair` followed by the de-duplicated `prev` without `pair` |
| Lists.DedupIsSubsequence | currency-converter/src/hooks/useRates.js:48-49 | de-duplication keeps the relative order of what it keeps |
| Lists.RemoveKey | currency-converter/src/App.jsx:139 | the filtered list holds every element without the key and nothing else |
| Lists.RemoveKeyIsSubsequence | currency-converter/src/App.jsx:139 | the filter keeps the relative order of what it keeps |
| Lists.HasKeyAfterRemove | currency-converter/src/App.jsx:139 | after removing one code, a code is present exactly when it was present before and is a different code |
| Lists.Toggle | currency-converter/src/App.jsx:138-140 | toggling flips membership of the code, appends an absent code at the end, and keeps every other element |
| Lists.ToggleKeepsOthers | currency-converter/src/components/MultiConvert.jsx:34-36 | leaving out the toggled code, the list is the same before and after: the other codes keep their order |
| Lists.ToggleTwiceAbsent | currency-converter/src/App.jsx:139 | toggling an absent code twice gives back the original list |
| Payloads.FromEntries | currency-converter/src/hooks/useRates.js:66-67 | one `{code, name}` per provider entry, in entry order |
| Payloads.ToPoints | currency-converter/src/hooks/useRates.js:145 | one point per entry, with the entry's date and the value of the target in that day's table |
| Payloads.TrendPoints | currency-converter/src/hooks/useRates.js:143-145 | the sorted-then-mapped trend has one point per reply entry |
| Payloads.TrendPointsSorted | currency-converter/src/hooks/useRates.js:143-145 | trend points are one per date and ascend by date |
| Payloads.TrendPointsFromReply | currency-converter/src/hooks/useRates.js:143-145 | every trend point comes from a reply entry, with `value = obj[to]` |
| Payloads.TrendPointsCoverReply | currency-converter/src/hooks/useRates.js:143-145 | every reply entry gives a trend point |
| Payloads.TrendPointsDistinct | currency-converter/src/hooks/useRates.js:143-145 | distinct reply dates give distinct point dates |
| Conversion.ConvertedNonFinite | currency-converter/src/hooks/useRates.js:123-124 | a non-finite amount converts to 0 |
| Conversion.ConvertedWithoutRate | currency-converter/src/hooks/useRates.js:125 | with no rate, or a zero rate, the result is the amount for a same-currency pair and 0 otherwise |
| Conversion.ConvertedWithRate | currency-converter/src/hooks/useRates.js:126 | with a non-zero rate, the result is amount × rate |
| Conversion.ConvertedSamePair | currency-converter/src/App.jsx:128-133 | a same-currency pair converts to the amount itself when its rate is missing, zero or 1 |
| Conversion.Converted | currency-converter/src/hooks/useRates.js:122-127 | a non-finite amount converts to 0, and so does a pair of two currencies with no rate |
| Conversion.AmountOrZero | currency-converter/src/components/MultiConvert.jsx:28 | `Number(amount) \|\| 0` is the amount when it is finite and 0 otherwise |
| RecentPairs.Take | currency-converter/src/hooks/useRates.js:49 | `slice(0, n)` is the prefix of length exactly min(n, length), and is the whole list when the list fits |
| RecentPairs.NextRecent | currency-converter/src/hooks/useRates.js:44-53 | a skipped update leaves the list as it was; any other update leaves at most `bound` entries |
| RecentPairs.NextRecentSkipped | currency-converter/src/hooks/useRates.js:46 | with an empty code or a self-pair, the list is unchanged |
| RecentPairs.NextRecentSplits | currency-converter/src/hooks/useRates.js:48-49 | the new list is the pair followed by the older entries, without the pair, de-duplicated and cut to bound − 1 |
| RecentPairs.NextRecentHead | currency-converter/src/hooks/useRates.js:48-49 | the new pair is first and appears once, no entry repeats, and the length is at most the bound |
| RecentPairs.NextRecentKeepsOrder | currency-converter/src/hooks/useRates.js:48-49 | the older entries that survive keep their relative order |
| RecentPairs.NextRecentOfDistinct | currency-converter/src/hooks/useRates.js:48-49 | when the old list has no repeats, the new list is the pair followed by the old list without it, cut to the bound |
| RecentPairs.NextRecentInvariant | currency-converter/src/hooks/useRates.jsx:43-51 | having no repeats and fitting the bound are preserved, and the only entry ever gained is a pair of two different non-empty codes |
| RatesHook.CurrencyListSpec | currency-converter/src/hooks/useRates.js:66-68 | the currency list is the provider's entries sorted by code, and its codes are distinct when the provider's are |
| RatesHook.CurrencyList | currency-converter/src/hooks/useRates.js:66-68 | the list has one entry per provider entry and is sorted by code |
| RatesHook.LookupRate | currency-converter/src/hooks/useRates.js:82-95 | a failed lookup leaves the cache unchanged, and the only request it can send is the Frankfurter `latest` request for the pair |
| RatesHook.LookupRateSamePair | currency-converter/src/hooks/useRates.js:83 | a same-currency pair gives rate 1 dated today, with no request and no change to the cache |
| RatesHook.LookupRateCacheHit | currency-converter/src/hooks/useRates.js:84-85 | a cached pair returns the stored quote, with no request |
| RatesHook.LookupRateMiss | currency-converter/src/hooks/useRates.js:87-94 | a miss sends one Frankfurter request. It succeeds exactly on an ok reply with a non-zero rate and then stores that quote under the pair's key. A failure leaves the cache unchanged |
| RatesHook.LookupRateWritesThrough | currency-converter/src/hooks/useRates.js:88-93 | the cache changes only by storing a successful quote under its own pair's key |
| RatesHook.LookupRateNonZero | currency-converter/src/hooks/useRates.js:91 | no zero rate is ever returned or cached |
| RatesHook.LookupRateRepeat | currency-converter/src/hooks/useRates.js:84-94 | after a success, a second lookup of the pair returns the identical quote without a request, whatever the provider says |
| RatesHook.LookupTrendSpec | currency-converter/src/hooks/useRates.js:131-147 | a cached pair returns the stored list. Otherwise one time-series request is sent. An ok reply returns exactly `TrendPoints` of its entries, stored under the pair's key; a not-ok reply throws "Trend fetch failed" and a network failure its own message. Failures leave the cache alone. Every trend ascends by date |
| RatesHook.LookupTrendRepeat | currency-converter/src/hooks/useRates.js:131-132 | after a success, a second trend lookup returns the same list without a request |
| RatesHook.LookupTrend | currency-converter/src/hooks/useRates.js:130-148 | a failed lookup leaves the trend cache unchanged, and the only request it can send is the time series for the pair |
| RatesHook.RatesHookState.constructor | currency-converter/src/hooks/useRates.js:37-43 | recent pairs come from storage, or are empty when storage has none; the caches and the rest of the state start empty |
| RatesHook.RatesHookState.SelectPair | currency-converter/src/hooks/useRates.js:44-53 | the recent pairs become `NextRecent(old, from, to, 5)` and are written to storage, unless the update is skipped |
| RatesHook.RatesHookState.LoadCurrencies | currency-converter/src/hooks/useRates.js:56-77 | one request; success sets the sorted list; failure keeps the old list and sets "Could not load currencies." |
| RatesHook.RatesHookState.GetRate | currency-converter/src/hooks/useRates.js:82-95 | the result, the new cache and the request log are those of `LookupRate` on the old cache |
| RatesHook.RatesHookState.LoadRate | currency-converter/src/hooks/useRates.js:98-119 | with an empty code nothing happens. Success sets the rate and date. Failure keeps them and sets the offline-dependent message |
| RatesHook.RatesHookState.LoadTrend | currency-converter/src/hooks/useRates.js:130-148 | the result, the new trend cache and the request log are those of `LookupTrend` |
| RatesHook.RatesHookState.FetchTrend | currency-converter/src/hooks/useRates.js:150-161 | success sets the trend. Failure keeps the old trend and sets "Could not load trend." |
| RatesHookNgn.CurrencyListCodes | currency-converter/src/hooks/useRates.jsx:64-68 | the list is sorted by code, has distinct codes, always contains NGN, and contains every provider code |
| RatesHookNgn.CurrencyListFirstWins | currency-converter/src/hooks/useRates.jsx:64-68 | each entry is the first with its code, so NGN keeps the provider's name when the provider lists NGN and is "Nigerian Naira" otherwise |
| RatesHookNgn.WithNaira | currency-converter/src/hooks/useRates.jsx:64-67 | at most one more entry than the provider sent, each a provider entry or the appended NGN entry |
| RatesHookNgn.CurrencyList | currency-converter/src/hooks/useRates.jsx:64-68 | at most one more entry than the provider sent, sorted by code |
| RatesHookNgn.LookupRateSamePair | currency-converter/src/hooks/useRates.jsx:80-82 | a same-currency pair gives rate 1 dated today; it neither reads nor writes the cache and sends no request |
| RatesHookNgn.LookupRateNgn | currency-converter/src/hooks/useRates.jsx:83-93 | a pair with NGN on either side sends one open.er-api request with the base in the path. The cache is unchanged and the result is the same for any cache. A missing or zero rate is an error, and the date falls back to today |
| RatesHookNgn.LookupRateCacheHit | currency-converter/src/hooks/useRates.jsx:94-95 | a cached non-NGN pair returns the stored quote without a request |
| RatesHookNgn.LookupRateMiss | currency-converter/src/hooks/useRates.jsx:96-103 | an uncached non-NGN pair sends one Frankfurter request. It succeeds exactly on an ok reply with a non-zero rate, storing `{rate, date}` under the pair's key and returning it. A failure leaves the cache unchanged |
| RatesHookNgn.LookupRateWritesThrough | currency-converter/src/hooks/useRates.jsx:79-104 | only a successful non-NGN quote is ever written to the cache, under its own pair's key |
| RatesHookNgn.LookupRateRepeat | currency-converter/src/hooks/useRates.jsx:94-103 | after a successful non-NGN lookup, a second lookup returns the identical quote without a request |
| RatesHookNgn.LookupRate | currency-converter/src/hooks/useRates.jsx:79-104 | an NGN pair or a failure leaves the cache unchanged; the request sent is open.er-api for the base when NGN is involved and Frankfurter `latest` otherwise |
| RatesHookNgn.LookupTrend | currency-converter/src/hooks/useRates.jsx:135-156 | an NGN pair fails with no request; any failure leaves the trend cache unchanged |
| RatesHookNgn.LookupTrendNgn | currency-converter/src/hooks/useRates.jsx:136-138 | any NGN pair fails with "Trend unavailable for NGN on this free source." before the cache is read or a request is sent |
| RatesHookNgn.LookupTrendSpec | currency-converter/src/hooks/useRates.jsx:139-155 | for non-NGN pairs: a cached pair returns the stored list. Otherwise one request is sent. An ok reply returns exactly `TrendPoints` of its entries, date-sorted and cached under the pair's key; a not-ok reply throws "trend" and a network failure its own message. Failures leave the cache alone |
| RatesHookNgn.TrendErrorMessage | currency-converter/src/hooks/useRates.jsx:166 | the message shown is the thrown message when it is non-empty, and exactly "Could not load trend." when it is empty |
| RatesHookNgn.RatesHookState.constructor | currency-converter/src/hooks/useRates.jsx:37-41 | recent pairs come from storage, or are empty; everything else starts empty |
| RatesHookNgn.RatesHookState.SelectPair | currency-converter/src/hooks/useRates.jsx:43-51 | the recent pairs become `NextRecent(old, from, to, 6)` and are written to storage, unless the update is skipped |
| RatesHookNgn.RatesHookState.LoadCurrencies | currency-converter/src/hooks/useRates.jsx:54-77 | one request; success sets the NGN-merged list; failure keeps the old list and sets "Failed to load currencies." |
| RatesHookNgn.RatesHookState.GetRate | currency-converter/src/hooks/useRates.jsx:79-104 | the result, the new cache and the request log are those of `LookupRate` with NGN routing |
| RatesHookNgn.RatesHookState.LoadRate | currency-converter/src/hooks/useRates.jsx:107-123 | with an empty code nothing happens. Success sets the rate and date. Failure keeps them and sets the offline-dependent message |
| RatesHookNgn.RatesHookState.LoadTrend | currency-converter/src/hooks/useRates.jsx:135-156 | the result, the new trend cache and the request log are those of `LookupTrend` |
| RatesHookNgn.RatesHookState.FetchTrend | currency-converter/src/hooks/useRates.jsx:158-170 | success sets the trend. Failure sets the trend to none and the error to `TrendErrorMessage` of the thrown message |
| Alerts.AlertKey | currency-converter/src/components/AlertsPanel.jsx:3-5 | the key is `alert:` followed by the pair's `FROM->TO` |
| Alerts.AlertKeyInjective | currency-converter/src/components/AlertsPanel.jsx:3-5 | different pairs of dash-free codes have different alert keys |
| Alerts.Triggered | currency-converter/src/components/AlertsPanel.jsx:43-45 | an alert fires only when it is enabled, its threshold is finite and a rate is known |
| Alerts.TriggeredAbove | currency-converter/src/components/AlertsPanel.jsx:46 | an "above" alert fires exactly when rate ≥ threshold |
| Alerts.TriggeredBelow | currency-converter/src/components/AlertsPanel.jsx:46 | a "below" alert fires exactly when rate ≤ threshold |
| Alerts.TriggeredAtThreshold | currency-converter/src/components/AlertsPanel.jsx:46 | a rate equal to the threshold fires in either direction |
| Alerts.TriggeredMonotone | currency-converter/src/components/AlertsPanel.jsx:46 | a fired alert stays fired as the rate moves further past the threshold |
| Alerts.Lookup | currency-converter/src/components/AlertsPanel.jsx:17 | reading a key gives its stored value, or nothing for a missing key |
| Alerts.LoadPanel | currency-converter/src/components/AlertsPanel.jsx:15-32 | the panel is enabled exactly when a parsable record is stored for the pair. A saved record restores its direction and threshold, and auto-check is on unless the record says `false` (`?? true`). No record gives the defaults. An unparsable value clears only `enabled` |
| Alerts.SaveAlert | currency-converter/src/components/AlertsPanel.jsx:49-55 | a non-finite threshold changes nothing; a finite one enables the panel and writes the pair's key; no other key changes |
| Alerts.RemoveAlert | currency-converter/src/components/AlertsPanel.jsx:57-60 | the pair's key is gone and the panel is disabled with its direction, threshold and auto-check kept; no other key changes |
| Alerts.SaveInvalidThreshold | currency-converter/src/components/AlertsPanel.jsx:50-51 | saving with a non-finite threshold changes neither the store nor the panel |
| Alerts.SaveThenLoad | currency-converter/src/components/AlertsPanel.jsx:49-55 | a save with a finite threshold enables the panel. Loading that pair afterwards restores the same direction, threshold and auto-check flag |
| Alerts.RemoveThenLoad | currency-converter/src/components/AlertsPanel.jsx:57-60 | removing disables the panel. Loading the pair afterwards gives the defaults: disabled, "above", empty threshold, auto-check on. Nothing fires |
| Alerts.OtherPairsUntouched | currency-converter/src/components/AlertsPanel.jsx:53 | saving or removing one pair does not change any other pair's stored alert |
| Alerts.AlertsPanel.constructor | currency-converter/src/components/AlertsPanel.jsx:8-11 | the panel starts disabled, "above", with an empty threshold and auto-check on |
| Alerts.AlertsPanel.Load | currency-converter/src/components/AlertsPanel.jsx:15-32 | the state becomes `LoadPanel` of the pair's stored value. A saved record restores it, with auto-check defaulting to on. No record resets to the defaults. An unparsable value only disables the panel |
| Alerts.AlertsPanel.SetDir | currency-converter/src/components/AlertsPanel.jsx:74 | only the direction changes |
| Alerts.AlertsPanel.SetThreshold | currency-converter/src/components/AlertsPanel.jsx:88 | only the threshold changes |
| Alerts.AlertsPanel.SetAutocheck | currency-converter/src/components/AlertsPanel.jsx:122 | only the auto-check flag changes |
| Alerts.AlertsPanel.Save | currency-converter/src/components/AlertsPanel.jsx:49-55 | the store and the state become those of `SaveAlert` |
| Alerts.AlertsPanel.Remove | currency-converter/src/components/AlertsPanel.jsx:57-60 | the store and the state become those of `RemoveAlert` |
| MultiConvert.Offered | currency-converter/src/components/MultiConvert.jsx:6-8 | the kept codes are exactly those of the input that the currency list offers |
| MultiConvert.InitialSelection | currency-converter/src/components/MultiConvert.jsx:5-9 | the selection holds exactly the preferred codes the currency list offers |
| MultiConvert.InitialSelectionOrder | currency-converter/src/components/MultiConvert.jsx:5-9 | the selection keeps the fixed order of the preferred codes |
| MultiConvert.Rows | currency-converter/src/components/MultiConvert.jsx:29-31 | there are at most as many rows as selected codes. Each row is a selected code other than the base, with a present non-zero rate, and `value = a × rate` |
| MultiConvert.List | currency-converter/src/components/MultiConvert.jsx:26-32 | with no rates the list is empty. Otherwise it follows `Rows`, with a = `Number(amount) \|\| 0` |
| MultiConvert.RowsComplete | currency-converter/src/components/MultiConvert.jsx:30 | every selected code other than the base with a truthy rate gets a row |
| MultiConvert.RowsFollowSelection | currency-converter/src/components/MultiConvert.jsx:29-31 | the rows come in the order of `selected` |
| MultiConvert.ListFollowsSelection | currency-converter/src/components/MultiConvert.jsx:26-32 | the list comes in selection order, and with rates it has a row for every shown selected code |
| App.SymbolEntries | currency-converter/src/App.jsx:84-85 | one currency per provider key, named by its `description` |
| App.SymbolsSpec | currency-converter/src/App.jsx:84-86 | the symbol list is sorted by code, has one entry per provider key, and has nothing else |
| App.Symbols | currency-converter/src/App.jsx:84-86 | one entry per provider key, sorted by code |
| App.FetchRate | currency-converter/src/App.jsx:98-108 | a request is sent exactly when the two currencies differ, and a quote for a different pair needs an ok reply that lists the symbol |
| App.FetchRateSamePair | currency-converter/src/App.jsx:99-101 | a same-currency pair gives rate 1 dated today, with no request |
| App.FetchRateOtherPair | currency-converter/src/App.jsx:102-107 | any other pair sends one request and yields a quote exactly when the reply is ok and lists the symbol. A not-ok reply or a missing rate throws "rate" |
| App.FetchRateAcceptsZero | currency-converter/src/App.jsx:106-107 | a zero rate is returned as a quote, because the check is `== null` |
| App.TargetRows | currency-converter/src/App.jsx:161-163 | each row is a target other than `from` with a present rate, which may be 0, with `value = a × rate` |
| App.Rows | currency-converter/src/App.jsx:158-164 | with no rates the rows are empty. Otherwise they follow `TargetRows`, with a = `Number(amount) \|\| 0` |
| App.TargetRowsComplete | currency-converter/src/App.jsx:162 | every target other than `from` with a present rate gets a row |
| App.TargetRowsInOrder | currency-converter/src/App.jsx:161-163 | the rows come in target order |
| App.RowsInOrder | currency-converter/src/App.jsx:158-164 | the rows come in target order, and with rates every listed target has a row |

Some sources have no row of their own because they reuse a shared member:

- `converted` in the three sources is `Conversion.Converted` (row above cites `useRates.js`). It appears at
  `App.jsx:128-133`, `useRates.jsx:127-132` and `useRates.js:122-127`.
- `toggleTarget` (`App.jsx:138-140`) and `toggle` (`MultiConvert.jsx:34-36`) are both
  `Lists.Toggle`.

## Left out

- `fetch`, `res.ok` and `res.json()` are not modelled. A reply is a parameter, and a
  request is logged without its URL.
- Replies without a `rates` object are not modelled. In the trend code,
  `Object.entries(undefined)` throws a `TypeError`. In the rate code, `rates?.[t]` is
  undefined, which the model treats as a missing rate.
- The constructors give the state before the mount effects run. The currency-list
  effect that runs on mount is `LoadCurrencies`, called separately; App.jsx's symbol
  request is not modelled as a state change, only its list (`Symbols`).
- Props are not modelled.
- The `ok`, `ignore` and `alive` liveness flags are not modelled. Effects are modelled
  as running to completion with no concurrency.
- The loading flags are not modelled.
- The `useDebounced` timers are not modelled, so the amount is the debounced value.
- The 60-second auto-check polling in AlertsPanel is not modelled (lifecycle).
- Rounding of amount × rate is not modelled. Amounts and rates are unbounded reals.
- `Conversion.AmountOrZero`: `Number(x) || 0` keeps ±Infinity, but the model maps every
  non-finite value to 0.
- Date handling is not modelled: today's date is a parameter.
- The seven-day window of the time-series request is not modelled.
- The OPEN_ER reply's `date` stands for the day of `time_last_update_utc` after
  parsing, and is empty when that field is absent.
- `localeCompare` is not modelled exactly. The model uses code-point order, which agrees
  with it on upper-case ISO codes and on `YYYY-MM-DD` dates.
- The stored `recentPairs` value is assumed to be a list of strings, or absent or
  unparsable (which gives `[]`). A stored JSON value of another shape is not modelled.
- `StoredAlert` is a record written by `save`, or text that does not parse. A stored
  `null` or a missing key counts as "no record". Other JSON shapes are not modelled.
- `String(saved.threshold)` is not modelled. The threshold is kept as its parsed value,
  and the empty text is 0.
- App.jsx's rate effect (`App.jsx:110-126`) is not modelled as a state change. It has
  `LoadRate`'s shape with `FetchRate` in place of `GetRate`: there is no cache, and a
  zero rate is accepted (`App.FetchRateAcceptsZero`).
- App.jsx's `fetchAllFromBase` (`App.jsx:142-156`) is not modelled. It only passes the
  reply's `rates` and `date` on; `Rows` takes `allRates` as a parameter.
- The rate-table effect in MultiConvert (`MultiConvert.jsx:13-24`) is not modelled.
  `List` takes `rates` as a parameter.
- The error branch of App.jsx's symbol list is not modelled.
- `formatMoney`, `flag`, `ThemeToggle` and the rendered markup are not modelled: they
  are presentation only.
- TrendChart, the formatting utilities and the pure-UI components are not part of this
  model.
