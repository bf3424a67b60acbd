/** The multi-currency panel of `components/MultiConvert.jsx`: the initial
    selection of target currencies and the rows derived from a base currency's
    rate table. Toggling a target is `Lists.Toggle`. */
module MultiConvert {
  import opened Types
  import opened Lists
  import opened Payloads
  import opened Conversion

  /** The codes preselected, in this order, when the currency list offers them. */
  const Preferred: seq<string> := ["EUR", "GBP", "NGN", "JPY", "CAD", "AUD", "CNY", "INR", "ZAR"]

  /** `codes.filter(code => currencies.some(c => c.code === code))`. */
  function Offered(codes: seq<string>, currencies: seq<Currency>): (r: seq<string>)
    ensures |r| <= |codes|
    ensures forall i :: 0 <= i < |r| ==> r[i] in codes && HasKey(currencies, r[i], CodeOf)
    ensures forall i :: 0 <= i < |codes| && HasKey(currencies, codes[i], CodeOf) ==> codes[i] in r
    decreases |codes|
  {
    if codes == [] then []
    else
      var init := Offered(codes[..|codes| - 1], currencies);
      var last := codes[|codes| - 1];
      if HasKey(currencies, last, CodeOf) then init + [last] else init
  }

  /** The initial `selected`: the preferred codes the currency list offers. */
  function InitialSelection(currencies: seq<Currency>): (r: seq<string>)
    ensures forall i :: 0 <= i < |r| ==> r[i] in Preferred && HasKey(currencies, r[i], CodeOf)
    ensures forall i :: 0 <= i < |Preferred| && HasKey(currencies, Preferred[i], CodeOf) ==> Preferred[i] in r
  {
    Offered(Preferred, currencies)
  }

  /** The filter keeps the order of the codes it keeps. */
  lemma {:induction false} OfferedIsSubsequence(codes: seq<string>, currencies: seq<Currency>)
    ensures IsSubsequence(Offered(codes, currencies), codes)
    decreases |codes|
  {
    if codes != [] {
      var init := codes[..|codes| - 1];
      var last := codes[|codes| - 1];
      assert codes == init + [last];
      OfferedIsSubsequence(init, currencies);
      SubsequenceOfSnoc(Offered(init, currencies), init, last);
    }
  }

  /** The initial selection lists the preferred codes in their fixed order. */
  lemma InitialSelectionOrder(currencies: seq<Currency>)
    ensures IsSubsequence(InitialSelection(currencies), Preferred)
  {
    OfferedIsSubsequence(Preferred, currencies);
  }

  /** `{ code, rate, value }` of a row. */
  datatype Row = Row(code: string, rate: real, value: real)

  /** A selected code gets a row when it is not the base and its rate is truthy:
      present and non-zero. */
  predicate Shown(rates: map<string, real>, code: string, base: string) {
    code != base && code in rates && rates[code] != 0.0
  }

  /** The filter and map over `selected`, with `a` the amount already read. */
  function Rows(rates: map<string, real>, selected: seq<string>, a: real, base: string): (r: seq<Row>)
    ensures |r| <= |selected|
    ensures forall i :: 0 <= i < |r| ==>
      r[i].code in selected && Shown(rates, r[i].code, base)
      && r[i].rate == rates[r[i].code] && r[i].value == a * rates[r[i].code]
    decreases |selected|
  {
    if selected == [] then []
    else
      var init := Rows(rates, selected[..|selected| - 1], a, base);
      var code := selected[|selected| - 1];
      if Shown(rates, code, base) then init + [Row(code, rates[code], a * rates[code])] else init
  }

  function RowCode(r: Row): string { r.code }

  /** The codes of a list of rows. */
  function Codes(rows: seq<Row>): seq<string> {
    Keys(rows, RowCode)
  }

  /** `list`: empty while there is no rate table; otherwise one row per shown selected
      code, valued at `Number(amount) || 0` times its rate. */
  function List(rates: Option<map<string, real>>, selected: seq<string>, amount: Option<real>, base: string): (r: seq<Row>)
    ensures rates.None? ==> r == []
    ensures |r| <= |selected|
    ensures rates.Some? ==> forall i :: 0 <= i < |r| ==>
      r[i].code in selected && Shown(rates.value, r[i].code, base)
      && r[i].rate == rates.value[r[i].code] && r[i].value == AmountOrZero(amount) * r[i].rate
  {
    if rates.None? then [] else Rows(rates.value, selected, AmountOrZero(amount), base)
  }

  /** `Rows` over a list with one more code at the end. */
  lemma RowsSnoc(rates: map<string, real>, selected: seq<string>, code: string, a: real, base: string)
    ensures Codes(Rows(rates, selected + [code], a, base)) ==
            Codes(Rows(rates, selected, a, base)) + (if Shown(rates, code, base) then [code] else [])
  {
    var s := selected + [code];
    assert s[..|s| - 1] == selected;
    if Shown(rates, code, base) {
      KeysSnoc(Rows(rates, selected, a, base), Row(code, rates[code], a * rates[code]), RowCode);
    }
  }

  /** Every shown selected code gets a row. */
  lemma {:induction false} RowsComplete(rates: map<string, real>, selected: seq<string>, a: real, base: string, i: nat)
    requires i < |selected| && Shown(rates, selected[i], base)
    ensures selected[i] in Codes(Rows(rates, selected, a, base))
    decreases |selected|
  {
    var rest := selected[..|selected| - 1];
    var code := selected[|selected| - 1];
    assert selected == rest + [code];
    RowsSnoc(rates, rest, code, a, base);
    if i < |rest| {
      assert rest[i] == selected[i];
      RowsComplete(rates, rest, a, base, i);
    }
  }

  /** The rows come in the order of `selected`. */
  lemma {:induction false} RowsFollowSelection(rates: map<string, real>, selected: seq<string>, a: real, base: string)
    ensures IsSubsequence(Codes(Rows(rates, selected, a, base)), selected)
    decreases |selected|
  {
    if selected != [] {
      var rest := selected[..|selected| - 1];
      var code := selected[|selected| - 1];
      assert selected == rest + [code];
      RowsFollowSelection(rates, rest, a, base);
      RowsSnoc(rates, rest, code, a, base);
      SubsequenceOfSnoc(Codes(Rows(rates, rest, a, base)), rest, code);
    }
  }

  /** The list comes in the order of `selected`, and with a rate table it has a row
      for every shown selected code. */
  lemma ListFollowsSelection(rates: Option<map<string, real>>, selected: seq<string>, amount: Option<real>, base: string)
    ensures IsSubsequence(Codes(List(rates, selected, amount, base)), selected)
    ensures rates.Some? ==> forall i :: 0 <= i < |selected| && Shown(rates.value, selected[i], base) ==>
      selected[i] in Codes(List(rates, selected, amount, base))
  {
    if rates.Some? {
      RowsFollowSelection(rates.value, selected, AmountOrZero(amount), base);
      forall i | 0 <= i < |selected| && Shown(rates.value, selected[i], base)
        ensures selected[i] in Codes(List(rates, selected, amount, base))
      {
        RowsComplete(rates.value, selected, AmountOrZero(amount), base, i);
      }
    }
  }
}
