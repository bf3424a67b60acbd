/** The conversion rule shared by the page and both rate hooks, and the
    `Number(amount) || 0` coercion of the multi-currency tables. An amount is the
    result of `Number(text)`: `Some(x)` for a finite number, `None` for NaN and
    the infinities. A rate is the `rate` state: `None` while it is `null`. */
module Conversion {
  import opened Types

  /** `converted`: a non-finite amount gives 0; a missing or zero rate gives the
      amount for a same-currency pair and 0 otherwise; else amount times rate. */
  function Converted(amount: Option<real>, rate: Option<real>, from: string, to: string): (r: real)
    ensures amount.None? ==> r == 0.0
    ensures rate.None? && from != to ==> r == 0.0
  {
    if amount.None? then 0.0
    else if rate.None? || rate.value == 0.0 then (if from == to then amount.value else 0.0)
    else amount.value * rate.value
  }

  lemma ConvertedNonFinite(rate: Option<real>, from: string, to: string)
    ensures Converted(None, rate, from, to) == 0.0
  {
  }

  /** `!rate` is true for `null` and for 0 alike. */
  lemma ConvertedWithoutRate(a: real, rate: Option<real>, from: string, to: string)
    requires rate.None? || rate == Some(0.0)
    ensures Converted(Some(a), rate, from, to) == if from == to then a else 0.0
  {
  }

  lemma ConvertedWithRate(a: real, r: real, from: string, to: string)
    requires r != 0.0
    ensures Converted(Some(a), Some(r), from, to) == a * r
  {
  }

  /** For a same-currency pair the amount comes back unchanged, whether the rate
      is still missing or is the 1 a same-pair lookup returns. */
  lemma ConvertedSamePair(a: real, rate: Option<real>, code: string)
    requires rate.None? || rate == Some(0.0) || rate == Some(1.0)
    ensures Converted(Some(a), rate, code, code) == a
  {
  }

  /** `Number(amount) || 0`: NaN becomes 0. */
  function AmountOrZero(amount: Option<real>): (a: real)
    ensures amount.Some? ==> a == amount.value
    ensures amount.None? ==> a == 0.0
  {
    if amount.Some? then amount.value else 0.0
  }
}
