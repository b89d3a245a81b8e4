/**
 * When the periodic advice check asks the model for a new recommendation on a
 * tracked asset: never while the asset's data is missing or stale-flagged,
 * advice is loading or the model is unavailable; otherwise when there is no
 * earlier advice for the asset, when its price has moved by more than 10 %
 * since that advice, or when that advice is more than four hours old.
 */
module AdvicePolicy {
  import opened Wrappers
  import opened Types
  import opened Seqs

  /** Advice older than this (milliseconds) is renewed. */
  const ADVICE_MAX_AGE_MS := 4 * 60 * 60 * 1000

  /** A price move above this percentage renews the advice. */
  const PRICE_MOVE_PERCENT: real := 10.0

  function Abs(x: real): real {
    if x < 0.0 then -x else x
  }

  /**
   * The percentage move from the price at the last advice to the current
   * price; taken as 0 unless both prices are positive.
   */
  function PriceChangeSinceAdvice(priceAtAdvice: real, currentPrice: real): (r: real)
    ensures r >= 0.0
    ensures !(currentPrice > 0.0 && priceAtAdvice > 0.0) ==> r == 0.0
    ensures currentPrice > 0.0 && priceAtAdvice > 0.0 ==> r * priceAtAdvice == Abs(currentPrice - priceAtAdvice) * 100.0
  {
    if currentPrice > 0.0 && priceAtAdvice > 0.0 then Abs((currentPrice - priceAtAdvice) / priceAtAdvice) * 100.0
    else 0.0
  }

  /** The test `a.crypto.id === id` of the lookup of an asset's advice. */
  function AdviceFor(id: string): Advice -> bool {
    (a: Advice) => a.crypto.id == id
  }

  /** The first advice in the list given for asset `id`, if any. */
  function LastAdviceFor(advices: seq<Advice>, id: string): (r: Option<Advice>)
    ensures r.None? <==> forall i :: 0 <= i < |advices| ==> advices[i].crypto.id != id
    ensures r.Some? ==> r.value in advices && r.value.crypto.id == id
    ensures r.Some? ==>
      exists i :: 0 <= i < |advices| && r.value == advices[i] && forall j :: 0 <= j < i ==> advices[j].crypto.id != id
  {
    match FindFirst(advices, AdviceFor(id))
    case None => None
    case Some(i) => Some(advices[i])
  }

  /** Whether the advice `last` on record for an asset is due for renewal, judged on the asset's `current` snapshot at time `now`. */
  predicate AdviceDue(last: Option<Advice>, current: CryptoCurrency, now: int) {
    || last.None?
    || PriceChangeSinceAdvice(last.value.crypto.currentPrice, current.currentPrice) > PRICE_MOVE_PERCENT
    || now - last.value.timestamp > ADVICE_MAX_AGE_MS
  }

  /**
   * The decision of the periodic advice check for asset `id`: `current` is
   * its record (if tracked), `loadingAdvice` whether advice for it is being
   * fetched, `aiAvailable` whether the model is configured.
   */
  predicate ShouldRequestAdvice(current: Option<CryptoCurrency>, loadingAdvice: bool, aiAvailable: bool,
                                advices: seq<Advice>, id: string, now: int) {
    && current.Some?
    && !loadingAdvice
    && aiAvailable
    && IsSet(current.value.lastUpdated)
    && AdviceDue(LastAdviceFor(advices, id), current.value, now)
  }

  /**
   * The renewal rule without division: with earlier advice `a`, advice is due
   * exactly when both prices are positive and ten times the move exceeds the
   * old price, or when more than four hours have passed.
   */
  lemma {:induction false} AdviceDueWithoutDivision(a: Advice, current: CryptoCurrency, now: int)
    ensures AdviceDue(Some(a), current, now) <==>
      || (current.currentPrice > 0.0 && a.crypto.currentPrice > 0.0 &&
          Abs(current.currentPrice - a.crypto.currentPrice) * 10.0 > a.crypto.currentPrice)
      || now - a.timestamp > ADVICE_MAX_AGE_MS
  {
    var base, cur := a.crypto.currentPrice, current.currentPrice;
    if cur > 0.0 && base > 0.0 {
      PercentAboveTen(PriceChangeSinceAdvice(base, cur), base, Abs(cur - base));
    }
  }

  /** A percentage `change` of `base` equal to `move` exceeds 10 exactly when ten times `move` exceeds `base`. */
  lemma PercentAboveTen(change: real, base: real, move: real)
    requires base > 0.0 && change * base == move * 100.0
    ensures change > 10.0 <==> move * 10.0 > base
  {
    if change > 10.0 {
      ScalePositive(change, 10.0, base);
    }
    if move * 10.0 > base {
      assert change * base > 10.0 * base;
      CancelPositive(change, 10.0, base);
    }
  }

  /** Multiplying both sides of a strict inequality by a positive factor. */
  lemma ScalePositive(x: real, y: real, c: real)
    requires c > 0.0 && x > y
    ensures x * c > y * c
  {
  }

  /** Dividing both sides of a strict inequality by a positive factor. */
  lemma CancelPositive(x: real, y: real, c: real)
    requires c > 0.0 && x * c > y * c
    ensures x > y
  {
  }

  /** Both thresholds are strict: a move of exactly 10 % or an age of exactly four hours does not renew the advice. */
  lemma ThresholdsAreStrict(a: Advice, current: CryptoCurrency)
    requires a.crypto.currentPrice == 100.0 && current.currentPrice == 110.0
    ensures !AdviceDue(Some(a), current, a.timestamp + ADVICE_MAX_AGE_MS)
    ensures AdviceDue(Some(a), current, a.timestamp + ADVICE_MAX_AGE_MS + 1)
  {
    AdviceDueWithoutDivision(a, current, a.timestamp + ADVICE_MAX_AGE_MS);
  }

  /** With no earlier advice for the asset, a tracked, fetched asset always gets advice when the model is free and available. */
  lemma FirstAdviceAlwaysRequested(current: CryptoCurrency, advices: seq<Advice>, id: string, now: int)
    requires IsSet(current.lastUpdated)
    requires forall i :: 0 <= i < |advices| ==> advices[i].crypto.id != id
    ensures ShouldRequestAdvice(Some(current), false, true, advices, id, now)
  {
  }
}
