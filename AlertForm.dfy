/**
 * The form that creates a price alert: a target price, a condition and an
 * error message. Submitting validates the target against the asset's current
 * price and hands the accepted pair to the application. The target field
 * holds text in the source; here it holds the number that text parses to,
 * `None` standing for text that does not parse.
 */
module AlertForm {
  import opened Wrappers
  import opened Types
  import opened Alerts

  /** The three rejections of a submitted target. */
  datatype FormError = TargetNotPositive | DropTargetNotBelow | RiseTargetNotAbove

  /**
   * `x.toFixed(d)` read back as a number, for a scale `10^d`: the multiple of
   * `1/scale` nearest to `x`, halves rounded up.
   */
  function RoundToScale(x: real, scale: real): (r: real)
    requires scale > 0.0
    ensures -0.5 < (r - x) * scale <= 0.5
    ensures (r * scale).Floor as real == r * scale
  {
    var n := (x * scale + 0.5).Floor;
    assert (n as real / scale) * scale == n as real;
    n as real / scale
  }

  /** The target proposed when the form opens: the current price to 4 decimals below 1, to 2 otherwise; empty for a price that is not positive. */
  function InitialTarget(currentPrice: real): Option<real> {
    if currentPrice > 0.0 then Some(RoundToScale(currentPrice, if currentPrice < 1.0 then 10000.0 else 100.0))
    else None
  }

  /**
   * The submit check. The target must parse to a positive number; then a
   * "drops to" target must be below the current price and a "rises to"
   * target above it. An accepted submission yields exactly the target and
   * the condition.
   */
  function ValidateAlert(target: Option<real>, condition: AlertConditionType, currentPrice: real)
    : (r: Result<(real, AlertConditionType), FormError>)
    ensures r.Success? <==>
      && target.Some? && target.value > 0.0
      && (condition == PriceDropsTo ==> target.value < currentPrice)
      && (condition == PriceRisesTo ==> target.value > currentPrice)
    ensures r.Success? ==> r.value == (target.value, condition)
    ensures (target.None? || target.value <= 0.0) ==> r == Failure(TargetNotPositive)
    ensures target.Some? && target.value > 0.0 && condition == PriceDropsTo && target.value >= currentPrice ==>
      r == Failure(DropTargetNotBelow)
    ensures target.Some? && target.value > 0.0 && condition == PriceRisesTo && target.value <= currentPrice ==>
      r == Failure(RiseTargetNotAbove)
  {
    if target.None? || target.value <= 0.0 then Failure(TargetNotPositive)
    else if condition == PriceDropsTo && target.value >= currentPrice then Failure(DropTargetNotBelow)
    else if condition == PriceRisesTo && target.value <= currentPrice then Failure(RiseTargetNotAbove)
    else Success((target.value, condition))
  }

  /**
   * An accepted alert is on the side of the current price not yet reached: it
   * would not fire if evaluated at the price it was created at.
   */
  lemma AcceptedAlertDoesNotFireYet(target: Option<real>, condition: AlertConditionType, currentPrice: real,
                                    alert: CryptoAlert)
    requires ValidateAlert(target, condition, currentPrice).Success?
    requires alert.targetPrice == target.value && alert.condition == condition
    ensures !Fires(alert, currentPrice)
  {
  }

  /** The form's state: the target field, the selected condition and the error shown (`None` for none). */
  class AlertFormState {
    var targetPrice: Option<real>
    var condition: AlertConditionType
    var error: Option<FormError>

    constructor ()
      ensures targetPrice == None && condition == PriceDropsTo && error == None
    {
      targetPrice := None;
      condition := PriceDropsTo;
      error := None;
    }

    /**
     * The form's reset, which runs when the dialog opens and again whenever the
     * displayed asset's `currentPrice` changes while it is open (a data refresh
     * does that): proposes that price as target, selects "drops to" and clears
     * the error, discarding whatever was typed or chosen before.
     */
    method Open(currentPrice: real)
      modifies this
      ensures targetPrice == InitialTarget(currentPrice) && condition == PriceDropsTo && error == None
    {
      if currentPrice > 0.0 {
        targetPrice := Some(RoundToScale(currentPrice, if currentPrice < 1.0 then 10000.0 else 100.0));
      } else {
        targetPrice := None;
      }
      condition := PriceDropsTo;
      error := None;
    }

    /** Typing in the target field replaces the target and clears the error. */
    method EditTarget(value: Option<real>)
      modifies this
      ensures targetPrice == value && error == None && condition == old(condition)
    {
      targetPrice := value;
      error := None;
    }

    /** Choosing a condition; the error stays as it was. */
    method ChooseCondition(c: AlertConditionType)
      modifies this
      ensures condition == c && targetPrice == old(targetPrice) && error == old(error)
    {
      condition := c;
    }

    /**
     * Submitting at the asset's `currentPrice`: a rejected target sets the
     * matching error and emits nothing; an accepted one emits the pair.
     */
    method Submit(currentPrice: real) returns (emitted: Option<(real, AlertConditionType)>)
      modifies this
      ensures targetPrice == old(targetPrice) && condition == old(condition)
      ensures match ValidateAlert(old(targetPrice), old(condition), currentPrice)
        case Success(pair) => emitted == Some(pair) && error == old(error)
        case Failure(e) => emitted == None && error == Some(e)
    {
      var checked := ValidateAlert(targetPrice, condition, currentPrice);
      match checked
      case Failure(e) =>
        error := Some(e);
        emitted := None;
      case Success(pair) =>
        emitted := Some(pair);
    }
  }

  /** Opening the form and submitting it untouched asks for a "drops to" alert at the proposed price, accepted only if rounding took it below the current price. */
  lemma UntouchedFormSubmission(currentPrice: real)
    ensures ValidateAlert(InitialTarget(currentPrice), PriceDropsTo, currentPrice).Success? <==>
      currentPrice > 0.0 && InitialTarget(currentPrice).value > 0.0 && InitialTarget(currentPrice).value < currentPrice
  {
  }
}
