/**
 * The payment modal: the simulated PayPal flow confirm -> processing ->
 * complete -> confirm, driven by the pay button and two timers, and the
 * numeric price the modal computes from the listing price (the source never
 * displays it).
 */
module PaymentModal {
  import opened JsArray

  datatype Step = Confirm | Processing | Complete

  /** The two scheduled callbacks: after 3000 ms, and the one it schedules for 2000 ms later. */
  datatype Timer = ProcessingDone | ResetAfterComplete

  /** Calls the modal makes to the page: `onPaymentComplete` and `onClose`. */
  datatype Callback = PaymentComplete | Close

  /** The pay button is rendered in the confirm step and is enabled only with an email typed. */
  predicate PayEnabled(step: Step, paypalEmail: string)
  {
    step == Confirm && paypalEmail != ""
  }

  /** The close button is disabled while the payment is processing. */
  predicate CloseEnabled(step: Step)
  {
    step != Processing
  }

  // ---------------------------------------------------------------------------
  // Price normalisation

  /** The characters `[0-9.]` that survive normalisation. */
  predicate IsPriceChar(c: char)
  {
    '0' <= c <= '9' || c == '.'
  }

  /** `tradePrice.replace(/[^0-9.]/g, '')`: every other character is deleted. */
  function PriceValue(tradePrice: string): (r: string)
    ensures |r| <= |tradePrice|
    ensures forall i :: 0 <= i < |r| ==> IsPriceChar(r[i])
  {
    Filter(tradePrice, IsPriceChar)
  }

  /** Normalisation keeps exactly the digits and dots, each as often as it occurs, in order. */
  lemma PriceValueKeepsExactly(tradePrice: string, c: char)
    ensures multiset(PriceValue(tradePrice))[c] == if IsPriceChar(c) then multiset(tradePrice)[c] else 0
    ensures SelectsKept(tradePrice, IsPriceChar, KeptPositions(tradePrice, IsPriceChar), PriceValue(tradePrice))
  {
    FilterCount(tradePrice, IsPriceChar, c);
    FilterIsOrderedSelection(tradePrice, IsPriceChar);
  }

  /** Normalising a normalised price changes nothing. */
  lemma PriceValueIdempotent(tradePrice: string)
    ensures PriceValue(PriceValue(tradePrice)) == PriceValue(tradePrice)
  {
    FilterIdempotent(tradePrice, IsPriceChar);
  }

  /** A price already made of digits and dots is its own value. */
  lemma PriceValueOfNumber(tradePrice: string)
    requires forall i :: 0 <= i < |tradePrice| ==> IsPriceChar(tradePrice[i])
    ensures PriceValue(tradePrice) == tradePrice
  {
    FilterKeepsAll(tradePrice, IsPriceChar);
  }

  /** Normalisation works character by character: a leading digit or dot is kept, anything else dropped. */
  lemma PriceValueCons(c: char, rest: string)
    ensures PriceValue([c] + rest) == (if IsPriceChar(c) then [c] else []) + PriceValue(rest)
  {
    assert ([c] + rest)[1..] == rest;
  }

  /** A seed listing's price: "$35" reads 35. */
  lemma PriceValueOfDollars()
    ensures PriceValue("$35") == "35"
  {
    assert PriceValue("") == [];
    assert "$35" == ['$'] + (['3'] + (['5'] + ""));
    PriceValueCons('5', "");
    PriceValueCons('3', ['5'] + "");
    PriceValueCons('$', ['3'] + (['5'] + ""));
  }

  /** A seed listing's price: "$15 each" reads 15. */
  lemma PriceValueOfEach()
    ensures PriceValue("$15 each") == "15"
  {
    assert PriceValue(" each") == [] by {
      FilterDropsAll(" each", IsPriceChar);
    }
    assert "$15 each" == ['$'] + (['1'] + (['5'] + " each"));
    PriceValueCons('5', " each");
    PriceValueCons('1', ['5'] + " each");
    PriceValueCons('$', ['1'] + (['5'] + " each"));
  }

  // ---------------------------------------------------------------------------
  // The payment flow

  /**
   * The modal's state: the step, the email field, the timers scheduled and
   * not yet fired (in firing order), and the callbacks made to the page so far.
   */
  class PaymentFlow {
    var step: Step
    var paypalEmail: string
    var timers: seq<Timer>
    var callbacks: seq<Callback>
    /** The number of payments started with the pay button. */
    ghost var payments: nat

    /**
     * Each step has exactly the timer it waits for, and every started payment
     * has reported completion once, except the one still under way.
     */
    ghost predicate Valid()
      reads this
    {
      var completed := multiset(callbacks)[PaymentComplete];
      match step
      case Confirm => timers == [] && completed == payments
      case Processing => timers == [ProcessingDone] && completed + 1 == payments
      case Complete => timers == [ResetAfterComplete] && completed + 1 == payments
    }

    constructor ()
      ensures Valid()
      ensures step == Confirm && paypalEmail == "" && timers == [] && callbacks == []
    {
      step := Confirm;
      paypalEmail := "";
      timers := [];
      callbacks := [];
      payments := 0;
    }

    /** Typing into the email field. */
    method SetEmail(email: string)
      requires Valid()
      modifies this
      ensures Valid()
      ensures paypalEmail == email
      ensures step == old(step) && timers == old(timers) && callbacks == old(callbacks)
    {
      paypalEmail := email;
    }

    /** `handlePayment`: move to processing and schedule the 3000 ms timer. */
    method HandlePayment()
      modifies this
      ensures step == Processing && timers == old(timers) + [ProcessingDone]
      ensures paypalEmail == old(paypalEmail) && callbacks == old(callbacks)
      ensures payments == old(payments) + 1
    {
      step := Processing;
      timers := timers + [ProcessingDone];
      payments := payments + 1;
    }

    /** Pressing "Pay with PayPal": only an enabled button starts the payment. */
    method ClickPay() returns (started: bool)
      requires Valid()
      modifies this
      ensures Valid()
      ensures started == PayEnabled(old(step), old(paypalEmail))
      ensures started ==> step == Processing && timers == [ProcessingDone]
      ensures !started ==> step == old(step) && timers == old(timers)
      ensures paypalEmail == old(paypalEmail) && callbacks == old(callbacks)
    {
      started := PayEnabled(step, paypalEmail);
      if started {
        HandlePayment();
      }
    }

    /**
     * The earliest scheduled timer fires. The first moves the step to
     * complete and schedules the second; the second calls `onPaymentComplete`,
     * then `onClose`, and returns the step to confirm.
     */
    method FireTimer()
      requires Valid()
      modifies this
      ensures Valid()
      ensures old(step) == Confirm ==> step == Confirm && callbacks == old(callbacks)
      ensures old(step) == Processing ==> step == Complete && callbacks == old(callbacks)
      ensures old(step) == Complete ==> step == Confirm && callbacks == old(callbacks) + [PaymentComplete, Close]
      ensures paypalEmail == old(paypalEmail)
    {
      if timers == [] {
        return;
      }
      var timer := timers[0];
      timers := timers[1..];
      match timer
      case ProcessingDone =>
        step := Complete;
        timers := timers + [ResetAfterComplete];
      case ResetAfterComplete =>
        callbacks := callbacks + [PaymentComplete];
        callbacks := callbacks + [Close];
        step := Confirm;
    }

    /** Pressing the close button: it does nothing while processing. */
    method ClickClose() returns (closed: bool)
      requires Valid()
      modifies this
      ensures Valid()
      ensures closed == CloseEnabled(old(step))
      ensures closed ==> callbacks == old(callbacks) + [Close]
      ensures !closed ==> callbacks == old(callbacks)
      ensures step == old(step) && timers == old(timers) && paypalEmail == old(paypalEmail)
    {
      closed := CloseEnabled(step);
      if closed {
        callbacks := callbacks + [Close];
      }
    }
  }

  /**
   * One full payment from the confirm step with an email typed: pay, then the
   * two timers. The page hears `onPaymentComplete` exactly once and then
   * `onClose`, and the modal is back at confirm.
   */
  method PayAndWait(flow: PaymentFlow)
    requires flow.Valid() && flow.step == Confirm && flow.paypalEmail != ""
    modifies flow
    ensures flow.Valid() && flow.step == Confirm && flow.timers == []
    ensures flow.callbacks == old(flow.callbacks) + [PaymentComplete, Close]
    ensures flow.payments == old(flow.payments) + 1
  {
    var started := flow.ClickPay();
    assert started;
    flow.FireTimer();
    flow.FireTimer();
  }
}
