/**
 * The upfront-payment page a driver reaches after creating a booking at a
 * venue that takes payment first. It records the payment through the
 * booking update route.
 */
module PaymentForm {
  import opened Wrappers
  import opened BookingSchema
  import opened NumberInput
  import Lifecycle

  /** The three method buttons; cash is selected when the page opens. */
  datatype Choice = CashChoice | UpiChoice | CardChoice

  const DefaultChoice: Choice := CashChoice

  function ChoiceName(c: Choice): string {
    match c
    case CashChoice => "cash"
    case UpiChoice => "upi"
    case CardChoice => "card"
  }

  /** The method the server stores for a button. */
  function ChoiceMethod(c: Choice): (m: PayMethod)
    ensures PayMethodName(m) == ChoiceName(c)
    ensures m != Cash ==> m == Upi || m == Card
  {
    match c
    case CashChoice => Cash
    case UpiChoice => Upi
    case CardChoice => Card
  }

  /**
   * The update body the page sends, or None when it refuses an empty or
   * non-positive amount. The body holds payment fields only: the chosen
   * method, the amount, state "completed", the time, and status "paid".
   */
  function Submit(amount: NumberInput, choice: Choice, now: Time): (r: Option<Lifecycle.UpdateRequest>)
    ensures r.Some? <==> amount.Number? && amount.value > 0.0
    ensures r.Some? ==> r.value.notes.None? && r.value.payment.Some? && r.value.paymentStatus == Some("paid")
    ensures r.Some? ==> r.value.payment.value.amount == Some(amount.value) && r.value.payment.value.paidAt == Some(now)
    ensures r.Some? ==> Lifecycle.MergePayment(Payment(PendingMethod, None, StatePending, None), r.value.payment.value).Some?
  {
    if amount.Blank? || amount.value <= 0.0 then None
    else
      Some(Lifecycle.UpdateRequest(
        Some(Lifecycle.PaymentPatch(Some(ChoiceName(choice)), Some(amount.value), Some("completed"), Some(now))),
        Some("paid"), None))
  }

  /**
   * For the owning driver, recording a payment always saves: the booking
   * becomes paid with state completed, the chosen method and the amount,
   * and its status is left as it was.
   */
  lemma PaymentRecorded(store: Store, driver: ObjectId, key: ObjectId, amount: NumberInput, choice: Choice,
                        now: Time, at: Time)
    requires Submit(amount, choice, now).Some?
    requires Lifecycle.OwnedBooking(store, driver, key).Ok?
    ensures var r := Lifecycle.Update(store, driver, key, Submit(amount, choice, now).value, at);
            && r.Ok?
            && var prev := store[FindByKey(store, key).value];
            && var b := r.value.booking;
            && b.status == prev.status
            && b.paymentStatus == Paid
            && b.payment == Payment(ChoiceMethod(choice), Some(amount.value), StateCompleted, Some(now))
  {
    var req := Submit(amount, choice, now).value;
    var i := Lifecycle.OwnedBooking(store, driver, key).value;
    var patch := req.payment.value;
    assert ParsePayMethod(ChoiceName(choice)) == Some(ChoiceMethod(choice));
    assert ParsePayState("completed") == Some(StateCompleted);
    assert ParsePaymentStatus("paid") == Some(Paid);
    var merged := Lifecycle.MergePayment(store[i].payment, patch);
    assert merged == Some(Payment(ChoiceMethod(choice), Some(amount.value), StateCompleted, Some(now)));
  }
}
