/**
 * The driver's "My Bookings" page: the order the open bookings are shown
 * in, which of them count as recalled, and the two requests the page sends
 * (the arrival estimate and the completion) with the checks it runs first.
 */
module MyBookingsView {
  import opened Wrappers
  import opened Seqs
  import opened Responses
  import opened BookingSchema
  import opened NumberInput
  import Lifecycle

  /** The page's `statusPriority` table; completed and cancelled have no entry. */
  function PriorityEntry(s: Status): Option<nat> {
    match s
    case RecallRequested => Some(0)
    case InTransit => Some(1)
    case Arrived => Some(2)
    case Parked => Some(3)
    case _ => None
  }

  /** `statusPriority[status] || 99`: a missing entry and the entry 0 both read as 99. */
  function Rank(s: Status): (r: nat)
    ensures r == 99 <==> s != InTransit && s != Arrived && s != Parked
    ensures r < 99 ==> Some(r) == PriorityEntry(s)
  {
    match PriorityEntry(s)
    case Some(p) => if p == 0 then 99 else p
    case None => 99
  }

  /** The table read as its comment describes it: recall requests first, then in transit, arrived, parked. */
  function IntendedRank(s: Status): (r: nat)
    ensures r < 99 <==> PriorityEntry(s).Some?
    ensures r < 99 ==> Some(r) == PriorityEntry(s)
  {
    match PriorityEntry(s)
    case Some(p) => p
    case None => 99
  }

  /** The comparator `(a, b) => rank(a.status) - rank(b.status)`, as an order. */
  function ByRank(rank: Status -> nat): (Booking, Booking) -> bool {
    (a: Booking, b: Booking) => rank(a.status) <= rank(b.status)
  }

  lemma ByRankPreorder(rank: Status -> nat)
    ensures TotalPreorder(ByRank(rank))
  {
  }

  /**
   * The active tab's order. Because the recall-request entry is 0, a
   * booking whose customer asked for the car is listed after every parked
   * booking instead of first.
   */
  function Display(bookings: seq<Booking>): (r: seq<Booking>)
    ensures multiset(r) == multiset(bookings)
    ensures forall i, j :: 0 <= i < j < |r| ==> Rank(r[i].status) <= Rank(r[j].status)
    ensures forall i, j :: 0 <= i < |r| && 0 <= j < |r| && r[i].status == RecallRequested && r[j].status == Parked
              ==> j < i
  {
    ByRankPreorder(Rank);
    SortBy(bookings, ByRank(Rank))
  }

  /** The order with the table read as intended: every recall request comes before any other booking. */
  function IntendedDisplay(bookings: seq<Booking>): (r: seq<Booking>)
    ensures multiset(r) == multiset(bookings)
    ensures forall i, j :: 0 <= i < j < |r| ==> IntendedRank(r[i].status) <= IntendedRank(r[j].status)
    ensures forall i, j :: 0 <= i < |r| && 0 <= j < |r| && r[i].status == RecallRequested && r[j].status != RecallRequested
              ==> i < j
  {
    ByRankPreorder(IntendedRank);
    SortBy(bookings, ByRank(IntendedRank))
  }

  /** Two bookings shown as written: the parked one comes first although the other's customer is waiting. */
  lemma RecallShownAfterParked(waiting: Booking, parked: Booking)
    requires waiting.status == RecallRequested && parked.status == Parked
    ensures Display([waiting, parked]) == [parked, waiting]
    ensures IntendedDisplay([waiting, parked]) == [waiting, parked]
  {
    PairPermutation(Display([waiting, parked]), waiting, parked);
    PairPermutation(IntendedDisplay([waiting, parked]), waiting, parked);
  }

  /** A rearrangement of two elements is them in one order or the other. */
  lemma PairPermutation(r: seq<Booking>, a: Booking, b: Booking)
    requires multiset(r) == multiset([a, b])
    ensures r == [a, b] || r == [b, a]
  {
    assert |r| == 2 by { assert |multiset(r)| == 2; }
    assert r == [r[0], r[1]];
    assert multiset{r[0], r[1]} == multiset{a, b};
    assert r[0] in multiset{a, b};
    if r[0] == a {
      assert multiset{r[1]} == multiset{b} by { assert multiset{a, r[1]} - multiset{a} == multiset{a, b} - multiset{a}; }
      assert r[1] in multiset{b};
    } else {
      assert r[0] == b;
      assert multiset{r[1]} == multiset{a} by { assert multiset{b, r[1]} - multiset{b} == multiset{a, b} - multiset{b}; }
      assert r[1] in multiset{a};
    }
  }

  /** `['recall-requested', 'in-transit', 'arrived'].includes(status)`: open but no longer just parked. */
  predicate IsRecalled(s: Status) {
    s == RecallRequested || s == InTransit || s == Arrived
  }

  lemma RecalledMeansOpenNotParked(s: Status)
    ensures IsRecalled(s) <==> IsOpen(s) && s != Parked
  {
  }

  /**
   * The estimate form: an empty value or one below 1 is refused on the page;
   * otherwise `parseInt` of the number is sent.
   */
  function EstimatePayload(t: NumberInput): (r: Option<int>)
    ensures r.Some? <==> t.Number? && t.value >= 1.0
    ensures r.Some? ==> r.value >= 1 && r.value as real <= t.value < r.value as real + 1.0
  {
    if t.Blank? || t.value < 1.0 then None else Some(t.value.Floor)
  }

  /** Whatever the page sends passes the server's minutes check; only ownership decides. */
  lemma EstimateSentIsAccepted(t: NumberInput, store: Store, driver: ObjectId, key: ObjectId, now: Time)
    requires EstimatePayload(t).Some?
    ensures var r := Lifecycle.EstimateArrival(store, driver, key, EstimatePayload(t), now);
            (r.Ok? <==> Lifecycle.OwnedBooking(store, driver, key).Ok?)
            && r != Err(BadRequest("Invalid estimated time"))
  {
  }

  /** The completion form's method select. */
  datatype Choice = ChooseCash | ChooseQr

  function ChoiceName(c: Choice): string {
    match c
    case ChooseCash => "cash"
    case ChooseQr => "qr"
  }

  predicate Prepaid(booking: Option<Booking>) {
    booking.Some? && booking.value.paymentStatus == Paid
  }

  /**
   * The completion request the page sends, or None when it refuses first: a
   * code that is not six characters, or (unless already paid) an empty or
   * negative amount. An already-paid booking sends its stored method and
   * amount instead of the form's.
   */
  function CompletionPayload(booking: Option<Booking>, otp: string, choice: Choice, amount: NumberInput)
    : (r: Option<Lifecycle.CompleteRequest>)
    ensures r.Some? <==> |otp| == 6 && (Prepaid(booking) || (amount.Number? && amount.value >= 0.0))
    ensures r.Some? ==> r.value.otp == Some(otp)
    ensures r.Some? && !Prepaid(booking) ==> |Lifecycle.CompletionErrors(r.value)| == 0
    ensures r.Some? && Prepaid(booking) ==>
      && r.value.paymentMethod == Some(PayMethodName(booking.value.payment.payMethod))
      && r.value.amount == booking.value.payment.amount
  {
    var prepaid := Prepaid(booking);
    if |otp| != 6 then None
    else if !prepaid && (amount.Blank? || amount.value < 0.0) then None
    else if prepaid then
      Some(Lifecycle.CompleteRequest(Some(otp), Some(PayMethodName(booking.value.payment.payMethod)),
                                     booking.value.payment.amount))
    else Some(Lifecycle.CompleteRequest(Some(otp), Some(ChoiceName(choice)), Some(amount.value)))
  }

  /**
   * A booking paid upfront by UPI or card can never be completed from this
   * page: the stored method it sends is not one the server accepts.
   */
  lemma PrepaidByCardOrUpiRejected(booking: Booking, otp: string, choice: Choice, amount: NumberInput,
                                   store: Store, driver: ObjectId, key: ObjectId, now: Time)
    requires booking.paymentStatus == Paid && (booking.payment.payMethod == Upi || booking.payment.payMethod == Card)
    requires CompletionPayload(Some(booking), otp, choice, amount).Some?
    ensures var r := Lifecycle.VerifyComplete(store, driver, key, CompletionPayload(Some(booking), otp, choice, amount).value, now);
            r.Err? && r.error.Validation?
  {
    var req := CompletionPayload(Some(booking), otp, choice, amount).value;
    assert |Lifecycle.CompletionErrors(req)| > 0;
  }
}
