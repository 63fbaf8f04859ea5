/**
 * The booking handlers as pure transitions. Each takes the bookings
 * collection, the authenticated actor (a driver's `_id` or a customer's
 * phone), the clock reading and any random draws, and returns either the
 * error response or the new collection, the saved booking and the outbox
 * of socket events, texts and e-mails the handler sends.
 *
 * The code is modelled as written: estimate-arrival and arrived do not
 * look at the current status, the code is never cleared, and completion
 * leaves `payment.status` alone.
 */
module Lifecycle {
  import opened Wrappers
  import opened Responses
  import opened Text
  import opened BookingSchema
  import opened Outbox
  import opened Validators
  import Hex
  import Otp
  import Sms
  import JsonList

  const InvalidOtp := Unauthenticated("Invalid OTP")
  const OtpExpired := Unauthenticated("OTP expired")

  /** A successful handler's effect: the new collection, the booking as saved, what was sent. */
  datatype Outcome = Outcome(store: Store, booking: Booking, outbox: seq<Message>)

  /** A request-body value that arrives either as multipart text or as a JSON boolean. */
  datatype Field = TextField(text: string) | FlagField(flag: bool)

  datatype CreateRequest = CreateRequest(
    customerPhone: string,
    customerName: string,
    customerEmail: Option<string>,
    vehicleType: string,
    vehicleNumber: string,
    vehicleModel: Option<string>,
    vehicleColor: Option<string>,
    estimatedDuration: string,
    parkingSpot: Option<string>,
    venue: Option<string>,
    notes: Option<string>,
    hasValuables: Option<Field>,
    valuables: Option<string>,
    images: seq<string>)

  /** The random inputs of a create: the new `_id`, the id's four-digit draw, the token bytes. */
  datatype Draws = Draws(key: ObjectId, idDraw: nat, tokenBytes: seq<Hex.byte>)

  predicate DrawsInRange(d: Draws) {
    d.idDraw < 10000 && |d.tokenBytes| == 32
  }

  /** Names of the create fields whose validator fails, in declaration order. */
  function CreateErrors(req: CreateRequest): (errs: seq<string>)
    ensures |errs| == 0 <==>
      IsMobilePhone(req.customerPhone) && NotBlank(req.customerName)
      && ParseVehicleType(req.vehicleType).Some? && NotBlank(req.vehicleNumber)
      && IntLiteral(req.estimatedDuration).Some? && IntLiteral(req.estimatedDuration).value >= 1
  {
    var d := IntLiteral(req.estimatedDuration);
    (if IsMobilePhone(req.customerPhone) then [] else ["customerPhone"])
    + (if NotBlank(req.customerName) then [] else ["customerName"])
    + (if ParseVehicleType(req.vehicleType).Some? then [] else ["vehicleType"])
    + (if NotBlank(req.vehicleNumber) then [] else ["vehicleNumber"])
    + (if d.Some? && d.value >= 1 then [] else ["estimatedDuration"])
  }

  /** `hasValuables === "true" || hasValuables === true`. */
  function ValuablesFlag(f: Option<Field>): (b: bool)
    ensures b <==> f == Some(TextField("true")) || f == Some(FlagField(true))
  {
    match f
    case Some(TextField(t)) => t == "true"
    case Some(FlagField(x)) => x
    case None => false
  }

  /** The valuables field: parsed from JSON when present, else (or when unreadable) empty. */
  function ValuablesList(raw: Option<string>): (xs: seq<string>)
    ensures !Truthy(raw) ==> xs == []
    ensures forall ys :: raw == Some(JsonList.Stringify(ys)) ==> xs == ys
  {
    if !Truthy(raw) then []
    else
      assert forall ys :: raw == Some(JsonList.Stringify(ys)) ==> JsonList.Parse(raw.value) == Some(ys) by {
        forall ys | raw == Some(JsonList.Stringify(ys)) ensures JsonList.Parse(raw.value) == Some(ys) {
          JsonList.StringifyParse(ys);
        }
      }
      match JsonList.Parse(raw.value)
      case Some(ys) => ys
      case None => []
  }

  function OptTrim(v: Option<string>): Option<string> {
    match v
    case Some(s) => Some(Trim(s))
    case None => None
  }

  /** The document the create handler builds from a validated request. */
  function Draft(driver: ObjectId, req: CreateRequest, now: nat, draws: Draws): (b: Booking)
    requires DrawsInRange(draws) && |CreateErrors(req)| == 0
    ensures b.status == Parked && b.driver == driver && b.key == draws.key
    ensures b.bookingId == MakeBookingId(now, draws.idDraw)
    ensures b.accessToken == MakeAccessToken(draws.tokenBytes)
    ensures b.customer.phone == req.customerPhone && b.customer.name == Trim(req.customerName)
    ensures b.customer.email.None? <==> !Truthy(req.customerEmail)
    ensures b.customer.email.Some? ==> b.customer.email == req.customerEmail
    ensures b.vehicle.number == ToUpper(Trim(req.vehicleNumber))
    ensures VehicleTypeName(b.vehicle.kind) == req.vehicleType
    ensures b.vehicle.hasValuables <==> ValuablesFlag(req.hasValuables)
    ensures b.vehicle.valuables == ValuablesList(req.valuables)
    ensures b.vehicle.images == req.images
    ensures b.parking.estimatedDuration == IntLiteral(req.estimatedDuration).value
    ensures b.parking.estimatedDuration >= 1
    ensures b.createdAt == now && b.updatedAt == now
  {
    var vehicle := Vehicle(
      ParseVehicleType(req.vehicleType).value,
      ToUpper(Trim(req.vehicleNumber)),
      req.vehicleModel, req.vehicleColor, req.images,
      ValuablesFlag(req.hasValuables),
      ValuablesList(req.valuables));
    var customer := Customer(
      req.customerPhone, Trim(req.customerName),
      if Truthy(req.customerEmail) then req.customerEmail else None);
    var b := InitialBooking(
      draws.key, MakeBookingId(now, draws.idDraw), MakeAccessToken(draws.tokenBytes),
      driver, customer, vehicle, IntLiteral(req.estimatedDuration).value,
      Location(OptTrim(req.parkingSpot), OptTrim(req.venue)), req.notes, now);
    assert b.vehicle.number == ToUpper(ToUpper(Trim(req.vehicleNumber)));
    UpperIdempotent(Trim(req.vehicleNumber));
    b
  }

  lemma UpperIdempotent(s: string)
    ensures ToUpper(ToUpper(s)) == ToUpper(s)
  {
  }

  /** The customer link: `${FRONTEND_URL || "http://localhost:3000"}/customer/access/${token}`. */
  function AccessLink(frontendUrl: Option<string>, token: string): (link: string)
    ensures Contains(link, token)
  {
    var base := if Truthy(frontendUrl) then frontendUrl.value else "http://localhost:3000";
    var link := base + "/customer/access/" + token;
    assert OccursAt(link, token, |base| + 17);
    link
  }

  /** `if (booking.customer.email)`: an e-mail is sent only to a non-empty address. */
  function MailTo(email: Option<string>, kind: EmailKind, bookingId: string): (m: seq<Message>)
    ensures |m| <= 1
    ensures |m| == 1 <==> Truthy(email)
  {
    if Truthy(email) then [Email(email.value, kind, bookingId)] else []
  }

  /** What a successful create sends: the e-mail if any, the confirmation text, the supervisors' event. */
  function CreateOutbox(b: Booking, frontendUrl: Option<string>): (out: seq<Message>)
    ensures Emits(out) == [(Supervisors, NewBooking(b.bookingId))]
    ensures |out| >= 2 && out[|out| - 2] ==
      TextMessage(b.customer.phone, Sms.ConfirmationMessage(b.bookingId, AccessLink(frontendUrl, b.accessToken)))
    ensures |out| - 2 == |MailTo(b.customer.email, ConfirmationEmail, b.bookingId)|
  {
    var mail := MailTo(b.customer.email, ConfirmationEmail, b.bookingId);
    var sms := TextMessage(b.customer.phone, Sms.ConfirmationMessage(b.bookingId, AccessLink(frontendUrl, b.accessToken)));
    var tail := [Emit(Supervisors, NewBooking(b.bookingId))];
    EmitsOfQuiet(mail + [sms], tail);
    assert Emits(tail) == [(Supervisors, NewBooking(b.bookingId))];
    mail + [sms] + tail
  }

  /**
   * POST /bookings. More than four images is refused by the upload stage;
   * failed validators give 400 with their names; a clash on a unique index
   * makes the save fail. On success the booking is appended and the
   * supervisors' room is told.
   */
  function Create(
    store: Store, driver: ObjectId, req: CreateRequest, now: nat, draws: Draws,
    frontendUrl: Option<string>): (r: Result<Outcome, Error>)
    requires DrawsInRange(draws)
    ensures |req.images| > 4 ==> r == Err(ServerError)
    ensures |req.images| <= 4 && |CreateErrors(req)| > 0 ==> r == Err(Validation(CreateErrors(req)))
    ensures r.Ok? <==> |req.images| <= 4 && |CreateErrors(req)| == 0
                       && Insertable(store, Draft(driver, req, now, draws))
    ensures r.Ok? ==> r.value.booking == Draft(driver, req, now, draws)
                      && r.value.store == store + [r.value.booking]
                      && r.value.outbox == CreateOutbox(r.value.booking, frontendUrl)
  {
    if |req.images| > 4 then Err(ServerError)
    else if |CreateErrors(req)| > 0 then Err(Validation(CreateErrors(req)))
    else
      var b := Draft(driver, req, now, draws);
      if !Insertable(store, b) then Err(ServerError)
      else Ok(Outcome(store + [b], b, CreateOutbox(b, frontendUrl)))
  }

  /** Texts and e-mails contribute no socket events. */
  lemma {:induction false} EmitsOfQuiet(quiet: seq<Message>, rest: seq<Message>)
    requires forall k :: 0 <= k < |quiet| ==> !quiet[k].Emit?
    ensures Emits(quiet + rest) == Emits(rest)
  {
    if |quiet| == 0 {
      assert quiet + rest == rest;
    } else {
      assert (quiet + rest)[0] == quiet[0];
      assert (quiet + rest)[1..] == quiet[1..] + rest;
      EmitsOfQuiet(quiet[1..], rest);
    }
  }

  /** GET /bookings/:id. */
  function GetBooking(store: Store, key: ObjectId): (r: Result<Booking, Error>)
    ensures r.Ok? <==> exists i :: 0 <= i < |store| && store[i].key == key
    ensures r.Ok? ==> r.value in store && r.value.key == key
    ensures r.Err? ==> r.error == NotFound
  {
    match FindByKey(store, key)
    case None => Err(NotFound)
    case Some(i) => Ok(store[i])
  }

  /** POST /bookings/:id/recall, by the customer whose phone is on the booking. */
  function RequestRecall(store: Store, phone: string, key: ObjectId, now: Time): (r: Result<Outcome, Error>)
    ensures FindByKey(store, key).None? ==> r == Err(NotFound)
    ensures FindByKey(store, key).Some? ==>
      var prev := store[FindByKey(store, key).value];
      && (prev.customer.phone != phone ==> r == Err(Forbidden))
      && (prev.customer.phone == phone && prev.status != Parked ==> r == Err(BadRequest("Booking cannot be recalled")))
      && (prev.customer.phone == phone && prev.status == Parked ==> r.Ok?)
    ensures r.Ok? ==>
      var i := FindByKey(store, key).value;
      var prev := store[i];
      var b := r.value.booking;
      && r.value.store == store[i := b]
      && b.status == RecallRequested && b.recall.requestedAt == Some(now) && b.updatedAt == now
      && b.(status := prev.status, recall := prev.recall.(requestedAt := b.recall.requestedAt), updatedAt := prev.updatedAt)
         == prev.(recall := prev.recall.(requestedAt := b.recall.requestedAt))
      && r.value.outbox == [Emit(DriverRoom(prev.driver), RecallRequest(prev.bookingId))]
  {
    match FindByKey(store, key)
    case None => Err(NotFound)
    case Some(i) =>
      var prev := store[i];
      if prev.customer.phone != phone then Err(Forbidden)
      else if prev.status != Parked then Err(BadRequest("Booking cannot be recalled"))
      else
        var b := Touch(prev.(status := RecallRequested, recall := prev.recall.(requestedAt := Some(now))), now);
        Ok(Outcome(store[i := b], b, [Emit(DriverRoom(prev.driver), RecallRequest(prev.bookingId))]))
  }

  /** Owner check shared by the driver handlers: `booking.driver.toString() !== req.user._id.toString()`. */
  function OwnedBooking(store: Store, driver: ObjectId, key: ObjectId): (r: Result<nat, Error>)
    ensures r.Ok? ==> r.value < |store| && store[r.value].key == key && store[r.value].driver == driver
    ensures r.Ok? ==> FindByKey(store, key) == Some(r.value)
    ensures r == Err(NotFound) <==> FindByKey(store, key).None?
    ensures r == Err(Forbidden) <==>
      FindByKey(store, key).Some? && store[FindByKey(store, key).value].driver != driver
    ensures r.Ok? || r == Err(NotFound) || r == Err(Forbidden)
  {
    match FindByKey(store, key)
    case None => Err(NotFound)
    case Some(i) => if store[i].driver != driver then Err(Forbidden) else Ok(i)
  }

  /**
   * POST /bookings/:id/estimate-arrival. The minutes are checked before the
   * lookup; the owner may then move the booking to in-transit from any status.
   */
  function EstimateArrival(store: Store, driver: ObjectId, key: ObjectId, minutes: Option<int>, now: Time)
    : (r: Result<Outcome, Error>)
    ensures minutes.None? || minutes.value < 1 ==> r == Err(BadRequest("Invalid estimated time"))
    ensures minutes.Some? && minutes.value >= 1 ==>
      (r.Ok? <==> OwnedBooking(store, driver, key).Ok?)
      && (r.Err? ==> r.error == OwnedBooking(store, driver, key).error)
    ensures r.Ok? ==>
      var i := FindByKey(store, key).value;
      var prev := store[i];
      var b := r.value.booking;
      && r.value.store == store[i := b]
      && b.status == InTransit && b.recall.estimatedArrival == minutes && b.updatedAt == now
      && b.(status := prev.status, recall := prev.recall, updatedAt := prev.updatedAt) == prev
      && b.recall.(estimatedArrival := prev.recall.estimatedArrival) == prev.recall
      && r.value.outbox ==
         [Emit(CustomerRoom(prev.customer.phone), CarInTransit(prev.bookingId, minutes.value))]
         + MailTo(prev.customer.email, RecallEmail, prev.bookingId)
         + [TextMessage(prev.customer.phone, Sms.RecallMessage(prev.bookingId, DecimalString(minutes.value)))]
  {
    if minutes.None? || minutes.value < 1 then Err(BadRequest("Invalid estimated time"))
    else
      var i :- OwnedBooking(store, driver, key);
      var prev := store[i];
      var m := minutes.value;
      var b := Touch(prev.(status := InTransit, recall := prev.recall.(estimatedArrival := Some(m))), now);
      Ok(Outcome(store[i := b], b,
        [Emit(CustomerRoom(prev.customer.phone), CarInTransit(prev.bookingId, m))]
        + MailTo(prev.customer.email, RecallEmail, prev.bookingId)
        + [TextMessage(prev.customer.phone, Sms.RecallMessage(prev.bookingId, DecimalString(m)))]))
  }

  /**
   * POST /bookings/:id/arrived. The owner may mark any booking arrived; a
   * fresh code replaces whatever code was stored and expires ten minutes on.
   */
  function MarkArrived(store: Store, driver: ObjectId, key: ObjectId, now: Time, draw: nat)
    : (r: Result<Outcome, Error>)
    requires draw < 900000
    ensures r.Ok? <==> OwnedBooking(store, driver, key).Ok?
    ensures r.Err? ==> r.error == OwnedBooking(store, driver, key).error
    ensures r.Ok? ==>
      var i := FindByKey(store, key).value;
      var prev := store[i];
      var b := r.value.booking;
      && b.verification.otp.Some?
      && var otp := b.verification.otp.value;
      && otp == Otp.Generate(draw)
      && r.value.store == store[i := b]
      && b.status == Arrived && b.recall.arrivedAt == Some(now) && b.updatedAt == now
      && |otp| == 6 && AllDigits(otp) && otp[0] != '0'
      && 100000 <= DigitsValue(otp) <= 999999
      && b.verification.otpExpiry == Some(now + Otp.LifetimeMs)
      && b.verification.verified == prev.verification.verified
      && b.(status := prev.status, recall := prev.recall, verification := prev.verification,
            updatedAt := prev.updatedAt) == prev
      && b.recall.(arrivedAt := prev.recall.arrivedAt) == prev.recall
      && b.verification.(otp := prev.verification.otp, otpExpiry := prev.verification.otpExpiry) == prev.verification
      && r.value.outbox ==
         [Emit(CustomerRoom(prev.customer.phone), CarArrived(prev.bookingId, otp))]
         + MailTo(prev.customer.email, ArrivalEmail, prev.bookingId)
         + [TextMessage(prev.customer.phone, Sms.ArrivalMessage(otp))]
  {
    var i :- OwnedBooking(store, driver, key);
    var prev := store[i];
    var otp := Otp.Generate(draw);
    var b := Touch(prev.(
      status := Arrived,
      recall := prev.recall.(arrivedAt := Some(now)),
      verification := prev.verification.(otp := Some(otp), otpExpiry := Some(now + Otp.LifetimeMs))), now);
    Ok(Outcome(store[i := b], b,
      [Emit(CustomerRoom(prev.customer.phone), CarArrived(prev.bookingId, otp))]
      + MailTo(prev.customer.email, ArrivalEmail, prev.bookingId)
      + [TextMessage(prev.customer.phone, Sms.ArrivalMessage(otp))]))
  }

  datatype CompleteRequest = CompleteRequest(otp: Option<string>, paymentMethod: Option<string>, amount: Option<real>)

  /** The verify-complete validators: a six-character code, cash or qr, an amount of at least zero. */
  function CompletionErrors(req: CompleteRequest): (errs: seq<string>)
    ensures |errs| == 0 <==>
      req.otp.Some? && |req.otp.value| == 6
      && (req.paymentMethod == Some("cash") || req.paymentMethod == Some("qr"))
      && req.amount.Some? && req.amount.value >= 0.0
  {
    (if req.otp.Some? && |req.otp.value| == 6 then [] else ["otp"])
    + (if req.paymentMethod == Some("cash") || req.paymentMethod == Some("qr") then [] else ["paymentMethod"])
    + (if req.amount.Some? && req.amount.value >= 0.0 then [] else ["amount"])
  }

  /** `new Date() > booking.verification.otpExpiry`; an absent expiry never compares as passed. */
  predicate Expired(v: Verification, now: Time) {
    v.otpExpiry.Some? && now > v.otpExpiry.value
  }

  /**
   * POST /bookings/:id/verify-complete. After validation: not found, not the
   * owner, code differs from the stored one, code expired. Success leaves the
   * stored code and `payment.status` as they were.
   */
  function VerifyComplete(store: Store, driver: ObjectId, key: ObjectId, req: CompleteRequest, now: Time)
    : (r: Result<Outcome, Error>)
    ensures |CompletionErrors(req)| > 0 ==> r == Err(Validation(CompletionErrors(req)))
    ensures |CompletionErrors(req)| == 0 && OwnedBooking(store, driver, key).Err? ==>
      r == Err(OwnedBooking(store, driver, key).error)
    ensures r.Ok? <==>
      |CompletionErrors(req)| == 0 && OwnedBooking(store, driver, key).Ok?
      && store[FindByKey(store, key).value].verification.otp == req.otp
      && !Expired(store[FindByKey(store, key).value].verification, now)
    ensures |CompletionErrors(req)| == 0 && OwnedBooking(store, driver, key).Ok? ==>
      var prev := store[FindByKey(store, key).value];
      && (prev.verification.otp != req.otp ==> r == Err(InvalidOtp))
      && (prev.verification.otp == req.otp && Expired(prev.verification, now) ==> r == Err(OtpExpired))
    ensures r.Ok? ==>
      var i := FindByKey(store, key).value;
      var prev := store[i];
      var b := r.value.booking;
      && r.value.store == store[i := b]
      && b.status == Completed && b.verification.verified && b.updatedAt == now
      && b.verification.otp == prev.verification.otp && b.verification.otpExpiry == prev.verification.otpExpiry
      && PayMethodName(b.payment.payMethod) == req.paymentMethod.value
      && b.payment.amount == req.amount && b.payment.paidAt == Some(now)
      && b.payment.state == prev.payment.state
      && b.parking.actualEndTime == Some(now)
      && b.(status := prev.status, verification := prev.verification, payment := prev.payment,
            parking := prev.parking, updatedAt := prev.updatedAt) == prev
      && b.verification.(verified := prev.verification.verified) == prev.verification
      && b.payment.(payMethod := prev.payment.payMethod, amount := prev.payment.amount,
                    paidAt := prev.payment.paidAt) == prev.payment
      && b.parking.(actualEndTime := prev.parking.actualEndTime) == prev.parking
      && r.value.outbox == [Emit(CustomerRoom(prev.customer.phone), BookingCompleted(prev.bookingId))]
  {
    if |CompletionErrors(req)| > 0 then Err(Validation(CompletionErrors(req)))
    else
      var i :- OwnedBooking(store, driver, key);
      var prev := store[i];
      if prev.verification.otp != req.otp then Err(InvalidOtp)
      else if Expired(prev.verification, now) then Err(OtpExpired)
      else
        var chosen := if req.paymentMethod == Some("cash") then Cash else Qr;
        var b := Touch(prev.(
          status := Completed,
          verification := prev.verification.(verified := true),
          payment := prev.payment.(payMethod := chosen, amount := req.amount, paidAt := Some(now)),
          parking := prev.parking.(actualEndTime := Some(now))), now);
        Ok(Outcome(store[i := b], b, [Emit(CustomerRoom(prev.customer.phone), BookingCompleted(prev.bookingId))]))
  }

  /** The `payment` object of an update body; each key may be absent. */
  datatype PaymentPatch = PaymentPatch(
    payMethod: Option<string>, amount: Option<real>, state: Option<string>, paidAt: Option<Time>)

  datatype UpdateRequest = UpdateRequest(
    payment: Option<PaymentPatch>, paymentStatus: Option<string>, notes: Option<string>)

  /**
   * `{ ...booking.payment, ...payment }` followed by the enum checks of the
   * save: supplied keys win, absent keys keep their stored values, and an
   * unknown method or state fails the save.
   */
  function MergePayment(p: Payment, patch: PaymentPatch): (r: Option<Payment>)
    ensures r.Some? <==>
      (patch.payMethod.None? || ParsePayMethod(patch.payMethod.value).Some?)
      && (patch.state.None? || ParsePayState(patch.state.value).Some?)
    ensures r.Some? ==>
      && PayMethodName(r.value.payMethod) == patch.payMethod.GetOr(PayMethodName(p.payMethod))
      && PayStateName(r.value.state) == patch.state.GetOr(PayStateName(p.state))
      && r.value.amount == (if patch.amount.Some? then patch.amount else p.amount)
      && r.value.paidAt == (if patch.paidAt.Some? then patch.paidAt else p.paidAt)
  {
    var m := if patch.payMethod.Some? then ParsePayMethod(patch.payMethod.value) else Some(p.payMethod);
    var s := if patch.state.Some? then ParsePayState(patch.state.value) else Some(p.state);
    if m.None? || s.None? then None
    else Some(Payment(
      m.value,
      if patch.amount.Some? then patch.amount else p.amount,
      s.value,
      if patch.paidAt.Some? then patch.paidAt else p.paidAt))
  }

  /**
   * PUT /bookings/:id, by the owning driver. Payment merges shallowly;
   * `paymentStatus` and `notes` change only when non-empty; status never changes.
   */
  function Update(store: Store, driver: ObjectId, key: ObjectId, req: UpdateRequest, now: Time)
    : (r: Result<Outcome, Error>)
    ensures OwnedBooking(store, driver, key).Err? ==> r == Err(OwnedBooking(store, driver, key).error)
    ensures r.Err? && OwnedBooking(store, driver, key).Ok? ==> r.error == ServerError
    ensures r.Ok? <==>
      && OwnedBooking(store, driver, key).Ok?
      && (req.payment.None? || MergePayment(store[FindByKey(store, key).value].payment, req.payment.value).Some?)
      && (!Truthy(req.paymentStatus) || ParsePaymentStatus(req.paymentStatus.value).Some?)
    ensures r.Ok? ==>
      var i := FindByKey(store, key).value;
      var prev := store[i];
      var b := r.value.booking;
      && r.value.store == store[i := b]
      && r.value.outbox == []
      && b.updatedAt == now
      && b.(payment := prev.payment, paymentStatus := prev.paymentStatus, notes := prev.notes,
            updatedAt := prev.updatedAt) == prev
      && (req.payment.None? ==> b.payment == prev.payment)
      && (req.payment.Some? ==> Some(b.payment) == MergePayment(prev.payment, req.payment.value))
      && (Truthy(req.paymentStatus) ==> PaymentStatusName(b.paymentStatus) == req.paymentStatus.value)
      && (!Truthy(req.paymentStatus) ==> b.paymentStatus == prev.paymentStatus)
      && (Truthy(req.notes) ==> b.notes == req.notes)
      && (!Truthy(req.notes) ==> b.notes == prev.notes)
  {
    var i :- OwnedBooking(store, driver, key);
    var prev := store[i];
    var payment := if req.payment.Some? then MergePayment(prev.payment, req.payment.value) else Some(prev.payment);
    var paymentStatus := if Truthy(req.paymentStatus) then ParsePaymentStatus(req.paymentStatus.value)
                         else Some(prev.paymentStatus);
    if payment.None? || paymentStatus.None? then Err(ServerError)
    else
      var b := Touch(prev.(
        payment := payment.value,
        paymentStatus := paymentStatus.value,
        notes := if Truthy(req.notes) then req.notes else prev.notes), now);
      Ok(Outcome(store[i := b], b, []))
  }
}
