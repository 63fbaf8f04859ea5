/**
 * The booking document: its enumerations and their stored spellings, the
 * defaults a new document receives, the `bookingId` and `accessToken`
 * generators, the pre-save timestamp hook, and the collection of bookings
 * with its unique indexes.
 */
module BookingSchema {
  import opened Wrappers
  import opened Text
  import Hex
  import Seqs

  /** A document `_id`, compared as its string form. */
  type ObjectId = string

  /** Milliseconds since the epoch. */
  type Time = int

  datatype Status = Parked | RecallRequested | InTransit | Arrived | Completed | Cancelled

  function StatusName(s: Status): string {
    match s
    case Parked => "parked"
    case RecallRequested => "recall-requested"
    case InTransit => "in-transit"
    case Arrived => "arrived"
    case Completed => "completed"
    case Cancelled => "cancelled"
  }

  /** The status enum check: only the six spellings are accepted. */
  function ParseStatus(name: string): (r: Option<Status>)
    ensures r.Some? ==> StatusName(r.value) == name
    ensures forall s: Status :: StatusName(s) == name ==> r == Some(s)
  {
    if name == "parked" then Some(Parked)
    else if name == "recall-requested" then Some(RecallRequested)
    else if name == "in-transit" then Some(InTransit)
    else if name == "arrived" then Some(Arrived)
    else if name == "completed" then Some(Completed)
    else if name == "cancelled" then Some(Cancelled)
    else None
  }

  /** Not yet resolved: the `$nin: ['completed', 'cancelled']` filter. */
  predicate IsOpen(s: Status) {
    s != Completed && s != Cancelled
  }

  datatype VehicleType = Car | Bike | Suv

  function VehicleTypeName(t: VehicleType): string {
    match t
    case Car => "car"
    case Bike => "bike"
    case Suv => "suv"
  }

  function ParseVehicleType(name: string): (r: Option<VehicleType>)
    ensures r.Some? ==> VehicleTypeName(r.value) == name
    ensures forall t: VehicleType :: VehicleTypeName(t) == name ==> r == Some(t)
  {
    if name == "car" then Some(Car)
    else if name == "bike" then Some(Bike)
    else if name == "suv" then Some(Suv)
    else None
  }

  datatype PayMethod = Cash | Qr | Upi | Card | PendingMethod

  function PayMethodName(m: PayMethod): string {
    match m
    case Cash => "cash"
    case Qr => "qr"
    case Upi => "upi"
    case Card => "card"
    case PendingMethod => "pending"
  }

  function ParsePayMethod(name: string): (r: Option<PayMethod>)
    ensures r.Some? ==> PayMethodName(r.value) == name
    ensures forall m: PayMethod :: PayMethodName(m) == name ==> r == Some(m)
  {
    if name == "cash" then Some(Cash)
    else if name == "qr" then Some(Qr)
    else if name == "upi" then Some(Upi)
    else if name == "card" then Some(Card)
    else if name == "pending" then Some(PendingMethod)
    else None
  }

  /** `payment.status`, distinct from the booking-level `paymentStatus`. */
  datatype PayState = StatePending | StateCompleted | StateFailed

  function PayStateName(s: PayState): string {
    match s
    case StatePending => "pending"
    case StateCompleted => "completed"
    case StateFailed => "failed"
  }

  function ParsePayState(name: string): (r: Option<PayState>)
    ensures r.Some? ==> PayStateName(r.value) == name
    ensures forall s: PayState :: PayStateName(s) == name ==> r == Some(s)
  {
    if name == "pending" then Some(StatePending)
    else if name == "completed" then Some(StateCompleted)
    else if name == "failed" then Some(StateFailed)
    else None
  }

  datatype PaymentStatus = Unpaid | Paid

  function PaymentStatusName(p: PaymentStatus): string {
    match p
    case Unpaid => "unpaid"
    case Paid => "paid"
  }

  function ParsePaymentStatus(name: string): (r: Option<PaymentStatus>)
    ensures r.Some? ==> PaymentStatusName(r.value) == name
    ensures forall p: PaymentStatus :: PaymentStatusName(p) == name ==> r == Some(p)
  {
    if name == "unpaid" then Some(Unpaid)
    else if name == "paid" then Some(Paid)
    else None
  }

  datatype Customer = Customer(phone: string, name: string, email: Option<string>)

  datatype Vehicle = Vehicle(
    kind: VehicleType,
    number: string,
    model: Option<string>,
    color: Option<string>,
    images: seq<string>,
    hasValuables: bool,
    valuables: seq<string>)

  datatype Parking = Parking(startTime: Time, estimatedDuration: int, actualEndTime: Option<Time>)

  datatype Recall = Recall(requestedAt: Option<Time>, estimatedArrival: Option<int>, arrivedAt: Option<Time>)

  datatype Verification = Verification(otp: Option<string>, otpExpiry: Option<Time>, verified: bool)

  datatype Payment = Payment(payMethod: PayMethod, amount: Option<real>, state: PayState, paidAt: Option<Time>)

  datatype Location = Location(parkingSpot: Option<string>, venue: Option<string>)

  datatype Booking = Booking(
    key: ObjectId,
    bookingId: string,
    driver: ObjectId,
    customer: Customer,
    vehicle: Vehicle,
    parking: Parking,
    status: Status,
    recall: Recall,
    verification: Verification,
    accessToken: string,
    payment: Payment,
    paymentStatus: PaymentStatus,
    location: Location,
    notes: Option<string>,
    createdAt: Time,
    updatedAt: Time)

  /** `payment` as a new document gets it: method and status both pending. */
  const DefaultPayment := Payment(PendingMethod, None, StatePending, None)

  /**
   * The `bookingId` default: "VLT", the last eight digits of the clock,
   * and the random draw `Math.floor(Math.random() * 10000)` padded to four.
   */
  function MakeBookingId(now: nat, draw: nat): string
    requires draw < 10000
  {
    "VLT" + TakeLast(DecimalString(now), 8) + PadStart(DecimalString(draw), 4, '0')
  }

  /** From any clock reading with at least eight digits the id is "VLT" and twelve digits. */
  lemma BookingIdShape(now: nat, draw: nat)
    requires draw < 10000 && now >= 10000000
    ensures var id := MakeBookingId(now, draw);
      |id| == 15 && id[..3] == "VLT" && AllDigits(id[3..])
  {
    var d := DecimalString(now);
    var p := DecimalString(draw);
    ClockWidth(now);
    DrawWidth(draw);
    var mid := TakeLast(d, 8);
    var pad := PadStart(p, 4, '0');
    assert AllDigits(mid) by {
      forall i | 0 <= i < |mid| ensures IsDigit(mid[i]) {
        assert mid[i] == d[|d| - 8 + i];
      }
    }
    assert AllDigits(pad) by {
      forall i | 0 <= i < |pad| ensures IsDigit(pad[i]) {
        if i >= |pad| - |p| {
          assert pad[i] == pad[|pad| - |p|..][i - (|pad| - |p|)];
        }
      }
    }
    var id := MakeBookingId(now, draw);
    assert id == "VLT" + mid + pad;
    assert id[3..] == mid + pad;
    assert forall i :: 0 <= i < |mid + pad| ==> (mid + pad)[i] == if i < |mid| then mid[i] else pad[i - |mid|];
  }

  /** A clock reading of at least 10^7 has at least eight digits. */
  lemma ClockWidth(now: nat)
    requires now >= 10000000
    ensures |DecimalString(now)| >= 8
  {
    var d := DecimalString(now);
    DecimalStringValue(now);
    DigitsBound(d);
    assert Pow10(7) == 10000000;
    if |d| < 8 {
      PowMonotone(|d|, 7);
    }
  }

  /** A draw below 10^4 has at most four digits. */
  lemma DrawWidth(draw: nat)
    requires draw < 10000
    ensures |DecimalString(draw)| <= 4
  {
    var p := DecimalString(draw);
    DecimalStringValue(draw);
    assert Pow10(4) == 10000;
    if |p| > 4 {
      PowMonotone(4, |p| - 1);
      DigitsLowerBound(p);
    }
  }

  lemma {:induction false} PowMonotone(a: nat, b: nat)
    requires a <= b
    ensures Pow10(a) <= Pow10(b)
    decreases b - a
  {
    if a < b {
      PowMonotone(a + 1, b);
    }
  }

  /** A string of k digits denotes a number below 10^k. */
  lemma {:induction false} DigitsBound(s: string)
    requires AllDigits(s)
    ensures DigitsValue(s) < Pow10(|s|)
  {
    if |s| > 0 {
      DigitsBound(s[..|s| - 1]);
    }
  }

  /** A string of k digits with no leading zero denotes at least 10^(k-1). */
  lemma {:induction false} DigitsLowerBound(s: string)
    requires AllDigits(s) && |s| >= 1 && s[0] != '0'
    ensures DigitsValue(s) >= Pow10(|s| - 1)
  {
    if |s| > 1 {
      var t := s[..|s| - 1];
      assert t[0] == s[0];
      DigitsLowerBound(t);
    } else {
      assert DigitValue(s[0]) >= 1;
    }
  }

  /** The `accessToken` default: 32 random bytes rendered as lower-case hex. */
  function MakeAccessToken(bytes: seq<Hex.byte>): (token: string)
    requires |bytes| == 32
    ensures |token| == 64
    ensures forall i :: 0 <= i < |token| ==> Hex.IsLowerHex(token[i])
  {
    Hex.Encode(bytes)
  }

  /** Different random bytes give different tokens. */
  lemma AccessTokenInjective(a: seq<Hex.byte>, b: seq<Hex.byte>)
    requires |a| == 32 && |b| == 32 && a != b
    ensures MakeAccessToken(a) != MakeAccessToken(b)
  {
    if MakeAccessToken(a) == MakeAccessToken(b) {
      Hex.EncodeInjective(a, b);
    }
  }

  /**
   * `new Booking({...})`: the handler's fields plus the schema defaults
   * (status parked, verification unverified, pending payment, unpaid,
   * start time and both timestamps now), with the `uppercase` setter
   * applied to the plate number.
   */
  function InitialBooking(
    key: ObjectId, bookingId: string, accessToken: string, driver: ObjectId,
    customer: Customer, vehicle: Vehicle, estimatedDuration: int,
    location: Location, notes: Option<string>, now: Time): (b: Booking)
    ensures b.status == Parked && !b.verification.verified
    ensures b.verification.otp.None? && b.verification.otpExpiry.None?
    ensures b.payment.payMethod == PendingMethod && b.payment.state == StatePending
    ensures b.paymentStatus == Unpaid
    ensures b.createdAt == now && b.updatedAt == now && b.parking.startTime == now
    ensures b.vehicle.number == ToUpper(vehicle.number)
    ensures b.vehicle == vehicle.(number := b.vehicle.number)
    ensures b.key == key && b.bookingId == bookingId && b.accessToken == accessToken
    ensures b.driver == driver && b.customer == customer
  {
    Booking(
      key, bookingId, driver, customer,
      vehicle.(number := ToUpper(vehicle.number)),
      Parking(now, estimatedDuration, None),
      Parked,
      Recall(None, None, None),
      Verification(None, None, false),
      accessToken,
      DefaultPayment,
      Unpaid,
      location, notes, now, now)
  }

  /** The pre-save hook: `updatedAt` becomes the save time and nothing else moves. */
  function Touch(b: Booking, now: Time): (r: Booking)
    ensures r.updatedAt == now && r.createdAt == b.createdAt
    ensures r.(updatedAt := b.updatedAt) == b
  {
    b.(updatedAt := now)
  }

  /** The bookings collection. */
  type Store = seq<Booking>

  /** `_id`, `bookingId` and `accessToken` are each unique across the collection. */
  predicate IndexesUnique(store: Store) {
    forall i, j :: 0 <= i < j < |store| ==>
      store[i].key != store[j].key
      && store[i].bookingId != store[j].bookingId
      && store[i].accessToken != store[j].accessToken
  }

  /** Inserting b would not violate a unique index. */
  predicate Insertable(store: Store, b: Booking) {
    forall i :: 0 <= i < |store| ==>
      store[i].key != b.key && store[i].bookingId != b.bookingId && store[i].accessToken != b.accessToken
  }

  lemma InsertKeepsIndexes(store: Store, b: Booking)
    requires IndexesUnique(store) && Insertable(store, b)
    ensures IndexesUnique(store + [b])
  {
  }

  /** `findById`: the position of the booking with that `_id`. */
  function FindByKey(store: Store, key: ObjectId): (r: Option<nat>)
    ensures r.Some? ==> r.value < |store| && store[r.value].key == key
    ensures r.Some? ==> forall j :: 0 <= j < r.value ==> store[j].key != key
    ensures r.None? ==> forall i :: 0 <= i < |store| ==> store[i].key != key
  {
    Seqs.FindFirst(store, (b: Booking) => b.key == key)
  }

  /** `findOne({ accessToken })`. */
  function FindByToken(store: Store, token: string): (r: Option<nat>)
    ensures r.Some? ==> r.value < |store| && store[r.value].accessToken == token
    ensures r.None? ==> forall i :: 0 <= i < |store| ==> store[i].accessToken != token
  {
    Seqs.FindFirst(store, (b: Booking) => b.accessToken == token)
  }

  /** Replacing a document by one with the same keys keeps the indexes unique. */
  lemma ReplaceKeepsIndexes(store: Store, i: nat, b: Booking)
    requires IndexesUnique(store) && i < |store|
    requires b.key == store[i].key && b.bookingId == store[i].bookingId && b.accessToken == store[i].accessToken
    ensures IndexesUnique(store[i := b])
  {
  }
}
