/**
 * Properties that relate several booking handlers: the unique indexes
 * survive every save, how codes behave across repeated calls, and a whole
 * valet from creation to completion.
 */
module LifecycleProps {
  import opened Wrappers
  import opened Responses
  import opened BookingSchema
  import opened Lifecycle
  import Otp
  import Listings
  import Seqs
  import Accounts
  import Venues

  /** Saving a booking in place leaves `findById` pointing at the same position. */
  lemma FindAfterReplace(store: Store, i: nat, b: Booking)
    requires FindByKey(store, b.key) == Some(i)
    ensures FindByKey(store[i := b], b.key) == Some(i)
  {
    var s := store[i := b];
    assert s[i].key == b.key;
    assert forall k :: 0 <= k < i ==> s[k] == store[k];
  }

  /** A document appended without clashing is what `findById` finds for its key. */
  lemma FindAppended(store: Store, b: Booking)
    requires Insertable(store, b)
    ensures FindByKey(store + [b], b.key) == Some(|store|)
  {
    var s := store + [b];
    assert s[|store|].key == b.key;
    assert forall k :: 0 <= k < |store| ==> s[k] == store[k];
  }

  lemma CreateKeepsIndexes(store: Store, driver: ObjectId, req: CreateRequest, now: nat, draws: Draws,
                           url: Option<string>)
    requires IndexesUnique(store) && DrawsInRange(draws) && Create(store, driver, req, now, draws, url).Ok?
    ensures IndexesUnique(Create(store, driver, req, now, draws, url).value.store)
  {
    InsertKeepsIndexes(store, Create(store, driver, req, now, draws, url).value.booking);
  }

  lemma RecallKeepsIndexes(store: Store, phone: string, key: ObjectId, now: Time)
    requires IndexesUnique(store) && RequestRecall(store, phone, key, now).Ok?
    ensures IndexesUnique(RequestRecall(store, phone, key, now).value.store)
  {
    var i := FindByKey(store, key).value;
    ReplaceKeepsIndexes(store, i, RequestRecall(store, phone, key, now).value.booking);
  }

  lemma EstimateKeepsIndexes(store: Store, driver: ObjectId, key: ObjectId, minutes: Option<int>, now: Time)
    requires IndexesUnique(store) && EstimateArrival(store, driver, key, minutes, now).Ok?
    ensures IndexesUnique(EstimateArrival(store, driver, key, minutes, now).value.store)
  {
    var i := FindByKey(store, key).value;
    ReplaceKeepsIndexes(store, i, EstimateArrival(store, driver, key, minutes, now).value.booking);
  }

  lemma ArrivedKeepsIndexes(store: Store, driver: ObjectId, key: ObjectId, now: Time, draw: nat)
    requires draw < 900000
    requires IndexesUnique(store) && MarkArrived(store, driver, key, now, draw).Ok?
    ensures IndexesUnique(MarkArrived(store, driver, key, now, draw).value.store)
  {
    var i := FindByKey(store, key).value;
    ReplaceKeepsIndexes(store, i, MarkArrived(store, driver, key, now, draw).value.booking);
  }

  lemma CompleteKeepsIndexes(store: Store, driver: ObjectId, key: ObjectId, req: CompleteRequest, now: Time)
    requires IndexesUnique(store) && VerifyComplete(store, driver, key, req, now).Ok?
    ensures IndexesUnique(VerifyComplete(store, driver, key, req, now).value.store)
  {
    var i := FindByKey(store, key).value;
    ReplaceKeepsIndexes(store, i, VerifyComplete(store, driver, key, req, now).value.booking);
  }

  lemma UpdateKeepsIndexes(store: Store, driver: ObjectId, key: ObjectId, req: UpdateRequest, now: Time)
    requires IndexesUnique(store) && Update(store, driver, key, req, now).Ok?
    ensures IndexesUnique(Update(store, driver, key, req, now).value.store)
  {
    var i := FindByKey(store, key).value;
    ReplaceKeepsIndexes(store, i, Update(store, driver, key, req, now).value.booking);
  }

  /** A second arrival replaces the first code and its expiry: only the latest code is ever stored. */
  lemma ArrivedTwiceKeepsLatest(store: Store, driver: ObjectId, key: ObjectId, t1: Time, d1: nat, t2: Time, d2: nat)
    requires d1 < 900000 && d2 < 900000
    requires MarkArrived(store, driver, key, t1, d1).Ok?
    ensures var s1 := MarkArrived(store, driver, key, t1, d1).value.store;
            var r := MarkArrived(s1, driver, key, t2, d2);
            && r.Ok?
            && r.value.booking.verification.otp == Some(Otp.Generate(d2))
            && r.value.booking.verification.otpExpiry == Some(t2 + Otp.LifetimeMs)
  {
    var i := FindByKey(store, key).value;
    FindAfterReplace(store, i, MarkArrived(store, driver, key, t1, d1).value.booking);
  }

  /** The stored code survives completion, so sending it again before it expires completes the booking again. */
  lemma CompleteTwice(store: Store, driver: ObjectId, key: ObjectId, req: CompleteRequest, t1: Time, t2: Time)
    requires VerifyComplete(store, driver, key, req, t1).Ok?
    requires !Expired(store[FindByKey(store, key).value].verification, t2)
    ensures var s1 := VerifyComplete(store, driver, key, req, t1).value.store;
            VerifyComplete(s1, driver, key, req, t2).Ok?
  {
    var i := FindByKey(store, key).value;
    FindAfterReplace(store, i, VerifyComplete(store, driver, key, req, t1).value.booking);
  }

  /** Nothing stops a driver from putting a completed booking back in transit. */
  lemma EstimateFromCompleted(store: Store, driver: ObjectId, key: ObjectId, minutes: int, now: Time)
    requires OwnedBooking(store, driver, key).Ok? && store[OwnedBooking(store, driver, key).value].status == Completed
    requires minutes >= 1
    ensures var r := EstimateArrival(store, driver, key, Some(minutes), now);
            r.Ok? && r.value.booking.status == InTransit
  {
  }

  /** A booking that was never marked arrived has no code, so no completion request succeeds. */
  lemma NoCodeNoCompletion(store: Store, driver: ObjectId, key: ObjectId, req: CompleteRequest, now: Time)
    requires FindByKey(store, key).Some? && store[FindByKey(store, key).value].verification.otp.None?
    ensures VerifyComplete(store, driver, key, req, now).Err?
  {
  }

  /** The code works at the very millisecond it expires and not one millisecond later. */
  lemma ExpiryBoundary(store: Store, driver: ObjectId, key: ObjectId, t: Time, draw: nat, req: CompleteRequest)
    requires draw < 900000 && MarkArrived(store, driver, key, t, draw).Ok?
    requires req == CompleteRequest(Some(Otp.Generate(draw)), Some("cash"), Some(0.0))
    ensures var s := MarkArrived(store, driver, key, t, draw).value.store;
            && VerifyComplete(s, driver, key, req, t + Otp.LifetimeMs).Ok?
            && VerifyComplete(s, driver, key, req, t + Otp.LifetimeMs + 1) == Err(OtpExpired)
  {
    var i := FindByKey(store, key).value;
    FindAfterReplace(store, i, MarkArrived(store, driver, key, t, draw).value.booking);
  }

  /** Completing a booking that was not yet completed adds exactly its amount to the revenue figure. */
  lemma CompletionAddsRevenue(store: Store, driver: ObjectId, key: ObjectId, req: CompleteRequest, now: Time)
    requires VerifyComplete(store, driver, key, req, now).Ok?
    requires store[FindByKey(store, key).value].status != Completed
    ensures Listings.Revenue(VerifyComplete(store, driver, key, req, now).value.store)
            == Listings.Revenue(store) + req.amount.value
  {
    var i := FindByKey(store, key).value;
    Listings.RevenueReplace(store, i, VerifyComplete(store, driver, key, req, now).value.booking);
  }

  /**
   * Completing a booking moves it between the overview counts: it leaves the
   * active count if it was open, joins the completed count unless it was
   * already there, and today's count is untouched.
   */
  lemma CompletionMovesCounts(store: Store, driver: ObjectId, key: ObjectId, req: CompleteRequest, now: Time,
                              todayStart: Time, users: Accounts.Users, venues: Venues.Venues)
    requires VerifyComplete(store, driver, key, req, now).Ok?
    ensures var prev := store[FindByKey(store, key).value];
            var before := Listings.Stats(store, todayStart);
            var after := Listings.Stats(VerifyComplete(store, driver, key, req, now).value.store, todayStart);
            && after.activeBookings == before.activeBookings - (if IsOpen(prev.status) then 1 else 0)
            && after.completedBookings == before.completedBookings + (if prev.status == Completed then 0 else 1)
            && after.todayBookings == before.todayBookings
    ensures var prev := store[FindByKey(store, key).value];
            var before := Listings.AdminStats(users, store, venues);
            var after := Listings.AdminStats(users, VerifyComplete(store, driver, key, req, now).value.store, venues);
            && after.bookingsTotal == before.bookingsTotal
            && after.bookingsActive == before.bookingsActive - (if IsOpen(prev.status) then 1 else 0)
            && after.bookingsCompleted == before.bookingsCompleted + (if prev.status == Completed then 0 else 1)
  {
    var i := FindByKey(store, key).value;
    var b := VerifyComplete(store, driver, key, req, now).value.booking;
    assert b.createdAt == store[i].createdAt;
    Seqs.CountReplace(store, i, b, Listings.Active);
    Seqs.CountReplace(store, i, b, Listings.Done);
    Seqs.CountReplace(store, i, b, Listings.CreatedSince(todayStart));
  }

  /** A save that neither starts nor ends in `completed` leaves the revenue figure alone. */
  lemma OpenSaveKeepsRevenue(store: Store, i: nat, b: Booking)
    requires i < |store| && store[i].status != Completed && b.status != Completed
    ensures Listings.Revenue(store[i := b]) == Listings.Revenue(store)
  {
    Listings.RevenueReplace(store, i, b);
  }

  /** The new booking sits at the end of the collection, parked. */
  lemma StepCreate(store: Store, driver: ObjectId, req: CreateRequest, t: nat, draws: Draws, url: Option<string>,
                   c: Outcome)
    requires DrawsInRange(draws) && Create(store, driver, req, t, draws, url) == Ok(c)
    ensures FindByKey(c.store, c.booking.key) == Some(|store|)
    ensures c.store[|store|] == c.booking
    ensures c.booking.driver == driver && c.booking.status == Parked
    ensures c.booking.customer.phone == req.customerPhone
  {
    FindAppended(store, c.booking);
  }

  lemma StepRecall(s: Store, key: ObjectId, n: nat, phone: string, t: Time)
    requires FindByKey(s, key) == Some(n) && s[n].customer.phone == phone && s[n].status == Parked
    ensures var r := RequestRecall(s, phone, key, t);
            && r.Ok?
            && FindByKey(r.value.store, key) == Some(n)
            && r.value.store[n].driver == s[n].driver && r.value.store[n].status == RecallRequested
            && Listings.Revenue(r.value.store) == Listings.Revenue(s)
  {
    var b := RequestRecall(s, phone, key, t).value.booking;
    FindAfterReplace(s, n, b);
    OpenSaveKeepsRevenue(s, n, b);
  }

  lemma StepEstimate(s: Store, key: ObjectId, n: nat, driver: ObjectId, minutes: int, t: Time)
    requires FindByKey(s, key) == Some(n) && s[n].driver == driver && s[n].status != Completed && minutes >= 1
    ensures var r := EstimateArrival(s, driver, key, Some(minutes), t);
            && r.Ok?
            && FindByKey(r.value.store, key) == Some(n)
            && r.value.store[n].driver == driver && r.value.store[n].status == InTransit
            && Listings.Revenue(r.value.store) == Listings.Revenue(s)
  {
    var b := EstimateArrival(s, driver, key, Some(minutes), t).value.booking;
    FindAfterReplace(s, n, b);
    OpenSaveKeepsRevenue(s, n, b);
  }

  lemma StepArrive(s: Store, key: ObjectId, n: nat, driver: ObjectId, t: Time, draw: nat)
    requires draw < 900000
    requires FindByKey(s, key) == Some(n) && s[n].driver == driver && s[n].status != Completed
    ensures var r := MarkArrived(s, driver, key, t, draw);
            && r.Ok?
            && FindByKey(r.value.store, key) == Some(n)
            && r.value.store[n].driver == driver && r.value.store[n].status == Arrived
            && r.value.store[n].verification.otp == Some(Otp.Generate(draw))
            && r.value.store[n].verification.otpExpiry == Some(t + Otp.LifetimeMs)
            && Listings.Revenue(r.value.store) == Listings.Revenue(s)
  {
    var b := MarkArrived(s, driver, key, t, draw).value.booking;
    FindAfterReplace(s, n, b);
    OpenSaveKeepsRevenue(s, n, b);
  }

  /** Appending a booking that is not completed leaves the revenue figure alone. */
  lemma OpenAppendKeepsRevenue(store: Store, b: Booking)
    requires b.status != Completed
    ensures Listings.Revenue(store + [b]) == Listings.Revenue(store)
  {
    Listings.RevenueAppend(store, [b]);
    assert Listings.Revenue([b]) == Listings.Contribution(b) + Listings.Revenue([]);
  }

  /**
   * The valet after the booking exists: the customer asks for the car, the
   * driver sends an estimate, marks the car arrived, and completes with the
   * code the customer received, paid in cash.
   */
  function Valet(s: Store, driver: ObjectId, key: ObjectId, phone: string,
                 t1: Time, t2: Time, minutes: int, t3: Time, draw: nat, t4: Time, amount: real): Result<Outcome, Error>
    requires draw < 900000
  {
    var r :- RequestRecall(s, phone, key, t1);
    var e :- EstimateArrival(r.store, driver, key, Some(minutes), t2);
    var a :- MarkArrived(e.store, driver, key, t3, draw);
    VerifyComplete(a.store, driver, key, CompleteRequest(Some(Otp.Generate(draw)), Some("cash"), Some(amount)), t4)
  }

  /** A whole valet as one chain: the driver creates the booking, then the valet runs. */
  function Journey(store: Store, driver: ObjectId, req: CreateRequest, t0: nat, draws: Draws, url: Option<string>,
                   t1: Time, t2: Time, minutes: int, t3: Time, draw: nat, t4: Time, amount: real): Result<Outcome, Error>
    requires DrawsInRange(draws) && draw < 900000
  {
    var c :- Create(store, driver, req, t0, draws, url);
    Valet(c.store, driver, c.booking.key, req.customerPhone, t1, t2, minutes, t3, draw, t4, amount)
  }

  /**
   * A parked booking of this driver and phone always goes through the rest
   * of the valet when the code is used before it expires: it ends
   * completed and the revenue grows by the amount paid.
   */
  lemma ValetCompletes(s: Store, driver: ObjectId, key: ObjectId, phone: string, n: nat,
                       t1: Time, t2: Time, minutes: int, t3: Time, draw: nat, t4: Time, amount: real)
    requires FindByKey(s, key) == Some(n) && s[n].driver == driver && s[n].customer.phone == phone
    requires s[n].status == Parked
    requires minutes >= 1 && draw < 900000 && t4 <= t3 + Otp.LifetimeMs && amount >= 0.0
    ensures var v := Valet(s, driver, key, phone, t1, t2, minutes, t3, draw, t4, amount);
            && v.Ok?
            && v.value.booking.status == Completed
            && Listings.Revenue(v.value.store) == Listings.Revenue(s) + amount
  {
    StepRecall(s, key, n, phone, t1);
    var r := RequestRecall(s, phone, key, t1).value;
    StepEstimate(r.store, key, n, driver, minutes, t2);
    var e := EstimateArrival(r.store, driver, key, Some(minutes), t2).value;
    StepArrive(e.store, key, n, driver, t3, draw);
    var a := MarkArrived(e.store, driver, key, t3, draw).value;
    var creq := CompleteRequest(Some(Otp.Generate(draw)), Some("cash"), Some(amount));
    assert |CompletionErrors(creq)| == 0;
    assert VerifyComplete(a.store, driver, key, creq, t4).Ok?;
    CompletionAddsRevenue(a.store, driver, key, creq, t4);
  }

  /** From a created booking the whole journey completes, adding the amount to the revenue. */
  lemma FullJourney(store: Store, driver: ObjectId, req: CreateRequest, t0: nat, draws: Draws, url: Option<string>,
                    t1: Time, t2: Time, minutes: int, t3: Time, draw: nat, t4: Time, amount: real)
    requires DrawsInRange(draws) && Create(store, driver, req, t0, draws, url).Ok?
    requires minutes >= 1 && draw < 900000 && t4 <= t3 + Otp.LifetimeMs && amount >= 0.0
    ensures var j := Journey(store, driver, req, t0, draws, url, t1, t2, minutes, t3, draw, t4, amount);
            && j.Ok?
            && j.value.booking.status == Completed
            && Listings.Revenue(j.value.store) == Listings.Revenue(store) + amount
  {
    var c := Create(store, driver, req, t0, draws, url).value;
    StepCreate(store, driver, req, t0, draws, url, c);
    assert c.store == store + [c.booking];
    OpenAppendKeepsRevenue(store, c.booking);
    ValetCompletes(c.store, driver, c.booking.key, req.customerPhone, |store|, t1, t2, minutes, t3, draw, t4, amount);
    JourneyIsValet(store, driver, req, t0, draws, url, t1, t2, minutes, t3, draw, t4, amount, c);
  }

  /** Once the booking is created, the journey is the valet on the grown collection. */
  lemma JourneyIsValet(store: Store, driver: ObjectId, req: CreateRequest, t0: nat, draws: Draws, url: Option<string>,
                       t1: Time, t2: Time, minutes: int, t3: Time, draw: nat, t4: Time, amount: real, c: Outcome)
    requires DrawsInRange(draws) && draw < 900000 && Create(store, driver, req, t0, draws, url) == Ok(c)
    ensures Journey(store, driver, req, t0, draws, url, t1, t2, minutes, t3, draw, t4, amount)
            == Valet(c.store, driver, c.booking.key, req.customerPhone, t1, t2, minutes, t3, draw, t4, amount)
  {
  }
}
