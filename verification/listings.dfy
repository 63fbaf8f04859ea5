/**
 * The read-only booking views: a driver's list, a supervisor's list, a
 * customer's list (each newest first), the supervisors' overview figures
 * and the admin dashboard counts.
 */
module Listings {
  import opened Wrappers
  import opened Text
  import opened Seqs
  import opened Validators
  import opened BookingSchema
  import Accounts
  import Venues

  /** `.sort({ createdAt: -1 })`. */
  function NewestFirst(): (Booking, Booking) -> bool {
    (a: Booking, b: Booking) => a.createdAt >= b.createdAt
  }

  lemma NewestFirstPreorder()
    ensures TotalPreorder(NewestFirst())
  {
  }

  /** `find(query).sort({ createdAt: -1 })`: the matching bookings, newest first. */
  function Query(store: Store, p: Booking -> bool): (r: Store)
    ensures forall i :: 0 <= i < |r| ==> p(r[i]) && r[i] in store
    ensures forall k :: 0 <= k < |store| && p(store[k]) ==> store[k] in r
    ensures multiset(r) == multiset(Filter(store, p))
    ensures forall i, j :: 0 <= i < j < |r| ==> r[i].createdAt >= r[j].createdAt
  {
    NewestFirstPreorder();
    SelectSorted(store, p, NewestFirst())
  }

  /** The driver list's filter: the driver's own bookings, of the given status or else the open ones. */
  predicate DriverMatch(b: Booking, driver: ObjectId, status: Option<string>) {
    b.driver == driver && (if Truthy(status) then StatusName(b.status) == status.value else IsOpen(b.status))
  }

  /** DriverMatch as a filter. */
  function DriverFilter(driver: ObjectId, status: Option<string>): Booking -> bool {
    (b: Booking) => DriverMatch(b, driver, status)
  }

  /** GET /bookings/my-bookings. */
  function DriverBookings(store: Store, driver: ObjectId, status: Option<string>): (r: Store)
    ensures multiset(r) == multiset(Filter(store, DriverFilter(driver, status)))
    ensures forall i :: 0 <= i < |r| ==> r[i] in store && r[i].driver == driver
    ensures !Truthy(status) ==> forall i :: 0 <= i < |r| ==> r[i].status != Completed && r[i].status != Cancelled
    ensures Truthy(status) ==> forall i :: 0 <= i < |r| ==> StatusName(r[i].status) == status.value
    ensures forall k :: 0 <= k < |store| && DriverMatch(store[k], driver, status) ==> store[k] in r
    ensures forall i, j :: 0 <= i < j < |r| ==> r[i].createdAt >= r[j].createdAt
  {
    var r := Query(store, DriverFilter(driver, status));
    assert forall i :: 0 <= i < |r| ==> DriverMatch(r[i], driver, status);
    r
  }

  const DayMs: int := 24 * 60 * 60 * 1000

  /** `{ role: 'driver', supervisor }`. */
  predicate AssignedDriver(u: Accounts.User, supervisor: ObjectId) {
    u.role == Accounts.DriverRole && u.supervisor == Some(supervisor)
  }

  /** The ids of the drivers assigned to a supervisor. */
  function DriversOf(users: Accounts.Users, supervisor: ObjectId): (ids: seq<ObjectId>)
    ensures forall i :: 0 <= i < |users| && AssignedDriver(users[i], supervisor) ==> users[i].key in ids
    ensures forall k :: k in ids ==> exists i :: 0 <= i < |users| && users[i].key == k && AssignedDriver(users[i], supervisor)
  {
    if |users| == 0 then []
    else
      var rest := DriversOf(users[1..], supervisor);
      assert forall k :: k in rest ==> exists i :: 1 <= i < |users| && users[i].key == k && AssignedDriver(users[i], supervisor) by {
        forall k | k in rest ensures exists i :: 1 <= i < |users| && users[i].key == k && AssignedDriver(users[i], supervisor) {
          var i :| 0 <= i < |users[1..]| && users[1..][i].key == k && AssignedDriver(users[1..][i], supervisor);
          assert users[i + 1] == users[1..][i];
        }
      }
      if AssignedDriver(users[0], supervisor) then [users[0].key] + rest else rest
  }

  /** The supervisor list's filter: status by exact equality, day as [midnight, midnight + one day). */
  predicate SupervisorMatch(b: Booking, drivers: seq<ObjectId>, status: Option<string>, day: Option<Time>) {
    && b.driver in drivers
    && (Truthy(status) ==> StatusName(b.status) == status.value)
    && (day.Some? ==> day.value <= b.createdAt < day.value + DayMs)
  }

  /** SupervisorMatch as a filter. */
  function SupervisorFilter(drivers: seq<ObjectId>, status: Option<string>, day: Option<Time>): Booking -> bool {
    (b: Booking) => SupervisorMatch(b, drivers, status, day)
  }

  /** GET /bookings/all: the bookings of the supervisor's drivers, filtered, newest first. */
  function SupervisorBookings(users: Accounts.Users, store: Store, supervisor: ObjectId,
                              status: Option<string>, day: Option<Time>): (r: Store)
    ensures multiset(r) == multiset(Filter(store, SupervisorFilter(DriversOf(users, supervisor), status, day)))
    ensures forall i :: 0 <= i < |r| ==> r[i] in store && SupervisorMatch(r[i], DriversOf(users, supervisor), status, day)
    ensures forall k :: 0 <= k < |store| && SupervisorMatch(store[k], DriversOf(users, supervisor), status, day)
              ==> store[k] in r
    ensures forall i, j :: 0 <= i < j < |r| ==> r[i].createdAt >= r[j].createdAt
  {
    var ids := DriversOf(users, supervisor);
    var r := Query(store, SupervisorFilter(ids, status, day));
    assert forall i :: 0 <= i < |r| ==> SupervisorMatch(r[i], ids, status, day);
    r
  }

  /** The dashboard's "active" filter sends the four open statuses joined by commas. */
  const ActiveFilter: string := "parked,recall-requested,in-transit,arrived"

  /** No status is named by the comma-joined filter, so the "active" view is always empty. */
  lemma ActiveFilterMatchesNothing(users: Accounts.Users, store: Store, supervisor: ObjectId, day: Option<Time>)
    ensures SupervisorBookings(users, store, supervisor, Some(ActiveFilter), day) == []
  {
    var r := SupervisorBookings(users, store, supervisor, Some(ActiveFilter), day);
    if |r| > 0 {
      NoStatusNamed(r[0].status);
    }
  }

  lemma NoStatusNamed(s: Status)
    ensures StatusName(s) != ActiveFilter
  {
    assert |StatusName(s)| < |ActiveFilter|;
  }

  /** The customer list's filter: the booking's customer phone. */
  function CustomerFilter(phone: string): Booking -> bool {
    (b: Booking) => b.customer.phone == phone
  }

  /** GET /bookings/customer-bookings: every booking with the customer's phone, newest first. */
  function CustomerBookings(store: Store, phone: string): (r: Store)
    ensures multiset(r) == multiset(Filter(store, CustomerFilter(phone)))
    ensures forall i :: 0 <= i < |r| ==> r[i] in store && r[i].customer.phone == phone
    ensures forall k :: 0 <= k < |store| && store[k].customer.phone == phone ==> store[k] in r
    ensures forall i, j :: 0 <= i < j < |r| ==> r[i].createdAt >= r[j].createdAt
  {
    Query(store, CustomerFilter(phone))
  }

  /** What one booking adds to the revenue figure: its amount once completed. */
  function Contribution(b: Booking): real {
    if b.status == Completed && b.payment.amount.Some? then b.payment.amount.value else 0.0
  }

  /** `$sum` of `payment.amount` over completed bookings that have one. */
  function Revenue(store: Store): real {
    if |store| == 0 then 0.0 else Contribution(store[0]) + Revenue(store[1..])
  }

  lemma {:induction false} RevenueAppend(a: Store, b: Store)
    ensures Revenue(a + b) == Revenue(a) + Revenue(b)
  {
    if |a| > 0 {
      assert (a + b)[1..] == a[1..] + b;
      RevenueAppend(a[1..], b);
    } else {
      assert a + b == b;
    }
  }

  /** Saving one booking changes the revenue by the change in that booking's contribution. */
  lemma {:induction false} RevenueReplace(store: Store, i: nat, b: Booking)
    requires i < |store|
    ensures Revenue(store[i := b]) == Revenue(store) - Contribution(store[i]) + Contribution(b)
  {
    if i > 0 {
      assert store[i := b][1..] == store[1..][i - 1 := b];
      RevenueReplace(store[1..], i - 1, b);
    } else {
      assert store[i := b][1..] == store[1..];
    }
  }

  /** The `$nin: ['completed', 'cancelled']` and `status: 'completed'` counts. */
  predicate Active(b: Booking) { IsOpen(b.status) }
  predicate Done(b: Booking) { b.status == Completed }

  /** `{ createdAt: { $gte: today } }`. */
  function CreatedSince(todayStart: Time): Booking -> bool {
    (b: Booking) => b.createdAt >= todayStart
  }

  datatype Overview = Overview(todayBookings: nat, activeBookings: nat, completedBookings: nat, totalRevenue: real)

  /** GET /bookings/stats/overview; `todayStart` is the server's local midnight. */
  function Stats(store: Store, todayStart: Time): (o: Overview)
    ensures o.todayBookings == Count(store, CreatedSince(todayStart))
    ensures o.activeBookings == Count(store, Active)
    ensures o.completedBookings == Count(store, Done)
    ensures o.todayBookings == 0 <==> forall i :: 0 <= i < |store| ==> store[i].createdAt < todayStart
    ensures o.activeBookings + o.completedBookings <= |store|
    ensures o.completedBookings == 0 ==> o.totalRevenue == 0.0
    ensures o.totalRevenue == Revenue(store)
  {
    var active := Count(store, Active);
    var completed := Count(store, Done);
    DisjointCounts(store, Active, Done);
    NoCompletedNoRevenue(store);
    Overview(Count(store, CreatedSince(todayStart)), active, completed, Revenue(store))
  }

  lemma {:induction false} NoCompletedNoRevenue(store: Store)
    ensures Count(store, Done) == 0 ==> Revenue(store) == 0.0
  {
    if |store| > 0 {
      NoCompletedNoRevenue(store[1..]);
      assert Filter(store, Done) == (if Done(store[0]) then [store[0]] else []) + Filter(store[1..], Done);
    }
  }

  datatype Tally = Tally(total: nat, active: nat)

  datatype AdminFigures = AdminFigures(
    supervisors: Tally, drivers: Tally, bookingsTotal: nat, bookingsActive: nat, bookingsCompleted: nat, venues: Tally)

  /** `countDocuments({ role })`. */
  function WithRole(role: Accounts.Role): Accounts.User -> bool {
    (u: Accounts.User) => u.role == role
  }

  /** `countDocuments({ role, isActive: true })`. */
  function ActiveWithRole(role: Accounts.Role): Accounts.User -> bool {
    (u: Accounts.User) => u.role == role && u.isActive
  }

  predicate VenueActive(v: Venues.Venue) { v.isActive }

  /** GET /admin/stats. */
  function AdminStats(users: Accounts.Users, store: Store, venues: Venues.Venues): (f: AdminFigures)
    ensures f.supervisors == Tally(Count(users, WithRole(Accounts.SupervisorRole)),
                                   Count(users, ActiveWithRole(Accounts.SupervisorRole)))
    ensures f.drivers == Tally(Count(users, WithRole(Accounts.DriverRole)),
                               Count(users, ActiveWithRole(Accounts.DriverRole)))
    ensures f.bookingsActive == Count(store, Active) && f.bookingsCompleted == Count(store, Done)
    ensures f.venues.active == Count(venues, VenueActive)
    ensures f.supervisors.active <= f.supervisors.total && f.drivers.active <= f.drivers.total
    ensures f.supervisors.total + f.drivers.total <= |users|
    ensures f.bookingsTotal == |store|
    ensures f.bookingsActive + f.bookingsCompleted <= f.bookingsTotal
    ensures f.venues.total == |venues| && f.venues.active <= f.venues.total
  {
    var sup := WithRole(Accounts.SupervisorRole);
    var supActive := ActiveWithRole(Accounts.SupervisorRole);
    var drv := WithRole(Accounts.DriverRole);
    var drvActive := ActiveWithRole(Accounts.DriverRole);
    CountMonotone(users, supActive, sup);
    CountMonotone(users, drvActive, drv);
    DisjointCounts(users, sup, drv);
    DisjointCounts(store, Active, Done);
    AdminFigures(
      Tally(Count(users, sup), Count(users, supActive)),
      Tally(Count(users, drv), Count(users, drvActive)),
      |store|,
      Count(store, Active),
      Count(store, Done),
      Tally(|venues|, Count(venues, VenueActive)))
  }

  /** Two conditions that never hold together count at most every element once. */
  lemma {:induction false} DisjointCounts<T>(xs: seq<T>, p: T -> bool, q: T -> bool)
    requires forall i :: 0 <= i < |xs| ==> !(p(xs[i]) && q(xs[i]))
    ensures Count(xs, p) + Count(xs, q) <= |xs|
  {
    if |xs| > 0 {
      DisjointCounts(xs[1..], p, q);
      assert xs == [xs[0]] + xs[1..];
      assert Filter(xs, p) == (if p(xs[0]) then [xs[0]] else []) + Filter(xs[1..], p);
      assert Filter(xs, q) == (if q(xs[0]) then [xs[0]] else []) + Filter(xs[1..], q);
    }
  }
}
