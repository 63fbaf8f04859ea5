/**
 * User accounts: the User schema's rules, the admin routes that create,
 * update and delete supervisors and drivers, and the supervisor-side
 * create and driver list of `backend/routes/users.js`.
 *
 * A stored password stands for its bcrypt hash; hashing is not modelled,
 * and the comparison is a parameter.
 */
module Accounts {
  import opened Wrappers
  import opened Text
  import opened Responses
  import opened Validators
  import opened Seqs
  import BookingSchema

  type ObjectId = string
  type Time = int

  datatype Role = DriverRole | CustomerRole | SupervisorRole | AdminRole

  function RoleName(r: Role): string {
    match r
    case DriverRole => "driver"
    case CustomerRole => "customer"
    case SupervisorRole => "supervisor"
    case AdminRole => "admin"
  }

  function ParseRole(name: string): (r: Option<Role>)
    ensures r.Some? ==> RoleName(r.value) == name
    ensures forall x: Role :: RoleName(x) == name ==> r == Some(x)
  {
    if name == "driver" then Some(DriverRole)
    else if name == "customer" then Some(CustomerRole)
    else if name == "supervisor" then Some(SupervisorRole)
    else if name == "admin" then Some(AdminRole)
    else None
  }

  datatype User = User(
    key: ObjectId,
    name: string,
    phone: string,
    password: Option<string>,
    role: Role,
    supervisor: Option<ObjectId>,
    isActive: bool,
    createdAt: Time)

  /**
   * The schema's `required` rules (a required string may not be empty):
   * name and phone always, a password unless the user is a customer, a
   * supervisor exactly when the user is a driver.
   */
  predicate SchemaValid(u: User) {
    && u.name != ""
    && u.phone != ""
    && (u.role != CustomerRole ==> Truthy(u.password))
    && (u.role == DriverRole ==> u.supervisor.Some?)
  }

  /** A new document with the schema defaults: active, created now; name and phone pass the trim setter. */
  function NewUser(key: ObjectId, name: string, phone: string, password: Option<string>,
                   role: Role, supervisor: Option<ObjectId>, now: Time): (u: User)
    ensures u.isActive && u.createdAt == now && u.role == role && u.key == key
    ensures u.name == Trim(name) && u.phone == Trim(phone)
    ensures u.password == password && u.supervisor == supervisor
  {
    User(key, Trim(name), Trim(phone), password, role, supervisor, true, now)
  }

  /** `comparePassword`: false when no password is stored, otherwise what bcrypt says. */
  function ComparePassword(u: User, candidate: string, matches: (string, string) -> bool): (ok: bool)
    ensures !Truthy(u.password) ==> !ok
    ensures Truthy(u.password) ==> ok == matches(candidate, u.password.value)
  {
    Truthy(u.password) && matches(candidate, u.password.value)
  }

  type Users = seq<User>

  predicate KeysUnique(users: Users) {
    forall i, j :: 0 <= i < j < |users| ==> users[i].key != users[j].key
  }

  predicate PhonesUnique(users: Users) {
    forall i, j :: 0 <= i < j < |users| ==> users[i].phone != users[j].phone
  }

  predicate SupervisorAt(users: Users, j: int, key: ObjectId) {
    0 <= j < |users| && users[j].key == key && users[j].role == SupervisorRole
  }

  /** Every driver's `supervisor` names a user whose role is supervisor. */
  predicate DriversHaveSupervisors(users: Users) {
    forall i :: 0 <= i < |users| && users[i].role == DriverRole ==>
      users[i].supervisor.Some? && exists j :: 0 <= j < |users| && SupervisorAt(users, j, users[i].supervisor.value)
  }

  /** The invariant the account routes keep. */
  predicate Consistent(users: Users) {
    KeysUnique(users) && PhonesUnique(users) && DriversHaveSupervisors(users)
  }

  function FindUser(users: Users, key: ObjectId): (r: Option<nat>)
    ensures r.Some? ==> r.value < |users| && users[r.value].key == key
    ensures r.None? ==> forall i :: 0 <= i < |users| ==> users[i].key != key
  {
    FindFirst(users, (u: User) => u.key == key)
  }

  function FindPhone(users: Users, phone: string): (r: Option<nat>)
    ensures r.Some? ==> r.value < |users| && users[r.value].phone == phone
    ensures r.None? ==> forall i :: 0 <= i < |users| ==> users[i].phone != phone
  {
    FindFirst(users, (u: User) => u.phone == phone)
  }

  /** `findById(id)` followed by `role === 'supervisor'`. */
  predicate IsSupervisor(users: Users, key: ObjectId) {
    var f := FindUser(users, key);
    f.Some? && users[f.value].role == SupervisorRole
  }

  /** Inserting a document: the schema rules, then the unique `_id` and `phone` indexes. */
  function Insert(users: Users, u: User): (r: Result<Users, Error>)
    ensures r.Ok? <==> SchemaValid(u) && FindUser(users, u.key).None? && FindPhone(users, u.phone).None?
    ensures r.Ok? ==> r.value == users + [u]
    ensures r.Err? ==> r.error == ServerError
  {
    if !SchemaValid(u) || FindUser(users, u.key).Some? || FindPhone(users, u.phone).Some? then Err(ServerError)
    else Ok(users + [u])
  }

  /** A changed document at position i passes the schema rules and keeps the phone index unique. */
  predicate Saveable(users: Users, i: nat, u: User) {
    SchemaValid(u) && forall j :: 0 <= j < |users| && j != i ==> users[j].phone != u.phone
  }

  /** Saving a changed document in place: the schema rules and the phone index against the others. */
  function Replace(users: Users, i: nat, u: User): (r: Result<Users, Error>)
    requires i < |users| && u.key == users[i].key
    ensures r.Ok? <==> Saveable(users, i, u)
    ensures r.Ok? ==> r.value == users[i := u]
    ensures r.Err? ==> r.error == ServerError
  {
    if !SchemaValid(u) || exists j :: 0 <= j < |users| && j != i && users[j].phone == u.phone then Err(ServerError)
    else Ok(users[i := u])
  }

  /** `findByIdAndDelete`. */
  function Remove(users: Users, i: nat): (r: Users)
    requires i < |users|
    ensures |r| == |users| - 1
    ensures forall j :: 0 <= j < i ==> r[j] == users[j]
    ensures forall j :: i <= j < |r| ==> r[j] == users[j + 1]
  {
    users[..i] + users[i + 1..]
  }

  datatype StaffRequest = StaffRequest(name: string, phone: string, password: string)

  /** The validators of both admin create routes: a name, a mobile number, a password of six or more. */
  function StaffErrors(req: StaffRequest): (errs: seq<string>)
    ensures |errs| == 0 <==> NotBlank(req.name) && IsMobilePhone(req.phone) && |req.password| >= 6
  {
    (if NotBlank(req.name) then [] else ["name"])
    + (if IsMobilePhone(req.phone) then [] else ["phone"])
    + (if |req.password| >= 6 then [] else ["password"])
  }

  const PhoneTaken := BadRequest("User with this phone number already exists")
  const InvalidSupervisor := BadRequest("Invalid supervisor")

  /** POST /admin/supervisors. */
  function CreateSupervisor(users: Users, req: StaffRequest, key: ObjectId, now: Time): (r: Result<Users, Error>)
    ensures |StaffErrors(req)| > 0 ==> r == Err(Validation(StaffErrors(req)))
    ensures |StaffErrors(req)| == 0 && FindPhone(users, req.phone).Some? ==> r == Err(PhoneTaken)
    ensures r.Ok? <==> |StaffErrors(req)| == 0 && FindPhone(users, req.phone).None? && FindUser(users, key).None?
    ensures r.Ok? ==> r.value == users + [NewUser(key, req.name, req.phone, Some(req.password), SupervisorRole, None, now)]
  {
    if |StaffErrors(req)| > 0 then Err(Validation(StaffErrors(req)))
    else if FindPhone(users, req.phone).Some? then Err(PhoneTaken)
    else
      var u := NewUser(key, req.name, req.phone, Some(req.password), SupervisorRole, None, now);
      assert Trim(req.phone) == req.phone by { ValidPhoneUntrimmed(req.phone); }
      Insert(users, u)
  }

  /** POST /admin/drivers: also needs a supervisor id that names a supervisor. */
  function CreateDriver(users: Users, req: StaffRequest, supervisorId: string, key: ObjectId, now: Time)
    : (r: Result<Users, Error>)
    ensures |StaffErrors(req)| > 0 || supervisorId == "" ==> r.Err? && r.error.Validation?
    ensures |StaffErrors(req)| == 0 && supervisorId != "" && FindPhone(users, req.phone).Some? ==> r == Err(PhoneTaken)
    ensures (|StaffErrors(req)| == 0 && supervisorId != "" && FindPhone(users, req.phone).None?
             && !IsSupervisor(users, supervisorId)) ==> r == Err(InvalidSupervisor)
    ensures r.Ok? <==> |StaffErrors(req)| == 0 && supervisorId != "" && FindPhone(users, req.phone).None?
                       && IsSupervisor(users, supervisorId) && FindUser(users, key).None?
    ensures r.Ok? ==> r.value == users + [NewUser(key, req.name, req.phone, Some(req.password), DriverRole, Some(supervisorId), now)]
  {
    var errs := StaffErrors(req) + (if supervisorId != "" then [] else ["supervisorId"]);
    if |errs| > 0 then Err(Validation(errs))
    else if FindPhone(users, req.phone).Some? then Err(PhoneTaken)
    else if !IsSupervisor(users, supervisorId) then Err(InvalidSupervisor)
    else
      var u := NewUser(key, req.name, req.phone, Some(req.password), DriverRole, Some(supervisorId), now);
      assert Trim(req.phone) == req.phone by { ValidPhoneUntrimmed(req.phone); }
      Insert(users, u)
  }

  /** The body of an update: each field optional; `isActive` applies whenever it is present. */
  datatype StaffPatch = StaffPatch(
    name: Option<string>, phone: Option<string>, password: Option<string>,
    supervisorId: Option<string>, isActive: Option<bool>)

  /** The truthy fields of a patch written over a user; the supervisor is handled by the driver route. */
  function ApplyPatch(u: User, p: StaffPatch): (v: User)
    ensures v.key == u.key && v.role == u.role && v.createdAt == u.createdAt && v.supervisor == u.supervisor
    ensures v.name == (if Truthy(p.name) then Trim(p.name.value) else u.name)
    ensures v.phone == (if Truthy(p.phone) then Trim(p.phone.value) else u.phone)
    ensures v.password == (if Truthy(p.password) then p.password else u.password)
    ensures v.isActive == (if p.isActive.Some? then p.isActive.value else u.isActive)
  {
    u.(name := if Truthy(p.name) then Trim(p.name.value) else u.name,
       phone := if Truthy(p.phone) then Trim(p.phone.value) else u.phone,
       password := if Truthy(p.password) then p.password else u.password,
       isActive := if p.isActive.Some? then p.isActive.value else u.isActive)
  }

  /** Position of the user with that id, if it has the given role: otherwise the routes answer 404. */
  function FindWithRole(users: Users, key: ObjectId, role: Role): (r: Option<nat>)
    ensures r.Some? ==> r.value < |users| && users[r.value].key == key && users[r.value].role == role
    ensures r.Some? ==> FindUser(users, key) == r
    ensures r.None? <==> FindUser(users, key).None? || users[FindUser(users, key).value].role != role
  {
    var f := FindUser(users, key);
    if f.Some? && users[f.value].role == role then f else None
  }

  /** PUT /admin/supervisors/:id. */
  function UpdateSupervisor(users: Users, key: ObjectId, p: StaffPatch): (r: Result<Users, Error>)
    ensures FindWithRole(users, key, SupervisorRole).None? ==> r == Err(NotFound)
    ensures r.Err? ==> r.error == NotFound || r.error == ServerError
    ensures r.Ok? <==>
      && FindWithRole(users, key, SupervisorRole).Some?
      && var i := FindWithRole(users, key, SupervisorRole).value;
      Saveable(users, i, ApplyPatch(users[i], p))
    ensures r.Ok? ==>
      var i := FindWithRole(users, key, SupervisorRole).value;
      r.value == users[i := ApplyPatch(users[i], p)]
  {
    match FindWithRole(users, key, SupervisorRole)
    case None => Err(NotFound)
    case Some(i) => Replace(users, i, ApplyPatch(users[i], p))
  }

  /** PUT /admin/drivers/:id: a supplied supervisor id must name a supervisor. */
  function UpdateDriver(users: Users, key: ObjectId, p: StaffPatch): (r: Result<Users, Error>)
    ensures FindWithRole(users, key, DriverRole).None? ==> r == Err(NotFound)
    ensures (FindWithRole(users, key, DriverRole).Some? && Truthy(p.supervisorId)
             && !IsSupervisor(users, p.supervisorId.value)) ==> r == Err(InvalidSupervisor)
    ensures r.Err? ==> r.error in {NotFound, InvalidSupervisor, ServerError}
    ensures r.Ok? <==>
      && FindWithRole(users, key, DriverRole).Some?
      && (Truthy(p.supervisorId) ==> IsSupervisor(users, p.supervisorId.value))
      && var i := FindWithRole(users, key, DriverRole).value;
      Saveable(users, i, Reassigned(ApplyPatch(users[i], p), p))
    ensures r.Ok? ==>
      var i := FindWithRole(users, key, DriverRole).value;
      && |r.value| == |users|
      && var v := r.value[i];
      && r.value == users[i := v]
      && v == ApplyPatch(users[i], p).(supervisor := v.supervisor)
      && (Truthy(p.supervisorId) ==> v.supervisor == p.supervisorId && IsSupervisor(users, p.supervisorId.value))
      && (!Truthy(p.supervisorId) ==> v.supervisor == users[i].supervisor)
  {
    match FindWithRole(users, key, DriverRole)
    case None => Err(NotFound)
    case Some(i) =>
      if Truthy(p.supervisorId) && !IsSupervisor(users, p.supervisorId.value) then Err(InvalidSupervisor)
      else Replace(users, i, Reassigned(ApplyPatch(users[i], p), p))
  }

  /** `driver.supervisor = supervisorId` when one is supplied. */
  function Reassigned(v: User, p: StaffPatch): (w: User)
    ensures w.(supervisor := v.supervisor) == v
    ensures w.supervisor == (if Truthy(p.supervisorId) then p.supervisorId else v.supervisor)
  {
    if Truthy(p.supervisorId) then v.(supervisor := p.supervisorId) else v
  }

  /** `countDocuments({ supervisor: id })`: users of any role assigned to that supervisor. */
  function AssignedTo(users: Users, key: ObjectId): (n: nat)
    ensures n == 0 <==> forall i :: 0 <= i < |users| ==> users[i].supervisor != Some(key)
  {
    Count(users, (u: User) => u.supervisor == Some(key))
  }

  /** DELETE /admin/supervisors/:id: refused while anyone is assigned to the supervisor. */
  function DeleteSupervisor(users: Users, key: ObjectId): (r: Result<Users, Error>)
    ensures FindWithRole(users, key, SupervisorRole).None? ==> r == Err(NotFound)
    ensures FindWithRole(users, key, SupervisorRole).Some? && AssignedTo(users, key) > 0 ==>
      r == Err(BadRequest("Cannot delete supervisor. " + DecimalString(AssignedTo(users, key))
                          + " driver(s) are assigned to this supervisor."))
    ensures r.Ok? <==> FindWithRole(users, key, SupervisorRole).Some? && AssignedTo(users, key) == 0
    ensures r.Ok? ==> r.value == Remove(users, FindWithRole(users, key, SupervisorRole).value)
  {
    match FindWithRole(users, key, SupervisorRole)
    case None => Err(NotFound)
    case Some(i) =>
      var n := AssignedTo(users, key);
      if n > 0 then
        Err(BadRequest("Cannot delete supervisor. " + DecimalString(n) + " driver(s) are assigned to this supervisor."))
      else Ok(Remove(users, i))
  }

  /** Bookings of that driver that are neither completed nor cancelled. */
  function OpenBookingsOf(bookings: BookingSchema.Store, key: ObjectId): (n: nat)
    ensures n == 0 <==> forall i :: 0 <= i < |bookings| ==>
      bookings[i].driver != key || !BookingSchema.IsOpen(bookings[i].status)
  {
    Count(bookings, (b: BookingSchema.Booking) => b.driver == key && BookingSchema.IsOpen(b.status))
  }

  /** DELETE /admin/drivers/:id: refused while the driver has an open booking. */
  function DeleteDriver(users: Users, bookings: BookingSchema.Store, key: ObjectId): (r: Result<Users, Error>)
    ensures FindWithRole(users, key, DriverRole).None? ==> r == Err(NotFound)
    ensures FindWithRole(users, key, DriverRole).Some? && OpenBookingsOf(bookings, key) > 0 ==>
      r == Err(BadRequest("Cannot delete driver. " + DecimalString(OpenBookingsOf(bookings, key))
                          + " active booking(s) exist."))
    ensures r.Ok? <==> FindWithRole(users, key, DriverRole).Some? && OpenBookingsOf(bookings, key) == 0
    ensures r.Ok? ==> r.value == Remove(users, FindWithRole(users, key, DriverRole).value)
  {
    match FindWithRole(users, key, DriverRole)
    case None => Err(NotFound)
    case Some(i) =>
      var n := OpenBookingsOf(bookings, key);
      if n > 0 then Err(BadRequest("Cannot delete driver. " + DecimalString(n) + " active booking(s) exist."))
      else Ok(Remove(users, i))
  }

  datatype UserRequest = UserRequest(name: Option<string>, phone: Option<string>, password: Option<string>, role: Option<string>)

  /**
   * POST /users/create. Only driver and supervisor are accepted, the phone
   * must be unused (the lookup goes through the phone's trim setter, as the
   * save does), and the new user gets no supervisor.
   */
  function CreateUser(users: Users, req: UserRequest, key: ObjectId, now: Time): (r: Result<Users, Error>)
    ensures req.role != Some("driver") && req.role != Some("supervisor") ==> r == Err(BadRequest("Invalid role"))
    ensures ((req.role == Some("driver") || req.role == Some("supervisor")) && req.phone.Some?
             && FindPhone(users, Trim(req.phone.value)).Some?) ==> r == Err(BadRequest("User already exists"))
    ensures r.Ok? <==>
      && req.role == Some("supervisor") && req.name.Some? && req.phone.Some?
      && FindPhone(users, Trim(req.phone.value)).None?
      && Trim(req.name.value) != "" && Trim(req.phone.value) != "" && Truthy(req.password)
      && FindUser(users, key).None?
    ensures r.Ok? ==> r.value == users + [NewUser(key, req.name.value, req.phone.value, req.password, SupervisorRole, None, now)]
    ensures r.Err? ==> r.error in {BadRequest("Invalid role"), BadRequest("User already exists"), ServerError}
  {
    if req.role != Some("driver") && req.role != Some("supervisor") then Err(BadRequest("Invalid role"))
    else if req.phone.Some? && FindPhone(users, Trim(req.phone.value)).Some? then Err(BadRequest("User already exists"))
    else if req.name.None? || req.phone.None? then Err(ServerError)
    else
      var role := if req.role == Some("driver") then DriverRole else SupervisorRole;
      Insert(users, NewUser(key, req.name.value, req.phone.value, req.password, role, None, now))
  }

  /** GET /users/drivers: active drivers in ascending name order. */
  function ActiveDrivers(users: Users): (r: Users)
    ensures forall i :: 0 <= i < |r| ==> r[i].role == DriverRole && r[i].isActive
    ensures multiset(r) == multiset(Filter(users, (u: User) => u.role == DriverRole && u.isActive))
    ensures forall i :: 0 <= i < |users| && users[i].role == DriverRole && users[i].isActive ==> users[i] in r
    ensures forall i, j :: 0 <= i < j < |r| ==> LexLeq(r[i].name, r[j].name)
  {
    var p := (u: User) => u.role == DriverRole && u.isActive;
    ByKeyPreorder((u: User) => u.name);
    var r := SelectSorted(users, p, ByKey((u: User) => u.name));
    assert forall i :: 0 <= i < |r| ==> p(r[i]);
    r
  }

  datatype LoginRequest = LoginRequest(phone: string, password: string, role: Option<string>)

  /** `findOne({ phone, isActive: true, role })`, the role only when one is given. */
  predicate LoginCandidate(u: User, req: LoginRequest) {
    u.phone == req.phone && u.isActive && (!Truthy(req.role) || RoleName(u.role) == req.role.value)
  }

  /**
   * POST /auth/login (staff): the first active user with that phone (and
   * role, when one is given), if its password matches; no other user is
   * tried. An unknown user and a wrong password get the same answer.
   */
  function Login(users: Users, req: LoginRequest, matches: (string, string) -> bool): (r: Result<User, Error>)
    ensures !IsMobilePhone(req.phone) || req.password == "" ==> r.Err? && r.error.Validation?
    ensures r.Ok? ==> r.value in users && r.value.isActive && r.value.phone == req.phone
                      && (Truthy(req.role) ==> RoleName(r.value.role) == req.role.value)
                      && ComparePassword(r.value, req.password, matches)
    ensures r.Err? && !r.error.Validation? ==> r.error == Unauthenticated("Invalid credentials")
    ensures IsMobilePhone(req.phone) && req.password != ""
            && (forall i :: 0 <= i < |users| ==> !LoginCandidate(users[i], req))
            ==> r == Err(Unauthenticated("Invalid credentials"))
    ensures IsMobilePhone(req.phone) && req.password != "" ==>
      forall i :: 0 <= i < |users| && LoginCandidate(users[i], req)
                  && (forall j :: 0 <= j < i ==> !LoginCandidate(users[j], req)) ==>
        r == (if ComparePassword(users[i], req.password, matches) then Ok(users[i])
              else Err(Unauthenticated("Invalid credentials")))
  {
    var errs := (if IsMobilePhone(req.phone) then [] else ["phone"]) + (if req.password != "" then [] else ["password"]);
    if |errs| > 0 then Err(Validation(errs))
    else
      match FindFirst(users, (u: User) => LoginCandidate(u, req))
      case None => Err(Unauthenticated("Invalid credentials"))
      case Some(i) =>
        if !ComparePassword(users[i], req.password, matches) then Err(Unauthenticated("Invalid credentials"))
        else Ok(users[i])
  }
}
