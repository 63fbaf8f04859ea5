/**
 * The account routes keep the users collection consistent: ids and
 * phones stay unique and every driver's supervisor stays a supervisor.
 */
module AccountsProps {
  import opened Wrappers
  import opened Responses
  import opened Accounts
  import opened Validators
  import BookingSchema
  import Seqs

  /** Appending a valid document keeps the invariant, given a driver's supervisor exists. */
  lemma InsertKeeps(users: Users, u: User)
    requires Consistent(users) && Insert(users, u).Ok?
    requires u.role == DriverRole ==> IsSupervisor(users, u.supervisor.value)
    ensures Consistent(users + [u])
  {
    var r := users + [u];
    forall i | 0 <= i < |r| && r[i].role == DriverRole
      ensures r[i].supervisor.Some? && exists j :: 0 <= j < |r| && SupervisorAt(r, j, r[i].supervisor.value)
    {
      if i < |users| {
        var j :| 0 <= j < |users| && SupervisorAt(users, j, users[i].supervisor.value);
        assert SupervisorAt(r, j, r[i].supervisor.value);
      } else {
        var j := FindUser(users, u.supervisor.value).value;
        assert SupervisorAt(r, j, r[i].supervisor.value);
      }
    }
  }

  /** Saving a document in place with the same id and role keeps the invariant. */
  lemma ReplaceKeeps(users: Users, i: nat, u: User)
    requires Consistent(users) && i < |users| && u.key == users[i].key && u.role == users[i].role
    requires Replace(users, i, u).Ok?
    requires u.role == DriverRole ==> exists j :: 0 <= j < |users| && SupervisorAt(users, j, u.supervisor.value)
    ensures Consistent(users[i := u])
  {
    var r := users[i := u];
    forall k | 0 <= k < |r| && r[k].role == DriverRole
      ensures r[k].supervisor.Some? && exists j :: 0 <= j < |r| && SupervisorAt(r, j, r[k].supervisor.value)
    {
      var j :| 0 <= j < |users| && SupervisorAt(users, j, r[k].supervisor.value);
      assert SupervisorAt(r, j, r[k].supervisor.value);
    }
  }

  /** Deleting a document nobody is assigned to keeps the invariant. */
  lemma RemoveKeeps(users: Users, i: nat)
    requires Consistent(users) && i < |users|
    requires forall d :: 0 <= d < |users| && users[d].role == DriverRole ==> users[d].supervisor != Some(users[i].key)
    ensures Consistent(Remove(users, i))
  {
    var r := Remove(users, i);
    forall a, b | 0 <= a < b < |r| ensures r[a].key != r[b].key && r[a].phone != r[b].phone {
      var a' := if a < i then a else a + 1;
      var b' := if b < i then b else b + 1;
      assert r[a] == users[a'] && r[b] == users[b'];
    }
    forall k | 0 <= k < |r| && r[k].role == DriverRole
      ensures r[k].supervisor.Some? && exists j :: 0 <= j < |r| && SupervisorAt(r, j, r[k].supervisor.value)
    {
      var k' := if k < i then k else k + 1;
      assert r[k] == users[k'];
      var j :| 0 <= j < |users| && SupervisorAt(users, j, users[k'].supervisor.value);
      assert j != i;
      var j' := if j < i then j else j - 1;
      assert r[j'] == users[j];
      assert SupervisorAt(r, j', r[k].supervisor.value);
    }
  }

  lemma CreateSupervisorKeeps(users: Users, req: StaffRequest, key: ObjectId, now: Time)
    requires Consistent(users) && CreateSupervisor(users, req, key, now).Ok?
    ensures Consistent(CreateSupervisor(users, req, key, now).value)
  {
    var u := NewUser(key, req.name, req.phone, Some(req.password), SupervisorRole, None, now);
    assert Insert(users, u).Ok?;
    InsertKeeps(users, u);
  }

  /** A created driver's supervisor is a supervisor, so the invariant holds afterwards. */
  lemma CreateDriverKeeps(users: Users, req: StaffRequest, supervisorId: string, key: ObjectId, now: Time)
    requires Consistent(users) && CreateDriver(users, req, supervisorId, key, now).Ok?
    ensures Consistent(CreateDriver(users, req, supervisorId, key, now).value)
  {
    var u := NewUser(key, req.name, req.phone, Some(req.password), DriverRole, Some(supervisorId), now);
    assert Insert(users, u).Ok?;
    InsertKeeps(users, u);
  }

  lemma UpdateSupervisorKeeps(users: Users, key: ObjectId, p: StaffPatch)
    requires Consistent(users) && UpdateSupervisor(users, key, p).Ok?
    ensures Consistent(UpdateSupervisor(users, key, p).value)
  {
    var i := FindWithRole(users, key, SupervisorRole).value;
    ReplaceKeeps(users, i, ApplyPatch(users[i], p));
  }

  /** Reassigning a driver only to an existing supervisor keeps the invariant. */
  lemma UpdateDriverKeeps(users: Users, key: ObjectId, p: StaffPatch)
    requires Consistent(users) && UpdateDriver(users, key, p).Ok?
    ensures Consistent(UpdateDriver(users, key, p).value)
  {
    var i := FindWithRole(users, key, DriverRole).value;
    var v := UpdateDriver(users, key, p).value[i];
    if Truthy(p.supervisorId) {
      var j := FindUser(users, p.supervisorId.value).value;
      assert SupervisorAt(users, j, v.supervisor.value);
    } else {
      assert users[i].role == DriverRole;
    }
    ReplaceKeeps(users, i, v);
  }

  /** A supervisor with nobody assigned is deleted without leaving a driver unassigned. */
  lemma DeleteSupervisorKeeps(users: Users, key: ObjectId)
    requires Consistent(users) && DeleteSupervisor(users, key).Ok?
    ensures Consistent(DeleteSupervisor(users, key).value)
  {
    var i := FindWithRole(users, key, SupervisorRole).value;
    RemoveKeeps(users, i);
  }

  /** No driver's supervisor is a driver, so deleting a driver leaves every reference intact. */
  lemma DeleteDriverKeeps(users: Users, bookings: BookingSchema.Store, key: ObjectId)
    requires Consistent(users) && DeleteDriver(users, bookings, key).Ok?
    ensures Consistent(DeleteDriver(users, bookings, key).value)
  {
    var i := FindWithRole(users, key, DriverRole).value;
    forall d | 0 <= d < |users| && users[d].role == DriverRole ensures users[d].supervisor != Some(users[i].key) {
      var j :| 0 <= j < |users| && SupervisorAt(users, j, users[d].supervisor.value);
      assert j != i;
    }
    RemoveKeeps(users, i);
  }

  /** The supervisor-side create can only ever add a supervisor, which keeps the invariant. */
  lemma CreateUserKeeps(users: Users, req: UserRequest, key: ObjectId, now: Time)
    requires Consistent(users) && CreateUser(users, req, key, now).Ok?
    ensures Consistent(CreateUser(users, req, key, now).value)
  {
    var r := CreateUser(users, req, key, now).value;
    assert r == users + [r[|users|]];
    assert Insert(users, r[|users|]).Ok?;
    InsertKeeps(users, r[|users|]);
  }

  /** Creating a driver through the supervisor route always fails: the new user has no supervisor. */
  lemma CreateUserDriverFails(users: Users, req: UserRequest, key: ObjectId, now: Time)
    requires req.role == Some("driver")
    ensures CreateUser(users, req, key, now).Err?
  {
  }

  /** Unknown phone and wrong password are indistinguishable to the caller. */
  lemma LoginFailuresAlike(users: Users, req: LoginRequest, matches: (string, string) -> bool)
    requires IsMobilePhone(req.phone) && req.password != ""
    requires Login(users, req, matches).Err?
    ensures Login(users, req, matches) == Err(Unauthenticated("Invalid credentials"))
  {
  }

  /**
   * With unique phones, the active user with the phone (and role, when
   * given) is the one login decides on: its stored password signs it in,
   * any other password is refused.
   */
  lemma LoginDecidesOnStoredUser(users: Users, req: LoginRequest, matches: (string, string) -> bool, i: nat)
    requires PhonesUnique(users)
    requires IsMobilePhone(req.phone) && req.password != ""
    requires i < |users| && LoginCandidate(users[i], req)
    ensures ComparePassword(users[i], req.password, matches) ==> Login(users, req, matches) == Ok(users[i])
    ensures !ComparePassword(users[i], req.password, matches) ==>
      Login(users, req, matches) == Err(Unauthenticated("Invalid credentials"))
  {
    var f := Seqs.FindFirst(users, (u: User) => LoginCandidate(u, req));
    assert f.Some?;
    var j := f.value;
    assert users[j].phone == users[i].phone;
    assert j == i;
  }
}
