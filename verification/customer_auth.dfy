/**
 * Customer sign-in: a one-time password kept in an in-memory map keyed by
 * phone, and the link sign-in through a booking's access token. Both end by
 * finding the customer account for the phone or creating one.
 */
module CustomerAuth {
  import opened Wrappers
  import opened Text
  import opened Responses
  import opened Validators
  import opened Outbox
  import Otp
  import Seqs
  import Sms
  import Accounts
  import BookingSchema

  type Time = int

  datatype OtpEntry = OtpEntry(otp: string, expiry: Time)

  /** The server's `otpStore`: at most one pending code per phone. */
  type OtpStore = map<string, OtpEntry>

  /** A signed-in customer and the users collection after any account creation. */
  datatype Session = Session(users: Accounts.Users, user: Accounts.User)

  /** `findOne({ phone, role: 'customer' })`. */
  function FindCustomer(users: Accounts.Users, phone: string): (r: Option<nat>)
    ensures r.Some? ==> r.value < |users| && users[r.value].phone == phone && users[r.value].role == Accounts.CustomerRole
    ensures r.None? ==> forall i :: 0 <= i < |users| ==> !(users[i].phone == phone && users[i].role == Accounts.CustomerRole)
  {
    Seqs.FindFirst(users, (u: Accounts.User) => u.phone == phone && u.role == Accounts.CustomerRole)
  }

  /**
   * The existing customer account for the phone, else a new one (without a
   * password). Creating fails when the phone already belongs to a staff
   * account or the name is empty.
   */
  function FindOrCreate(users: Accounts.Users, phone: string, name: string, key: string, now: Time)
    : (r: Result<Session, Error>)
    ensures FindCustomer(users, phone).Some? ==> r == Ok(Session(users, users[FindCustomer(users, phone).value]))
    ensures FindCustomer(users, phone).None? && r.Ok? ==>
      && r.value.user == Accounts.NewUser(key, name, phone, None, Accounts.CustomerRole, None, now)
      && r.value.users == users + [r.value.user]
    ensures r.Ok? ==> r.value.user.role == Accounts.CustomerRole && r.value.user in r.value.users
    ensures r.Ok? <==>
      || FindCustomer(users, phone).Some?
      || (Trim(name) != "" && Trim(phone) != "" && Accounts.FindUser(users, key).None?
          && Accounts.FindPhone(users, Trim(phone)).None?)
    ensures r.Err? ==> r.error == ServerError
  {
    match FindCustomer(users, phone)
    case Some(i) => Ok(Session(users, users[i]))
    case None =>
      var u := Accounts.NewUser(key, name, phone, None, Accounts.CustomerRole, None, now);
      match Accounts.Insert(users, u)
      case Ok(next) => Ok(Session(next, u))
      case Err(e) => Err(e)
  }

  /** Signing in again with the same phone finds the account the first sign-in returned. */
  lemma FindOrCreateStable(users: Accounts.Users, phone: string, name: string, key: string, now: Time,
                           name2: string, key2: string, now2: Time)
    requires Trim(phone) == phone
    requires FindOrCreate(users, phone, name, key, now).Ok?
    ensures var s := FindOrCreate(users, phone, name, key, now).value;
            FindOrCreate(s.users, phone, name2, key2, now2) == Ok(s)
  {
    var s := FindOrCreate(users, phone, name, key, now).value;
    if FindCustomer(users, phone).None? {
      FindCustomerAppended(users, s.user, phone);
    }
  }

  /** An account appended for a phone with no customer account is the one found for it. */
  lemma FindCustomerAppended(users: Accounts.Users, u: Accounts.User, phone: string)
    requires FindCustomer(users, phone).None?
    requires u.phone == phone && u.role == Accounts.CustomerRole
    ensures FindCustomer(users + [u], phone) == Some(|users|)
  {
    var s := users + [u];
    assert s[|users|] == u;
    assert forall k :: 0 <= k < |users| ==> s[k] == users[k];
  }

  /** POST /auth/customer/request-otp: a new code replaces any pending one for the phone. */
  function RequestOtp(otps: OtpStore, phone: string, now: Time, draw: nat): (r: Result<(OtpStore, seq<Message>), Error>)
    requires draw < 900000
    ensures r.Err? <==> !IsMobilePhone(phone)
    ensures r.Err? ==> r.error == Validation(["phone"])
    ensures r.Ok? ==>
      var (next, out) := r.value;
      && phone in next && next[phone].expiry == now + Otp.LifetimeMs
      && next[phone].otp == Otp.Generate(draw)
      && (forall p :: p in otps && p != phone ==> p in next && next[p] == otps[p])
      && next.Keys == otps.Keys + {phone}
      && out == [Email(phone, OtpEmail, next[phone].otp), TextMessage(phone, Sms.OtpMessage(next[phone].otp))]
  {
    if !IsMobilePhone(phone) then Err(Validation(["phone"]))
    else
      var otp := Otp.Generate(draw);
      Ok((otps[phone := OtpEntry(otp, now + Otp.LifetimeMs)],
          [Email(phone, OtpEmail, otp), TextMessage(phone, Sms.OtpMessage(otp))]))
  }

  datatype VerifyRequest = VerifyRequest(phone: string, otp: string, name: Option<string>)

  /** The map after the attempt travels with the answer: a matched code is gone even if sign-in then fails. */
  datatype Verified = Verified(otps: OtpStore, result: Result<Session, Error>)

  const ExpiredOrInvalid := Unauthenticated("OTP expired or invalid")

  /** The name a new account gets: the trimmed name when there is one, else "Customer". */
  function CustomerName(name: Option<string>): (n: string)
    ensures n != ""
    ensures name.Some? && Trim(name.value) != "" ==> n == Trim(name.value)
  {
    if name.Some? && Trim(name.value) != "" then Trim(name.value) else "Customer"
  }

  /** POST /auth/customer/verify-otp. */
  function VerifyOtp(otps: OtpStore, users: Accounts.Users, req: VerifyRequest, now: Time, key: string): (v: Verified)
    ensures v.result.Err? && v.result.error.Validation? <==> !IsMobilePhone(req.phone) || |req.otp| != 6
    ensures IsMobilePhone(req.phone) && |req.otp| == 6 && (req.phone !in otps || otps[req.phone].expiry < now) ==>
      v == Verified(otps, Err(ExpiredOrInvalid))
    ensures (IsMobilePhone(req.phone) && |req.otp| == 6 && req.phone in otps && otps[req.phone].expiry >= now
             && otps[req.phone].otp != req.otp) ==> v == Verified(otps, Err(Unauthenticated("Invalid OTP")))
    ensures v.result.Ok? <==>
      && IsMobilePhone(req.phone) && |req.otp| == 6
      && req.phone in otps && otps[req.phone].expiry >= now && otps[req.phone].otp == req.otp
      && FindOrCreate(users, req.phone, CustomerName(req.name), key, now).Ok?
    ensures v.otps != otps ==> v.otps == otps - {req.phone} && req.phone in otps && otps[req.phone].otp == req.otp
    ensures v.result.Ok? ==> v.otps == otps - {req.phone}
                             && v.result == FindOrCreate(users, req.phone, CustomerName(req.name), key, now)
  {
    var errs := (if IsMobilePhone(req.phone) then [] else ["phone"]) + (if |req.otp| == 6 then [] else ["otp"]);
    if |errs| > 0 then Verified(otps, Err(Validation(errs)))
    else if req.phone !in otps || otps[req.phone].expiry < now then Verified(otps, Err(ExpiredOrInvalid))
    else if otps[req.phone].otp != req.otp then Verified(otps, Err(Unauthenticated("Invalid OTP")))
    else Verified(otps - {req.phone}, FindOrCreate(users, req.phone, CustomerName(req.name), key, now))
  }

  /** The link sign-in's answer: the session and the booking the link opened. */
  datatype Access = Access(session: Session, booking: BookingSchema.ObjectId)

  /**
   * GET /auth/customer/access/:token: the booking holding the token names
   * the customer; the booking itself is not changed.
   */
  function AccessByToken(store: BookingSchema.Store, users: Accounts.Users, token: string, key: string, now: Time)
    : (r: Result<Access, Error>)
    ensures BookingSchema.FindByToken(store, token).None? <==> r == Err(NotFound)
    ensures r.Ok? ==>
      var b := store[BookingSchema.FindByToken(store, token).value];
      && r.value.booking == b.key && b.accessToken == token
      && Ok(r.value.session) == FindOrCreate(users, b.customer.phone, b.customer.name, key, now)
    ensures r.Ok? <==>
      BookingSchema.FindByToken(store, token).Some?
      && var b := store[BookingSchema.FindByToken(store, token).value];
      FindOrCreate(users, b.customer.phone, b.customer.name, key, now).Ok?
    ensures r.Err? ==> r.error in {NotFound, ServerError}
  {
    match BookingSchema.FindByToken(store, token)
    case None => Err(NotFound)
    case Some(i) =>
      var b := store[i];
      match FindOrCreate(users, b.customer.phone, b.customer.name, key, now)
      case Ok(s) => Ok(Access(s, b.key))
      case Err(e) => Err(e)
  }

  /**
   * The code just sent is accepted at any moment up to and including its
   * expiry (the check is `expiry < now`), and accepting it removes it.
   */
  lemma RequestThenVerify(otps: OtpStore, users: Accounts.Users, phone: string, now: Time, draw: nat,
                          later: Time, name: Option<string>, key: string)
    requires draw < 900000 && IsMobilePhone(phone)
    requires now <= later <= now + Otp.LifetimeMs
    ensures var next := RequestOtp(otps, phone, now, draw).value.0;
            var v := VerifyOtp(next, users, VerifyRequest(phone, Otp.Generate(draw), name), later, key);
            && v.otps == next - {phone}
            && v.result == FindOrCreate(users, phone, CustomerName(name), key, later)
  {
  }

  /** A code is never accepted after its expiry, even if it matches. */
  lemma ExpiredCodeRejected(otps: OtpStore, users: Accounts.Users, phone: string, now: Time, draw: nat,
                            later: Time, name: Option<string>, key: string)
    requires draw < 900000 && IsMobilePhone(phone)
    requires later > now + Otp.LifetimeMs
    ensures var next := RequestOtp(otps, phone, now, draw).value.0;
            VerifyOtp(next, users, VerifyRequest(phone, Otp.Generate(draw), name), later, key)
              == Verified(next, Err(ExpiredOrInvalid))
  {
  }

  /** A code that signed someone in cannot sign in again: the second attempt finds no entry. */
  lemma CodeIsSingleUse(otps: OtpStore, users: Accounts.Users, req: VerifyRequest, now: Time, key: string,
                        users2: Accounts.Users, later: Time, key2: string)
    requires VerifyOtp(otps, users, req, now, key).result.Ok?
    ensures var v := VerifyOtp(otps, users, req, now, key);
            VerifyOtp(v.otps, users2, req, later, key2) == Verified(v.otps, Err(ExpiredOrInvalid))
  {
  }

  /** A wrong code leaves the pending entry in place, so the right one still works afterwards. */
  lemma WrongCodeKeepsEntry(otps: OtpStore, users: Accounts.Users, req: VerifyRequest, now: Time, key: string)
    requires req.phone in otps && req.otp != otps[req.phone].otp
    ensures VerifyOtp(otps, users, req, now, key).otps == otps
    ensures VerifyOtp(otps, users, req, now, key).result.Err?
  {
  }
}
