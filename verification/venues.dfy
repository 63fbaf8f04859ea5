/**
 * Venues: the Venue schema, the admin routes that create, update and
 * delete them, and the two public lookups drivers use (the active list
 * and the upfront-payment check).
 *
 * The routes match names with a case-insensitive regular expression built
 * from the raw name; here that is case-insensitive equality.
 */
module Venues {
  import opened Wrappers
  import opened Text
  import opened Responses
  import opened Validators
  import opened Seqs
  import Accounts

  type ObjectId = string
  type Time = int

  datatype Venue = Venue(
    key: ObjectId,
    name: string,
    requiresUpfrontPayment: bool,
    supervisor: Option<ObjectId>,
    isActive: bool,
    createdAt: Time)

  /** A name is required, and a venue that takes payment upfront must name a supervisor. */
  predicate SchemaValid(v: Venue) {
    v.name != "" && (v.requiresUpfrontPayment ==> Truthy(v.supervisor))
  }

  type Venues = seq<Venue>

  /** What every successful save leaves behind: valid documents, unique ids and names. */
  predicate Consistent(venues: Venues) {
    && (forall i :: 0 <= i < |venues| ==> SchemaValid(venues[i]))
    && (forall i, j :: 0 <= i < j < |venues| ==> venues[i].key != venues[j].key && venues[i].name != venues[j].name)
  }

  function FindVenue(venues: Venues, key: ObjectId): (r: Option<nat>)
    ensures r.Some? ==> r.value < |venues| && venues[r.value].key == key
    ensures r.None? ==> forall i :: 0 <= i < |venues| ==> venues[i].key != key
  {
    FindFirst(venues, (v: Venue) => v.key == key)
  }

  /** `findOne({ name: /^name$/i })`. */
  function FindNamed(venues: Venues, name: string): (r: Option<nat>)
    ensures r.Some? ==> r.value < |venues| && SameIgnoringCase(venues[r.value].name, name)
    ensures r.None? ==> forall i :: 0 <= i < |venues| ==> !SameIgnoringCase(venues[i].name, name)
  {
    FindFirst(venues, (v: Venue) => SameIgnoringCase(v.name, name))
  }

  /** Inserting a document: the schema rules, then the unique `_id` and `name` indexes. */
  function Insert(venues: Venues, v: Venue): (r: Result<Venues, Error>)
    ensures r.Ok? <==> SchemaValid(v) && forall i :: 0 <= i < |venues| ==> venues[i].key != v.key && venues[i].name != v.name
    ensures r.Ok? ==> r.value == venues + [v]
    ensures r.Err? ==> r.error == ServerError
  {
    if !SchemaValid(v) || exists i :: 0 <= i < |venues| && (venues[i].key == v.key || venues[i].name == v.name) then
      Err(ServerError)
    else Ok(venues + [v])
  }

  /** A changed document at position i passes the schema rule and keeps the name index unique. */
  predicate Saveable(venues: Venues, i: nat, v: Venue) {
    SchemaValid(v) && forall j :: 0 <= j < |venues| && j != i ==> venues[j].name != v.name
  }

  /** Saving a changed document in place. */
  function Replace(venues: Venues, i: nat, v: Venue): (r: Result<Venues, Error>)
    requires i < |venues| && v.key == venues[i].key
    ensures r.Ok? <==> Saveable(venues, i, v)
    ensures r.Ok? ==> r.value == venues[i := v]
    ensures r.Err? ==> r.error == ServerError
  {
    if !SchemaValid(v) || exists j :: 0 <= j < |venues| && j != i && venues[j].name == v.name then Err(ServerError)
    else Ok(venues[i := v])
  }

  datatype VenueRequest = VenueRequest(name: string, requiresUpfrontPayment: Option<bool>, supervisorId: Option<string>)

  const InvalidSupervisor := BadRequest("Invalid supervisor")

  /**
   * POST /admin/venues. After validation: a name already used in any case
   * is refused; a supervisor given with upfront payment must be a
   * supervisor; the supervisor is stored only for upfront-payment venues.
   */
  function CreateVenue(venues: Venues, users: Accounts.Users, req: VenueRequest, key: ObjectId, now: Time)
    : (r: Result<Venues, Error>)
    ensures !NotBlank(req.name) || req.requiresUpfrontPayment.None? ==> r.Err? && r.error.Validation?
    ensures NotBlank(req.name) && req.requiresUpfrontPayment.Some? && FindNamed(venues, Trim(req.name)).Some? ==>
      r == Err(BadRequest("Venue with this name already exists"))
    ensures (NotBlank(req.name) && req.requiresUpfrontPayment == Some(true) && FindNamed(venues, Trim(req.name)).None?
             && Truthy(req.supervisorId) && !Accounts.IsSupervisor(users, req.supervisorId.value)) ==>
      r == Err(InvalidSupervisor)
    ensures r.Ok? <==>
      && NotBlank(req.name) && req.requiresUpfrontPayment.Some? && FindNamed(venues, Trim(req.name)).None?
      && (req.requiresUpfrontPayment.value ==>
            Truthy(req.supervisorId) && Accounts.IsSupervisor(users, req.supervisorId.value))
      && FindVenue(venues, key).None?
    ensures r.Err? ==> r.error.Validation? || r.error == ServerError || r.error == InvalidSupervisor
                       || r.error == BadRequest("Venue with this name already exists")
    ensures r.Ok? ==>
      var flag := req.requiresUpfrontPayment.value;
      && FindNamed(venues, Trim(req.name)).None?
      && r.value == venues + [Venue(key, Trim(req.name), flag, if flag then req.supervisorId else None, true, now)]
      && (flag ==> Truthy(req.supervisorId) && Accounts.IsSupervisor(users, req.supervisorId.value))
  {
    var errs := (if NotBlank(req.name) then [] else ["name"])
                + (if req.requiresUpfrontPayment.Some? then [] else ["requiresUpfrontPayment"]);
    if |errs| > 0 then Err(Validation(errs))
    else
      var name := Trim(req.name);
      var flag := req.requiresUpfrontPayment.value;
      if FindNamed(venues, name).Some? then Err(BadRequest("Venue with this name already exists"))
      else if flag && Truthy(req.supervisorId) && !Accounts.IsSupervisor(users, req.supervisorId.value) then
        Err(InvalidSupervisor)
      else
        var v := Venue(key, name, flag, if flag then req.supervisorId else None, true, now);
        assert Trim(name) == name by { TrimIdempotent(req.name); }
        assert SchemaValid(v) <==> (flag ==> Truthy(req.supervisorId));
        InsertUnnamed(venues, v);
        Insert(venues, v)
  }

  /** When no venue has the name in any case, inserting fails only on the schema or the id. */
  lemma InsertUnnamed(venues: Venues, v: Venue)
    requires FindNamed(venues, v.name).None?
    ensures Insert(venues, v).Ok? <==> SchemaValid(v) && FindVenue(venues, v.key).None?
  {
    forall i | 0 <= i < |venues|
      ensures venues[i].name != v.name
    {
      assert !SameIgnoringCase(venues[i].name, v.name);
    }
  }

  datatype VenuePatch = VenuePatch(
    name: Option<string>, requiresUpfrontPayment: Option<bool>, supervisorId: Option<string>, isActive: Option<bool>)

  /**
   * The document an update would save. A supervisor is replaced only when
   * the request sets upfront payment and names one; whenever the request's
   * flag is false or absent the supervisor is cleared, even if the stored
   * flag stays true.
   */
  function Patched(v: Venue, p: VenuePatch): (w: Venue)
    ensures w.key == v.key && w.createdAt == v.createdAt
    ensures w.name == (if Truthy(p.name) then Trim(p.name.value) else v.name)
    ensures w.requiresUpfrontPayment == p.requiresUpfrontPayment.GetOr(v.requiresUpfrontPayment)
    ensures w.isActive == p.isActive.GetOr(v.isActive)
    ensures p.requiresUpfrontPayment != Some(true) ==> w.supervisor.None?
    ensures p.requiresUpfrontPayment == Some(true) && Truthy(p.supervisorId) ==> w.supervisor == p.supervisorId
    ensures p.requiresUpfrontPayment == Some(true) && !Truthy(p.supervisorId) ==> w.supervisor == v.supervisor
  {
    var upfront := p.requiresUpfrontPayment == Some(true);
    v.(name := if Truthy(p.name) then Trim(p.name.value) else v.name,
       requiresUpfrontPayment := p.requiresUpfrontPayment.GetOr(v.requiresUpfrontPayment),
       supervisor := if upfront && Truthy(p.supervisorId) then p.supervisorId
                     else if !upfront then None
                     else v.supervisor,
       isActive := p.isActive.GetOr(v.isActive))
  }

  /** PUT /admin/venues/:id. */
  function UpdateVenue(venues: Venues, users: Accounts.Users, key: ObjectId, p: VenuePatch): (r: Result<Venues, Error>)
    ensures FindVenue(venues, key).None? ==> r == Err(NotFound)
    ensures (FindVenue(venues, key).Some? && p.requiresUpfrontPayment == Some(true) && Truthy(p.supervisorId)
             && !Accounts.IsSupervisor(users, p.supervisorId.value)) ==> r == Err(InvalidSupervisor)
    ensures r.Ok? <==>
      && FindVenue(venues, key).Some?
      && !(p.requiresUpfrontPayment == Some(true) && Truthy(p.supervisorId)
           && !Accounts.IsSupervisor(users, p.supervisorId.value))
      && var i := FindVenue(venues, key).value;
      Saveable(venues, i, Patched(venues[i], p))
    ensures r.Ok? ==>
      var i := FindVenue(venues, key).value;
      r.value == venues[i := Patched(venues[i], p)]
    ensures r.Err? ==> r.error in {NotFound, InvalidSupervisor, ServerError}
  {
    match FindVenue(venues, key)
    case None => Err(NotFound)
    case Some(i) =>
      if p.requiresUpfrontPayment == Some(true) && Truthy(p.supervisorId)
         && !Accounts.IsSupervisor(users, p.supervisorId.value) then Err(InvalidSupervisor)
      else Replace(venues, i, Patched(venues[i], p))
  }

  /** DELETE /admin/venues/:id. */
  function DeleteVenue(venues: Venues, key: ObjectId): (r: Result<Venues, Error>)
    ensures r.Ok? <==> FindVenue(venues, key).Some?
    ensures r.Err? ==> r.error == NotFound
    ensures r.Ok? ==> |r.value| == |venues| - 1
                      && r.value == venues[..FindVenue(venues, key).value] + venues[FindVenue(venues, key).value + 1..]
  {
    match FindVenue(venues, key)
    case None => Err(NotFound)
    case Some(i) => Ok(venues[..i] + venues[i + 1..])
  }

  /** The projection `select('name requiresUpfrontPayment')`. */
  datatype VenueSummary = VenueSummary(key: ObjectId, name: string, requiresUpfrontPayment: bool)

  function Summary(v: Venue): VenueSummary {
    VenueSummary(v.key, v.name, v.requiresUpfrontPayment)
  }

  function Summaries(vs: Venues): (r: seq<VenueSummary>)
    ensures |r| == |vs|
    ensures forall i :: 0 <= i < |vs| ==> r[i] == Summary(vs[i])
  {
    if |vs| == 0 then [] else [Summary(vs[0])] + Summaries(vs[1..])
  }

  /** `find({ isActive: true }).sort({ name: 1 })`: the active venues in ascending name order. */
  function ActiveByName(venues: Venues): (r: Venues)
    ensures forall i :: 0 <= i < |r| ==> r[i].isActive && r[i] in venues
    ensures forall k :: 0 <= k < |venues| && venues[k].isActive ==> venues[k] in r
    ensures multiset(r) == multiset(Filter(venues, (v: Venue) => v.isActive))
    ensures forall i, j :: 0 <= i < j < |r| ==> LexLeq(r[i].name, r[j].name)
  {
    ByKeyPreorder((v: Venue) => v.name);
    SelectSorted(venues, (v: Venue) => v.isActive, ByKey((v: Venue) => v.name))
  }

  /** GET /venues/active: the active venues in name order, projected to id, name and flag. */
  function ActiveVenues(venues: Venues): (r: seq<VenueSummary>)
    ensures |r| == |ActiveByName(venues)|
    ensures forall i :: 0 <= i < |r| ==> r[i] == Summary(ActiveByName(venues)[i])
    ensures forall i, j :: 0 <= i < j < |r| ==> LexLeq(r[i].name, r[j].name)
  {
    Summaries(ActiveByName(venues))
  }

  /** `findOne({ name: /^name$/i, isActive: true })`: an active venue of that name. */
  predicate ActiveNamed(v: Venue, name: string) {
    v.isActive && SameIgnoringCase(v.name, name)
  }

  /** Position i holds the first active venue of that name. */
  predicate FirstActiveNamed(venues: Venues, name: string, i: int) {
    0 <= i < |venues| && ActiveNamed(venues[i], name) && forall j :: 0 <= j < i ==> !ActiveNamed(venues[j], name)
  }

  /** GET /venues/check-payment/:venueName: the flag of the first active venue of that name, else false. */
  function CheckPayment(venues: Venues, venueName: string): (upfront: bool)
    ensures upfront <==> exists i :: FirstActiveNamed(venues, venueName, i) && venues[i].requiresUpfrontPayment
    ensures upfront ==> exists i :: 0 <= i < |venues| && venues[i].isActive && venues[i].requiresUpfrontPayment
                                     && SameIgnoringCase(venues[i].name, venueName)
    ensures (forall i :: 0 <= i < |venues| && SameIgnoringCase(venues[i].name, venueName) ==> !venues[i].isActive)
            ==> !upfront
  {
    match FindFirst(venues, (v: Venue) => ActiveNamed(v, venueName))
    case None => false
    case Some(i) =>
      assert forall k :: FirstActiveNamed(venues, venueName, k) ==> k == i;
      venues[i].requiresUpfrontPayment
  }
}
