/**
 * The venue routes keep the collection consistent, and the update route's
 * handling of an omitted upfront-payment flag.
 */
module VenuesProps {
  import opened Wrappers
  import opened Text
  import opened Responses
  import opened Venues
  import Accounts
  import Seqs

  lemma CreateVenueKeeps(venues: Venues, users: Accounts.Users, req: VenueRequest, key: ObjectId, now: Time)
    requires Consistent(venues) && CreateVenue(venues, users, req, key, now).Ok?
    ensures Consistent(CreateVenue(venues, users, req, key, now).value)
  {
    var r := CreateVenue(venues, users, req, key, now).value;
    var v := r[|venues|];
    assert r == venues + [v];
    assert Insert(venues, v).Ok?;
  }

  lemma UpdateVenueKeeps(venues: Venues, users: Accounts.Users, key: ObjectId, p: VenuePatch)
    requires Consistent(venues) && UpdateVenue(venues, users, key, p).Ok?
    ensures Consistent(UpdateVenue(venues, users, key, p).value)
  {
    var i := FindVenue(venues, key).value;
    assert Replace(venues, i, Patched(venues[i], p)).Ok?;
  }

  lemma {:induction false} DeleteVenueKeeps(venues: Venues, key: ObjectId)
    requires Consistent(venues) && DeleteVenue(venues, key).Ok?
    ensures Consistent(DeleteVenue(venues, key).value)
  {
    var i := FindVenue(venues, key).value;
    var r := DeleteVenue(venues, key).value;
    forall a | 0 <= a < |r| ensures r[a] == venues[if a < i then a else a + 1] {
    }
  }

  /**
   * Updating an upfront-payment venue without repeating the flag clears its
   * supervisor while the stored flag stays true, so the save always fails.
   */
  lemma UpdateOmittingFlagFails(venues: Venues, users: Accounts.Users, key: ObjectId, p: VenuePatch)
    requires FindVenue(venues, key).Some? && venues[FindVenue(venues, key).value].requiresUpfrontPayment
    requires p.requiresUpfrontPayment.None?
    ensures UpdateVenue(venues, users, key, p) == Err(ServerError)
  {
    var i := FindVenue(venues, key).value;
    assert !SchemaValid(Patched(venues[i], p));
  }

  /** Right after a venue is created, checking its name (in any case) reports the flag it was created with. */
  lemma CheckPaymentAfterCreate(venues: Venues, users: Accounts.Users, req: VenueRequest, key: ObjectId, now: Time,
                                query: string)
    requires CreateVenue(venues, users, req, key, now).Ok?
    requires SameIgnoringCase(query, Trim(req.name))
    ensures CheckPayment(CreateVenue(venues, users, req, key, now).value, query) == req.requiresUpfrontPayment.value
  {
    var r := CreateVenue(venues, users, req, key, now).value;
    var n := |venues|;
    assert r[n].isActive && r[n].requiresUpfrontPayment == req.requiresUpfrontPayment.value;
    assert r[n].name == Trim(req.name);
    forall j | 0 <= j < n ensures !ActiveNamed(r[j], query) {
      assert r[j] == venues[j];
      assert !SameIgnoringCase(venues[j].name, Trim(req.name));
    }
    assert FirstActiveNamed(r, query, n);
  }

  /** No two venues share a name ignoring case. */
  predicate NamesDistinctIgnoringCase(venues: Venues) {
    forall i, j :: 0 <= i < j < |venues| ==> !SameIgnoringCase(venues[i].name, venues[j].name)
  }

  /**
   * When names are distinct ignoring case, the payment check agrees with the
   * active venue list drivers pick from: upfront exactly when that list shows
   * a venue of the name with the flag set.
   */
  lemma CheckPaymentAgreesWithActiveList(venues: Venues, query: string)
    requires NamesDistinctIgnoringCase(venues)
    ensures CheckPayment(venues, query) <==>
      exists k :: 0 <= k < |ActiveVenues(venues)| && SameIgnoringCase(ActiveVenues(venues)[k].name, query)
                  && ActiveVenues(venues)[k].requiresUpfrontPayment
  {
    if CheckPayment(venues, query) {
      UpfrontListed(venues, query);
    }
    var list := ActiveVenues(venues);
    if exists k :: 0 <= k < |list| && SameIgnoringCase(list[k].name, query) && list[k].requiresUpfrontPayment {
      var k :| 0 <= k < |list| && SameIgnoringCase(list[k].name, query) && list[k].requiresUpfrontPayment;
      ListedUpfront(venues, query, k);
    }
  }

  /** The venue the payment check reads is on the active list with its flag. */
  lemma UpfrontListed(venues: Venues, query: string)
    requires CheckPayment(venues, query)
    ensures exists k :: 0 <= k < |ActiveVenues(venues)| && SameIgnoringCase(ActiveVenues(venues)[k].name, query)
                        && ActiveVenues(venues)[k].requiresUpfrontPayment
  {
    var list := ActiveVenues(venues);
    var sorted := ActiveByName(venues);
    var i :| FirstActiveNamed(venues, query, i) && venues[i].requiresUpfrontPayment;
    assert venues[i] in sorted;
    var k :| 0 <= k < |sorted| && sorted[k] == venues[i];
    assert list[k] == Summary(sorted[k]);
  }

  /** A listed venue of the name with the flag set is the one the payment check reads. */
  lemma ListedUpfront(venues: Venues, query: string, k: int)
    requires NamesDistinctIgnoringCase(venues)
    requires 0 <= k < |ActiveVenues(venues)| && SameIgnoringCase(ActiveVenues(venues)[k].name, query)
    requires ActiveVenues(venues)[k].requiresUpfrontPayment
    ensures CheckPayment(venues, query)
  {
    var sorted := ActiveByName(venues);
    assert ActiveVenues(venues)[k] == Summary(sorted[k]);
    assert sorted[k] in venues;
    var j :| 0 <= j < |venues| && venues[j] == sorted[k];
    OnlyActiveNamedIsFirst(venues, query, j);
  }

  /** With names distinct ignoring case, an active venue of the name is the first one. */
  lemma OnlyActiveNamedIsFirst(venues: Venues, query: string, j: int)
    requires NamesDistinctIgnoringCase(venues)
    requires 0 <= j < |venues| && ActiveNamed(venues[j], query)
    ensures FirstActiveNamed(venues, query, j)
  {
    forall i | 0 <= i < j
      ensures !ActiveNamed(venues[i], query)
    {
      if ActiveNamed(venues[i], query) {
        assert SameIgnoringCase(venues[i].name, venues[j].name);
      }
    }
  }

  /** An inactive venue never asks for upfront payment, whatever its flag. */
  lemma InactiveVenueNeverUpfront(venues: Venues, venueName: string)
    requires forall i :: 0 <= i < |venues| && SameIgnoringCase(venues[i].name, venueName) ==> !venues[i].isActive
    ensures !CheckPayment(venues, venueName)
  {
  }
}
