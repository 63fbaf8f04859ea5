/**
 * The driver's create-booking form: the valuables toggle and checklist,
 * the photo list, the multipart body it sends, and the decision to go on
 * to the payment page.
 */
module BookingForm {
  import opened Wrappers
  import opened Seqs
  import opened Validators
  import opened BookingSchema
  import JsonList
  import Lifecycle
  import Venues

  datatype Form = Form(
    customerName: string,
    customerPhone: string,
    customerEmail: string,
    vehicleType: string,
    vehicleNumber: string,
    vehicleModel: string,
    vehicleColor: string,
    estimatedDuration: string,
    parkingSpot: string,
    venue: string,
    notes: string,
    hasValuables: bool,
    valuables: seq<string>)

  /** Every text field empty, vehicle type "car", no valuables. */
  const InitialForm: Form := Form("", "", "", "car", "", "", "", "", "", "", "", false, [])

  const ValuableOptions: seq<string> := ["Laptop", "Phone", "Wallet", "Gift", "Snacks", "Charger", "HeadPhone"]

  /** Switching valuables off empties the checklist; switching on keeps it. */
  function Toggle(f: Form): (g: Form)
    ensures g.hasValuables == !f.hasValuables
    ensures !g.hasValuables ==> g.valuables == []
    ensures g.hasValuables ==> g.valuables == f.valuables
    ensures g.(hasValuables := f.hasValuables, valuables := f.valuables) == f
  {
    f.(hasValuables := !f.hasValuables, valuables := if !f.hasValuables then f.valuables else [])
  }

  /** The filter that unticks v. */
  function Other(v: string): string -> bool {
    (x: string) => x != v
  }

  /** Ticking a valuable: a listed one is removed everywhere it occurs, an unlisted one is appended. */
  function Select(vs: seq<string>, v: string): (r: seq<string>)
    ensures v in vs ==> v !in r && |r| < |vs| && multiset(r) <= multiset(vs)
    ensures v in vs ==> forall x :: x != v ==> (x in r <==> x in vs)
    ensures v in vs ==> forall x :: x != v ==> multiset(r)[x] == multiset(vs)[x]
    ensures v !in vs ==> r == vs + [v]
  {
    if v in vs then
      var r := Filter(vs, Other(v));
      assert v !in r;
      forall x | x != v ensures multiset(r)[x] == multiset(vs)[x] {
        FilterMultiplicity(vs, Other(v), x);
      }
      var k :| 0 <= k < |vs| && vs[k] == v;
      FilterShorter(vs, Other(v), k);
      r
    else vs + [v]
  }

  /** Ticking an unlisted valuable twice leaves the checklist as it was. */
  lemma SelectTwice(vs: seq<string>, v: string)
    requires v !in vs
    ensures Select(Select(vs, v), v) == vs
  {
    assert Select(vs, v) == vs + [v];
    FilterAppend(vs, [v], Other(v));
    FilterAll(vs, Other(v));
    assert Filter([v], Other(v)) == [];
  }

  /** A photo batch is refused whole when the total would pass four. */
  function AddImages(images: seq<string>, files: seq<string>): (r: Option<seq<string>>)
    ensures r.Some? <==> |images| + |files| <= 4
    ensures r.Some? ==> |r.value| == |images| + |files| <= 4 && r.value[..|images|] == images && r.value[|images|..] == files
  {
    if |files| + |images| > 4 then None else Some(images + files)
  }

  /** `filter((_, i) => i !== index)`: exactly that position goes, the rest keep their order. */
  function RemoveImage(images: seq<string>, index: int): (r: seq<string>)
    ensures 0 <= index < |images| ==> |r| == |images| - 1
    ensures 0 <= index < |images| ==> forall j :: 0 <= j < |r| ==> r[j] == images[if j < index then j else j + 1]
    ensures !(0 <= index < |images|) ==> r == images
  {
    if 0 <= index < |images| then images[..index] + images[index + 1..] else images
  }

  /**
   * The multipart body: every field as text (the flag as "true" or
   * "false"), the checklist as a JSON string, and the uploaded photos'
   * URLs.
   */
  function Serialise(f: Form, images: seq<string>): (req: Lifecycle.CreateRequest)
    ensures req.valuables == Some(JsonList.Stringify(f.valuables)) && req.images == images
    ensures req.hasValuables == Some(Lifecycle.TextField(if f.hasValuables then "true" else "false"))
    ensures req.customerPhone == f.customerPhone && req.customerName == f.customerName
    ensures req.customerEmail == Some(f.customerEmail) && req.vehicleNumber == f.vehicleNumber
  {
    Lifecycle.CreateRequest(
      f.customerPhone, f.customerName, Some(f.customerEmail), f.vehicleType, f.vehicleNumber,
      Some(f.vehicleModel), Some(f.vehicleColor), f.estimatedDuration, Some(f.parkingSpot), Some(f.venue),
      Some(f.notes), Some(Lifecycle.TextField(if f.hasValuables then "true" else "false")),
      Some(JsonList.Stringify(f.valuables)), images)
  }

  /** What the server stores for the checklist, the flag and the e-mail is what the form held. */
  lemma SubmittedFormStored(driver: ObjectId, f: Form, images: seq<string>, now: nat, draws: Lifecycle.Draws)
    requires Lifecycle.DrawsInRange(draws) && |Lifecycle.CreateErrors(Serialise(f, images))| == 0
    ensures var b := Lifecycle.Draft(driver, Serialise(f, images), now, draws);
            && b.vehicle.valuables == f.valuables
            && (b.vehicle.hasValuables <==> f.hasValuables)
            && (b.customer.email.None? <==> f.customerEmail == "")
            && b.vehicle.images == images
  {
  }

  /** After a successful create: go to the payment page when the venue takes payment upfront. */
  function NeedsUpfrontPayment(venues: Venues.Venues, f: Form): (pay: bool)
    ensures f.venue == "" ==> !pay
    ensures pay <==> f.venue != "" && exists i :: Venues.FirstActiveNamed(venues, f.venue, i) && venues[i].requiresUpfrontPayment
    ensures pay ==> exists i :: 0 <= i < |venues| && venues[i].isActive && venues[i].requiresUpfrontPayment
                                && Text.SameIgnoringCase(venues[i].name, f.venue)
  {
    f.venue != "" && Venues.CheckPayment(venues, f.venue)
  }
}
