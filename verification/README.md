# Growmore valet parking — a Dafny model of the booking core

Growmore runs valet parking at venues. A driver parks a customer's car and
creates a booking. The customer gets a text with a link and later asks for
the car back. The driver sends an arrival estimate, marks the car arrived
(which sends the customer a six-digit code), and completes the booking when
the customer shows the code and pays. Supervisors and admins watch lists and
counts, and admins manage supervisors, drivers and venues.

This project models that core as pure Dafny functions and proves properties
of it:

- **Booking schema and lifecycle** (`booking.dfy`, `lifecycle.dfy`,
  `lifecycle_props.dfy`). Each HTTP handler becomes a function from the
  bookings collection, the authenticated actor, the clock reading and any
  random draws to an error response or an `Outcome`. An outcome holds the
  new collection, the saved booking, and the outbox of socket events, texts
  and e-mails the handler sends. The handlers are modelled as written:
  - estimate-arrival and arrived do not check the status
  - the code is never cleared
  - completion leaves `payment.status` alone
- **Listings and statistics** (`listings.dfy`). The driver, supervisor and
  customer lists are filters sorted newest first. The supervisor overview
  and admin dashboard figures are counts and a revenue sum.
- **Accounts and venues** (`accounts.dfy`, `accounts_props.dfy`,
  `venues.dfy`, `venues_props.dfy`). These cover:
  - the schema rules, with unique `_id`, phone and venue name
  - the admin create, update and delete guards
  - the supervisor-side user creation
  - staff login
  - the active-venue list and the upfront-payment check

  The lemmas show that every successful route keeps the users collection
  consistent: keys and phones stay unique, and every driver's supervisor is
  a supervisor.
- **Customer sign-in** (`customer_auth.dfy`). This covers the one-time
  password map keyed by phone (one code per phone, single use, lazy expiry),
  find-or-create of the customer account, and sign-in through a booking's
  access token.
- **Helpers:**
  - code generation (`otp.dfy`)
  - the hex access token (`hex.dfy`)
  - the JSON string-list codec used for valuables (`json_list.dfy`)
  - SMS phone formatting and message texts (`sms.dfy`)
  - socket rooms and events (`outbox.dfy`)
  - request validators (`validators.dfy`)
  - error status codes (`responses.dfy`)
  - string and sequence utilities (`text.dfy`, `seqs.dfy`, `wrappers.dfy`)
- **Client-side decisions.** These are kept where they interact with the
  server:
  - the driver's booking list order and completion payload
    (`my_bookings_view.dfy`)
  - the upfront payment form (`payment_form.dfy`)
  - the booking form's valuables and images (`booking_form.dfy`)
  - the route guard (`route_guard.dfy`)
  - the browser's number input (`number_input.dfy`)

Collections are sequences in insertion order. `findById` and `findOne` are
first-match searches, and a unique index is a distinctness predicate. Time is
an integer in milliseconds. Random values (the booking-id draw, the token
bytes, the code draw) are parameters with range preconditions. Amounts are
`real`.

## Model

| member | source | states |
|---|---|---|
| BookingSchema.ParseStatus | backend/models/Booking.js:66-70 | Only the six status names parse, and parsing inverts naming |
| BookingSchema.ParsePayMethod | backend/models/Booking.js:92-96 | Only cash, qr, upi, card and pending are payment methods, and parsing inverts naming |
| BookingSchema.ParsePayState | backend/models/Booking.js:98-102 | Only pending, completed and failed are payment states |
| BookingSchema.ParsePaymentStatus | backend/models/Booking.js:105-109 | Only unpaid and paid are payment statuses |
| BookingSchema.ParseVehicleType | backend/models/Booking.js:31-35 | Only car, bike and suv are vehicle types |
| BookingSchema.BookingIdShape | backend/models/Booking.js:7-9 | From a clock of at least eight digits and a draw below 10000, the booking id is "VLT" followed by twelve digits, 15 characters in all |
| BookingSchema.MakeAccessToken | backend/models/Booking.js:84-90 | The token is exactly 64 lower-case hex characters |
| BookingSchema.AccessTokenInjective | backend/models/Booking.js:84-90 | Different random bytes give different tokens |
| BookingSchema.InitialBooking | backend/models/Booking.js:36-122 | A new booking starts parked, unverified, without a code, with a pending payment, unpaid, timestamps and start time at now, and an upper-cased plate |
| BookingSchema.Touch | backend/models/Booking.js:126-129 | A save sets `updatedAt` to the save time and changes nothing else, so `createdAt` is kept |
| BookingSchema.InsertKeepsIndexes | backend/models/Booking.js:4-6 | Appending a booking that clashes with no `_id`, `bookingId` or `accessToken` keeps the three indexes unique |
| BookingSchema.ReplaceKeepsIndexes | backend/models/Booking.js:84-87 | Saving a booking in place under the same keys keeps the indexes unique |
| BookingSchema.FindByKey | backend/routes/bookings.js:321-323 | `findById` finds the first booking with that id, and finds none only when no booking has it |
| Otp.Generate | backend/routes/bookings.js:13-15 | A code is six digits with no leading zero, and its value is 100000 plus the draw |
| Otp.GenerateInjective | Growmore/backend/routes/auth.js:13-15 | Every code lies in [100000, 999999], and distinct draws give distinct codes |
| Hex.DecodeEncode | backend/models/Booking.js:88 | Decoding the hex rendering gives back the bytes |
| JsonList.StringifyParse | frontend/src/components/CreateBooking.js:99-105 | The server's JSON parse of the client's JSON list gives back the same list |
| Lifecycle.CreateErrors | backend/routes/bookings.js:27-35 | Create validation passes exactly when the phone is a mobile number, the name and plate are not blank, the type is known and the duration is an integer of at least 1 |
| Lifecycle.ValuablesFlag | backend/routes/bookings.js:107 | `hasValuables` is true exactly for the text "true" or the boolean true |
| Lifecycle.ValuablesList | backend/routes/bookings.js:73-81 | An absent or empty field gives no valuables, and a JSON list is read back exactly |
| Lifecycle.Draft | backend/routes/bookings.js:94-119 | The built booking is parked and owned by the driver, with an upper-cased plate and a null e-mail when none was sent; the id and token come from the draws |
| Lifecycle.AccessLink | backend/routes/bookings.js:130-132 | The customer link contains the booking's access token |
| Lifecycle.MailTo | backend/routes/bookings.js:139-148 | An e-mail is sent exactly when the customer has a non-empty address |
| Lifecycle.CreateOutbox | backend/routes/bookings.js:139-171 | Create sends the optional e-mail, then the confirmation text with the link; its only socket event is `new-booking` to the supervisors' room |
| Lifecycle.Create | backend/routes/bookings.js:22-183 | More than four images is a server error, and failed validators are a 400; otherwise the booking is appended exactly when no unique index clashes |
| Lifecycle.GetBooking | backend/routes/bookings.js:263-279 | A booking is returned exactly when one has that id, and otherwise the answer is 404 |
| Lifecycle.RequestRecall | backend/routes/bookings.js:316-346 | The checks run in order: 404, then 403 for another phone, then 400 unless parked. Success changes only the status and `requestedAt` and tells the driver's room |
| Lifecycle.OwnedBooking | backend/routes/bookings.js:286-296 | The driver handlers answer 404 for an unknown id and 403 for another driver's booking |
| Lifecycle.EstimateArrival | backend/routes/bookings.js:349-409 | Missing or <1 minutes is a 400 before any lookup. From any status the owner sets in-transit and the minutes, and the customer's room, e-mail and text are told |
| Lifecycle.MarkArrived | backend/routes/bookings.js:412-470 | The owner marks any booking arrived with a fresh six-digit code expiring ten minutes on; the code reaches the customer's room, e-mail and text. Every other field is kept, including the recall request time, the estimate and the verified flag |
| Lifecycle.CompletionErrors | backend/routes/bookings.js:477-481 | Completion validation passes exactly for a six-character code, cash or qr, and an amount of at least 0 |
| Lifecycle.VerifyComplete | backend/routes/bookings.js:473-524 | After validation the checks are 404, 403, a wrong code (401), then an expired code (401). Success marks the booking completed and verified and records the payment method, amount and time and the end time. Every other field is kept, including the code, `payment.status` and `paymentStatus` |
| Lifecycle.MergePayment | backend/routes/bookings.js:300 | Supplied payment keys override and the others are kept; an unknown method or state fails the save |
| Lifecycle.Update | backend/routes/bookings.js:282-313 | Only the owner may update, and the owner's update succeeds exactly when the merged payment and any non-empty `paymentStatus` name enum values. Payment merges shallowly, `paymentStatus` and notes change only when non-empty, and the status never changes |
| LifecycleProps.FindAfterReplace | backend/routes/bookings.js:321-329 | After a booking is saved in place, `findById` still finds it at the same position |
| LifecycleProps.CreateKeepsIndexes | backend/routes/bookings.js:121 | A successful create keeps the bookings' unique indexes unique |
| LifecycleProps.RecallKeepsIndexes | backend/routes/bookings.js:327-329 | A recall keeps the indexes unique |
| LifecycleProps.EstimateKeepsIndexes | backend/routes/bookings.js:368-370 | An estimate keeps the indexes unique |
| LifecycleProps.ArrivedKeepsIndexes | backend/routes/bookings.js:422-427 | Marking arrived keeps the indexes unique |
| LifecycleProps.CompleteKeepsIndexes | backend/routes/bookings.js:502-508 | Completion keeps the indexes unique |
| LifecycleProps.UpdateKeepsIndexes | backend/routes/bookings.js:298-304 | An update keeps the indexes unique |
| LifecycleProps.ArrivedTwiceKeepsLatest | backend/routes/bookings.js:422-427 | A second arrival overwrites the first code and expiry, so only the latest code is stored |
| LifecycleProps.CompleteTwice | backend/routes/bookings.js:499-508 | The code is not cleared, so resending it before expiry completes the booking again |
| LifecycleProps.EstimateFromCompleted | backend/routes/bookings.js:360-369 | A completed booking can be put back in transit by its driver |
| LifecycleProps.NoCodeNoCompletion | backend/routes/bookings.js:499 | A booking with no stored code can never be completed |
| LifecycleProps.ExpiryBoundary | backend/routes/bookings.js:500 | The code is accepted at exactly its expiry and rejected as expired one millisecond later |
| LifecycleProps.CompletionAddsRevenue | backend/routes/bookings.js:502-508 | Completing an open booking adds exactly the paid amount to the revenue figure |
| LifecycleProps.CompletionMovesCounts | backend/routes/bookings.js:502-508 | Completing a booking takes it out of the active count if it was open and into the completed count unless it already was, in the overview and the admin figures; today's count and the total are unchanged |
| LifecycleProps.OpenSaveKeepsRevenue | backend/routes/bookings.js:540-543 | A save that neither starts nor ends completed leaves the revenue figure unchanged |
| LifecycleProps.StepCreate | backend/routes/bookings.js:94-121 | A created booking is found by its id at the end of the collection, parked, owned by the driver and carrying the customer's phone |
| LifecycleProps.StepRecall | backend/routes/bookings.js:321-329 | The customer can always recall their parked booking; it stays at its position, recall-requested, with revenue unchanged |
| LifecycleProps.StepEstimate | backend/routes/bookings.js:356-370 | The owner can always send an estimate for an open booking, making it in-transit |
| LifecycleProps.StepArrive | backend/routes/bookings.js:417-427 | The owner can always mark an open booking arrived, storing the generated code and its expiry |
| LifecycleProps.ValetCompletes | backend/routes/bookings.js:316-524 | A parked booking always goes through recall, estimate, arrival and completion with the customer's code before expiry; it ends completed and revenue grows by the amount |
| LifecycleProps.FullJourney | backend/routes/bookings.js:22-524 | A successful create followed by the whole valet ends completed, and revenue grows by exactly the amount paid |
| Listings.Query | backend/routes/bookings.js:197-199 | `find(query).sort({createdAt: -1})` returns exactly the matching bookings, as a permutation of the filter, newest first |
| Listings.DriverBookings | backend/routes/bookings.js:187-207 | A driver sees only their own bookings, of the given status, or else those neither completed nor cancelled; each matching booking exactly once, newest first |
| Listings.DriversOf | backend/routes/bookings.js:215-220 | Exactly the ids of the drivers assigned to the supervisor |
| Listings.SupervisorBookings | backend/routes/bookings.js:210-243 | A supervisor sees each of their drivers' bookings that passes exact status equality and the one-day window exactly once, newest first |
| Listings.ActiveFilterMatchesNothing | Growmore/frontend/src/pages/SupervisorDashboard.js:52 | The dashboard's comma-joined "active" filter names no status, so that view is always empty |
| Listings.CustomerBookings | backend/routes/bookings.js:246-260 | A customer sees each booking carrying their phone exactly once, newest first |
| Listings.RevenueAppend | backend/routes/bookings.js:540-543 | Revenue over two collections is the sum of their revenues |
| Listings.RevenueReplace | backend/routes/bookings.js:540-543 | Saving one booking changes revenue by the change in that booking's contribution |
| Listings.Stats | backend/routes/bookings.js:527-558 | Today's, active and completed counts are the sizes of their filters, and revenue is the completed amounts' sum. Today's count is zero exactly when every booking is older than midnight; active plus completed is at most the total; with nothing completed, revenue is 0 |
| Listings.AdminStats | backend/routes/admin.js:276-298 | Every figure is the count of its filter (role, role and active, open or completed booking, active venue). Active never exceeds total for supervisors, drivers and venues; supervisors plus drivers is at most the users; active plus completed bookings is at most the total |
| Accounts.ParseRole | Growmore/backend/models/User.js:23-27 | Only driver, customer, supervisor and admin are roles |
| Accounts.NewUser | Growmore/backend/models/User.js:4-43 | A new user is active, created now, with name and phone trimmed |
| Accounts.ComparePassword | Growmore/backend/models/User.js:59-71 | With no stored password the comparison is false; otherwise it is the hash comparison |
| Accounts.Insert | Growmore/backend/models/User.js:10-34 | A save succeeds exactly when the schema rules hold and neither `_id` nor phone is taken |
| Accounts.Replace | Growmore/backend/models/User.js:10-34 | Saving in place succeeds exactly when the schema rules hold and no other user has the phone |
| Accounts.StaffErrors | backend/routes/admin.js:40-44 | Staff validation passes exactly for a non-blank name, a mobile number and a password of at least six characters |
| Accounts.CreateSupervisor | backend/routes/admin.js:37-83 | Validation, then a phone used by any user is refused; otherwise the supervisor is appended |
| Accounts.CreateDriver | backend/routes/admin.js:86-142 | As for supervisors, and the supervisor id must name a supervisor; the driver is stored with that supervisor |
| Accounts.ApplyPatch | backend/routes/admin.js:154-157 | Only non-empty fields are written, `isActive` is written whenever present, and id, role and supervisor are kept |
| Accounts.FindWithRole | backend/routes/admin.js:148-152 | A user of the wrong role is treated as not found |
| Accounts.UpdateSupervisor | backend/routes/admin.js:145-175 | 404 unless the id names a supervisor. The save succeeds exactly when the patched user meets the schema and its phone is used by no other user, and then the patched user replaces the old one in place |
| Accounts.UpdateDriver | backend/routes/admin.js:178-217 | 404 unless the id names a driver; a supplied supervisor id must name a supervisor (400). Otherwise the save succeeds exactly when the patched, reassigned driver meets the schema and its phone is used by no other user |
| Accounts.AssignedTo | backend/routes/admin.js:229 | The count is zero exactly when nobody has that supervisor |
| Accounts.DeleteSupervisor | backend/routes/admin.js:220-243 | Deletion is refused while anyone is assigned to the supervisor; otherwise exactly that user is removed |
| Accounts.OpenBookingsOf | backend/routes/admin.js:255-258 | The count is zero exactly when the driver has no booking that is neither completed nor cancelled |
| Accounts.DeleteDriver | backend/routes/admin.js:246-273 | Deletion is refused while the driver has an open booking; otherwise exactly that user is removed |
| Accounts.CreateUser | backend/routes/users.js:21-58 | Any role other than driver or supervisor is a 400, and a used phone is "User already exists". The duplicate lookup uses the trimmed phone, as the schema's trim setter applies to queries. Creation succeeds exactly for a supervisor with a name, a password and a trimmed phone that is non-empty and unused, and appends that user; a driver gets no supervisor, so it always fails |
| Accounts.ActiveDrivers | backend/routes/users.js:7-18 | Exactly the active drivers, as a permutation of the filter, in ascending name order |
| Accounts.Login | Growmore/backend/routes/auth.js:18-75 | Login looks at the first active user with that phone (and role, if given) and succeeds exactly when that user's password matches; no other user is tried. With no such active user, and on every other failure after validation, the answer is "Invalid credentials" |
| AccountsProps.InsertKeeps | Growmore/backend/models/User.js:10-34 | Appending a valid user whose supervisor exists keeps the collection consistent |
| AccountsProps.ReplaceKeeps | Growmore/backend/models/User.js:10-34 | Saving a user in place with the same id and role keeps the collection consistent |
| AccountsProps.RemoveKeeps | backend/routes/admin.js:236 | Deleting a user nobody is assigned to keeps the collection consistent |
| AccountsProps.CreateSupervisorKeeps | backend/routes/admin.js:54-67 | Creating a supervisor keeps the collection consistent |
| AccountsProps.CreateDriverKeeps | backend/routes/admin.js:104-124 | Creating a driver keeps the collection consistent |
| AccountsProps.UpdateSupervisorKeeps | backend/routes/admin.js:145-159 | Updating a supervisor keeps the collection consistent |
| AccountsProps.UpdateDriverKeeps | backend/routes/admin.js:178-199 | Reassigning a driver only to a supervisor keeps the collection consistent |
| AccountsProps.DeleteSupervisorKeeps | backend/routes/admin.js:220-236 | Deleting a supervisor with nobody assigned leaves no driver dangling |
| AccountsProps.DeleteDriverKeeps | backend/routes/admin.js:246-266 | Deleting a driver leaves every supervisor reference intact |
| AccountsProps.CreateUserKeeps | backend/routes/users.js:21-42 | The supervisor-side create keeps the collection consistent |
| AccountsProps.CreateUserDriverFails | backend/routes/users.js:35-42 | Creating a driver through the supervisor route always fails |
| AccountsProps.LoginFailuresAlike | Growmore/backend/routes/auth.js:40-53 | After validation, an unknown phone and a wrong password get the same answer |
| AccountsProps.LoginDecidesOnStoredUser | Growmore/backend/routes/auth.js:34-53 | With unique phones, the active user with the phone (and role, if given) signs in with its stored password, and any other password is "Invalid credentials" |
| Venues.Insert | Growmore/backend/models/Venue.js:4-20 | A venue saves exactly when it has a name, has a supervisor if it takes payment upfront, and clashes on neither `_id` nor name |
| Venues.FindNamed | backend/routes/admin.js:334 | The name lookup finds a venue whose name matches ignoring case, and finds none only when no venue matches |
| Venues.CreateVenue | backend/routes/admin.js:316-365 | A name used in any case is refused, then a supplied supervisor that is not one is "Invalid supervisor". Creation succeeds exactly for a valid request with a new name and id and, for an upfront-payment venue, a real supervisor; the supervisor is stored only for upfront-payment venues |
| Venues.Patched | backend/routes/admin.js:377-392 | Name, flag and `isActive` are patched; the supervisor is cleared whenever the request's flag is not true, even if the stored flag stays true |
| Venues.UpdateVenue | backend/routes/admin.js:368-405 | 404 for an unknown id and 400 for an invalid supervisor. Otherwise the save succeeds exactly when the patched venue meets the schema and no other venue has its name, and then it replaces the old one in place |
| Venues.DeleteVenue | backend/routes/admin.js:408-423 | A known venue is removed and the others stay in order; otherwise 404 |
| Venues.ActiveVenues | Growmore/backend/routes/venues.js:6-16 | Only active venues, in ascending name order, projected to id, name and flag |
| Venues.ActiveByName | Growmore/backend/routes/venues.js:8-10 | Exactly the active venues, as a permutation of the filter, in name order |
| Venues.CheckPayment | Growmore/backend/routes/venues.js:19-37 | True exactly when the first active venue of that name (ignoring case) takes payment upfront; false when every venue of that name is inactive |
| VenuesProps.CreateVenueKeeps | backend/routes/admin.js:347-353 | Creating a venue keeps the venues consistent |
| VenuesProps.UpdateVenueKeeps | backend/routes/admin.js:377-394 | Updating a venue keeps the venues consistent |
| VenuesProps.DeleteVenueKeeps | backend/routes/admin.js:416 | Deleting a venue keeps the venues consistent |
| VenuesProps.UpdateOmittingFlagFails | backend/routes/admin.js:378-394 | Updating an upfront-payment venue without repeating the flag clears its supervisor, so the save always fails |
| VenuesProps.InactiveVenueNeverUpfront | Growmore/backend/routes/venues.js:21-31 | An inactive venue never asks for upfront payment, whatever its flag |
| VenuesProps.CheckPaymentAfterCreate | Growmore/backend/routes/venues.js:19-31 | Right after a venue is created, checking its name in any case reports the flag it was created with |
| VenuesProps.CheckPaymentAgreesWithActiveList | Growmore/backend/routes/venues.js:6-31 | With names distinct ignoring case, the payment check says upfront exactly when the active venue list shows a venue of that name with the flag set |
| CustomerAuth.FindCustomer | Growmore/backend/routes/auth.js:142 | Finds a customer account with that phone, and finds none only when there is none |
| CustomerAuth.FindOrCreate | Growmore/backend/routes/auth.js:142-150 | An existing customer is returned unchanged. Otherwise a new customer account is appended, which succeeds exactly when the trimmed name and phone are non-empty and the id and phone are unused |
| CustomerAuth.FindOrCreateStable | Growmore/backend/routes/auth.js:142-150 | Signing in again with the same phone returns the same account and collection |
| CustomerAuth.RequestOtp | Growmore/backend/routes/auth.js:78-110 | A new code replaces any pending one for the phone, expires ten minutes on, and is sent by e-mail and text; other phones' codes are kept |
| CustomerAuth.CustomerName | Growmore/backend/routes/auth.js:146 | A new account gets the trimmed name, or "Customer" |
| CustomerAuth.VerifyOtp | Growmore/backend/routes/auth.js:113-172 | Validation, then no entry or past expiry, then a wrong code (entry kept); a right code deletes the entry and signs in |
| CustomerAuth.AccessByToken | Growmore/backend/routes/auth.js:175-224 | An unknown token is 404. For a known token, sign-in succeeds exactly when the customer is found or created from the booking's phone and name, and the booking is not changed |
| CustomerAuth.RequestThenVerify | Growmore/backend/routes/auth.js:129-139 | The code just sent is accepted at any time up to and including its expiry, and is then removed |
| CustomerAuth.ExpiredCodeRejected | Growmore/backend/routes/auth.js:129-132 | A matching code is rejected after its expiry |
| CustomerAuth.CodeIsSingleUse | Growmore/backend/routes/auth.js:138-139 | A code that signed someone in cannot sign in again |
| CustomerAuth.WrongCodeKeepsEntry | Growmore/backend/routes/auth.js:134-136 | A wrong code leaves the pending entry in place |
| Sms.FormatPhone | backend/services/smsService.js:26 | The result starts with "91"; a number already starting with "91" is unchanged, and any other becomes "91" plus it |
| Sms.FormatPhoneIdempotent | backend/services/smsService.js:67 | Formatting twice equals formatting once |
| Sms.LocalNumberStartingWith91Unchanged | backend/services/smsService.js:26 | A ten-digit local number that begins with 91 gets no country code |
| Sms.OtpMessage | backend/services/smsService.js:94-97 | The login text contains the code |
| Sms.ConfirmationMessage | backend/services/smsService.js:99-102 | The confirmation text contains the booking id and the link |
| Sms.RecallMessage | backend/services/smsService.js:104-107 | The recall text contains the booking id and the minutes |
| Sms.ArrivalMessage | backend/services/smsService.js:109-112 | The arrival text contains the code |
| Outbox.RoomNameInjective | backend/routes/bookings.js:334 | Different rooms never share a name |
| Responses.StatusCode | backend/routes/bookings.js:487-500 | Validation and bad requests are 400, unauthenticated 401, forbidden 403, not found 404, and failed saves 500 |
| Validators.IntLiteral | backend/routes/bookings.js:32 | Exactly `^[-+]?[0-9]+$` is accepted; digits read as their decimal value, with a leading '-' negating it |
| MyBookingsView.Rank | frontend/src/components/MyBookings.js:173-179 | The rank is 99 exactly for statuses other than in-transit, arrived and parked, so recall-requested is ranked with unknown statuses |
| MyBookingsView.ByRankPreorder | frontend/src/components/MyBookings.js:171-180 | Comparing by rank is a total preorder that depends only on the statuses |
| MyBookingsView.Display | frontend/src/components/MyBookings.js:170-180 | The list is a permutation sorted by rank, with every recall-requested booking after every parked one |
| MyBookingsView.IntendedDisplay | frontend/src/components/MyBookings.js:172-178 | With the intended ranks, a permutation in which recall-requested bookings come first |
| MyBookingsView.RecallShownAfterParked | frontend/src/components/MyBookings.js:179 | A waiting recall is listed after a parked car, and the intended order lists it first |
| MyBookingsView.RecalledMeansOpenNotParked | frontend/src/components/MyBookings.js:182 | A booking is shown as recalled exactly when it is open and not parked |
| MyBookingsView.EstimatePayload | frontend/src/components/MyBookings.js:44-53 | Blank or <1 input sends nothing; otherwise the integer part, at least 1, is sent |
| MyBookingsView.EstimateSentIsAccepted | frontend/src/components/MyBookings.js:50-53 | A sent estimate never meets the server's "Invalid estimated time" check |
| MyBookingsView.CompletionPayload | frontend/src/components/MyBookings.js:83-106 | A six-character code is needed; a prepaid booking skips the amount check and sends the stored method and amount; otherwise the payload passes the server's validators |
| MyBookingsView.PrepaidByCardOrUpiRejected | frontend/src/components/MyBookings.js:104 | A booking prepaid by upi or card produces a payload the server rejects with a 400 |
| PaymentForm.ChoiceMethod | Growmore/frontend/src/components/Payment.js:118-140 | The three buttons pick cash, upi or card |
| PaymentForm.Submit | Growmore/frontend/src/components/Payment.js:24-40 | A blank or non-positive amount sends nothing; otherwise the payment is marked completed and the booking paid |
| PaymentForm.PaymentRecorded | Growmore/frontend/src/components/Payment.js:32-40 | The owner's update records the chosen method and amount as completed and paid, and the booking's status is unchanged |
| BookingForm.Toggle | frontend/src/components/CreateBooking.js:58-64 | Toggling flips the flag; turning it off empties the valuables, and turning it on keeps them |
| BookingForm.Select | frontend/src/components/CreateBooking.js:66-75 | Selecting a present valuable removes all its occurrences and keeps every other item with its multiplicity; an absent one is appended |
| BookingForm.SelectTwice | frontend/src/components/CreateBooking.js:66-75 | Selecting an absent valuable twice restores the list |
| BookingForm.AddImages | frontend/src/components/CreateBooking.js:77-84 | A batch is added in order exactly when the total stays at most 4; otherwise nothing changes |
| BookingForm.RemoveImage | frontend/src/components/CreateBooking.js:86-88 | Removing index i drops exactly that image and keeps the order of the rest |
| BookingForm.Serialise | frontend/src/components/CreateBooking.js:96-110 | Valuables are sent as their JSON text and the flag as "true" or "false" |
| BookingForm.SubmittedFormStored | frontend/src/components/CreateBooking.js:99-105 | A valid submitted form is stored with the same valuables and flag as the form held |
| BookingForm.NeedsUpfrontPayment | frontend/src/components/CreateBooking.js:118-130 | No venue means no payment page; otherwise the payment page is shown exactly when the first active venue of that name takes payment upfront |
| RouteGuard.LoginFor | Growmore/frontend/src/components/ProtectedRoute.js:34-43 | Admins go to /admin, customers to /customer/login, everyone else to /login |
| RouteGuard.Guard | Growmore/frontend/src/components/ProtectedRoute.js:5-46 | Loading shows the loading view; children are shown exactly to a logged-in user whose role is allowed or when no roles are given; a redirect goes to a login page |
| RouteGuard.GuardMonotone | Growmore/frontend/src/components/ProtectedRoute.js:34 | Allowing more roles never locks out a user who was let in |

## Left out

- HTTP and persistence wiring is not modelled: express routing, mongoose `find`, `save`, `populate`, `aggregate` and `select`. A collection is a sequence. A failed save of any kind (schema rule, unique index, a value the schema cannot cast) is one `ServerError`.
- Ids are assumed well-formed. In the source, `findById` with a malformed id throws a cast error, caught as a 500. In the model, every lookup of an absent id answers as for an unknown one: 404 for the booking, user and venue routes, and "Invalid supervisor" (400) where a supervisor id is checked.
- Authentication middleware is not modelled. Handlers take the authenticated actor's id or phone, and the role checks of `authorize` are not modelled.
- Password hashing and token signing are foreign cryptography. A stored password stands for its hash, the comparison is a parameter, and JWTs are not modelled.
- Socket transport and room joining are not modelled. An outbox records the events, texts and e-mails in the order the handler sends them. Delivery and its failures are not modelled, so a code is stored even when its text fails.
- Image upload is not modelled. Images are opaque references. More than four files is the upload stage's error, modelled as `ServerError`.
- Randomness and the clock are not modelled. `Math.random`, `randomBytes` and `Date.now` become parameters with range preconditions.
- The admin GET lists of supervisors, drivers and venues and the `/auth/me` route are not modelled. They are plain reads with projections.
- The client's `driver-recall` call has no server route, so it is not modelled.
- `backend/models/User.js` is not part of this model. The `Growmore/backend/models/User.js` schema is used for both trees.
- Validators.IsMobilePhone: approximates the library's per-locale table as an optional '+' and 10 to 13 digits.
- Venues.FindNamed: the regular expression built from the raw name is approximated as case-insensitive ASCII equality. A name containing regex metacharacters is not modelled.
- JsonList.Parse: reads the compact JSON array-of-strings form that `JSON.stringify` writes. Any other JSON text falls back to the empty list, as an unparsable value does.
- Listings.SupervisorBookings: the date filter is a fixed 24-hour window from the given midnight, with no time zone or daylight-saving shift.
- Listings.Stats: the amounts are exact reals, not floating point. `todayStart` is a parameter for the server's local midnight.
- MyBookingsView.EstimatePayload: the browser's number input is modelled as blank or a real number. `parseInt` of exponent notation is not modelled.
- BookingForm.NeedsUpfrontPayment: a failed check request is not modelled. The source falls back to no payment page.
- Venues.CreateVenue: the upfront-payment flag is the JSON boolean the admin page's checkbox sends. `isBoolean()` also accepts the strings "true", "false", "1" and "0", and the handler tests the raw value's truthiness while the save casts it. So in the source, "false" checks and stores the supervisor but saves the flag as false. Those string forms are not modelled.
- Venues.Patched: the same boolean-only flag. In the source, a string "false" or "0" is truthy, so it keeps or replaces the supervisor, and the save stores the flag as false. That case is not modelled.
- Venues.UpdateVenue: inherits Venues.Patched's boolean-only flag.
- Lifecycle.EstimateArrival: the minutes are a whole number, as the app's own client sends them. Two other request values are not modelled. A fractional JSON number passes the `< 1` check; the source stores it truncated by `parseInt` but sends the raw value in the socket event, e-mail and text (2.5 is stored as 2 and sent as 2.5). A non-numeric string also passes the `< 1` check (the comparison with NaN is false), and then the save fails with a 500.
- Lifecycle.Draft: the plate is upper-cased on ASCII letters only. Mongoose's `uppercase: true` uses the full Unicode `toUpperCase`, so a plate with other lower-case letters is stored differently.
- BookingSchema.InitialBooking: the same ASCII-only upper-casing of the plate as Lifecycle.Draft.
- Deleting a supervisor does not look at venues, so a venue can keep a dangling supervisor reference. Venue consistency speaks only of the venues.

## Findings

| source | as written | input that shows it | evidently intended | confidence | as-written member | corrected member |
|---|---|---|---|---|---|---|
| frontend/src/components/MyBookings.js:173-179 | `statusPriority[a.status] \|\| 99` treats the priority 0 of recall-requested as missing, so recall-requested ranks 99, after parked (3) | a recall-requested booking and a parked booking | recall-requested first (priority 0), as the comment on line 172 says | high; not executed | MyBookingsView.RecallShownAfterParked | MyBookingsView.IntendedDisplay |
