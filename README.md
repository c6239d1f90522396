# Venue booking front end: a Dafny model

This project models the logic of a React front end for a venue-booking
service: customers search venues and book dates, and venue managers create,
edit and delete their venues. The model covers:

- the closed-interval date overlap, and the fail-open availability check;
- the availability cache shared by the search page and the landing page;
- the landing page's static filter, sort options and "popular" strip;
- the venue page's calendar blocking, reserve action and guest controls;
- the request helpers: query building, headers, status rules and page-by-page fetching;
- the address and password rules of registration and sign-in, and the bodies posted;
- the sign-in provider with its browser storage;
- the venue card labels;
- the create and edit forms, with the save that sends only changed fields;
- the manager's list of venues with their upcoming bookings;
- the customer's list of bookings, sorted by start date.

Modelling conventions:

- Dates are integer instants (`VenueTypes.Instant`). "Now" is a parameter.
- Every network call is a parameter of the operation that makes it. It is either a function from request to reply (an oracle) or an `Outcome` value: `Done(value)` or `Threw(message)`.
- Components whose state is updated step by step are classes whose fields are the component's state. Each method states the new state in terms of the old one.
- Pure computations are functions, specified by lemmas.

Module layout, one module per source file, plus shared modules:

- Shared:
  - `Wrappers`: `Option`, `Outcome`, `Result`, and JavaScript's `||` and `??` on optional strings.
  - `Strings`: JavaScript `trim`, ASCII `toLowerCase`, `split` and `join`, and number-to-text.
  - `Seqs`: `filter`, filtering by a flag array, and sorting by a numeric key.
  - `VenueTypes`: the records of `src/rulesets/types.ts`.
  - `VenueForm`: the form shared by the create and edit pages.
  - `JsonText`: JSON string literals.
- `DateHelper`, `AvailabilityHelper`, `AvailabilityCache`.
- `SearchResults`, `Home`, `VenueDetails`.
- `ApiUtils`, `AuthApi`, `AuthContext`, `Register`, `Login`.
- `VenueCard`, `CreateVenue`, `EditVenue`, `ManageVenues`, `MyBookings`.

Behaviour that looks unintended is modelled as written, and each case is stated as a lemma:

- The sign-up and sign-in pages accept `@noroff.no` addresses, which `registerUser` then rejects: `Register.StaffMailPassesPageOnly`.
- With a search term present, the search page shows the fuzzy-search list, not the availability-filtered list: `SearchResults.SearchPage.AvailabilityPass`.
- The landing page's cache is keyed by venue id only. A flag stored for one pair of dates answers for every later pair: `Home.StaleCacheAfterDateChange`.
- The venue page's pickers test single days. A stay that spans a booked range is accepted: `VenueDetails.SpanningStayAccepted`.
- Nothing rejects a reversed range: `DateHelper.ReversedRangeAccepted`.
- The edit page sends `description`, `media`, `meta` and `location` on every save when the venue lacks them: `EditVenue.AbsentPropertiesAlwaysSent`.

Where each source function is modelled, and the members that specify it:

- `overlap` (src/utils/dateHelper.ts:2-4): `DateHelper.Overlap`, specified by the `DateHelper.Overlap…` lemmas.
- `isVenueAvailableForDates` (src/utils/availabilityHelper.ts:5-20): `AvailabilityHelper.IsVenueAvailableForDates`, specified by `AvailabilityHelper.AvailableIffNoClash`.
- `buildUrl` (src/api/utils.ts:4-15): `ApiUtils.BuildUrl` over `ApiUtils.KeptParams`.
- `fetchAllPages` (src/api/utils.ts:100-119): `ApiUtils.FetchAllPages` over `ApiUtils.Walk` and `ApiUtils.Visited`, specified by `ApiUtils.WalkFailure`, `ApiUtils.WalkCollects` and `ApiUtils.WalkFuelIrrelevant`.
- `isNoroffMail` (src/api/auth.ts:5-7): `AuthApi.IsNoroffMail`, specified by `AuthApi.NoroffMailIff`.
- `login`, `logout` and the restoring effect (src/contexts/AuthContext.tsx:37-63): `AuthContext.LoggedIn`, `AuthContext.LoggedOut` and `AuthContext.Restored`, over the stored text `AuthContext.Encode`/`AuthContext.Decode`. They are specified by `AuthContext.DecodeEncode`, `AuthContext.LoginThenLogout`, `AuthContext.RestoreAfterLogin` and `AuthContext.RestoreAfterLogout`.
- `validEmail`/`canSubmit` on the sign-up page (src/pages/Register.tsx:22-24): `Register.ValidEmail`/`Register.CanSubmit`, specified by `Register.NoroffMailIsValidEmail` and `Register.StaffMailPassesPageOnly`.
- `canSubmit` on the sign-in page (src/pages/auth/Login.tsx:17-18): `Login.CanSubmit`, specified by `Login.ShortPasswordBlocked`.
- The info built from the sign-in reply (src/pages/auth/Login.tsx:30-36): `Login.InfoOf`, specified by `Login.RoleFollowsFlag`.
- `isSuperhost` (src/components/VenueCard.tsx:6): `VenueCard.IsSuperhost`; `isNewVenue` (8-13): `VenueCard.IsNewVenue`. Both are specified by `VenueCard.Badge` and `VenueCard.NewnessOnlyFades`.
- `cityDisplay` (src/components/VenueCard.tsx:39): `VenueCard.CityDisplay`, specified by `VenueCard.CityDisplayTrimmed`.
- `baseFiltered` (src/pages/Home.tsx:136-146): `Home.BaseFiltered`, specified by `Home.BaseFilteredSpec`.
- The media field's parse (src/pages/venues/CreateVenue.tsx:183-191): `CreateVenue.ParseMedia`, specified by `CreateVenue.JoinParseRoundTrip` and `CreateVenue.MediaFieldRoundTrip`.
- The upcoming list (src/pages/venues/ManageVenues.tsx:112-118): `ManageVenues.Upcoming`, specified by `ManageVenues.UpcomingSpec`.
- The list after a delete (src/pages/venues/ManageVenues.tsx:48): `ManageVenues.Without`, specified by `ManageVenues.WithoutSpec`.
- The two date pickers' `filterDate` and `minDate` (src/pages/venues/VenueDetails.tsx:346-369): `VenueDetails.CheckInSelectable`/`VenueDetails.CheckOutSelectable`, specified by `VenueDetails.SpanningStayAccepted`.
- The edit page's redirects (src/pages/venues/EditVenue.tsx:27-29, 42): `EditVenue.SentToLogin`/`EditVenue.SentHome`, specified by `EditVenue.ManagersPassOwnershipGuard`.

## Model

| member | source | states |
|---|---|---|
| DateHelper.OverlapSymmetric | src/utils/dateHelper.ts:2-3 | the overlap test gives the same answer with the two ranges swapped |
| DateHelper.OverlapReflexive | src/utils/dateHelper.ts:3 | a well-formed range overlaps itself |
| DateHelper.OverlapBoundaries | src/utils/dateHelper.ts:3 | both ends are inclusive: ranges sharing one endpoint overlap; a range ending before another starts does not |
| DateHelper.OverlapMeansSharedInstant | src/utils/dateHelper.ts:1-3 | for well-formed ranges, overlap holds exactly when some instant lies in both, as the doc comment says |
| DateHelper.ReversedRangeAccepted | src/utils/dateHelper.ts:3 | a reversed range such as [5, 1] is not rejected and still overlaps [0, 10] |
| AvailabilityHelper.AnyOverlap | src/utils/availabilityHelper.ts:14-16 | `some` over the bookings: true exactly when some booking overlaps the requested range |
| AvailabilityHelper.AvailableIffNoClash | src/utils/availabilityHelper.ts:10-19 | available exactly when no booking overlaps; a rejected fetch, or a venue without a bookings array, answers available |
| AvailabilityHelper.NoBookingsAvailable | src/utils/availabilityHelper.ts:14 | with no bookings nothing overlaps |
| AvailabilityHelper.MoreBookingsNeverFreeUp | src/utils/availabilityHelper.ts:14-16 | adding a booking can turn available into unavailable, never the reverse |
| AvailabilityHelper.OrderIrrelevant | src/utils/availabilityHelper.ts:14 | the answer depends only on the multiset of bookings, not their order |
| AvailabilityHelper.ConflictExample | src/utils/availabilityHelper.ts:11-16 | with one booking [10, 15], [12, 13] is unavailable and [16, 20] is available |
| AvailabilityCache.FilterByCachedFlags | src/pages/searchResults/SearchResults.tsx:86-88 | keeping the venues whose flag at the same index is set is filtering by each venue's cached-or-checked flag, in input order |
| AvailabilityCache.ResolveSpec | src/pages/searchResults/SearchResults.tsx:72-81 | after a pass the cache holds the old entries unchanged plus one entry per new id, each the uncached check of that id |
| AvailabilityCache.ResolveStep | src/pages/Home.tsx:102-106 | one more check leaves the cache unchanged on a hit and stores the checked flag on a miss |
| AvailabilityCache.LookupAfter | src/pages/Home.tsx:102-106 | a lookup in the cache built so far answers what a lookup in the starting cache answers |
| AvailabilityCache.MissesStep | src/pages/searchResults/SearchResults.tsx:72-75 | a check fetches exactly when its id is not yet in the cache |
| AvailabilityCache.MissesFetchEachNewIdOnce | src/pages/searchResults/SearchResults.tsx:72-81 | the ids fetched are exactly those not cached beforehand, each fetched once |
| SearchResults.GuestFilter | src/pages/searchResults/SearchResults.tsx:43 | the list keeps exactly the venues with room for the guests |
| SearchResults.GuestFilterKeepsOrder | src/pages/searchResults/SearchResults.tsx:43 | the guest filter keeps input order: it distributes over concatenation |
| SearchResults.InlineFlagAgreesWithHelper | src/pages/searchResults/SearchResults.tsx:74-82 | the page's inline check answers exactly what the shared availability helper answers, fail-open included |
| SearchResults.SearchPage.constructor | src/pages/searchResults/SearchResults.tsx:28-34 | the page starts with empty lists, no spinner and an empty cache |
| SearchResults.SearchPage.LoadKeywordResults | src/pages/searchResults/SearchResults.tsx:37-46 | nothing happens without a term; otherwise the guest-filtered results are stored and loading ends |
| SearchResults.SearchPage.CheckVenue | src/pages/searchResults/SearchResults.tsx:71-83 | a cache hit answers the stored flag and fetches nothing; a miss fetches once, stores the flag, and a failure stores true |
| SearchResults.SearchPage.CheckAll | src/pages/searchResults/SearchResults.tsx:70-86 | one flag per venue, each the cached-or-checked flag; the cache and the fetched ids are those of the specification |
| SearchResults.SearchPage.AvailabilityPass | src/pages/searchResults/SearchResults.tsx:60-96 | without both dates nothing is checked; a cancelled pass leaves the shown list alone; with a term the fuzzy list is shown, otherwise the available venues in order |
| Home.BaseFilteredSpec | src/pages/Home.tsx:136-146 | the static filter keeps exactly the venues with room for the guests, matching the category and meeting every active amenity |
| Home.BaseFilteredKeepsOrder | src/pages/Home.tsx:137 | the static filter keeps input order |
| Home.CategoryIgnoresCase | src/pages/Home.tsx:139-140 | a name holding the category word in any letter case matches the category |
| Home.MoreGuestsNarrow | src/pages/Home.tsx:138 | asking for more guests never brings a venue back |
| Home.Sorted | src/pages/Home.tsx:176-186 | "default" keeps the order; "newest" is descending and "oldest" ascending by creation, a missing date counting as 0; always a permutation |
| Home.PopularCut | src/pages/Home.tsx:192 | past the cut of a rating-descending list, no venue is rated above one before it |
| Home.Popular | src/pages/Home.tsx:190-194 | at most four venues, rating-descending, a missing rating counting as 0, drawn from the venues, none left out rated higher |
| Home.PopularRest | src/pages/Home.tsx:192 | what the cut leaves out is rated no higher than anything kept |
| Home.StaleCacheAfterDateChange | src/pages/Home.tsx:96-108 | a flag cached for one pair of dates answers for another pair whose true answer differs |
| Home.HomePage.constructor | src/pages/Home.tsx:44-75 | one guest, no dates, category "All", no amenity toggles, default sort, empty cache |
| Home.HomePage.LoadVenues | src/pages/Home.tsx:48-54 | a loaded list replaces the venues and ends loading; a rejection leaves both |
| Home.HomePage.ShowBase | src/pages/Home.tsx:153-157 | while no pass is pending the date-filtered list is the static filter |
| Home.HomePage.IsVenueAvailable | src/pages/Home.tsx:99-109 | without both dates: true, no fetch; a hit answers the cache; a miss asks the helper once and stores its answer |
| Home.HomePage.CheckFlags | src/pages/Home.tsx:168 | one flag per venue, each the cached-or-checked flag; cache and fetched ids follow the specification |
| Home.HomePage.RunAvailability | src/pages/Home.tsx:159-173 | without a request nothing happens; without both dates the static filter is shown; otherwise the venues whose flag is set, in order |
| Home.HomePage.SearchClick | src/pages/Home.tsx:207-210 | the search button requests a pass |
| Home.HomePage.SetCheckIn | src/pages/Home.tsx:287-290 | a check-in at or after the check-out clears the check-out; otherwise the check-out stays |
| Home.HomePage.SetCheckOut | src/pages/Home.tsx:305-306 | the check-out becomes the picked day, and the cache is not cleared |
| Home.HomePage.DecGuests | src/pages/Home.tsx:323 | the guest count drops by one but never below 1 |
| Home.HomePage.IncGuests | src/pages/Home.tsx:332 | the guest count grows by one, without an upper bound |
| VenueDetails.Ranges | src/pages/venues/VenueDetails.tsx:74-78 | one range per booking, in order |
| VenueDetails.RangesAppend | src/pages/venues/VenueDetails.tsx:76-78 | the range list of a concatenation is the concatenation of the range lists |
| VenueDetails.MineIsFilteredRanges | src/pages/venues/VenueDetails.tsx:79 | the own list is the ranges of the bookings whose customer name is the profile name, in order |
| VenueDetails.MineWithinAll | src/pages/venues/VenueDetails.tsx:74-82 | every own range is a booked range, counted no more often |
| VenueDetails.SplitBookings | src/pages/venues/VenueDetails.tsx:74-82 | the `forEach` fills both lists as specified |
| VenueDetails.IsDayBooked | src/pages/venues/VenueDetails.tsx:110-111 | a day is booked exactly when some range holds it, both ends inclusive |
| VenueDetails.BookedEndsBlocked | src/pages/venues/VenueDetails.tsx:110-111 | the first and last day of a booking are blocked, the day after is not |
| VenueDetails.SpanningStayAccepted | src/pages/venues/VenueDetails.tsx:342-369 | with days 10-12 booked and no earlier `minDate` in the way, check-in 5 and check-out 15 are both selectable though the stay overlaps the booking |
| VenueDetails.GuestCeiling | src/pages/venues/VenueDetails.tsx:387-388 | the ceiling the plus button keeps is the larger of 1 and `maxGuests` |
| VenueDetails.VenueDetailsPage.constructor | src/pages/venues/VenueDetails.tsx:31-46 | no venue, empty lists, no dates, one guest, loading |
| VenueDetails.VenueDetailsPage.Load | src/pages/venues/VenueDetails.tsx:60-91 | nothing without id and token; a cancelled load changes nothing; a failure leaves the lists; otherwise the venue and both lists are set and loading ends |
| VenueDetails.VenueDetailsPage.LoadHostVenues | src/pages/venues/VenueDetails.tsx:94-107 | with an owner name and a token, the owner's other venues are stored; a failure or a missing owner changes nothing |
| VenueDetails.VenueDetailsPage.HandleReserve | src/pages/venues/VenueDetails.tsx:120-161 | nothing without id, both dates and token; a success appends the range to both lists and resets the dates and guests; a failure shows the message or "Booking failed" and keeps the lists |
| VenueDetails.VenueDetailsPage.ApplyRefresh | src/pages/venues/VenueDetails.tsx:145-155 | the refresh rebuilds both lists from the latest bookings |
| VenueDetails.VenueDetailsPage.SetCheckIn | src/pages/venues/VenueDetails.tsx:342-345 | a check-in at or after the check-out clears the check-out |
| VenueDetails.VenueDetailsPage.SetCheckOut | src/pages/venues/VenueDetails.tsx:361 | the check-out becomes the picked day |
| VenueDetails.VenueDetailsPage.DecGuests | src/pages/venues/VenueDetails.tsx:378-379 | the guest count drops by one but never below 1 |
| VenueDetails.VenueDetailsPage.IncGuests | src/pages/venues/VenueDetails.tsx:387-388 | the plus button adds one only below `maxGuests`, so guests stay within [1, ceiling] |
| VenueDetails.OtherVenues | src/pages/venues/VenueDetails.tsx:104 | the host strip holds exactly the owner's venues other than the current one |
| ApiUtils.Stringify | src/api/utils.ts:11 | `String(val)` of a present value: strings as they are, booleans as "true"/"false", numbers as decimal digits without a leading zero that read back as the number, after a minus sign for negatives |
| ApiUtils.KeptParamsAppend | src/api/utils.ts:9-13 | parameters are appended in entry order |
| ApiUtils.KeptParamSource | src/api/utils.ts:10-11 | every appended parameter comes from an entry that is neither null nor undefined |
| ApiUtils.KeptParamsCount | src/api/utils.ts:10-11 | one parameter per present entry |
| ApiUtils.BuildUrl | src/api/utils.ts:4-15 | the target is base plus path and the query holds exactly the present entries, stringified, in order |
| ApiUtils.AuthHeaders | src/api/utils.ts:18-28 | JSON content type always; the API key exactly when configured; `Bearer` plus the token exactly when the token is non-empty; no other header |
| ApiUtils.ErrorMessage | src/api/utils.ts:34 | the first server message when there is one, else the status text |
| ApiUtils.SafeJson | src/api/utils.ts:31-38 | a failed response throws the error message; a successful one yields `data` |
| ApiUtils.SafeJsonFallbacks | src/api/utils.ts:32-34 | an unparsable or error-less body falls back on the status text; a first message wins |
| ApiUtils.DeleteOutcome | src/api/utils.ts:94-96 | throws exactly when not ok and not 204, with the status text or "Delete failed" |
| ApiUtils.Prepend | src/api/utils.ts:114 | collected items go in front of a successful rest; a failure discards them |
| ApiUtils.Visited | src/api/utils.ts:107-116 | the first page requested is the starting page, and no more pages than the bound |
| ApiUtils.WalkFailure | src/api/utils.ts:106-118 | a failed run fails on the last page it requested, all earlier ones read; its error is "Failed to fetch" for a response that is not ok, else the exception's own message |
| ApiUtils.WalkCollects | src/api/utils.ts:106-118 | a successful run read every page it requested, the last flagged last, and returns their items concatenated in request order |
| ApiUtils.WalkFuelIrrelevant | src/api/utils.ts:108-117 | once the loop has finished, a larger page bound gives the same result |
| ApiUtils.ThreePagesInOrder | src/api/utils.ts:106-118 | three pages linked by `nextPage`, the third flagged last: pages 1, 2, 3 are requested and their items concatenated in order |
| ApiUtils.LaterFailureDiscards | src/api/utils.ts:112 | a failing second page gives "Failed to fetch" and no partial result |
| ApiUtils.StepFails | src/api/utils.ts:111-112 | a page that fails ends the loop after that request, with "Failed to fetch" or the exception's message |
| ApiUtils.StepLast | src/api/utils.ts:114-115 | the page flagged last ends the loop with its items added |
| ApiUtils.StepNext | src/api/utils.ts:114-116 | any other page adds its items and moves on to `nextPage` |
| ApiUtils.FetchAllPages | src/api/utils.ts:100-119 | the `while` loop computes the specified result and requests the specified pages |
| AuthApi.NoroffMailIff | src/api/auth.ts:5-7 | an address passes exactly when a non-empty local part without '@' is followed by "@stud.noroff.no" in any letter case |
| AuthApi.StaffMailRejected | src/api/auth.ts:6 | "@noroff.no" addresses are rejected |
| AuthApi.AnyCaseDomainAccepted | src/api/auth.ts:6 | the letter case of the domain does not matter |
| AuthApi.ImageOf | src/api/auth.ts:36-41 | an image is sent exactly when its URL is non-empty, its alt text defaulting to "" |
| AuthApi.BuildRegisterBody | src/api/auth.ts:31-43 | the body copies the fields; avatar and banner exactly for non-empty URLs, each holding that URL and its alt text or ""; `venueManager` true only when given as true |
| AuthApi.FailureMessage | src/api/auth.ts:51-79 | the first non-empty server message, else the fallback |
| AuthApi.Settle | src/api/auth.ts:51-57 | a reply that is not ok throws the failure message; an ok one yields `data` |
| AuthApi.RegisterUser | src/api/auth.ts:22-58 | the address is checked first, then the password length (at least 8), and only then is the body posted |
| AuthApi.EmailCheckedFirst | src/api/auth.ts:24-29 | a rejected address reports the address error whatever the password and whatever the server would say |
| AuthApi.RegisterFallback | src/api/auth.ts:51-54 | a failure without a usable server message says "Registration failed" |
| AuthApi.LoginUser | src/api/auth.ts:69-83 | throws exactly when the reply is not ok, with the first non-empty server message or "Login failed"; otherwise yields `data` |
| AuthApi.LoginFallback | src/api/auth.ts:76-79 | a failed sign-in says "Login failed" without a usable server message, and that message otherwise |
| JsonText.HexDigitValue | src/contexts/AuthContext.tsx:37-63 | a written hexadecimal digit reads back as its value |
| JsonText.ExpectLiteral | src/contexts/AuthContext.tsx:60 | punctuation that is there is consumed |
| JsonText.ParseEscapedChar | src/contexts/AuthContext.tsx:37-63 | one written character reads back as itself |
| JsonText.ParseEscape | src/contexts/AuthContext.tsx:37-63 | a written string reads back up to its closing quote |
| JsonText.QuoteRoundTrip | src/contexts/AuthContext.tsx:37-63 | reading a string literal gives back the string written |
| AuthContext.RoleNameRoundTrip | src/contexts/AuthContext.tsx:9 | every role reads back from its name |
| AuthContext.StateOfKeepsInfo | src/contexts/AuthContext.tsx:39-42 | the state keeps every field of the info and coerces the manager flag to a boolean |
| AuthContext.DecodeEncode | src/contexts/AuthContext.tsx:37-63 | a stored record parses back to the info stored |
| AuthContext.LogoutIdempotent | src/contexts/AuthContext.tsx:45-54 | signing out twice is signing out once |
| AuthContext.LoginThenLogout | src/contexts/AuthContext.tsx:37-54 | sign-in then sign-out equals sign-out alone: the initial state, and no stored record |
| AuthContext.RestoreAfterLogin | src/contexts/AuthContext.tsx:56-63 | a reload after sign-in restores the same session |
| AuthContext.RestoreAfterLogout | src/contexts/AuthContext.tsx:56-63 | a reload after sign-out stays signed out |
| AuthContext.UnparsableRecordIgnored | src/contexts/AuthContext.tsx:59-61 | a stored record that does not parse is ignored |
| AuthContext.AuthProvider.constructor | src/contexts/AuthContext.tsx:29-35 | the provider starts as a visitor with an empty name and token, no avatar and no manager flag |
| AuthContext.AuthProvider.Login | src/contexts/AuthContext.tsx:37-43 | the record is stored under "auth" and becomes the state |
| AuthContext.AuthProvider.Logout | src/contexts/AuthContext.tsx:45-54 | the record is removed and the state reset |
| AuthContext.AuthProvider.Restore | src/contexts/AuthContext.tsx:56-63 | the mount effect signs in with a stored record that parses |
| Register.EndsWithLower | src/pages/Register.tsx:22 | a lower-cased address ends in a suffix exactly when its tail lower-cases to it |
| Register.NoroffMailIsValidEmail | src/pages/Register.tsx:22 | every address the API accepts passes the page's rule |
| Register.StaffMailPassesPageOnly | src/pages/Register.tsx:22-24 | a staff address lets the form be submitted, yet `registerUser` rejects it with the address error |
| Register.OptionsBody | src/pages/Register.tsx:35-41 | an avatar is sent exactly when one was typed; no banner or bio; the manager box as ticked |
| Register.RegisterPage.constructor | src/pages/Register.tsx:10-19 | empty fields, manager box off, no banner or error |
| Register.RegisterPage.Settled | src/pages/Register.tsx:42-56 | success shows the banner and clears the four text fields, keeping the manager box; failure shows the message |
| Register.RegisterPage.HandleSubmit | src/pages/Register.tsx:26-57 | nothing happens unless the form may be submitted; otherwise the registration's result settles the page |
| Login.RoleFollowsFlag | src/pages/auth/Login.tsx:30-36 | the role is manager exactly when the reply's flag is true, else customer; the stored flag is a boolean agreeing with the role |
| Login.ShortPasswordBlocked | src/pages/auth/Login.tsx:18 | a password shorter than 8 blocks the form whatever the address |
| Login.LoginPage.constructor | src/pages/auth/Login.tsx:11-14 | empty fields, not loading, no error |
| Login.LoginPage.HandleSubmit | src/pages/auth/Login.tsx:21-44 | nothing unless the form may be submitted; success signs in with the derived info; failure shows the message and leaves the session |
| VenueCard.NewnessOnlyFades | src/components/VenueCard.tsx:8-13 | a venue is new exactly within 30 days of its creation, and is never new again later |
| VenueCard.Badge | src/components/VenueCard.tsx:50-53 | a badge shows exactly for a superhost (rating at least 4.8) or a new venue, "Superhost" taking precedence |
| VenueCard.ListAmenities | src/components/VenueCard.tsx:16-23 | the pushes build the line of the enabled labels |
| VenueCard.KindsSpec | src/components/VenueCard.tsx:18-21 | an amenity is listed exactly when the venue has it |
| VenueCard.KindsAscending | src/components/VenueCard.tsx:18-21 | the listed amenities keep the fixed order |
| VenueCard.EnabledSpec | src/components/VenueCard.tsx:16-22 | each label is listed exactly when its amenity is set, in the order WiFi, Parking, Breakfast, Pets Allowed |
| VenueCard.NoneIffNoAmenity | src/components/VenueCard.tsx:22 | the line says "None" exactly when no amenity is set |
| VenueCard.CityDisplayTrimmed | src/components/VenueCard.tsx:39 | the city line is the trimmed city when that is not empty, else "Location Unspecified"; never blank or padded |
| VenueCard.CoverAlt | src/components/VenueCard.tsx:46 | the first photo's alt text when non-empty, else the venue name |
| VenueCard.OneLinkAtMost | src/components/VenueCard.tsx:93-105 | the card links at most once, and links somewhere exactly when links are not disabled |
| VenueForm.FieldsDetermineForm | src/rulesets/types.ts:1-63 | a form is determined by its seven fields |
| VenueForm.SetField | src/pages/venues/CreateVenue.tsx:35-36 | the named field takes the value and every other field keeps its own |
| VenueForm.SetFieldLaws | src/pages/venues/EditVenue.tsx:63-64 | writing back a field's own value changes nothing; of two writes the later wins |
| VenueForm.WithFlag | src/pages/venues/CreateVenue.tsx:41 | the named flag takes the value, the other flags keep theirs |
| VenueForm.FlagsDetermineMeta | src/pages/venues/CreateVenue.tsx:29 | an amenity record is determined by its four flags |
| CreateVenue.InitialFormSpec | src/pages/venues/CreateVenue.tsx:23-31 | blank text, price 0, one guest, no media, every amenity off, blank address |
| CreateVenue.ToggleMeta | src/pages/venues/CreateVenue.tsx:38-42 | the flag is negated, a missing flag counting as false; nothing else changes |
| CreateVenue.ToggleTwice | src/pages/venues/CreateVenue.tsx:38-42 | toggling a set flag twice restores the form, and toggles keep every flag set |
| CreateVenue.UrlsClean | src/pages/venues/CreateVenue.tsx:187-190 | no parsed URL is empty or padded, and there are never more URLs than pieces |
| CreateVenue.UrlsAppend | src/pages/venues/CreateVenue.tsx:188-190 | parsing keeps the pieces' order |
| CreateVenue.UrlsOfClean | src/pages/venues/CreateVenue.tsx:189-190 | clean URLs pass through unchanged |
| CreateVenue.JoinParseRoundTrip | src/pages/venues/CreateVenue.tsx:183-191 | URLs without commas, emptiness or padding survive joining with "," and re-parsing, each with the name or "venue photo" as alt text |
| CreateVenue.MediaFieldRoundTrip | src/pages/venues/CreateVenue.tsx:183-192 | the media field re-reads the stored media whenever their URLs are clean; only alt texts are reset |
| CreateVenue.CreateError | src/pages/venues/CreateVenue.tsx:48-53 | a failed create shows its message or "Failed to create venue"; a created venue shows none |
| EditVenue.ManagersPassOwnershipGuard | src/pages/venues/EditVenue.tsx:42 | any manager may edit any venue; a non-manager is sent home unless they own it |
| EditVenue.MetaDefaults | src/pages/venues/EditVenue.tsx:50-56 | every flag is the venue's own, a missing one being false |
| EditVenue.LocationDefaults | src/pages/venues/EditVenue.tsx:57 | all five text fields default to "", coordinates come from the venue |
| EditVenue.InitForm | src/pages/venues/EditVenue.tsx:44-58 | name, price and guests copied; description defaults to "" and media to []; defaults for flags and address |
| EditVenue.ComputeDiff | src/pages/venues/EditVenue.tsx:72-80 | the diff holds exactly the keys whose value differs from the original, each with the form's value |
| EditVenue.UntouchedFormHasNoDiff | src/pages/venues/EditVenue.tsx:44-80 | a venue that spells out every optional property, saved untouched, gives an empty diff |
| EditVenue.AbsentPropertiesAlwaysSent | src/pages/venues/EditVenue.tsx:44-80 | a venue lacking description, media, flags or address has that key in every diff |
| EditVenue.EditedAlt | src/pages/venues/EditVenue.tsx:243-244 | the alt text given on a URL edit is never empty |
| EditVenue.EditMediaUrl | src/pages/venues/EditVenue.tsx:238-246 | entry i gets the new URL and keeps its alt, else the name, else "Venue image i+1"; other entries unchanged |
| EditVenue.AltFixedByFirstEdit | src/pages/venues/EditVenue.tsx:238-246 | after one edit the alt text is fixed: later URL edits keep it |
| EditVenue.DropIndex | src/pages/venues/EditVenue.tsx:254 | filtering out one index removes exactly that element |
| EditVenue.RemoveMediaSpec | src/pages/venues/EditVenue.tsx:250-255 | removing entry i > 0 deletes exactly that entry, keeps the order and keeps the cover photo first |
| EditVenue.AddMedia | src/pages/venues/EditVenue.tsx:265-275 | below five entries, one entry with an empty URL and the name or "Venue image n" is appended; never more than five |
| EditVenue.EditVenuePage.constructor | src/pages/venues/EditVenue.tsx:31-35 | no original, no form, not saving, no error |
| EditVenue.EditVenuePage.Load | src/pages/venues/EditVenue.tsx:38-60 | nothing without an id; a failure shows its message; a non-owner who is not a manager is sent home; otherwise the original and the form are set |
| EditVenue.EditVenuePage.UpdateField | src/pages/venues/EditVenue.tsx:63-64 | with a form, only the named key changes; without one nothing happens |
| EditVenue.EditVenuePage.HandleSave | src/pages/venues/EditVenue.tsx:67-96 | nothing without id, form and original; an empty diff reports done without a request; otherwise exactly the diff is sent; a rejection shows its message |
| ManageVenues.Load | src/pages/venues/ManageVenues.tsx:24-41 | nothing without a profile name; fetched venues replace the list, a failure shows its message or "Failed to load venues"; loading ends |
| ManageVenues.FailedLoadShowsNoVenues | src/pages/venues/ManageVenues.tsx:19-39 | a failed first load leaves the list empty and shows an error |
| ManageVenues.UpcomingSpec | src/pages/venues/ManageVenues.tsx:112-118 | listed bookings end strictly after now, each such booking is listed, the list is a permutation of those kept, ascending by start |
| ManageVenues.PastBookingsIgnored | src/pages/venues/ManageVenues.tsx:117 | a booking already over does not change the list |
| ManageVenues.UpcomingBlock | src/pages/venues/ManageVenues.tsx:101-118 | the block shows exactly for a venue with bookings, listing the upcoming ones |
| ManageVenues.HandleDelete | src/pages/venues/ManageVenues.tsx:44-52 | a declined confirm changes nothing; a success drops the venues with that id; a failure keeps the list and alerts its message or "Could not delete venue" |
| ManageVenues.WithoutSpec | src/pages/venues/ManageVenues.tsx:48 | after a delete the list holds exactly the venues with another id |
| ManageVenues.WithoutKeepsOrder | src/pages/venues/ManageVenues.tsx:48 | the survivors keep their order |
| ManageVenues.DeclinedDeleteIgnoresServer | src/pages/venues/ManageVenues.tsx:45 | a declined confirm gives the same page whatever the server would answer |
| MyBookings.SwapDown | src/pages/bookings/MyBookings.tsx:19-22 | one exchange of neighbours keeps the bookings |
| MyBookings.Sink | src/pages/bookings/MyBookings.tsx:19-22 | one insertion step extends the sorted prefix by one and keeps the bookings |
| MyBookings.SortByStart | src/pages/bookings/MyBookings.tsx:19-22 | the array ends up ascending by start date and is a permutation of the fetched one |
| MyBookings.MyBookingsPage.constructor | src/pages/bookings/MyBookings.tsx:10-11 | no bookings, spinner on |
| MyBookings.MyBookingsPage.Load | src/pages/bookings/MyBookings.tsx:14-30 | no request without name and token; a failure keeps the list; fetched bookings are stored ascending by start, a permutation of those fetched; loading ends |
| MyBookings.FailedFirstLoad | src/pages/bookings/MyBookings.tsx:24-28 | on a failed first load the page shows no bookings and the spinner stops |
| Strings.TrimSpec | src/components/VenueCard.tsx:39 | `trim` removes exactly the leading and trailing whitespace and returns a trimmed string |
| Strings.NatToStringValue | src/api/utils.ts:11 | the decimal digits `String(n)` writes for a natural number read back as that number |
| Strings.IntToStringValue | src/api/utils.ts:11 | `String(i)` reads back as `i`: the digits after the minus sign of a negative denote its magnitude |
| Strings.LowerAt | src/pages/Home.tsx:139 | lower-casing maps each character through the ASCII lower-case table |
| Strings.SplitJoin | src/pages/venues/CreateVenue.tsx:183-188 | splitting a join of separator-free pieces gives the pieces back |
| Seqs.FilterAppend | src/pages/Home.tsx:137 | a filter keeps input order: it distributes over concatenation |
| Seqs.FilterByFlagsIsFilter | src/pages/Home.tsx:169 | keeping by flags computed from a test is filtering by that test |
| Seqs.SortBy | src/pages/Home.tsx:192 | the comparator sort gives an ascending permutation of its input |

## Left out

- Concurrency. `pLimit(8)` and `Promise.all` on the search, landing and venue pages are modelled as checks run one after another. So on the search page and on the landing page, two copies of the same venue in one pass are modelled as one fetch, where the page starts two: `AvailabilityCache.MissesFetchEachNewIdOnce` holds of the sequential pass only. A cancelled effect is modelled by a flag.
- Fuzzy search. The Fuse.js ranking on the search and landing pages is a foreign library; its result list is an input.
- The landing page's live suggestions and "show more" paging are not modelled. The suggestions effect is rendering support with a fuzzy search inside it.
- Date parsing and formatting (`new Date(...)`, `toISOString`, `toLocaleDateString`), and invalid (NaN) dates. Dates are integer instants throughout.
- Numbers are integers, except ratings, which are reals. Floating-point rounding and `Number(...)` on query text are not modelled.
- Routing, redirects, `setTimeout` navigation, `window.confirm` and `alert` are not modelled as such. Confirm and alert appear only as a parameter and a result.
- The guards that send a user to another page, such as a non-manager leaving the manager pages, are left out. The edit page's two guards are stated as predicates.
- The edit page's `handleDelete` is not part of this model. It is the same confirm-then-delete pattern as the manage page's `ManageVenues.HandleDelete`.
- The `fetch` calls in src/api/venues.ts and src/api/bookings.ts are not part of this model, and neither is the HTTP layer itself. Replies are parameters, and `createBooking` reading the token from storage is not modelled.
- URL percent-encoding, and the order in which `Object.entries` lists parameters. The parameters are modelled as a sequence in entry order.
- ApiUtils.FetchAllPages: the source's `while (true)` loop has no bound. The model runs it for at most `fuel` pages and reports `OutOfFuel` past that. A finished run does not depend on the bound (`ApiUtils.WalkFuelIrrelevant`). Exceptions raised while reading a page are the page reply `Raised` with their message; which of several would come first within one page is not modelled. These are a rejected `fetch`, a body that is not JSON, a body without `meta`, and `extractPage` throwing.
- Seqs.SortBy: the model does not state that equal keys keep their input order, although JavaScript's sort is stable.
- MyBookings.SortByStart: as for `Seqs.SortBy`, stability is not stated.
- Strings.Lower: only ASCII letters are lower-cased. JavaScript also folds other letters. This matters for the landing page's category test (`Home.CategoryIgnoresCase`): a name that spells "Lakefront" with the Kelvin sign U+212A for its "k" matches the category in the page but not in the model.
- Password and name lengths count characters, whereas JavaScript counts UTF-16 code units.
- AuthContext.Decode: only records laid out as `JSON.stringify` writes a `LoginInfo` are read. Any other text is treated as a parse failure, including valid JSON of another shape such as `null`. The source would then call `login` with that value.
- An ok auth reply whose body is not JSON, and a network rejection inside `registerUser`/`loginUser`, are not modelled. The first is treated as a reply without `data`.
- Login.LoginPage.HandleSubmit: the `?? "Login failed"` fallback is not reachable here, because every modelled failure carries a message. `typeErrorText` stands for the engine's message when an ok reply has no `data`.
- Register.RegisterPage.HandleSubmit: likewise the `?? "Something went wrong"` fallback is not reachable. The 2-second redirect to the sign-in page is not modelled.
- EditVenue.ComputeDiff: `JSON.stringify` equality is modelled as equality of values. This assumes the server lists object keys in the same order as the form.
- Values that the server sends as JSON `null` are modelled as absent. On every page but the edit page, `null` and a missing property behave alike. The edit page keeps a `null` through its spreads, so the difference shows there.
- EditVenue.LocationDefaults, EditVenue.MetaDefaults, EditVenue.ComputeDiff: a `null` location text or amenity flag from the server is modelled as missing. It therefore becomes "" or `false` in the form, and `location` or `meta` counts as changed on every save. The source spreads the `null` into the form unchanged (src/pages/venues/EditVenue.tsx:50-57), so `JSON.stringify` sees no change and the property is not sent.
- The search page's own copy of `overlap` is modelled by the shared `DateHelper.Overlap`, which has the same body.
- CreateVenue: the redirect after a successful create is not modelled. `CreateVenue.CreateError` gives the error shown.
