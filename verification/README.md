# EcoDrive Rentals — a Dafny model

EcoDrive is an electric- and combustion-car rental application. It has an
Express/MongoDB server with controllers for rentals, complaints ("contacts")
and users, and a React/Redux client. This project models the decision logic
of both halves as pure functions over immutable records. The clock is an
integer number of milliseconds passed in by the caller. Every collection is a
`seq` in store order.

- **Server handlers** (`RentalController`, `ContactController`,
  `UserController`). Each handler takes the store, the authenticated
  requester, the clock and the request body. It returns
  `Handled(store', reply)`, where `reply` is either `Ok(code, body)` or
  `Rejected(code, message)` with the status code and message text the
  handler sends.
- **Rental record** (`RentalSchema`): required fields, the status enum and
  its default, and the timestamps set by the store.
- **The 12-hour window** (`TimeWindow`). The server compares
  `(now - createdAt) / 3 600 000 > 12` in real arithmetic. A lemma shows this
  equals the integer test `now - createdAt > 43 200 000`. The window is
  therefore still open at exactly twelve hours.
- **Client pages**:
  - the rental details countdown, its `HH:MM:SS` rendering and the cancel
    gate (`RentalDetails`, with `Decimal` for number rendering);
  - checkout pricing and the booking request (`Checkout`);
  - dashboard counts (`Dashboard`);
  - the car carousel (`CarDetails`) and the hero cycle (`Home`);
  - the register, login and profile forms (`RegisterPage`, `LoginPage`,
    `ProfilePage`, `ProfileField`).
- **Client stores** (`RentalSlice`, `ComplaintSlice`, `UserSlice`). Each
  action has one transition function whose contract also says what it
  leaves alone. Complaint requests need a stored token. The server's answer
  is a parameter.
- **The static car catalog** (`Catalog`), with its exact ids and prices.

JavaScript truthiness is modelled explicitly: `Filled` (a non-empty string),
`NonZero` and `NonZeroReal`. A missing, empty or zero request field is
therefore treated the way the source's `!x` tests treat it. Password hashing,
comparison and token signing are the three function-valued fields of
`UserController.Crypto`, so nothing is assumed about them. The one
assumption is stated as a precondition of `UserController.RegisterThenLogin`:
the comparison accepts a password against a hash made from it
(`CompareAcceptsOwnHash`).

Behaviours of the code worth knowing:
- Rental update and cancel do not check that the requester owns the rental
  (`RentalController.NoOwnerCheck`).
- Cancel does not look at the status, so a completed rental is cancelled
  too (`RentalController.CancelOverridesCompleted`).
- `totalCost` on create is taken from the client as it is.
- The window test is a strict `>`, so twelve hours exactly is still inside
  the window.
- Registration refuses a taken email; a profile update does not check, so
  two accounts can end up sharing an email
  (`UserController.UpdateBreaksEmailsDistinct`).
- Nothing refuses a taken username. A login by username therefore finds
  the oldest holder of that username
  (`RegisterPage.AutoLoginFindsFirstHolder`).

## Model

| member | source | states |
|---|---|---|
| TimeWindow.ExpiredIffPastTwelveHours | server-side/controllers/rentalController.js:38-40 | the real-valued hours test `> 12` holds exactly when more than 43 200 000 ms have passed, so exactly 12 h is still accepted |
| RentalSchema.StatusFromName | server-side/models/Rental.js:26-30 | a status string is accepted iff it is one of "active", "cancelled", "completed", and it maps back to the same name |
| RentalSchema.StatusNameRoundTrip | server-side/models/Rental.js:26-30 | every status survives being written as its name and read back |
| RentalSchema.Create | server-side/models/Rental.js:3-33 | a record is created iff user, carId, start, end and totalCost are all present and the status, if given, is in the enum; status defaults to active; both timestamps are the store's clock |
| RentalSchema.IndexOf | server-side/controllers/rentalController.js:35-36 | lookup by id finds a record with that id iff one exists, and under distinct ids it is the only one |
| RentalController.CreateRental | server-side/controllers/rentalController.js:6-25 | any falsy field (a zero car id or zero cost included) gives 400 before the user is checked; no user gives 401; otherwise 201 appends an active rental owned by the requester with the body's car, dates and cost unchanged, and ids stay distinct |
| RentalController.ApplyUpdate | server-side/controllers/rentalController.js:52-62 | supplied dates overwrite; the cost becomes (fractional days between the dates) × price only when both dates and a non-zero price are given, otherwise it is kept; owner, car, status and creation time are unchanged |
| RentalController.UpdateRental | server-side/controllers/rentalController.js:33-65 | unknown id gives 404; the window message iff more than 12 h have passed; the status message iff still in window and not active; success iff in window and active, replacing only that record; a refusal changes nothing |
| RentalController.CancelRental | server-side/controllers/rentalController.js:73-88 | unknown id gives 404; success iff within 12 h, whatever the status; success sets only the status to cancelled (and the update time) and answers the message "Rental cancelled" with the record; a refusal changes nothing |
| RentalController.GetUserRentals | server-side/controllers/rentalController.js:96-99 | the result holds only the requester's rentals, all of them, each taken from the store |
| RentalController.NoOwnerCheck | server-side/controllers/rentalController.js:33-93 | update and cancel give the same result whoever asks |
| RentalController.MutationsKeepIdsDistinct | server-side/controllers/rentalController.js:52-88 | update and cancel keep record ids distinct |
| RentalController.CreatedRentalUpdatableWithinWindow | server-side/controllers/rentalController.js:16-65 | a rental just created can be updated by anyone at any instant up to and including twelve hours later |
| RentalController.CancelledRentalNotUpdatable | server-side/controllers/rentalController.js:46-50 | after a cancel, an update inside the window is refused with "Only active rentals can be updated" |
| RentalController.CancelOverridesCompleted | server-side/controllers/rentalController.js:78-86 | a completed rental inside its window becomes cancelled |
| ContactController.CreateContact | server-side/controllers/contactController.js:6-18 | a missing or empty subject or message gives 400 and no change; otherwise 201 appends a pending complaint owned by the requester with the given subject and message |
| ContactController.SortNewestFirst | server-side/controllers/contactController.js:28 | the result is a permutation of the input ordered by creation time, newest first |
| ContactController.GetContacts | server-side/controllers/contactController.js:26-29 | exactly the requester's complaints (same multiset as the filter), newest first |
| ContactController.ApplyUpdate | server-side/controllers/contactController.js:47-52 | each of subject, message, status, priority is overwritten iff supplied; id, owner and creation time are kept |
| ContactController.Lookup | server-side/controllers/contactController.js:39-40 | the lookup finds a complaint matching both id and owner, and finds none iff none matches |
| ContactController.UpdateContact | server-side/controllers/contactController.js:37-55 | no owned match gives 404; a non-pending complaint gives 400 and no change; otherwise that complaint alone is replaced by the updated one |
| ContactController.DeleteContact | server-side/controllers/contactController.js:64-74 | same owner-scoped 404 and pending-only 400; on success exactly that complaint is removed |
| ContactController.ForeignComplaintLooksMissing | server-side/controllers/contactController.js:39-40 | another user's complaint gets the same 404 as a missing one, for update and delete |
| ContactController.LeavingPendingLocks | server-side/controllers/contactController.js:43-51 | an update that moves the status off pending makes every later update and delete fail with 400 |
| ContactController.DeleteRemovesOne | server-side/controllers/contactController.js:73 | a successful delete shrinks the store by one |
| UserController.FormatUserResponse | server-side/controllers/userController.js:15-26 | the response carries every public field of the account (id, username, names, email, phone number, address, gender, date of birth) and the token signed from id and email |
| UserController.ResponseIgnoresPassword | server-side/controllers/userController.js:15-26 | the response does not depend on the stored password |
| UserController.RegisterUser | server-side/controllers/userController.js:30-54 | an existing email gives 400 and no change; otherwise the account is appended with the password replaced by its hash, and emails stay distinct |
| UserController.LoginUser | server-side/controllers/userController.js:64-83 | every failure is the same 400 "Invalid credentials"; no matching account fails; for the first match by username or email, success iff the password compares equal, answering with that account |
| UserController.LoginFailuresIndistinguishable | server-side/controllers/userController.js:73-81 | an unknown user and a wrong password give identical replies |
| UserController.RegisterThenLogin | server-side/controllers/userController.js:30-83 | registering and then logging in by the same email and password succeeds as the new account |
| UserController.HashPassword | server-side/controllers/userController.js:101-105 | a truthy password is replaced by its hash; nothing else in the update changes |
| UserController.UpdateUser | server-side/controllers/userController.js:92-115 | another user's id gives 403 before any lookup; a missing account gives 404; otherwise only that account changes: each supplied field overwrites the stored one, a supplied password stored hashed, and each field not supplied is kept |
| UserController.ApplyUserUpdate | server-side/controllers/userController.js:107-111 | every field of the update that is present overwrites the account's, every absent one is kept, and the id never changes |
| UserController.UpdateBreaksEmailsDistinct | server-side/controllers/userController.js:101-111 | an update to another account's email succeeds, so two accounts with distinct emails end up sharing one |
| UserController.DeleteUser | server-side/controllers/userController.js:123-133 | another user's id gives 403 and no change; otherwise the account is removed and the reply is the same whether it existed or not |
| UserController.OwnerOnly | server-side/controllers/userController.js:97-99 | when requester and path id differ, update and delete both answer 403 and change nothing |
| Catalog.FindCarById | my-react-app/src/mockData.ts:337-341 | lookup returns a catalog car with that id, and nothing iff no car has it |
| Catalog.CatalogIds | my-react-app/src/mockData.ts:332-335 | the catalog is the seven electric cars followed by the seven mechanical cars, with ids 1 to 14 in order |
| Catalog.IdsDistinct | my-react-app/src/mockData.ts:73-330 | catalog ids are pairwise distinct |
| Catalog.FindCarByIdExactly | my-react-app/src/mockData.ts:337-341 | lookup succeeds exactly for ids 1 to 14 and returns the car at position id − 1 |
| Catalog.CatalogWellFormed | my-react-app/src/mockData.ts:73-330 | every car has a positive daily price and three images |
| Catalog.DiscriminatorClassifiesCatalog | my-react-app/src/mockData.ts:44-70 | the range test calls every electric entry electric and every mechanical entry not electric |
| Decimal.Show | my-react-app/src/Components/RentalDetails.tsx:35 | the rendering is all digits with no leading zero, one character iff the number is below 10 |
| Decimal.ParseShow | my-react-app/src/Components/RentalDetails.tsx:35 | reading the rendering back gives the number |
| Decimal.PadTwo | my-react-app/src/Components/RentalDetails.tsx:35 | padding gives at least two digits, exactly two below 100, and reads back as the number |
| RentalDetails.Split | my-react-app/src/Components/RentalDetails.tsx:39-43 | hours < 24, minutes < 60, seconds < 60, and days·86400 + hours·3600 + minutes·60 + seconds equals the total |
| RentalDetails.MsToHms | my-react-app/src/Components/RentalDetails.tsx:37-49 | "00:00:00" for every ms ≤ 0; eight characters under one day; a "d " prefix from one day on |
| RentalDetails.HmsRoundTrip | my-react-app/src/Components/RentalDetails.tsx:37-49 | reading the rendering back gives the whole seconds left (0 when none), so only milliseconds are lost |
| RentalDetails.Countdown | my-react-app/src/Components/RentalDetails.tsx:113-123 | no countdown without a rental; remaining plus elapsed is 12 h, elapsed from createdAt or else startDate; positive iff still before the twelve-hour mark |
| RentalDetails.CanCancel | my-react-app/src/Components/RentalDetails.tsx:133-137 | enabled iff a rental is loaded, its status is "active" and the countdown is present and positive |
| RentalDetails.CancelProgress | my-react-app/src/Components/RentalDetails.tsx:140-151 | always in [0, 100]; 100 iff at least 12 h have passed; 0 iff no time has passed |
| RentalDetails.MarkCancelled | my-react-app/src/Components/RentalDetails.tsx:163 | only the status changes, to "cancelled" |
| RentalDetails.CancelledCannotCancelAgain | my-react-app/src/Components/RentalDetails.tsx:133-137 | after the local cancel the button is disabled at any time |
| RentalDetails.ClientGateImpliesServerAccepts | my-react-app/src/Components/RentalDetails.tsx:133-137 | whenever the page enables cancel for a fetched rental, the server's cancel succeeds at the same instant |
| RentalDetails.ClientStricterAtBoundary | my-react-app/src/Components/RentalDetails.tsx:118-137 | exactly twelve hours after creation the page disables cancel while the server still accepts |
| ClientRentals.FromServer | my-react-app/src/Components/RentalDetails.tsx:14-22 | the client copy keeps the id and creation time, and its status text reads back as the stored status ("active" iff active) |
| Checkout.CeilDays | my-react-app/src/Components/CheckoutPage.tsx:88 | the smallest whole number of days covering the span |
| Checkout.RentalDuration | my-react-app/src/Components/CheckoutPage.tsx:83-90 | 0 when either date is empty; otherwise the least number of days covering the distance between the dates |
| Checkout.DurationSymmetric | my-react-app/src/Components/CheckoutPage.tsx:87 | swapping the dates keeps the duration |
| Checkout.CalendarDuration | my-react-app/src/Components/CheckoutPage.tsx:83-90 | two calendar dates p and q are exactly abs(q − p) days apart |
| Checkout.TotalPrice | my-react-app/src/Components/CheckoutPage.tsx:93 | 0 without a car or with no days; for a car with a positive price, positive iff the duration is |
| Checkout.HandleSubmit | my-react-app/src/Components/CheckoutPage.tsx:96-108 | nothing is posted without car or user; otherwise the booking carries the car id, the user id, both dates unchanged, status "active" and the shown price |
| Checkout.ToCreateBody | my-react-app/src/Components/CheckoutPage.tsx:101-108 | the server reads the booking's car, dates and cost unchanged |
| Checkout.BookingAccepted | my-react-app/src/Components/CheckoutPage.tsx:96-115 | booking any catalog car over two different calendar dates is accepted by the server, which stores price × days as the total |
| Checkout.SameDayBookingRefused | my-react-app/src/Components/CheckoutPage.tsx:87-106 | returning on the pickup date prices the booking at 0, which the server refuses with 400 "All fields are required" |
| Dashboard.ActiveCount | my-react-app/src/Pages/Dashboard.tsx:66 | the number of rentals whose status is "active"; 0 iff there are none |
| Dashboard.CompletedCount | my-react-app/src/Pages/Dashboard.tsx:67 | the number of rentals whose status is "completed"; 0 iff there are none |
| Dashboard.StatusPartition | my-react-app/src/Pages/Dashboard.tsx:66-67 | active, completed and all other statuses partition the rentals |
| Dashboard.CountsWithinTotal | my-react-app/src/Pages/Dashboard.tsx:66-80 | the two figures add up to the displayed total minus the rentals in neither state, so never exceed it |
| Dashboard.CancelledCountsInNeither | my-react-app/src/Pages/Dashboard.tsx:66-67 | adding a cancelled rental changes neither figure |
| RentalSlice.Reset | my-react-app/src/redux/rentalSlice.ts:114-118 | the result is the initial state: empty list, not loading, no error |
| RentalSlice.Pending | my-react-app/src/redux/rentalSlice.ts:123-138 | loading is set; list and error are unchanged |
| RentalSlice.CreateFulfilled | my-react-app/src/redux/rentalSlice.ts:126-129 | the payload is appended; the existing rentals are unchanged; loading is cleared |
| RentalSlice.LoadRejected | my-react-app/src/redux/rentalSlice.ts:130-146 | loading is cleared, the error set, the list unchanged |
| RentalSlice.FetchFulfilled | my-react-app/src/redux/rentalSlice.ts:139-142 | the list becomes the payload; the error is unchanged |
| RentalSlice.ReplaceById | my-react-app/src/redux/rentalSlice.ts:151-152 | same length; no matching id leaves the list unchanged; only the first rental with the payload's id becomes the payload; every other position, later duplicates included, stays |
| RentalSlice.ReplaceKeepsIds | my-react-app/src/redux/rentalSlice.ts:151-162 | every position keeps its id |
| RentalSlice.ChangeFulfilled | my-react-app/src/redux/rentalSlice.ts:149-163 | loading is cleared and the list is replaced by id; the error is unchanged |
| RentalSlice.ChangeRejected | my-react-app/src/redux/rentalSlice.ts:154-166 | only the error is set; loading and list are unchanged |
| RentalSlice.FailedFetchKeepsList | my-react-app/src/redux/rentalSlice.ts:136-146 | a fetch that fails ends not loading and keeps the list that was shown |
| RentalSlice.UpdateAfterFetch | my-react-app/src/redux/rentalSlice.ts:139-153 | after a fetch with distinct ids, an update replaces exactly the rental with its id |
| ComplaintSlice.AuthHeader | my-react-app/src/redux/complaintSlice.ts:35-45 | a credential exists iff a non-empty token is stored, and it is "Bearer " + token |
| ComplaintSlice.Run | my-react-app/src/redux/complaintSlice.ts:48-116 | without a token nothing is sent and the action fails with its fallback text; otherwise the server's data is fulfilled (with a refresh for update and delete), or its message, else the fallback, is the rejection |
| ComplaintSlice.NoTokenNoRequest | my-react-app/src/redux/complaintSlice.ts:35-116 | with no stored token none of the four requests is sent, whatever the server would answer, and each fails with its own fallback message |
| ComplaintSlice.ResetStatus | my-react-app/src/redux/complaintSlice.ts:122-126 | flags cleared, list kept |
| ComplaintSlice.ClearComplaints | my-react-app/src/redux/complaintSlice.ts:127-129 | list emptied, flags kept |
| ComplaintSlice.SubmitPending | my-react-app/src/redux/complaintSlice.ts:134-138 | loading set, error and success cleared, list kept |
| ComplaintSlice.SubmitFulfilled | my-react-app/src/redux/complaintSlice.ts:139-143 | the complaint is appended and success set |
| ComplaintSlice.FetchPending | my-react-app/src/redux/complaintSlice.ts:150-153 | loading set, error cleared, success and list kept |
| ComplaintSlice.FetchFulfilled | my-react-app/src/redux/complaintSlice.ts:154-157 | the list becomes the payload; flags other than loading kept |
| ComplaintSlice.ChangePending | my-react-app/src/redux/complaintSlice.ts:164-181 | loading set, success cleared, error and list kept |
| ComplaintSlice.ChangeFulfilled | my-react-app/src/redux/complaintSlice.ts:168-185 | only the flags move; the list is untouched |
| ComplaintSlice.RejectedCase | my-react-app/src/redux/complaintSlice.ts:144-189 | loading cleared, error set to the payload, list and success kept |
| ComplaintSlice.DispatchSubmit | my-react-app/src/redux/complaintSlice.ts:48-61 | a submit ends in success iff a token is stored and the server answers, and then the list gained exactly that complaint; otherwise the list is unchanged and an error is shown |
| ComplaintSlice.DispatchDelete | my-react-app/src/redux/complaintSlice.ts:101-116 | without a token the delete fails with its fallback and nothing else moves; when delete and refresh both succeed the list is the refreshed one |
| UserSlice.ResetAuthStatus | my-react-app/src/redux/userSlice.ts:107-112 | flags and message cleared; the user stays |
| UserSlice.Pending | my-react-app/src/redux/userSlice.ts:116-181 | loading set; nothing else changes |
| UserSlice.Fulfilled | my-react-app/src/redux/userSlice.ts:119-171 | the payload becomes the user, success set, error cleared, the case's message shown |
| UserSlice.RejectedCase | my-react-app/src/redux/userSlice.ts:130-195 | loading and success cleared, error set; user and message kept |
| UserSlice.DeleteFulfilled | my-react-app/src/redux/userSlice.ts:182-190 | the user is signed out with success and "Account deleted successfully!" |
| UserSlice.LogoutFulfilled | my-react-app/src/redux/userSlice.ts:198-204 | every field is back at its initial value |
| UserSlice.LogoutIsInitial | my-react-app/src/redux/userSlice.ts:95-101 | the state after logout equals the initial state, from any state |
| UserSlice.Logout | my-react-app/src/redux/userSlice.ts:78-83 | the session returns to its initial state and the complaint list is emptied with the complaint flags kept |
| UserSlice.NavigateOnceAfterLogin | my-react-app/src/Pages/Login.tsx:30-35 | a successful login moves the page on; the reset that follows keeps the user and stops a second move |
| UserSlice.NoNavigateWithoutUser | my-react-app/src/Pages/Login.tsx:31 | a failed request, a delete or a logout never moves the page on |
| UserTypes.FromResponse | my-react-app/src/redux/userTypes.ts:6-17 | the client copy of a server reply keeps id, token and email and has no creation time |
| LoginPage.LoginRequest | my-react-app/src/Pages/Login.tsx:18-27 | an identifier with "@" is sent as the email only, any other as the username only; the password is sent unchanged |
| LoginPage.RoutedLookup | my-react-app/src/Pages/Login.tsx:22-26 | the server matches an account by email iff the identifier has "@", else by username |
| LoginPage.AtSignUsernameUnreachable | my-react-app/src/Pages/Login.tsx:22-23 | an identifier containing "@" that is no account's email is refused, even if it is someone's username |
| RegisterPage.HandleNext | my-react-app/src/Pages/Register.tsx:26-31 | stays put iff on step 1 with first name, last name, email or password empty; otherwise one step forward; entries unchanged |
| RegisterPage.HandlePrevious | my-react-app/src/Pages/Register.tsx:33-35 | one step back; entries unchanged |
| RegisterPage.HandleSubmit | my-react-app/src/Pages/Register.tsx:37-56 | nothing is sent iff on step 2 with dob, phone, address or gender empty; otherwise all nine fields go out unchanged |
| RegisterPage.StartIsStuck | my-react-app/src/Pages/Register.tsx:8-31 | the empty form starts on step 1 and cannot leave it |
| RegisterPage.NextThenPrevious | my-react-app/src/Pages/Register.tsx:26-35 | forward then back from a complete step 1 restores the form exactly |
| RegisterPage.SubmitFromStepOneUnguarded | my-react-app/src/Pages/Register.tsx:39-41 | a submit from step 1 is always sent |
| RegisterPage.AutoLoginFindsFirstHolder | my-react-app/src/Pages/Register.tsx:58-66 | the automatic sign-in after registering looks up the oldest account with the same username, not necessarily the new one |
| ProfilePage.FormatDate | my-react-app/src/Pages/Profile.tsx:24-37 | "N/A" for an absent or empty date, the localized rendering otherwise |
| ProfilePage.MemberSinceUnknown | my-react-app/src/Pages/Profile.tsx:172 | a profile built from a server reply always shows "Member Since: N/A" |
| ProfilePage.UserInitials | my-react-app/src/Pages/Profile.tsx:142-145 | one or two letters: both name initials when both names are non-empty, else the username's first letter, else "NA" |
| ProfilePage.TextOrEmpty | my-react-app/src/Pages/Profile.tsx:51-57 | a non-empty field's text, else "" |
| ProfilePage.InitialForm | my-react-app/src/Pages/Profile.tsx:50-58 | exactly the seven fields, each the user's value or "" |
| ProfilePage.HandleChange | my-react-app/src/Pages/Profile.tsx:83-91 | the named field takes the value; every other field is kept |
| ProfilePage.HandleSave | my-react-app/src/Pages/Profile.tsx:93-105 | sent iff the user has an id and a token exists (the user's, else the stored one); the whole form is the update |
| ProfilePage.ToUserUpdate | my-react-app/src/Pages/Profile.tsx:97-103 | each of the nine update fields is the form's entry under that name, and a name not in the form is a field not sent |
| ProfilePage.SaveWritesForm | my-react-app/src/Pages/Profile.tsx:93-105 | saving the seven-field form succeeds and stores each field as typed, keeping the username and password |
| ProfilePage.SaveKeepsPassword | my-react-app/src/Pages/Profile.tsx:93-105 | saving a form without a password field succeeds and keeps the stored password hash |
| ProfilePage.EditsNeverAddPassword | my-react-app/src/Pages/Profile.tsx:83-91 | edits through fields other than "password" never add one to the form |
| ProfilePage.EditKeys | my-react-app/src/Pages/Profile.tsx:83-91 | a run of edits adds exactly the edited names to the form's fields |
| ProfileField.EffectiveType | my-react-app/src/Components/ProfileField.tsx:24 | the given type, else text |
| ProfileField.ShouldRenderInput | my-react-app/src/Components/ProfileField.tsx:26-33 | an input iff editing and not explicitly read-only |
| ProfileField.DisplayValue | my-react-app/src/Components/ProfileField.tsx:82-93 | a checkbox shows "Enabled" iff truthy, else "Disabled"; otherwise a truthy value is shown as it is and a falsy one as "N/A" |
| ProfileField.DateBranchRedundant | my-react-app/src/Components/ProfileField.tsx:87-92 | a date field, or one with no type, displays exactly what a text field would |
| ProfileField.DisplayNeverBlank | my-react-app/src/Components/ProfileField.tsx:82-93 | the display is never empty text |
| CarDetails.CarForRoute | my-react-app/src/Components/CarDetails.tsx:54-55 | no car without a route id; otherwise the catalog lookup |
| CarDetails.NextImage | my-react-app/src/Components/CarDetails.tsx:93-95 | stays in range, moves up by one, wraps from the last image to 0 |
| CarDetails.PreviousImage | my-react-app/src/Components/CarDetails.tsx:97-101 | stays in range, moves down by one, wraps from 0 to the last image |
| CarDetails.NextPreviousInverse | my-react-app/src/Components/CarDetails.tsx:93-101 | next then previous, and previous then next, return to the same image |
| CarDetails.PressesStayInRange | my-react-app/src/Components/CarDetails.tsx:93-101 | after any run of presses from image 0 the index is in range and equals the net number of forward presses less whole laps |
| CarDetails.CatalogPagesAutoAdvance | my-react-app/src/Components/CarDetails.tsx:59-69 | the timer runs on the page of every catalog car |
| CarDetails.UnknownCarNoTimer | my-react-app/src/Components/CarDetails.tsx:59-62 | an unknown id has no car and no timer |
| Home.HeroStep | my-react-app/src/Pages/Home.tsx:18-20 | a slide in {0, 1, 2} steps to the next one modulo 3 |
| Home.HeroAfterIsMod | my-react-app/src/Pages/Home.tsx:13-24 | from 0, after any number of ticks the counter is that number modulo 3, so it always names a slide |
| Home.ThreeTicksReturn | my-react-app/src/Pages/Home.tsx:19 | three ticks return every slide to itself |

## Left out

- HTTP, Express routing, axios and the auth middleware are not modelled. The
  requester is an input, and a server answer seen by the client is a
  parameter.
- Mongoose persistence is reduced to sequence operations: `find`, `save`,
  `create` and `findByIdAndUpdate`. Fresh ids are inputs. Driver errors (the
  500 replies) are not modelled.
- `server-side/models/Contact.js` and `server-side/models/User.js` are not
  part of this model. The status "pending" of a new complaint is taken from
  the controller's own checks. Schema validation of users and complaints is
  not modelled.
- Hashing, comparison and token signing (bcrypt, jsonwebtoken) are
  uninterpreted function parameters. The token's one-hour expiry and the
  random salt are not modelled.
- Timers and React effects are not modelled: the countdown tick, the
  carousel and hero intervals, toast timeouts and the profile's three-second
  status reset. Each page rule is a function of the state and the clock at
  one instant.
- `localStorage` is reduced to an optional stored token.
- Date parsing and locale formatting are reduced to two things: timestamps
  are integer milliseconds, and `toLocaleDateString` is a function parameter
  of `ProfilePage.FormatDate`.
- Floating point is modelled with exact `real` arithmetic, in
  `cancelProgress` and in the recomputed rental cost. NaN (from an
  unparsable date) is not modelled.
- UserController.UpdateUser: the `runValidators` checks are not modelled.
- RentalController.UpdateRental and RentalController.CancelRental:
  updatedAt is stamped with the clock, and no other timestamp behaviour of
  `save` is modelled.
- UserController.LoginUser: an identifier that was not sent matches no
  account. The `$or` query with an undefined field is treated as matching
  nothing for that field.
- Car descriptions and feature lists are display text and are not carried
  in `Catalog.Car`.
- The client cancels through DELETE `/rentals/:id`, which the server routes
  do not serve (they expect PUT `/rentals/:id/cancel`). Likewise the client
  fetches GET `/rentals/myrentals`, while the server serves the requester's
  rentals at GET `/rentals`, so `RentalSlice.FetchFulfilled` and
  `RentalSlice.UpdateAfterFetch` describe an answer this server does not
  give at that path. This is transport and is not modelled. `RentalSlice` models the reducers' handling of whatever
  answer arrives.
- The pure-markup components are not modelled: categories, about, footer,
  navbar, hero background, info section, the car lists, the complaint pages
  and the card grid.
- Page navigation itself is not modelled; `UserSlice.ShouldNavigate` is
  only the guard that triggers it.
