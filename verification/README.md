# cabBuddy front-end forms, modelled in Dafny

cabBuddy is a ride-sharing web client. This project models the logic of
four of its React screens:

- **Publish a ride** (`AddRide.jsx`, module `AddRide`, class `RideForm`).
  - The price filter applied on each keystroke.
  - The arrival time derived from the departure time plus three hours.
  - The seat clamp.
  - The ordered publish checks with their messages, and the payload they build.
  - The form reset after a successful publish.
- **Sign up** (`signup.jsx`, module `Signup`, class `SignupForm`).
  - The error map built on submit.
  - The entries cleared while typing.
  - The register request.
- **Profile** (`Profile.jsx`, module `Profile`, class `ProfilePage`).
  - The driver role test.
  - The verification flags and their merge with flags passed through navigation.
  - The edit / cancel / save cycle.
  - Loading the driver's own rides.
  - The ride status badge.
- **Vehicle manager** (`Vehicle.jsx`, module `Vehicles`, class `VehicleManager`).
  - Add versus update, keyed on `editingId`.
  - The form reset.
  - Loading the vehicle list.
  - Removal by id.

Module `JsText` holds the JavaScript built-ins that these screens rely on:
`trim`, ASCII `toLowerCase`/`toUpperCase`, `split` on one character,
`join`, `parseInt`, `parseFloat` (exact, with no floating point), `String(n)`
and `padStart(2, "0")`.

Each React state hook becomes a field of a class. Each handler becomes a
method whose `ensures` gives the whole new state, through a `Draft()` or
`State()` snapshot. A request to the back end becomes an outcome parameter
(success or failure, plus the data it returns). Storage reads become
constructor parameters.

Three behaviours of the code that a reader may not expect; the model
follows the code:

- The arrival falls back to "13:00" only when the departure is not a
  string. A departure that does not parse gives "NaN:NaN".
- Merging verification flags can clear a flag: a later `false` overrides
  an earlier `true`.
- The password-length message is never displayed (see Findings).

## Model

| member | source | states |
|---|---|---|
| AddRide.ArrivalMinuteIsThreeHoursLater | cabBuddy/src/pages/AddRide.jsx:52-56 | setting the clock to h:m and then adding three hours lands on minute (60h+m+180) mod 1440 of the day, for any integer fields, negative ones included, within the range a Date can hold |
| AddRide.DepartureParts | cabBuddy/src/pages/AddRide.jsx:51-53 | the hour and minute are `parseInt` of the first two pieces of the split on ":", present exactly when both parse; a departure without ":" has no minute and reads as NaN |
| AddRide.CalculateArrivalTime | cabBuddy/src/pages/AddRide.jsx:49-64 | "13:00" for a value that is not a string; "NaN:NaN" for a string whose hour or minute does not parse; otherwise a well-formed "HH:MM" text (its minute is given by ArrivalTimeMeaning) |
| AddRide.ArrivalTimeMeaning | cabBuddy/src/pages/AddRide.jsx:49-64 | a parseable departure gives a well-formed "HH:MM" text whose minute of the day is three hours after the departure, wrapping past midnight |
| AddRide.ArrivalOfMalformed | cabBuddy/src/pages/AddRide.jsx:51-53 | a departure string without two parseable fields gives "NaN:NaN", not the "13:00" fallback |
| AddRide.ClockTextRoundTrip | cabBuddy/src/pages/AddRide.jsx:58-60 | the HH:MM text of any minute of the day parses back to that hour and minute |
| AddRide.ClockTextShape | cabBuddy/src/pages/AddRide.jsx:58-60 | the HH:MM text is five characters, two-digit fields, and denotes the minute it was made from |
| AddRide.ArrivalOfClockText | cabBuddy/src/pages/AddRide.jsx:49-64 | applied to an arrival text, the calculation adds three more hours modulo a day |
| AddRide.ArrivalOfArrival | cabBuddy/src/pages/AddRide.jsx:49-64 | applying the calculation twice gives six hours after the departure |
| AddRide.ArrivalTextOf | cabBuddy/src/pages/AddRide.jsx:49-64 | a departure that parses to (h, m) gives the clock text of minute (60h+m+180) mod 1440 |
| AddRide.LateDepartureWrapsPastMidnight | cabBuddy/src/pages/AddRide.jsx:56-60 | "22:30" gives "01:30" |
| AddRide.DefaultArrival | cabBuddy/src/pages/AddRide.jsx:20-21 | the default departure "10:00" gives the default arrival "13:00" |
| AddRide.PricePattern | cabBuddy/src/pages/AddRide.jsx:38 | every digit string matches; a match holds only digits and points, with at most one point and at most two digits after it |
| AddRide.PricePatternMeaning | cabBuddy/src/pages/AddRide.jsx:38 | both directions: a text matches exactly when it is all digits, or digits, one point and at most two digits |
| AddRide.PriceAfterInput | cabBuddy/src/pages/AddRide.jsx:30-46 | empty input clears the price; a non-pattern text keeps the old price; an in-range value is taken; a value below 1 becomes "1"; a value above 5000 or NaN keeps the old price; a valid price stays valid |
| AddRide.LonePointKeepsPrice | cabBuddy/src/pages/AddRide.jsx:38-45 | "." passes the pattern but parses to NaN, so the price is unchanged |
| AddRide.PriceStaysInRange | cabBuddy/src/pages/AddRide.jsx:30-46 | after any sequence of keystrokes from a valid price, the field is empty or a pattern text with value in [1, 5000] |
| AddRide.PatternValue | cabBuddy/src/pages/AddRide.jsx:38-39 | every non-empty pattern text other than "." parses to a finite non-negative number with at most two decimals |
| AddRide.SeatsFromInput | cabBuddy/src/pages/AddRide.jsx:360-363 | the seat count is always in 1..8: NaN and 0 give 1, values above 8 give 8, negative values give 1, others are kept |
| AddRide.Passes | cabBuddy/src/pages/AddRide.jsx:101-135 | the six checks; a passed price check means the price parses to a non-negative number; passed place checks mean non-empty fields; a passed route check means the trimmed names differ |
| AddRide.Message | cabBuddy/src/pages/AddRide.jsx:101-135 | the non-empty toast text of each check, shown when that check rejects the draft |
| AddRide.MessageIdentifiesError | cabBuddy/src/pages/AddRide.jsx:101-135 | two checks share a toast only when they are the same check |
| AddRide.ValidatePublish | cabBuddy/src/pages/AddRide.jsx:100-152 | a rejection names a failing check and every earlier check passes; success holds exactly when all six checks pass, and then the payload carries the trimmed places, the date, the formatted times, the seats, the parsed price and the driver id |
| AddRide.FirstFailure | cabBuddy/src/pages/AddRide.jsx:101-135 | the checks run in order and the first failing one is reported; none is reported only when all pass |
| AddRide.FirstFailureFrom | cabBuddy/src/pages/AddRide.jsx:101-135 | from check k on, the result is the first failing check at or after k, or none when all of them pass |
| AddRide.CheckOfRank | cabBuddy/src/pages/AddRide.jsx:101-135 | each position in the check order names exactly one check |
| AddRide.CaseOnlyDifferenceIsSameRoute | cabBuddy/src/pages/AddRide.jsx:117-120 | a destination that is the source lower-cased is rejected as the same route |
| AddRide.SameRouteFailsFirst | cabBuddy/src/pages/AddRide.jsx:101-120 | with price, source and destination present, two places equal up to case and blanks are reported as the same route |
| AddRide.LowerCasedIsSamePlace | cabBuddy/src/pages/AddRide.jsx:117 | a place and its trimmed, lower-cased name compare equal |
| AddRide.TrimToLower | cabBuddy/src/pages/AddRide.jsx:117 | trimming and lower-casing commute |
| AddRide.NoUpperPriceBound | cabBuddy/src/pages/AddRide.jsx:101-105 | the publish check accepts a price of 6000, above the input filter's bound |
| AddRide.EnabledDraftPassesPriceAndSeats | cabBuddy/src/pages/AddRide.jsx:436 | once the button is enabled, with the price and seats kept by the field filters, only the source, destination, route and date checks can fail |
| AddRide.FormatTime | cabBuddy/src/pages/AddRide.jsx:138-141 | the result splits on ":" into three pieces: the input's hour piece, a non-empty minute piece (the input's when it has one, "00" otherwise), and "00" |
| AddRide.FormatTimeIdempotent | cabBuddy/src/pages/AddRide.jsx:138-141 | formatting a formatted time changes nothing |
| AddRide.FormatTimeOfClock | cabBuddy/src/pages/AddRide.jsx:138-141 | an HH:MM text gets ":00" appended |
| AddRide.FormatTimeOfSplit | cabBuddy/src/pages/AddRide.jsx:138-141 | a time with exactly two pieces and a non-empty minute gets ":00" appended |
| AddRide.FormatTimeWithoutMinutes | cabBuddy/src/pages/AddRide.jsx:140 | a time without a colon gets ":00:00" |
| AddRide.RideForm.constructor | cabBuddy/src/pages/AddRide.jsx:19-27 | empty places, 2 seats, empty price, departure "10:00", arrival "13:00" and driver 1; the first run of the effect at lines 67-69 derives that same arrival (DefaultArrival) |
| AddRide.RideForm.SetDepartureTime | cabBuddy/src/pages/AddRide.jsx:67-69 | a changed departure re-derives the arrival; an unchanged one leaves it; the other fields stay |
| AddRide.RideForm.SetArrivalTime | cabBuddy/src/pages/AddRide.jsx:335-339 | only the arrival changes, and it stands until the departure next changes |
| AddRide.RideForm.SetFromCity | cabBuddy/src/pages/AddRide.jsx:235-236 | only the source changes |
| AddRide.RideForm.SetToCity | cabBuddy/src/pages/AddRide.jsx:263-264 | only the destination changes |
| AddRide.RideForm.SelectDate | cabBuddy/src/pages/AddRide.jsx:305 | an empty selection is ignored; otherwise only the date changes |
| AddRide.RideForm.SwapLocations | cabBuddy/src/pages/AddRide.jsx:194-198 | source and destination are exchanged and nothing else changes |
| AddRide.RideForm.HandlePriceChange | cabBuddy/src/pages/AddRide.jsx:30-46 | only the price changes, as the price filter says, and the class invariant (price valid, seats in range) is kept |
| AddRide.RideForm.HandleSeatsChange | cabBuddy/src/pages/AddRide.jsx:360-363 | only the seat count changes, to the clamped value |
| AddRide.RideForm.ResetFields | cabBuddy/src/pages/AddRide.jsx:161-168 | today, "10:00", "13:00", empty places, 2 seats and an empty price |
| AddRide.RideForm.CanSubmit | cabBuddy/src/pages/AddRide.jsx:436 | the Publish button is enabled only when no publish is running and the source, destination and price are non-empty |
| AddRide.RideForm.EnabledFormPassesPriceAndSeats | cabBuddy/src/pages/AddRide.jsx:436 | once the button is enabled on a valid form, the price and seat checks pass, and a rejection can only be for the places, the route or the date |
| AddRide.RideForm.Publish | cabBuddy/src/pages/AddRide.jsx:100-192 | a rejected draft yields the failing check with its toast text and keeps the form; a created ride yields the payload and resets the form; a failed request yields the payload and keeps the form; loading ends on every path |
| AddRide.RideForm.Submit | cabBuddy/src/pages/AddRide.jsx:156-191 | given the result of the checks, the same three outcomes (a rejection with its toast text) and resulting states |
| Signup.IsIndianMobile | cabBuddy/src/pages/signup.jsx:44 | `^[6-9]\d{9}$` holds exactly for ten ASCII digits whose first is 6 to 9 |
| Signup.PhoneError | cabBuddy/src/pages/signup.jsx:40-46 | "Phone required" exactly for empty input, the length message exactly for a non-empty text of another length, the Indian-number message exactly for ten characters failing `^[6-9]\d{9}$`, and no message exactly for a valid number |
| Signup.FieldError | cabBuddy/src/pages/signup.jsx:30-54 | every message is non-empty, and the phone key gets the phone rule's message |
| Signup.SignupErrors | cabBuddy/src/pages/signup.jsx:30-54 | the map has an entry for exactly the keys whose check fails, holding that check's message |
| Signup.BuildErrors | cabBuddy/src/pages/signup.jsx:30-54 | the error object built by the sequence of ifs equals the declarative error map |
| Signup.RequiredFieldErrors | cabBuddy/src/pages/signup.jsx:30-38 | after the first four ifs the map agrees with the declarative one on name, email and role and has no other entry |
| Signup.NameAndRoleEntries | cabBuddy/src/pages/signup.jsx:32-34 | a name or role entry exists exactly when that field is empty |
| Signup.EmailEntry | cabBuddy/src/pages/signup.jsx:33-38 | an empty email gets "Email required", one without "@" gets "Enter a valid email", and there is no entry exactly when it contains "@" |
| Signup.PhoneEntry | cabBuddy/src/pages/signup.jsx:40-46 | a phone entry exists exactly when the number is not a valid Indian mobile, and holds the phone message |
| Signup.EmptyPasswordHasNoLengthEntry | cabBuddy/src/pages/signup.jsx:48-50 | an empty password gets no length error |
| Signup.PasswordMatchEntry | cabBuddy/src/pages/signup.jsx:52-54 | the match entry exists exactly when the two passwords differ |
| Signup.NoErrorsIffAllPass | cabBuddy/src/pages/signup.jsx:56-59 | the form is accepted exactly when name and role are given, the email has "@", the phone is valid, the password is empty or at least 8 long, and the passwords match |
| Signup.ValidMobile | cabBuddy/src/pages/signup.jsx:44 | "9876543210" passes the phone checks |
| Signup.ShortMobile | cabBuddy/src/pages/signup.jsx:42-43 | "98765432" gets the length message |
| Signup.MobileWithWrongLeadingDigit | cabBuddy/src/pages/signup.jsx:44-45 | "1234567890" gets the Indian-number message |
| Signup.ShownErrors | cabBuddy/src/pages/signup.jsx:105-185 | only entries of the map are shown, and never one holding ""; every non-empty entry is shown except the password-length one, which is never shown |
| Signup.ShortPasswordRefusedSilently | cabBuddy/src/pages/signup.jsx:48-59 | a draft whose only fault is the password "secret" is refused, yet no message is shown |
| Signup.ShownErrorsWithPassword | cabBuddy/src/pages/signup.jsx:105-185 | with a place for the password-length entry, exactly the non-empty entries of the map are shown |
| Signup.RefusalAlwaysShown | cabBuddy/src/pages/signup.jsx:56-59 | once the password entry is displayed, every refused draft shows at least one message |
| Signup.SignupForm.constructor | cabBuddy/src/pages/signup.jsx:16-24 | six empty fields and an empty error map |
| Signup.SignupForm.HandleSignup | cabBuddy/src/pages/signup.jsx:27-80 | a refused draft replaces the error map and sends nothing; an accepted one keeps the error map and sends the name, email, password, phone and role; the fields never change |
| Signup.SignupForm.SetFullname | cabBuddy/src/pages/signup.jsx:99-102 | only the name changes, and its error entry becomes "" |
| Signup.SignupForm.SetEmail | cabBuddy/src/pages/signup.jsx:114-117 | only the email changes, and its error entry becomes "" |
| Signup.SignupForm.SetPhone | cabBuddy/src/pages/signup.jsx:129-132 | only the phone changes, and its error entry becomes "" |
| Signup.SignupForm.SetRole | cabBuddy/src/pages/signup.jsx:142-145 | only the role changes, and its error entry becomes "" |
| Signup.SignupForm.SetPassword | cabBuddy/src/pages/signup.jsx:163-166 | only the password changes, and the match entry becomes "" |
| Signup.SignupForm.SetConfirmPassword | cabBuddy/src/pages/signup.jsx:175-178 | only the confirmation changes, and the match entry becomes "" |
| Signup.ClearingOneEntry | cabBuddy/src/pages/signup.jsx:101 | clearing one entry keeps every other entry and hides exactly that message |
| Profile.IsRoleDriver | cabBuddy/src/pages/Profile.jsx:403-409 | a missing login blob or role is not the driver role; a driver role is a six-letter text (its case-insensitivity is DriverRoleIgnoresCase) |
| Profile.ShouldFetchRides | cabBuddy/src/pages/Profile.jsx:490-494 | the rides are fetched exactly when the section is "rides" and the user is a driver |
| Profile.DriverRoleIgnoresCase | cabBuddy/src/pages/Profile.jsx:408-409 | the role is the driver role exactly when it lower-cases to "driver" |
| Profile.InitialVerified | cabBuddy/src/pages/Profile.jsx:434-439 | the saved flags when there are some, otherwise exactly the four flags phone, email, govtId and drivingLicense, all false |
| Profile.Merge | cabBuddy/src/pages/Profile.jsx:472-475 | the keys of both maps; the update's value wherever it has one; the previous value elsewhere |
| Profile.MergeIdempotent | cabBuddy/src/pages/Profile.jsx:468-485 | merging the same update twice is merging it once |
| Profile.MergeTwice | cabBuddy/src/pages/Profile.jsx:468-485 | two merges in a row equal one merge of the combined update |
| Profile.FalseUpdateClearsFlag | cabBuddy/src/pages/Profile.jsx:472-475 | an update carrying false clears a flag that was set |
| Profile.PhoneThenEmail | cabBuddy/src/pages/Profile.jsx:434-485 | verifying the phone and then the email in a fresh session sets exactly those two of the four flags |
| Profile.BadgeClass | cabBuddy/src/pages/Profile.jsx:519-530 | the class of the lower-cased status for the four known statuses; gray for a missing or unknown status |
| Profile.BadgeLabel | cabBuddy/src/pages/Profile.jsx:532 | the status itself, or "unknown" for a missing or empty status |
| Profile.BadgeIgnoresCase | cabBuddy/src/pages/Profile.jsx:529 | two statuses equal up to case get the same badge |
| Profile.BadgeColours | cabBuddy/src/pages/Profile.jsx:520-530 | every badge is one of the four colours or gray |
| Profile.ActiveInCapitals | cabBuddy/src/pages/Profile.jsx:521-529 | "ACTIVE" gets the green badge |
| Profile.FormOf | cabBuddy/src/pages/Profile.jsx:453-456 | the edit form holds exactly the profile's name and phone |
| Profile.ProfilePage.constructor | cabBuddy/src/pages/Profile.jsx:395-439 | the overview section, no profile, not editing, an empty name/phone form, the initial verified flags, no rides and no error; the driver flag from the upper-cased role |
| Profile.ProfilePage.LoadUserProfile | cabBuddy/src/pages/Profile.jsx:446-463 | a loaded profile is stored and fills the edit form; a failure changes nothing |
| Profile.ProfilePage.OnNavigate | cabBuddy/src/pages/Profile.jsx:468-485 | flags passed through navigation are merged over the current ones; without them nothing changes |
| Profile.ProfilePage.HandleInputChange | cabBuddy/src/pages/Profile.jsx:545-548 | only the named form field changes |
| Profile.ProfilePage.StartEdit | cabBuddy/src/pages/Profile.jsx:714-717 | editing starts and nothing else changes |
| Profile.ProfilePage.CancelEdit | cabBuddy/src/pages/Profile.jsx:567-573 | the form returns to the loaded profile's name and phone and editing ends |
| Profile.ProfilePage.SaveProfile | cabBuddy/src/pages/Profile.jsx:553-562 | the current form is sent; a saved profile replaces the shown one and ends editing; a failure changes nothing |
| Profile.ProfilePage.FetchMyRides | cabBuddy/src/pages/Profile.jsx:496-514 | with no truthy user id nothing changes; otherwise an array body becomes the rides, any other body gives [], a failure gives [] and "Failed to load your rides", the error is cleared on success, and loading is false on every path |
| Profile.ProfilePage.SelectSection | cabBuddy/src/pages/Profile.jsx:490-494 | the section is set; a change to "rides" by a driver with a user id loads the rides; nothing else changes |
| Vehicles.LoadedVehicles | cabBuddy/src/components/profile/Vehicle.jsx:34-45 | the returned list, [] when there is no data, [] on failure |
| Vehicles.EditForm | cabBuddy/src/components/profile/Vehicle.jsx:95-101 | exactly the four form fields, holding the vehicle's number, model and type and a capacity text that parses back to its capacity |
| Vehicles.SubmitRequest | cabBuddy/src/components/profile/Vehicle.jsx:61-72 | an update exactly when `editingId` is truthy (so id 0 is added), of that id; the body carries the form's fields and `parseInt` of the capacity |
| Vehicles.EditThenSubmit | cabBuddy/src/components/profile/Vehicle.jsx:61-103 | editing a vehicle with a non-zero id and submitting unchanged sends an update of that vehicle with its own capacity |
| Vehicles.EditOfIdZeroAdds | cabBuddy/src/components/profile/Vehicle.jsx:68-72 | a vehicle with id 0 is added again instead of updated |
| Vehicles.WithoutId | cabBuddy/src/components/profile/Vehicle.jsx:112 | no kept vehicle has the removed id, and the list does not grow |
| Vehicles.WithoutIdMembers | cabBuddy/src/components/profile/Vehicle.jsx:112 | a vehicle is kept exactly when it was in the list with another id |
| Vehicles.WithoutAbsentId | cabBuddy/src/components/profile/Vehicle.jsx:112 | a list without the id is unchanged |
| Vehicles.WithoutIdOfConcat | cabBuddy/src/components/profile/Vehicle.jsx:112 | filtering keeps order: the filter of a concatenation is the concatenation of the filters |
| Vehicles.WithoutIdIdempotent | cabBuddy/src/components/profile/Vehicle.jsx:112 | removing an id twice is removing it once |
| Vehicles.WithoutPresentId | cabBuddy/src/components/profile/Vehicle.jsx:112 | in a list with unique ids, removing the id at position i leaves the list without that one entry |
| Vehicles.VehicleManager.constructor | cabBuddy/src/components/profile/Vehicle.jsx:13-32 | an empty form and no edit; the vehicles are loaded only when the stored role is exactly "DRIVER" |
| Vehicles.VehicleManager.LoadVehicles | cabBuddy/src/components/profile/Vehicle.jsx:34-45 | only the list changes, to the loaded list, and loading is false afterwards |
| Vehicles.VehicleManager.HandleChange | cabBuddy/src/components/profile/Vehicle.jsx:47-50 | only the named form field changes |
| Vehicles.VehicleManager.HandleEdit | cabBuddy/src/components/profile/Vehicle.jsx:95-103 | the form takes the vehicle's fields and `editingId` becomes its id |
| Vehicles.VehicleManager.HandleSubmit | cabBuddy/src/components/profile/Vehicle.jsx:55-93 | the request is the add or update described above; a save empties the form, clears `editingId` and reloads the list; a failure changes nothing |
| Vehicles.VehicleManager.HandleDelete | cabBuddy/src/components/profile/Vehicle.jsx:105-117 | a declined confirmation sends nothing and changes nothing; an accepted deletion removes every vehicle with that id; a failed one changes nothing |
| Vehicles.VehicleManager.CancelEdit | cabBuddy/src/components/profile/Vehicle.jsx:261-273 | an empty form and no edit; the list is unchanged |
| JsText.Trim | cabBuddy/src/pages/AddRide.jsx:107-117 | only blank strings trim to "", and the result neither starts nor ends with white space |
| JsText.ToLower | cabBuddy/src/pages/AddRide.jsx:117 | same length, each character lower-cased (ASCII letters only) |
| JsText.ToUpper | cabBuddy/src/pages/Profile.jsx:408-409 | same length, each character upper-cased (ASCII letters only) |
| JsText.UpperEqualIffLowerEqual | cabBuddy/src/pages/Profile.jsx:408-409 | two strings upper-case to the same text exactly when they lower-case to the same text |
| JsText.ToLowerIdempotent | cabBuddy/src/pages/AddRide.jsx:117 | lower-casing twice equals lower-casing once |
| JsText.Split | cabBuddy/src/pages/AddRide.jsx:51 | at least one piece, and no piece holds the separator |
| JsText.JoinSplit | cabBuddy/src/pages/AddRide.jsx:51 | joining the pieces of a split gives back the string |
| JsText.SplitJoin | cabBuddy/src/pages/AddRide.jsx:139 | splitting a join of pieces without the separator gives back the pieces |
| JsText.IntToString | cabBuddy/src/components/profile/Vehicle.jsx:100 | a non-empty text: decimal digits for n >= 0, a minus sign and digits for n < 0 |
| JsText.ParseIntLeadingCharacter | cabBuddy/src/pages/AddRide.jsx:53 | the contract of `parseInt` (JsText.ParseInt): a blank string is NaN; a leading decimal digit that does not open a "0x" prefix gives a number of at least 0; only a leading minus sign gives a negative number |
| JsText.ParseIntToString | cabBuddy/src/components/profile/Vehicle.jsx:65 | `parseInt(String(n))` is n for every integer |
| JsText.ParseIntOfDigits | cabBuddy/src/pages/AddRide.jsx:53 | a decimal digit string parses to its value |
| JsText.PadStart2 | cabBuddy/src/pages/AddRide.jsx:58-59 | a text of two or more characters is kept; a shorter one is prefixed with zeros up to length 2 |
| JsText.PadStart2OfNat | cabBuddy/src/pages/AddRide.jsx:58-59 | a number below 100 pads to two digits that parse back to it |
| JsText.ParseFloatLeadingCharacter | cabBuddy/src/pages/AddRide.jsx:39 | the contract of `parseFloat` (JsText.ParseFloat): a blank string is NaN; a leading decimal digit gives a finite number of at least 0; only a leading minus sign gives a negative number |
| JsText.ParseFloatOfDigits | cabBuddy/src/pages/AddRide.jsx:39 | a digit string parses to its exact value |
| JsText.ParseFloatOfPointed | cabBuddy/src/pages/AddRide.jsx:39 | "i.f" parses to the exact value of the digits i f scaled by 10 to the minus the length of f |

## Left out

- HTTP requests (`createRide`, `/auth/register`, `getMyRides`, `fetchUserById`, `updateUserProfile`, the vehicle API): each is an outcome passed in. The toast of a rejected draft is modelled (AddRide.Message); the other toasts, the status-dependent failure messages, alerts, console output and navigation are not.
- The driver bootstrap at AddRide.jsx:72-98: it looks up driver 1 and may register a default driver. It is pure I/O; `driverId` stays 1 in the model.
- The `loading` flags while a request is pending: each method sets and clears the flag within one call, so the model shows only the state between events. Concurrent or overlapping requests are not modelled.
- Dates: `Date` objects, time zones and daylight-saving changes are left out. The ride date is a day number, and `toISOString().split("T")[0]` is that day. The calendar's "not before today" restriction is not modelled.
- AddRide.ArrivalMinuteIsThreeHoursLater: does not model the range of a JavaScript Date. `setHours` gives an Invalid Date, and the text "NaN:NaN", once the time leaves ±8.64·10^15 ms; `parseInt` also loses precision above 2^53. So a departure such as "3000000000:00" gives "NaN:NaN" in the page, but "03:00" in the model. The time input never produces such a value.
- AddRide.ArrivalMinute: computes on one fixed day. A clock change on the day of use, which can shift `setHours` by an hour, is not captured.
- Floating point: `parseFloat` is kept exact (digits and a decimal exponent). Rounding of very long inputs and the total-earnings display are not modelled.
- Case mapping covers ASCII letters only; `toLowerCase` on other scripts is not modelled. String lengths count code points, not UTF-16 units.
- Profile.BadgeClass: does not model a status that lower-cases to an `Object.prototype` property name (such as "constructor"), which would pick an inherited value.
- Profile.ProfilePage.OnNavigate: does not model the storage writes at Profile.jsx:478-483, including the copy built from the pre-update state.
- Profile.IsRoleDriver: the login blob is read from one of three storage keys; the model takes the resulting role directly. A non-string role, which would throw, is not modelled.
- Vehicles.EditForm: the form holds the capacity as its decimal text, while the source stores the number itself. `parseInt` reads both the same way, except for numbers of 10^21 and above, which print in exponent form.
- Vehicles.LoadedVehicles: `response.data || []` is modelled for an array or missing data. Other falsy or non-array bodies are not.
- Rendering (JSX layout, icons, counts and the sidebar sections other than the rides fetch) is not modelled.

## Findings

| source | as written | input that shows it | evidently intended | confidence | as-written member | corrected member |
|---|---|---|---|---|---|---|
| cabBuddy/src/pages/signup.jsx:48-59 | a short password adds an `err.password` entry that blocks sign-up, but the form renders no element for `errors.password` | name, role, an email with "@", phone "9876543210", password and confirmation "secret" | the length message is shown under the password field | not executed | Signup.ShortPasswordRefusedSilently | Signup.RefusalAlwaysShown |
