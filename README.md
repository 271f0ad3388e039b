# vvusa_jc campus app — hostel booking, marketplace and sign-in, in Dafny

This project models the behaviour of the campus app for Valley View University
students. It covers three parts.

- **Hostel booking** (`HostelBooking`, `RoomSelection`, `FloorSelection`,
  `HostelSelection`, `HostelModel`). A student's profile and active booking are
  loaded. The student picks a hostel by gender, a floor from the fixed list, and
  a room or a payment plan. Booking writes an active booking document and raises
  the room's occupant count by one. Complaints about the booked room are filed
  with status "pending".
- **Marketplace** (`Market`). The listing is a category query plus an in-memory
  search that ignores case. The "sell an item" form only ever holds digits in its
  price field. An upload checks its guards, stores the price as
  `toIntOrNull() ?: 0`, clears the form and reloads the listing.
- **Authentication** (`Auth`, `RegisterForm`). Sign-in and registration each
  pass through `Loading` and end in `Success` or `Error`. The service's error
  messages are translated by first-match rules. The registration form may be
  submitted only when no field is blank and the passwords agree.

The view models whose fields change in place are classes: `HostelViewModel`,
`MarketViewModel` and `AuthViewModel`. Their methods state the whole new state
in their `ensures` and touch only what their `modifies` frames name. The remote
document store is also a class, with one field per collection:
`DocumentStore`, `ProductStore` and `ProfileStore`.

Each remote call (authentication, a document read or write, a file upload)
becomes a parameter of type `Remote.Outcome`. It is either `Ok` or
`Failed(message)`, where the message may be null. Coroutines are modelled as
running to completion, one statement after the other. The signed-in user is an
`Option<string>` parameter, and so are the clock value and the ids the store
generates.

Kotlin details that matter are written out:

- `Long.toInt()` and `Int` addition wrap to 32 bits (`Ints.ToInt32`).
- `isBlank()` uses the JVM whitespace set (`Text.IsWhitespace`).
- `contains` is case-sensitive substring search (`Text.Contains`).
- A null exception message reads `"null"` inside a string template
  (`Remote.MessageText`).

## Model

| member | source | states |
|---|---|---|
| Collections.Filter | app/src/main/java/com/example/vvusa_jc/ui/market/MarketViewModel.kt:104-108 | `filter` keeps only elements of the input that pass the test; with `FilterMembership` that is exactly those elements, and with `FilterConcat` their order is kept |
| Collections.FilterMapMembership | app/src/main/java/com/example/vvusa_jc/ui/hostel/HostelViewModel.kt:141-156 | `mapNotNull` yields `y` exactly when some element maps to `y` |
| Collections.FirstOrNull | app/src/main/java/com/example/vvusa_jc/ui/hostel/RoomSelectionComponents.kt:166 | `firstOrNull` is null exactly when nothing matches; otherwise it returns a matching element of the list |
| Collections.FirstOrNullIsFirst | app/src/main/java/com/example/vvusa_jc/ui/hostel/RoomSelectionComponents.kt:166 | the element `firstOrNull` returns stands at an index with no match before it |
| Collections.FilterHeadIsFirstOrNull | app/src/main/java/com/example/vvusa_jc/ui/hostel/HostelViewModel.kt:81-82 | the first element of a non-empty filter is the element `firstOrNull` with the same test returns |
| Text.Lower | app/src/main/java/com/example/vvusa_jc/ui/market/MarketViewModel.kt:103 | `lowercase()` keeps the length and maps each character on its own |
| Text.LowerIdempotent | app/src/main/java/com/example/vvusa_jc/ui/market/MarketViewModel.kt:103-107 | lower-casing twice is lower-casing once |
| Text.LowerKeepsBlankness | app/src/main/java/com/example/vvusa_jc/ui/market/MarketViewModel.kt:102-103 | a query is blank exactly when its lower-cased form is blank |
| Text.ContainsIff | app/src/main/java/com/example/vvusa_jc/ui/market/MarketViewModel.kt:105-107 | the `contains` scan succeeds exactly when the text occurs at some position |
| Ints.ToInt32 | app/src/main/java/com/example/vvusa_jc/ui/hostel/HostelViewModel.kt:142-143 | `Long.toInt()` keeps the value modulo 2^32 and is the identity on `Int` values |
| Ints.IncrementWraps | app/src/main/java/com/example/vvusa_jc/ui/hostel/HostelViewModel.kt:237 | `Int` plus one is exact below `Int.MAX_VALUE` and wraps to `Int.MIN_VALUE` at it |
| Ints.DecimalRoundTrip | app/src/main/java/com/example/vvusa_jc/ui/market/MarketViewModel.kt:199 | reading back the decimal digits of a number gives that number |
| Ints.ToIntOrNullOfDecimal | app/src/main/java/com/example/vvusa_jc/ui/market/MarketViewModel.kt:199 | `toIntOrNull` inverts `toString` on every non-negative `Int` |
| HostelModel.SampleRoomsHaveSpace | app/src/main/java/com/example/vvusa_jc/data/model/HostelModel.kt:24-29 | every fallback room has a free bed and is flagged available |
| HostelModel.SampleRoomsDistinct | app/src/main/java/com/example/vvusa_jc/data/model/HostelModel.kt:24-29 | fallback rooms differ in id and in number |
| HostelModel.SampleRoomSizes | app/src/main/java/com/example/vvusa_jc/data/model/HostelModel.kt:24-29 | fallback rooms hold 2 or 4 students, and both sizes occur |
| HostelModel.SampleAnnouncementCount | app/src/main/java/com/example/vvusa_jc/data/model/HostelModel.kt:31-44 | there are three fallback announcements |
| HostelSelection.HostelsFor | app/src/main/java/com/example/vvusa_jc/ui/hostel/HostelSelectionComponents.kt:22-26 | the female hostels are shown exactly when the gender lower-cases to "female", the male hostels otherwise; two either way |
| HostelSelection.HostelListsDisjoint | app/src/main/java/com/example/vvusa_jc/ui/hostel/HostelSelectionComponents.kt:22-26 | no hostel is offered to both genders |
| HostelSelection.HostelsForIgnoresCase | app/src/main/java/com/example/vvusa_jc/ui/hostel/HostelSelectionComponents.kt:22 | genders that agree after lower-casing get the same list |
| HostelSelection.FemaleSpellings | app/src/main/java/com/example/vvusa_jc/ui/hostel/HostelSelectionComponents.kt:22-26 | "female", "Female" and "FEMALE" give the female hostels; "male" and "" give the male ones |
| HostelSelection.HostelCards | app/src/main/java/com/example/vvusa_jc/ui/hostel/HostelSelectionComponents.kt:41-46 | one card per hostel of the list shown for the gender, in list order; each shows the hostel's name (line 84) and passes on that same name |
| FloorSelection.FloorLabel | app/src/main/java/com/example/vvusa_jc/ui/hostel/FloorSelectionComponents.kt:77-83 | the four floor codes get longer labels that are not codes; any other code is shown as it is |
| FloorSelection.FloorLabelsInOrder | app/src/main/java/com/example/vvusa_jc/ui/hostel/FloorSelectionComponents.kt:77-82 | the floor labels read "Ground Floor", "First Floor", "Second Floor", "Third Floor", in that order |
| FloorSelection.FloorLabelsDistinct | app/src/main/java/com/example/vvusa_jc/ui/hostel/FloorSelectionComponents.kt:77-83 | the four floors have four different labels |
| FloorSelection.FloorCards | app/src/main/java/com/example/vvusa_jc/ui/hostel/FloorSelectionComponents.kt:47-50 | one card per floor, in list order; each shows its label and passes on its code |
| RoomSelection.PlanClick | app/src/main/java/com/example/vvusa_jc/ui/hostel/RoomSelectionComponents.kt:164-171 | a plan click yields a request exactly when the button is enabled (some available room of that size); the request carries the plan size and a room offering it |
| RoomSelection.PlanClickPicksFirst | app/src/main/java/com/example/vvusa_jc/ui/hostel/RoomSelectionComponents.kt:166-168 | the plan books the earliest room offering it |
| RoomSelection.PlanPrice | app/src/main/java/com/example/vvusa_jc/ui/hostel/HostelScreen.kt:100 | four in a room costs 600, any other plan 900 |
| RoomSelection.SharingIsCheaper | app/src/main/java/com/example/vvusa_jc/ui/hostel/HostelScreen.kt:100 | the four-in-a-room plan costs less than the two-in-a-room plan |
| RoomSelection.ListedRooms | app/src/main/java/com/example/vvusa_jc/ui/hostel/RoomSelectionComponents.kt:124-131 | the room list shows only available rooms of the input |
| RoomSelection.ListedRoomsExactly | app/src/main/java/com/example/vvusa_jc/ui/hostel/RoomSelectionComponents.kt:124-131 | the room list shows every available room and no other, in input order |
| RoomSelection.PlanRoomIsListed | app/src/main/java/com/example/vvusa_jc/ui/hostel/RoomSelectionComponents.kt:124-131 | the room a plan button books is also shown in the room list |
| RoomSelection.BedsLeft | app/src/main/java/com/example/vvusa_jc/ui/hostel/RoomSelectionComponents.kt:244 | beds left is `maxCapacity - capacity` wrapped to 32 bits: equal to the difference whenever it fits in an `Int`, and congruent to it modulo 2^32 always; positive for a room with space |
| RoomSelection.RoomCards | app/src/main/java/com/example/vvusa_jc/ui/hostel/RoomSelectionComponents.kt:124-131 | one card per listed room, in order; choosing it passes on that room's id and number |
| RoomSelection.RoomsViewFor | app/src/main/java/com/example/vvusa_jc/ui/hostel/RoomSelectionComponents.kt:47-55 | an empty list shows "no rooms"; otherwise the plan buttons' enabled flags and the cards |
| RoomSelection.SampleRoomsEnablePlans | app/src/main/java/com/example/vvusa_jc/ui/hostel/RoomSelectionComponents.kt:164-190 | with the fallback rooms both plans are enabled and book rooms 12 and 16 |
| HostelBooking.ActiveBookings | app/src/main/java/com/example/vvusa_jc/ui/hostel/HostelViewModel.kt:75-79 | the bookings query returns every active booking of the student and no other document |
| HostelBooking.ActiveBookingIsFirst | app/src/main/java/com/example/vvusa_jc/ui/hostel/HostelViewModel.kt:75-82 | the booking read as `documents[0]` is the student's earliest active booking in store order |
| HostelBooking.ParseRoom | app/src/main/java/com/example/vvusa_jc/ui/hostel/HostelViewModel.kt:141-156 | a room document is kept exactly when its `Availability` flag (or, without one, a free bed) says so; the kept room's `available` is recomputed from the counts; id, name fallback and defaults 0 and 4 |
| HostelBooking.KeptRoomsExactly | app/src/main/java/com/example/vvusa_jc/ui/hostel/HostelViewModel.kt:141-156 | a room is loaded exactly when a kept document maps to it; loaded rooms agree with their counts; document order is kept |
| HostelBooking.StoredFlagOverridesCounts | app/src/main/java/com/example/vvusa_jc/ui/hostel/HostelViewModel.kt:142-155 | a full room flagged available is still listed (as unavailable); a free room flagged unavailable is dropped; missing fields take their defaults |
| HostelBooking.FindRoom | app/src/main/java/com/example/vvusa_jc/ui/hostel/HostelViewModel.kt:227-234 | the room document a booking reads has the booked id, and is missing only when no document has it |
| HostelBooking.WithCapacity | app/src/main/java/com/example/vvusa_jc/ui/hostel/HostelViewModel.kt:237-238 | updating `Capacity` keeps the collection's length and document ids |
| HostelBooking.WithCapacityKeepsIds | app/src/main/java/com/example/vvusa_jc/ui/hostel/HostelViewModel.kt:237-238 | updating `Capacity` keeps the ids unique |
| HostelBooking.WithCapacityChangesOneRoom | app/src/main/java/com/example/vvusa_jc/ui/hostel/HostelViewModel.kt:227-238 | the update changes the booked room's count and no other document |
| HostelBooking.NextCapacityIsIncrement | app/src/main/java/com/example/vvusa_jc/ui/hostel/HostelViewModel.kt:234-238 | the written count is the read count plus one, even when that exceeds the room size; at `Int.MAX_VALUE` it wraps to `Int.MIN_VALUE` |
| HostelBooking.AnnouncementQuery | app/src/main/java/com/example/vvusa_jc/ui/hostel/HostelViewModel.kt:175-180 | the query returns the hostel's announcements in store order, cut to the first five |
| HostelBooking.FewAnnouncementsAllShown | app/src/main/java/com/example/vvusa_jc/ui/hostel/HostelViewModel.kt:175-180 | when the hostel has at most five announcements, every one of them is returned |
| HostelBooking.AnnouncementsAfter | app/src/main/java/com/example/vvusa_jc/ui/hostel/HostelViewModel.kt:182-197 | the fallback announcements when the fetch failed or found none; otherwise one announcement per fetched document, in order, with "" for a missing title or message; between one and five in every case |
| HostelBooking.RoomsAfterFetch | app/src/main/java/com/example/vvusa_jc/ui/hostel/HostelViewModel.kt:141-166 | a failed room query shows the fallback rooms; a successful one shows the kept rooms, at most one per document |
| HostelBooking.HostelViewModel.constructor | app/src/main/java/com/example/vvusa_jc/ui/hostel/HostelViewModel.kt:27-56 | every field starts empty and the screen at `Loading` |
| HostelBooking.HostelViewModel.LoadUserData | app/src/main/java/com/example/vvusa_jc/ui/hostel/HostelViewModel.kt:62-102 | no user gives `Error("User not authenticated")`; a failed read gives `Error("Failed to load user data: …")` and gender "male"; otherwise the profile's gender (default "male") and first name, then `RoomBooked` with the first active booking and its announcements, or `SelectHostel` |
| HostelBooking.HostelViewModel.LoadAnnouncements | app/src/main/java/com/example/vvusa_jc/ui/hostel/HostelViewModel.kt:170-199 | without a booking nothing changes; otherwise the announcements shown for the booked hostel |
| HostelBooking.HostelViewModel.SelectHostel | app/src/main/java/com/example/vvusa_jc/ui/hostel/HostelViewModel.kt:104-107 | records the hostel and moves to the floor screen; nothing else changes |
| HostelBooking.HostelViewModel.SelectFloor | app/src/main/java/com/example/vvusa_jc/ui/hostel/HostelViewModel.kt:109-112 | records the floor and loads its rooms |
| HostelBooking.HostelViewModel.LoadRooms | app/src/main/java/com/example/vvusa_jc/ui/hostel/HostelViewModel.kt:127-168 | without a hostel or floor the screen stays at `Loading`; otherwise the kept rooms (fallback rooms on failure), the list shown and `SelectRoom` |
| HostelBooking.HostelViewModel.GoBackToHostels | app/src/main/java/com/example/vvusa_jc/ui/hostel/HostelViewModel.kt:114-119 | clears both selections and hides the room list (the room data is kept); hostel screen |
| HostelBooking.HostelViewModel.GoBackToFloors | app/src/main/java/com/example/vvusa_jc/ui/hostel/HostelViewModel.kt:121-125 | clears the floor and hides the room list (the room data is kept), keeps the hostel; floor screen |
| HostelBooking.HostelViewModel.ResetSelections | app/src/main/java/com/example/vvusa_jc/ui/hostel/HostelViewModel.kt:263-267 | clears both selections and hides the room list (the room data is kept) |
| HostelBooking.HostelViewModel.BookRoom | app/src/main/java/com/example/vvusa_jc/ui/hostel/HostelViewModel.kt:201-256 | without a selection nothing changes; without a user the screen is left at `Loading`; otherwise the booking is appended, then the count is raised by one, the room recorded, announcements loaded, selections cleared and `RoomBooked`; any failure gives `Error("Failed to book room: …")`, keeping the booking if it was written; ids stay unique |
| HostelBooking.HostelViewModel.WriteBooking | app/src/main/java/com/example/vvusa_jc/ui/hostel/HostelViewModel.kt:207-254 | the steps of a booking once hostel, floor and user are known, as for `BookRoom` |
| HostelBooking.HostelViewModel.ProcessPayment | app/src/main/java/com/example/vvusa_jc/ui/hostel/HostelViewModel.kt:258-261 | paying for a plan is booking the room; the plan size plays no part |
| HostelBooking.HostelViewModel.UpdateComplaintTitle | app/src/main/java/com/example/vvusa_jc/ui/hostel/HostelViewModel.kt:269-271 | stores the title |
| HostelBooking.HostelViewModel.UpdateComplaintMessage | app/src/main/java/com/example/vvusa_jc/ui/hostel/HostelViewModel.kt:273-275 | stores the message |
| HostelBooking.HostelViewModel.SubmitComplaint | app/src/main/java/com/example/vvusa_jc/ui/hostel/HostelViewModel.kt:277-309 | a blank title or message, no user, no booking or a failed write changes nothing; otherwise a "pending" complaint about the booked room is appended and the form cleared |
| Market.DefaultCategory | app/src/main/java/com/example/vvusa_jc/ui/market/MarketViewModel.kt:56-57 | the first category of a kind is offered for that kind and not for the other |
| Market.ParseProduct | app/src/main/java/com/example/vvusa_jc/ui/market/MarketViewModel.kt:83-94 | every stored field is read as stored, the price through `Long.toInt()` (equal when it fits an `Int`, congruent modulo 2^32 always); missing fields read "", 0, "Brand new", product and timestamp 0; id and image kept |
| Market.CategoryQuery | app/src/main/java/com/example/vvusa_jc/ui/market/MarketViewModel.kt:70-78 | the listing query returns only documents of the selected category, or any document when none is selected |
| Market.ParseAll | app/src/main/java/com/example/vvusa_jc/ui/market/MarketViewModel.kt:81-99 | every document becomes one product, in order |
| Market.SearchFilter | app/src/main/java/com/example/vvusa_jc/ui/market/MarketViewModel.kt:102-109 | the search returns no more products than it was given, all from the input |
| Market.SearchFilterExactly | app/src/main/java/com/example/vvusa_jc/ui/market/MarketViewModel.kt:102-109 | a product survives exactly when the query is blank or its lower-cased name, description or category contains the lower-cased query; a blank query keeps the list; order is kept |
| Market.MatchesIff | app/src/main/java/com/example/vvusa_jc/ui/market/MarketViewModel.kt:105-107 | a match is the lower-cased query occurring at some position of one of the three lower-cased fields |
| Market.SearchIgnoresQueryCase | app/src/main/java/com/example/vvusa_jc/ui/market/MarketViewModel.kt:102-103 | searching for the lower-cased query gives the same list as the query itself |
| Market.ListingFor | app/src/main/java/com/example/vvusa_jc/ui/market/MarketViewModel.kt:70-111 | the listing has at most one product per stored document |
| Market.ListingForExactly | app/src/main/java/com/example/vvusa_jc/ui/market/MarketViewModel.kt:70-111 | a product is listed exactly when a document of the selected category maps to it and it passes the search |
| Market.StoredPrice | app/src/main/java/com/example/vvusa_jc/ui/market/MarketViewModel.kt:199 | the stored price is the digits' value when it fits an `Int`, otherwise (or when empty) 0 |
| Market.StoredPriceOfDecimal | app/src/main/java/com/example/vvusa_jc/ui/market/MarketViewModel.kt:199 | typing a number's digits stores that number |
| Market.UploadRoundTrip | app/src/main/java/com/example/vvusa_jc/ui/market/MarketViewModel.kt:197-207 | reading an uploaded document back gives the form's values with the stored price |
| Market.CategoryQueryHead | app/src/main/java/com/example/vvusa_jc/ui/market/MarketViewModel.kt:74-78 | a first document of the selected category is the first document the category query returns |
| Market.SearchFilterHead | app/src/main/java/com/example/vvusa_jc/ui/market/MarketViewModel.kt:101-108 | a first product that passes the search is the first product the search keeps |
| Market.UploadedItemIsListed | app/src/main/java/com/example/vvusa_jc/ui/market/MarketViewModel.kt:205-218 | after an upload the reloaded listing is the new item followed by the old listing, unless the category or search hides it |
| Market.UploadKeepsNewestFirst | app/src/main/java/com/example/vvusa_jc/ui/market/MarketViewModel.kt:70-71 | putting an upload stamped no earlier than every stored product at the head keeps the store in the newest-first order of the listing query |
| Market.MarketViewModel.constructor | app/src/main/java/com/example/vvusa_jc/ui/market/MarketViewModel.kt:26-62 | an empty form of kind product with "Clothes" and "Brand new", no filters, and the whole listing loaded |
| Market.MarketViewModel.LoadProducts | app/src/main/java/com/example/vvusa_jc/ui/market/MarketViewModel.kt:64-119 | a failed query gives `Error("Failed to load products: …")` and keeps the list; otherwise the listing for the category and search, and `ProductsList` |
| Market.MarketViewModel.UpdateSelectedCategory | app/src/main/java/com/example/vvusa_jc/ui/market/MarketViewModel.kt:122-125 | stores the category and reloads: on failure the error state with the load message and the old listing; on success the list state, and every listed product comes from a document of that category |
| Market.MarketViewModel.UpdateSearchQuery | app/src/main/java/com/example/vvusa_jc/ui/market/MarketViewModel.kt:128-132 | stores the query and reloads: on failure the error state with the load message and the old listing; on success the list state, and every listed product matches the query |
| Market.MarketViewModel.UpdateProductType | app/src/main/java/com/example/vvusa_jc/ui/market/MarketViewModel.kt:135-139 | sets the kind and resets the category to the first one offered for it |
| Market.MarketViewModel.UpdateNewProductName | app/src/main/java/com/example/vvusa_jc/ui/market/MarketViewModel.kt:141-143 | stores the name |
| Market.MarketViewModel.UpdateNewProductPrice | app/src/main/java/com/example/vvusa_jc/ui/market/MarketViewModel.kt:145-150 | accepts an empty or all-digit price and ignores anything else, so the field stays digits only |
| Market.MarketViewModel.UpdateNewProductCategory | app/src/main/java/com/example/vvusa_jc/ui/market/MarketViewModel.kt:152-154 | stores the category |
| Market.MarketViewModel.UpdateNewProductCondition | app/src/main/java/com/example/vvusa_jc/ui/market/MarketViewModel.kt:156-158 | stores the condition |
| Market.MarketViewModel.UpdateNewProductDescription | app/src/main/java/com/example/vvusa_jc/ui/market/MarketViewModel.kt:160-162 | stores the description |
| Market.MarketViewModel.UpdateNewProductImage | app/src/main/java/com/example/vvusa_jc/ui/market/MarketViewModel.kt:164-166 | stores the picked image |
| Market.MarketViewModel.ResetNewProductForm | app/src/main/java/com/example/vvusa_jc/ui/market/MarketViewModel.kt:230-237 | empties name, price and description, drops the image, resets category and condition to the first ones; the kind is kept |
| Market.MarketViewModel.UploadProduct | app/src/main/java/com/example/vvusa_jc/ui/market/MarketViewModel.kt:168-228 | a blank name or price, or no user, reports its message and changes nothing; otherwise the upload steps |
| Market.MarketViewModel.Publish | app/src/main/java/com/example/vvusa_jc/ui/market/MarketViewModel.kt:180-228 | a failed image upload or write reports "Failed to upload: …" and returns to the listing with the form kept; otherwise the document is put at the head of the store (newest first), the form cleared, the listing reloaded and success reported |
| Auth.LoginErrorMessage | app/src/main/java/com/example/vvusa_jc/ui/auth/AuthViewModel.kt:44-48 | "no user record" gives the unknown-account text, else "password is invalid" gives "Invalid password", else the message itself or "Login failed" |
| Auth.RegisterErrorMessage | app/src/main/java/com/example/vvusa_jc/ui/auth/AuthViewModel.kt:86-92 | "email address is already in use" gives the taken-address text, else "password is invalid" the weak-password text, else the message or "Registration failed" |
| Auth.ResetErrorMessage | app/src/main/java/com/example/vvusa_jc/ui/auth/AuthViewModel.kt:108-112 | "no user record" gives the unknown-account text, else the message or "Failed to send reset email" |
| Auth.LoginUnknownAccountFirst | app/src/main/java/com/example/vvusa_jc/ui/auth/AuthViewModel.kt:44-46 | a message with both phrases reads as an unknown account |
| Auth.RegisterWrongPasswordIsWeak | app/src/main/java/com/example/vvusa_jc/ui/auth/AuthViewModel.kt:89-90 | at registration a wrong-password message is shown as a weak password |
| Auth.LoginTestIsCaseSensitive | app/src/main/java/com/example/vvusa_jc/ui/auth/AuthViewModel.kt:45 | the phrase tests respect case: "No user record" is passed through |
| Auth.ShownMessagesAreKnown | app/src/main/java/com/example/vvusa_jc/ui/auth/AuthViewModel.kt:44-112 | every shown message is one of the fixed texts or the service's own |
| Auth.ResetPassword | app/src/main/java/com/example/vvusa_jc/ui/auth/AuthViewModel.kt:102-116 | success is reported exactly when the reset mail was sent; otherwise the translated error |
| Auth.AuthViewModel.constructor | app/src/main/java/com/example/vvusa_jc/ui/auth/AuthViewModel.kt:23-27 | both flows start at `Initial` |
| Auth.AuthViewModel.Login | app/src/main/java/com/example/vvusa_jc/ui/auth/AuthViewModel.kt:32-53 | the sign-in state goes to `Loading` and then to `Success` exactly when sign-in succeeds, otherwise to the translated `Error`; registration state untouched |
| Auth.AuthViewModel.Register | app/src/main/java/com/example/vvusa_jc/ui/auth/AuthViewModel.kt:58-97 | the state goes to `Loading` and then to `Success` exactly when the account, its id and the profile write all succeed (and the profile is stored); no id gives `Error("Registration failed")`; failures the translated `Error` |
| Auth.AuthViewModel.ResetLoginState | app/src/main/java/com/example/vvusa_jc/ui/auth/AuthViewModel.kt:121-123 | the sign-in state goes back to `Initial`; the other flow is untouched |
| Auth.AuthViewModel.ResetRegisterState | app/src/main/java/com/example/vvusa_jc/ui/auth/AuthViewModel.kt:128-130 | the registration state goes back to `Initial`; the other flow is untouched |
| RegisterForm.IsFormValid | app/src/main/java/com/example/vvusa_jc/ui/auth/RegisterScreen.kt:321-334 | a valid form has non-empty fields and equal passwords; a blank password is never valid |
| RegisterForm.PasswordsMatch | app/src/main/java/com/example/vvusa_jc/ui/auth/RegisterScreen.kt:55 | the mismatch warning shows exactly when both passwords are typed and differ |
| RegisterForm.ValidFormShowsNoMismatch | app/src/main/java/com/example/vvusa_jc/ui/auth/RegisterScreen.kt:55 | a form that may be submitted shows no mismatch warning |
| RegisterForm.NoMismatchDoesNotMeanValid | app/src/main/java/com/example/vvusa_jc/ui/auth/RegisterScreen.kt:321-334 | blank or half-typed passwords show no warning yet may not be submitted |
| RegisterForm.Submit | app/src/main/java/com/example/vvusa_jc/ui/auth/RegisterScreen.kt:250-252 | a submission calls `register` exactly when the form is valid, with name, email, password, student id in that order |
| RegisterForm.ButtonEnabled | app/src/main/java/com/example/vvusa_jc/ui/auth/RegisterScreen.kt:282-283 | the button is enabled exactly when the form is valid and no registration is running, and then a click submits |

## Left out

- The Firebase SDKs (Auth, Firestore, Storage) are not part of this model. Each call is a success-or-failure parameter. Collections are fields of the store classes, in store order. Query ordering is not computed: each collection is taken to be stored already in its query's order, which is newest first for products (`orderBy("timestamp", DESCENDING)`) and oldest first for announcements (`orderBy("timestamp")`, ascending). The five-announcement `limit` keeps the first five in that order. An upload is placed at the head of the products, which keeps them newest first only when the clock (`System.currentTimeMillis()`, here the parameter `now`) reads no earlier than every stored timestamp; the model does not check the clock. Documents lacking the ordered field, which `orderBy` drops, are not modelled.
- Documents whose fields have the wrong type are left out. The SDK throws on those, and in the product mapping they would be skipped.
- Coroutine interleaving is left out. Every launched block runs to completion before the caller goes on. So two overlapping `bookRoom` calls, which in the app can lose one `Capacity` increment, are not modelled.
- `HostelBooking.HostelViewModel.BookRoom` requires that updating a room document that does not exist fails. This stands for the store's own behaviour (an update of a missing document is refused). It is not a check the app makes.
- The `init` blocks of both hostel and market view models call their loaders. The hostel constructor leaves `LoadUserData` to its client; the market constructor calls `LoadProducts`.
- `migrateExistingProducts` (MarketViewModel.kt:240-282) is a one-off data migration made only of I/O.
- Random image names (`UUID.randomUUID()`), the clock and the store's generated ids are parameters.
- Text.Lower: `lowercase()` is modelled on ASCII letters only. Unicode case mapping is not modelled.
- Text.IsDigit: `isDigit()` is modelled on ASCII digits only. Other Unicode decimal digits are not accepted by the model's price field.
- Registration writes its profile to collection `users` with a `name` field. The hostel flow reads `Users` with `First name` and `gender`. The model keeps `Auth.ProfileStore` and `HostelBooking.DocumentStore` separate, as the two flows use different collections.
- The Compose screens, layout, navigation, the cafeteria and home screens, and the log calls are UI or output only.
