# Real-estate marketplace: user handlers, upload policy and page logic

This project models the logic core of a small real-estate marketplace. The
marketplace is an Express/MongoDB API with a React client. The model covers:

- **The user API** (`UserController`, `UserModel`). Users and listings live in
  a `Store` class that holds two maps. It covers adding a listing to the
  user's favorites (idempotent, appends at the end), removing a favorite
  (every occurrence goes) and listing favorites (ids of listings that no
  longer exist drop out). It also covers profile update and deletion, the
  read handlers, and the two identity-document submissions (PAN and Aadhaar).
  Every self-only handler has a 401 ownership gate. The user record has
  defaults, required fields and unique indexes; the PAN and Aadhaar indexes
  are sparse, so only users that have a number take part.
- **The upload policy** (`Upload`). Node's POSIX `path.extname` is modelled as
  the runtime defines it. On top of it sit the case-insensitive extension
  allow-list, the destination folder chosen by form field, the
  `<timestamp>-<name>` stored name and the 5 MiB size limit.
- **The API's error middleware and CORS origin check** (`Server`).
- **The client pages:**
  - the document-verification page (`PanVerification`): the Aadhaar
    formatter, PAN upper-casing, the HTML patterns, the submitted form and
    the result popup;
  - the create-listing form (`CreateListing`);
  - the listing page's favorite toggle and display rules (`ListingPage`);
  - the favorites page (`FavoritesPage`);
  - the profile page's status derivation and state (`ProfilePage`);
  - the controlled/uncontrolled tab selector (`Tabs`).

JavaScript semantics are written out where they matter:

- Truthiness: an absent or empty string is falsy, and a status code of 0 is
  falsy.
- `toLowerCase`/`toUpperCase` act on ASCII letters.
- `\d` means an ASCII digit.
- Unary `+` on a typed number string is modelled, as is the React handler
  whose later `setState` wins.

Things outside the code become parameters:

- the password hash function;
- the upload timestamp;
- server replies and network failures;
- upload results.

## Model

| member | source | states |
|---|---|---|
| `Server.CorsOrigin` | api/index.js:28-35 | A request is let through iff its Origin is absent, empty or one of the three localhost dev origins; any other origin is refused with "Not allowed by CORS" |
| `Server.ErrorResponse` | api/index.js:67-75 | The status is the error's status code when truthy, else 500. The message is the error's message when truthy, else "Internal Server Error". The body always has success = false and a statusCode equal to the HTTP status. So an error raised with a non-zero status and a non-empty message is answered with exactly those, and one without a status code is a 500 |
| `Server.Raise` | api/controllers/user.controller.js:14 | `errorHandler(status, message)` gives an application error that carries exactly that status and message (its definition is not part of this model, see Left out) |
| `UserModel.WithoutPassword` | api/controllers/user.controller.js:33 | The public view of a user keeps every modelled field except the password, which its type does not have (the timestamps and `__v` are not modelled, see Left out) |
| `UserModel.MissingPaths` | api/models/user.model.js:5-23 | Lists exactly the required fields (username, email, password, mobile) that are empty |
| `UserModel.NewUser` | api/models/user.model.js:3-61 | A new user is refused iff a required field is empty. Otherwise the avatar defaults to the placeholder URL, both verified flags are false, favorites are empty and no PAN or Aadhaar number is set |
| `UserModel.FitsKeepsUnique` | api/models/user.model.js:8-49 | Storing a user that collides with no other keeps every unique index (username, email, mobile, sparse PAN and Aadhaar) satisfied |
| `UserModel.AbsentNumbersNeverClash` | api/models/user.model.js:29-49 | Two users without PAN or Aadhaar numbers collide only on username, email or mobile |
| `UserModel.CollideSymmetric` | api/models/user.model.js:8-49 | Whether two records collide on some unique index does not depend on their order |
| `UserModel.UniqueIffEveryRecordFits` | api/models/user.model.js:8-49 | A collection satisfies all unique indexes iff every record fits beside all the others, so the one-record check used on each write is the whole invariant |
| `UserController.PushFavorite` | api/controllers/user.controller.js:170-183 | An id already present leaves the list unchanged; otherwise the list grows by that one id at the end, the old entries unchanged before it |
| `UserController.PullFavorite` | api/controllers/user.controller.js:204-210 | No occurrence of the id remains; every other entry stays, and nothing new appears |
| `UserController.PushIdempotent` | api/controllers/user.controller.js:170-176 | Adding the same favorite twice is the same as adding it once |
| `UserController.PushKeepsNoDuplicates` | api/controllers/user.controller.js:170-183 | Adding keeps a duplicate-free favorites list duplicate-free |
| `UserController.PullIdempotent` | api/controllers/user.controller.js:204-210 | Removing an absent id changes nothing, so removing twice is removing once |
| `UserController.PullKeepsOrder` | api/controllers/user.controller.js:204-210 | Removing an id from between two runs of other ids leaves those runs joined in their order |
| `UserController.PullKeepsNoDuplicates` | api/controllers/user.controller.js:204-210 | Removing keeps a duplicate-free list duplicate-free |
| `UserController.PullUndoesPush` | api/controllers/user.controller.js:179-210 | Removing right after adding leaves the list as removing alone would |
| `UserController.GetUser` | api/controllers/user.controller.js:66-79 | A missing user is a 404 "User not found!". Otherwise the reply is that user without the password |
| `UserController.GetUserListings` | api/controllers/user.controller.js:53-64 | A caller asking for another user's listings gets 401. Otherwise the reply is exactly the stored listings whose owner is the path user |
| `UserController.GetUserFavorites` | api/controllers/user.controller.js:223-243 | A caller other than the path user gets 401, and a missing user gets 404. Otherwise the reply is exactly the stored listings whose id is in the user's favorites |
| `UserController.DanglingFavoriteDropped` | api/controllers/user.controller.js:235-239 | A favorite id whose listing is gone is silently left out of the favorites reply |
| `UserController.ApplyUpdate` | api/controllers/user.controller.js:16-31 | Only username, email, password and avatar change, each only when supplied. A non-empty password is stored hashed; an empty one is stored as it is |
| `UserController.SubmitDocuments` | api/controllers/user.controller.js:129-140 | A document submission stores both numbers and both paths and sets both documents back to unverified; no other modelled field changes (`updatedAt` is not modelled, see Left out) |
| `UserController.Store.constructor` | api/models/user.model.js:3-64 | The store starts with no users and the given listings, satisfying its invariant |
| `UserController.Store.CreateUser` | api/models/user.model.js:3-64 | Saving a new account fails on a missing required field or a unique-index collision and then leaves the store unchanged. Otherwise the store holds exactly the new record with its defaults |
| `UserController.Store.AddToFavorites` | api/controllers/user.controller.js:158-195 | An unknown listing gives 404. An id already in favorites reports "already in favorites" and writes nothing. Otherwise the id is appended and only that user's record changes. The store invariant (unique indexes, duplicate-free favorites) is kept |
| `UserController.Store.RemoveFromFavorites` | api/controllers/user.controller.js:198-220 | The user's favorites lose every occurrence of the id, and the call succeeds whether or not the id was there. Only that record changes |
| `UserController.Store.UpdateUser` | api/controllers/user.controller.js:12-39 | A caller other than the path user gets 401 and nothing changes. A unique-index collision gives a 500 and nothing changes. Otherwise the record becomes the applied update and the reply is it without the password |
| `UserController.Store.DeleteUser` | api/controllers/user.controller.js:41-51 | A caller other than the path user gets 401 and nothing changes. Otherwise exactly that record is removed, and the reply is "User has been deleted!" even when there was none |
| `UserController.Store.VerifyPan` | api/controllers/user.controller.js:81-112 | Without a truthy PAN number and file path the reply is 400, with no error detail, and nothing is written. Otherwise the number and path are stored, unverified. A missing user gives 500 with the null-read TypeError message as its error; a unique-index collision gives 500 with the duplicate-key message; both leave the store unchanged |
| `UserController.Store.VerifyDocuments` | api/controllers/user.controller.js:114-155 | Unless both numbers are truthy and both files are given the reply is 400, with no error detail, and nothing is written. Otherwise both numbers and paths are stored with both flags false. A missing user gives 500 with the null-read TypeError message; a collision gives 500 with the duplicate-key message; both leave the store unchanged |
| `Upload.TrimTrailingSlashes` | api/middlewares/upload.js:49 | Drops exactly the trailing slashes of a path |
| `Upload.LastSegment` | api/middlewares/upload.js:49 | The path's final slash-free suffix |
| `Upload.LastDot` | api/middlewares/upload.js:49 | The index of the last dot, or none when there is no dot |
| `Upload.Extname` | api/middlewares/upload.js:49 | The extension is empty or a dot followed by dot-free, slash-free text |
| `Upload.FileFilter` | api/middlewares/upload.js:48-55 | A file is accepted iff its lower-cased extension is one of .jpg, .jpeg, .png, .pdf; otherwise it is refused with "Only images and PDFs are allowed" |
| `Upload.Destination` | api/middlewares/upload.js:26-40 | Field "aadharDocument" goes to uploads/aadharcards and every other field to uploads/pancards |
| `Upload.StoredName` | api/middlewares/upload.js:41-44 | The stored name is decimal digits, a dash, then exactly the original name |
| `Upload.Admit` | api/middlewares/upload.js:48-61 | A file is stored iff its extension is allowed and it has at most 5242880 bytes. The filter's refusal comes first, then "File too large". An accepted file's path is its folder, a slash, and its stored name |
| `Upload.ExtnameOfPlainName` | api/middlewares/upload.js:49 | For a slash-free name, the extension runs from the last dot, unless that dot leads the name |
| `Upload.ExtnameOfStem` | api/middlewares/upload.js:49 | A slash-free name made of a non-empty stem, a dot and dot-free text has that dot and text as its extension |
| `Upload.UpperCaseExtensionAccepted` | api/middlewares/upload.js:49-50 | Any slash-free non-empty stem followed by ".PDF" is accepted |
| `Upload.DotFileRejected` | api/middlewares/upload.js:49-54 | A bare dot-file such as ".pdf" has an empty extension and is refused |
| `Upload.NoDotRejected` | api/middlewares/upload.js:49-54 | A name with no dot is refused |
| `Upload.TrimAfterPrefix` | api/middlewares/upload.js:42-49 | A prefix that does not end in a slash leaves the trailing slashes of what follows unchanged |
| `Upload.LastSegmentWhole` | api/middlewares/upload.js:49 | A slash-free path is its own last segment |
| `Upload.LastSegmentAfterPrefix` | api/middlewares/upload.js:42-49 | A slash-free prefix changes the last segment only when the rest has no slash |
| `Upload.LastDotAfterPrefix` | api/middlewares/upload.js:42-49 | A dot-free prefix shifts the last dot without changing which dot it is |
| `Upload.SegmentExtensionAfterPrefix` | api/middlewares/upload.js:42-49 | A non-empty dot-free prefix keeps a segment's non-empty extension |
| `Upload.StoredNameReadsTimestamp` | api/middlewares/upload.js:41-44 | The digits before the dash in the stored name read back as the upload time |
| `Upload.StoredNameKeepsExtension` | api/middlewares/upload.js:42-49 | The `<timestamp>-<name>` stored name has the same extension as the original name |
| `Upload.AdmittedKeepsExtension` | api/middlewares/upload.js:41-60 | An accepted file is stored under a name whose extension is the original's, which is on the allow-list |
| `PanVerification.FormatAadhaar` | client/src/pages/PanVerification.jsx:197-202 | The formatted Aadhaar number holds only digits and single spaces (none leading, trailing or doubled); its digits are exactly the input's digits in order; it is empty iff the input has no digits, so digit-free input formats to the empty string |
| `PanVerification.Digits` | client/src/pages/PanVerification.jsx:199 | Keeps only digits and is no longer than its input |
| `PanVerification.Groups` | client/src/pages/PanVerification.jsx:200 | Every group has 1-4 characters, every group but the last has exactly 4, and there are no groups only for empty input |
| `PanVerification.DigitsConcat` | client/src/pages/PanVerification.jsx:199 | Stripping non-digits works part by part |
| `PanVerification.ConcatGroups` | client/src/pages/PanVerification.jsx:200 | The groups written one after another give back the digit string |
| `PanVerification.DigitsOfJoin` | client/src/pages/PanVerification.jsx:200 | Stripping the separators from joined digit groups gives the groups' digits back |
| `PanVerification.JoinShape` | client/src/pages/PanVerification.jsx:200 | Joined digit groups contain only digits and single spaces, with no space at either end |
| `PanVerification.FormatGroups` | client/src/pages/PanVerification.jsx:199-200 | The formatted number is the input's digits in groups of four joined by single spaces; it is empty iff the input has no digits |
| `PanVerification.FormatIdempotent` | client/src/pages/PanVerification.jsx:199-201 | Formatting an already formatted number returns it unchanged |
| `PanVerification.TwelveDigitsMatch` | client/src/pages/PanVerification.jsx:200-203 | Twelve digits format to a value that matches "[0-9]{4} [0-9]{4} [0-9]{4}" |
| `PanVerification.PatternHoldsTwelveDigits` | client/src/pages/PanVerification.jsx:203 | Any value that matches the Aadhaar pattern contains exactly twelve digits |
| `PanVerification.FormatMatchesPatternIff` | client/src/pages/PanVerification.jsx:197-203 | A formatted number matches the Aadhaar pattern iff the input held exactly twelve digits; more digits are kept and fail the pattern |
| `PanVerification.PanInput` | client/src/pages/PanVerification.jsx:163 | What is typed is stored with the same length and no lower-case letter |
| `PanVerification.PanInputPatternIff` | client/src/pages/PanVerification.jsx:163-164 | An upper-cased PAN matches "[A-Z]{5}[0-9]{4}[A-Z]{1}" iff it was typed as five letters of either case, four digits and a letter |
| `PanVerification.PanInputIdempotent` | client/src/pages/PanVerification.jsx:163 | Upper-casing a stored PAN again changes nothing |
| `PanVerification.InitialNumber` | client/src/pages/PanVerification.jsx:8-9 | A stored number starts the input when it is truthy; otherwise the input starts empty |
| `PanVerification.RedirectTarget` | client/src/pages/PanVerification.jsx:22 | The redirect target is the navigation state's when truthy, else "/profile" |
| `PanVerification.BuildSubmission` | client/src/pages/PanVerification.jsx:44-54 | The form always starts with pancard and aadharcard holding the two numbers. Each document is attached, under its own name, exactly when one was chosen |
| `PanVerification.SubmittedNumbers` | client/src/pages/PanVerification.jsx:45-46 | The server reads back exactly the two numbers the page put first |
| `PanVerification.ServerAcceptsIff` | client/src/pages/PanVerification.jsx:44-54 | A form built this way passes the server's completeness check iff both numbers are non-empty and both documents were chosen |
| `PanVerification.DocumentReply` | api/controllers/user.controller.js:142-153 | The document handlers answer 200 on success and their own status on refusal, with a message and no success field |
| `PanVerification.ErrorReply` | api/index.js:67-75 | A reply from the error middleware carries success = false, its status and its message |
| `PanVerification.AsWrittenPopup` | client/src/pages/PanVerification.jsx:70-90 | As written, the page shows an error iff the body says success = false |
| `PanVerification.RefusedSubmissionShownAsSuccess` | client/src/pages/PanVerification.jsx:70 | As written, every refusal of a document submission (the 400 for missing inputs, the 500 for a missing user or a duplicate number) is shown as success, where the intended check shows a non-2xx refusal as an error |
| `PanVerification.ReplyPopup` | client/src/pages/PanVerification.jsx:70-90 | Corrected: success iff the reply is 2xx and does not say success = false |
| `PanVerification.DocumentPopupIff` | client/src/pages/PanVerification.jsx:70-90 | With the corrected check, a document reply is shown as success iff the server stored the documents |
| `PanVerification.ErrorReplyShownAsError` | client/src/pages/PanVerification.jsx:70 | Error-middleware replies are shown as errors under both checks |
| `PanVerification.Page.constructor` | client/src/pages/PanVerification.jsx:7-22 | The form starts with the user's numbers (or empty), no files and no popup, and the redirect target defaulted |
| `PanVerification.Page.TypePan` | client/src/pages/PanVerification.jsx:163 | Typing into the PAN input stores the upper-cased text and nothing else |
| `PanVerification.Page.TypeAadhaar` | client/src/pages/PanVerification.jsx:197-202 | Typing into the Aadhaar input stores the formatted number and nothing else |
| `PanVerification.Page.ChoosePanFile` | client/src/pages/PanVerification.jsx:175 | Choosing a PAN file records it (or none) and keeps the Aadhaar file and everything else |
| `PanVerification.Page.ChooseAadhaarFile` | client/src/pages/PanVerification.jsx:214 | Choosing an Aadhaar file records it (or none) and keeps the PAN file and everything else |
| `PanVerification.Page.Submit` | client/src/pages/PanVerification.jsx:39-102 | Sends the built form: both numbers first, each document exactly when chosen. A raised request shows its message as an error. A reply is an error only when its body says success = false, and then shows the body's message; any other reply, refusals included, shows the fixed success text. Loading always ends and the popup is shown |
| `CreateListing.InputTypeOf` | client/src/pages/CreateListing.jsx:209-320 | The five flags are checkboxes and the four counts and prices are number inputs |
| `CreateListing.ApplyChange` | client/src/pages/CreateListing.jsx:129-158 | A change writes its input's field and no other. Sale/rent set the type to "sale"/"rent", the feature boxes store their checked state, and text, textarea and number inputs store the typed string |
| `CreateListing.ToNumber` | client/src/pages/CreateListing.jsx:165 | Unary plus: a number is itself and the empty string is 0. A digit string is a non-negative number, a minus sign and digits a non-positive one, and a string starting with anything else is not a number |
| `Text.DecimalOfNatToString` | client/src/pages/CreateListing.jsx:165 | Reading back the decimal text of a natural number gives that number |
| `CreateListing.TypedNaturalValue` | client/src/pages/CreateListing.jsx:165 | A natural number typed as text reads as exactly that number |
| `CreateListing.TypedNegativeValue` | client/src/pages/CreateListing.jsx:165 | A minus sign before a typed natural number reads as its negation |
| `CreateListing.SubmitCheck` | client/src/pages/CreateListing.jsx:163-166 | Submission is refused with no images, or else when the regular price is numerically below the discount price; otherwise it proceeds |
| `CreateListing.EqualPricesPass` | client/src/pages/CreateListing.jsx:165-166 | Equal prices pass the check |
| `CreateListing.CheckIgnoresOffer` | client/src/pages/CreateListing.jsx:165-166 | The price check gives the same answer whether or not the offer flag is set |
| `CreateListing.PricesComparedAsNumbers` | client/src/pages/CreateListing.jsx:163-166 | For any two natural numbers typed as the prices, a form with images passes iff the discount is at most the regular price, and is otherwise refused with the discount error; so "10" against a regular "9" is refused although it sorts first as text |
| `CreateListing.ListingForm.constructor` | client/src/pages/CreateListing.jsx:19-32 | The form starts as a rental with one bedroom and one bathroom, regular price 50, discount 0, all flags false and no images, so at most six images |
| `CreateListing.ListingForm.ImageSubmit` | client/src/pages/CreateListing.jsx:41-69 | Uploads start, one per file in order, only when 1 <= selected and selected + existing < 7. Otherwise the limit error is set and the images are unchanged. On success the URLs are appended after the existing ones; on failure the images are unchanged. A form with at most six images keeps at most six |
| `CreateListing.ListingForm.RemoveImage` | client/src/pages/CreateListing.jsx:122-127 | Removes exactly the image at the index and keeps the others in order; an index out of range changes nothing; the six-image bound is kept |
| `CreateListing.ListingForm.Change` | client/src/pages/CreateListing.jsx:129-158 | The three checks, each building from the same captured form, leave the state the last applicable one builds, which is `ApplyChange`; the images, and so the six-image bound, are untouched |
| `CreateListing.ListingForm.Submit` | client/src/pages/CreateListing.jsx:160-189 | A failed check sets its message and sends nothing. Otherwise the form is sent with the signed-in user as owner. A success = false reply sets the error to the reply's message, absent if the reply has none; the page then goes to "/listing/" followed by the reply's id (the text "undefined" when it has none). The form is unchanged |
| `Seqs.DropIndex` | client/src/pages/CreateListing.jsx:122-127 | Filtering by position drops one element when the index is in range and none otherwise |
| `Seqs.DropIndexSplices` | client/src/pages/CreateListing.jsx:122-127 | The result is the elements before the index followed by those after it; an index out of range leaves the sequence unchanged |
| `ListingRecord.WithoutId` | client/src/pages/Favorites.jsx:55-56 | The filtered list keeps exactly the entries with another id |
| `ListingRecord.WithoutIdConcat` | client/src/pages/Favorites.jsx:55-56 | Filtering works part by part, so the kept entries stay in order |
| `ListingRecord.WithoutAbsentId` | client/src/pages/Profile.jsx:123 | Removing an id that is not in the list leaves it unchanged |
| `ListingRecord.WithoutIdSplices` | client/src/pages/Profile.jsx:123 | Removing the one entry with that id leaves the entries around it, in order |
| `ListingPage.IsFavorite` | client/src/pages/Listing.jsx:78 | The flag is true iff some fetched favorite has the page's listing id |
| `ListingPage.FavoriteFlagMatchesStore` | client/src/pages/Listing.jsx:64-85 | For the favorites the API returns, the flag is true iff the listing exists and its id is in the user's favorites |
| `ListingPage.FavoritesChangeReply` | api/controllers/user.controller.js:171-191 | A favorites change reports success = true iff the store accepted it |
| `ListingPage.FavoriteToggle.constructor` | client/src/pages/Listing.jsx:34-35 | The flag and its loading state start false |
| `ListingPage.FavoriteToggle.CheckStatus` | client/src/pages/Listing.jsx:64-85 | Signed in and fetched, the flag becomes the derived one. Signed out, refused or failed, it is unchanged |
| `ListingPage.FavoriteToggle.Toggle` | client/src/pages/Listing.jsx:96-143 | Signed out, nothing is sent and nothing changes. Otherwise a remove is sent when the flag is set and an add when not. The flag flips only on a truthy success, and loading ends either way |
| `ListingPage.ToggleOnStore` | client/src/pages/Listing.jsx:96-143 | A click answered by the store sends remove when the flag is set and add otherwise. If the flag agreed with the user's stored favorites, it still agrees afterwards, and the flag `checkFavoriteStatus` would derive from the refetched favorites equals it. For an existing user and listing the flag flips. The store invariant is kept |
| `ListingPage.Contact` | client/src/pages/Listing.jsx:404-426 | The contact area is exactly one of: contact (signed-in non-owner), "This is your listing" (owner), or a sign-in prompt (signed out) |
| `ListingPage.ShowManagement` | client/src/pages/Listing.jsx:363 | The management panel shows iff the contact area says the listing is the visitor's own, so only to a signed-in owner |
| `ListingPage.ShownPrice` | client/src/pages/Listing.jsx:271-273 | The shown price is the discount price on offer, else the regular price |
| `ListingPage.OfferPanel` | client/src/pages/Listing.jsx:384-395 | The offer box appears iff the listing is on offer; it shows the same price as the headline, the regular price struck through, and a saving that added to the shown price gives the struck price |
| `ListingPage.RoomWord` | client/src/pages/Listing.jsx:303-307 | The room word is plural iff the count is above one |
| `ListingPage.TypeLabel` | client/src/pages/Listing.jsx:289 | "For Rent" iff the type is "rent", else "For Sale" |
| `ListingPage.ParkingLabel` | client/src/pages/Listing.jsx:311 | "Parking" iff the listing has parking, else "No Parking" |
| `ListingPage.FurnishedLabel` | client/src/pages/Listing.jsx:315 | "Furnished" iff furnished, else "Unfurnished" |
| `ListingPage.Reference` | client/src/pages/Listing.jsx:431 | The reference is the first eight characters of the id, or all of a shorter id |
| `FavoritesPage.Favorites.constructor` | client/src/pages/Favorites.jsx:8-10 | The page starts with no favorites, loading, and nothing being removed |
| `FavoritesPage.Favorites.Load` | client/src/pages/Favorites.jsx:14-41 | Signed out, nothing is fetched. Otherwise the fetched list replaces the local one only when the response was ok, and loading ends |
| `FavoritesPage.Favorites.BeginRemove` | client/src/pages/Favorites.jsx:46 | The entry being removed is marked while the request runs |
| `FavoritesPage.Favorites.FinishRemove` | client/src/pages/Favorites.jsx:53-66 | On a truthy success exactly the entries with the id the handler was called with go and the rest keep their order. Otherwise the list is unchanged. The mark is cleared either way, even when a later removal has set it |
| `ProfilePage.Status` | client/src/pages/Profile.jsx:184-211 | "Verified" iff the flag is set, whatever the number; else "Pending" iff the number is truthy; else "Not Submitted" |
| `ProfilePage.VerifyButtonLabel` | client/src/pages/Profile.jsx:220 | "Update Documents" iff both numbers are present, else "Verify Documents" |
| `ProfilePage.ShowUnderReview` | client/src/pages/Profile.jsx:223-226 | The under-review note shows iff neither document's status is Verified and at least one is Pending |
| `ProfilePage.NewAccountNotSubmitted` | client/src/pages/Profile.jsx:184-226 | A new account shows both documents as Not Submitted, offers "Verify Documents" and no review note |
| `ProfilePage.SubmittedDocumentsPending` | client/src/pages/Profile.jsx:184-226 | For the stored record after a submission the store accepted, the record `getUser` would now return, the derived statuses are both Pending, the button label is "Update Documents" and the review note is due. The page shows these only once its signed-in user is reloaded (see Left out) |
| `ProfilePage.Profile.constructor` | client/src/pages/Profile.jsx:16-18 | The page starts on the profile tab with no edited fields and no listings |
| `ProfilePage.Profile.Change` | client/src/pages/Profile.jsx:34-36 | The edited field takes the typed value and every other field stays |
| `ProfilePage.Profile.SelectProfileTab` | client/src/pages/Profile.jsx:157 | The profile tab button selects the profile tab and changes nothing else |
| `ProfilePage.Profile.ShowListings` | client/src/pages/Profile.jsx:98-110 | The listings are adopted and the tab switches to "listings" only when the fetch succeeds |
| `ProfilePage.Profile.ListingDelete` | client/src/pages/Profile.jsx:112-127 | Unless the reply says success = false or the request raised, exactly the listing with that id leaves the list and the rest keep their order |
| `Tabs.InitialTabValue` | client/src/components/ui/tabs.tsx:12 | The internal value starts as value, else defaultValue, else "" (the first truthy one) |
| `Tabs.TriggerSelected` | client/src/components/ui/tabs.tsx:47-54 | Outside a selector a trigger throws its message; inside, it is selected iff its value equals the selection |
| `Tabs.ContentRendered` | client/src/components/ui/tabs.tsx:84-93 | Outside a selector a panel throws its message; inside, it renders iff its value equals the selection |
| `Tabs.OnePanelRendered` | client/src/components/ui/tabs.tsx:91-93 | Of panels with distinct values, exactly the selected one renders |
| `Tabs.TabsState.constructor` | client/src/components/ui/tabs.tsx:5-12 | The selector starts with the given props, the initial internal value and no callbacks made |
| `Tabs.TabsState.HandleValueChange` | client/src/components/ui/tabs.tsx:14-25 | Uncontrolled, the internal value and the selection become the new value. Controlled, both stay. A listener, if any, is always notified |
| `Tabs.TabsState.ClickTrigger` | client/src/components/ui/tabs.tsx:56-59 | A click notifies the selector before the trigger's own handler; uncontrolled, the clicked trigger becomes the selection |
| `Tabs.TabsState.SetValue` | client/src/components/ui/tabs.tsx:12-25 | A new controlled value does not re-initialise the internal value |

## Left out

- MongoDB I/O, connection setup and server start. The collections are two maps, and every handler runs to completion before the next (no concurrency, so the gap between the existence read and the `$push` in `addToFavorites` is not modelled).
- Route matching and the authentication middleware. The signed-in user's id is a parameter (`callerId`, `userId`). Malformed ids that the database driver would refuse with a cast error are not modelled.
- bcrypt: the hash is a function parameter, so nothing is assumed about its output.
- Clearing the session cookie on delete.
- Filesystem effects: creating the upload folders, writing files, and the normalisation `path.join` applies to the stored path. The model joins folder and name with one slash.
- Multer's internals beyond the order "filter, then size limit"; the size error is the library's "File too large".
- `Date.now()`: the timestamp is a parameter.
- Firebase storage uploads on the create-listing page. The image uploads' results are parameters (the outcome given to `ImageSubmit`). The property-document upload and the `documentUrl` it writes into the form are not modelled, so the modelled submission omits that field.
- fetch, toasts, navigation targets (except where a handler's result names them), `setTimeout` timers, Redux dispatch, the clipboard, and all rendering and styling.
- Floating-point display (the discount percentage, upload progress) and locale formatting of prices and dates.
- The listing controller (search, query construction, listing deletion and any cascade into favorites); it is not part of this model. Only what the favorites handler does with ids of missing listings is stated.
- `CreateListing.ToNumber`: only optional-minus-and-digits strings are read as numbers. Fractions, exponents, a leading plus and surrounding whitespace are treated as not a number. The value of a digit string is stated through `TypedNaturalValue` and `TypedNegativeValue`, which cover strings without leading zeros.
- Browser constraint validation (`required`, `min`/`max`, `minLength`/`maxLength`, the `pattern` attributes as a submit blocker). The patterns themselves are modelled as predicates.
- React's asynchronous state: each handler is one method that runs to completion. A handler that closes over an older state is not modelled: the image upload completing after other edits, and two overlapping favorite removals, where the second to finish filters the list it captured and so can bring back the entry the first removed.
- `toLowerCase`/`toUpperCase` beyond ASCII letters.
- `UserController.ApplyUpdate`: that an absent field leaves the stored one unchanged assumes Mongoose 6 or later, which strips undefined keys from `$set`. The version is not fixed by the code shown; under Mongoose 5 every omitted field (username, email, password, avatar) would be set to null.
- `ProfilePage.SubmittedDocumentsPending`: the profile page derives the statuses, button and note from the signed-in user held in the client store, which a document submission does not refresh. Only signing in again or a profile update replaces it, so right after a submission the page still shows the old statuses. The lemma states what the stored record derives.
- `UserModel.WithoutPassword`: the schema's `timestamps` option adds `createdAt` and `updatedAt`, and Mongoose adds the version key `__v`. The `User` datatype has none of them, so the public view, which does carry them, is stated only for the modelled fields.
- `UserController.SubmitDocuments`: "nothing else changes" holds for the modelled fields only. Every update (profile update, both document submissions, and the favorites `$push` and `$pull`) also sets `updatedAt`, which is not modelled.
- `Server.Raise`: `errorHandler` lives in api/utils/error.js, which is not part of this model. It is assumed to build an error whose `statusCode` and `message` are the arguments.
- `UserController.Store.UpdateUser`: the unique-index failure is reported with the start of the database's duplicate-key message, not its full text.
- `UserController.Store.CreateUser`: a validation failure is reported as "User validation failed", without the per-path details. Account creation itself lives in the authentication controller, which is not part of this model; this method is the record's schema and index check.

## Findings

| source | as written | input that shows it | evidently intended | confidence | as-written member | corrected member |
|---|---|---|---|---|---|---|
| client/src/pages/PanVerification.jsx:70 | Only a body with `success === false` counts as a failure. The document handlers answer 400 and 500 with a body that has no `success` field, so their refusals show "Documents submitted successfully!" and redirect | Submitting a PAN number another user already has: the unique index makes the update fail, and the server answers 500 "Error submitting document info" | A non-2xx reply (or `success: false`) shows the error popup with the server's message | high; not executed | `PanVerification.RefusedSubmissionShownAsSuccess` | `PanVerification.DocumentPopupIff` |
