# A property-listing site, modelled in Dafny

This project models the core of a Next.js property-rental site. The site has:

- a listing page with search text, five filter fields, active-filter chips and a favourites set;
- a property-listing endpoint that filters a fixed collection by five query parameters;
- a booking page whose form is checked field by field before it is posted;
- a booking endpoint with its 405 / 400 / 402 / 200 / 500 ladder;
- the review schema, with its field constraints and its unique `(propertyId, userId)` index;
- the review section, the property card, the grid and the list components;
- two data-access layers: the mock/MongoDB switch of `lib/db-utils.ts` and the plain mock of `lib/mockDb.ts`.

Each source file is one module.

- Component and page state that React updates in place is a `class`: `ListingController`, `BookingPageState`, `ReviewSectionState`, `ReviewTable`, `MongoDatabase` and `DbModule`. Its handlers are methods with `modifies` clauses.
- Rendering decisions and request handlers are pure functions, with lemmas beside them.
- Three helper modules serve the rest:
  - `Text` holds the JavaScript string behaviour the core relies on. That covers the `\s` whitespace set, ASCII `toLowerCase`, `includes`, `trim`, `split(' ')` and `join`. It also covers truthiness of an optional string and `Number()` on integer strings.
  - `Sequences` holds `Array.filter`.
  - `PropertyTypes` holds the records of `types/property.ts` and the first-match lookups shared by both data layers.

The clock, `Math.random`, the network, the dynamic import of mongoose and the environment variables become parameters.

## Model

| member | source | states |
|---|---|---|
| PropertyTypes.FindById | lib/db-utils.ts:71 | `find(p => p.id === id)`: None exactly when no record has the id; otherwise a record of the list with that id |
| PropertyTypes.FindIndex | lib/mockDb.ts:69 | the first position holding the id; no earlier record has it; None exactly when none does |
| PropertyTypes.ReviewsOf | lib/db-utils.ts:74-77 | the reviews of the first record with the id, `[]` for a missing `reviews` field, `[]` when no record matches |
| PropertyTypes.StoreFixtureLookups | lib/db-utils.ts:4-50 | on the one-record fixture, id "1" finds the apartment and its single review "rev1"; every other id finds nothing |
| Text.ParseNumberOfDecimal | pages/api/properties/index.ts:59 | `Number` of a decimal numeral is its value |
| Text.ParseNumberOfNegative | pages/api/properties/index.ts:75 | `Number("-" + numeral)` is the negated value |
| Text.BlankIsZero | pages/api/properties/index.ts:64 | `Number` of a blank or whitespace-only string is 0 |
| Text.LetterIsNaN | pages/api/properties/index.ts:59 | in the integer-numeral reading of `Number`, a string holding an ASCII letter is NaN (None) |
| Text.SplitJoin | components/property/PropertyGrid.tsx:100-102 | splitting a join on the same separator gives the pieces back, when no piece holds the separator |
| Text.TrimPadded | models/Review.ts:41 | trimming removes exactly the whitespace padding around a core that does not start or end with whitespace |
| Sequences.Filter | pages/api/properties/index.ts:49 | `Array.filter`: no longer than the input, and holding exactly the input's elements that pass the test |
| Text.IndexOf | components/property/ReviewSection.tsx:124 | the first position of the character; None exactly when it does not occur |
| Text.ToLower | pages/api/properties/index.ts:48 | ASCII `toLowerCase`: same length, each upper-case letter becomes its lower-case partner (code + 32), every other character kept |
| Text.CaseVariantsLowerAlike | pages/api/properties/index.ts:48 | two strings that differ only in the case of ASCII letters lower to the same string |
| Text.Trim | models/Review.ts:41 | `trim`: the result neither starts nor ends with `\s` whitespace, and every non-whitespace character survives (`TrimKeeps`) |
| Text.Split | components/property/ReviewSection.tsx:124 | `split(' ')`: always at least one piece; `Text.SplitJoin` proves it inverts `Join` |
| Text.RemoveWhitespace | pages/booking/index.tsx:64 | `replace(/\s+/g, '')`: the non-whitespace characters of the input, in order (a subsequence), with no whitespace left and length the input's length minus its whitespace count |
| Text.ParseNumber | pages/api/properties/index.ts:59 | `Number` on integer numerals: trimmed, blank is 0, an optionally signed digit run is its value, anything else NaN; stated by `BlankIsZero`, `ParsePaddedNumeral`, `ParsePaddedSigned`, `ParseNumberOfDecimal`, `ParseNumberOfNegative`, `StrayCharacterIsNaN` and `LetterIsNaN` |
| Text.ParsePaddedNumeral | pages/api/properties/index.ts:59 | a digit run padded with whitespace reads as its value, leading zeros included (`" 007 "` is 7) |
| Text.ParsePaddedSigned | pages/api/properties/index.ts:59 | a sign and a digit run padded with whitespace: `+` keeps the value, `-` negates it |
| Text.StrayCharacterIsNaN | pages/api/properties/index.ts:59 | in the integer-numeral reading of `Number`, a string holding any character that is not whitespace, a digit or a sign (`.`, `$`, a letter) is NaN (None) |
| PropertiesApi.FilterProperties | pages/api/properties/index.ts:44-79 | the five conditional filter stages in source order; stated by `PipelineIsOneFilter` and `FilterMembership` |
| ListingPage.Entries | pages/index.tsx:26-32 | `Object.entries(filters)`: five pairs, the i-th being the name and value of the record's i-th field (minPrice, maxPrice, propertyType, bedrooms, minRating) |
| ListingPage.QueryParams | pages/index.tsx:41-49 | the search pair if non-empty, then the non-empty entries; stated by `ParamsCarryExactlyActiveFilters`, `ParamsCarrySearch` and `ParamsEmptyIffInactive` |
| ListingPage.ChipText | pages/index.tsx:321-330 | the text after a chip's key; stated by `ChipTextRules` and `TypeChipRules` |
| BookingPage.IsValidEmail | pages/booking/index.tsx:50-51 | no whitespace, one `@` with text before it, a `.` strictly inside the text after it; equal to the regular expression by `EmailCheckMatchesPattern` |
| BookingPage.IsValidPhone | pages/booking/index.tsx:57-58 | nine to fifteen characters, each a digit, `-` or `+` |
| BookingPage.IsValidCard | pages/booking/index.tsx:64-65 | thirteen to nineteen characters once whitespace is removed |
| BookingPage.IsValidCvv | pages/booking/index.tsx:71 | three or four raw characters |
| ReviewModel.Errors | models/Review.ts:14-51 | one message per failing field, at most five; partnered by `ErrorsIffInvalid` |
| ReviewModel.IsValid | models/Review.ts:14-44 | the schema's constraints stated field by field, independent of the messages |
| ReviewSection.Initials | components/property/ReviewSection.tsx:123-126 | the first character of each space-separated piece; equal to the word starts by `InitialsAreWordStarts` |
| PropertyGrid.Cn | components/property/PropertyGrid.tsx:100-102 | the truthy classes joined by single spaces; stated by `CnKeepsClasses` and `CnDropsEmpty` |
| PropertiesApi.PipelineIsOneFilter | pages/api/properties/index.ts:44-79 | the five conditional `filter` stages equal one filter by the conjunction of the set criteria |
| PropertiesApi.FilterMembership | pages/api/properties/index.ts:44-79 | a property is returned iff it is in the collection and meets every set criterion |
| PropertiesApi.ResultIsSubsequence | pages/api/properties/index.ts:44-81 | the result keeps the collection's order and drops records only |
| PropertiesApi.FilterIdempotent | pages/api/properties/index.ts:44-79 | filtering the result again with the same query changes nothing |
| PropertiesApi.NoCriteriaIsIdentity | pages/api/properties/index.ts:44-81 | with every parameter absent or empty, the whole collection is returned |
| PropertiesApi.ResultWithinBounds | pages/api/properties/index.ts:58-79 | every returned property satisfies each set price and bedroom bound, and that bound is a number |
| PropertiesApi.NonNumericBoundEmpties | pages/api/properties/index.ts:58-79 | in the integer-numeral reading of `Number`, a set but non-numeric minPrice, maxPrice or bedrooms (NaN) empties the result |
| PropertiesApi.CapitalisedTypeNeverMatches | pages/api/properties/index.ts:68-72 | the stored type is compared without lowering, so a stored type with a capital letter never matches |
| PropertiesApi.CaseVariantsSearchAlike | pages/api/properties/index.ts:47-55 | a term retyped with some letters in the other case selects the same properties |
| PropertiesApi.SearchIgnoresTermCase | pages/api/properties/index.ts:47-55 | two terms that lower to the same string select the same properties |
| PropertiesApi.CityPrefixIsFound | pages/api/properties/index.ts:47-55 | a term that is, up to case, a prefix of the city finds the property |
| PropertiesApi.UnmatchedTermExcludes | pages/api/properties/index.ts:47-55 | a term found in none of title, description, city and country excludes the property |
| PropertiesApi.OtherKeysIgnored | pages/api/properties/index.ts:41 | query keys other than the five destructured ones change nothing |
| PropertiesApi.Handler | pages/api/properties/index.ts:40-86 | status 200; the body is a subsequence of the collection and holds exactly its admitted records |
| ListingPage.KeyIndex | pages/index.tsx:26-32 | each filter key has its own position in the record's field order |
| ListingPage.Filters.With | pages/index.tsx:80-86 | `{...prev, [name]: value}`: the named field takes the value, the others are unchanged |
| ListingPage.HasActiveFilters | pages/index.tsx:119 | true iff some filter value is non-empty or the search text is non-empty |
| ListingPage.BuildParams | pages/index.tsx:41-49 | the loop's parameters are the search pair when the text is non-empty, then every non-empty filter entry in record order |
| ListingPage.AppendNonEmpty | pages/index.tsx:47-49 | the `forEach` appends exactly the entries with a non-empty value, in order |
| ListingPage.ParamsCarryExactlyActiveFilters | pages/index.tsx:47-49 | a filter's pair is sent iff its value is non-empty |
| ListingPage.ParamsInSendingOrder | pages/index.tsx:41-49 | the parameters go out with `search` first, then the non-empty filters in record order (strictly increasing rank) |
| ListingPage.ParamsCarrySearch | pages/index.tsx:44 | a non-empty search text is the first parameter; an empty one is never sent |
| ListingPage.ParamsEmptyIffInactive | pages/index.tsx:41-49 | no parameter is sent iff no filter is active |
| ListingPage.ToQueryAbsent | pages/index.tsx:52 | a name never appended is absent from the query the server reads |
| ListingPage.ToQueryPresent | pages/index.tsx:52 | a name appended with a single value reads back as that value |
| ListingPage.ReadBack | pages/index.tsx:41-52 | the server reads each filter's value back when it is non-empty, and nothing otherwise |
| ListingPage.ServerSeesActiveValues | pages/index.tsx:41-52 | the criteria the endpoint destructures are exactly the page's non-empty search and filter values |
| ListingPage.MinRatingHasNoEffect | pages/index.tsx:31 | changing the minimum-rating filter never changes the properties the endpoint returns |
| ListingPage.UpdateFavorites | pages/index.tsx:89-99 | the id is in the new set iff `isFavorite`; every other id keeps its membership |
| ListingPage.OptionIndex | pages/index.tsx:323 | `find` over the type options: the first option with that value, or None exactly when none has it |
| ListingPage.TypeLabel | pages/index.tsx:323 | a known type value shows its option's label; an unknown value is shown as it is |
| ListingPage.ChipTextRules | pages/index.tsx:324-330 | the bedroom chip is singular only for "1"; price chips are the value after `$`; rating chips are the value followed by `+ stars` |
| ListingPage.TypeChipRules | pages/index.tsx:322-323 | "villa" shows as "Villa"; a value outside the option list is shown unchanged |
| ListingPage.ActiveChips | pages/index.tsx:318-330 | a key has a chip iff its value is non-empty, the chip shows that key's text, and the chips follow the record's field order, so no key has two |
| ListingPage.ChipsFrom | pages/index.tsx:318-319 | the chips of the record's fields from a position on: one per field with a non-empty value, in field order |
| ListingPage.ListingController.constructor | pages/index.tsx:22-34 | loading, nothing shown, no search, no filters, no favourites, no active filter |
| ListingPage.ListingController.SetSearchQuery | pages/index.tsx:25 | the search text becomes the typed value |
| ListingPage.ListingController.HandleFilterChange | pages/index.tsx:80-86 | exactly the named filter changes |
| ListingPage.ListingController.ClearFilters | pages/index.tsx:107-116 | every filter and the search text are emptied, so no filter is active |
| ListingPage.ListingController.RemoveFilterChip | pages/index.tsx:341-345 | the chip's filter is emptied and the others are unchanged |
| ListingPage.ListingController.RemoveSearchChip | pages/index.tsx:310 | the search text is emptied |
| ListingPage.ListingController.HandleFavoriteToggle | pages/index.tsx:89-99 | the favourites become the add-or-delete update of the old set |
| ListingPage.ListingController.StartFetch | pages/index.tsx:40-49 | loading is raised and the parameters are those of the current search and filters |
| ListingPage.ListingController.FetchSucceeded | pages/index.tsx:55-56 | the response is shown, the error cleared and loading lowered |
| ListingPage.ListingController.FetchFailed | pages/index.tsx:57-63 | the fixed message is set, the list emptied and loading lowered |
| BookingPage.BookingForm.With | pages/booking/index.tsx:33-39 | the named field takes the value; the others are unchanged |
| BookingPage.AllPresent | pages/booking/index.tsx:43-44 | true iff every one of the eight fields is non-empty |
| BookingPage.EmailCheckMatchesPattern | pages/booking/index.tsx:50-51 | the email check accepts exactly the strings of the form `[^\s@]+@[^\s@]+\.[^\s@]+` |
| BookingPage.FirstError | pages/booking/index.tsx:41-77 | None iff every check passes; each message iff its check is the first to fail |
| BookingPage.WhitespaceIsPresent | pages/booking/index.tsx:43-44 | a form of single spaces passes the presence check |
| BookingPage.PlaceholderPhoneRejected | pages/booking/index.tsx:57-58 | the phone placeholder shown to users fails the phone check |
| BookingPage.PhoneDigitsAccepted | pages/booking/index.tsx:57-58 | a run of digits with a leading `+` passes the phone check |
| BookingPage.CardCharactersUnchecked | pages/booking/index.tsx:64-65 | the card check holds iff the count of non-whitespace characters is 13 to 19, whatever they are (letters included) |
| BookingPage.CardTooLongStaysInvalid | pages/booking/index.tsx:64-65 | more than 19 non-whitespace characters fail the card check, however many spaces surround them |
| BookingPage.PlaceholderCardAccepted | pages/booking/index.tsx:64-65 | the spaced placeholder `0000 0000 0000 0000` passes the card check |
| BookingPage.CvvIsRawLength | pages/booking/index.tsx:71 | the CVV check counts raw characters, spaces and letters included |
| BookingPage.SubmitErrorText | pages/booking/index.tsx:98 | the server's message when it is truthy, else the fixed fallback; never empty |
| BookingPage.BookingPageState.constructor | pages/booking/index.tsx:19-31 | an empty form, not loading, no error, not confirmed; the empty form fails the presence check |
| BookingPage.BookingPageState.HandleChange | pages/booking/index.tsx:33-39 | exactly one field of the form changes |
| BookingPage.BookingPageState.ValidateForm | pages/booking/index.tsx:41-77 | valid iff no check fails; on failure the error is the first failing check's message |
| BookingPage.BookingPageState.HandleSubmit | pages/booking/index.tsx:79-89 | a request is posted iff the form is valid; then loading is raised and the error cleared; otherwise the error is the first failure |
| BookingPage.BookingPageState.SubmitSettled | pages/booking/index.tsx:89-101 | a 200 confirms; a rejection shows the server message or the fallback; loading is lowered |
| BookingsApi.BookingId | pages/api/bookings.ts:49 | the id is `BKG-` followed by a numeral that reads back as the clock value |
| BookingsApi.Handler | pages/api/bookings.ts:14-57 | 405 for any verb but POST; 500 when the body is `null` or `undefined`, whose field reads throw; 400 unless all fields are truthy; payment runs iff the fields are present; 200 with an id only when paid, 402 when declined, 500 when payment throws |
| BookingsApi.EmptyBodyIsBadRequest | pages/api/bookings.ts:23-30 | a POST whose body has no fields is answered 400 with the required message and never reaches payment |
| BookingsApi.StatusesAreFixed | pages/api/bookings.ts:14-57 | the status is one of 200, 400, 402, 405 and 500, and it is 200 iff the booking succeeded |
| BookingsApi.ValidFormReachesPayment | pages/api/bookings.ts:26-34 | a form the booking page accepts always reaches the payment step |
| BookingsApi.MalformedValuesReachPayment | pages/api/bookings.ts:26-30 | the server checks presence only: a form the page rejects for its email is still charged |
| ReviewModel.RequiredError | models/Review.ts:16-28 | the required message iff the value is missing or empty |
| ReviewModel.RatingError | models/Review.ts:32-37 | accepted iff present and within 1 to 5 inclusive; the required, minimum and maximum messages each iff their case |
| ReviewModel.CommentError | models/Review.ts:38-44 | the comment is trimmed first; accepted iff its trimmed length is within 10 to 1000; each message iff its case |
| ReviewModel.Messages | models/Review.ts:14-51 | the reported messages are exactly the present per-field errors, none when all pass |
| ReviewModel.ErrorsIffInvalid | models/Review.ts:14-51 | no message iff every field constraint holds; `userImage` plays no part |
| ReviewModel.InErrors | models/Review.ts:14-51 | a message is reported iff one field's check produces it |
| ReviewModel.EachFieldReports | models/Review.ts:18-42 | a too-low rating, a too-high rating, a short comment and a missing property id each report their own message |
| ReviewModel.PaddedShortCommentRejected | models/Review.ts:41-42 | padding does not count toward the comment's length; a blank comment counts as missing |
| ReviewModel.Saved | models/Review.ts:38-44 | the stored comment is the trimmed one and it is within the length bounds; the rating is within 1 to 5 |
| ReviewModel.ReviewTable.constructor | models/Review.ts:57-60 | the empty collection satisfies the unique index |
| ReviewModel.ReviewTable.Insert | models/Review.ts:14-60 | invalid input is refused with its messages; a duplicate `(propertyId, userId)` pair is refused; otherwise the saved document is appended; the index stays unique and a refusal changes nothing |
| ReviewModel.SecondReviewRefused | models/Review.ts:57-60 | after a user's review of a property is saved, the pair is present, so a second one is refused |
| ReviewSection.ReviewSectionState.constructor | components/property/ReviewSection.tsx:12-14 | no reviews, loading, no error |
| ReviewSection.ReviewSectionState.Mount | components/property/ReviewSection.tsx:16-33 | the reviews path is requested iff the property id is non-empty |
| ReviewSection.ReviewSectionState.FetchSucceeded | components/property/ReviewSection.tsx:19-27 | the response replaces the reviews, the error is cleared and loading is lowered |
| ReviewSection.ReviewSectionState.FetchFailed | components/property/ReviewSection.tsx:22-27 | the failure is logged, the fixed message is set, the reviews are kept and loading is lowered |
| ReviewSection.MountWithoutId | components/property/ReviewSection.tsx:30-52 | without a property id nothing is fetched and the section stays on its three-row skeleton |
| ReviewSection.Heading | components/property/ReviewSection.tsx:90-92 | `Reviews (n)`, where the numeral reads back as the count |
| ReviewSection.Render | components/property/ReviewSection.tsx:35-135 | skeleton while loading, then a truthy error, then the empty message, then a heading and one item per review in order |
| ReviewSection.Items | components/property/ReviewSection.tsx:95 | one item per review, in order |
| ReviewSection.SuccessShowsEveryReview | components/property/ReviewSection.tsx:88-133 | after a successful non-empty fetch every comment is shown in order |
| ReviewSection.FailureShowsError | components/property/ReviewSection.tsx:54-78 | after a failed fetch the error box shows, whatever reviews were held |
| ReviewSection.Stars | components/property/ReviewSection.tsx:99-107 | five stars; star i is filled iff i is below the rating's floor |
| ReviewSection.FilledStars | components/property/ReviewSection.tsx:99-107 | the filled stars lead, and there are floor(rating) of them, clamped to 0..5 |
| ReviewSection.InitialsAreWordStarts | components/property/ReviewSection.tsx:123-126 | the initials are exactly the characters that begin a space-separated word; runs of spaces add nothing |
| PropertyCard.ImageSource | components/property/PropertyCard.tsx:37 | the first image if truthy, else the image URL if non-empty, else the placeholder; never empty |
| PropertyCard.ImageSourceCandidates | components/property/PropertyCard.tsx:37 | without images the source is the image URL or the placeholder |
| PropertyCard.MoreNote | components/property/PropertyCard.tsx:134-137 | `+n more`, whose number reads back as the hidden count |
| PropertyCard.Amenities | components/property/PropertyCard.tsx:123-139 | no block iff the list is empty; the chips are the first three amenities, or all of them when there are fewer; a note iff more than three, reading back as the length minus three |
| PropertyCard.Word | components/property/PropertyCard.tsx:91 | the singular iff the count is 1 |
| PropertyCard.PluralRules | components/property/PropertyCard.tsx:91-118 | guest, review, bed and bath are singular iff their count is 1; zero reviews read "0 reviews" |
| PropertyCard.ShownReviewCount | components/property/PropertyCard.tsx:110 | the shown count is the review count, 0 staying 0 |
| PropertyCard.FavoriteLabel | components/property/PropertyCard.tsx:53 | the remove label iff the property is a favourite |
| PropertyCard.Click | components/property/PropertyCard.tsx:22-33 | a heart click toggles the property's id and does not reach the card; a body click reaches the card only |
| PropertyGrid.ToggleArgs | components/property/PropertyGrid.tsx:92 | the toggle reports the id and the negation of its current membership |
| PropertyGrid.Cards | components/property/PropertyGrid.tsx:86-95 | one card per property in order, favourite iff its id is in the set |
| PropertyGrid.Render | components/property/PropertyGrid.tsx:25-97 | spinner while loading, then a truthy error, then the empty message, then the cards under the joined classes |
| PropertyGrid.NoFavoritesByDefault | components/property/PropertyGrid.tsx:22 | with the default empty set no card is a favourite |
| PropertyGrid.ToggleFlips | components/property/PropertyGrid.tsx:91-92 | applying a toggle to the favourites flips that id's membership |
| PropertyGrid.ToggleTwiceRestores | components/property/PropertyGrid.tsx:91-92 | toggling the same card twice restores the favourites |
| PropertyGrid.CnKeepsClasses | components/property/PropertyGrid.tsx:100-102 | when no class contains a space and at least one class is non-empty, the joined class string splits back into exactly the non-empty classes |
| PropertyGrid.CnDropsEmpty | components/property/PropertyGrid.tsx:100-102 | an empty class adds nothing to the joined string |
| PropertyList.Cards | components/property/PropertyList.tsx:56-65 | one card per property in order, each reporting its own id on click |
| PropertyList.Render | components/property/PropertyList.tsx:18-65 | eight skeletons while loading, then a truthy error under its heading, then the empty message, then the cards |
| PropertyList.ClickReportsId | components/property/PropertyList.tsx:62 | clicking the i-th card reports the i-th property's id |
| DbUtils.GetProperties | lib/db-utils.ts:66-68 | the mock returns its whole fixture; the MongoDB stub returns nothing |
| DbUtils.GetPropertyById | lib/db-utils.ts:70-72 | the mock returns a fixture record with the id, or null exactly when none has it; the stub always returns null |
| DbUtils.GetPropertyReviews | lib/db-utils.ts:74-77 | the matching record's reviews or `[]`; the stub always returns `[]` |
| DbUtils.ReviewsComeFromTheProperty | lib/db-utils.ts:74-77 | every review the mock returns belongs to the property asked about |
| DbUtils.MongoStubFindsNothing | lib/db-utils.ts:103-116 | switching to the stub loses the record the mock serves |
| DbUtils.MongoDatabase.Connect | lib/db-utils.ts:88-101 | a missing or empty URI throws before the state is read; a live connection is not reopened; otherwise connect is called once with the URI and succeeds iff accepted |
| DbUtils.DbModule.constructor | lib/db-utils.ts:120-144 | the mock is the instance, and the export captures it before the import settles |
| DbUtils.DbModule.ImportSettled | lib/db-utils.ts:123-133 | a successful import switches to MongoDB; a failed one keeps the mock |
| DbUtils.StartUp | lib/db-utils.ts:120-144 | the instance becomes MongoDB iff in production with a working import, yet the exported value is always the mock |
| MockDb.Connect | lib/mockDb.ts:54-57 | the connection is always reported open |
| MockDb.GetProperties | lib/mockDb.ts:64-66 | the fixture array itself, whose one record has id "1" |
| MockDb.GetPropertyById | lib/mockDb.ts:68-70 | null exactly when no fixture record has the id; otherwise a record with it |
| MockDb.GetPropertyReviews | lib/mockDb.ts:72-75 | `[]` for an unknown id; otherwise the record's reviews, `[]` when it has none |

## Left out

- Network requests (axios), the 300 ms debounce and its cleanup, routing and navigation: each request is a value returned by a method, and each response is an argument of the method that receives it.
- `Date.now`, `Math.random` and `setTimeout` in the booking endpoint: the clock and the payment outcome are parameters.
- `process.env` (`NODE_ENV`, `MONGODB_URI`) and the dynamic import of mongoose: these are parameters too.
- Markup, class names other than those passed to `cn`, icons, and `console.log` lines other than the logged review error.
- Floating point:
  - `Number()` of fractions, exponents, hexadecimal and `Infinity` is not modelled; the model reads integer numerals only, and ratings are reals.
  - `toFixed`, `formatPrice`, `toLocaleDateString` and `getRatingColor` are not part of this model.
- Text encoding: strings are sequences of characters; UTF-16 code units and non-ASCII case mapping are not modelled. Whitespace is the whole JavaScript `\s` set.
- Repeated query keys, which Next.js would deliver as arrays: the page sends each key once, so the query is a map from name to string.
- PropertiesApi.Handler: the `catch` branch returning 500 is not reachable on the typed records of this model, so the contract states only the 200 path.
- PropertyCard.ShownReviewCount: does not model `reviewCount || 0` on a missing or NaN count, because counts are integers here.
- ReviewModel.ReviewInput: a `rating` that Mongoose cannot cast to a number (a non-numeric string, an object) raises a cast error rather than one of the three rating messages; ratings here are optional reals, so that path is not modelled.
- BookingsApi.BookingData: a JSON body whose field holds a non-string value (a number, an object) is not modelled; fields are optional strings.
- The compound `(propertyId, createdAt)` index and the timestamps of the review schema only speed up queries and stamp dates, so they are left out.
- `disconnect` of `lib/mockDb.ts` only logs, so it is left out.
- The store fixtures of `lib/db-utils.ts` and `lib/mockDb.ts` hold the same record, so both modules read one fixture.
- The review API route, the property detail page and the layout belong to the callers, not to this model.
