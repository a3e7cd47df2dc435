# Marketplace core, modelled in Dafny

This project models the logic of a browser-only classifieds marketplace
(vehicles, real estate, gaming items, general goods). Listings, users and the
session live in the browser's key-value store. The pages filter and sort
listings, post new listings through a form with cascading selections, sign
users in and register them, manage favourites, and pick a display language.

The model has one module per source file:

| module | file | what it holds |
|---|---|---|
| `SeqUtil` | `seq_util.dfy` | the JavaScript primitives the pages use: `filter`, `find`/`findIndex`, `includes`, `toLowerCase` (ASCII), `Number(...)` on decimal text, `String(n)` |
| `Types` | `types.dfy` | `Listing`, `User`, `Category`, `Subcategory`, the vehicle/property/gaming extensions and the three closed gaming enumerations |
| `Storage` | `storage.dfy` | the storage object: a class over a map from the keys `listings`, `users`, `currentUser` and `locale` to values |
| `LocationData` | `location_data.dfy` | the city → district → neighborhood table, the property option lists, and the lookups the form makes in them |
| `ListingFilters` | `listing_filters.dfy` | the sidebar's criteria record and its three operations |
| `ListingsPage` | `listings_page.dfy` | the filter-and-sort effect. It is a method over a local sequence, proved against a selection function and a stable insertion sort. |
| `AddListing` | `add_listing.dfy` | the add-listing form as a class: field handlers, the three cascade effects, the image list, record construction and submit |
| `AuthPage` | `auth_page.dfy` | credential lookup, the ordered registration checks, login and registration against the store |
| `ProfilePage` | `profile_page.dfy` | "my listings", "favourites", total views, and favourite removal, which rewrites the stored users and the session |
| `HomePage` | `home_page.dfy` | the seeding effect and the featured / recent / gaming views |
| `I18n` | `i18n.dfy` | initial locale resolution, `setLocale`, and the `useI18n` guard |

## Modelling conventions

- **Effects and the clock.** A React effect or handler is one synchronous
  step. An effect runs after the handler that changed one of its
  dependencies. Clock readings are parameters. The submit handler reads the
  clock twice: `idTime` is the `Date.now()` count whose text becomes the id,
  and `createdAt` is the separate `new Date()` reading, kept as a
  millisecond count. Registration likewise takes two readings.
- **Storage.** Serialisation is the identity: an entry holds the value that
  was written. Outside a browser every read gives the empty value and every
  write is ignored. The locale key is read and written without that check,
  as the locale provider does.
- **`Number(text)`.** It gives a `real`. The empty text is 0. Otherwise it
  reads an optional sign, then digits with an optional fraction ("5", "5.",
  ".5", "5.25"), then an optional exponent ("e3", "E-1"). This covers every
  text a number input delivers. Any other text is NaN (`None`).
- **The price bounds.** A bound is compared with the price by value, so a
  minimum of "99.5" keeps prices of 100 and more
  (`ListingsPage.FractionalMinimum`). A bound that is NaN makes every
  comparison false, so it keeps nothing
  (`ListingsPage.NonNumericBoundKeepsNothing`).
- **The cascade effects.** In the code, clearing a parent runs no reset and
  leaves the child options as they were. Choosing a new city clears the
  district and neighborhood values but keeps the previous neighborhood
  options.
- **Sorting.** `Array.prototype.sort` is stable. A comparator `(a, b) => f(a) - f(b)`
  orders by the integer rank `f`. The model's sort is an insertion sort with
  that property. `ListingsPage.StableSortUnique` shows that every sort which
  orders by rank and keeps each run of equal-rank elements in its original
  order gives this same sequence.

## Model

| member | source | states |
|---|---|---|
| SeqUtil.FilterCount | app/listings/page.tsx:40 | `filter` keeps every satisfying element with its multiplicity and drops every other element |
| SeqUtil.FilterIsSubsequence | app/listings/page.tsx:40 | `filter` keeps the input order |
| SeqUtil.FindIndex | app/auth/page.tsx:31 | `findIndex` gives the first satisfying position, and none only when no element satisfies |
| SeqUtil.IncludesAt | app/listings/page.tsx:53 | `includes` holds exactly when the needle occurs at some offset |
| SeqUtil.ParseNumber | app/listings/page.tsx:45 | `Number(text)`: "" is 0, a digit string is its integer value, and a text with a character outside digits, '.', 'e', 'E' and the signs is NaN |
| SeqUtil.FractionMeaning | app/listings/page.tsx:45 | for digit strings `w` and `f`, not both empty, `Number(w + "." + f)` is the value of `w` plus the value of `f` divided by 10 to the power of its length |
| SeqUtil.ExponentMeaning | app/listings/page.tsx:45 | a decimal literal followed by "e" and the text of an integer `x` is the literal's value times 10 to the power `x` |
| SeqUtil.NegationMeaning | app/listings/page.tsx:45 | a leading "-" negates the value of an unsigned literal |
| SeqUtil.FractionExamples | app/listings/page.tsx:45 | "99.5" is 99.5 and ".5" is 0.5 |
| SeqUtil.ExponentExample | app/listings/page.tsx:45 | "1e3" is 1000 |
| SeqUtil.NegativeExponentExample | app/listings/page.tsx:45 | "-2.5E-1" is -0.25: the exponent divides and the sign applies to the whole number |
| SeqUtil.NaNExamples | app/listings/page.tsx:45 | "1.2.3" and "12a" are NaN |
| SeqUtil.ParseShowRoundTrip | app/add-listing/page.tsx:132 | `Number(String(n)) == n` for every integer, so a `Date.now().toString()` id denotes its time |
| Types.AsVehicleListing | lib/types.ts:52-63 | a listing read as a VehicleListing: the merged vehicle fields are present as entered, except `mileage`, and absent for any other listing. The form stores `mileage` as text where the type declares a number, and the view leaves it absent. |
| Types.AsPropertyListing | lib/types.ts:65-75 | a listing read as a PropertyListing: the merged property fields are present as entered, except `squareMeters`, and absent for any other listing. The form stores `squareMeters` as text where the type declares a number, and the view leaves it absent. |
| Types.ItemTypeClosed | lib/types.ts:44 | `itemType` takes exactly 6 texts, and each names one value |
| Types.RarityClosed | lib/types.ts:45 | `rarity` takes exactly 6 texts, and each names one value |
| Types.ConditionClosed | lib/types.ts:46 | `condition` takes exactly 5 texts, and each names one value |
| Storage.Store.GetListings | lib/storage.ts:5-9 | gives the stored listings, or [] when the key is absent or outside a browser |
| Storage.Store.SetListings | lib/storage.ts:11-14 | writes only the listings key, and only in a browser |
| Storage.Store.GetUsers | lib/storage.ts:17-21 | gives the stored users, or [] when the key is absent or outside a browser |
| Storage.Store.SetUsers | lib/storage.ts:23-26 | writes only the users key, and only in a browser |
| Storage.Store.GetCurrentUser | lib/storage.ts:28-32 | gives the session user, or none when the key is absent or outside a browser |
| Storage.Store.SetCurrentUser | lib/storage.ts:34-41 | stores a user under the session key, and null removes only that key |
| Storage.Store.Logout | lib/storage.ts:43-46 | removes only the session key; listings and users are unchanged |
| Storage.Store.GetLocaleItem | lib/i18n-context.tsx:19 | reads the locale key directly |
| Storage.Store.SetLocaleItem | lib/i18n-context.tsx:33 | writes only the locale key |
| Storage.ListingsRoundTrip | lib/storage.ts:5-14 | reading after writing listings gives back what was written; users and session are unchanged |
| Storage.UsersRoundTrip | lib/storage.ts:17-26 | reading after writing users gives back what was written; listings and session are unchanged |
| Storage.CurrentUserRoundTrip | lib/storage.ts:28-41 | reading after writing the session user (or null) gives back what was written; the collections are unchanged |
| LocationData.CityIdsDistinct | lib/location-data.ts:1-226 | no two cities share an id |
| LocationData.IstanbulWellFormed | lib/location-data.ts:2-58 | Istanbul's district ids are distinct, and each district has at least 3 neighborhoods |
| LocationData.AnkaraWellFormed | lib/location-data.ts:59-89 | the same for Ankara |
| LocationData.IzmirWellFormed | lib/location-data.ts:90-120 | the same for Izmir |
| LocationData.AntalyaWellFormed | lib/location-data.ts:121-146 | the same for Antalya |
| LocationData.BursaWellFormed | lib/location-data.ts:147-167 | the same for Bursa |
| LocationData.AdanaWellFormed | lib/location-data.ts:168-188 | the same for Adana |
| LocationData.GaziantepWellFormed | lib/location-data.ts:189-204 | the same for Gaziantep |
| LocationData.KonyaWellFormed | lib/location-data.ts:205-225 | the same for Konya |
| LocationData.DistrictsWellFormed | lib/location-data.ts:1-226 | in every city, district ids are distinct and each district has at least 3 neighborhoods |
| LocationData.TableIdsDistinct | lib/location-data.ts:1-226 | city ids are distinct, and within each city district ids are distinct |
| LocationData.FindCityUnique | app/add-listing/page.tsx:83 | looking up a table city's id finds that city |
| LocationData.FindUniqueCity | app/add-listing/page.tsx:83 | in a list with distinct ids, `find` by id returns the one city with that id |
| LocationData.FindDistrictUnique | app/add-listing/page.tsx:91 | in a list with distinct ids, `find` by id returns the one district with that id |
| LocationData.KnownEntries | lib/location-data.ts:1-88 | istanbul → kadikoy offers "Moda", and ankara has exactly five districts |
| LocationData.NeighborhoodNotUnique | lib/location-data.ts:7-37 | "Acıbadem" appears under both kadikoy and uskudar, so a neighborhood does not determine its district |
| LocationData.OptionListSizes | lib/location-data.ts:228-251 | 11 room counts, 8 building ages, 8 property types, 7 heating types |
| ListingFilters.HandleFilterChange | components/listing-filters.tsx:23-25 | the named key takes the value, and every other key is unchanged |
| ListingFilters.ClearFilters | components/listing-filters.tsx:27-35 | every field is empty |
| ListingFilters.HasActiveFiltersIff | components/listing-filters.tsx:37-38 | active exactly when some field is non-empty |
| ListingFilters.ClearedIsInactive | components/listing-filters.tsx:27-38 | the cleared record is inactive, and it is the only inactive record |
| ListingFilters.ChangeToSameValue | components/listing-filters.tsx:23-25 | setting a key to its current value changes nothing |
| ListingsPage.MatchesIff | app/listings/page.tsx:39-63 | a listing passes exactly when every non-empty criterion holds (AND). Bounds are inclusive, a NaN bound fails, and location and search are case-insensitive substring tests, search on title OR description. |
| ListingsPage.EmptyFiltersMatchAll | app/listings/page.tsx:36-63 | with every field empty, every listing passes |
| ListingsPage.AllCategoryIsLiteral | app/listings/page.tsx:39-41 | the sidebar's "all" value keeps only listings whose category is literally "all" |
| ListingsPage.NonNumericBoundKeepsNothing | app/listings/page.tsx:44-49 | a non-empty bound that is NaN empties the result |
| ListingsPage.FractionalMinimum | app/listings/page.tsx:44-46 | a minimum of "99.5" keeps exactly the listings priced 100 or more |
| ListingsPage.LocationSubstringPasses | app/listings/page.tsx:52-54 | an exact substring of the location passes the location criterion |
| ListingsPage.QueryCaseIgnored | app/listings/page.tsx:52-63 | lower-casing the query does not change the location or search outcome |
| ListingsPage.LowerPreservesIncludes | app/listings/page.tsx:53 | a substring stays a substring after both sides are lower-cased |
| ListingsPage.KeepStep | app/listings/page.tsx:36-63 | filtering by the criteria so far and then by one more equals filtering by all of them at once |
| ListingsPage.NoCriteriaKeepsAll | app/listings/page.tsx:36 | with no criterion the copy is the whole collection |
| ListingsPage.SelectCounts | app/listings/page.tsx:36-63 | the selection holds every matching listing with its multiplicity and nothing else, so it is sound, complete and a sub-multiset |
| ListingsPage.SelectInactive | app/listings/page.tsx:36-63 | with no active filter the selection is the collection, in order |
| ListingsPage.Insert | app/listings/page.tsx:66-82 | insertion adds one element, and the result starts with the inserted element or the old head |
| ListingsPage.InsertPermutes | app/listings/page.tsx:66-82 | insertion adds exactly that element |
| ListingsPage.AdjacentSorted | app/listings/page.tsx:66-82 | ordered neighbours make an ordered sequence |
| ListingsPage.InsertSorted | app/listings/page.tsx:66-82 | insertion keeps a sorted sequence sorted |
| ListingsPage.InsertTies | app/listings/page.tsx:66-82 | the inserted element goes after every element of equal rank |
| ListingsPage.InsertionSortCorrect | app/listings/page.tsx:66-82 | the sort orders by rank, permutes its input, and keeps every run of equal-rank elements in input order (stable) |
| ListingsPage.StableSortUnique | app/listings/page.tsx:66-82 | two sorted sequences with the same equal-rank runs are equal, so a stable sort's output is determined |
| ListingsPage.StableSort | app/listings/page.tsx:66-82 | `result.sort(cmp)`: the result is ordered by the key, a permutation, and stable |
| ListingsPage.SortedMeaning | app/listings/page.tsx:66-82 | newest gives non-increasing createdAt, oldest non-decreasing; price-asc non-decreasing price, price-desc non-increasing; most-viewed non-increasing views |
| ListingsPage.ApplyFilters | app/listings/page.tsx:36-63 | the five conditional `filter` passes compute the selection |
| ListingsPage.FilterAndSort | app/listings/page.tsx:35-85 | the effect's output holds exactly the matching listings with their multiplicities. It is a permutation of the collection when no filter is active. It is in collection order when the sort key is unknown. Otherwise it is sorted by the key, with ties in selection order. |
| ListingsPage.InitialFilters | app/listings/page.tsx:22-28 | the initial criteria carry only the `category` query parameter |
| ListingsPage.MinPriceExample | app/listings/page.tsx:44-46 | a minimum of "200" over prices 100, 500, 1000 keeps 500 and 1000, in order |
| AddListing.SetForm | app/add-listing/page.tsx:97-99 | the named field takes the value, and every other field is unchanged |
| AddListing.SetVehicle | app/add-listing/page.tsx:101-103 | the named vehicle field takes the value, and every other field is unchanged |
| AddListing.SetProperty | app/add-listing/page.tsx:105-107 | the named property field takes the value, and every other field is unchanged |
| AddListing.ModelsOf | app/add-listing/page.tsx:75-76 | the first brand with the id supplies the models, and an unknown brand gives [] |
| AddListing.PlaceholderImage | app/add-listing/page.tsx:111 | the placeholder URL queries the title, or "listing" when the title is empty |
| AddListing.RemoveAt | app/add-listing/page.tsx:116 | removes exactly position `index`, keeping the others in order; an out-of-range index removes nothing |
| AddListing.RemoveAtMultiset | app/add-listing/page.tsx:116 | removal takes away exactly one occurrence of the removed image |
| AddListing.ExtensionFor | app/add-listing/page.tsx:145-146 | the vehicle fields are added only for "vehicles", and the property fields only for "real-estate" |
| AddListing.BuildListing | app/add-listing/page.tsx:131-148 | the record has 0 views. Its id parses to the first clock reading, and `createdAt` is the second. The default image is used when none was added, and the default name and phone when those are empty. It carries the category's extension. |
| AddListing.BuiltListingIsTyped | app/add-listing/page.tsx:145-146 | a "vehicles" record reads as a VehicleListing with the form's vehicle fields, and a "real-estate" record as a PropertyListing with the form's property fields |
| AddListing.AddListingForm.constructor | app/add-listing/page.tsx:31-71 | the form starts empty, with no images and no options |
| AddListing.AddListingForm.BrandEffect | app/add-listing/page.tsx:73-79 | a chosen brand offers its models and clears the model; an empty brand changes nothing |
| AddListing.AddListingForm.CityEffect | app/add-listing/page.tsx:81-87 | a chosen city offers its districts and clears district and neighborhood; an empty city changes nothing |
| AddListing.AddListingForm.DistrictEffect | app/add-listing/page.tsx:89-95 | a chosen district offers its neighborhoods from the current district list and clears only the neighborhood |
| AddListing.AddListingForm.HandleInputChange | app/add-listing/page.tsx:97-99 | updates one text field of the form and nothing else |
| AddListing.AddListingForm.HandleFeaturedChange | app/add-listing/page.tsx:97-99 | updates only the featured flag |
| AddListing.AddListingForm.HandleVehicleChange | app/add-listing/page.tsx:73-103 | sets one vehicle field. A new non-empty brand then offers its models and clears the model. A brand set to "" changes nothing else. |
| AddListing.AddListingForm.HandlePropertyChange | app/add-listing/page.tsx:81-107 | sets one property field. A new non-empty city resets district and neighborhood and offers its districts. A new non-empty district resets only the neighborhood and offers its neighborhoods. Otherwise no option list changes. |
| AddListing.AddListingForm.HandleImageAdd | app/add-listing/page.tsx:109-113 | appends one placeholder at the end and keeps the count at most 6 |
| AddListing.AddListingForm.HandleImageRemove | app/add-listing/page.tsx:115-117 | removes exactly the image at the index and keeps the count at most 6 |
| AddListing.AddListingForm.HandleSubmit | app/add-listing/page.tsx:119-155 | with a required field empty nothing is stored. Otherwise the built record, priced at `Number(price)`, is put in front of the stored listings, which follow unchanged, and no other key is written. |
| AuthPage.FindByCredentials | app/auth/page.tsx:30-31 | finds a user exactly when some stored user has that email and password, and it is the first such user |
| AuthPage.HandleLogin | app/auth/page.tsx:27-40 | success exactly when the credentials match. The session becomes the first matching user. A failure writes nothing. |
| AuthPage.CheckRegistration | app/auth/page.tsx:46-62 | checks in order: mismatch, then length < 6, then duplicate email; the first failure decides |
| AuthPage.NewUser | app/auth/page.tsx:65-73 | the new user has an id that parses to its time, the entered fields, and no favourites |
| AuthPage.HandleRegister | app/auth/page.tsx:42-79 | a failed check writes nothing. Otherwise the user is appended, the others are unchanged and in order, and the session becomes the new user. |
| AuthPage.RegistrationKeepsEmailsDistinct | app/auth/page.tsx:56-75 | registration keeps stored emails pairwise distinct |
| AuthPage.LoginAfterRegistration | app/auth/page.tsx:30-75 | signing in with just-registered credentials finds the new user |
| AuthPage.PasswordLengthBoundary | app/auth/page.tsx:51 | a 5-character password fails the length check and a 6-character one passes |
| AuthPage.DuplicateEmailRefused | app/auth/page.tsx:56-62 | a stored email is refused once the password checks pass |
| ProfilePage.MyListingsExactly | app/profile/page.tsx:32-34 | "my listings" are exactly the stored listings of that user, in collection order |
| ProfilePage.FavoriteListingsExactly | app/profile/page.tsx:37-38 | favourites are exactly the stored listings whose id is a favourite, with their multiplicities, in collection order |
| ProfilePage.FavoritesFollowCollectionOrder | app/profile/page.tsx:37-38 | favourites follow the collection order, not the favourites order |
| ProfilePage.TotalViewsAppend | app/profile/page.tsx:137 | the views total splits over concatenation |
| ProfilePage.TotalViewsCons | app/profile/page.tsx:137 | the total is the first listing's views plus the rest's total |
| ProfilePage.TotalViewsBounds | app/profile/page.tsx:137 | with non-negative counts, the total bounds every listing's views |
| ProfilePage.TotalViewsNonNegative | app/profile/page.tsx:137 | with non-negative counts, the total is non-negative |
| ProfilePage.RemoveFavoriteExactly | app/profile/page.tsx:44-47 | removes every occurrence of the id and keeps the other ids, with their counts, in order |
| ProfilePage.RemoveFavoriteIdempotent | app/profile/page.tsx:46 | removing the same id twice is removing it once |
| ProfilePage.ReplaceUser | app/profile/page.tsx:51 | users with the session's id become the updated copy, and the others are unchanged |
| ProfilePage.Profile.constructor | app/profile/page.tsx:19-21 | the page starts with no session user and both views empty |
| ProfilePage.Profile.Load | app/profile/page.tsx:23-39 | without a session nothing is derived. With one, the page holds the session user, their listings and their favourites. |
| ProfilePage.Profile.HandleRemoveFavorite | app/profile/page.tsx:41-57 | with no session nothing changes. Otherwise, in a browser, exactly the users and session keys are rewritten: the users with the session's id become the updated copy, and so does the session. Outside a browser the store is unchanged. The favourites view drops that id. |
| ProfilePage.RemovalKeepsSessionInStep | app/profile/page.tsx:44-53 | after removal the stored record with the session's id equals the session copy, and other users are unchanged |
| HomePage.Take | app/page.tsx:42 | `slice(0, n)` gives the first min(n, length) elements |
| HomePage.FeaturedIsFirstFeatured | app/page.tsx:41 | featured is the first at most 3 featured listings, in collection order |
| HomePage.RecentIsPrefix | app/page.tsx:42 | recent is the first min(6, n) listings |
| HomePage.GamingIsFirstGaming | app/page.tsx:43 | gaming is the first at most 3 "gaming" listings, and the section is shown exactly when one exists |
| HomePage.Home.constructor | app/page.tsx:17 | the page starts with no listings |
| HomePage.Home.Seed | app/page.tsx:20-28 | an empty store receives the sample and the page shows it. Otherwise the page shows the stored listings and nothing is written. |
| I18n.PrimarySubtag | lib/i18n-context.tsx:24 | `split("-")[0]` is the longest prefix without '-' |
| I18n.InitialLocale | lib/i18n-context.tsx:15-29 | a non-empty saved locale is adopted unchecked. Otherwise a supported browser subtag is adopted, and otherwise "en". |
| I18n.Provider.constructor | lib/i18n-context.tsx:15 | the locale starts as "en" |
| I18n.Provider.LoadEffect | lib/i18n-context.tsx:17-29 | the mount effect adopts a saved locale, or else a supported browser subtag, or else keeps the locale |
| I18n.Provider.SetLocale | lib/i18n-context.tsx:31-34 | sets the state and persists it under the locale key only |
| I18n.Mount | lib/i18n-context.tsx:15-29 | mounting the provider yields the initial locale |
| I18n.BrowserLanguageExamples | lib/i18n-context.tsx:19-27 | "tr-TR" gives "tr"; "pt-BR" gives "en"; an empty saved value falls through; "xx" saved is kept |
| I18n.UseI18n | lib/i18n-context.tsx:41-47 | fails exactly when there is no provider context |

## Left out

- Markup, styling, animation and the mouse-parallax arithmetic are left out: they are presentation and floating-point UI code.
- Router navigation and `alert` are left out. Handlers return an outcome value instead.
- The `isSubmitting` flag of the add-listing form is left out: it only disables the button.
- JSON parsing and serialisation are left out. Serialisation is the identity, and corrupted stored data is not modelled.
- `toLowerCase` maps only the ASCII letters. Unicode case mapping is not modelled.
- SeqUtil.ParseNumber: surrounding whitespace, "Infinity", and hexadecimal, octal and binary literals are NaN in the model, though JavaScript reads them as numbers. A number input never delivers them. Values are exact reals, not rounded to double precision.
- Types.AsVehicleListing: `mileage` is left absent in the typed view. The form merges the text it holds, which does not fit the number the type declares.
- Types.AsPropertyListing: `squareMeters` is left absent in the typed view. The form merges the text it holds, which does not fit the number the type declares.
- AddListing.AddListingForm.HandleSubmit: a price that is not a whole number gives `PriceNotInteger` and stores nothing, because a listing's price is an integer in the model. The source stores the fractional value.
- AddListing.AddListingForm.HandleImageAdd: requires fewer than 6 images, because the add control is rendered only then. The handler itself has no check.
- AddListing.AddListingForm.HandlePropertyChange: the district effect's dependency on the district list is compared by value. React compares by reference, and after a city change the effect runs on the cleared district and does nothing either way.
- `createdAt` of a listing is an integer timestamp rather than an ISO text, so the date comparisons of the sort are integer comparisons. A user's `createdAt` stays text and is a parameter.
- Password length is counted in characters. JavaScript counts UTF-16 code units, which differs for characters outside the Basic Multilingual Plane.
- `lib/data` (categories and sample listings), `lib/vehicle-data` (brands and option lists) and `lib/i18n` (`getTranslation`, and so `t`) are not part of this model. The sample listings and the brands are parameters.
- The listing detail page (view counting, favourite toggling) and the listings page's load effect are outside the modelled core.
- Cross-tab races on the store are not modelled: each tab's handlers run one at a time.
- A listing's `images` order and the favourites order are kept exactly, but their elements are opaque text.
