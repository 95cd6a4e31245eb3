# TelePharmacy mock backend in Dafny

This project models the mock backend of the TelePharmacy web application. The
backend is a set of service classes that imitate a pharmacy server on top of the
browser's key-value store. The model covers:

- the session token that the services share;
- the cart, order, authentication, medicine and pharmacy services;
- the storage utilities, which give fail-soft reads and writes, pagination and an email check;
- the API helpers, which substitute URL templates and build request headers;
- the fixture data;
- the small filters and sums embedded in the catalogue, cart, orders and pharmacies pages.

The model is organised as follows:

- Each source file is one Dafny module.
- `LocalStorage` is a class whose `slots` map stands for the key-value store. The
  services hold it and change it through their methods.
- Each mutating service method is tied to a pure outcome function of the old stored
  state, such as `AddOutcome`, `RegisterOutcome` or `CancelOutcome`. The
  properties the services promise are proved as lemmas about those functions.
- Amounts are integer cents. Ratings are integer tenths. Time is an integer number of
  milliseconds, passed in as `now`.
- Ids that the source draws at random are passed in as parameters.
- JavaScript objects that the services merge and project, such as users and profiles,
  are `Record`s: maps from keys to JSON values, where a missing key is `undefined`.

Shared helpers:

- `Common` holds `Option` and the `{success, message, data}` response.
- `Json` holds JavaScript values, truthiness, `||` and object spread.
- `Text` holds ASCII lower-casing, `includes`, `trim` and the UTF-16 `length` of a string.
- `Seqs` holds `filter`, `findIndex`, `slice` with negative indices, and a stable
  insertion sort for `Array.prototype.sort`.
- `Numerals` holds decimal text for the token encoding.

## Model

| member | source | states |
|---|---|---|
| Session.Encode | src/services/mock/MockAuthService.js:365-372 | The token text is longer than the id and email it carries. |
| Session.Decode | src/services/mock/MockAuthService.js:379-386 | Only a non-empty text decodes. |
| Session.DecodeEncode | src/services/mock/MockAuthService.js:365-386 | Decoding an encoded token gives back exactly its user id, email and expiry. |
| Session.EncodeInjective | src/services/mock/MockAuthService.js:365-372 | Two payloads with the same token text are equal. |
| Session.GenerateMockToken | src/services/mock/MockAuthService.js:365-372 | `btoa` refuses the payload (no token) exactly when the id or the email holds a character above U+00FF; otherwise the token decodes to the user's id and email with expiry now + 24 h. |
| Session.Latin1Iff | src/services/mock/MockAuthService.js:371 | Text passes `btoa` exactly when every one of its characters is at most U+00FF. |
| Session.WideEmailHasNoToken | src/services/mock/MockAuthService.js:371 | An email holding a character above U+00FF gets no token. |
| Session.FreshTokenLifetime | src/services/mock/MockAuthService.js:365-386 | A freshly generated token is valid exactly until 24 h after issue; when `btoa` refuses the payload there is no valid token at all. |
| Session.TokenValidityOnlyRunsOut | src/services/mock/MockAuthService.js:379-386 | A token valid now was valid at every earlier time; it is no longer valid at the expiry it carries; a token that fails to decode is never valid. |
| Text.Utf16Length | src/services/mock/MockAuthService.js:162 | `length` counts UTF-16 code units: between one and two per character. |
| Text.Utf16LengthBmp | src/services/mock/MockAuthService.js:162 | Within the Basic Multilingual Plane, `length` equals the number of characters. |
| Text.AstralCharLength | src/services/mock/MockMedicineService.js:223 | A single character beyond U+FFFF has length 2. |
| Storage.StorageKeysDistinctAndPrefixed | src/utils/storage.js:12-21 | The eight storage keys are distinct and all start with `pharmacy_`. |
| Storage.Lookup | src/utils/storage.js:29-37 | A read gives the stored value. It gives the default when the key is absent or the stored text does not parse. |
| Storage.LocalStorage.GetItem | src/utils/storage.js:29-37 | Same as `Lookup`, on the live store, changing nothing. |
| Storage.LocalStorage.SetItem | src/utils/storage.js:45-53 | The write succeeds and only that key changes. |
| Storage.LocalStorage.RemoveItem | src/utils/storage.js:60-68 | The removal succeeds and only that key disappears. |
| Storage.LocalStorage.ClearAllStorageData | src/utils/storage.js:74-84 | Every `STORAGE_KEYS` value is removed and every other key is kept unchanged. |
| Storage.LocalStorage.constructor | src/utils/storage.js:29-68 | The store starts with the given contents. |
| Storage.SetThenGet | src/utils/storage.js:29-53 | Reading a key just written gives the written value, whatever the default. |
| Storage.RemoveThenGet | src/utils/storage.js:29-68 | After removal the key reads as the default, and other keys read as before. |
| Storage.CartOf | src/services/mock/MockCartService.js:56 | Exactly the stored cart rows when the slot holds a cart, and an empty cart otherwise. |
| Storage.UsersOf | src/services/mock/MockAuthService.js:70 | Exactly the stored user table when the slot holds one, and no users otherwise. |
| Storage.OrdersOf | src/services/mock/MockOrderService.js:54 | Exactly the stored order table when the slot holds one, and no orders otherwise. |
| Storage.UserDataOf | src/services/mock/MockAuthService.js:393-398 | A user is present exactly when the user-data slot holds one, and it is that stored user. |
| Storage.StartIndex | src/utils/storage.js:127 | `(page − 1) · limit` is non-negative for page ≥ 1. |
| Storage.StartIndexStep | src/utils/storage.js:127-128 | The next page starts `limit` items later. |
| Storage.StartIndexMonotone | src/utils/storage.js:127 | Later pages start no earlier. |
| Storage.CeilDiv | src/utils/storage.js:137 | `Math.ceil(length / limit)`: the least page count whose pages cover the data, and 0 for no data. |
| Storage.PageItems | src/utils/storage.js:127-129 | A page holds at most `limit` items. For page ≥ 1 it is the contiguous run `[(page−1)·limit, page·limit)`, clipped to the data. |
| Storage.Paginate | src/utils/storage.js:126-142 | Reports page, limit, total = length and pages = ⌈length/limit⌉, which is 0 for no data. `has_prev` ⇔ page > 1 and `has_next` ⇔ page·limit < length. The data is the page's slice. |
| Storage.PagesInRangeAreNonEmpty | src/utils/storage.js:126-142 | For page ≥ 1, a page is non-empty iff page ≤ `pages`. |
| Storage.PagesConcatenate | src/utils/storage.js:126-142 | Pages 1..n laid end to end are exactly the first n·limit items. |
| Storage.ScanAcceptsOnlyPattern | src/utils/storage.js:149-152 | Every email the check accepts splits as local '@' host '.' top. |
| Storage.PatternAcceptedByScan | src/utils/storage.js:149-152 | Every such split is accepted. |
| Storage.IsValidEmailMatchesPattern | src/utils/storage.js:149-152 | `isValidEmail` holds iff the string matches `^[^\s@]+@[^\s@]+\.[^\s@]+$`. |
| Storage.IsValidEmailInWords | src/utils/storage.js:149-152 | `isValidEmail` holds iff: there is no whitespace; there is exactly one '@', with something before it; after it there is a '.' with a character on each side. |
| Api.ReplaceFirst | src/config/api.js:74 | A missing placeholder leaves the URL unchanged. Otherwise the first occurrence is swapped for the value: the text before it and after it is kept, and the length changes by the difference. |
| Api.BuildApiUrl | src/config/api.js:69-78 | In mock mode the result is the substituted endpoint. Otherwise it is `BASE_URL` followed by it. |
| Api.SubstituteNoParams | src/config/api.js:69-78 | With no params the endpoint is unchanged. |
| Api.SubstituteWithoutPlaceholder | src/config/api.js:72-75 | An endpoint that holds none of the params' `:key` placeholders is unchanged whatever their values. |
| Api.SubstituteWithoutColon | src/config/api.js:72-75 | In particular, an endpoint without any ':' is unchanged whatever the params. |
| Api.SubstituteOne | src/config/api.js:72-75 | The first `:key` is replaced by the value and nothing else changes. |
| Api.CancelPrefixPlain | src/config/api.js:51 | The cancel endpoint's prefix holds no placeholder. |
| Api.CancelTemplate | src/config/api.js:51 | The cancel endpoint is `/api/orders/:id/cancel`. |
| Api.SubstituteCancel | src/config/api.js:72-75 | Substituting an id into that template gives `/api/orders/<id>/cancel`. |
| Api.CancelUrl | src/config/api.js:51-78 | `buildApiUrl(ORDERS.CANCEL, {id})` gives `/api/orders/<id>/cancel` in mock mode. |
| Api.GetDefaultHeaders | src/config/api.js:84-94 | Content-Type is always JSON. Authorization is present iff the token is truthy, and is then `Bearer <token>`. No other header is present. |
| Json.Get | src/services/mock/MockAuthService.js:99-109 | Property access gives the key's value, or undefined. |
| Json.Or | src/services/mock/MockOrderService.js:186-190 | `a \|\| b` gives a when a is truthy, else b. |
| Json.Spread | src/services/mock/MockAuthService.js:304-308 | `{...base, ...patch}` has both key sets. Patch values win. |
| Entities.FindMedicine | src/services/mock/MockCartService.js:124 | `find` by id returns the first catalogue member with that id, and fails iff no member has it. |
| MockData.MedicineIdsDistinct | src/services/mock/mockData.js:34-324 | The sixteen medicine ids are pairwise distinct. |
| MockData.OutOfStockIffNoStock | src/services/mock/mockData.js:34-324 | A fixture is out of stock iff its stock is 0. med_016 is the only such fixture. |
| MockData.PricesAndStocksWellFormed | src/services/mock/mockData.js:34-324 | Prices are positive, stocks non-negative, and every status is available or out of stock. |
| MockData.CategoriesKnown | src/services/mock/mockData.js:12-28 | The 15 categories are distinct and every fixture's category is among them. |
| MockData.UserEmails | src/services/mock/mockData.js:330-381 | There are two fixture users, with the two known emails. |
| MockData.UserEmailsDistinct | src/services/mock/mockData.js:330-381 | Their emails differ ignoring case. |
| MockData.UsersActive | src/services/mock/mockData.js:330-381 | Both fixture users are active and verified. |
| MockData.OrderStatusesDistinct | src/services/mock/mockData.js:450-458 | There are exactly seven distinct order statuses. |
| CartService.Join | src/services/mock/MockCartService.js:59-65 | The joined view keeps only rows whose medicine is known, each paired with that medicine. |
| CartService.JoinKeepsKnown | src/services/mock/MockCartService.js:59-65 | Every row with a known medicine appears in the view. |
| CartService.JoinIsFilter | src/services/mock/MockCartService.js:59-65 | The view's rows are exactly the rows with a known medicine, in cart order and with their repetitions. |
| CartService.TotalsStep | src/services/mock/MockCartService.js:384-390 | One step of the summary loop adds that row's units and price × quantity, or nothing for an unknown medicine. |
| CartService.TotalsNonNegative | src/services/mock/MockCartService.js:68-71 | The totals of non-negative lines are non-negative, and zero for an empty cart. |
| CartService.RowOfMedicine | src/services/mock/MockCartService.js:149 | Finds the first row of a medicine, or reports that none exists. |
| CartService.RowWithId | src/services/mock/MockCartService.js:236 | Finds the first row with an id, or reports that none exists. |
| CartService.RowOfMedicineAfterReplace | src/services/mock/MockCartService.js:163-178 | Updating a row in place keeps the medicine's row index. |
| CartService.RowOfMedicineAfterAppend | src/services/mock/MockCartService.js:181-190 | Appending a row keeps existing row indices and makes the new row findable. |
| CartService.AddOutcome | src/services/mock/MockCartService.js:116-199 | A refused add leaves the rows unchanged. |
| CartService.AddSucceedsIff | src/services/mock/MockCartService.js:116-161 | An add succeeds iff all of these hold: the id is set; quantity ≥ 1; the medicine is known and exactly 'available'; quantity ≤ stock; the cart's quantity + quantity ≤ stock. |
| CartService.AddRejections | src/services/mock/MockCartService.js:116-161 | The rejection messages come in source order: invalid input, not found, not available, stock count, then exceed naming stock − in-cart. |
| CartService.AddKeepsOneRowPerMedicine | src/services/mock/MockCartService.js:149-190 | An add never creates a second row for a medicine. |
| CartService.AddQuantities | src/services/mock/MockCartService.js:149-190 | A successful add raises that medicine's quantity by q and leaves the others unchanged. It appends a row iff the medicine had none. |
| CartService.UpdateOutcome | src/services/mock/MockCartService.js:228-278 | A refused update leaves the rows unchanged. |
| CartService.UpdateRejections | src/services/mock/MockCartService.js:228-260 | An update is rejected for quantity < 1, an unknown item, an unknown medicine, or quantity > stock, in that order. Otherwise it succeeds. |
| CartService.UpdateChangesOnlyThatRow | src/services/mock/MockCartService.js:263-269 | On success only that row's quantity (and time) change. |
| CartService.RemoveOutcome | src/services/mock/MockCartService.js:305-317 | A refused removal leaves the rows unchanged. |
| CartService.RemoveDeletesExactlyThatRow | src/services/mock/MockCartService.js:305-317 | An unknown id fails with 'Cart item not found'. Otherwise exactly that row goes and the rest keep their order. |
| CartService.SpliceIsSubsequence | src/services/mock/MockCartService.js:316 | `splice(i, 1)` leaves an order-preserving subsequence. |
| CartService.SubsequenceSelf | src/services/mock/MockCartService.js:316 | A list is a subsequence of itself. |
| CartService.RemoveLeavesNoSuchRow | src/services/mock/MockCartService.js:305-317 | With distinct row ids, no row with that id remains. |
| CartService.MockCartService.constructor | src/services/mock/MockCartService.js:22-24 | The service holds its own copy of the fixture medicines. |
| CartService.MockCartService.GetCart | src/services/mock/MockCartService.js:45-89 | An invalid token gives 'Authentication required'. Otherwise the result is the joined rows with Σ quantity and Σ price × quantity. |
| CartService.MockCartService.GetCartSummary | src/services/mock/MockCartService.js:368-406 | The loop's totals equal `getCart`'s totals. |
| CartService.MockCartService.AddToCart | src/services/mock/MockCartService.js:105-208 | Auth is checked first. The result and the stored rows follow `AddOutcome`, and nothing is written on failure. |
| CartService.MockCartService.AddRow | src/services/mock/MockCartService.js:116-199 | The in-place update or push computes exactly `AddOutcome`. |
| CartService.MockCartService.UpdateCartItem | src/services/mock/MockCartService.js:217-286 | Auth is checked first. The result and the stored rows follow `UpdateOutcome`, and nothing is written on failure. |
| CartService.MockCartService.RemoveFromCart | src/services/mock/MockCartService.js:294-330 | Auth is checked first. The result and the stored rows follow `RemoveOutcome`, and nothing is written on failure. |
| CartService.MockCartService.ClearCart | src/services/mock/MockCartService.js:337-361 | It succeeds iff the token is valid, leaving an empty cart. Otherwise nothing changes. |
| MedicineService.NameLeIsTotalPreorder | src/services/mock/MockMedicineService.js:115 | The name order is a total preorder. |
| MedicineService.ListingIsSortedSelection | src/services/mock/MockMedicineService.js:57-115 | Before paging, the list holds exactly the medicines passing every set filter, sorted by name. It is a sub-multiset of the catalogue. |
| MedicineService.UnfilteredListingIsCatalogue | src/services/mock/MockMedicineService.js:52-122 | With no filters, the list is a permutation of the catalogue. Page 1 of 12 is its first 12 items. |
| MedicineService.ExactNameIsFound | src/services/mock/MockMedicineService.js:60-70 | A name containing the search text passes the search filter. |
| MedicineService.MedicineById | src/services/mock/MockMedicineService.js:159-183 | Returns the first medicine with that id, or 'Medicine not found' iff there is none. |
| MedicineService.Hits | src/services/mock/MockMedicineService.js:232-236 | Search hits are catalogue members matching name, brand or description. |
| MedicineService.HitsAreAllMatches | src/services/mock/MockMedicineService.js:232-236 | Every matching catalogue medicine is a hit, as many times as it is listed, and nothing else is; so `total_found` counts all matches. |
| MedicineService.AstralQueryIsSearched | src/services/mock/MockMedicineService.js:223 | A one-character query beyond U+FFFF is not too short, since `trim().length` is 2. |
| MedicineService.SearchMedicines | src/services/mock/MockMedicineService.js:219-254 | A trimmed query shorter than 2 UTF-16 code units succeeds with no items. Otherwise the result is the first `limit` hits, with `total_found` counting all hits. |
| MedicineService.SearchReturnsFirstHits | src/services/mock/MockMedicineService.js:232-245 | At most `limit` items are returned, all hits, and they are a prefix of the hits. |
| MedicineService.ByPriceIsAllAvailable | src/services/mock/MockMedicineService.js:266-272 | The price listing holds every available medicine, as many times as listed, and no unavailable one. |
| MedicineService.FeaturedAreCheapest | src/services/mock/MockMedicineService.js:261-287 | At most `limit` available medicines in ascending price, none dearer than any available catalogue medicine left out. |
| MedicineService.InCategory | src/services/mock/MockMedicineService.js:299-302 | Only available medicines of that category. |
| MedicineService.InCategoryIsAllOfCategory | src/services/mock/MockMedicineService.js:299-302 | Every available medicine of the category is included, as many times as listed, so `total_in_category` counts them all. |
| MedicineService.ByCategory | src/services/mock/MockMedicineService.js:295-317 | At most `limit` of them, with `total_in_category` counting all. |
| MedicineService.CheckAvailability | src/services/mock/MockMedicineService.js:325-355 | Unknown id gives 'Medicine not found'. Otherwise `available` ⇔ status 'available' and stock ≥ quantity, with stock, name and quantity echoed. |
| MedicineService.FixturesStockConsistent | src/services/mock/mockData.js:34-324 | The fixtures satisfy out of stock ⇔ stock 0 ⇔ not available. |
| MedicineService.StockUpdate | src/services/mock/MockMedicineService.js:364-386 | A failed update changes nothing, and the list length is kept. |
| MedicineService.StockUpdateIff | src/services/mock/MockMedicineService.js:364-386 | Succeeds iff the id is known and stock + change ≥ 0. On success only that medicine changes: stock + change, status out of stock iff 0, updated time. |
| MedicineService.StockUpdatePreservesConsistency | src/services/mock/MockMedicineService.js:374-381 | `updateStock` keeps out of stock ⇔ stock 0. |
| MedicineService.MockMedicineService.constructor | src/services/mock/MockMedicineService.js:19-21 | The service starts from the fixture medicines. |
| MedicineService.MockMedicineService.GetMedicines | src/services/mock/MockMedicineService.js:42-145 | The successive filters, the name sort and the paging compute the paginated listing. |
| MedicineService.MockMedicineService.UpdateStock | src/services/mock/MockMedicineService.js:364-386 | The result and the new medicines are those of `StockUpdate`. |
| OrderService.CurrentUser | src/services/mock/MockOrderService.js:302-307 | A user is returned iff the token is valid and user data is stored. |
| OrderService.NewerOrSameIsTotalPreorder | src/services/mock/MockOrderService.js:64 | Newest-first is a total preorder. |
| OrderService.ListOrdersMembers | src/services/mock/MockOrderService.js:55-64 | Listed exactly: the caller's orders with that status, or of any status when none is given. |
| OrderService.ListOrdersSortedPermutation | src/services/mock/MockOrderService.js:55-69 | The list is sorted newest first and is a permutation of the selected orders. |
| OrderService.OrderIndex | src/services/mock/MockOrderService.js:242-244 | Finds the first order with that id owned by the caller, or none. |
| OrderService.OrderById | src/services/mock/MockOrderService.js:87-129 | Gives the first order with that id that belongs to the caller, and 'Order not found' iff there is none, so another user's order counts as missing. |
| OrderService.CancelOutcome | src/services/mock/MockOrderService.js:242-270 | A refused cancellation changes nothing. |
| OrderService.CancelIff | src/services/mock/MockOrderService.js:242-270 | Cancelling succeeds iff the caller owns the order and it is neither delivered nor cancelled. Only that order changes, to 'cancelled'. |
| OrderService.CancelTwiceFails | src/services/mock/MockOrderService.js:256-262 | Cancelling the same order again fails with 'Order cannot be cancelled'. |
| OrderService.OrderItemsOf | src/services/mock/MockOrderService.js:166-177 | One item per cart row. |
| OrderService.ItemsTotalIsPriceTimesUnits | src/services/mock/MockOrderService.js:166-171 | Σ item total = 25.99 × Σ quantity. |
| OrderService.OrderItemsStep | src/services/mock/MockOrderService.js:166-177 | Each step of the map adds that row's item and total. |
| OrderService.PriceCart | src/services/mock/MockOrderService.js:166-177 | The accumulated items and total match `OrderItemsOf`, and the total is 25.99 × Σ quantity. |
| OrderService.NewOrder | src/services/mock/MockOrderService.js:180-192 | The order's items come from the cart rows. |
| OrderService.NewOrderShape | src/services/mock/MockOrderService.js:166-192 | A new order is pending and cancellable, with id `order_<id>`. Its items have the same medicines and quantities at the mock price, and its total is their sum. Delivery is estimated at now + 2 days. The address defaults to the user's and payment to credit card. |
| OrderService.CreatedOrderIsListed | src/services/mock/MockOrderService.js:55-196 | A created order appears in the caller's list, both unfiltered and under 'pending'. |
| OrderService.MockOrderService.constructor | src/services/mock/MockOrderService.js:18-27 | Creates an empty order table when none is stored. |
| OrderService.MockOrderService.GetOrders | src/services/mock/MockOrderService.js:35-79 | Auth and then user checks come first. The result is the caller's listing with `total` equal to its length. |
| OrderService.MockOrderService.GetOrderById | src/services/mock/MockOrderService.js:87-129 | Auth and then user checks come first. The result is `OrderById`. |
| OrderService.MockOrderService.CreateOrder | src/services/mock/MockOrderService.js:137-214 | Auth, then user, then 'Cart is empty', writing nothing on failure. On success exactly the new order is appended and the cart is emptied. |
| OrderService.MockOrderService.CancelOrder | src/services/mock/MockOrderService.js:222-284 | Auth and then user checks come first. The result and the stored orders follow `CancelOutcome`, and nothing is written on failure. |
| AuthService.FindByEmail | src/services/mock/MockAuthService.js:71 | Gives the first user whose email matches ignoring case, or reports none. It throws when an earlier user has no string email. |
| AuthService.FindFrom | src/services/mock/MockAuthService.js:71 | The same search from a given index onward. |
| AuthService.FindByEmailTotal | src/services/mock/MockAuthService.js:71 | With unique string emails the search never throws, and finds iff some user matches. |
| AuthService.TwoUsersEmailsUnique | src/services/mock/MockAuthService.js:31-36 | Two users with case-distinct emails satisfy uniqueness. |
| AuthService.FixtureEmailsUnique | src/services/mock/MockAuthService.js:31-36 | The seeded user table has unique emails. |
| AuthService.AppendKeepsEmailsUnique | src/services/mock/MockAuthService.js:172-197 | Appending a user with an unseen email keeps emails unique. |
| AuthService.ProjectKeepsVisibleFields | src/services/mock/MockAuthService.js:99-109 | The stored projection has no password and copies exactly the nine listed fields that exist. |
| AuthService.LoginOutcome | src/services/mock/MockAuthService.js:52-134 | A successful login says 'Login successful' and returns no password. A user whose token `btoa` refuses gets 'Login failed. Please try again.' |
| AuthService.LoginRejections | src/services/mock/MockAuthService.js:56-131 | Rejections come in source order: missing fields, malformed email, search error or user not found, wrong password, deactivated account, then 'Login failed' when the token cannot be generated. |
| AuthService.LoginSucceedsIff | src/services/mock/MockAuthService.js:56-126 | Login succeeds iff every check passes and `btoa` accepts the found user's id and email. It then returns the projection, and a token for that user that expires 24 h later. |
| AuthService.NewUserFields | src/services/mock/MockAuthService.js:180-194 | A new user has a lower-cased email, is active and verified, and has the given password. A missing phone becomes null. |
| AuthService.RegisterOutcome | src/services/mock/MockAuthService.js:141-239 | A refused registration leaves the users unchanged, except a refused token: the new user is already appended and the answer is 'Registration failed. Please try again.' |
| AuthService.RegisterRejections | src/services/mock/MockAuthService.js:148-236 | Rejections come in source order: missing fields, malformed email, password shorter than 6 UTF-16 code units, an email already present ignoring case, then 'Registration failed' exactly when `btoa` refuses the new id or lower-cased email. |
| AuthService.AstralPasswordIsLongEnough | src/services/mock/MockAuthService.js:162 | A password of three characters beyond U+FFFF has length 6, so it passes the length check. |
| AuthService.RegisterOkPassedChecks | src/services/mock/MockAuthService.js:148-201 | A registration that succeeded or wrote the users passed every check and appended exactly the new user; a success also had a signable id and email. |
| AuthService.AcceptedFormRegisters | src/services/mock/MockAuthService.js:148-214 | A form passing every check with an unseen email appends the new user, and succeeds exactly when `btoa` accepts the new id and lower-cased email. |
| AuthService.WideEmailRegistersHalfway | src/services/mock/MockAuthService.js:196-236 | An accepted form whose email holds a character above U+00FF stores the new user yet answers 'Registration failed'. |
| AuthService.NewUserMatchesLogin | src/services/mock/MockAuthService.js:180-194 | A new user is found under the typed email, is active and holds the typed password. |
| AuthService.NewUserEncodable | src/services/mock/MockAuthService.js:180-201 | A new user can be signed exactly when `btoa` accepts its id and lower-cased email. |
| AuthService.RegisterOkIsAppend | src/services/mock/MockAuthService.js:179-214 | A successful registration is the append of the new user. |
| AuthService.RegisterAppendsOne | src/services/mock/MockAuthService.js:179-214 | On success exactly one user is appended. The response carries its projection and its token. |
| AuthService.RegisterKeepsEmailsUnique | src/services/mock/MockAuthService.js:172-198 | Registration keeps emails unique ignoring case. |
| AuthService.LoginAfterRegister | src/services/mock/MockAuthService.js:52-201 | A user whose registration succeeded can log in with the same email and password. |
| AuthService.LoginAfterAppend | src/services/mock/MockAuthService.js:56-126 | A signable, active user with the password, appended behind a table holding no user with that email, can log in. |
| AuthService.FindAfterAppend | src/services/mock/MockAuthService.js:71-197 | After the append, the search finds the new user at the end. |
| AuthService.MergeProfile | src/services/mock/MockAuthService.js:304-308 | The result is projection ⊕ profileData ⊕ `updated_at`: later sources win, and all keys are kept. |
| AuthService.UserIndex | src/services/mock/MockAuthService.js:315 | Gives the first user with the same id under `===`, or none. |
| AuthService.UsersAfterUpdate | src/services/mock/MockAuthService.js:314-319 | Only the user with that id gets the merge. With no such user, nothing changes. |
| AuthService.UpdateKeepsEmailsUnique | src/services/mock/MockAuthService.js:314-319 | An update without an email field keeps emails unique. |
| AuthService.UpdateMayDuplicateEmail | src/services/mock/MockAuthService.js:304-319 | An update carrying another user's email breaks uniqueness, because `updateProfile` does not check it. |
| AuthService.MockAuthService.constructor | src/services/mock/MockAuthService.js:24-36 | Seeds the fixture users when none are stored. |
| AuthService.MockAuthService.Login | src/services/mock/MockAuthService.js:52-134 | The result is `LoginOutcome`. On success the token and the projection are stored. On failure, the token failure included, nothing is written. |
| AuthService.MockAuthService.Register | src/services/mock/MockAuthService.js:141-239 | The result is `RegisterOutcome`. On success the users, token and projection are stored. A failed check writes nothing; a refused token writes only the user table. |
| AuthService.MockAuthService.GetProfile | src/services/mock/MockAuthService.js:246-276 | An invalid token gives 'Invalid or expired token', and no stored user gives 'User not found'. Otherwise it returns the stored projection unchanged. |
| AuthService.MockAuthService.UpdateProfile | src/services/mock/MockAuthService.js:284-333 | The same checks. It then stores the merged projection and merges it into the user with the same id, if any. |
| AuthService.MockAuthService.GetCurrentUser | src/services/mock/MockAuthService.js:393-398 | Returns the stored user iff the token is valid. |
| AuthService.MockAuthService.Logout | src/services/mock/MockAuthService.js:339-358 | Succeeds, removing exactly the token, user-data and cart keys. |
| AuthService.LogoutSignsOut | src/services/mock/MockAuthService.js:343-350 | After logout there is no token, no user and an empty cart. All other keys are unchanged. |
| PharmacyService.RatedAtLeastIsTotalPreorder | src/services/mock/MockPharmacyService.js:56 | Rating descending is a total preorder. |
| PharmacyService.PharmacyListingIsSortedSelection | src/services/mock/MockPharmacyService.js:27-56 | The list holds exactly the pharmacies matching every filter: city substring and state equality ignoring case, a service containing the text, and partner when 'true'. It is sorted by rating descending. |
| PharmacyService.EmptyQueryListsAll | src/services/mock/MockPharmacyService.js:21-61 | With no filters every pharmacy is listed. |
| PharmacyService.PharmacyById | src/services/mock/MockPharmacyService.js:78-102 | Returns the first pharmacy with that id, or 'Pharmacy not found' iff there is none. |
| PharmacyService.DayHours | src/services/mock/MockPharmacyService.js:212 | The day's hours string, or 'Closed' if the day is missing or empty. |
| PharmacyService.OpenOnlyInWindow | src/services/mock/MockPharmacyService.js:268-280 | Open iff the day is not 'Closed' or missing and 8 ≤ hour < 20. |
| PharmacyService.PharmacyHours | src/services/mock/MockPharmacyService.js:196-232 | Fails with 'Pharmacy not found' exactly as `getPharmacyById` does. |
| PharmacyService.HoursReportConsistent | src/services/mock/MockPharmacyService.js:209-224 | The report names that pharmacy and day. Its open flag implies the 8–20 window. A missing day reports 'Closed' and not open. |
| PharmacyService.CloserOrSameIsTotalPreorder | src/services/mock/MockPharmacyService.js:136 | Distance ascending is a total preorder. |
| PharmacyService.Locate | src/services/mock/MockPharmacyService.js:116-128 | Each pharmacy is paired with its given distance. |
| PharmacyService.NearbyWithinRadiusClosestFirst | src/services/mock/MockPharmacyService.js:131-136 | Exactly the pharmacies within the radius, closest first. |
| PharmacyService.PushAbsent | src/services/mock/MockPharmacyService.js:168-172 | Pushes only unseen services, keeping the accumulator as a prefix and its entries distinct. |
| PharmacyService.AllServices | src/services/mock/MockPharmacyService.js:167-174 | The collected services are distinct. |
| PharmacyService.AllServicesMembers | src/services/mock/MockPharmacyService.js:167-174 | A service is collected iff some pharmacy offers it. |
| PharmacyService.ServicesListedOnceSorted | src/services/mock/MockPharmacyService.js:167-178 | Every offered service is listed exactly once, in sorted order. |
| PharmacyService.MockPharmacyService.constructor | src/services/mock/MockPharmacyService.js:12-14 | Starts from the fixture pharmacies. |
| PharmacyService.MockPharmacyService.GetPharmacies | src/services/mock/MockPharmacyService.js:21-71 | The successive filters and the rating sort compute the listing, with `total` equal to its length. |
| PharmacyService.MockPharmacyService.GetPharmacyById | src/services/mock/MockPharmacyService.js:78-102 | The first of the service's pharmacies with that id, or 'Pharmacy not found' iff there is none. |
| PharmacyService.MockPharmacyService.GetNearbyPharmacies | src/services/mock/MockPharmacyService.js:111-156 | The pharmacies within the radius, closest first, with the radius echoed and the count. |
| PharmacyService.MockPharmacyService.GetPharmacyServices | src/services/mock/MockPharmacyService.js:162-188 | The reduce loop and the sort give the sorted distinct services. |
| PharmacyService.MockPharmacyService.GetPharmacyHours | src/services/mock/MockPharmacyService.js:196-232 | The report of `PharmacyHours`. |
| CataloguePage.EffectiveSortMode | src/pages/Catalogue.jsx:282 | The filter's sort mode, falling back to the page's current mode when empty. |
| CataloguePage.SortModeAsWritten | src/pages/Catalogue.jsx:282 | As written, an empty mode throws instead of falling back. |
| CataloguePage.SortFallbackThrows | src/pages/Catalogue.jsx:282 | The two agree on every non-empty mode. The fallback case throws. |
| CataloguePage.RatingOrZero | src/pages/Catalogue.jsx:289 | A missing rating counts as 0. |
| CataloguePage.ReviewsOrZero | src/pages/Catalogue.jsx:291 | A missing review count counts as 0. |
| CataloguePage.SortOrderIsTotalPreorder | src/pages/Catalogue.jsx:283-297 | Every mode's comparator is a total preorder. |
| CataloguePage.CatalogueViewIsSortedSelection | src/pages/Catalogue.jsx:248-300 | The view holds exactly the medicines passing every set filter, as a sub-multiset of the input, sorted by the mode. |
| CataloguePage.SortModesOrder | src/pages/Catalogue.jsx:282-297 | price_low is ascending price, price_high descending, rating descending rating, popularity descending reviews, and any other mode ascending name. |
| CataloguePage.NoFiltersKeepsAll | src/pages/Catalogue.jsx:252-279 | With every filter unset, the view is a permutation of the input. |
| CataloguePage.UnparsedBoundKeepsNothing | src/pages/Catalogue.jsx:268-273 | A price bound that is not a number keeps nothing. |
| CataloguePage.FilterAndSortMedicines | src/pages/Catalogue.jsx:248-300 | The copy, the successive filters and the sort compute exactly the view. |
| CartPage.PromoDiscount | src/pages/Cart.jsx:142-152 | 'save10' in any case gives 10%, 'welcome5' gives 5%, and any other code keeps the current discount. |
| CartPage.PromoIgnoresCaseAndRepeats | src/pages/Cart.jsx:142-152 | Codes ignore case, re-applying is idempotent, and the discount stays in {0, 5, 10}. |
| CartPage.QuantityRequest | src/pages/Cart.jsx:97-104 | Below 1 nothing is requested. Otherwise an update to the new quantity is requested. |
| CartPage.ForwardedQuantityIsLargeEnough | src/pages/Cart.jsx:97-104 | A forwarded request is never refused for being below one. |
| CartPage.DisplayItems | src/pages/Cart.jsx:182-184 | The real cart when non-empty. Otherwise the demo items for a signed-in user, else none. |
| CartPage.ShippingFee | src/pages/Cart.jsx:187 | Free iff subtotal > $50, else $5.99. |
| CartPage.Summarize | src/pages/Cart.jsx:185-188 | Subtotal = Σ price × quantity. Total = subtotal − subtotal × discount + shipping. |
| CartPage.SummaryBounds | src/pages/Cart.jsx:185-188 | For a discount of 0–100% the total lies between shipping and subtotal + shipping. A larger discount never raises it. |
| CartPage.DemoCartShipsFree | src/pages/Cart.jsx:52-187 | The demo cart totals $99.48 and ships free. |
| CartPage.CartPage.constructor | src/pages/Cart.jsx:36-37 | No promo code and no discount at first. |
| CartPage.CartPage.ApplyPromo | src/pages/Cart.jsx:142-152 | Sets the discount of a known code with its message. Otherwise it keeps the discount and reports the code invalid. |
| OrdersPage.FilteredOrders | src/pages/Orders.jsx:234-245 | Only orders matching the search and the status are shown. |
| OrdersPage.FilteredOrdersSelection | src/pages/Orders.jsx:234-245 | Shown exactly: the status is 'all' or equal, and the query occurs in the order number, the pharmacy name or some medicine name, ignoring case. The result keeps the input order. |
| OrdersPage.EmptySearchShowsAll | src/pages/Orders.jsx:234-245 | An empty query with 'all' shows every order. |
| OrdersPage.ReorderTarget | src/pages/Orders.jsx:218-225 | An unknown id does nothing. Otherwise the page goes to the cart. |
| PharmaciesPage.FilteredPharmacies | src/pages/Pharmacies.jsx:96-106 | Only pharmacies matching the search are shown. |
| PharmaciesPage.FilteredPharmaciesSelection | src/pages/Pharmacies.jsx:96-106 | Shown exactly: matching the name or address; plus open for 'open', hours '24/7' for '24h', and 'Delivery' offered for 'delivery'. The result keeps the input order. |
| PharmaciesPage.EmptySearchShowsAll | src/pages/Pharmacies.jsx:96-100 | An empty query with 'all' shows every pharmacy. |

## Left out

- Asynchrony and `simulateApiDelay`. Every operation is one atomic step, so concurrent read-modify-write races on the cart are not modelled.
- The `catch` branches answering 'Failed to …'. They only run when a JavaScript exception occurs, and the model has no exceptions in general. Two exceptions are kept:
  - a user record without a string email during the email search, where `FindByEmail` reports `Throws`;
  - `btoa` refusing a token payload with a character above U+00FF, which answers 'Login failed' or 'Registration failed' (the latter after the new user is stored).
- Real time, `Math.random` and `generateId`. `now`, the day name, the hour and every new id are parameters. Timestamps are stored as milliseconds, not ISO text.
- `localStorage` itself and JSON text. A slot holds a typed value or is `Unparseable`. A value of the wrong kind under a key, which only outside tampering could store, reads as absent. The storage quota, and so a failing `setItem`, is not modelled: writes always succeed.
- The token's bytes. `btoa(JSON.stringify(…))` is replaced by a self-delimiting text encoding with the same round trip for every payload `btoa` accepts; a payload `btoa` refuses gets no token.
- Session.GenerateMockToken: a non-string user id is carried as "" (`TokenUserId`), so `btoa` throwing on a non-string id whose JSON form holds a character above U+00FF is not modelled; every id `register` creates is a string.
- Lower-casing is ASCII only. Name order is ordinal lexicographic order, standing in for `localeCompare`. Sorting is stable, like `Array.prototype.sort`.
- Strings are sequences of Unicode characters. `length` is modelled as UTF-16 code units (`Utf16Length`), but the service list's `sort()` order compares characters where JavaScript compares code units. The two orders differ only between a character beyond U+FFFF and one in U+E000..U+FFFF, and the fixture services are ASCII.
- Floating point:
  - Haversine distance and `toFixed(2)` are left out. `getNearbyPharmacies` takes each pharmacy's distance as an integer function.
  - Prices are integer cents, so the mock unit price 25.99 is 2599.
  - The cart page's discounted total is in hundredths of a cent.
- `getCategories`, `isStorageAvailable` and `formatCurrency`. They return a constant or format text, with no logic to state.
- The real HTTP services, the service selector, the React contexts and all rendering, alerts and navigation.
- Ids compared with `===` are strings. Query parameters are already-parsed values, and a price bound that does not parse is `NotANumber`.
- The `user_location` echo of `getNearbyPharmacies` (src/services/mock/MockPharmacyService.js:141-144). It only repeats the caller's coordinates, so `NearbyResult` leaves it out.
- The `date` field of `getPharmacyHours` (src/services/mock/MockPharmacyService.js:219). It is the ISO text of a date, and the model has no calendar text, so `HoursReport` leaves it out.
- The `$` replacement patterns of `String.prototype.replace` (src/config/api.js:74). `ReplaceFirst` inserts the value literally, so a value holding `$&` or `$$` would differ.
- The key order of `Object.entries` (src/config/api.js:73), which lists integer-like keys first. `BuildApiUrl` takes the params as a sequence already in the order they are substituted.
- Default arguments. The callers pass every argument, so the defaults are not modelled: `searchMedicines` limit 10, `getFeaturedMedicines` limit 6, `getMedicinesByCategory` limit 12, `getNearbyPharmacies` radius 10, and quantity 1 for `addToCart` and `checkAvailability`.
- Storage.Paginate: requires limit ≥ 1, because `Math.ceil(n / 0)` is not a number of pages.
- MedicineService.MockMedicineService.GetMedicines: requires limit ≥ 1, because its paging comes from `createPaginatedResponse`.
- OrderService.MockOrderService.CreateOrder: the two `new Date()` readings are one `now`.
- AuthService.MockAuthService.UpdateProfile: email uniqueness is not re-checked, as in the source. `UpdateMayDuplicateEmail` states the consequence.

## Findings

| source | as written | input that shows it | evidently intended | confidence | as-written member | corrected member |
|---|---|---|---|---|---|---|
| src/pages/Catalogue.jsx:282 | `const sortBy = filters.sort_by \|\| sortBy` reads the constant being declared, so the fallback throws a ReferenceError | `filters.sort_by == ''` | an empty filter falls back to the page's current sort mode | not executed; the page's own controls never set an empty `sort_by` | CataloguePage.SortModeAsWritten, CataloguePage.SortFallbackThrows | CataloguePage.EffectiveSortMode |
