# Retail POS front end — a Dafny model

This project models the client-side logic of a Next.js point-of-sale and
inventory application:

- the API client's response envelope and the record mappers that turn
  back-end rows into products, customers, brands and categories;
- the POS cart: adding, re-adding, quantity and discount edits, totals,
  and the call sequence of an invoice submission;
- sign-in state: the session held in memory and in browser storage
  (login, start-up, logout, avatar change);
- access control: the protected route, the role guard, the home-page
  redirect, the role-filtered navigation table and the sidebar's
  expanded sub-menus;
- the list pages (products, customers, brands, suppliers, invoices):
  search, reload after a change, sorting, the summary cards and CSV export
  rows;
- the zod form schemas, the brand form's validation, the add/edit modal
  hook, the draft auto-save hook, the labelled form field and the avatar
  upload checks;
- the environment configuration and its validity check.

Every React state update is modelled as a pure function from the old page
state (plus the outcome of the request it awaited) to the new one.
JavaScript values are modelled in `JsValues`:

- `Json` is a value of any type, including `null` and `undefined`;
- `Num` is a number that may be `NaN`;
- `Truthy`, `Or` and `ToStr` model `!!x`, `||` and `String(x)`;
- `Property` models reading a field, and it throws on `null` or `undefined`.

A request or callback that can throw is represented by
`Outcome<T> = Returned(value) | Threw(message)`. Money and quantities are
`real`, exact decimals without double rounding. Browser storage is a `map<string, string>`.

Modules: `Wrappers`, `Text`, `JsValues`, `Seqs`, `Types`, `UserCodec`
(shared helpers), then `Api`, `Cart`, `Session`, `Access`, `Sidebar`,
`ListView`, `Products`, `Customers`, `Brands`, `Suppliers`, `Invoices`,
`Schemas`, `FormModal`, `AutoSave`, `FormField`, `Settings`, `Config`.

Behaviour of the code that a reader might not expect:

- Brand and category fetch errors do not become an empty paginated
  failure. The `catch` hands the non-paginated error envelope back to the
  mapper, which turns it into the "Unexpected response format" result
  without data (`Api.BrandFetchErrorIsUnexpected`).
- A mapper given a server failure does not return the empty paginated
  failure either (see Findings).
- The customer check before opening an invoice is commented out. An
  invoice without a customer is opened for "undefined undefined" with id 0
  (`Cart.NoCustomerStillOpens`).

More such behaviour, stated by the lemmas:

- A product whose quantity is `NaN` shows the "In Stock" badge, yet no
  summary card counts it.
- The products sort stores the column selector when the column has no
  `sortField`. The customers sort falls back to `id` instead.
- The brand message says "less than 100 characters", but a
  100-character name is accepted.
- A supplier whose id is `0` cannot be edited.
- A non-ok answer whose error body is `null` makes the request throw
  instead of returning a failure (`Api.HttpFailure`).
- A search run from a page other than 1 is followed by a listing of page
  1 that replaces its results (see Findings).
- A discount is clamped against the edited line's price only.
- Stored user data without a token is ignored.
- Unreadable stored user data clears both session keys, but it does not
  sign out a user already held in memory.

## Model

| member | source | states |
|---|---|---|
| Api.HandleResponse | src/app/lib/api.ts:346-384 | an error gives `{success:false}` with the error's message, or else the default message, and echoes the caught value under `error`. A paginated error also carries empty data and an empty pagination block, and no other key. A response with a `success` field passes through unchanged. Anything else becomes the unexpected-format envelope carrying the raw response. |
| Api.HandleResponseIdempotent | src/app/lib/api.ts:346-384 | without an error, handling an already handled response changes nothing |
| Api.HandleResponseIgnoresDefaults | src/app/lib/api.ts:346-384 | without an error, the default message and the paginated flag never influence the result |
| Api.HandleResponseSuccess | src/app/lib/api.ts:346-384 | a truthy `success` in the result implies there was no error and the response itself carried a truthy `success` |
| Api.HttpFailure | src/app/lib/api.ts:81-97 | a non-ok HTTP answer whose error body is `null` makes the helper throw "<METHOD> request failed: " followed by the failed property read. Any other body gives exactly `success:false`, `message`, `errors` and `status`: the server's message when truthy, else one built from the status, and the server's errors when truthy, else `{}`. |
| Api.HttpFailurePassesThrough | src/app/lib/api.ts:83-90 | the body of a non-ok answer passes `handleResponse` unchanged (src/app/lib/api.ts:378-380) and still reports failure |
| Api.CoerceInt | src/app/lib/api.ts:399-400 | a string id is parsed as `parseInt` does, a number is kept, and anything else counts as 0 |
| Api.CoerceFloat | src/app/lib/api.ts:225-227 | a string amount is parsed as `parseFloat` does, a number is kept, and anything else counts as 0 |
| Api.CoerceIntOfRenderedId | src/app/lib/api.ts:399-400 | an integer id sent as text coerces back to itself, and it passes the positive-id filter iff it is positive |
| Api.OptionalText | src/app/lib/api.ts:229 | an optional field is present exactly when the raw value is truthy, and then holds its `String` form |
| Api.OptionalFloat | src/app/lib/api.ts:239-242 | an optional numeric field is present exactly when the raw value is truthy, and then holds `parseFloat` of its `String` form |
| Api.OptionalInt | src/app/lib/api.ts:239-242 | an optional id field is present exactly when the raw value is truthy, and then holds `parseInt` of its `String` form |
| Api.OptionalOfRenderedInt | src/app/lib/api.ts:229-242 | an integer sent as text reads back as itself through the `parseInt` and `parseFloat` coercions, and verbatim through the text coercion |
| Api.DecodeGrnItem | src/app/lib/api.ts:236-243 | decoding a batch throws exactly when the entry is `null` or `undefined` |
| Api.DecodeGrnItems | src/app/lib/api.ts:236-243 | decoding all batches succeeds iff no entry is nullish, and then yields one batch per entry |
| Api.DecodeProduct | src/app/lib/api.ts:211-245 | a decoded product's id and quantity are the coerced raw fields |
| Api.NullBatchThrows | src/app/lib/api.ts:236-243 | a product row with a `null` first batch makes decoding throw |
| Api.KeepRawId | src/app/lib/api.ts:211-214 | the raw-id filter throws iff some item is nullish; otherwise it keeps exactly the items whose raw id is truthy |
| Api.MapRows | src/app/lib/api.ts:215-244 | a successful map yields one decoded row per item, each being what the decoder returns for that item |
| Api.DefaultPagination | src/app/lib/api.ts:249-260 | the invented pagination block reports `total` and `to` as the row count, `from` as 1 (or `null` when there are no rows), and one page |
| Api.ListingsAgreeWithHandleResponse | src/app/lib/api.ts:346-384 | the error and unexpected-format listings are exactly the envelopes `handleResponse` builds for those cases |
| Api.MapListing | src/app/lib/api.ts:206-265 | a nullish response throws, and a successful listing always carries data and a truthy pagination block |
| Api.MapListingIntended | src/app/lib/api.ts:206-208 | the corrected mapper turns a failure into an empty paginated listing |
| Api.MapperFailureDropsMessage | src/app/lib/api.ts:207-208 | as written, a server failure `{success:false, message:m}` comes back without data and without `m` |
| Api.MapperFailureIntended | src/app/lib/api.ts:207-208 | the corrected mapper keeps the server's message in an empty paginated failure, and agrees with the original on every success |
| Api.RowPipelineIsReference | src/app/lib/api.ts:211-245 | filtering on the raw id, decoding, then filtering on the positive id equals the one-pass reference: keep, in order, the items with a truthy raw id and a positive decoded id |
| Api.MappedRowsHavePositiveIds | src/app/lib/api.ts:245 | every row a mapper returns has a positive id |
| Api.DefaultPaginationCountsRows | src/app/lib/api.ts:249-260 | when the server sends no pagination, the block counts the surviving rows, and `from` is 1 iff there is at least one row |
| Api.SuccessRows | src/app/lib/api.ts:206-265 | a success response's listing holds exactly the reference rows |
| Api.CustomerRows | src/app/lib/api.ts:394-407 | a customer listing keeps exactly the rows whose `id` is truthy and positive, in order |
| Api.BrandRows | src/app/lib/api.ts:499-508 | a brand listing keeps exactly the rows whose brand id is truthy and positive, in order |
| Api.CategoryRows | src/app/lib/api.ts:598-607 | a category listing keeps exactly the rows whose category id is truthy and positive, in order |
| Api.FetchListing | src/app/lib/api.ts:276-281 | a product or customer fetch that throws, or whose mapping throws, gives the error listing with that message; otherwise it gives the mapper's listing |
| Api.ProductFetchErrorIsEmptyPage | src/app/lib/api.ts:279-280 | a failed product fetch is an empty paginated failure carrying the error's message |
| Api.BrandFetchErrorIsUnexpected | src/app/lib/api.ts:538-543 | a failed brand fetch yields the unexpected-format listing, and the error's message is lost |
| Api.CategoryFetchErrorIsUnexpected | src/app/lib/api.ts:637-642 | a failed category fetch yields the unexpected-format listing, and the error's message is lost |
| Api.ErrorEnvelopeIsUnexpected | src/app/lib/api.ts:542 | the non-paginated error envelope, handed to a mapper, reads as a failure without data |
| Api.SetParam | src/app/lib/api.ts:31-33 | setting a parameter makes the pair present, keeps every other key in place, and adds no entry when the key already exists |
| Api.InjectUserId | src/app/lib/api.ts:27-33 | without stored user data the parameters are unchanged |
| Api.StoredUserIdWins | src/app/lib/api.ts:27-33 | a stored user with a non-zero id sets `user_id` to that id, overriding the caller's value, and keeps every other parameter |
| Api.TextPairs | src/app/lib/api.ts:55-72 | the text encoding never has more pairs than parameters |
| Api.TextPairsKeys | src/app/lib/api.ts:55-72 | a key survives the PUT/GET/DELETE encoding iff one of its occurrences carries a value that is not `null` or `undefined`, and each text sent with it is the `String` form of such a value |
| Api.TextPairsSent | src/app/lib/api.ts:55-72 | a pair (key, text) is sent iff some occurrence of the key carries a non-nullish value whose `String` form is the text |
| Api.TextPairsIsReference | src/app/lib/api.ts:55-72 | the PUT/GET/DELETE pairs are the non-nullish parameters in their order, each with its `String` form |
| Api.EncodeParams | src/app/lib/api.ts:39-77 | POST sends every parameter as a form field, in order: a file as itself, any other value as its `String` form. PUT sends a URL-encoded body, and GET/DELETE a query string, of the non-nullish pairs. |
| Api.PostKeepsNull | src/app/lib/api.ts:44-48 | a `null` POST parameter is sent as the text "null" |
| Cart.FindBatch | src/app/pos/page.tsx:114 | finds the first line holding the batch, and finds none iff no line holds it |
| Cart.UpdateCartItemQuantity | src/app/pos/page.tsx:152-173 | a quantity update never lengthens the cart |
| Cart.QuantityAlert | src/app/pos/page.tsx:159-161 | the out-of-stock alert fires iff the new quantity is positive and above the stock |
| Cart.UpdateCartItemDiscount | src/app/pos/page.tsx:175-185 | a discount update keeps the number of lines |
| Cart.ClampDiscount | src/app/pos/page.tsx:514 | the clamped discount is non-negative and at most the line's price (or 0 for a negative price). A typed value inside the range is kept, one above the price saturates at the price, a negative one and unparsable text give 0. |
| Cart.ClampDiscountIsNearest | src/app/pos/page.tsx:514 | for a non-negative price the clamped discount is the amount in `[0, price]` nearest to the typed number |
| Cart.ClampNonNegative | src/app/pos/page.tsx:565 | the VAT and discount fields never go negative; a non-negative number typed is kept |
| Cart.NewLine | src/app/pos/page.tsx:128-138 | a new line has quantity 1, no discount and a consistent total, for the product's batch |
| Cart.AddToCart | src/app/pos/page.tsx:113-142 | adding grows the cart by at most one line |
| Cart.AddToCartIntended | src/app/pos/page.tsx:113-142 | with the corrected guard: a new batch is appended unless its stock is 0. For a batch in the cart, a truthy stock no greater than the quantity refuses. Otherwise only that batch may change, and it goes up by one iff its recorded stock allows one more unit. |
| Cart.ClearCart | src/app/pos/page.tsx:267-273 | clearing empties the cart and resets customer, VAT and discount |
| Cart.CalculateTotals | src/app/pos/page.tsx:191-202 | the subtotal is the sum of line totals and VAT is that percentage of it. The grand total is subtotal plus VAT minus discount, floored at 0. |
| Cart.RemoveKeepsValid | src/app/pos/page.tsx:187-189 | removing a batch keeps the cart valid (consistent totals, unique batches, positive quantities), removes every line of that batch and keeps every other line |
| Cart.FilterUnique | src/app/pos/page.tsx:188 | filtering a cart with unique batches keeps them unique |
| Cart.UpdateQuantityKeepsValid | src/app/pos/page.tsx:152-173 | a quantity update keeps the cart valid |
| Cart.UpdateDiscountKeepsValid | src/app/pos/page.tsx:175-185 | a discount update keeps the cart valid |
| Cart.AddKeepsValid | src/app/pos/page.tsx:113-142 | adding a product keeps the cart valid |
| Cart.AddZeroStockUnchanged | src/app/pos/page.tsx:125-126 | a new batch with stock 0 is not added |
| Cart.AddNewBatchAppends | src/app/pos/page.tsx:128-139 | a new batch with non-zero stock is appended after the existing lines at quantity 1. Its price is the latest price when set and non-zero, else the selling price. A `null` stock is recorded as 0. |
| Cart.AddExistingNoNewLine | src/app/pos/page.tsx:114-121 | re-adding a batch already in a valid cart never adds a line |
| Cart.AddExistingWithStockUnchanged | src/app/pos/page.tsx:117-118 | re-adding a batch whose stock covers the current quantity changes nothing |
| Cart.ReAddNeverIncrements | src/app/pos/page.tsx:117-120 | as written, re-adding a batch with its recorded stock never raises the quantity |
| Cart.StaleStockReAddIncrements | src/app/pos/page.tsx:117-120 | as written, re-adding does raise the quantity by one when the search result's stock is falsy or below the quantity while the recorded stock allows one more |
| Cart.StaleZeroStockExample | src/app/pos/page.tsx:117-120 | a one-unit line with 5 recorded, re-added from a result whose stock reads 0, goes to two units |
| Cart.ReAddIntendedIncrements | src/app/pos/page.tsx:117-120 | with the corrected guard, re-adding a batch with room for one more raises that line by one and leaves every other batch alone |
| Cart.NullStockLineIsStuck | src/app/pos/page.tsx:125-137 | a batch added with `null` stock can never have its quantity raised |
| Cart.QuantityZeroRemoves | src/app/pos/page.tsx:154-156 | setting a quantity of 0 or less removes the batch |
| Cart.QuantityAboveStockUnchanged | src/app/pos/page.tsx:159-161 | a quantity above the stock leaves the cart unchanged and raises the alert |
| Cart.QuantityChangeTouchesOnlyBatch | src/app/pos/page.tsx:164-172 | an allowed quantity change sets that batch's quantity and recomputes its total; every other line is unchanged |
| Cart.DiscountByProduct | src/app/pos/page.tsx:175-185 | a discount edit applies the clamped value to every line of the product, across batches, with consistent totals; other products' lines are unchanged |
| Cart.DiscountCanExceedOtherBatchPrice | src/app/pos/page.tsx:514 | a discount clamped against one batch's price can push a cheaper batch of the same product below zero |
| Cart.RemovePreservesOrder | src/app/pos/page.tsx:188 | removing keeps the remaining lines in their order |
| Cart.SubtotalIsLineValues | src/app/pos/page.tsx:192 | in a consistent cart the subtotal equals the sum of (price − discount) × quantity |
| Cart.SubtotalAppend | src/app/pos/page.tsx:192 | appending a line adds its total to the subtotal |
| Cart.GrandTotalZero | src/app/pos/page.tsx:200 | the grand total is 0 exactly when the discount covers subtotal plus VAT |
| Cart.AfterOpen | src/app/pos/page.tsx:231-251 | after the invoice is opened: one call per line, one for VAT if positive, one for discount if positive, then save |
| Cart.AfterOpenShape | src/app/pos/page.tsx:231-251 | the calls after the open are the item calls in cart order, then VAT, then discount, then the save |
| Cart.AfterSubmit | src/app/pos/page.tsx:253-263 | a cleared submission resets the page, and any other outcome leaves it as it was |
| Cart.EmptyCartNoCalls | src/app/pos/page.tsx:209-212 | an empty cart makes no calls and is not cleared |
| Cart.SuccessfulPlan | src/app/pos/page.tsx:204-264 | a successful submission opens the invoice and then makes the calls in order: one add-item per line, VAT and discount only when positive, and the save last. The page is then cleared. |
| Cart.ClearedOnlyOnSuccess | src/app/pos/page.tsx:226-263 | the page is cleared iff the cart is non-empty, the open returned a truthy result and id, and no later call threw; otherwise nothing changes |
| Cart.NoCustomerStillOpens | src/app/pos/page.tsx:217-224 | with no customer selected the invoice is opened for "undefined undefined" with id "0" |
| UserCodec.DecodeEncode | src/app/contexts/AuthContext.tsx:79 | the stored user text reads back as the same user |
| Session.ClearSession | src/app/contexts/AuthContext.tsx:45-46 | removes the token and user keys and keeps every other key |
| Session.CheckAuth | src/app/contexts/AuthContext.tsx:32-49 | readable stored user data signs that user in. Unreadable data clears both keys and keeps the in-memory user. Loading ends either way. |
| Session.Start | src/app/contexts/AuthContext.tsx:23-30 | a user is signed in only when both the token and the user data are present; without a token nothing is read |
| Session.UserDataWithoutTokenIgnored | src/app/contexts/AuthContext.tsx:24-28 | stored user data without a token is neither read nor removed |
| Session.CorruptUserDataCleared | src/app/contexts/AuthContext.tsx:40-46 | a token with unreadable user data starts signed out, with both keys removed and the rest of storage kept |
| Session.Interpolate | src/app/contexts/AuthContext.tsx:74 | a missing back-end URL renders as "undefined" in front of the path |
| Session.SessionUser | src/app/contexts/AuthContext.tsx:69-75 | the session user copies id, name, email and role, and prefixes the avatar path with the back-end URL |
| Session.Login | src/app/contexts/AuthContext.tsx:51-88 | login succeeds iff the answer is ok, parses, has a truthy result and a user object. It then stores a token and the encoded user and signs the user in. Every failure keeps the state and rejects. A non-ok answer rejects with the HTTP status message, and a missing or `null` user rejects with the failed read of `id` on `undefined` or `null`. |
| Session.RefusedLoginMessage | src/app/contexts/AuthContext.tsx:81-83 | a refused login rejects with the server's message, or "Login failed" |
| Session.LoginSurvivesReload | src/app/contexts/AuthContext.tsx:77-80 | after a successful login, a reload from storage signs the same user in |
| Session.TokenIsNonEmpty | src/app/contexts/AuthContext.tsx:77 | the stored token is never empty, so a reload sees it |
| Session.Logout | src/app/contexts/AuthContext.tsx:90-95 | logging out signs the user out, removes both session keys and goes to the login page |
| Session.LogoutSurvivesReload | src/app/contexts/AuthContext.tsx:90-95 | after a logout a reload starts signed out |
| Session.UpdateUserAvatar | src/app/contexts/AuthContext.tsx:97-103 | without a user nothing changes; otherwise the avatar becomes the back-end URL plus the path, in memory and in storage |
| Session.UpdateUserAvatarPersists | src/app/contexts/AuthContext.tsx:97-103 | an avatar change keeps memory and storage in agreement |
| Session.OperationsPersist | src/app/contexts/AuthContext.tsx:23-103 | login, logout and start-up all keep memory and storage in agreement |
| Access.RoleHome | src/app/components/ProtectedRoute.tsx:22-26 | a refused storekeeper goes to the goods-received page, every other role to the POS page |
| Access.ProtectedRoute | src/app/components/ProtectedRoute.tsx:17-42 | the spinner shows exactly while loading, and no redirect happens then |
| Access.ProtectedRouteChildren | src/app/components/ProtectedRoute.tsx:38-42 | the children show iff loading is over and the user's role is allowed, and then without a redirect; everyone else who is loaded is redirected |
| Access.ProtectedRouteNoUser | src/app/components/ProtectedRoute.tsx:18-19 | a loaded page without a user renders nothing and goes to the login page |
| Access.DefaultAllowsEveryRole | src/app/components/ProtectedRoute.tsx:13 | without explicit roles, each of the three known roles sees the page |
| Access.DefaultRefusesUnknownRole | src/app/components/ProtectedRoute.tsx:13 | a role string outside the three is refused even by the default and sent to the POS page |
| Access.StorekeeperRedirectLands | src/app/components/ProtectedRoute.tsx:22-23 | a refused storekeeper goes to the goods-received page, which admits storekeepers, so the redirect does not loop |
| Access.RoleGuard | src/app/components/RoleGuard.tsx:17-27 | the guard never shows a spinner |
| Access.GuardAgreesWithProtectedRoute | src/app/components/RoleGuard.tsx:17-27 | the guard and the protected route show the children to exactly the same users; the guard never redirects a missing user |
| Access.GuardRedirect | src/app/components/RoleGuard.tsx:18-20 | a refused user goes to the fallback path when given, else to the role's home |
| Access.Home | src/app/page.tsx:11-35 | the home page shows a spinner while loading and nothing otherwise |
| Access.HomeByRole | src/app/page.tsx:16-19 | once loaded, an admin goes to the dashboard and every other user to the POS page; nothing happens while loading |
| Access.Navigation | src/app/hooks/useRoleBasedNavigation.ts:42-48 | without a user the navigation is empty, and it never holds more than the table |
| Access.NavigationIsRoleFilter | src/app/hooks/useRoleBasedNavigation.ts:45-47 | the navigation is the order-preserving selection of the table entries whose roles include the user's role |
| Access.AdminSeesAll | src/app/hooks/useRoleBasedNavigation.ts:17-37 | an admin sees the whole table |
| Access.StorekeeperSeesSuppliersAndGrn | src/app/hooks/useRoleBasedNavigation.ts:33-36 | a storekeeper sees Suppliers then GRN, and nothing else |
| Access.CashierExclusions | src/app/hooks/useRoleBasedNavigation.ts:17-37 | a cashier never sees Dashboard, Reports, Settings or GRN |
| Sidebar.Toggle | src/app/components/layout/SideBar.tsx:99-105 | toggling flips the membership of that name and leaves every other name as it was |
| Sidebar.ToggleTwice | src/app/components/layout/SideBar.tsx:99-105 | toggling twice restores the set of expanded names |
| Sidebar.ToggleKeepsNoDuplicates | src/app/components/layout/SideBar.tsx:99-105 | toggling a duplicate-free list keeps it duplicate-free |
| Sidebar.Dedup | src/app/components/layout/SideBar.tsx:112 | the set conversion keeps exactly the same names, without duplicates |
| Sidebar.ExpandedItems | src/app/components/layout/SideBar.tsx:107-113 | the expanded list never holds a name twice |
| Sidebar.ExpandedItemsMembership | src/app/components/layout/SideBar.tsx:107-113 | a name is expanded iff the user expanded it or one of its entry's sub-items is the current page |
| Sidebar.AutoExpandedIsActive | src/app/components/layout/SideBar.tsx:117-119 | an entry opened because of its current sub-page is also highlighted and has a sub-menu |
| Sidebar.ProductsOpenOnBrandsPage | src/app/components/layout/SideBar.tsx:107-117 | on the brands page the Products menu is expanded and highlighted |
| ListView.ApplyResponse | src/app/products/page.tsx:101-110 | a failed or thrown fetch empties the table and sets the total to 0. A success shows the rows with the server's total. Loading ends either way, and the page is only ever reset to 1. |
| ListView.MapperSuccessIsShown | src/app/customers/page.tsx:82-91 | a successful mapper listing is shown row for row |
| ListView.Dispatch | src/app/products/page.tsx:215-249 | a non-blank term first searches page 1 and ends on page 1 iff the search was applied, else on the page it was on. A blank term first lists the current page and ends on page 1. Whenever the page changes, exactly one more request follows: a listing of the new page (src/app/products/page.tsx:89-118). |
| ListView.DispatchSearchesFirstPage | src/app/customers/page.tsx:97-143 | every search request asks for page 1, a term is blank iff only list requests are made, and from a later page a blank term or an applied search ends with a listing of page 1 |
| ListView.SearchPageMatchesTable | src/app/products/page.tsx:232-236 | the page the search step ends on is the page applying the search response leaves the table on |
| ListView.SearchFromLaterPageListsAfter | src/app/products/brands/page.tsx:82-84 | an applied search from a page other than 1 is followed by a listing of page 1 (src/app/products/brands/page.tsx:116-119) |
| ListView.PageEffect | src/app/products/page.tsx:116-118 | a page change re-lists exactly the new page, and no change issues nothing |
| ListView.DispatchIntended | src/app/products/page.tsx:232-236 | the corrected search step ends on the same page, leaves blank terms alone, and issues only the search for a term |
| ListView.IntendedSearchIsLast | src/app/products/page.tsx:232-236 | with the corrected search step the search is the last request, so its rows stay shown |
| ListView.ReloadAfterMutation | src/app/products/page.tsx:288-292 | after a failed change nothing reloads. After a success the first request is the reload start; a non-blank term issues exactly what the search step issues, and a blank one lists the current page once. |
| ListView.ReloadMatchesDispatch | src/app/customers/page.tsx:161-165 | with a term, a reload from page 1 is the single search, and from a later page an applied search is again followed by a listing of page 1 |
| ListView.Typed | src/app/customers/page.tsx:436-441 | typing nothing schedules nothing |
| ListView.TypedTimers | src/app/products/page.tsx:620-624 | the customers box runs a search for every keystroke, while the products box runs one for the last keystroke only |
| ListView.FilterUnlessBlank | src/app/products/page.tsx:161-170 | a blank term keeps the whole list, any other term filters it |
| Products.StockStatus | src/app/products/page.tsx:401-409 | out of stock iff the quantity is `null` or 0; low stock iff it is a non-zero number below 10 |
| Products.Summarise | src/app/products/page.tsx:779-819 | no card counts more products than there are |
| Products.CardMatchesBadge | src/app/products/page.tsx:779-819 | for a well-formed quantity, each card counts exactly the products showing that badge |
| Products.OddQuantitiesUncounted | src/app/products/page.tsx:401-409 | a `NaN` or negative quantity shows a badge but is counted by no card |
| Products.SummaryPartitions | src/app/products/page.tsx:779-819 | when every quantity is well formed, the three cards add up to the product count |
| Products.FilterBrands | src/app/products/page.tsx:161-170 | the brand picker never shows more brands than there are |
| Products.FilterCategories | src/app/products/page.tsx:172-181 | the category picker never shows more categories than there are |
| Products.PickerFilters | src/app/products/page.tsx:161-181 | a blank term shows every brand and category. Any other term shows, in order, exactly those whose name contains the term, ignoring case. |
| Products.SubmitRecord | src/app/products/page.tsx:256-273 | the prices and quantity are the parsed texts, and a brand or category id is sent iff it is a positive number |
| Products.SubmittedPriceOfInteger | src/app/products/page.tsx:263 | an integer typed as the cost is submitted as that number |
| Products.HandleSort | src/app/products/page.tsx:592-598 | the direction is kept; the sort key is the column's `sortField` when it is non-empty, else its selector |
| Products.ExportRowOf | src/app/products/page.tsx:515-524 | an export row copies the name, number and location. Missing details become empty and a missing type becomes "unit". A falsy quantity becomes 0. A truthy brand or category name is copied, and a missing one becomes "Not specified". |
| Api.ExportListing | src/app/products/page.tsx:508-515 | the CSV export of a page: nothing is exported iff the fetch failed, returned no data or returned no rows; otherwise exactly one row per listed item, in order, each the page's row of that item. The customers page (src/app/customers/page.tsx:331-338) and the brands page (src/app/products/brands/page.tsx:309-316) export the same way |
| Products.NullBrandNotSpecified | src/app/products/page.tsx:522 | a product without a brand exports "Not specified" |
| Customers.HandleSort | src/app/customers/page.tsx:408-414 | the direction is kept; the sort key is the column's `sortField` when it is non-empty, else `id` |
| Customers.SortAgreesWithProducts | src/app/customers/page.tsx:408-414 | the two pages sort by the column's field in the same cases |
| Brands.ExportRowOf | src/app/products/brands/page.tsx:316-319 | a brand's export row holds its id and its name |
| Customers.ExportRowOf | src/app/customers/page.tsx:338-344 | an export row copies the names, and a missing address, contact number or email becomes empty |
| Brands.ValidateForm | src/app/products/brands/page.tsx:140-151 | the only possible error is on the name field. It is absent iff the trimmed name is non-empty and at most 100 characters; otherwise it is "required" or "too long". |
| Brands.LengthBoundary | src/app/products/brands/page.tsx:143-146 | surrounding white space is not counted: a 100-character name passes however padded, and 101 characters fail |
| Brands.Submit | src/app/products/brands/page.tsx:153-158 | an invalid name only records the errors; a valid one goes on to the save |
| Brands.Saved | src/app/products/brands/page.tsx:160-190 | a successful save closes and resets the modal and reloads. A failure keeps the modal and form, with one general error that is the server's message or a fallback. A throw gives the unexpected-error text. |
| Brands.BlankNameSendsNothing | src/app/products/brands/page.tsx:143-157 | a blank name makes no call and shows "Brand name is required" |
| Brands.ValidSubmitSavesOnce | src/app/products/brands/page.tsx:156-181 | a valid name always sends the save call next (an update when editing, an add otherwise), whatever the save returns |
| Suppliers.HandleSearch | src/app/suppliers/page.tsx:53-64 | a blank term shows every supplier, and no term shows more than there are |
| Suppliers.HandleSearchSpec | src/app/suppliers/page.tsx:58-62 | a non-blank term shows, in order, exactly the suppliers whose name contains it ignoring case, or whose contact number contains it as typed |
| Suppliers.LoadSuppliers | src/app/suppliers/page.tsx:38-51 | loading ends and the shown list is reset to the full list. A failure empties both lists and raises the alert, exactly on failure. |
| Suppliers.EditSupplier | src/app/suppliers/page.tsx:126-139 | no update is sent iff the editing id is missing or falsy; otherwise the update carries that id and the form's fields |
| Suppliers.ZeroIdNeverEdited | src/app/suppliers/page.tsx:127-130 | a supplier whose id is 0 cannot be edited |
| Invoices.ToInvoice | src/app/invoices/page.tsx:43-56 | the display number is the id plus 10000. A missing or zero VAT or discount reads as 0. The other fields are copied. |
| Invoices.StatusLabel | src/app/invoices/page.tsx:73-84 | 0, 1 and 2 are Draft, Completed and Paid, and every other status is Unknown, each both ways |
| Invoices.FilterInvoices | src/app/invoices/page.tsx:100-107 | the search never shows more invoices than there are |
| Invoices.FilterInvoicesSpec | src/app/invoices/page.tsx:100-107 | the search shows, in order, exactly the invoices whose client name contains the term ignoring case, or whose number contains it |
| Invoices.EmptyTermKeepsAll | src/app/invoices/page.tsx:100-107 | an empty term shows every invoice |
| Invoices.FoundByNumber | src/app/invoices/page.tsx:105 | every invoice is found by its own displayed number |
| Invoices.CompletedCount | src/app/invoices/page.tsx:312 | the completed count is at most the number of invoices |
| Invoices.RevenueOnlyCompleted | src/app/invoices/page.tsx:312-335 | revenue sums grand total minus discount over completed invoices only, and the count counts exactly those |
| Invoices.FiguresAppend | src/app/invoices/page.tsx:312-335 | one more invoice raises the count and the revenue only when it is completed |
| Invoices.LoadInvoices | src/app/invoices/page.tsx:37-67 | loading ends. The list is replaced iff the answer has a truthy result and data; otherwise an error is shown and the old list kept. |
| Invoices.AlertNamesDisplayedNumber | src/app/invoices/page.tsx:113 | the detail alert names the same number the list displays |
| Schemas.LoginIssues | src/app/lib/schemas.ts:4-7 | a login form passes iff the email is valid and the password is non-empty |
| Schemas.ContactIssues | src/app/lib/schemas.ts:14 | a contact number passes iff it is non-empty and made of digits, spaces, `-`, `+` and parentheses |
| Schemas.CustomerIssues | src/app/lib/schemas.ts:10-19 | a customer form passes iff the names and address are non-empty, the email is valid and the contact number passes |
| Schemas.ProductIssues | src/app/lib/schemas.ts:22-32 | a product form passes iff its required texts are non-empty and the optional ids, when given, are numbers |
| Schemas.SupplierIssues | src/app/lib/schemas.ts:35-39 | a supplier form passes iff name and address are non-empty and the contact number passes |
| Schemas.GrnIssues | src/app/lib/schemas.ts:42-48 | a goods-received form passes iff supplier, invoice number, goods-received number and date are non-empty |
| Schemas.InvoiceIssues | src/app/lib/schemas.ts:51-55 | an invoice form passes iff the client id is at least 1 and VAT and discount lie in 0..100 |
| Schemas.SearchIssues | src/app/lib/schemas.ts:58-60 | a search passes iff the query is non-empty |
| Schemas.SettingsIssues | src/app/lib/schemas.ts:72-76 | a settings form passes iff the name has at least 2 characters, the email is valid and the role is non-empty |
| Schemas.BlankNamesPass | src/app/lib/schemas.ts:10-39 | names and addresses of white space alone pass, because nothing trims them |
| Schemas.EmptyContactTwoIssues | src/app/lib/schemas.ts:14 | an empty contact number reports both the required and the pattern message |
| Schemas.LetterInContactRefused | src/app/lib/schemas.ts:14 | a contact number holding a letter is refused |
| Schemas.ProductNumbersNotChecked | src/app/lib/schemas.ts:27-29 | cost, price and quantity texts need not be numbers |
| Schemas.InvoiceBoundsInclusive | src/app/lib/schemas.ts:52-54 | 0 and 100 are accepted; 100.5, a client id of 0 and a negative discount are refused |
| Schemas.SettingsNameMinimums | src/app/lib/schemas.ts:73 | a one-letter name gets one issue; an empty name gets both the required and the minimum-length issue |
| Schemas.OptionalFieldsFree | src/app/lib/schemas.ts:16-18 | the optional fields never change the verdict |
| FormModal.Initial | src/app/hooks/useFormModal.ts:10-11 | the hook starts hidden with nothing being edited |
| FormModal.OpenAdd | src/app/hooks/useFormModal.ts:13-17 | opening for an add shows a reset form with nothing being edited |
| FormModal.OpenEdit | src/app/hooks/useFormModal.ts:19-23 | opening for an edit shows the item's values and remembers the item |
| FormModal.Close | src/app/hooks/useFormModal.ts:25-29 | closing hides the modal, forgets the item and resets the form |
| FormModal.Submit | src/app/hooks/useFormModal.ts:31-34 | the save is called iff the form is valid; only a completed save closes the modal, and otherwise it is unchanged |
| FormModal.CloseForgetsOpening | src/app/hooks/useFormModal.ts:13-29 | closing after an add or after an edit gives the same, initial, state |
| FormModal.FailedSaveKeepsEdit | src/app/hooks/useFormModal.ts:31-34 | a save that throws leaves the edit open on the same item and values |
| AutoSave.StorageKey | src/app/hooks/useAutoSave.ts:17 | the storage key is the prefix followed by the draft's name |
| AutoSave.StorageKeyInjective | src/app/hooks/useAutoSave.ts:17 | different draft names never share a storage key |
| AutoSave.SaveTick | src/app/hooks/useAutoSave.ts:14-23 | a draft is stored and reported iff some field is truthy; otherwise storage is unchanged |
| AutoSave.BlankDraftNotSaved | src/app/hooks/useAutoSave.ts:16 | a form of empty fields is never saved over an earlier draft |
| AutoSave.Clear | src/app/hooks/useAutoSave.ts:25-27 | clearing removes this draft and keeps every other key |
| AutoSave.Load | src/app/hooks/useAutoSave.ts:29-32 | loading gives `null` when no text or empty text is stored, otherwise what parsing the text gives |
| AutoSave.ClearThenLoad | src/app/hooks/useAutoSave.ts:25-32 | a cleared draft loads as `null` |
| AutoSave.SaveThenLoad | src/app/hooks/useAutoSave.ts:14-32 | a saved draft loads back as what parsing its text gives |
| AutoSave.DraftsIndependent | src/app/hooks/useAutoSave.ts:14-32 | saving or clearing one draft never changes what another loads |
| FormField.FieldId | src/app/components/forms/FormField.tsx:14 | a non-empty given id is used; otherwise the id is "field-" plus the lower-cased label with white-space runs replaced by `-` |
| FormField.DerivedIdShape | src/app/components/forms/FormField.tsx:14 | a derived id starts with "field-" and holds no white space; a label already lower-case and without spaces is kept as typed |
| FormField.ErrorId | src/app/components/forms/FormField.tsx:15 | the error element's id is the field id followed by exactly "-error" |
| FormField.ErrorIdInjective | src/app/components/forms/FormField.tsx:15 | two fields with different ids never share an error id |
| FormField.Render | src/app/components/forms/FormField.tsx:13-59 | `aria-invalid`, `aria-describedby`, the error icon and the error text appear iff there is an error. The valid icon appears iff the value is non-empty, there is no error and the field is valid, so the two icons never both show. The asterisk shows iff the field is required. |
| FormField.EmptyValueNoValidIcon | src/app/components/forms/FormField.tsx:16-17 | an empty or missing value never shows the valid icon |
| Settings.CheckAvatar | src/app/settings/page.tsx:66-77 | no file does nothing, a file that is not an image is refused first, and a file is uploaded iff it is an image of at most 5 MiB |
| Settings.SizeBoundary | src/app/settings/page.tsx:74 | exactly 5 MiB is uploaded and one byte more is refused |
| Settings.UploadUserId | src/app/settings/page.tsx:89 | the uploaded user id is empty iff nobody is signed in; otherwise it is the decimal text of the user's id, which parses back to that id |
| Settings.AfterUpload | src/app/settings/page.tsx:85-107 | uploading always ends. A success clears the preview and, when an avatar path comes back, changes the session's avatar. A failure keeps session and preview and shows a notice. |
| Settings.UploadedAvatarPersists | src/app/settings/page.tsx:92-99 | an upload keeps memory and storage in agreement |
| Config.Load | src/app/lib/config.ts:4-13 | debug logs are on iff the environment is "development", the error boundary is always on, and the API URL is read as set |
| Config.IsValid | src/app/lib/config.ts:16-31 | valid iff there is no issue; each message appears iff its URL is missing |
| Config.LoadedValidity | src/app/lib/config.ts:8-31 | the loaded site URL is never empty, so a loaded configuration is valid iff the API URL is set and non-empty |
| Config.DebugFlagIgnoresDefault | src/app/lib/config.ts:9-12 | with no environment the mode defaults to "development" yet debug logs stay off |
| Config.EmptySiteUrlDefaults | src/app/lib/config.ts:8 | an empty site URL falls back to the local default |

## Left out

- Network requests, timers and the debounce delay are not modelled as such. A request is an input: the `Outcome` it produced. The debounce is modelled only as which keystrokes end up searching (`ListView.Typed`).
- The API status poller, toast messages and router navigation beyond the returned target path are not modelled. They are display side effects.
- `dateRangeSchema` compares `Date` objects, which the model does not represent.
- The CSV serialisation in the export service is not modelled. The model stops at the rows handed to it.
- The configuration's console logging is left out; it is output only.
- `JSON.parse` accepts layouts other than the one `UserCodec.Encode` writes; those are not modelled. The auto-save hook takes `stringify` and `parse` as parameters.
- The settings page's profile form is left out; it only forwards the form to the back end.
- `useAuth` throwing outside its provider is left out; it is a wiring error, not a state.
- Number formatting of non-integers and the exponent, `Infinity` and hex forms of `parseFloat`/`parseInt` are left out. Only decimal digit prefixes are parsed.
- `toLowerCase` is modelled on ASCII letters only.
- Cart.CalculateTotals: amounts are exact reals, and IEEE-754 double rounding is not modelled. Line totals 0.1 and 0.2 with a discount of 0.3 give a grand total of 0 in the model but about 5.55e-17 in the code, and `vatAmount × 100 = subtotal × VAT%` holds only for the exact values.
- Invoices.Revenue: the same holds for the revenue sum. It is exact here, while the code accumulates doubles.
- Session.Login: the reply's user object is typed. A user object that lacks `id`, `name`, `email` or `role`, or carries them with other types (a string id, say), signs in with `undefined` or differently typed fields in the code; the model cannot represent such a reply.
- Brands.ValidateForm: the 100-character limit counts Unicode scalar values (Dafny characters), while `length` counts UTF-16 code units, so a name of 60 characters outside the Basic Multilingual Plane (120 code units) is refused by the source but accepted by the model.
- Brands.LengthBoundary: the boundary is stated in Unicode scalar values, not UTF-16 code units, for the same reason.
- Schemas.SettingsIssues: zod's `min(2)` counts UTF-16 code units; the model counts characters, so a single astral character (two code units) passes in the source but not in the model.
- Schemas.SettingsNameMinimums: stated in characters, not UTF-16 code units, as above.
- Cart.CartLine, Cart.CartProduct: the ids are integers and the prices reals. The mappers can produce `NaN` for them (`parseInt`/`parseFloat` of bad text), and the batch id is not coerced at all; such values are not modelled in the cart.
- Brands.Saved: the call log records only the first request of the reload (`ListView.ReloadStart`). The follow-up listing a page change causes is stated by `ListView.ReloadAfterMutation`.
- Products.PerRowsChange: modelled, but its contract only restates the two state updates, so it has no row above.
- Cart.UpdateCartItemQuantity, Cart.UpdateCartItemDiscount, Cart.AddToCart: their own ensures only bound the length. What they do is stated by the lemmas listed with them.
- ListView.Typed: its own ensures covers only the empty input. What it schedules is stated by `ListView.TypedTimers`.

## Findings

| source | as written | input that shows it | evidently intended | confidence | as-written member | corrected member |
|---|---|---|---|---|---|---|
| src/app/lib/api.ts:207-208 | a mapper turns a response without `success` or without array `data` into `handleResponse(null, null, message, true)`. With no error this is the unexpected-format envelope, so the message and paginated flag are never read. | `{success: false, message: "No products"}` comes back as `{success: false, message: "Unexpected response format from server"}` without data or pagination | the empty paginated failure carrying the server's message | not executed | Api.MapperFailureDropsMessage | Api.MapperFailureIntended |
| src/app/pos/page.tsx:117 | re-adding a batch skips the increment whenever the stock is truthy and at least the current quantity. When the search result's stock equals the recorded stock, the only other case asks for one more unit than that stock, and the stock check refuses it. (A stale stock that is falsy or below the quantity does increment: `Cart.StaleStockReAddIncrements`.) | a cart holding one unit of a batch with stock 5; adding the same batch again leaves the quantity at 1 | increment when the stock allows one more unit (`quantity + 1 <= productQty`) | not executed | Cart.ReAddNeverIncrements | Cart.ReAddIntendedIncrements |
| src/app/products/page.tsx:232-236 | a search applied from a page other than 1 sets page 1. That gives the listing callback a new identity, so the effect at src/app/products/page.tsx:116-118 lists page 1 and replaces the search results. The customers and brands pages do the same. | on page 3, a search for "tea" that succeeds is followed by a listing of page 1, whose rows replace the search results | the search results stay shown on page 1 | not executed | ListView.SearchFromLaterPageListsAfter | ListView.DispatchIntended |
