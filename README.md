# StoreCrafts admin dashboard, modelled in Dafny

This project models the logic of the StoreCrafts (ACPlus) store administration
dashboard, a Next.js application. It covers:

- the server-side query helpers: the page and page-size clamping, the trimmed filter strings and the skip/take
  pagination query;
- the server actions that list, read, create, update and delete products, categories, coupons, orders, reviews and
  users: how their queries are built, how list responses are normalised, and the `{success, data | error}`
  records that never throw;
- the API client: base URL, endpoint joining, headers and the error thrown for a non-ok response;
- the `apiHandlers` wrappers around confirmations and toasts;
- the client-side data table: its search, paging and page cursor;
- the navigation pieces: breadcrumbs, page titles, the active rules of the two sidebars and the admin layout, and the
  sidebar's expand timer;
- the theme subsystem:
  - the default theme and its CSS variables;
  - the theme service's validation, fetch fallback, local cache and singleton;
  - the theme provider's state machine;
- authentication:
  - the NextAuth `jwt`/`session` callbacks;
  - the token-based auth provider;
  - the role guard and the protected route;
- the forms: login, product, profile and store content, and the coupon and category tables.

Each source file becomes one Dafny module; `json.dfy`, `jstext.dfy`, `uuid.dfy` and `wrappers.dfy` are shared.

- **Pure code** becomes functions with lemmas. This covers query building, label and title lookup, the active rules,
  colour selection, the validation checks and the message priorities.
- **Code that changes state step by step** becomes classes whose methods state their whole new state. This covers:
  - the table cursor and the theme cache;
  - the theme and auth providers;
  - the forms and the tables;
  - the sidebar timer and the mobile drawer.
- **The breadcrumb loop** stays a loop with its invariants.

What lies outside the code is a parameter of the model:

- the network, with each request's outcome passed in;
- `localStorage`, held as a map field;
- the document root, held as a class with a class list and properties;
- `jwtDecode`, the clock, the user's answer to a confirmation and the e-mail check.

JavaScript values that flow through untyped paths are `Json.Json`: null, undefined, booleans, integers, strings,
arrays and objects, with JavaScript truthiness and optional-chaining field access. Strings are `seq<char>`.
`parseInt`, `String(n)`, `trim`, `split`/`join`, `includes` and `encodeURIComponent` are defined in `JsText`
with the properties the rest of the model relies on.

## Model

| member | source | states |
|---|---|---|
| ApiService.BaseUrl | lib/api-service.ts:33-37 | the base URL is the configured one with a single trailing '/' removed, and unchanged when there is none |
| ApiService.BaseUrlDropsOne | lib/api-service.ts:34-35 | only one slash is dropped: a base URL ending in "//" keeps one |
| ApiService.CleanEndpoint | lib/api-service.ts:58 | the endpoint always starts with '/', is kept when it already does and gets one prepended otherwise |
| ApiService.CleanEndpointStable | lib/api-service.ts:58 | cleaning is idempotent, and "/x" and "x" clean to the same endpoint |
| ApiService.RequestUrl | lib/api-service.ts:58-59 | the URL is the base URL followed by the cleaned endpoint, so a '/' always separates them |
| ApiService.Authorization | lib/api-service.ts:53 | the header is "Bearer " plus the access token when it is present and non-empty, and "Bearer " alone otherwise |
| ApiService.MergedHeaders | lib/api-service.ts:52-56 | the caller's headers win key by key; the bearer header and the JSON content type fill in whatever the caller leaves out |
| ApiService.SentHeaders | lib/api-service.ts:63-68 | because `...options` is spread after `headers`, caller headers replace the merged set entirely; without them the merged defaults are sent |
| ApiService.OwnHeadersDropAuthorization | lib/api-service.ts:52-68 | caller headers without Authorization make the request go out without one, although the merged set had it |
| ApiService.FetchApi | lib/api-service.ts:42-76 | the request carries the verb, the URL, the sent headers and the body; a non-ok answer rejects with "API Error <status>: <text>", an ok one resolves to its parsed JSON and rejects when it does not parse |
| ApiService.ApiErrorNamesStatus | lib/api-service.ts:73 | the error message starts with "API Error " followed by the status in decimal |
| ApiService.HttpGet | lib/api-service.ts:81-83 | a GET without a body |
| ApiService.HttpPost | lib/api-service.ts:88-90 | a POST carrying the given body |
| ApiService.HttpPut | lib/api-service.ts:95-97 | a PUT carrying the given body |
| ApiService.HttpDelete | lib/api-service.ts:102-104 | a DELETE without a body |
| ApiService.DefaultRequestHeaders | lib/api-service.ts:52-56 | with no caller options, exactly the bearer header and the JSON content type are sent |
| ApiHandlers.ErrorMessage | lib/apiHandlers.ts:18-30 | the toast message is the error itself when it is a string, else a truthy `response.data.message`, else a truthy `message`, else the default ("An error occurred" when none is given) |
| ApiHandlers.ErrorMessageNeverNullish | lib/apiHandlers.ts:18-29 | the message shown is always a string or a truthy value |
| ApiHandlers.ServerMessageFirst | lib/apiHandlers.ts:23-24 | a non-empty server message wins over the error's own message |
| ApiHandlers.OwnMessageNext | lib/apiHandlers.ts:25-26 | without a server response, a non-empty own message wins over the default |
| ApiHandlers.DefaultMessageLast | lib/apiHandlers.ts:18-19 | a null error shows the default, or "An error occurred" without one |
| ApiHandlers.DeleteWithConfirm | lib/apiHandlers.ts:35-64 | the deletion runs iff the user confirms; the result is true iff confirmed and the deletion resolved; a confirmed run shows "Deleting <item>..." updated to success or error; a refusal shows nothing |
| ApiHandlers.Async | lib/apiHandlers.ts:69-82 | the wrapper resolves to the operation's value when it resolves and to null when it rejects |
| ApiHandlers.Awaited | lib/apiHandlers.ts:44 | an `await` passes exactly when the awaited call resolves |
| ApiHandlers.FormSubmit | lib/apiHandlers.ts:87-112 | the result is true iff the submission resolves, and the loading toast turns into success or error to match |
| ApiHandlers.Fetch | lib/apiHandlers.ts:117-137 | the fetched value when the fetch resolves, null when it rejects, under the loading text "Loading..." by default |
| ApiHandlers.AsyncAgreesWithFetch | lib/apiHandlers.ts:69-137 | `async` and `fetch` settle to the same value for the same call |
| ApiHandlers.BulkAction | lib/apiHandlers.ts:142-178 | the dialog asks "Confirm <action>"; the action runs iff confirmed, the result is true iff confirmed and it resolved, under the loading text "<action>ing items..." |
| ApiHandlers.BulkPromptMentionsAction | lib/apiHandlers.ts:149 | the dialog message starts with "This will " and the action in lower case |
| ApiHandlers.BulkAgreesWithDelete | lib/apiHandlers.ts:35-178 | a bulk action and a deletion give the same result and the same final toast for the same answer and outcome |
| AuthConfig.Debug | auth.config.ts:11 | debug logging is on exactly when NODE_ENV is "development" |
| AuthConfig.JwtToken | auth.config.ts:29-42 | a truthy account token wins; otherwise a signed-in user's token (even an undefined one) replaces the prior value; otherwise the prior value is kept |
| AuthConfig.Jwt | auth.config.ts:26-44 | `jwt` updates the token in place and returns that same token: the email from the user, and the access and id tokens as `JwtToken` picks them |
| AuthConfig.JwtUnchangedWithoutInput | auth.config.ts:26-44 | with no user and no truthy account tokens, the token keeps its email and both tokens |
| AuthConfig.JwtIdempotent | auth.config.ts:29-42 | running `jwt` a second time with the same input changes nothing more |
| AuthConfig.SessionUser | auth.config.ts:52-54 | the session keeps or lacks its user as before; a present user gets a truthy token email, and is otherwise unchanged |
| AuthConfig.SessionCallback | auth.config.ts:45-57 | `session` copies both tokens from the JWT into the session, updates the user's email, and returns the same session |
| AuthConfig.SignInThenSession | auth.config.ts:26-57 | after a sign-in followed by a session read, the session's tokens are the account's truthy tokens, else the user's |
| AuthContext.UserOf | contexts/AuthContext.tsx:34-47 | a token that decodes gives the user with the payload's userId, email, role and storeId; one that does not decode gives null |
| AuthContext.AuthProvider.constructor | contexts/AuthContext.tsx:28-32 | the provider starts loading, with no user and no token |
| AuthContext.AuthProvider.Login | contexts/AuthContext.tsx:49-57 | the token is stored under "authToken" and held, with the user it decodes to (possibly none), and loading ends; storage and state stay in step |
| AuthContext.AuthProvider.Logout | contexts/AuthContext.tsx:59-66 | the stored token is removed and user, token and loading are cleared |
| AuthContext.AuthProvider.RefreshToken | contexts/AuthContext.tsx:68-78 | a held token that has expired (exp * 1000 < now) logs out; a held token that does not decode rejects; otherwise nothing changes |
| AuthContext.AuthProvider.Mount | contexts/AuthContext.tsx:80-96 | a stored token that decodes is restored with its user; one that does not decode is logged out; without one only loading ends |
| AuthContext.LoginThenLogout | contexts/AuthContext.tsx:49-66 | a login followed by a logout leaves no stored token and no session, whatever was there before |
| AuthContext.LoginSurvivesReload | contexts/AuthContext.tsx:49-96 | after a login with a decodable token, a provider mounted on the same storage restores the same user and token |
| AdminLayout.HrefSlashes | components/common/AdminLayout.tsx:22-63 | every navigation href has exactly two slashes, at positions 0 and 6 |
| AdminLayout.HrefsDistinct | components/common/AdminLayout.tsx:22-63 | the eight navigation hrefs are pairwise distinct |
| AdminLayout.AtMostOneActive | components/common/AdminLayout.tsx:96 | since activity is exact equality with the href, at most one item is active for any path |
| AdminLayout.NestedPathActivatesNone | components/common/AdminLayout.tsx:96 | a path below an item's href (such as "/admin/catalog/123") activates no item, not even its parent |
| AdminLayout.Drawer.constructor | components/common/AdminLayout.tsx:71 | the mobile drawer starts closed |
| AdminLayout.Drawer.MenuClicked | components/common/AdminLayout.tsx:121-126 | the menu button opens the drawer and the overlay is shown |
| AdminLayout.Drawer.CloseClicked | components/common/AdminLayout.tsx:85-90 | the close button closes the drawer and hides the overlay |
| AdminLayout.Drawer.OverlayClicked | components/common/AdminLayout.tsx:140-145 | a click on the shown overlay closes the drawer and the overlay with it |
| Breadcrumbs.NonEmpty | components/layout/breadcrumbs.tsx:26 | `filter(Boolean)` keeps exactly the non-empty parts, no new ones |
| Breadcrumbs.Segments | components/layout/breadcrumbs.tsx:26 | every path segment is non-empty and contains no '/' |
| Breadcrumbs.CapitalizeAll | components/layout/breadcrumbs.tsx:55-57 | each word is capitalised, one for one |
| Breadcrumbs.DropTrailingS | components/layout/breadcrumbs.tsx:50 | one trailing 's' is removed when there is one, and the label is kept otherwise |
| Breadcrumbs.KeptIndices | components/layout/breadcrumbs.tsx:37-40 | the crumbs come from the segments other than "dashboard", in increasing position |
| Breadcrumbs.CrumbsAt | components/layout/breadcrumbs.tsx:45-60 | one crumb per kept segment, in order |
| Breadcrumbs.TrailStep | components/layout/breadcrumbs.tsx:31-61 | one loop step appends the segment's crumb, or nothing for "dashboard" |
| Breadcrumbs.PathStep | components/layout/breadcrumbs.tsx:35 | the running path grows by "/" and the segment at every step, "dashboard" included |
| Breadcrumbs.GenerateBreadcrumbs | components/layout/breadcrumbs.tsx:25-64 | the loop builds exactly the trail of the path's segments; it throws when an identifier segment has no parent ("Cannot read properties of undefined") or when its parent's label is a member inherited from `Object.prototype` ("parentLabel.replace is not a function") |
| Breadcrumbs.KeptIndicesComplete | components/layout/breadcrumbs.tsx:37-40 | every segment other than "dashboard" gets a crumb |
| Breadcrumbs.PathOfExtends | components/layout/breadcrumbs.tsx:35 | a later running path strictly extends an earlier one |
| Breadcrumbs.HrefsStrictlyGrow | components/layout/breadcrumbs.tsx:35-59 | each crumb's link is a proper prefix of every later crumb's link |
| Breadcrumbs.SegmentLabelCases | components/layout/breadcrumbs.tsx:45-57 | an identifier segment that does not throw has a string parent label and is labelled "Edit " plus that label in the singular; another segment takes its table label, an inherited key ("constructor", "toString", ...) yields the inherited member rather than a string, and the rest take their title-cased words |
| Breadcrumbs.InheritedNotShadowed | components/layout/breadcrumbs.tsx:13-23 | `routeLabels` is an object literal, so every key inherited from `Object.prototype` is found in it, and no own entry shadows one |
| Breadcrumbs.InheritedParentThrows | components/layout/breadcrumbs.tsx:45-50 | an identifier under an inherited key, as in "/admin/toString/<id>", makes the whole trail throw, with "parentLabel.replace is not a function" unless the first segment is itself an identifier |
| Breadcrumbs.DashboardOnlyHasNoCrumbs | components/layout/breadcrumbs.tsx:71 | a path of only "dashboard" segments has no crumbs, so the "/dashboard" test in the guard only repeats the length test |
| Breadcrumbs.ShowsTrailWithTwoCrumbs | components/layout/breadcrumbs.tsx:71 | the render guard shows a path's trail exactly when that trail has at least two crumbs |
| CatalogActions.ProductQueryOrder | actions/catalog.ts:15-23 | the product query sends page and pageSize first, in decimal, and then its optional keys in the order search, category, status, sort, order |
| CatalogActions.ProductQueryShape | actions/catalog.ts:18-22 | search, category, status, sort and order each appear, with its value, exactly when that value is a non-empty string |
| CatalogActions.CategoryQueryOrder | actions/catalog.ts:44-50 | the category query sends page and pageSize first, in decimal, then search, sort and order in that order |
| CatalogActions.CategoryQueryShape | actions/catalog.ts:47-49 | search, sort and order appear exactly when non-empty; category and status never appear |
| CatalogActions.GetProducts | actions/catalog.ts:11-37 | a GET of the product list with the query (defaults page 1, size 20); a non-nullish body is normalised into the page, and anything else rejects with "Failed to fetch products" |
| CatalogActions.GetCategories | actions/catalog.ts:40-64 | the same for the category list, rejecting with "Failed to fetch categories" |
| CatalogActions.ListDefaults | actions/catalog.ts:12 | without parameters the product list asks for page "1" of size "20", and a resolved page echoes 1 and 20 |
| CatalogActions.ListCategoriesDefaults | actions/catalog.ts:41 | without parameters the category list asks for pages of size "20" |
| CatalogActions.GetProduct | actions/catalog.ts:67-74 | a GET of the product's path; its body, or a rejection with "Failed to fetch product" |
| CatalogActions.CreateCategory | actions/catalog.ts:77-85 | a POST of the payload; a success carrying the body, or a failure carrying `error.message` or "Failed to create category" |
| CatalogActions.UpdateCategory | actions/catalog.ts:88-96 | a PUT of the payload to the category's path for `String(id)`, reported as success or failure ("Failed to update category") |
| CatalogActions.DeleteCategory | actions/catalog.ts:99-107 | a DELETE of the category's path; a success carries null, a failure `error.message` or "Failed to delete category" |
| CatalogActions.CreateProduct | actions/catalog.ts:110-118 | a POST of the product payload, reported as success or failure ("Failed to create product") |
| CatalogActions.UpdateProduct | actions/catalog.ts:121-129 | a PUT of the payload to the product's path for `String(id)`, reported as success or failure ("Failed to update product") |
| CatalogActions.DeleteProduct | actions/catalog.ts:132-140 | a DELETE of the product's path; a success carries null ("Failed to delete product" on failure) |
| CatalogActions.NumericIdsAgree | actions/catalog.ts:123-134 | a numeric id and its decimal text update and delete the same product |
| ServerActions.Setting | actions/catalog.ts:18 | `...(value && { key: value })` adds the key exactly when the value is a non-empty string, with that value |
| ServerActions.Spread | actions/catalog.ts:18-22 | the spread adds no more keys than the optional entries and never an empty value |
| ServerActions.ListQuery | actions/catalog.ts:15-23 | the query starts with page and pageSize in decimal |
| ServerActions.SpreadInOrder | actions/catalog.ts:18-22 | the spread keeps the order of the optional entries |
| ServerActions.SpreadAbsent | actions/catalog.ts:18-22 | a key no optional entry names never appears |
| ServerActions.SpreadLookup | actions/catalog.ts:18-22 | a named key carries its value exactly when that value is a non-empty string |
| ServerActions.LookupPastPagination | actions/catalog.ts:15-23 | past page and pageSize, the list query reads like its optional part |
| ServerActions.ListQueryInOrder | actions/catalog.ts:15-23 | the list query is page, pageSize and then the optional keys in their declared order |
| ServerActions.ListQueryEntry | actions/catalog.ts:18-22 | an optional key is in the list query, with its value, exactly when that value is a non-empty string |
| ServerActions.ListQueryAbsent | actions/catalog.ts:15-23 | a key that is neither page, pageSize nor an optional key is never in the list query |
| ServerActions.Normalised | actions/catalog.ts:27-32 | the rows are `data.data` when truthy and else the body; the total is a truthy `data.total`, else the array length, else 0; page and pageSize are echoed |
| ServerActions.EnvelopeUnwrapped | actions/catalog.ts:28-29 | an envelope `{data, total}` is unwrapped to its rows and total, even when the total is 0 and the rows are empty |
| ServerActions.BareArrayCounted | actions/catalog.ts:28-29 | a bare array is its own page, counted by its length |
| ServerActions.ListOutcome | actions/catalog.ts:14-36 | a list action resolves exactly for a non-nullish body, to its normalised page, and otherwise rejects with the fixed message |
| ServerActions.GetOutcome | actions/catalog.ts:67-74 | a get action resolves to the body or rejects with the fixed message |
| ServerActions.ActionOutcome | actions/catalog.ts:77-85 | a resolved call is a success with the body (null for deletes); a thrown object is a failure with `error.message` or the fallback; only a nullish thrown value escapes |
| ServerActions.ActionsReportFailures | actions/catalog.ts:80-84 | for any non-nullish outcome the action resolves, and a reported failure always carries a truthy message |
| ServerActions.FromClient | lib/api-service.ts:70-75 | the client's value resolves; its error rejects as an `Error` carrying the message |
| ServerActions.ClientErrorReported | actions/catalog.ts:83 | a non-ok response surfaces in the action's failure as the client's "API Error <status>: <text>" message |
| ServerActions.IdString | actions/catalog.ts:90 | `String(id)` is the text itself or the number in decimal |
| ServerActions.IdStringAgrees | actions/catalog.ts:90 | a numeric id and its decimal text give the same path |
| CategoriesTable.EditForm | components/admin/CategoriesDataTable.tsx:56-59 | the edit form takes the category's name, and its description or "" when it has none |
| CategoriesTable.FormJson | components/admin/CategoriesDataTable.tsx:72 | the form is sent as an object with exactly the keys name and description, holding the form's texts |
| CategoriesTable.RefusedDeletionPasses | components/admin/CategoriesDataTable.tsx:101-103 | a deletion the server refuses is still reported as a (failed) result, so the awaited deletion passes |
| CategoriesTable.CategoriesDataTable.constructor | components/admin/CategoriesDataTable.tsx:29-36 | both modals start closed, with no selection and an empty form |
| CategoriesTable.CategoriesDataTable.HandleAddCategory | components/admin/CategoriesDataTable.tsx:48-52 | no selection, an empty form and the form modal open; nothing else changes |
| CategoriesTable.CategoriesDataTable.HandleEditCategory | components/admin/CategoriesDataTable.tsx:54-61 | the category selected, the form filled from it and the form modal open |
| CategoriesTable.CategoriesDataTable.HandleDeleteCategory | components/admin/CategoriesDataTable.tsx:63-66 | the category selected and the delete modal open; the form is untouched |
| CategoriesTable.CategoriesDataTable.SendForm | components/admin/CategoriesDataTable.tsx:70-85 | one action call: a PUT of the form to the selected category's path, or a POST of it without a selection |
| CategoriesTable.CategoriesDataTable.HandleSaveCategory | components/admin/CategoriesDataTable.tsx:68-96 | the update or create call is made, the parent refreshes when it can, and the modal closes whatever the server said; only a rejected refresh keeps it open |
| CategoriesTable.CategoriesDataTable.HandleConfirmDelete | components/admin/CategoriesDataTable.tsx:98-113 | without a selection nothing happens; otherwise the DELETE is sent only if confirmed, the parent refreshes only after a confirmed deletion that resolved, and the delete modal always closes |
| CouponsTable.DiscountLabel | components/admin/CouponsDataTable.tsx:60-61 | a percentage shows its value followed by "%", a fixed discount "$" followed by its value |
| CouponsTable.DiscountLabelReadBack | components/admin/CouponsDataTable.tsx:60-61 | the label gives back the type (from "%" or "$") and the value (by parsing its digits) |
| CouponsTable.OptionalNumberText | components/admin/CouponsDataTable.tsx:110-112 | `String(n \|\| '')` is "" exactly for a missing or zero number, and otherwise parses back to the number |
| CouponsTable.EditForm | components/admin/CouponsDataTable.tsx:103-115 | the edit form keeps the code and type, writes the value in decimal, and shows missing optional fields (and zero numbers) as "" |
| CouponsTable.FormJson | components/admin/CouponsDataTable.tsx:125-131 | the payload has exactly the seven form keys, each holding its form text as typed, and the discount type by its name |
| CouponsTable.RefusedDeletionPasses | components/admin/CouponsDataTable.tsx:152-154 | a deletion the server refuses still resolves as a failed result, so the awaited deletion passes |
| CouponsTable.CouponsDataTable.constructor | components/admin/CouponsDataTable.tsx:29-42 | both modals closed, no selection and the empty percentage form |
| CouponsTable.CouponsDataTable.HandleAdd | components/admin/CouponsDataTable.tsx:89-101 | no selection, the empty percentage form and the form modal open |
| CouponsTable.CouponsDataTable.HandleEdit | components/admin/CouponsDataTable.tsx:103-115 | the coupon selected, the form filled from it and the form modal open |
| CouponsTable.CouponsDataTable.HandleDelete | components/admin/CouponsDataTable.tsx:117-120 | the coupon selected and the delete modal open; the form is untouched |
| CouponsTable.CouponsDataTable.SendForm | components/admin/CouponsDataTable.tsx:124-136 | one action call: a PUT of the form to the selected coupon's path, or a POST of it without a selection |
| CouponsTable.CouponsDataTable.HandleSave | components/admin/CouponsDataTable.tsx:122-147 | the update or create call is made, the parent refreshes when it can, and the modal closes whatever the server said; only a rejected refresh keeps it open |
| CouponsTable.CouponsDataTable.HandleConfirmDelete | components/admin/CouponsDataTable.tsx:149-164 | without a selection nothing happens; otherwise the DELETE is sent only if confirmed (asked by the coupon's code), the parent refreshes only after a confirmed deletion that resolved, and the delete modal always closes |
| CouponActions.CouponQueryOrder | actions/coupons.ts:15-22 | the coupon query sends page and pageSize first, in decimal, then search, status, sort and order in that order |
| CouponActions.CouponQueryShape | actions/coupons.ts:18-21 | search, status, sort and order each appear, with its value, exactly when non-empty |
| CouponActions.ListCoupons | actions/coupons.ts:11-36 | a GET of the coupon list with the query; the normalised page of a non-nullish body, or a rejection with "Failed to fetch coupons" |
| CouponActions.ListCouponsDefaults | actions/coupons.ts:12 | without parameters page "1" of size "20" is requested, and a resolved page echoes 1 and 20 |
| CouponActions.GetCoupon | actions/coupons.ts:39-46 | a GET of the coupon's update path; its body, or a rejection with "Failed to fetch coupon" |
| CouponActions.CreateCoupon | actions/coupons.ts:49-57 | a POST of the payload, reported as success with the body or failure ("Failed to create coupon") |
| CouponActions.UpdateCoupon | actions/coupons.ts:60-68 | a PUT of the payload to the coupon's path, reported as success or failure ("Failed to update coupon") |
| CouponActions.DeleteCoupon | actions/coupons.ts:71-79 | a DELETE of the coupon's path; a success carries null ("Failed to delete coupon" on failure) |
| CouponActions.GetReadsUpdateEndpoint | actions/coupons.ts:41 | fetching one coupon reads the endpoint an update writes to, not the item GET endpoint |
| DataTable.FilterRows | components/common/DataTable.tsx:58-62 | the filter keeps only input rows that match the query on some searchable field (case-insensitively) and never adds rows |
| DataTable.FilteredData | components/common/DataTable.tsx:56-63 | an empty query shows every row; otherwise only matching input rows |
| DataTable.FilterAppend | components/common/DataTable.tsx:58-62 | filtering a concatenation filters each part in turn, so the input order is kept |
| DataTable.FilterKeepsMatches | components/common/DataTable.tsx:58-62 | every matching input row survives the filter |
| DataTable.FilteredIff | components/common/DataTable.tsx:56-63 | for a non-empty query, a row is shown exactly when it is an input row that matches |
| DataTable.NoFieldsNoRows | components/common/DataTable.tsx:48-62 | with a non-empty query and the default empty list of searchable fields, nothing is shown |
| DataTable.Slice | components/common/DataTable.tsx:67 | `slice` takes the given range within bounds, and clamps an end past the sequence |
| DataTable.TotalPagesIsCeiling | components/common/DataTable.tsx:70 | the page count is the least number of whole pages that holds every row |
| DataTable.PageSliceShape | components/common/DataTable.tsx:65-68 | page p holds the pageSize rows from (p - 1) * pageSize, fewer at the end, and none past it |
| DataTable.PagesArePrefix | components/common/DataTable.tsx:65-70 | the first n pages hold exactly the first n * pageSize rows, in order |
| DataTable.PagesCoverRows | components/common/DataTable.tsx:65-70 | pages 1 to totalPages laid end to end give back every filtered row once, in order |
| DataTable.PagerVisibility | components/common/DataTable.tsx:152 | the pager shows exactly when the rows overflow one page |
| DataTable.EmptyRowSpan | components/common/DataTable.tsx:141 | the empty-state cell spans every column, plus one for the actions column |
| DataTable.Table.constructor | components/common/DataTable.tsx:53-54 | the table starts on page 1 with an empty query |
| DataTable.Table.HandleSearch | components/common/DataTable.tsx:72-76 | a search stores the query and goes back to page 1; the props are unchanged |
| DataTable.Table.PreviousPage | components/common/DataTable.tsx:161 | the previous page never goes below 1 and otherwise moves back by one |
| DataTable.Table.NextPage | components/common/DataTable.tsx:169 | the next page never passes totalPages and otherwise moves on by one |
| DataTable.SearchShowsFirstPage | components/common/DataTable.tsx:72-76 | after a search the table shows the first pageSize rows of the new filter |
| DefaultTheme.DefaultThemeComplete | lib/defaultTheme.ts:8-104 | the default theme defines every palette key and no other, and is in light mode |
| DefaultTheme.GetColorForMode | lib/defaultTheme.ts:109-114 | the dark colour in dark mode, the light colour otherwise |
| DefaultTheme.CssVarNameInjective | lib/defaultTheme.ts:126 | different palette keys get different "--color-" property names |
| DefaultTheme.CssVarNameKey | lib/defaultTheme.ts:126 | a property name reads back as its palette key after the 8-character prefix |
| DefaultTheme.CssNamesKey | lib/defaultTheme.ts:124-127 | every property name of a set of keys names one of those keys |
| DefaultTheme.VarsForStep | lib/defaultTheme.ts:124-127 | one more palette entry adds exactly its property, holding the colour for the theme's mode |
| DefaultTheme.CssVariablesSpec | lib/defaultTheme.ts:119-130 | there is a "--color-<key>" property exactly for each palette key, holding the dark colour only when isDarkMode is true (missing means light), and no other property |
| DefaultTheme.CreateCSSVariables | lib/defaultTheme.ts:119-130 | the loop over the palette builds exactly the theme's CSS variables |
| DefaultTheme.RestrictStep | lib/defaultTheme.ts:139-141 | setting one more entry extends what has been set by exactly that key |
| DefaultTheme.RestrictAll | lib/defaultTheme.ts:139-141 | setting every entry sets the whole map |
| DefaultTheme.DocumentRoot.SetProperties | lib/defaultTheme.ts:139-141 | the loop sets every given property on the root's style, overriding earlier values, and leaves the class list alone |
| DefaultTheme.DocumentRoot.ApplyThemeToDocument | lib/defaultTheme.ts:135-149 | the theme's CSS variables are set on the root, and the "dark" class is added in dark mode and removed otherwise |
| DefaultTheme.IsValidThemeAsWritten | lib/defaultTheme.ts:154-162 | the check as written throws exactly for null, since `typeof null` is "object" |
| DefaultTheme.IsValidThemeThrowsOnNull | lib/defaultTheme.ts:156-157 | for null the written check throws where the intended one answers false |
| DefaultTheme.IsValidThemeAgreesElsewhere | lib/defaultTheme.ts:154-162 | on every value other than null the written check and the intended one agree |
| DefaultTheme.ShapeIsEnough | lib/defaultTheme.ts:154-162 | a value with a theme's shape passes the check, whatever its palette holds |
| DesignSystem.TokensTight | lib/design-system.ts:28-44 | every button style token starts and ends with a class-name character, never a space |
| DesignSystem.ButtonTokensTight | lib/design-system.ts:65-66 | the tokens of each variant are free of spaces at their ends |
| DesignSystem.ButtonClassesShape | lib/design-system.ts:65-69 | the button classes are base, hover and focus joined by single spaces, plus the disabled classes for the primary variant only, with no trailing space left by the trim; primary by default |
| DesignSystem.OnlyPrimaryHasDisabled | lib/design-system.ts:29-44 | exactly the primary variant carries disabled classes |
| DesignSystem.DropdownItemClasses | lib/design-system.ts:71-74 | the item base followed by the active classes when active, and by the hover classes otherwise (inactive by default) |
| DesignSystem.InputClasses | lib/design-system.ts:76-79 | the input base followed by the error classes on an error, and by the focus classes otherwise |
| DesignSystem.HelpersKeepBase | lib/design-system.ts:71-79 | both helpers always begin with their base classes and a space |
| FluidSidebar.ActiveFlags | components/layout/fluid-sidebar.tsx:105-109 | one active flag per route, in table order, by the same rule as the collapsible sidebar |
| FluidSidebar.SameRoutesAsSidebar | components/layout/fluid-sidebar.tsx:25-66 | this sidebar's route table is the collapsible sidebar's, entry for entry |
| FluidSidebar.ActiveFlagsRule | components/layout/fluid-sidebar.tsx:107-109 | "/dashboard" is active only on an exact match, every other route on a prefix match, and at most one route is active |
| FluidSidebar.WidgetFallbacks | components/layout/fluid-sidebar.tsx:85-92 | a session without a name shows "User" with the letter "U"; a named one shows its name and first letter |
| Header.GetPageTitle | components/layout/header.tsx:41-57 | the title is always one of the table's titles, the three edit titles or "Dashboard" |
| Header.LookupInTable | components/layout/header.tsx:43-44 | a title found for a path is the table's entry for that path |
| Header.LookupLongKey | components/layout/header.tsx:20-38 | a path longer than every table key has no entry |
| Header.ExactMatchWins | components/layout/header.tsx:43-45 | an exact table entry wins over every other rule |
| Header.FallbackRules | components/layout/header.tsx:47-56 | without an entry, a path holding an identifier is titled by the first of "/users/", "/corporate-parents/", "/therapy-facility/" it contains; a path holding an identifier but none of the three, and every path without an identifier, is titled "Dashboard" |
| Header.CatalogEditSlashes | components/layout/header.tsx:48-52 | in "/admin/catalog/<id>" the only slashes are the three of the prefix |
| Header.CatalogEditHasNoMarker | components/layout/header.tsx:50-52 | "/admin/catalog/<id>" contains none of the three edit markers |
| Header.CatalogEditIsDashboard | components/layout/header.tsx:41-57 | the product edit page "/admin/catalog/<id>" is titled "Dashboard" |
| Uuid.ContainsUuidIff | components/layout/header.tsx:48-49 | the unanchored pattern matches exactly when some 36-character window of the path is an identifier |
| Uuid.UuidIsContained | components/layout/breadcrumbs.tsx:43 | a segment the anchored pattern accepts also satisfies the unanchored one |
| Uuid.UuidHasNoSlash | components/layout/breadcrumbs.tsx:43 | an identifier contains no '/', so it is always one whole path segment |
| ServerOnly.ServerOnlyGuard | lib/server-only.ts:5-12 | the guard throws exactly when a browser `window` exists |
| ServerOnly.ParamOr | lib/server-only.ts:19-25 | a missing parameter reads as the fallback, a present one as its text (a repeated key joined by commas) |
| ServerOnly.MaxNum | lib/server-only.ts:19-20 | `Math.max(lo, x)` is NaN exactly for NaN, and otherwise at least lo and either lo or x |
| ServerOnly.MinNum | lib/server-only.ts:20 | `Math.min(hi, x)` is NaN exactly for NaN, and otherwise at most hi and either hi or x |
| ServerOnly.PageParam | lib/server-only.ts:19 | a numeric page is at least 1 |
| ServerOnly.PageSizeParam | lib/server-only.ts:20 | a numeric page size lies between 1 and 100 |
| ServerOnly.ParseSearchParams | lib/server-only.ts:18-36 | the parsed page is at least 1 and the page size between 1 and 100 whenever they are numbers |
| ServerOnly.MissingPageDefaults | lib/server-only.ts:19-20 | a missing page is 1 and a missing page size is 10 |
| ServerOnly.PageClamping | lib/server-only.ts:19-20 | page and page size are parseInt of the parameter clamped to at least 1 (and the size to at most 100); an unparsable one stays NaN |
| ServerOnly.ParsedStringsTrimmed | lib/server-only.ts:21-25 | search, sort, status and category are already trimmed, so trimming again changes nothing |
| ServerOnly.SkipFor | lib/server-only.ts:46 | skip is (page - 1) * pageSize, never negative for pages and sizes of at least 1, and NaN when either is |
| ServerOnly.GetPaginationQuery | lib/server-only.ts:42-51 | take is the page size, page and pageSize are echoed, and skip counts the whole pages before the requested one (never negative) |
| ServerOnly.OrUndefined | lib/server-only.ts:60 | an empty string becomes absent and any other is kept |
| ServerOnly.SortOrDefault | lib/server-only.ts:63 | an empty sort becomes "createdAt" and any other is kept |
| ServerOnly.ParseProductFilters | lib/server-only.ts:56-66 | the category id is absent exactly for an empty category, and otherwise is its parseInt |
| ServerOnly.ParseStatusFilters | lib/server-only.ts:71-121 | the filter record of the order, coupon and user parsers: search and status are absent when empty and kept otherwise, the sort defaults to "createdAt", and the order passes through |
| ServerOnly.ParseOrderFilters | lib/server-only.ts:71-80 | search and status are absent when empty and kept otherwise, the sort defaults to "createdAt", and the order passes through |
| ServerOnly.ParseCouponFilters | lib/server-only.ts:85-94 | search and status are absent when empty and kept otherwise, the sort defaults to "createdAt", and the order passes through |
| ServerOnly.ParseReviewFilters | lib/server-only.ts:99-107 | search is absent when empty and kept otherwise, the sort defaults to "createdAt", and the order passes through |
| ServerOnly.ParseUserFilters | lib/server-only.ts:112-121 | search and status are absent when empty and kept otherwise, the sort defaults to "createdAt", and the order passes through |
| ServerOnly.EntityFilterDefaults | lib/server-only.ts:56-121 | every entity parser maps an empty search or status to absent and keeps a non-empty one, defaults an empty sort to "createdAt", and passes order through |
| ThemeTypes.FromJson | types/theme.ts:52-61 | a JSON value reads as a theme only when it has string id and name and a colours object, keeping exactly its colour keys; `isDarkMode` and `isDefault` are on exactly when present and truthy, as the theme code tests them |
| ThemeTypes.ColorFromToJson | types/theme.ts:9-12 | a colour read back from its `{light, dark}` JSON form is the same colour |
| ThemeTypes.FromToJson | lib/themeService.ts:100-117 | a theme stored with `JSON.stringify` and read back with `JSON.parse` is the same theme, optional fields included |
| ThemeApi.ApiBaseUrl | lib/api-endpoints.ts:2 | the configured URL when it is non-empty, else "http://localhost:3001/api" |
| ThemeApi.ValidIffComplete | lib/themeService.ts:176-193 | the strict check accepts a theme's JSON form exactly when its palette has all 19 keys |
| ThemeApi.StrictImpliesLenient | lib/themeService.ts:176-193 | whatever the service's check accepts, the default-theme check accepts too; a theme with an empty palette separates them |
| ThemeApi.AcceptedTheme | lib/themeService.ts:74-75 | a value taken as a theme passes the strict check and has a complete palette |
| ThemeApi.ThemeEndpoint | lib/themeService.ts:45-50 | the endpoint gets "?store_id=" and the URL-encoded id exactly when the store id is non-empty |
| ThemeApi.EndpointQueryIff | lib/themeService.ts:48-50 | over a base URL without a query, the endpoint has a query exactly when the store id is non-empty, and the encoded id cannot add a second parameter |
| ThemeApi.FetchNeverFails | lib/themeService.ts:38-92 | `fetchTheme` always yields a theme with a complete palette; a failed request, a non-ok status or an unreadable body gives the default theme, and any other result was served with a truthy success and passed the check |
| ThemeApi.FetchReturnsServedTheme | lib/themeService.ts:72-76 | a served theme with a complete palette, under a truthy success, is exactly what the fetch returns |
| ThemeApi.UpdateResult | lib/themeService.ts:143-171 | the update resolves to false on a failed request, a non-ok status or an unreadable body, and otherwise to the body's `success` |
| ThemeApi.ThemeService.constructor | lib/themeService.ts:15-23 | the service keeps its base URL and the browser storage |
| ThemeApi.ThemeService.FetchUrl | lib/themeService.ts:39-50 | a non-empty explicit store id is used, else a non-empty stored one, else no query at all |
| ThemeApi.ThemeService.UpdateTheme | lib/themeService.ts:143-171 | the update PUTs the theme's JSON form to the endpoint for the stored store id, and resolves as `UpdateResult` says |
| ThemeApi.ThemeService.GetCachedTheme | lib/themeService.ts:110-125 | a cached theme is only returned when the stored text parses and passes the strict check |
| ThemeApi.ThemeService.CacheTheme | lib/themeService.ts:97-105 | the theme's JSON form is stored under "theme:config", and reading the cache back gives that theme when its palette is complete |
| ThemeApi.ThemeService.ClearCache | lib/themeService.ts:130-138 | the cache key is removed, and nothing is cached afterwards |
| ThemeApi.Registry.GetInstance | lib/themeService.ts:28-33 | the first call creates the shared instance with the given URL or else `API_BASE_URL`; every later call returns that same instance and ignores its arguments |
| ThemeContext.Overlay | contexts/ThemeContext.tsx:126-129 | each of the nine fields is the update's value when the update carries it, and the theme's own value otherwise |
| ThemeContext.OverlayNothing | contexts/ThemeContext.tsx:126-129 | an empty update changes nothing |
| ThemeContext.OverlayIdempotent | contexts/ThemeContext.tsx:126-129 | applying the same update twice is applying it once |
| ThemeContext.OverlayKeepsPalette | contexts/ThemeContext.tsx:126-129 | an update that leaves the palette alone keeps a complete palette complete |
| ThemeContext.CssVariableRef | contexts/ThemeContext.tsx:156-158 | `getCSSVariable` refers to exactly the property the palette key is published under |
| ThemeContext.UseDark | contexts/ThemeContext.tsx:147 | a forced mode wins; otherwise the dark value is read only when the theme's flag is true |
| ThemeContext.ColorOf | contexts/ThemeContext.tsx:137-151 | "" without a theme or for a missing key; otherwise the key's dark or light value as `UseDark` decides |
| ThemeContext.ColorMatchesCssVariable | contexts/ThemeContext.tsx:137-158 | without a forced mode, `getColor` gives the value the key's custom property holds |
| ThemeContext.ThemeProvider.constructor | contexts/ThemeContext.tsx:41-49 | the provider shows the fallback theme, with no error, loading exactly when it will fetch on mount |
| ThemeContext.ThemeProvider.ApplyTheme | contexts/ThemeContext.tsx:54-63 | the theme's variables are published on the document root, the "dark" class follows its flag, the theme becomes current and the error is cleared |
| ThemeContext.ThemeProvider.SetTheme | contexts/ThemeContext.tsx:115-118 | the theme is applied and cached, and the cache then reads back as that theme when its palette is complete; the theme's variables are added to the root's style and the "dark" class is added when its flag is true and removed otherwise |
| ThemeContext.ThemeProvider.UpdateTheme | contexts/ThemeContext.tsx:123-132 | without a current theme nothing changes, on the page or in the cache; otherwise the overlaid theme becomes current and is cached, its variables are added to the root's style, and the "dark" class follows its flag |
| ThemeContext.ThemeProvider.GetColor | contexts/ThemeContext.tsx:137-151 | "" without a theme; without a forced mode, the value of the key's custom property |
| ThemeContext.ThemeProvider.ResetTheme | contexts/ThemeContext.tsx:163-166 | the fallback theme is applied and the cache is cleared; the theme's variables are added to the root's style and the "dark" class is added when the fallback's flag is true and removed otherwise |
| ThemeContext.ThemeProvider.RefreshTheme | contexts/ThemeContext.tsx:68-110 | a cached theme without forceRefresh is applied and nothing is requested; otherwise the theme URL is fetched and the resulting theme cached and applied; either way the current theme is the cached one, its variables are on the root and the "dark" class follows its flag, the error is cleared and loading ends |
| ThemeContext.ThemeProvider.ApplyCached | contexts/ThemeContext.tsx:75-79 | the cached theme is applied and the cache stays as it is; the theme's variables are added to the root's style and the "dark" class is added when its flag is true and removed otherwise |
| ThemeContext.ThemeProvider.FetchAndApply | contexts/ThemeContext.tsx:83-92 | the fetch URL is requested with the provider's store id, and the fetched theme is cached and applied; the theme's variables are added to the root's style and the "dark" class is added when its flag is true and removed otherwise |
| ThemeContext.ThemeProvider.Mount | contexts/ThemeContext.tsx:171-175 | without fetching on mount or once loading is over nothing changes; otherwise it is `refreshTheme` without forceRefresh: a cached theme is applied with no request, else the theme URL is fetched and the fetched theme cached; either way the theme's variables are on the root, the "dark" class follows its flag, the error is cleared and loading ends |
| LoginForm.Validate | components/auth/login-form.tsx:36-40 | the values pass exactly when the e-mail is an address, the password is non-empty and the switch is a boolean, and each failed rule contributes its own issue |
| LoginForm.Credentials | components/auth/login-form.tsx:64-71 | the body posted to the login route holds exactly the e-mail and the password |
| LoginForm.ResponseData | components/auth/login-form.tsx:73 | the parsed body, or an empty object when the body is not JSON |
| LoginForm.RefusalMessage | components/auth/login-form.tsx:75-79 | a refused login reports the truthy `message`, else the truthy `error`, else the fixed invalid-credentials text; never a falsy value |
| LoginForm.CrashMessage | components/auth/login-form.tsx:102-104 | a thrown error reports its truthy `message`, else the fixed unexpected-error text |
| LoginForm.TokenCandidates | components/auth/login-form.tsx:85-91 | the six places a token is looked for |
| LoginForm.FirstTruthySpec | components/auth/login-form.tsx:85-91 | a chain of `\|\|` is truthy exactly when one of its values is, then it is the first truthy value, and otherwise it is the last value |
| LoginForm.FirstTruthyPicks | components/auth/login-form.tsx:85-91 | the first truthy value wins whatever follows it |
| LoginForm.TokenBeforeAccessToken | components/auth/login-form.tsx:86-87 | `token` takes priority over `accessToken` |
| LoginForm.TopLevelBeforeNested | components/auth/login-form.tsx:87-91 | any top-level token name takes priority over the nested `data.token` |
| LoginForm.NestedTokenLast | components/auth/login-form.tsx:86-91 | the nested `data.token` is used when the top-level names are empty |
| LoginForm.SubmitNotice | components/auth/login-form.tsx:75-106 | a submission ends with exactly one toast, a success exactly when the route accepted, carrying the crash message, the refusal message or the success text |
| LoginForm.SessionToken | components/auth/login-form.tsx:85-97 | a session is opened exactly when the route accepted and the body carries a truthy token, and with that token |
| LoginForm.LoginPage.constructor | components/auth/login-form.tsx:43-57 | a fresh form: not loading, no error, nothing posted, shown or navigated |
| LoginForm.LoginPage.HandleSubmit | components/auth/login-form.tsx:141 | values that fail the schema show their issues and change nothing else; values that pass are submitted as by `onSubmit`: posted once, one toast for the outcome, the error cleared only on acceptance, the dashboard opened only on acceptance, the session logged in only when a token came back, and loading ends |
| LoginForm.LoginPage.Refuse | components/auth/login-form.tsx:80-81 | the message becomes the error and is shown as an error toast |
| LoginForm.LoginPage.Accept | components/auth/login-form.tsx:93-101 | a truthy token logs the session in and is stored; either way the success toast is shown and the dashboard is opened |
| LoginForm.LoginPage.OnSubmit | components/auth/login-form.tsx:59-110 | the credentials are posted once, exactly one toast is shown, the error is cleared only on acceptance, the dashboard is opened only on acceptance, the session changes only when a token came back, and loading always ends |
| ProductForm.NumberText | components/catalog/ProductForm.tsx:34-38 | an absent number gives "" and a present one its decimal text |
| ProductForm.InitialForm | components/catalog/ProductForm.tsx:31-40 | the form holds the eight fields; adding starts empty with status "active"; editing starts from the product's own values, with "active" standing in for an empty status |
| ProductForm.Check | components/catalog/ProductForm.tsx:51-68 | the form passes exactly when the trimmed name, the price and the category are all non-empty; otherwise the message of the first check that fails, in the order name, price, category |
| ProductForm.OrZero | components/catalog/ProductForm.tsx:74 | `\|\| 0` always gives a number, and keeps any number that is not zero |
| ProductForm.Stock | components/catalog/ProductForm.tsx:78 | an empty stock counts as 0; otherwise the stock text is parsed in base 10 |
| ProductForm.Payload | components/catalog/ProductForm.tsx:71-80 | the payload has exactly the keys name, description, price, sku, stock and status, plus originalPrice and categoryId when their fields are non-empty; the texts are sent as typed, the price is parseFloat or 0, the stock is parseInt in decimal, and the original price is parseFloat with no fallback, so an unparsable one is sent as null |
| ProductForm.StockRoundTrip | components/catalog/ProductForm.tsx:38-78 | the stock's own text parses back to the stock |
| ProductForm.EditedProductRoundTrip | components/catalog/ProductForm.tsx:31-80 | submitting an edited product unchanged sends back its own name and stock, and an original price exactly when it had one |
| ProductForm.ProductEditor.constructor | components/catalog/ProductForm.tsx:26-41 | the form starts as the initial form of the given product, not loading, with nothing shown, navigated or sent |
| ProductForm.ProductEditor.HandleChange | components/catalog/ProductForm.tsx:43-45 | only the named field changes |
| ProductForm.ProductEditor.HandleSubmit | components/catalog/ProductForm.tsx:47-110 | a form that fails a check only shows that check's message; one that passes makes the update (editing) or create (adding) call once and reports its outcome; loading always ends and the form is kept |
| ProductForm.ProductEditor.Report | components/catalog/ProductForm.tsx:82-105 | a success shows the saved text and opens the catalogue; a reported failure shows its error or the fixed failure text; a rejection shows the fixed error text |
| ProductForm.BlankNameNotSent | components/catalog/ProductForm.tsx:52-56 | a new product whose name is blank is never sent, whatever the server would have said |
| ProfileForm.InitialProfile | components/profile/ProfileForm.tsx:26-34 | the profile has exactly the seven fields; each takes the initial data's non-empty value, or its fixed default |
| ProfileForm.InitialProfileFilled | components/profile/ProfileForm.tsx:26-34 | every field of the initial profile is non-empty, whatever the initial data |
| ProfileForm.InitialProfileExtremes | components/profile/ProfileForm.tsx:26-34 | fully filled initial data is taken as it is; no initial data gives exactly the defaults |
| ProfileForm.ProfileEditor.constructor | components/profile/ProfileForm.tsx:24-40 | the initial profile, an empty password form, not loading, no toasts |
| ProfileForm.ProfileEditor.HandleChange | components/profile/ProfileForm.tsx:42-44 | only the named profile field changes |
| ProfileForm.ProfileEditor.HandlePasswordChange | components/profile/ProfileForm.tsx:46-48 | only the named password field changes |
| ProfileForm.ProfileEditor.HandleSaveProfile | components/profile/ProfileForm.tsx:50-61 | the success toast is shown, the profile is kept and loading ends |
| ProfileForm.ProfileEditor.HandleChangePassword | components/profile/ProfileForm.tsx:63-80 | a new password that differs from its confirmation is reported and nothing else changes; otherwise the password form is cleared, the success toast shown and loading ends |
| StoreContentForm.WithoutLink | components/store-content/StoreContentForm.tsx:110 | the links left are exactly the given links whose id differs, and never more of them |
| StoreContentForm.WithoutLinkSplits | components/store-content/StoreContentForm.tsx:110 | filtering distributes over concatenation, so the links that stay keep their order |
| StoreContentForm.WithoutAbsentLink | components/store-content/StoreContentForm.tsx:110 | removing an id no link has changes nothing |
| StoreContentForm.WithoutLinkIdempotent | components/store-content/StoreContentForm.tsx:110 | removing an id twice is removing it once |
| StoreContentForm.ListedBanners | components/store-content/StoreContentForm.tsx:36-39 | a list call yields banners exactly when it resolves to an array, and then that array |
| StoreContentForm.FailureMessage | components/store-content/StoreContentForm.tsx:68-93 | the truthy `error` of a resolved body, else the fixed failure text |
| StoreContentForm.StoreContentEditor.constructor | components/store-content/StoreContentForm.tsx:18-31 | the given banners and footer links, or none; the banner form empty and closed; not loading |
| StoreContentForm.WithBannerField | components/store-content/StoreContentForm.tsx:148-178 | typing into one input of the banner form sets that input and keeps the other two |
| StoreContentForm.StoreContentEditor.OpenBannerForm | components/store-content/StoreContentForm.tsx:130 | the "Add Banner" button shows the form and changes nothing else |
| StoreContentForm.StoreContentEditor.SetBannerField | components/store-content/StoreContentForm.tsx:148-178 | an input change replaces that input of the form and changes nothing else |
| StoreContentForm.StoreContentEditor.CancelBannerForm | components/store-content/StoreContentForm.tsx:185 | "Cancel" hides the form, keeps what it holds, and changes nothing else |
| StoreContentForm.StoreContentEditor.Reload | components/store-content/StoreContentForm.tsx:61-64 | the banners are listed once more and only an array replaces them |
| StoreContentForm.StoreContentEditor.Mount | components/store-content/StoreContentForm.tsx:33-48 | only an empty banner list is loaded on mount, and only an array replaces it |
| StoreContentForm.StoreContentEditor.Settle | components/store-content/StoreContentForm.tsx:59-72 | a successful call shows the success toast and reloads the list (a failed reload adds the failure toast); otherwise the reported or fixed failure is shown and nothing is reloaded |
| StoreContentForm.StoreContentEditor.HandleAddBanner | components/store-content/StoreContentForm.tsx:50-76 | a form without a title or image is refused with a toast and nothing is sent; otherwise the banner is created, the list reloaded on success, and the form closed and cleared only when the reload also succeeds; loading ends |
| StoreContentForm.StoreContentEditor.HandleDeleteBanner | components/store-content/StoreContentForm.tsx:78-101 | without confirmation nothing happens; otherwise the banner is deleted, the list reloaded on success, the outcome shown, and loading ends |
| StoreContentForm.StoreContentEditor.HandleAddFooterLink | components/store-content/StoreContentForm.tsx:103-106 | only the "Coming soon" notice is shown |
| StoreContentForm.StoreContentEditor.HandleDeleteFooterLink | components/store-content/StoreContentForm.tsx:108-111 | the links with that id are removed and the rest keep their order |
| ReviewActions.RatingText | actions/reviews.ts:20 | a rating is sent exactly when present and non-zero, and then as its non-empty decimal text |
| ReviewActions.ReviewQueryOrder | actions/reviews.ts:15-23 | the review query sends page and pageSize first, in decimal, then search, status, rating, sort and order in that order |
| ReviewActions.ReviewQueryShape | actions/reviews.ts:18-22 | search, status, sort and order each appear exactly when non-empty; the rating, in decimal, exactly when non-zero |
| ReviewActions.ZeroRatingOmitted | actions/reviews.ts:20 | a rating of 0 gives the same query as no rating |
| ReviewActions.ListReviews | actions/reviews.ts:11-37 | a GET of the review list with the query (page 1 of 20 without parameters); the normalised page, or a rejection with "Failed to fetch reviews" |
| ReviewActions.GetReview | actions/reviews.ts:40-47 | a GET of the review's path; its body, or a rejection with "Failed to fetch review" |
| ReviewActions.UpdateReview | actions/reviews.ts:50-58 | a PUT of the payload to the review's path, reported as success with the body or failure ("Failed to update review") |
| ReviewActions.DeleteReview | actions/reviews.ts:61-69 | a DELETE of the review's path; a success carries null ("Failed to delete review" on failure) |
| OrderActions.OrderQueryOrder | actions/orders.ts:13-21 | the order query sends page and pageSize first, in decimal, then search, status, paymentStatus, sort and order in that order |
| OrderActions.OrderQueryShape | actions/orders.ts:16-20 | search, status, paymentStatus, sort and order each appear, with its value, exactly when non-empty |
| OrderActions.ListOrders | actions/orders.ts:9-35 | a GET of the order list with the query; the normalised page, or a rejection with "Failed to fetch orders" |
| OrderActions.ListOrdersDefaults | actions/orders.ts:10 | without parameters page "1" of size "20" is requested, and a resolved page echoes 1 and 20 |
| OrderActions.GetOrder | actions/orders.ts:38-45 | a GET of the order's path; its body, or a rejection with "Failed to fetch order" |
| OrderActions.UpdateOrder | actions/orders.ts:48-56 | a PUT of the payload to the order's path, reported as success with the body or failure ("Failed to update order") |
| OrderActions.DeleteOrder | actions/orders.ts:59-67 | a DELETE of the order's path; a success carries null ("Failed to delete order" on failure) |
| UserActions.UserQueryOrder | actions/users.ts:15-23 | the user query sends page and pageSize first, in decimal, then search, role, status, sort and order in that order |
| UserActions.UserQueryShape | actions/users.ts:18-22 | search, role, status, sort and order each appear, with its value, exactly when non-empty |
| UserActions.ListUsers | actions/users.ts:11-37 | a GET of the user list with the query; the normalised page, or a rejection with "Failed to fetch users" |
| UserActions.ListUsersDefaults | actions/users.ts:12 | without parameters page "1" of size "20" is requested, and a resolved page echoes 1 and 20 |
| UserActions.GetUser | actions/users.ts:40-47 | a GET of the user's path; its body, or a rejection with "Failed to fetch user" |
| UserActions.CreateUser | actions/users.ts:50-58 | a POST of the payload, reported as success with the body or failure ("Failed to create user") |
| UserActions.UpdateUser | actions/users.ts:61-69 | a PUT of the payload to the user's path, reported as success with the body or failure ("Failed to update user") |
| UserActions.DeleteUser | actions/users.ts:72-80 | a DELETE of the user's path; a success carries null ("Failed to delete user") |
| RoleGuard.DefaultFallback | components/RoleGuard.tsx:12 | a missing fallback renders nothing; a given one is rendered as it is |
| RoleGuard.Guard | components/RoleGuard.tsx:12-20 | the children are shown exactly when there is a user whose role is among the allowed roles; otherwise the fallback |
| RoleGuard.GuardMonotone | components/RoleGuard.tsx:15 | allowing more roles never hides children that were shown |
| ProtectedRoute.RedirectTarget | components/ProtectedRoute.tsx:17 | the redirect goes to "/home" unless the caller names a target |
| ProtectedRoute.Decide | components/ProtectedRoute.tsx:22-36 | while loading, the placeholder and no redirect; once loaded, the children for an allowed user, and otherwise nothing plus a redirect to the target |
| ProtectedRoute.AgreesWithRoleGuard | components/ProtectedRoute.tsx:32-36 | once loaded, the route shows its children exactly when a role guard with the same roles would |
| ProtectedRoute.RedirectIffHidden | components/ProtectedRoute.tsx:22-34 | a redirect is issued exactly when the route renders nothing |
| Sidebar.ActiveRule | components/layout/sidebar.tsx:148-151 | the dashboard entry is active exactly on "/dashboard"; any other entry exactly when the path extends its href |
| Sidebar.RoutesPrefixFree | components/layout/sidebar.tsx:37-78 | no href of the route table is a prefix of another |
| Sidebar.ActiveIsPrefix | components/layout/sidebar.tsx:149-151 | an active entry's href is a prefix of the path |
| Sidebar.AtMostOneActiveIn | components/layout/sidebar.tsx:147-151 | in a prefix-free table, no path activates two entries |
| Sidebar.AtMostOneActive | components/layout/sidebar.tsx:37-151 | in the sidebar's own table, any path highlights at most one entry |
| Sidebar.AvatarFallback | components/layout/sidebar.tsx:204 | one character: the name's first, or "U" without a name |
| Sidebar.DisplayName | components/layout/sidebar.tsx:214-229 | never empty: the name, or "User" without one |
| Sidebar.ExpandState.constructor | components/layout/sidebar.tsx:82-83 | the sidebar starts collapsed with no collapse scheduled |
| Sidebar.ExpandState.MouseEnter | components/layout/sidebar.tsx:85-91 | the referenced collapse is cancelled and forgotten, and the sidebar expands |
| Sidebar.ExpandState.MouseLeave | components/layout/sidebar.tsx:93-97 | a fresh collapse is scheduled and referenced; the width does not change yet, and an earlier collapse stays scheduled |
| Sidebar.ExpandState.TimerFires | components/layout/sidebar.tsx:94-96 | a scheduled collapse collapses the sidebar and leaves its spent id referenced |
| Sidebar.ExpandState.Unmount | components/layout/sidebar.tsx:100-104 | the referenced collapse is cancelled and nothing else changes |
| Sidebar.LeaveThenEnter | components/layout/sidebar.tsx:85-97 | leaving and coming back before the delay leaves the sidebar expanded with nothing scheduled |
| JsText.TrimIsCore | lib/server-only.ts:21-25 | `trim` keeps exactly the slice between the leading and trailing whitespace, and the result neither starts nor ends with whitespace |
| JsText.TrimNoOp | lib/server-only.ts:21-25 | a text without whitespace at either end is its own trim |
| JsText.TrimIdempotent | lib/server-only.ts:21-25 | trimming twice is trimming once |
| JsText.IncludesIff | components/layout/header.tsx:50-52 | `includes` holds exactly when the text occurs at some position |
| JsText.JoinSplit | components/layout/breadcrumbs.tsx:55-57 | splitting on a character and joining with it again gives the text back |
| JsText.SplitJoin | components/layout/breadcrumbs.tsx:55-57 | joining separator-free pieces and splitting again gives the pieces back |
| JsText.ToLower | components/common/DataTable.tsx:60 | lower-casing keeps the length and maps each character on its own |
| JsText.ParseIntIntToString | components/catalog/ProductForm.tsx:78 | `parseInt(String(n))` is `n` for every integer, with or without radix 10 |
| JsText.EncodeURIComponent | lib/themeService.ts:49 | the encoded text holds only unreserved characters and escapes, and a text of unreserved characters is kept as it is |
| JsText.EncodedIsQuerySafe | lib/themeService.ts:49 | an encoded store id cannot open another query parameter or a fragment |

## Left out

- Rendering is not modelled: JSX layout, Tailwind class lists, icons, framer-motion animations and the `components/ui` primitives. Where a render decision has behaviour (the pager, the empty row, the breadcrumb guard, the overlay, the guards), it is modelled.
- The network is a parameter: `fetch` in the API client and the theme service, and the transport behind the server actions. The theme service takes a response or a failure, and each server action takes what its call settled to, resolved or rejected.
- Endpoint paths are symbolic (`ItemPath`, `CreatePath`, `ListPath`). The `ENDPOINTS` object the actions use is not part of this model.
- `URLSearchParams` serialisation and `JSON.stringify` text are not modelled. Queries are ordered key/value lists and bodies are `Json` values.
- Numbers are integers. The `parseFloat` prices of the product form are a parameter function to an integer-or-NaN value, and no floating-point arithmetic is modelled.
- Logging (`console.*` and the logger) is left out, since it has no effect on state.
- Toasts are recorded only where a component shows them itself: the login, product, profile and store-content forms.
- Inside `apiHandlers`, only the loading text and the kind of the final toast (success or error) are modelled, not the toast messages. The text of `confirmService` dialogs is not modelled either. The user's answer to a dialog is a parameter.
- `auth()` is a parameter: the API client takes the session's access token, if any.
- `jwtDecode`, `Date.now()` and the theme's load time are parameters.
- `localStorage` is a map owned by the class that uses it.
- `getStoreId` and the `store_id` storage entry are a parameter of the theme provider.
- The fetch timeout and `AbortController` are left out, since the outcome of each fetch is a parameter.
- The theme provider's `refreshTheme` passes `getStoreId?.()` over the given options, so a store id in the options never reaches the fetch. The model passes only the provider's store id.
- Timers are abstract events: the sidebar's collapse timer is a set of pending ids that fire on request. The profile form's simulated delay always resolves, so its catch blocks are unreachable and left out.
- React state batching and races between concurrent handlers are not modelled. Each handler is one sequential step.
- The tables' `handleRefresh`/`isRefreshing` and their `onChange` form inputs are left out.
- SentHeaders: of the caller's options only `headers` is modelled. Because `...options` is spread after `method`, `headers` and `body`, a caller's `method` or `body` in the options would also replace the request's, and the model cannot express such options.
- LoginText: a truthy token that is not a string is turned into its text before `login`. The source hands `login` the raw value, stores its text, and `jwtDecode` throws on it, so the user stays null; the model decodes the text instead.
- The `coupons` and `categories` state of the tables is never updated by the source. The model keeps those lists as constants.
- The store-content form's banner endpoints (`actions/banners.ts`) are not part of this model. The banner calls are recorded symbolically.
- A value thrown with null or undefined makes the action wrappers read `.message` of it and reject. The model represents that rejection as an error value.
- The design system's `acplusColors` constants are not used by any function and are not modelled.
- `cn` (clsx with tailwind-merge), `formatDate`, the motion helpers and the presentation-only components are not modelled. The presentation-only components are the pages, the loading fallbacks, the demo and theme-example components, the product detail view and the column-only tables.
- Case folding is ASCII only: `toLowerCase` is modelled on `A`-`Z`, and other letters are kept as they are.
- CapitalizeAll: `toUpperCase` is modelled on `a`-`z` only, so a word starting with another letter ("élan") keeps it where the source capitalises it ("Élan").
- AvatarFallback: takes the name's first character, where `charAt(0)` takes its first UTF-16 code unit; the two differ for a name starting outside the Basic Multilingual Plane (an emoji).
- FetchApi: takes only a request that was answered. When `fetch` itself rejects, the rejection propagates out of `fetchAPI` unchanged; the server actions take that case as a rejected outcome.
- Overlay: each field of an update is either carried or absent, so a member that is present but `undefined` (`{ colors: undefined }`) cannot be expressed. In the source, `{ ...currentTheme, ...updates }` overwrites the theme's field with `undefined`; the model keeps the theme's value.
- FromJson: a truthy flag that is not a boolean (`1`, `"true"`) is read as `true`, so writing the theme back to the cache stores `true` where the source stores the original value.
- GenerateBreadcrumbs: a crumb whose label is an inherited member carries that member by name; how React renders a function or an object child is not modelled.
- DataTable.Table.constructor: requires a page size of at least 1. The source defaults it to 10; a page size of 0 would make the page count `Infinity`, which the model does not represent.
- ThemeApi.ThemeService.GetCachedTheme: the source returns any stored value that passes `isValidTheme`, even when its colour entries are not `{light, dark}` string pairs. For such a value the model returns nothing.
- ThemeApi.FetchNeverFails: for a served theme as described above (one that passes `isValidTheme` but whose colour entries are not `{light, dark}` string pairs), the model gives the default theme where the source would return that value.

## Findings

| source | as written | input that shows it | evidently intended | confidence | as-written member | corrected member |
|---|---|---|---|---|---|---|
| lib/defaultTheme.ts:154-162 | `isValidTheme` tests `typeof theme === 'object'`, which holds for null, and then reads `theme.id`, which throws | `isValidTheme(null)` | answer false for null, as for every other non-theme | high (not executed) | DefaultTheme.IsValidThemeAsWritten, with DefaultTheme.IsValidThemeThrowsOnNull | DefaultTheme.IsValidTheme, with DefaultTheme.IsValidThemeAgreesElsewhere and DefaultTheme.ShapeIsEnough |
