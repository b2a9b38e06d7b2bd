# y-kit front end: the rules behind the pages

Y-Kit is a React front end for a youth-policy and local-benefits service. This
project models the small, deterministic rules of its core in Dafny and proves
what those rules promise:

- the HTTP wrapper:
  - the `Authorization` header and the header merge;
  - how a response is classified into `{ data }` or `{ error }`, and the 401 rule that clears the stored credentials;
  - the body rule of `post`/`put`/`patch`;
  - the `get` helper that cleans a parameter object into a query string;
  - the hand-built query strings of the four policy endpoints.
- the credential store of `AuthProvider`, over the `jwt_token` and `user_id` entries of `localStorage`;
- the sign-up validator and its submit handler;
- the login handler, which reads the user id from the payload segment of a JWS compact token (section 7.1 of RFC 7515);
- the list pages:
  - membership toggles;
  - order-keeping conjunctive filters;
  - the five-slot pagination window and the prev/next bounds;
  - category-to-parameter mapping;
  - the refetch-on-success-only rule of the like and bookmark buttons;
- the detail pages:
  - the comment submit and delete flows;
  - the join button's enabling and label rules;
  - the choice between the loading, error and content views.

Each thing the source changes step by step is written imperatively:

- A component with state is a `class` whose fields are its `useState` variables.
- Each handler is a method that `modifies` exactly the fields it sets.
- Each method's `ensures` ties its new state to a pure function of the old state (`View() == Loaded(old(View()), fetched)`). Lemmas about those functions state what the page promises.
- Pure expressions (filters, lookups, labels) are functions with lemmas beside them.

What the network, `alert`, `confirm` and `navigate` do is not modelled. Instead:

- The result of an API call is a method parameter: `Outcome` = `Ok | Err(message)`, or `Fetched` = `Failed(message) | Received(data)`.
- The calls a handler issues come back as a `seq<Call>`.
- The alerts and navigations come back as a `seq<Effect>`.
- `confirm` is a `confirmed: bool` parameter.
- `fetch` is a `FetchResult` parameter.
- `localStorage` is a `LocalStorage` object with a `map<string, string>`.
- The percent-encoding inside `URLSearchParams` (section 5.2 of the WHATWG URL Standard) is an uninterpreted `enc` parameter.
- `atob` + `JSON.parse` of the token payload is a partial `decode` parameter.
- The page-side name-to-id tables `CATEGORIES`/`KEYWORDS` are abstract partial maps.

Modules:

- `Wrappers`: Option, Result.
- `Js`: JavaScript truthiness, `String()`, `trim`, `includes`, ASCII `toLowerCase`, `split`.
- `Selection`: toggle, filter, subsequence.
- `Paging`: the pagination window and bounds.
- `ApiTypes`: the DTO shapes and call outcomes.
- `BrowserStorage`: `localStorage`.
- `Effects`: alerts and navigation, with the shared alert prefixes.
- `Listing`: what the community and group-purchase lists share.
- `DetailFlow`: what the two detail pages share.
- One module per core file: `Client`, `AuthContext`, `SignUpPage`, `LoginPage`, `PolicyList`, `PolicyDetails`, `HotDeals`, `AffordableMap`, `Community`, `CommunityDetails`, `GroupPurchase`, `GroupPurchaseDetails`.

Four behaviours of the code worth knowing, all kept in the model:

- `handleSearch` on the community and group-purchase boards does not clear an earlier error before a keyword search. Only the plain list fetch does.
- The detail fetches (`fetchPostDetail`, `fetchItemDetail`) never clear an earlier error, so after a failure the error view stays even when a later fetch succeeds.
- Toggling an id twice restores the list exactly only when the id was absent. When it was present, it is moved to the end, so the list is restored only up to order (`Selection.ToggleTwiceAbsent` versus `Selection.ToggleTwice`).
- A login whose token is the empty string is stored, but the next mount does not restore it (`AuthContext.LoginSurvivesReload`).

## Model

| member | source | states |
|---|---|---|
| Client.AuthHeaders | src/api/client.ts:53-59 | The headers always carry `Content-Type: application/json`. They carry `Authorization: Bearer <token>` exactly when a non-empty token is stored, and nothing else. |
| Client.RequestHeaders | src/api/client.ts:70-73 | The sent headers are the caller's, plus the content type, plus the bearer token when one is stored. A caller header wins on a shared name. The JSON content type stays unless the caller sets its own. |
| Client.Classify | src/api/client.ts:76-111 | The classification of a response never yields both `data` and `error`. It yields neither exactly for a 204. |
| Client.ClassifyError | src/api/client.ts:77-111 | A call fails exactly when `fetch` rejects, the status is not ok, or an ok non-204 JSON body fails to parse. A 401 gives "Authentication required". Another non-ok status gives `HTTP <status>: <body or statusText>`. A thrown Error gives its message, anything else thrown gives "Network error". An ok response gives its JSON or text body. |
| Client.ApiClient.Request | src/api/client.ts:62-112 | One fetch of `baseURL + endpoint` with credentials and the merged headers built from the stored token. The result is the classification. On a 401, exactly `jwt_token` and `user_id` are removed and the page reloads. Otherwise storage is unchanged. |
| Client.ApiClient.Get | src/api/client.ts:114-116 | A GET without a body, to the base URL plus the endpoint, with the auth headers. It has the classification and 401 rule of `request`. |
| Client.ApiClient.Delete | src/api/client.ts:132-134 | A DELETE without a body. Otherwise as for GET. |
| Client.ApiClient.Post | src/api/client.ts:118-123 | A POST whose body is the payload exactly when the payload is truthy. Otherwise as for GET. |
| Client.ApiClient.Put | src/api/client.ts:125-130 | A PUT whose body is the payload exactly when the payload is truthy. |
| Client.ApiClient.Patch | src/api/client.ts:136-141 | A PATCH whose body is the payload exactly when the payload is truthy. |
| Client.WithBody | src/api/client.ts:121 | The request options hold a body exactly when the payload is truthy, and then it is the payload. |
| Client.FalsyPayloadSendsNoBody | src/api/client.ts:118-141 | `undefined`, `null`, `false`, `0` and `''` are sent as no body. |
| Client.Stringified | src/api/client.ts:152-157 | Each parameter keeps its name and position. Its value is `String(value)`, or absent when it is null or undefined. |
| Client.CleanParams | src/api/client.ts:152-157 | The loop that fills the dictionary entry by entry computes exactly the cleaned query. |
| Client.CleanedLookup | src/api/client.ts:152-157 | A name is in the cleaned dictionary exactly when the object has it with a value other than null and undefined. Its value is `String(value)`, so `0`, `false` and `''` are kept. |
| Client.CleanedInOrder | src/api/client.ts:152-157 | The cleaned names keep the order of the parameter object. |
| Client.CleanedEmptyIff | src/api/client.ts:152-159 | The cleaned dictionary is empty exactly when every value is null or undefined. |
| Client.Serialize | src/api/client.ts:159 | The serialized query is empty exactly when the query has no pair. |
| Client.HelperGet | src/api/client.ts:147-161 | Without params the endpoint passes through unchanged. When every value is nullish it also passes through. Otherwise the endpoint is followed by `?` and the serialized cleaned query. |
| Client.GetPolicies | src/api/client.ts:379-390 | The built query is the present `page`, `size`, `sort`, in that order. The target is always `/api/v1/policies?` followed by the query, even when the query is empty. |
| Client.PoliciesQuery | src/api/client.ts:384-387 | The keys are a subsequence of `page, size, sort`. Each parameter given is sent, with numbers as decimal numerals, and 0 is kept. |
| Client.GetRecommendedPolicies | src/api/client.ts:402-417 | The conditional appends compute exactly the query of the five candidates. The target is `/api/v1/policies/recommended?` followed by the query. |
| Client.RecommendedQuery | src/api/client.ts:409-414 | An age or category id of 0 and an empty region are dropped. A page or size of 0 is kept. The fixed order is age, regionCode, categoryId, page, size. |
| Client.GetPopularPolicies | src/api/client.ts:420-431 | The query of the present `sortBy`, `page`, `size`, in order, appended to `/api/v1/policies/popular?`. |
| Client.PopularQuery | src/api/client.ts:425-428 | An empty `sortBy` is dropped. A page or size of 0 is kept. |
| Client.GetDeadlineSoonPolicies | src/api/client.ts:434-443 | The query of the present `page`, `size`, appended to `/api/v1/policies/deadline?`. |
| Client.DeadlineQuery | src/api/client.ts:438-440 | Page then size, each exactly when it is given. |
| Client.PresentLookup | src/api/client.ts:384-389 | With distinct names, a conditionally appended name is in the query exactly when its value is present, and it carries that value. |
| Client.PresentEmptyIff | src/api/client.ts:159-160 | Nothing is appended exactly when no candidate value is present. |
| AuthContext.RestoredUser | src/contexts/AuthContext.tsx:24-30 | A user is restored exactly when both `jwt_token` and `user_id` are stored and non-empty. Its id is the stored `user_id`. |
| AuthContext.Initial | src/contexts/AuthContext.tsx:19-20 | The first render is unauthenticated and consistent. |
| AuthContext.Mounted | src/contexts/AuthContext.tsx:23-31 | The mount effect authenticates with `user.id = user_id` when both keys are stored and non-empty. Otherwise it changes nothing. It never writes storage. |
| AuthContext.LoggedIn | src/contexts/AuthContext.tsx:33-38 | `login` stores both keys with the given values, leaves every other key as it was, and sets the user and `isAuthenticated`. |
| AuthContext.LoggedOut | src/contexts/AuthContext.tsx:40-45 | `logout` removes both keys, leaves every other key alone, and clears the user and `isAuthenticated`. |
| AuthContext.TransitionsConsistent | src/contexts/AuthContext.tsx:19-45 | Mount, login and logout each keep `isAuthenticated` true exactly when a user is set. |
| AuthContext.LogoutIdempotent | src/contexts/AuthContext.tsx:40-45 | Logging out twice is the same as logging out once. |
| AuthContext.LoginThenLogout | src/contexts/AuthContext.tsx:33-45 | Login then logout stores neither key, touches no other key, and equals a plain logout. |
| AuthContext.LoginSurvivesReload | src/contexts/AuthContext.tsx:23-38 | After a login, a reload restores the session exactly when both the token and the user id are non-empty, and then it restores the same session. |
| AuthContext.LogoutSurvivesReload | src/contexts/AuthContext.tsx:23-45 | After a logout, a reload stays logged out. |
| AuthContext.AuthProvider.constructor | src/contexts/AuthContext.tsx:18-31 | The first render followed by the mount effect, reading the two keys from storage. |
| AuthContext.AuthProvider.Login | src/contexts/AuthContext.tsx:33-38 | The provider's storage and fields become `LoggedIn` of the old state, and the invariant holds. |
| AuthContext.AuthProvider.Logout | src/contexts/AuthContext.tsx:40-45 | The provider's storage and fields become `LoggedOut` of the old state, and the invariant holds. |
| AuthContext.UseAuth | src/contexts/AuthContext.tsx:54-60 | Inside a provider the hook returns its context. Outside one it fails with "useAuth must be used within an AuthProvider". |
| SignUpPage.EmailPatternIff | src/pages/SignUpPage.tsx:40 | `^[^\s@]+@[^\s@]+\.[^\s@]+$` holds exactly when the address has no white space and exactly one `@`, not first, with a dot after it. That dot is neither at the start of the domain nor the last character. |
| SignUpPage.EmailError | src/pages/SignUpPage.tsx:38-42 | An empty email gets the "required" message. A non-empty one that misses the pattern gets the "malformed" message. No message exactly when the pattern holds. |
| SignUpPage.PasswordError | src/pages/SignUpPage.tsx:45-49 | An empty password gets "required". Fewer than 8 UTF-16 code units gets "too short". No message exactly from 8 code units on. |
| SignUpPage.ConfirmError | src/pages/SignUpPage.tsx:52-54 | The mismatch message is set exactly when the two passwords differ. |
| SignUpPage.NameError | src/pages/SignUpPage.tsx:57-59 | The name is required. |
| SignUpPage.AgeError | src/pages/SignUpPage.tsx:62-66 | A missing age gets "required". An age outside 1..120 gets "invalid". No message exactly for 1..120. |
| SignUpPage.GenderError | src/pages/SignUpPage.tsx:69-71 | The gender is required. |
| SignUpPage.Errors.Count | src/pages/SignUpPage.tsx:74 | At most one message per field, so at most six in all. The count is 0 exactly for the empty error map. |
| SignUpPage.ValidIff | src/pages/SignUpPage.tsx:34-75 | The error map is empty exactly when the form meets every condition. |
| SignUpPage.ConfirmationIndependent | src/pages/SignUpPage.tsx:52-54 | The mismatch error depends on the two password fields alone, whatever the length checks find. |
| SignUpPage.RegionIgnored | src/pages/SignUpPage.tsx:34-75 | The region never changes the error map. |
| SignUpPage.RequestFor | src/pages/SignUpPage.tsx:86-93 | The request carries the form's email, password, name, numeric age and gender. It carries the region exactly when the region is non-empty. |
| SignUpPage.SignUpPage.ValidateForm | src/pages/SignUpPage.tsx:34-75 | The `if`/`else if` chains store exactly `ErrorsOf(form)`, and the result is true exactly for an acceptable form. |
| SignUpPage.SignUpPage.constructor | src/pages/SignUpPage.tsx:20-32 | The form starts with every field empty, no errors and `loading` false. |
| SignUpPage.SignUpPage.HandleSubmit | src/pages/SignUpPage.tsx:77-106 | An invalid form sends nothing and leaves `loading` alone. A valid form sends `RequestFor(form)` and ends with `loading` false. An error alerts "회원가입 실패: " + message and does not navigate. Success alerts and navigates to `/login`. |
| LoginPage.CompactSerializationPayload | src/pages/LoginPage.tsx:61 | For `header.payload.signature` with dot-free header and payload, segment 1 of `split('.')` is the payload. |
| LoginPage.NoDotNoPayload | src/pages/LoginPage.tsx:61 | A token without a dot has no segment 1, so decoding fails. |
| LoginPage.UserIdOf | src/pages/LoginPage.tsx:62 | The id is `String` of the first truthy of `userId`, `sub`, `id`, else `'1'`. It is never empty. |
| LoginPage.LoginArguments | src/pages/LoginPage.tsx:50-75 | `login` is called exactly when both fields are filled, there is no error and a non-empty token came back. It is called with that token and a non-empty id. |
| LoginPage.UndecodableTokenFallsBack | src/pages/LoginPage.tsx:68-73 | A token whose payload cannot be decoded is still stored, with user id `'1'`. |
| LoginPage.DecodedTokenUserId | src/pages/LoginPage.tsx:58-67 | A decodable JWS token logs in with the id read from its payload. |
| LoginPage.LoginPage.HandleLocalLogin | src/pages/LoginPage.tsx:38-82 | An empty field alerts, makes no call and leaves `loading` alone. Otherwise the call is made. An error alerts "로그인 실패: " + message and does not log in. A token logs in with `LoginArguments`, then alerts and navigates to `/`. No token does nothing. `loading` ends false on every path past the guard. |
| LoginPage.LoginPage.constructor | src/pages/LoginPage.tsx:33-35 | Email and password start empty and `loading` false. |
| PolicyList.SortParamCases | src/pages/PolicyListPage.tsx:35-37 | `name` maps to `policyName,asc` and `popular` to `viewCount,desc`. Every other value maps to `createdAt,desc`. |
| PolicyList.PolicyListPage.constructor | src/pages/PolicyListPage.tsx:17-27 | The page starts loading on page 0 with no policies, no error, a 0 total, `sortBy` "latest" and both selections empty. |
| PolicyList.ListQuery | src/pages/PolicyListPage.tsx:40 | The list call always sends `page`, `size=30` and the sort, in that order. |
| PolicyList.PolicyListPage.FetchPolicies | src/pages/PolicyListPage.tsx:31-53 | The request is page, size 30 and the sort parameter. An error message is stored, and a success clears the error and replaces the list, the page counters and `currentPage = data.page`. Otherwise they are kept. `loading` ends false. |
| PolicyList.PolicyListPage.ToggleCategory | src/pages/PolicyListPage.tsx:72-74 | The category selection becomes its toggle by the id, and stays free of duplicates. |
| PolicyList.PolicyListPage.ToggleKeyword | src/pages/PolicyListPage.tsx:75-77 | The keyword selection becomes its toggle by the id, and stays free of duplicates. |
| PolicyList.FilteredPoliciesSpec | src/pages/PolicyListPage.tsx:80-90 | The filtered list is a subsequence of the loaded policies. Each passing policy appears as often as in the loaded list, and no other does. It holds exactly the policies that pass the category, keyword and case-sensitive search tests together. |
| PolicyList.NoFilterShowsAll | src/pages/PolicyListPage.tsx:81-87 | With no chip selected and an empty search, every policy is shown, in order. |
| PolicyList.FilterBadge | src/pages/PolicyListPage.tsx:138-141 | The badge is shown exactly when some chip is selected, and then shows the sum of both selection lengths. |
| PolicyList.PolicyListPage.ResetFilters | src/pages/PolicyListPage.tsx:194-197 | Both selections are emptied, which hides the badge. |
| Paging.WindowSize | src/pages/PolicyListPage.tsx:316 | The window has `min(5, totalPages)` slots, and none for no pages. |
| Paging.PageWindow | src/pages/PolicyListPage.tsx:316-321 | The window has that many consecutive page numbers, each in `[0, totalPages)`. |
| Paging.WindowHasCurrent | src/pages/PolicyListPage.tsx:316-322 | The current page is in the window whenever it is a real page. |
| Paging.WindowCentered | src/pages/PolicyListPage.tsx:320 | Away from both ends of a long listing, the current page is in the middle slot. |
| Paging.ShortListingShowsAll | src/pages/PolicyListPage.tsx:317 | With at most five pages, the window shows every page. |
| Paging.StepStaysInRange | src/pages/PolicyListPage.tsx:311-338 | An enabled prev or next click from a real page lands on a real page. |
| PolicyDetails.PolicyDetailsPage.constructor | src/pages/PolicyDetailsPage.tsx:107-110 | The AI explanation is off, nothing is bookmarked, and the checklist and compare list are empty. |
| PolicyDetails.PolicyDetailsPage.HandleCheckDocument | src/pages/PolicyDetailsPage.tsx:112-118 | The checklist becomes its toggle by the row index, and stays a duplicate-free list of row indices. |
| PolicyDetails.CheckKeepsValid | src/pages/PolicyDetailsPage.tsx:112-118 | Toggling a row index keeps the checklist duplicate-free and within the document list. |
| PolicyDetails.AllReadyIff | src/pages/PolicyDetailsPage.tsx:372-412 | The checked count never exceeds the number of documents. The "all ready" alert shows exactly when every row is ticked. |
| PolicyDetails.PolicyDetailsPage.HandleCompareToggle | src/pages/PolicyDetailsPage.tsx:120-126 | The compare list becomes its toggle by the policy id, and stays duplicate-free. |
| PolicyDetails.CompareAlert | src/pages/PolicyDetailsPage.tsx:304-307 | The compare alert is shown exactly when the list is non-empty, with its length. |
| PolicyDetails.CompareToggleLabel | src/pages/PolicyDetailsPage.tsx:287 | A click flips that policy's label between "비교함" and "비교하기" and leaves every other policy's label alone. |
| PolicyDetails.PolicyDetailsPage.ToggleBookmark | src/pages/PolicyDetailsPage.tsx:168 | Each click flips `bookmarked`. |
| PolicyDetails.PolicyDetailsPage.SetAiEnabled | src/pages/PolicyDetailsPage.tsx:194-199 | The switch sets `aiEnabled`. The explanation shows exactly while it is on. |
| Selection.Toggle | src/pages/PolicyListPage.tsx:72-77 | Toggling flips membership of that id only. An absent id is appended at the end. The toggle never creates a duplicate. |
| Selection.Without | src/pages/HotDealsPage.tsx:139 | `filter(x => x !== id)` keeps every other element in its order, drops the id, and changes nothing when the id is absent. |
| Selection.ToggleTwiceAbsent | src/pages/HotDealsPage.tsx:137-143 | Toggling an absent id twice restores the list exactly. |
| Selection.ToggleTwice | src/pages/PolicyDetailsPage.tsx:112-118 | On a duplicate-free list, toggling twice restores the same elements and the same length. A present id ends up moved to the end, behind the others in their order. |
| Selection.ToggleLength | src/pages/PolicyDetailsPage.tsx:120-126 | On a duplicate-free list, a toggle grows it by one or shrinks it by one. |
| Selection.FilterIsSubsequence | src/pages/HotDealsPage.tsx:154-160 | `Array.filter` keeps the original order. |
| Selection.FilterEmptyIff | src/pages/HotDealsPage.tsx:345 | A filter result is empty exactly when no element passes. |
| HotDeals.FilteredDealsSpec | src/pages/HotDealsPage.tsx:154-160 | The shown deals keep the list's order. They are exactly the deals that pass the category, district and case-insensitive search tests, each as often as it occurs in the list. |
| HotDeals.NoFilterShowsAll | src/pages/HotDealsPage.tsx:155-158 | "전체" in both selectors and an empty search show every deal, in order. |
| HotDeals.EmptyStateIff | src/pages/HotDealsPage.tsx:227-345 | The count shown is at most the list's length. The empty state appears exactly when no deal passes. |
| HotDeals.LikeMovesCounter | src/pages/HotDealsPage.tsx:312 | A heart click moves that deal's counter by exactly one, up from or back down to the stored count. Every other deal's counter stays the same. |
| HotDeals.BookmarkMovesCounter | src/pages/HotDealsPage.tsx:336 | A bookmark click moves that deal's counter by exactly one, up from or back down to the stored count. The shown count is the stored one or one more. Every other deal's counter stays the same. |
| HotDeals.HotDealsPage.constructor | src/pages/HotDealsPage.tsx:130-135 | An empty search, both filters on "전체", `sortBy` "latest", and no liked or bookmarked deals. |
| HotDeals.HotDealsPage.HandleLike | src/pages/HotDealsPage.tsx:137-143 | The liked list becomes its toggle by the id. The bookmarked list and the shown deals are unchanged. |
| HotDeals.HotDealsPage.HandleBookmark | src/pages/HotDealsPage.tsx:145-151 | The bookmarked list becomes its toggle by the id. The liked list and the shown deals are unchanged. |
| HotDeals.HotDealsPage.SetSortBy | src/pages/HotDealsPage.tsx:229-239 | Changing the sort selector changes neither which deals are shown nor their order. |
| AffordableMap.FilteredPlacesSpec | src/pages/AffordableMapPage.tsx:104-109 | The places shown keep the list's order and are exactly those passing both tests, each as often as it occurs in the list. "No results" appears exactly when none passes. |
| AffordableMap.EmptySearchKeepsCategory | src/pages/AffordableMapPage.tsx:105-107 | An empty search keeps every place of the chosen category, and "전체" keeps them all. |
| AffordableMap.Find | src/pages/AffordableMapPage.tsx:129 | `find` returns an entry with that name, or nothing exactly when no entry has it. |
| AffordableMap.CategoryLookup | src/pages/AffordableMapPage.tsx:128-136 | Each listed category gets its own icon and colour. Any other name gets the map pin and `bg-gray-500`. |
| AffordableMap.MarkersSpread | src/pages/AffordableMapPage.tsx:194-196 | Marker `i` sits at `30+15i` % from the top and `40+10i` % from the left, so markers move down and right along the list. |
| AffordableMap.SelectionRules | src/pages/AffordableMapPage.tsx:198-309 | A click highlights exactly the rows with the clicked id and opens its card. Closing clears both. Neither handler touches the filters. |
| Listing.LoadedOutcome | src/pages/CommunityPage.tsx:58-67 | A failure keeps the entries and page count and stores the message. A success replaces both and leaves the error alone. An empty answer changes only `loading`. |
| Listing.PageButtons | src/pages/CommunityPage.tsx:294-313 | Prev and next move at most one page and never below 0. Prev stays put exactly on page 0, and next moves exactly before the last page. From a real page each lands on a real page. |
| Listing.FallsBackIff | src/pages/CommunityPage.tsx:72-75 | The search falls back to the list call exactly for an empty or white-space-only term. |
| Community.LabelsDistinct | src/pages/CommunityPage.tsx:22-30 | Every chip has its own non-empty label. |
| Community.CategoryParam | src/pages/CommunityPage.tsx:52-53 | "전체" sends no category. Any other chip sends its category unchanged. |
| Community.CommunityPage.constructor | src/pages/CommunityPage.tsx:34-41 | An empty search on the "전체" chip, `sortBy` "latest", no posts, loading, no error, page 0 of 0. |
| Community.CommunityPage.Receive | src/pages/CommunityPage.tsx:57-67 | The shared tail of the list fetch and the search: the view becomes `Loaded` of the old view and the answer. |
| Community.CommunityPage.FetchPosts | src/pages/CommunityPage.tsx:48-68 | The call is the current chip's category, the current page and size 20. The error is cleared, then the result is stored as `Loaded`. |
| Community.CommunityPage.HandleSearch | src/pages/CommunityPage.tsx:71-96 | A blank term runs the list fetch. Otherwise it is a keyword search for the current page with size 20, whose result is stored as `Loaded`. |
| Community.CommunityPage.HandleLike | src/pages/CommunityPage.tsx:98-109 | A failed toggle alerts "좋아요 처리 실패: " + message and leaves the list. A successful one refetches the list exactly once. |
| Community.CommunityPage.HandleBookmark | src/pages/CommunityPage.tsx:111-122 | A failed toggle alerts "북마크 처리 실패: " + message. A successful one refetches exactly once. |
| Community.CommunityPage.SelectCategory | src/pages/CommunityPage.tsx:185-188 | Choosing a chip also resets the page to 0. |
| Community.CommunityPage.PreviousPage | src/pages/CommunityPage.tsx:296-301 | "이전" moves back one page unless it is on page 0. |
| Community.CommunityPage.NextPage | src/pages/CommunityPage.tsx:306-311 | "다음" moves on one page unless it is on the last page. |
| Community.CommunityPage.PagerShown | src/pages/CommunityPage.tsx:294 | The pagination bar shows exactly for two pages or more. On page 0 it shows exactly when "다음" would move. |
| CommunityDetails.CategoryBadge | src/pages/CommunityDetailsPage.tsx:171 | The badge is a non-empty label that names the post's category and no other. |
| CommunityDetails.CommunityDetailsPage.constructor | src/pages/CommunityDetailsPage.tsx:33-37 | No post, loading, no error, an empty comment and not submitting, for the route's id. |
| CommunityDetails.CommunityDetailsPage.FetchPostDetail | src/pages/CommunityDetailsPage.tsx:45-60 | Without an id nothing happens. Otherwise one detail call, and the state becomes `Refreshed`. |
| CommunityDetails.CommunityDetailsPage.HandleToggleLike | src/pages/CommunityDetailsPage.tsx:63-74 | Without an id nothing happens. A failure alerts and keeps the page. A success refetches once. |
| CommunityDetails.CommunityDetailsPage.HandleToggleBookmark | src/pages/CommunityDetailsPage.tsx:76-87 | Without an id nothing happens. A failure alerts and keeps the page. A success refetches once. |
| CommunityDetails.CommunityDetailsPage.HandleSubmitComment | src/pages/CommunityDetailsPage.tsx:89-107 | Without an id or with a blank comment nothing happens. An error alerts, keeps the comment and resets `submitting`. A success clears the comment, resets `submitting` and refetches. |
| CommunityDetails.CommunityDetailsPage.HandleDeleteComment | src/pages/CommunityDetailsPage.tsx:109-120 | Nothing without confirmation. A failure alerts without refetching. A success refetches when there is an id. |
| CommunityDetails.CommunityDetailsPage.Screen | src/pages/CommunityDetailsPage.tsx:122-147 | The loading view first. Otherwise a truthy error is shown as is, and a missing post shows "게시글을 찾을 수 없습니다.". The post shows exactly with no error and a record. |
| DetailFlow.RefreshedOutcome | src/pages/CommunityDetailsPage.tsx:45-60 | A detail fetch never touches the comment box. With an id it ends loading. Only a returned record changes the record shown, and only a failure changes the error. |
| DetailFlow.ScreenOf | src/pages/CommunityDetailsPage.tsx:122-147 | The loading view takes priority. Content shows exactly when it is not loading, there is no error, and there is a record. The error view always has a message. |
| DetailFlow.SubmitButtonGuard | src/pages/CommunityDetailsPage.tsx:91-276 | The button is disabled exactly while submitting or while the box is blank. With an id, an enabled button always gets past the handler's guard. |
| GroupPurchase.StatusLabelsDistinct | src/pages/GroupPurchasePage.tsx:23-28 | Each of the four statuses has its own non-empty label. |
| GroupPurchase.CardJoinRule | src/pages/GroupPurchasePage.tsx:239-248 | A card's button is disabled exactly when it reads "마감되었습니다", that is, for COMPLETED. CANCELLED does not disable it. |
| GroupPurchase.GroupPurchasePage.constructor | src/pages/GroupPurchasePage.tsx:32-37 | An empty search, no offers, loading, no error, page 0 of 0. |
| GroupPurchase.GroupPurchasePage.Receive | src/pages/GroupPurchasePage.tsx:53-63 | The shared tail of the list fetch and the search: the view becomes `Loaded` of the old view and the answer. |
| GroupPurchase.GroupPurchasePage.FetchItems | src/pages/GroupPurchasePage.tsx:44-62 | The call is the current page with size 20 and no other filter. The error is cleared, then the result is stored as `Loaded`. |
| GroupPurchase.GroupPurchasePage.HandleSearch | src/pages/GroupPurchasePage.tsx:66-90 | A blank term runs `fetchItems`. Otherwise it is a keyword search for the current page. |
| GroupPurchase.GroupPurchasePage.HandleLike | src/pages/GroupPurchasePage.tsx:93-104 | A failed toggle alerts and leaves the list. A successful one refetches once. |
| GroupPurchase.GroupPurchasePage.HandleBookmark | src/pages/GroupPurchasePage.tsx:106-117 | A failed toggle alerts and leaves the list. A successful one refetches once. |
| GroupPurchase.GroupPurchasePage.PreviousPage | src/pages/GroupPurchasePage.tsx:293-299 | "이전" moves back one page unless it is on page 0. |
| GroupPurchase.GroupPurchasePage.NextPage | src/pages/GroupPurchasePage.tsx:303-309 | "다음" moves on one page unless it is on the last page. |
| GroupPurchase.GroupPurchasePage.PagerShown | src/pages/GroupPurchasePage.tsx:291 | The pagination bar shows exactly for two pages or more. On page 0 it shows exactly when "다음" would move. |
| GroupPurchaseDetails.JoinButtonRule | src/pages/GroupPurchaseDetailsPage.tsx:359-365 | The button is enabled exactly when it reads "참여하기". CANCELLED does not disable it. "참여 완료" takes precedence over "마감되었습니다". |
| GroupPurchaseDetails.NeededAddsUp | src/pages/GroupPurchaseDetailsPage.tsx:336-341 | `current/target` and the unclamped number still needed add up to the target. That number is at most 0 exactly once the target is reached. |
| GroupPurchaseDetails.GroupPurchaseDetailsPage.constructor | src/pages/GroupPurchaseDetailsPage.tsx:35-39 | No offer, loading, no error, an empty comment and not submitting, for the route's id. |
| GroupPurchaseDetails.GroupPurchaseDetailsPage.FetchItemDetail | src/pages/GroupPurchaseDetailsPage.tsx:47-62 | Without an id nothing happens. Otherwise one detail call, and the state becomes `Refreshed`. |
| GroupPurchaseDetails.GroupPurchaseDetailsPage.HandleJoin | src/pages/GroupPurchaseDetailsPage.tsx:65-77 | A failed join alerts "참여 실패: " + message and does not refetch. A success alerts "참여 완료!" and refetches once. |
| GroupPurchaseDetails.GroupPurchaseDetailsPage.HandleToggleLike | src/pages/GroupPurchaseDetailsPage.tsx:79-91 | A failed toggle alerts and keeps the page. A success refetches once. |
| GroupPurchaseDetails.GroupPurchaseDetailsPage.HandleToggleBookmark | src/pages/GroupPurchaseDetailsPage.tsx:92-104 | A failed toggle alerts and keeps the page. A success refetches once. |
| GroupPurchaseDetails.GroupPurchaseDetailsPage.HandleSubmitComment | src/pages/GroupPurchaseDetailsPage.tsx:105-123 | Without an id or with a blank comment nothing happens. An error keeps the comment and resets `submitting`. A success clears it, resets `submitting` and refetches. |
| GroupPurchaseDetails.GroupPurchaseDetailsPage.HandleDeleteComment | src/pages/GroupPurchaseDetailsPage.tsx:125-136 | Nothing without confirmation. A refetch happens only on success. |
| GroupPurchaseDetails.GroupPurchaseDetailsPage.Screen | src/pages/GroupPurchaseDetailsPage.tsx:142-167 | The loading view first. Otherwise a truthy error is shown as is, and a missing offer shows "공동구매를 찾을 수 없습니다.". The offer shows exactly with no error and a record. |

## Left out

- I/O and browser effects are not modelled: `fetch`, `window.location.reload`, `alert`, `confirm`, `navigate` and `window.scrollTo`. Their inputs are parameters and their occurrences are returned values.
- `URLSearchParams` percent-encoding is the uninterpreted `enc`. `JSON.stringify` and `response.json()` are symbolic: a body is the value it encodes, and a JSON parse failure is an input.
- `atob` and `JSON.parse` of the token payload form the partial function `decode`. A payload property that is an object or an array is not modelled.
- The regular-expression engine is not modelled. The email pattern is a hand-written predicate whose white-space class is JavaScript's `\s`.
- `Number(age)` parsing is not modelled. The age is an optional integer, so NaN and fractional ages are left out.
- `toLowerCase` is modelled for ASCII letters only. No Unicode case mapping.
- Floating-point code is left out: `getProgressPercentage`, `Math.round` and `toLocaleString` formatting.
- The geolocation effect of the map page is left out.
- Async ordering is not modelled: overlapping requests, and state set after unmount. Each handler is one atomic step, with the outcome of its awaited call given.
- The `useEffect` re-fetches after a page, chip or id change are not automatic. They are the next `Fetch…` call.
- Rendering is left out: JSX layout, CSS classes and the icon components. Icons are an enumeration.
- `Header`, `Footer`, `App` and `ProtectedRoute` are presentation-only and not part of this model.
- `MainPage` and `HotDealDetailsPage` are demo data whose only logic repeats the hot-deals toggles. They are not part of this model.
- `src/types/api.ts` is mirrored only as far as the pages read it.
- The name-to-id tables `CATEGORIES`/`KEYWORDS` (`@/data/policyFilters`) are not part of this model. They are the abstract maps `categoryId`/`keywordId`.
- `fetchRecommendedPolicies` is left out, because it swallows every failure and only fills a side list.
- The policy page's `handleSearch` and `handlePageChange` are left out as members. Both are `fetchPolicies(page)`: `PolicyList.PolicyListPage.FetchPolicies`.
- Route ids are kept as strings. `Number(id)` is not modelled.
- `Policy.keywords` is a required list. The `?.` on a missing list is left out.
- The "loading with an empty list" placeholder of the list pages is left out, as rendering.
- The policy checklist row and its checkbox both call `handleCheckDocument`. That double dispatch in the UI library is not modelled.
- The catch branch of `handleLocalLogin` (the "로그인 중 오류가 발생했습니다." alert) cannot be reached through `request`, which catches every error itself. It is not modelled.
- Client.ApiClient.Request: a `response.text()` that rejects is not modelled, on either path: after a non-ok status (src/api/client.ts:86) or for an ok non-JSON body (src/api/client.ts:102). Either rejection lands in the catch branch (src/api/client.ts:105-109) and gives its message or "Network error". The body text is an input here, so `Client.ClassifyError` does not cover these cases.
