# BadFinder core, modelled in Dafny

BadFinder is a Next.js web application for finding and registering
badminton circles (clubs). This project models the rules that sit inside
its request gate, its API routes and library helpers, and a few of its
stateful interface widgets. Each source file of that core has its own
Dafny module:

- `Middleware`: the request gate. It decides from the pathname and whether
  a session token is present, and it only runs on the paths its matcher names.
- `ApiResponse`, `ApiHandler`, `Validations`: the response envelope and the
  fixed-status helpers. Also query-parameter defaulting with JavaScript's
  `parseInt`, request-body validation and its error formatting, and the
  zod schemas written as lists of rules.
- `CirclesRoute`: the listing filter, pagination, and create, update and
  delete of circles. Create, update and delete are methods of a
  `CircleTable` class that holds the table as a map from id to circle.
- `SignupRoute`, `Auth`: signup as check-then-insert on a user table
  keyed by email, the credential `authorize` chain, and the `jwt` and
  `session` callbacks, which assign fields on the objects they receive.
- `DbHelpers`: it recomputes a circle's average rating, review count and
  active-member count. It also builds the placeholders and parameter list
  of the full-text and location SQL searches, pushing step by step as the
  source does.
- `SearchPage`, `RegisterCircle`: the search page's filters and their
  state, and the circle-registration form. The form covers its schema,
  the facility and image lists, the day and level toggles, and submission.
- `ImageGallery`, `Accordion`, `Checkbox`, `FilterSidebar`: the gallery's
  cyclic index and enlarged view, an accordion with at most one open item,
  the checkbox's flag, and the filter sidebar's badges, option lists and
  slider defaults.

The listing receives the table's rows as a sequence, newest first, as the
store returns them. `CirclesRoute.ListsTable` states that such a sequence holds
exactly the rows of the circle table, and `CirclesRoute.PageFromTable` what a
page then shows.

`Common` holds the shared vocabulary: `Option`, string prefix and substring
tests, ASCII lower-casing, decimal digits, and list filtering and toggling.

The database, bcrypt and the email and URL syntax checks are not modelled.
They enter the model as parameters: the circle and user tables are class
fields, while `hash`, `compare`, `isEmail`, `isUrl`, new ids and the clock
are passed in.

## Model

| member | source | states |
|---|---|---|
| Middleware.Gate | src/middleware.ts:31-55 | With a token, a path under an auth route goes to /dashboard. Without one, a path under a protected prefix goes to /auth/login with `callbackUrl` set to the path. Every other pair passes. |
| Middleware.Handle | src/middleware.ts:58-65 | The middleware only applies to paths the matcher lists, so any other path passes. |
| Middleware.SubPathsClassified | src/middleware.ts:38-46 | Classification is by prefix, so every sub-path of a protected or auth path is classified like its base. |
| Middleware.ProfileSubPathProtected | src/middleware.ts:46-52 | `/profile/x` without a token is sent to the login page, with itself as callback. |
| Middleware.ClassesDisjoint | src/middleware.ts:6-10 | No path is both under an auth route and under a protected prefix. |
| Middleware.OrderIrrelevant | src/middleware.ts:41-52 | Testing the protected branch before the auth branch gives the same decision. |
| Middleware.PublicListUnused | src/middleware.ts:13-23 | Whether a path is on the public list does not change the decision. |
| Middleware.LoginIsPublicAndAuth | src/middleware.ts:13-29 | `/auth/login` is on both the public list and the auth list. |
| Middleware.MatcherIsProtectedAndAuth | src/middleware.ts:58-65 | The matcher is exactly the protected paths followed by the auth routes. |
| Middleware.SubPathNotMatched | src/middleware.ts:46-65 | As written: `/profile/settings` without a token passes the matcher, although the gate would redirect it. |
| Middleware.HandleWithSubPaths | src/middleware.ts:46-65 | Corrected: the gate also runs on every sub-path of a matched path. |
| Middleware.WidenedMatcherAgrees | src/middleware.ts:58-65 | On the listed paths, the corrected matcher decides as the original does. |
| Middleware.ProtectedSubPathsGated | src/middleware.ts:46-52 | With the corrected matcher, every sub-path of a protected path without a token goes to login with itself as callback. |
| ApiResponse.SuccessResponse | src/lib/api-response.ts:16-29 | `success` is true, the data is carried, and there are no errors; the message and status are the ones given. |
| ApiResponse.ErrorResponse | src/lib/api-response.ts:34-47 | `success` is false, there is no data, the errors pass through, and the message and status are the ones given. |
| ApiResponse.ValidationErrorResponse | src/lib/api-response.ts:52-56 | Status 400, a failure without data, with the fixed validation message and the given errors. |
| ApiResponse.UnauthorizedResponse | src/lib/api-response.ts:61-65 | Status 401, a failure without data, with the message. |
| ApiResponse.ForbiddenResponse | src/lib/api-response.ts:70-74 | Status 403, a failure without data, with the message. |
| ApiResponse.NotFoundResponse | src/lib/api-response.ts:79-83 | Status 404, a failure without data, with the message. |
| ApiResponse.ServerErrorResponse | src/lib/api-response.ts:88-92 | Status 500, a failure without data, with the message. |
| ApiResponse.HelpersAgree | src/lib/api-response.ts:16-92 | Every helper has data exactly when it succeeds, and every fixed-status helper gives a well-formed response whose `success` agrees with its status class. |
| ApiResponse.DefaultStatuses | src/lib/api-response.ts:16-47 | When no status is given, success defaults to 200 with the default message, and error defaults to 500 with no errors. |
| ApiHandler.TrimStart | src/lib/api-handler.ts:62-63 | `parseInt` first skips exactly the leading whitespace. |
| ApiHandler.DigitPrefix | src/lib/api-handler.ts:62-63 | The longest run of leading decimal digits. |
| ApiHandler.ParseDecimal | src/lib/api-handler.ts:62-63 | `parseInt` of a decimal numeral, optionally signed, is its value whatever non-digit text follows it. |
| ApiHandler.ParseSignedDecimal | src/lib/api-handler.ts:62-63 | A leading `-` negates the value and a leading `+` keeps it. |
| ApiHandler.ParseUnsigned | src/lib/api-handler.ts:62-63 | Text starting with a digit is read as its digit prefix. |
| ApiHandler.ParseSigned | src/lib/api-handler.ts:62-63 | A sign followed by text is the signed reading of the digits after it. |
| ApiHandler.ParseNaN | src/lib/api-handler.ts:62-63 | The result is NaN exactly when no digit follows the leading whitespace and an optional sign. |
| ApiHandler.ParseLeadingSpace | src/lib/api-handler.ts:62-63 | `" 42"` reads as 42. |
| ApiHandler.ParseFraction | src/lib/api-handler.ts:62-63 | `"3.9"` reads as 3. |
| ApiHandler.ParseHexPrefix | src/lib/api-handler.ts:62-63 | `"0x10"` reads as 0 in base 10. |
| ApiHandler.ParseSignOnly | src/lib/api-handler.ts:62-63 | A lone `-` is NaN. |
| ApiHandler.QueryGet | src/lib/api-handler.ts:60-66 | `searchParams.get` is null iff the key is absent; otherwise it is the first value of that key. |
| ApiHandler.OrElse | src/lib/api-handler.ts:62-64 | `value \|\| fallback`: a missing or empty value gives the fallback. |
| ApiHandler.GetQueryParams | src/lib/api-handler.ts:59-68 | `page` and `limit` are parsed with their defaults "1" and "10", and `search` defaults to "". `prefecture` and `skillLevel` are passed through. |
| ApiHandler.QueryDefaults | src/lib/api-handler.ts:62-66 | When none of the five keys has a value, page is 1, limit is 10 and search is empty. |
| ApiHandler.QueryPageGiven | src/lib/api-handler.ts:62 | A page given as a numeral, with any non-digit tail, is that number. |
| ApiHandler.DefaultReadings | src/lib/api-handler.ts:62-63 | The default texts read as 1 and 10. |
| ApiHandler.EmptyQuery | src/lib/api-handler.ts:59-68 | An empty query gives page 1, limit 10, an empty search and null filters. |
| ApiHandler.FormatPath | src/lib/api-handler.ts:47 | Each path element becomes its string, in order. |
| ApiHandler.FormatIssues | src/lib/api-handler.ts:46-49 | Each issue maps, in order, to its path as strings and its message. |
| ApiHandler.FormatOnFields | src/lib/api-handler.ts:46-49 | Formatted errors name only fields that the issues named. |
| ApiHandler.ValidateRequest | src/lib/api-handler.ts:37-54 | A body that is not JSON rethrows its error. Schema issues throw the 400 validation response with the formatted issues. Otherwise the parsed body is returned; that happens exactly when the body is JSON and passes the schema. |
| ApiHandler.ApiHandler | src/lib/api-handler.ts:14-32 | The handler's outcome is passed on unchanged. A thrown error is logged as a validation error or an unexpected one, a successful outcome logs nothing. |
| ApiHandler.ContextPrefix | src/lib/api-handler.ts:22 | An empty context gives no prefix; otherwise the prefix is the context in brackets. |
| ApiHandler.AsResponse | src/app/api/circles/route.ts:109-111 | A caught response is returned as is: the same status, success flag, message and errors. |
| Validations.Report | src/lib/validations.ts:8-55 | A schema passes iff every rule holds; it reports each failed rule's issue and nothing else. |
| Validations.ReportOnFields | src/lib/validations.ts:8-55 | Issues only name the fields the rules are on. |
| Validations.UserIssues | src/lib/validations.ts:8-18 | Accepted iff the name has at least 2 UTF-16 code units, the email is valid and the password has at least 8. A short name is the first issue. |
| Validations.AstralNameMeetsMinimum | src/lib/validations.ts:8-18 | A name of one character outside the Basic Multilingual Plane counts as 2 code units and meets the name minimum. |
| Validations.LoginIssues | src/lib/validations.ts:20-27 | Accepted iff the email is valid and the password has at least 8 UTF-16 code units. |
| Validations.SignupIssues | src/lib/validations.ts:29-34 | Accepted iff the user rules pass and the passwords match. A mismatch is the last issue, reported on `confirmPassword`. |
| Validations.MismatchAloneRejects | src/lib/validations.ts:29-34 | When only the passwords differ, the sole issue is the mismatch on `confirmPassword`. |
| Validations.CircleIssues | src/lib/validations.ts:37-55 | Accepted iff the five text fields are non-empty, the three lists have an entry each, the fee is not negative and the website is absent or a URL. A negative fee is reported on `fee`. |
| Validations.AllOkOfTen | src/lib/validations.ts:37-55 | Ten rules all hold iff each of the ten holds. |
| Validations.OptionalFieldsFree | src/lib/validations.ts:47-54 | The address, member count, facilities, equipment, age groups and gender ratio never change the verdict. |
| Validations.CirclePatchIssues | src/app/api/circles/route.ts:130 | `circleSchema.partial()`: a missing field is accepted, and a given field obeys its full-schema rule. |
| Validations.PartialAgreesWithFull | src/app/api/circles/route.ts:130 | A patch with every field given gets the full schema's verdict, and the empty patch is accepted. |
| CirclesRoute.Where | src/app/api/circles/route.ts:23-49 | The AND list holds no empty condition and always holds the recruiting condition. Its conditions come from the candidate list, in order. |
| CirclesRoute.DropEmptyKeepsMeaning | src/app/api/circles/route.ts:41-48 | Dropping the empty conditions does not change which circles match. |
| CirclesRoute.ListedIff | src/app/api/circles/route.ts:23-49 | A circle is listed iff all of these hold: it is recruiting, an empty search or its name or description contains the term ignoring case, no prefecture or an equal one, and no level or a skill level that contains it. |
| CirclesRoute.ListedAllCandidates | src/app/api/circles/route.ts:23-49 | The listing accepts a circle exactly when all four candidate entries hold, the empty ones included. |
| CirclesRoute.CandidatesHold | src/app/api/circles/route.ts:23-47 | The four candidate entries hold exactly when the circle is recruiting and meets each given filter. |
| CirclesRoute.NoFiltersOnlyRecruiting | src/app/api/circles/route.ts:23-49 | Without filters, the only condition is recruiting. |
| CirclesRoute.CeilDiv | src/app/api/circles/route.ts:77 | `ceil(total/limit)`: the least page count whose pages hold all rows. |
| CirclesRoute.Page | src/app/api/circles/route.ts:57-58 | `skip`/`take`: the rows from position `skip` on, as many as `take` allows and the input has left, so `min(take, n - skip)` of them. Nothing is returned once `skip` passes the end. |
| CirclesRoute.PagesCover | src/app/api/circles/route.ts:57-77 | Every page up to the page count is non-empty, and every page after it is empty. |
| CirclesRoute.ListedRows | src/app/api/circles/route.ts:23-69 | The matching circles, in table order. |
| CirclesRoute.ListPage | src/app/api/circles/route.ts:55-82 | The page holds the matching circles from position `(page - 1) * limit`, at most `limit` of them. The total is the number that match, and `pages` is the ceiling of total over limit, or null when the limit is 0. The current page and limit are echoed. |
| CirclesRoute.PageWithin | src/app/api/circles/route.ts:57-58 | Every row of a page is a row of the input. |
| CirclesRoute.ListedPageWithin | src/app/api/circles/route.ts:52-58 | Every circle on the requested page is a circle of the table that the filter accepts. |
| CirclesRoute.PageFromTable | src/app/api/circles/route.ts:55-69 | When the ordered rows are exactly the table's rows, newest first, a page lists only table rows that match, newest first. |
| CirclesRoute.Get | src/app/api/circles/route.ts:18-87 | It succeeds exactly when the page and limit are usable; otherwise it is the 500 listing failure. |
| CirclesRoute.DefaultListing | src/app/api/circles/route.ts:18-87 | With no query, the result is the first 10 matching circles. |
| CirclesRoute.ListPageNewestFirst | src/app/api/circles/route.ts:68 | When the table is newest first, so is every page. |
| CirclesRoute.SubsequenceNewestFirst | src/app/api/circles/route.ts:68 | An order-preserving selection keeps newest-first order. |
| CirclesRoute.ApplyPatch | src/app/api/circles/route.ts:142-148 | A patch that gives every field equal to the circle's own leaves it unchanged. |
| CirclesRoute.PatchKeepsValid | src/app/api/circles/route.ts:130-148 | A valid circle stays valid under a patch that passes the partial schema. |
| CirclesRoute.EmptyPatchIdentity | src/app/api/circles/route.ts:142-148 | The empty patch changes nothing. |
| CirclesRoute.CircleTable.Post | src/app/api/circles/route.ts:92-115 | Invalid JSON is a 500 and invalid data a 400, both leaving the table unchanged. Otherwise the validated data is stored under the new id with recruiting forced on, and the answer is 201. |
| CirclesRoute.CircleTable.Put | src/app/api/circles/route.ts:120-161 | A missing id is a 400 and an unknown id a 404. A patch failing the partial schema is a 500. All three leave the table unchanged. Otherwise only that circle is patched. |
| CirclesRoute.CircleTable.Delete | src/app/api/circles/route.ts:166-194 | A missing id is a 400 and an unknown id a 404, both leaving the table unchanged. Otherwise exactly that circle is removed, and the table stays valid. |
| CirclesRoute.DeleteKeepsValid | src/app/api/circles/route.ts:185-187 | Removing a row keeps every other row valid and keyed by its id. |
| CirclesRoute.PatchKeepsIdentity | src/app/api/circles/route.ts:142-148 | A patch changes a circle's data, not its id, recruiting flag, creation time or aggregates. |
| CirclesRoute.CreatedIsListed | src/app/api/circles/route.ts:97-105 | The default filter accepts a newly created circle, since it is recruiting. |
| CirclesRoute.CreatedFirstOnDefaultPage | src/app/api/circles/route.ts:55-105 | A circle created after all others is the first circle of the default listing's first page. |
| SignupRoute.WithoutPassword | src/app/api/auth/signup/route.ts:43-49 | The reply carries the id, name, email and timestamps, and no password. |
| SignupRoute.UniqueEmails | src/app/api/auth/signup/route.ts:20-40 | In a well-formed table, two different keys belong to users with different emails. |
| SignupRoute.UserTable.Signup | src/app/api/auth/signup/route.ts:15-63 | Invalid JSON is a 500 and invalid data a 400. A taken email is a 409 and a taken id a 500. None of these changes the table. Otherwise exactly one user is added, with the hashed password, and the answer is 201 without the password. The table stays well formed. |
| SignupRoute.InsertKeepsUnique | src/app/api/auth/signup/route.ts:31-40 | Inserting a user with a new email and a new id keeps emails unique and adds one key. |
| SignupRoute.SignupAddsOneEmail | src/app/api/auth/signup/route.ts:31-40 | The key set grows by exactly the new email. |
| Auth.Authorize | src/lib/auth.ts:30-63 | A user is returned iff both fields are filled, the email is known, the user has a stored password and `compare` accepts. The result is that user's id, email, name and image. |
| Auth.AuthorizeReturnsThatUser | src/lib/auth.ts:57-62 | The user signed in has the email that was typed. |
| Auth.NoPasswordNoSignIn | src/lib/auth.ts:43-45 | A user without a stored password can never sign in. |
| Auth.Jwt | src/lib/auth.ts:101-106 | The token gets the user's id when there is a user; otherwise it is unchanged. |
| Auth.SessionCallback | src/lib/auth.ts:109-114 | The session user's id becomes the token's id when both exist; nothing else changes. |
| Auth.SignInThenRead | src/lib/auth.ts:101-114 | After sign-in, the session reads back the signed-in user's id. |
| DbHelpers.RatingsOf | src/lib/db-helpers.ts:10-20 | The ratings of exactly that circle's reviews: each rating comes from one of them, and each of them contributes its rating. |
| DbHelpers.RatingsOfAppend | src/lib/db-helpers.ts:10-20 | A new review of the circle adds its rating at the end; a review of another circle adds nothing. |
| DbHelpers.RatingsOfCount | src/lib/db-helpers.ts:10-20 | The stored review count is the number of positions holding a review of that circle. |
| DbHelpers.ReviewCountSnoc | src/lib/db-helpers.ts:10-20 | One more review adds one to the count exactly when it is a review of that circle. |
| DbHelpers.SumBounds | src/lib/db-helpers.ts:19-20 | Ratings from 1 to 5 sum to between n and 5n. |
| DbHelpers.AverageBounds | src/lib/db-helpers.ts:19-20 | The average is 0 without reviews, and otherwise between 1 and 5. |
| DbHelpers.CountActive | src/lib/db-helpers.ts:35-41 | The count of that circle's active members, at most the number of members. |
| DbHelpers.CountActiveAppend | src/lib/db-helpers.ts:35-41 | A new member adds one exactly when it is an active member of that circle. |
| DbHelpers.UpdateCircleRating | src/lib/db-helpers.ts:8-27 | An unknown circle rethrows, leaving the table unchanged. Otherwise only that circle's average and count are rewritten, after which they agree with its reviews. The table stays valid. |
| DbHelpers.UpdateCircleMemberCount | src/lib/db-helpers.ts:33-47 | An unknown circle rethrows, leaving the table unchanged. Otherwise only that circle's member count is rewritten, after which it agrees with its active members. The table stays valid. |
| DbHelpers.RatingStaysConsistent | src/lib/db-helpers.ts:8-27 | A review of another circle leaves a consistent circle consistent. |
| DbHelpers.RatingStale | src/lib/db-helpers.ts:8-27 | A new review of the circle itself leaves its stored aggregates stale until it is updated. |
| DbHelpers.MemberCountStaysConsistent | src/lib/db-helpers.ts:33-47 | A member of another circle, or one that is not active, leaves a consistent member count consistent. |
| DbHelpers.Placeholder | src/lib/db-helpers.ts:77-97 | `$k` is a dollar sign followed by k in decimal. |
| DbHelpers.PlaceholderInjective | src/lib/db-helpers.ts:77-97 | Different positions get different placeholders. |
| DbHelpers.WhereClause | src/lib/db-helpers.ts:102-103 | A non-empty condition list gives a clause starting with `WHERE `. |
| DbHelpers.GivenFilters | src/lib/db-helpers.ts:71-97 | At most three filters. The search term comes first exactly when it is given. |
| DbHelpers.NumberedPush | src/lib/db-helpers.ts:71-97 | Each push keeps the k-th condition on placeholder `$k` bound to the k-th parameter. |
| DbHelpers.FullTextWhere | src/lib/db-helpers.ts:65-103 | One condition per given filter, the k-th on `$k`, and the recruiting condition last. |
| DbHelpers.NumberedWhere | src/lib/db-helpers.ts:65-103 | Numbered conditions followed by the recruiting condition are the full-text conditions of those filters. |
| DbHelpers.FullTextConditions | src/lib/db-helpers.ts:65-103 | One condition per given filter, each on the placeholder of its parameter's position, followed by the recruiting condition. They are the full-text conditions of the given filters. |
| DbHelpers.DataQueryParts | src/lib/db-helpers.ts:106-130 | The data query contains its ORDER BY and its tail. |
| DbHelpers.CountQueryWhere | src/lib/db-helpers.ts:106-110 | The count query is the count prefix followed by the joined WHERE clause. |
| DbHelpers.FullTextSearch | src/lib/db-helpers.ts:53-142 | The parameters are the filter values followed by limit and offset (defaults page 1, limit 10). The count query is the count over the given filters' conditions. The page query has the same WHERE clause, orders by rank on `$1` when a term is given and newest first otherwise, and its LIMIT and OFFSET name the last two positions. |
| DbHelpers.LocationConditions | src/lib/db-helpers.ts:172-190 | `$1..$3` are longitude, latitude and radius, and the level filter, when given, is `$4`. The recruiting condition comes last. They are the location conditions of that level. |
| DbHelpers.LocationWhere | src/lib/db-helpers.ts:172-190 | The distance condition first, the recruiting condition last, and three conditions exactly when a level is given. |
| DbHelpers.LocationSearch | src/lib/db-helpers.ts:148-230 | The radius defaults to 10, and limit and offset bind the two positions after the filters. The count query counts over the location conditions; the page query has the same WHERE clause, selects the distance, orders by it and ends with LIMIT and OFFSET on those positions. |
| DbHelpers.LocationCountContains | src/lib/db-helpers.ts:172-200 | The count query holds the distance condition on `$1`, and the level condition on `$4` when a level is given. |
| DbHelpers.JoinEndsWithLast | src/lib/db-helpers.ts:102-103 | The joined conditions end with the last condition. |
| DbHelpers.FullTextWhereRecruiting | src/lib/db-helpers.ts:100-103 | The WHERE clause is never empty and ends with the recruiting condition. |
| SearchPage.FilteredIsMatchingSubsequence | src/app/search/page.tsx:136-159 | The result is exactly the sample circles that match, in their order, and each is within the fee limit. |
| SearchPage.WeeklyMultipleAcceptsBiweekly | src/app/search/page.tsx:150-157 | "Several times a week" also accepts "every other week" (隔週). |
| SearchPage.OncePerWeekIsWeekly | src/app/search/page.tsx:152-153 | 週1回 is weekly and not several times a week. |
| SearchPage.UnknownLevelIsAdvanced | src/app/search/page.tsx:145-148 | Any level other than beginner or intermediate looks for 上級者. |
| SearchPage.OnlyFeeFilter | src/app/search/page.tsx:136-158 | With no other filter, only the fee limit decides. |
| SearchPage.StartShowsAll | src/app/search/page.tsx:110-159 | The initial filters show every sample circle. |
| SearchPage.SearchState.constructor | src/app/search/page.tsx:110-115 | An empty term, prefecture and lists, a maximum fee of 10000 and the panel closed. |
| SearchPage.SearchState.ToggleSkillLevel | src/app/search/page.tsx:118-124 | The level list is toggled and nothing else changes. |
| SearchPage.SearchState.ToggleFrequency | src/app/search/page.tsx:127-133 | The frequency list is toggled and nothing else changes. |
| SearchPage.SearchState.SetSearchTerm | src/app/search/page.tsx:173 | Only the term changes. |
| SearchPage.SearchState.SetSelectedPrefecture | src/app/search/page.tsx:198 | Only the prefecture changes. |
| SearchPage.SearchState.SetMaxFee | src/app/search/page.tsx:252 | Only the maximum fee changes. |
| SearchPage.SearchState.ToggleFilterPanel | src/app/search/page.tsx:180 | Only the panel flag flips. |
| SearchPage.SearchState.ResetFilters | src/app/search/page.tsx:264-269 | The filters return to their defaults and the term is kept. |
| SearchPage.SearchState.ResetAll | src/app/search/page.tsx:356-362 | Everything returns to its default, so every sample circle is shown. |
| Common.Toggle | src/app/search/page.tsx:118-124 | A present id is removed, with every other kept; an absent id is appended. |
| Common.ToggleTwiceAbsent | src/app/search/page.tsx:118-133 | Toggling an absent id twice restores the list. |
| Common.RemoveAll | src/components/ui/filter-sidebar.tsx:194 | Every copy of the value goes and every other value stays. |
| Common.Lower | src/app/api/circles/route.ts:29-38 | Lower-casing keeps the length and folds each capital letter. |
| Common.LowerIdempotent | src/app/search/page.tsx:139 | Lower-casing twice is lower-casing once. |
| Common.Utf16Length | src/lib/validations.ts:8-18 | The length zod counts for `.min`: one code unit per character, two for a character beyond U+FFFF, so between the character count and twice it. |
| RegisterCircle.FormIssues | src/app/register-circle/page.tsx:12-24 | Accepted iff the name has at least 2 UTF-16 code units and the description at least 20, and prefecture, city and frequency are given. Also each of days, levels and facilities needs an entry, the fee must not be negative, and the terms must be accepted. Empty facilities are reported on `facilities`. |
| RegisterCircle.AddressIsFree | src/app/register-circle/page.tsx:17 | The address never changes the verdict. |
| RegisterCircle.NonEmptyEntries | src/app/register-circle/page.tsx:105-144 | The non-empty entries, in order. |
| RegisterCircle.AppendEmptyEntry | src/app/register-circle/page.tsx:88-144 | A new empty field adds nothing to the submitted facilities. |
| RegisterCircle.RemoveAt | src/app/register-circle/page.tsx:95-96 | `splice(index, 1)`: that one position goes, the rest close up, and an index past the end changes nothing. |
| RegisterCircle.ImageFormEntries | src/app/register-circle/page.tsx:157-159 | The i-th entry is `image-i` with the i-th file. |
| RegisterCircle.ImageKeysDistinct | src/app/register-circle/page.tsx:157-159 | Different positions give different keys. |
| RegisterCircle.RegisterForm.constructor | src/app/register-circle/page.tsx:60-84 | The default values, one empty facility field and no images. |
| RegisterCircle.RegisterForm.EditRegistered | src/app/register-circle/page.tsx:261-582 | Typing into the registered inputs sets those values and leaves days, levels, facilities and images alone. |
| RegisterCircle.RegisterForm.AddFacilityField | src/app/register-circle/page.tsx:88-90 | An empty field is appended. The list keeps at least one field, and the form value stays in step. |
| RegisterCircle.RegisterForm.RemoveFacilityField | src/app/register-circle/page.tsx:93-99 | As written: a field is removed only when there is more than one, and the form value is not updated. |
| RegisterCircle.RegisterForm.RemoveFacilityFieldSynced | src/app/register-circle/page.tsx:93-107 | Corrected: as above, and the form value becomes the non-empty remaining fields. |
| RegisterCircle.RegisterForm.UpdateFacility | src/app/register-circle/page.tsx:102-107 | Only that position changes, and the form value becomes the non-empty fields in order. |
| RegisterCircle.RegisterForm.HandleImageUpload | src/app/register-circle/page.tsx:110-129 | An upload that would take the count past 5 is refused whole (with an alert). Otherwise the images are appended. The count stays at most 5. |
| RegisterCircle.RegisterForm.RemoveImage | src/app/register-circle/page.tsx:132-135 | Exactly the images with that id go, and the others keep their order. |
| RegisterCircle.RegisterForm.ToggleDay | src/app/register-circle/page.tsx:194-200 | The day list is toggled and nothing else changes. |
| RegisterCircle.RegisterForm.ToggleLevel | src/app/register-circle/page.tsx:203-209 | The level list is toggled and nothing else changes. |
| RegisterCircle.RegisterForm.Submit | src/app/register-circle/page.tsx:138-185 | Invalid values are rejected with their issues. Otherwise the submission carries the non-empty facilities and the numbered images. When the form value was in step, what is submitted passes the schema. |
| RegisterCircle.StaleFacilityAccepted | src/app/register-circle/page.tsx:93-144 | As written: after filling a second facility and removing it, the form is submitted with no facilities, which the schema would reject. |
| RegisterCircle.StaleFacilityRejected | src/app/register-circle/page.tsx:93-144 | Corrected: the same steps are rejected with the facilities issue. |
| ImageGallery.StepsStayInRange | src/components/ui/image-gallery.tsx:36-42 | Next and previous keep an in-range index in range. |
| ImageGallery.StepsAreModular | src/components/ui/image-gallery.tsx:36-42 | Next is +1 and previous is -1, modulo the number of images. |
| ImageGallery.StepsAreInverse | src/components/ui/image-gallery.tsx:36-42 | Previous undoes next, and next undoes previous. |
| ImageGallery.NextTimesWraps | src/components/ui/image-gallery.tsx:36-38 | Up to a full round, k presses of next move k places, wrapping once. |
| ImageGallery.FullCycleReturns | src/components/ui/image-gallery.tsx:36-38 | One press per image comes back to the start. |
| ImageGallery.Gallery.constructor | src/components/ui/image-gallery.tsx:32-34 | The index is `initialIndex` (0 by default) and the enlarged view is closed. |
| ImageGallery.Gallery.GoNext | src/components/ui/image-gallery.tsx:36-38 | The index moves to its cyclic successor; the index stays in range. |
| ImageGallery.Gallery.GoPrev | src/components/ui/image-gallery.tsx:40-42 | The index moves to its cyclic predecessor; the index stays in range. |
| ImageGallery.Gallery.HandleKeyDown | src/components/ui/image-gallery.tsx:44-52 | Left steps back and right steps forward. Escape closes the enlarged view; any other key changes nothing. |
| ImageGallery.Gallery.SelectThumbnail | src/components/ui/image-gallery.tsx:135 | The clicked thumbnail's image is shown. |
| ImageGallery.Gallery.OpenLightbox | src/components/ui/image-gallery.tsx:85 | The enlarged view opens on the same image. |
| ImageGallery.Gallery.CloseLightbox | src/components/ui/image-gallery.tsx:159-166 | The enlarged view closes on the same image. |
| Accordion.InitialExpanded | src/components/ui/accordion.tsx:27 | The default value, when non-empty, is open; otherwise nothing is. |
| Accordion.ClickUpdate | src/components/ui/accordion.tsx:87-96 | The item opens iff it was not open; otherwise nothing is open. |
| Accordion.Trigger | src/components/ui/accordion.tsx:73-121 | It throws outside an item. Otherwise `aria-expanded` is whether its item is the open one. |
| Accordion.Content | src/components/ui/accordion.tsx:133-162 | It throws outside an item. Otherwise it is hidden unless its item is the open one. |
| Accordion.TriggerAndContentAgree | src/components/ui/accordion.tsx:106-156 | The trigger controls its content, and the content is labelled by its trigger. The content shows exactly when the trigger is expanded. |
| Accordion.AtMostOneShown | src/components/ui/accordion.tsx:145-156 | Two different items are never shown together. |
| Accordion.DistinctItemsDistinctIds | src/components/ui/accordion.tsx:149 | Different items have different content ids. |
| Accordion.ClosedItemMarkedOpen | src/components/ui/accordion.tsx:59 | As written: a closed item with value "faq" is marked `data-state="open"`. |
| Accordion.ItemDataState | src/components/ui/accordion.tsx:59 | Corrected: "open" exactly while the item's content is shown. |
| Accordion.AccordionState.constructor | src/components/ui/accordion.tsx:27 | It starts from the initial value. |
| Accordion.AccordionState.Click | src/components/ui/accordion.tsx:85-96 | A disabled item changes nothing. Otherwise the item toggles, and no other item is left open. |
| Accordion.ClickTwiceCloses | src/components/ui/accordion.tsx:87-96 | Two clicks restore an open item and close everything otherwise. |
| Checkbox.CheckboxState.constructor | src/components/ui/checkbox.tsx:15 | `checked` starts as the property, or false. |
| Checkbox.CheckboxState.SyncProps | src/components/ui/checkbox.tsx:18-22 | The effect runs only when the `checked` property changes: then a defined value overrides the flag, and an undefined one keeps it. An unchanged property keeps the flag, even after a click. |
| Checkbox.CheckboxState.HandleClick | src/components/ui/checkbox.tsx:25-43 | A disabled box ignores the click. Otherwise the flag flips and, when there is an `onChange`, the new value is reported with the name and value. |
| Checkbox.CheckboxState.ClickThenSameProps | src/components/ui/checkbox.tsx:18-29 | A click followed by a re-render with the same properties keeps the flipped flag. |
| Checkbox.CheckboxState.HandleKeyDown | src/components/ui/checkbox.tsx:46-52 | Space and Enter on an enabled box act as a click and suppress the default. Any other key, or a disabled box, changes nothing. Nothing is reported without an `onChange`. |
| Checkbox.CheckboxState.ClickTwice | src/components/ui/checkbox.tsx:28-29 | Two clicks restore the flag; the reports carry the flipped and then the original value. |
| FilterSidebar.BadgeShownByKind | src/components/ui/filter-sidebar.tsx:83 | Undefined, "", 0 and empty lists have no badge; every other value has one. |
| FilterSidebar.Badges | src/components/ui/filter-sidebar.tsx:81-99 | One badge per filter that has one, in the order of the filters. |
| FilterSidebar.RemoveBadge | src/components/ui/filter-sidebar.tsx:91 | That filter becomes undefined and loses its badge; every other filter keeps its value. |
| FilterSidebar.Characters | src/components/ui/filter-sidebar.tsx:192 | Spreading a string gives its characters. |
| FilterSidebar.OptionChange | src/components/ui/filter-sidebar.tsx:189-196 | Ticking appends the option to the list, with a missing list read as empty. Unticking removes every copy. A non-empty string or a non-zero number cannot be filtered, so it throws; a string is spread when ticked. |
| FilterSidebar.OptionChangeChecks | src/components/ui/filter-sidebar.tsx:185-196 | After a change, the box shows what was asked for and every other option is as it was. |
| FilterSidebar.TickUntickRestores | src/components/ui/filter-sidebar.tsx:189-196 | Ticking then unticking an unticked option restores the list. |
| FilterSidebar.SliderValue | src/components/ui/filter-sidebar.tsx:209 | The active value, else the minimum, else 0, each only when not false-like. |
| FilterSidebar.SliderStep | src/components/ui/filter-sidebar.tsx:208 | The category's step, or 1 when it is missing or zero; never zero. |
| FilterSidebar.SliderMoveRoundTrip | src/components/ui/filter-sidebar.tsx:209-210 | A move to a non-zero value is shown back and has a badge. |

## Left out

- Prisma, bcrypt and zod internals. The tables are maps held by classes. `hash`, `compare`, `isEmail` and `isUrl` are parameters, and so are new ids and the current time.
- Query execution. PostgreSQL ranking, PostGIS distances and running the raw SQL are not modelled, and neither is the whitespace inside the SQL texts. The model builds the texts and parameter lists only.
- Transactions and concurrency. The count query and the page query are separate, and so is each aggregate update; interleaving requests are not modelled.
- Token verification. `getToken` is reduced to whether a token is present.
- Database defaults. A new circle is assumed to start with average rating 0 and review count 0. The includes of images and member counts in the listing are not modelled; nor are `socialLinks`, the cascade of deletes to related rows, or `countResult || 0`.
- CirclesRoute.ListPage: a negative `take` (Prisma pages backwards) or a NaN page or limit is modelled as a store error, which the route turns into a 500.
- ApiHandler.ParseDecimal: `parseInt` is modelled on unbounded integers. JavaScript's loss of precision above 2^53 is not modelled.
- Common.Lower: case folding covers ASCII only. The case-insensitive matching of Prisma and `toLowerCase` on other scripts is not modelled.
- The registration form's fee reads `valueAsNumber`. An empty fee field (NaN) is not modelled; the fee is an integer.
- RegisterCircle.RegisterForm.UpdateFacility: an index past the end is excluded. JavaScript would grow the array there, and the form only updates fields it rendered.
- RegisterCircle.RemoveAt: negative `splice` indices are not modelled; the indices are those of rendered fields.
- The non-image fields of the registration `FormData` are not encoded, nor is the `String`/`JSON.stringify` text. Also left out: the object URLs for previews, the alert text, the success redirect timer and the random image ids, which are passed in.
- Logging and console output are not modelled. `ApiHandler.ApiHandler` states which message would be logged.
- Touch, animation, focus and the slider's floating-point tooltip are presentation only.
- The Google and other OAuth providers, the sign-in pages and client redirects are framework I/O.
- The full-text search's comment promises a simple-search fallback on error. The code rethrows, and the model follows the code.
- `/auth/login` is on both the public list and the auth list in `src/middleware.ts`, so the two lists are not disjoint. The model follows the code, and `Middleware.LoginIsPublicAndAuth` records it.
- Request bodies are typed records. zod's type errors and missing-key errors (a body such as `{"name": 123}` is a 400) and its stripping of unknown keys are not modelled; the model starts from a body that already has the schema's shape.
- Validations.CircleInput: the fee is an integer, while `z.number().min(0)` also accepts fractions such as 1500.5.
- CirclesRoute.Circle: `averageRating` is a real number. The rounding of the double Prisma stores is not modelled.
- Common.Utf16Length: Dafny strings hold Unicode scalar values, so a lone surrogate, which a JavaScript string can hold, is not representable.

## Findings

| source | as written | input that shows it | evidently intended | confidence | as-written member | corrected member |
|---|---|---|---|---|---|---|
| src/app/register-circle/page.tsx:93-99 | `removeFacilityField` removes the field but does not copy the remaining non-empty fields into the form value `facilities`, as `updateFacility` does (102-107) | fill the form, add a field, type 体育館 into it, remove it, submit: the form value still holds 体育館, validation passes, and the `onSubmit` cleanup (144) submits an empty facility list | removal updates the form value like an edit does, so the submission is rejected for lacking a facility | not executed | RegisterCircle.StaleFacilityAccepted | RegisterCircle.StaleFacilityRejected |
| src/components/ui/accordion.tsx:59 | `data-state` is `value ? "open" : "closed"`, which depends on the item's value and not on whether it is open | a closed item with value "faq" | "open" exactly while the item is the expanded one | not executed | Accordion.ClosedItemMarkedOpen | Accordion.ItemDataState |
| src/middleware.ts:58-65 | the matcher lists bare paths only, so sub-paths never reach the middleware, although its prefix tests (41, 46) aim to cover them | `/profile/settings` without a token passes | the matcher also covers sub-paths, so every protected sub-path is gated | not executed | Middleware.SubPathNotMatched | Middleware.ProtectedSubPathsGated |
