# HeptaBet core, modelled in Dafny

HeptaBet is a subscription site for football predictions. There are four
subscription tiers, Free, Basic, Standard and Premium. A prediction or a blog
post carries a minimum tier, and the client shows its tip, analysis and
content only to viewers whose tier is high enough. Once a prediction is
settled, its tip is shown to everyone.

The site has three server-side pieces:
- A serverless REST router (`netlify/functions/api.ts`) answers CRUD requests
  on four tables: predictions, users, transactions and blog posts. It also
  handles a plaintext email and password login.
- An AI endpoint (`netlify/functions/ai-analysis.ts`) runs a ladder of
  checks on a bearer token, a Premium subscription and the request body,
  then asks a language model for an analysis.
- A browser store (`services/storage.ts`) seeds `localStorage` once with
  the demonstration data.

The browser keeps its CSRF token and bearer token in `src/services/api.ts`.

This project models those pieces and the client logic around them. Each
Dafny module follows one part of the program:

| module | file | models |
|---|---|---|
| `Wrappers`, `Json`, `Types` | types.dfy | JSON values with JavaScript truthiness, and the enumerations and records of `types.ts` |
| `Access` | access.dfy | tier weights, the three `canView` rules, and the card's badges, colours and buttons |
| `Listing` | listing.dfy | the day table sorted in place by kick-off time, accuracy and win rate, dashboard filters, OTP sanitiser |
| `Card` | card.dfy | the prediction card's analysis state and its re-entry guard |
| `Shell` | shell.dfy | the routing shell of `App.tsx`: page ids, login, register and logout handlers |
| `AiAnalysis` | ai_analysis.dfy | the AI endpoint's ladder of early returns |
| `Gemini` | gemini.dfy | the browser client of that endpoint |
| `ClientApi` | client_api.dfy | the credential store and request wrappers of `src/services/api.ts` |
| `Router` | router.dfy | path normalisation, dispatch, and the tables as a `Database` class |
| `LocalStore` | storage.dfy | the seed-once `localStorage` store as a `Store` class |

The outside world is given to the model as inputs:
- what `fetch` returned, and the JSON parser as a partial function;
- the JWT verifier as a function from the signing secret and the token to the claims;
- the environment variables;
- whether the database connection and the window exist;
- the outcome of the model call;
- a calendar for the relative seed dates.

Parts that change state are classes whose methods are specified by functions
of the old state:
- `Router.Database.Handle` is specified by `Router.Step`.
- `LocalStore.Store.Init` is specified by `LocalStore.Initialised`.
- The methods of `ClientApi.CredentialStore` state the new token state in
  full.
- `Listing.SortByTime` sorts an array in place.

The lemmas then state the properties about those functions.

Where the code and the design description disagree, the model follows the
code:
- The only server login is a SQL match on email and plaintext password.
- The shell's `handleLogin` in App.tsx always sends the literal password
  `password`, whatever was typed; only the login page of src/App.tsx sends the
  typed password.
- No server code checks the CSRF header, keeps sessions, issues reset codes
  or downgrades expired subscriptions.
- The browser updates and deletes items at `/resource/<id>`, but the router
  matches only the bare resource paths. `Router.ItemPathsAreNotRouted`
  proves that every such request ends as "Route not found".

## Model

| member | source | states |
|---|---|---|
| Json.Get | netlify/functions/api.ts:46 | a field of an object is found exactly when the value is an object holding that key |
| Json.ParamOf | netlify/functions/api.ts:86-87 | a missing body field is sent to the database as NULL, a present one as it is |
| Types.ParseTier | types.ts:1-6 | a parsed tier name prints back to the same string; an unknown string matches no tier |
| Types.TierNameRoundTrip | types.ts:1-6 | tier names parse back to their tier and are pairwise distinct |
| Types.ParseRole | types.ts:14 | only 'user' and 'admin' are roles, and each parses back to its own name |
| Types.EnumerationsAreExact | types.ts:30-41 | settled results are exactly Won, Lost and Void; status, result, payment status and method names are the literal strings of the enums and are injective |
| Access.Weight | components/PredictionCard.tsx:17-25 | Free weighs 0, Premium 3, nothing more than 3 |
| Access.WeightIsLadderPosition | components/PredictionCard.tsx:17-25 | the weight is the tier's position on the ladder Free < Basic < Standard < Premium, strictly increasing and injective |
| Access.RawWeightFailsClosed | src/App.tsx:12-20 | on a tier name the string-keyed weight equals the tier's weight; any other string weighs 0 |
| Access.ViewerWeight | components/PredictionCard.tsx:28 | an anonymous viewer weighs 0, a logged-in one the weight of their subscription |
| Access.CanViewPredictionSpec | components/PredictionCard.tsx:30-34 | a settled prediction is always visible; a pending one iff the viewer's weight reaches the minimum tier's; anonymous viewers see exactly Free or settled items; Premium sees everything |
| Access.CanViewPredictionMonotone | src/App.tsx:395-397 | raising the viewer's weight never hides a prediction or a post |
| Access.FreeViewerIsAnonymous | src/App.tsx:361 | a Free subscriber sees exactly what an anonymous visitor sees |
| Access.PostRuleIsPredictionRuleWhilePending | src/App.tsx:521 | the blog rule is the prediction rule for a pending item, the dashboard filter is the blog rule for the user's tier, and anonymous visitors see only Free posts |
| Access.SettledBypassWidensAccess | src/App.tsx:555-556 | a Basic user is refused a Premium post but shown a Premium prediction once it is Void |
| Access.RawRuleAsWritten | App.tsx:415-417 | the rule on raw strings agrees with the typed rule on tier names; an unknown subscription acts as Free; an unknown minimum tier is always visible |
| Access.AiButtonIsPremiumOnly | components/PredictionCard.tsx:186-198 | the AI button shows iff the viewer is Premium; the analysis panel only where the prediction is visible |
| Access.ConfidenceColorBands | components/PredictionCard.tsx:36-40 | green iff confidence is at least 9, yellow iff 7 or 8, grey iff at most 6, and the band never falls as confidence rises |
| Access.StatusBadgePriority | components/PredictionCard.tsx:68-112 | a settled result decides the badge whatever the match status; a pending one shows Live, Finished or the kick-off time; the time badge appears iff pending and scheduled |
| Access.TableCellVersusCardBadge | src/App.tsx:405-408 | the table's status cell agrees with the card's badge for Won, Lost and Live, and is empty exactly for Void |
| Access.TableTipMasking | src/App.tsx:402 | a pending tip above the viewer's weight is locked behind its tier, a settled tip is shown, and a locked tip is always pending and not Free |
| Listing.Filter | src/App.tsx:359 | the kept elements are exactly those of the input that pass, with their multiplicities |
| Listing.SortByTime | src/App.tsx:360 | sorts the array in place by kick-off time and yields a permutation of it |
| Listing.DailyTable | src/App.tsx:359-360 | the day's table is sorted by time, a permutation of the predictions dated on that day, and holds exactly those |
| Listing.RoundedPercent | src/App.tsx:220 | the rounded percentage lies in 0..100, is 0 with no wins and 100 with all wins |
| Listing.RoundedPercentIsNearest | src/App.tsx:220 | the rounded percentage is the integer nearest to 100 * wins / total, halves rounding up |
| Listing.AccuracyRate | src/App.tsx:218-220 | the accuracy rate lies in 0..100 |
| Listing.AccuracyRateSpec | src/App.tsx:218-220 | accuracy is 85 with no Won or Lost prediction, otherwise the rounded share of Won among Won and Lost |
| Listing.SettledCounts | src/App.tsx:218-219 | the settled list holds exactly the Won and the Lost predictions |
| Listing.WinRate | src/App.tsx:431-433 | the win rate lies in 0..100 |
| Listing.WinRateVersusAccuracy | src/App.tsx:431-433 | the win rate is 82 with no settled prediction, otherwise the rounded share of Won among Won, Lost and Void, and it equals the accuracy when there is no Void |
| Listing.NotPendingCount | src/App.tsx:432 | the non-pending count is the number of Won, Lost and Void predictions |
| Listing.AccessiblePredictionsSpec | src/App.tsx:555-556 | a dashboard item is kept iff it is Free or the user's weight reaches its tier, every kept item is visible, and Premium keeps everything |
| Listing.ChartData | src/App.tsx:568-574 | one chart point per day, each computed from that day's predictions |
| Listing.ChartPointBounded | src/App.tsx:568-574 | a day's won and lost counts together never exceed the predictions of that day |
| Listing.MyTransactions | src/App.tsx:575 | the user's transactions are exactly those carrying their user id |
| Listing.DigitsOnly | src/App.tsx:944 | the result holds only digits and is no longer than the input |
| Listing.SanitizeOtp | src/App.tsx:944 | the OTP holds only digits and at most 6 of them |
| Listing.DigitsOnlyIsFilter | src/App.tsx:944 | stripping non-digits is the generic filter with the digit test |
| Listing.SanitizeOtpSpec | src/App.tsx:944 | sanitising is idempotent, leaves a valid code alone, and keeps the first min(6, digits) digits of the input |
| Listing.PasswordsMatch | src/App.tsx:725-728 | the form proceeds iff the two passwords are equal, and otherwise refuses with "Passwords do not match" |
| Card.AnalysisState.constructor | components/PredictionCard.tsx:42-57 | a card starts with no analysis, not loading, with no prompt and no request |
| Card.AnalysisState.BeginAnalysis | components/PredictionCard.tsx:43-48 | without a user the subscribe callback fires and nothing is requested; a request starts iff a user is present and no request is loading |
| Card.AnalysisState.FinishAnalysis | components/PredictionCard.tsx:49-56 | the result, or "Could not load analysis." on a thrown error, is shown, and loading ends |
| Card.DoubleClick | components/PredictionCard.tsx:47 | a second click while loading starts nothing, so two clicks make at most one request |
| Shell.PathOf | App.tsx:799 | every page id navigates to an absolute path |
| Shell.NavigateThenRead | App.tsx:764-769 | reading the page id back after navigating gives home, blog or the page itself |
| Shell.ReadThenNavigate | App.tsx:764-769 | outside the blog, navigating to a path's page id returns to that path, except for '/home' |
| Shell.LoginRequest | App.tsx:737 | the login sends the typed email and always the literal password 'password' |
| Shell.TypedPasswordIsIgnored | App.tsx:737 | what was typed never changes the server's answer, and a login succeeds iff a stored user has that email and the password 'password' |
| Shell.LoginDestination | App.tsx:739-740 | a login lands on '/admin' iff the returned role is admin, otherwise on '/dashboard' |
| Shell.RegisterPayload | App.tsx:748 | the user built on registration keeps the form's fields and always carries subscription Free, role 'user' and today's join date |
| Shell.RegisterBodyAsWritten | App.tsx:749 | the body actually sent carries the whole payload as `name` and no other field |
| Shell.AsWrittenRegistrationIsRefused | App.tsx:749 | that body reaches the INSERT with a NULL id, so the server answers 500 and stores nothing |
| Shell.RegisterBody | App.tsx:748-749 | the intended body is the payload, field for field |
| Shell.IntendedRegistrationIsStored | App.tsx:748-749 | with the payload as the body, the registration answers 201 iff its generated id is new, and stores a free, non-admin user under that id |
| Shell.RegisteredUserIsNotAdmin | App.tsx:682 | a freshly registered user never sees the admin page and lands on the dashboard |
| Shell.AppState.constructor | App.tsx:696-700 | the shell starts with no user, no lists, no alerts, at the location the page was opened at |
| Shell.AppState.HandleLogin | App.tsx:734-744 | the literal password is sent; a non-null answer becomes the user and the shell navigates by role; a `null` answer clears the user and alerts without navigating; a failure adds one alert and changes nothing else |
| Shell.AppState.HandleRegister | App.tsx:746-755 | the body is the payload, as corrected under Findings; on success it becomes the user and the shell goes to '/dashboard'; on failure one alert and nothing else |
| Shell.AppState.HandleLogout | App.tsx:757-762 | logout clears the user, all transactions and all users and returns to '/' |
| Shell.LogoutClosesAdmin | App.tsx:682 | after logout the admin page does not render and the page id is home |
| AiAnalysis.AuthHeader | netlify/functions/ai-analysis.ts:35 | the lowercase 'authorization' header wins when it is non-empty, the capitalised one is the fallback, and no header yields none |
| AiAnalysis.WordLength | netlify/functions/ai-analysis.ts:38 | the first word ends at the first space |
| AiAnalysis.SecondWord | netlify/functions/ai-analysis.ts:38 | a second word exists iff the header holds a space, and it holds no space |
| AiAnalysis.SecondWordOfBearer | netlify/functions/ai-analysis.ts:38 | in 'Bearer <token>' the second word is the token (section 2.1 of RFC 6750) |
| AiAnalysis.Authenticate | netlify/functions/ai-analysis.ts:34-45 | no claims without a header or without a second word; otherwise the claims are the verifier's verdict on that word under `JWT_SECRET`, or under 'secret-key' when that is unset or empty |
| AiAnalysis.Secret | netlify/functions/ai-analysis.ts:41 | the signing secret is never empty: `JWT_SECRET` when set and not empty, else 'secret-key' |
| AiAnalysis.DefaultSecretAccepts | netlify/functions/ai-analysis.ts:41 | with `JWT_SECRET` unset or empty, tokens are checked against the built-in 'secret-key' |
| AiAnalysis.FirstMissing | netlify/functions/ai-analysis.ts:81-86 | none is missing iff every required field is truthy; otherwise the first falsy field in order is named |
| AiAnalysis.Crash | netlify/functions/ai-analysis.ts:158-165 | an unexpected failure is 500 and carries the error message iff NODE_ENV is 'development' |
| AiAnalysis.Handle | netlify/functions/ai-analysis.ts:47-166 | every answer has one of the statuses 200, 400, 401, 403, 405, 429, 500, 504 |
| AiAnalysis.Guarded | netlify/functions/ai-analysis.ts:58-166 | past the method gate the answer is never 405 |
| AiAnalysis.Validated | netlify/functions/ai-analysis.ts:78-166 | past authentication the answer is 200, 400, 429, 500 or 504 |
| AiAnalysis.Answer | netlify/functions/ai-analysis.ts:97-156 | the generation step answers 200, 429, 500 or 504 |
| AiAnalysis.MethodGate | netlify/functions/ai-analysis.ts:49-56 | OPTIONS answers 200 with an empty body before any check; 405 iff the method is neither OPTIONS nor POST |
| AiAnalysis.LadderOrder | netlify/functions/ai-analysis.ts:59-76 | 401 iff unauthenticated, 403 iff authenticated but not Premium, then 400 for a missing body |
| AiAnalysis.FieldAndKeyChecks | netlify/functions/ai-analysis.ts:81-95 | a missing field gives 400 naming it; with every field present, a missing API key gives 500 |
| AiAnalysis.SuccessNeedsEveryCheck | netlify/functions/ai-analysis.ts:59-156 | 200 iff every check passes and the model produced text, and the answer carries the text or the fallback |
| AiAnalysis.ValidatedSuccess | netlify/functions/ai-analysis.ts:78-156 | on a parsed body, success iff the body is not null, has every field, the key is set and generation worked |
| AiAnalysis.GenerationFailures | netlify/functions/ai-analysis.ts:140-148 | an AbortError is 504, an upstream 429 is 429, anything else is the 500 crash reply |
| Gemini.Payload | services/geminiService.ts:27-33 | the request body holds exactly league, homeTeam, awayTeam, date and tip, from the prediction |
| Gemini.Interpret | services/geminiService.ts:46-81 | statuses 401, 403, 429 and 504 each give their fixed message before any other branch; what is shown is never empty or falsy |
| Gemini.InterpretBody | services/geminiService.ts:62-70 | past those statuses, an unparsable or `null` body shows the unavailable notice; a failure shows the body's truthy `error` or the server fallback; a success its truthy `analysis` or the content fallback |
| Gemini.InterpretThrown | services/geminiService.ts:72-81 | a thrown error shows the network message iff it is a TypeError mentioning `fetch`, and the unavailable notice otherwise |
| Gemini.GenerateMatchAnalysis | services/geminiService.ts:18-81 | no request is made iff no token is stored, and then the log-in message is returned; otherwise the bearer request is sent and its answer interpreted |
| Gemini.PayloadMeetsServerCheck | services/geminiService.ts:27-33 | the payload passes the endpoint's field check iff none of the five fields is empty |
| Gemini.ServerReadsClientToken | services/geminiService.ts:36-43 | the header the client builds is read by the endpoint, which extracts exactly the stored token |
| Gemini.ClientShowsServerError | services/geminiService.ts:62-66 | any other endpoint error is shown with the endpoint's own message |
| Gemini.SuccessIsShownVerbatim | services/geminiService.ts:69-70 | a success is shown as the endpoint's analysis, which is the model's text or the fallback |
| Gemini.AvailabilityAgreesWithServer | services/geminiService.ts:89-91 | the client's availability test, the endpoint's Premium check and the tier all agree on Premium only |
| Gemini.Quota | services/geminiService.ts:97-116 | no token gives nothing and no request; with a token a request is always made, and a 2xx answer gives its parsed body, while a result exists only for a 2xx answer |
| ClientApi.StringField | src/services/api.ts:51-53 | a field is adopted only when it holds a non-empty string |
| ClientApi.HeadersSpec | src/services/api.ts:17-34 | headers always carry Content-Type, carry X-CSRF-Token iff the in-memory token is non-empty, Authorization 'Bearer t' iff a token t is stored, and nothing else |
| ClientApi.FailureMessage | src/services/api.ts:45-47 | a failure reports the body's error string when there is one, the TypeError of reading `error` off a `null` body, else the fallback |
| ClientApi.CredentialStore.constructor | src/services/api.ts:8 | the in-memory CSRF token starts as the stored value, or empty |
| ClientApi.CredentialStore.SetCsrfToken | src/services/api.ts:10-15 | an empty token changes nothing; a non-empty one updates memory and the stored copy |
| ClientApi.CredentialStore.GetHeaders | src/services/api.ts:17-34 | the headers are computed from the current token state |
| ClientApi.CredentialStore.AdoptSession | src/services/api.ts:45-53 | a failure, an unparsable body and a `null` body each raise and change nothing; any other successful body is returned and its csrfToken adopted only when present |
| ClientApi.CredentialStore.Login | src/services/api.ts:38-55 | login sends only Content-Type with email and password; it raises and changes nothing unless the answer is 2xx with a non-null body, whose csrfToken it adopts when present |
| ClientApi.CredentialStore.Register | src/services/api.ts:57-74 | registration sends only Content-Type with the four fields; it raises and changes nothing unless the answer is 2xx with a non-null body, whose csrfToken it adopts when present |
| ClientApi.CredentialStore.Logout | src/services/api.ts:76-89 | logout clears the CSRF token, its stored copy and the stored token whatever the request did |
| ClientApi.CredentialStore.GetCurrentUser | src/services/api.ts:117-137 | success returns the user and adopts the token; 401 or 403 clears all tokens; any other failure leaves them untouched |
| ClientApi.CredentialStore.GetList | src/services/api.ts:140-143 | a not-ok list fetch returns an empty list; an ok one its body |
| ClientApi.LogoutThenHeaders | src/services/api.ts:76-89 | after logout the headers are Content-Type alone |
| Router.Find | netlify/functions/api.ts:30 | the first occurrence of the pattern, or none when it never occurs |
| Router.RemoveFirst | netlify/functions/api.ts:30 | removes only the first occurrence, leaving the string alone when there is none |
| Router.RemovePrefix | netlify/functions/api.ts:30 | removing a prefix from a string that starts with it leaves the rest |
| Router.ClientPathsNormalise | netlify/functions/api.ts:30 | a route prefixed with the function path or with '/api' normalises to the route itself |
| Router.ResourceOf | netlify/functions/api.ts:118-218 | each table is named by its path exactly, with or without one trailing slash |
| Router.ActionOn | netlify/functions/api.ts:118-243 | a table's route acts on that table only |
| Router.TrailingSlashIsIgnored | netlify/functions/api.ts:118-218 | a trailing slash dispatches like none, for every method and table |
| Router.RoutedPairs | netlify/functions/api.ts:118-243 | GET is routed everywhere, POST except for users, PUT except for blog posts, DELETE except for transactions |
| Router.ItemPathsAreNotRouted | src/services/api.ts:158-248 | every '/resource/<id>' path the browser uses for PUT and DELETE dispatches to no route |
| Router.Column | netlify/functions/api.ts:87 | a column absent from a row reads as NULL |
| Router.RowFrom | netlify/functions/api.ts:105-112 | an inserted row holds exactly the statement's columns, each from its body field or NULL |
| Router.InsertRow | netlify/functions/api.ts:105-112 | the insert fails iff the id is NULL or already taken, and otherwise appends the row and keeps ids unique |
| Router.UpdateColumns | netlify/functions/api.ts:141-147 | only rows with the given id change, by the stated columns; a NULL id matches nothing; ids stay unique |
| Router.DeleteRow | netlify/functions/api.ts:150-154 | a deletion never lengthens the table |
| Router.DeleteRowMembers | netlify/functions/api.ts:150-154 | exactly the rows with the given id go |
| Router.DeleteRowAbsent | netlify/functions/api.ts:150-154 | with NULL, or an id no row has, the table is unchanged |
| Router.DeleteRowKeyed | netlify/functions/api.ts:150-154 | the primary key still holds after a deletion |
| Router.DeleteRowOfOne | netlify/functions/api.ts:150-154 | a single row goes exactly when it has the id |
| Router.DeleteRowKeepsOrder | netlify/functions/api.ts:150-154 | deleting from a joined table is deleting from each part and joining the results, so the kept rows stay in table order |
| Router.UpdateChanges | netlify/functions/api.ts:141-214 | a prediction PUT sets status and result, a user PUT subscription and expiry, a transaction PUT status, never the id |
| Router.Exposed | netlify/functions/api.ts:93-98 | a returned row keeps its columns and adds each camel-case alias with its column's value |
| Router.FirstMatch | netlify/functions/api.ts:87-91 | none iff no row matches both email and password; otherwise the first matching row |
| Router.Listed | netlify/functions/api.ts:120-221 | a listing returns every row in table order with its aliases |
| Router.QueryId | netlify/functions/api.ts:151 | a missing query id is NULL |
| Router.AnalyzeReply | netlify/functions/api.ts:36-72 | without an API key the answer is 503, and otherwise 200, 500 or 503 |
| Router.Execute | netlify/functions/api.ts:84-245 | every routed step keeps the tables complete, and a 500 changes nothing |
| Router.Step | netlify/functions/api.ts:16-260 | one request keeps every table present with unique non-NULL ids |
| Router.LoginReply | netlify/functions/api.ts:85-102 | the login answers 200 or exactly 401 'Invalid credentials' |
| Router.InsertInto | netlify/functions/api.ts:130-139 | an insert keeps the tables complete, and a 500 changes nothing |
| Router.Database.constructor | netlify/functions/api.ts:16 | the database holds the given tables |
| Router.Database.Handle | netlify/functions/api.ts:16-260 | handling a request sets the tables and the answer to the step of the old tables |
| Router.PreflightFirst | netlify/functions/api.ts:25-27 | OPTIONS answers 200 with an empty body and changes nothing, whatever the database state |
| Router.DatabaseDependence | netlify/functions/api.ts:36-82 | POST /analyze never uses the database and is 503 without a key; every other route is 503 when the database is down |
| Router.UnknownRoute | netlify/functions/api.ts:245 | an unmatched route is 404 with the path in the message and changes nothing |
| Router.LoginRule | netlify/functions/api.ts:85-102 | login succeeds iff some user matches both email and password, returns the first such user, else 401, and never changes the tables |
| Router.RegisterStoresAsSent | netlify/functions/api.ts:104-115 | a registration is stored iff its id is new and not NULL, as a new last row whose role and subscription are as sent; otherwise 500 and nothing changes |
| Router.UpdateTouchesOnlyStatedColumns | netlify/functions/api.ts:141-214 | a PUT changes only the stated columns of the rows with the given id, and no other row or table |
| Router.DeleteRemovesOnlyThatRow | netlify/functions/api.ts:150-242 | a DELETE removes exactly the rows with the query id, and without a query id nothing changes |
| LocalStore.Initialised | services/storage.ts:302-312 | a store without a window or already flagged is left alone; a fresh one gets the four seed lists and the flag, other keys untouched |
| LocalStore.Lookup | services/storage.ts:315-319 | the stored item when there is a window and a truthy item, else the default |
| LocalStore.Written | services/storage.ts:321-324 | the key holds the serialised value and the other keys keep theirs; no window, no change |
| LocalStore.Store.constructor | services/storage.ts:302 | the store starts with the given contents |
| LocalStore.Store.Init | services/storage.ts:302-312 | seeding changes the store as the seed-once function says |
| LocalStore.Store.SetData | services/storage.ts:321-324 | writing changes the store as the write function says |
| LocalStore.Store.GetData | services/storage.ts:315-319 | reading answers as the lookup function says |
| LocalStore.Store.GetUsers | services/storage.ts:326 | the users default to the seed users |
| LocalStore.Store.GetPredictions | services/storage.ts:329 | the predictions default to the seed predictions |
| LocalStore.Store.GetTransactions | services/storage.ts:332 | the transactions default to the seed transactions |
| LocalStore.Store.GetBlogPosts | services/storage.ts:335 | the posts default to the seed posts |
| LocalStore.Store.SaveUsers | services/storage.ts:327 | saving writes the users under their key |
| LocalStore.Store.SavePredictions | services/storage.ts:330 | saving writes the predictions under their key |
| LocalStore.Store.SaveTransactions | services/storage.ts:333 | saving writes the transactions under their key |
| LocalStore.Store.SaveBlogPosts | services/storage.ts:336 | saving writes the posts under their key |
| LocalStore.InitIdempotent | services/storage.ts:306 | a second init changes nothing |
| LocalStore.GettersAfterInit | services/storage.ts:306-319 | after seeding a fresh store every list key reads its seed |
| LocalStore.WriteThenRead | services/storage.ts:315-324 | a write then a read of the same key gives the value written (no window: the default); other keys read as before |
| LocalStore.NoWindowNoStore | services/storage.ts:304-322 | without a window init and write change nothing and every read is the default |
| LocalStore.SeedUsers | services/storage.ts:54-95 | the seed users have distinct ids and admin1 is the only admin |
| LocalStore.SeedPredictions | services/storage.ts:97-233 | seed ids are distinct, confidences lie in 1..10, Won and Lost seeds are Finished, Pending ones Scheduled |

## Left out

- Floating point: the odds are opaque reals.
- Listing.RoundedPercent: the model rounds the exact ratio 100 * wins / total, halves up, while the page rounds the double `(wins / total) * 100`. Where that double falls just below a half, the page shows one less (23 of 40 shows 57, the model gives 58).
- Dates and the clock: `handleDateChange`, `getLast7Days` and `toISOString` are not modelled. The chart takes its list of days as input, and the seed dates come from a calendar parameter.
- Listing.SortByTime: JavaScript's `sort` is stable and this insertion sort is too, but stability is not stated. `localeCompare` on "HH:MM" strings is taken as character-code order.
- Router.Listed: the `ORDER BY date DESC` of the listings is not modelled; rows come back in table order.
- The database schema is not modelled. `id` is taken to be the primary key of each table, and the other database constraints and pg's conversion of parameters to text are left out.
- Router.Execute: a thrown `JSON.parse` on an invalid body is a failure with an opaque detail; the exact exception messages are not modelled.
- Router.AnalyzeReply: the model's text is an input. The case where `response.text` is undefined, which answers 200 with an empty object, is not modelled.
- The AbortController in the AI endpoint is never passed to the call, so no timeout is modelled; only the mapping of error names is.
- The JWT check, the language-model SDK, `fetch` and the pg client are parameters of the model.
- ClientApi.StringField: a `csrfToken` or `error` field holding a non-string truthy value is treated as absent.
- LocalStore.Lookup: the text written directly (the initialised flag) is returned as text rather than parsed; `JSON.parse` is an abstract round trip.
- The three seed posts keep their ids, titles, authors, dates and tiers; their excerpts, contents and image addresses are left empty.
- `forgotPassword`, `resetPassword` and the add, update and delete calls of `src/services/api.ts` are not modelled beyond their paths, which `Router.ItemPathsAreNotRouted` covers.
- Sessions, server-side CSRF checking, reset codes, rate limiting and the expiry downgrade do not exist in this code and are not modelled.
- server.js, `services/api.ts` (beyond the four-parameter signature of its `register`), `components/Layout.tsx`, the JSX rendering, the charts and the CORS headers are not part of this model.
- `Promise.all` and the async handlers are modelled as sequential steps.

## Findings

| source | as written | input that shows it | evidently intended | confidence | as-written member | corrected member |
|---|---|---|---|---|---|---|
| App.tsx:749 | `api.register(newUserPayload)` passes the whole payload as the `name` argument of the four-parameter `register` in services/api.ts:28-36, so the body is `{"name": payload}` with no `id` | any registration form, e.g. name, email, phoneNumber and password all set: the INSERT gets a NULL id, the server answers 500 and the shell alerts "Registration failed" | the payload, generated id included, is the request body, and the server stores it | medium, not executed | Shell.RegisterBodyAsWritten, Shell.AsWrittenRegistrationIsRefused | Shell.RegisterBody, Shell.IntendedRegistrationIsStored |
