# Gold ledger and application lifecycle — a verified model

Users of this system earn "gold" coins by viewing ads. They spend 50 coins to submit an
application, and an administrator later approves or rejects it. This project models three
things and proves properties of each:

- **The backend** (FastAPI over SQLAlchemy). The database is a `Store` object holding the
  users, ads, ad views and applications tables, plus the next autoincrement keys. Each
  endpoint that writes is a method: it either changes the store and returns the new row, or
  returns the HTTPException the endpoint raises, with its exact status and detail text.
  The one exception is registration, whose reply after a successful commit is not modelled
  (see `Backend.Store.RegisterUser` under "Left out").
  The central invariant is kept by every method: each user's balance equals the rewards of
  their views minus the costs of their applications. As long as no ad pays a negative
  reward, no balance becomes negative.
- **The seeding script**, which inserts five sample ads into an empty ads table. It is
  proved to insert exactly those ads, in list order, and to be idempotent.
- **The React client.** Modelled parts:
  - the dashboard's local balance projection;
  - the session store (token slot and user slot);
  - the registration and application forms, with their field rules;
  - the upload slots;
  - the status badges;
  - the admin panel's filter and its pending-only approve/reject buttons.

  Backend replies are parameters of type `Result<T>`, so every success and failure path is
  covered.

Modelling choices:

- Amounts are whole numbers of coins, modelled as `int`.
- Days are abstract integers.
- The authenticated user, which the token dependency resolves, is given as a position in
  the users table.
- Two things that look like defects are modelled as written:
  - A cost of 0 makes the user's list print a bare "0", because React prints a falsy number.
  - The dashboard catches a failed submission instead of rethrowing it, so the application
    form's `handleFormSubmit` always sees success and always resets. This is proved by
    `Dashboard.DashboardState.SubmitApplicationForm`, which composes
    `Dashboard.DashboardState.HandleApplicationSubmit` (whose outcome is always `Done`)
    with `ApplicationForm.ApplicationFormState.HandleFormSubmit`.

Files: `common.dfy` (Option, Result, Error, number formatting), `models.dfy`,
`backend_main.dfy`, `seed_data.dfy`, `status_badge.dfy` (the status switches shared by both
lists), `applications_list.dfy`, `admin_page.dfy`, `dashboard.dfy`, `auth.dfy`,
`register_form.dfy`, `application_form.dfy`.

## Model

| member | source | states |
|---|---|---|
| Common.NatToString | backend/main.py:288 | the decimal text of a natural number is non-empty and all digits, with no leading zero except for 0 itself |
| Common.WholeFloatToString | backend/main.py:288 | a whole-number float prints with a trailing ".0", with a leading '-' exactly when it is negative |
| Common.NatToStringRoundTrip | backend/main.py:288 | the digits printed spell the number back |
| Common.WholeFloatToStringRoundTrip | backend/main.py:288 | the text between the sign and ".0" is all digits and spells the magnitude of the number |
| Models.NewUser | backend/models.py:6-15 | a new user row has balance 0 and is active, with the given id, email, username and hash |
| Models.NewAd | backend/models.py:20-29 | a new ad row is active, with the given title, description, reward and optional image URL |
| Models.NewApplication | backend/models.py:45-56 | a new application is "pending" (one of the three documented statuses) and costs 50, with optional photo and video URLs |
| Models.UniqueAccounts | backend/models.py:9-11 | the definition: the primary key and the `unique=True` email and username columns hold distinct values across the users table |
| Models.UniqueAccountsAppend | backend/models.py:9-11 | appending a user whose id, email and username are all new keeps id, email and username unique |
| Backend.InsufficientFunds | backend/main.py:285-289 | the balance refusal is an HTTP 400 |
| Backend.EarnedByNobody | backend/main.py:137-146 | a user without recorded views has earned 0, so a newly registered user's ledger starts at 0 |
| Backend.SpentByNobody | backend/main.py:137-146 | a user without applications has spent 0 |
| Backend.SpentIgnoresStatus | backend/main.py:359 | rewriting an application's status changes nobody's spending |
| Backend.EarnedConcat | backend/main.py:218-226 | earnings over a history are the sum of the earnings over its parts; `Store.ViewAd` uses it for the one new view row |
| Backend.SpentAtFixedCost | backend/main.py:282-299 | when every application costs 50, a user's spending is 50 times the number of applications they own |
| Backend.BalanceCountsApplications | backend/main.py:218-226 | in a valid database each balance is the user's earnings from views minus 50 for every application they own |
| Backend.Earned | backend/main.py:218-226 | the definition: the sum of `reward_earned` over a user's view rows, each of which `view_ad` credits to the balance |
| Backend.Spent | backend/main.py:282-299 | the definition: the sum of `cost` over a user's application rows, each of which `create_application` debits from the balance |
| Backend.ViewedSince | backend/main.py:207-212 | the definition of the same-day query: some view row by this user of this ad with a day on or after today |
| Backend.UsernameInUse | backend/main.py:120-121 | the definition of `get_user(db, username=...)` finding a row: some user has the username |
| Backend.EmailInUse | backend/main.py:128-129 | the definition of the email query finding a row: some user has the email |
| Backend.ActiveAds | backend/main.py:182 | the result holds exactly the active ads, and is no longer than the table |
| Backend.OwnedBy | backend/main.py:319 | the result holds exactly the applications of the given user |
| Backend.FindActiveAd | backend/main.py:201-203 | finds an ad that has the id and is active; finds none exactly when no such ad exists |
| Backend.FindApplication | backend/main.py:355-357 | returns the first position with the id, or none exactly when no application has it |
| Backend.MaxAdId | backend/models.py:23 | bounds every ad id in the table, so one more is a fresh key |
| Backend.GetApplicationCost | backend/main.py:276-278 | the quoted cost is the 50 coins that `create_application` charges |
| Backend.AfterLastDot | backend/main.py:257 | the result has no '.', and the name ends with "." followed by it: it is the text after the last dot |
| Backend.Extension | backend/main.py:257 | "" for a name without a dot, otherwise the text after the last dot |
| Backend.UploadFile | backend/main.py:239-273 | an image type gives "image", a video type gives "video", anything else is the 400 refusal; the file name is uuid + "." + extension and the URL is "/uploads/" + that name |
| Backend.Store.Valid | backend/models.py:9-11 | the invariant every write keeps: unique user ids, emails and usernames; views and applications refer to existing users; ad and application ids distinct and below the next key; every application costs 50 (backend/main.py:292-296); and `Ledger` |
| Backend.Store.Ledger | backend/main.py:218-226 | the definition of the central invariant: every balance equals the user's `Earned` minus `Spent` — the credit at backend/main.py:226 and the debit at backend/main.py:299 are the only balance updates |
| Backend.Store.Solvent | backend/main.py:285-289 | the definition: no ad pays a negative reward and no balance is negative; kept by every write, because the debit happens only when the balance is at least 50 |
| Backend.Store.constructor | backend/main.py:22-23 | an empty database (apart from any existing ads) satisfies the invariant |
| Backend.Store.InsertAd | backend/seed_data.py:52-54 | appends one active ad row with the next id, keeps the invariant and keeps balances non-negative for a non-negative reward |
| Backend.Store.RegisterUser | backend/main.py:117-146 | a taken username is refused first, then a taken email, with the database unchanged; otherwise exactly one user with balance 0 is appended, and the invariant holds |
| Backend.Store.GetAds | backend/main.py:180-196 | returns the active ads in table order |
| Backend.Store.ViewAd | backend/main.py:198-236 | 404 for an unknown or inactive ad and 400 for a repeat view since today, both with the database unchanged; otherwise one view with the ad's reward is appended and only the caller's balance rises, by that reward; the ledger invariant and non-negative balances are kept |
| Backend.AcceptsApplication | backend/main.py:285 | the definition of the balance test: a balance is accepted exactly when it is not below the cost 50; `CreateApplication` refuses every other balance, and the client's `CanAfford` agrees with it (`ApplicationForm.CanAffordIffServerAccepts`) |
| Backend.Store.CreateApplication | backend/main.py:279-315 | a balance failing `AcceptsApplication` (under 50) is refused with the database unchanged; otherwise one pending application costing 50 is appended and only the caller's balance drops by 50; the ledger invariant and non-negative balances are kept |
| Backend.Store.GetUserApplications | backend/main.py:317-333 | returns exactly the caller's applications, in table order |
| Backend.Store.GetAllApplications | backend/main.py:335-351 | returns every application, in table order |
| Backend.Store.UpdateApplicationStatus | backend/main.py:353-373 | 404 for an unknown id, with nothing changed; otherwise only the first matching application changes, to the body's "status" if present (any value, from any state), and no balance changes |
| SeedData.SeededRows | backend/seed_data.py:19-54 | row i is an active ad with id first + i and sample i's title, description, reward and image |
| SeedData.SeededRowsSnoc | backend/seed_data.py:52-54 | inserting one more sample appends one more row |
| SeedData.AfterSeeding | backend/seed_data.py:13-17 | a non-empty table is left alone; an empty one receives the five sample rows in list order |
| SeedData.SeedingIdempotent | backend/seed_data.py:13-17 | seeding twice yields the same table as seeding once |
| SeedData.SampleRewardsPositive | backend/seed_data.py:19-50 | there are five samples, rewarding 10, 15, 8, 20 and 12, all positive |
| SeedData.InsertSamples | backend/seed_data.py:52-56 | the loop appends the seeded rows of the samples, advances the ad key by their number, keeps the invariant, and leaves the other tables and keys alone |
| SeedData.CreateSampleAds | backend/seed_data.py:9-58 | the ads table becomes `AfterSeeding` of the old one and the ad key advances by 5 exactly when the table was empty; no other table or key changes |
| StatusBadge.ShownAs | frontend/components/ApplicationsList.tsx:11-42 | the three-way split: "approved", "rejected", and every other string |
| StatusBadge.StatusText | frontend/components/ApplicationsList.tsx:22-31 | "Одобрена" exactly for "approved", "Отклонена" exactly for "rejected", "На рассмотрении" for every other string |
| StatusBadge.StatusColor | frontend/components/ApplicationsList.tsx:33-42 | green exactly for "approved", red exactly for "rejected", yellow for every other string |
| StatusBadge.StatusIcon | frontend/components/ApplicationsList.tsx:11-20 | the check mark exactly for "approved", the cross exactly for "rejected", the clock exactly for every other string |
| StatusBadge.BadgeFor | frontend/components/ApplicationsList.tsx:11-42 | approved and rejected get their own text, colour and icon; any other status gets the pending text, yellow colour and clock |
| StatusBadge.BadgeDeterminesBranch | frontend/app/admin/page.tsx:44-75 | two statuses get the same badge, text, colour or icon exactly when they fall in the same branch |
| ApplicationsList.Truthy | frontend/components/ApplicationsList.tsx:69-84 | the definition of the `&&` test on a URL field: present and not "" |
| ApplicationsList.LinkFor | frontend/components/ApplicationsList.tsx:73-94 | a media link is shown exactly when the URL is present and non-empty |
| ApplicationsList.CostSlotFor | frontend/components/ApplicationsList.tsx:102-107 | the coin badge is shown exactly for a non-zero cost; a zero cost prints "0" |
| ApplicationsList.CardFor | frontend/components/ApplicationsList.tsx:57-110 | a card shows the application's id, title, description, status badge, media box, links and cost slot |
| ApplicationsList.CardsFor | frontend/components/ApplicationsList.tsx:56 | one card per application, in input order |
| ApplicationsList.Render | frontend/components/ApplicationsList.tsx:44-56 | the empty state exactly for an empty list, otherwise one card per application in order |
| ApplicationsList.NewApplicationCard | frontend/components/ApplicationsList.tsx:102-107 | an application as the backend creates it shows a 50-coin badge and the pending badge |
| AdminPage.Passes | frontend/app/admin/page.tsx:39-42 | the definition of the filter callback: true for 'all', otherwise exactly when the status equals the filter's key |
| AdminPage.FilterApplications | frontend/app/admin/page.tsx:39-42 | the 'all' filter returns the list unchanged, and no filter lengthens it |
| AdminPage.FilterMembers | frontend/app/admin/page.tsx:39-42 | an application is shown exactly when it is in the list and its status matches the filter |
| AdminPage.FilterKeepsOrder | frontend/app/admin/page.tsx:39-42 | filtering a concatenation concatenates the filtered parts, so the original order is kept |
| AdminPage.FilterIdempotent | frontend/app/admin/page.tsx:112-115 | applying the same filter twice shows what applying it once shows |
| AdminPage.TargetStatus | frontend/app/admin/page.tsx:196-203 | Approve sends "approved" and Reject sends "rejected" |
| AdminPage.ActionsFor | frontend/app/admin/page.tsx:193 | a card has buttons exactly when the status is "pending", and then approve and reject |
| AdminPage.DisplayedCost | frontend/app/admin/page.tsx:156 | the cost shown is the cost, or 50 when the cost is 0; never 0 |
| AdminPage.AdminCardFor | frontend/app/admin/page.tsx:145-156 | an admin card shows the id, the status badge, the displayed cost and the pending-only buttons |
| AdminPage.CardsFor | frontend/app/admin/page.tsx:145 | one admin card per shown application, in order |
| AdminPage.Render | frontend/app/admin/page.tsx:134-145 | the count equals the length of the filtered list, the empty state shows exactly at count 0, and card i belongs to filtered application i |
| AdminPage.ButtonsOnlyOnPending | frontend/app/admin/page.tsx:268 | every shown button sits on a pending application from the list that passes the filter |
| AdminPage.AdminPanel.constructor | frontend/app/admin/page.tsx:10-12 | the panel starts empty, loading, with the 'all' filter |
| AdminPage.AdminPanel.LoadApplications | frontend/app/admin/page.tsx:18-27 | a successful load replaces the list and a failed one keeps it; loading ends either way |
| AdminPage.AdminPanel.SetFilter | frontend/app/admin/page.tsx:112-115 | only the filter changes |
| AdminPage.AdminPanel.UpdateApplicationStatus | frontend/app/admin/page.tsx:29-37 | one PUT with the given id and status is sent; a failed update leaves the list, loading flag and filter as they were; a successful one reloads the list |
| AdminPage.AdminPanel.Click | frontend/app/admin/page.tsx:193-210 | a click on card i concerns a pending application, and sends exactly one PUT with that application's id and the button's status ("approved" for Approve, "rejected" for Reject); a failed PUT changes nothing else, a successful one ends loading, keeps the filter and reloads the list |
| Dashboard.InitialBalance | frontend/components/Dashboard.tsx:18 | the projection starts at the user's balance, or 0 without a user |
| Dashboard.AfterAdView | frontend/components/Dashboard.tsx:40-49 | a successful view adds exactly the reported reward; a failure changes nothing |
| Dashboard.AfterSubmit | frontend/components/Dashboard.tsx:51-61 | a successful submission subtracts exactly 50, whatever cost is reported; a failure changes nothing |
| Dashboard.Project | frontend/components/Dashboard.tsx:40-61 | the definition: the balance after a sequence of view and submission replies, each applied by the `setBalance` update of its handler; its closed form is `ProjectionTotals` |
| Dashboard.ProjectionTotals | frontend/components/Dashboard.tsx:40-61 | after any sequence of replies, the projection is the start, plus the reported rewards, minus 50 per successful submission |
| Dashboard.ProjectionMatchesLedger | frontend/components/Dashboard.tsx:51-61 | when every application was charged at the list price 50, the projection moves as the server's ledger does |
| Dashboard.DashboardState.constructor | frontend/components/Dashboard.tsx:16-19 | empty lists, loading, balance `InitialBalance` |
| Dashboard.DashboardState.LoadData | frontend/components/Dashboard.tsx:25-38 | a successful load replaces both lists and a failed one replaces neither; the balance never changes; loading ends |
| Dashboard.DashboardState.HandleAdView | frontend/components/Dashboard.tsx:40-49 | the balance moves as `AfterAdView`; only a success reloads; a failure changes nothing |
| Dashboard.DashboardState.HandleApplicationSubmit | frontend/components/Dashboard.tsx:51-61 | the balance moves as `AfterSubmit`; only a success reloads; a failure changes nothing; the handler always resolves |
| Dashboard.DashboardState.SubmitApplicationForm | frontend/components/Dashboard.tsx:177 | a valid form submitted through the dashboard moves the balance as `AfterSubmit`, and the form is reset and closed even when the server refused; a refusal leaves the dashboard unchanged, a success reloads its lists; the upload slots stay |
| Auth.TokenPresent | frontend/lib/auth.tsx:23 | the definition: the `if (token)` test — a stored value that is present and not "" (localStorage holds strings only, so no other falsy value arises) |
| Auth.Bearer | frontend/lib/api.ts:13-19 | the interceptor attaches the token exactly when it is present and non-empty |
| Auth.AfterInit | frontend/lib/auth.tsx:21-33 | no stored token, or "": nothing changes; with a non-empty token, a successful /me sets the user and a failed one removes the token |
| Auth.EmptyStoredTokenIsIgnored | frontend/lib/auth.tsx:22-23 | a stored "" is no token: start-up leaves the session alone and no bearer is attached |
| Auth.AfterLogin | frontend/lib/auth.tsx:35-44 | a failed token request changes nothing; otherwise the token is stored, and the user is set only if /me answers |
| Auth.LoginOutcome | frontend/lib/auth.tsx:35-44 | login succeeds exactly when both requests do, and otherwise throws the first error |
| Auth.AfterRegister | frontend/lib/auth.tsx:46-53 | a failed registration changes nothing; a successful one continues as login |
| Auth.RegisterOutcome | frontend/lib/auth.tsx:46-53 | a failed registration throws its error; otherwise the outcome is login's |
| Auth.AfterLogout | frontend/lib/auth.tsx:55-58 | no user and no token |
| Auth.TransitionsKeepCoherence | frontend/lib/auth.tsx:21-58 | no transition leaves a user without a token |
| Auth.SuccessfulLoginReplacesSession | frontend/lib/auth.tsx:37-40 | a fully successful login holds exactly the new user and the new token |
| Auth.AuthProvider.constructor | frontend/lib/auth.tsx:17-19 | no user, loading, the stored token as found |
| Auth.AuthProvider.Init | frontend/lib/auth.tsx:21-33 | the state becomes `AfterInit`, loading ends, and /me is requested, with that token, only when a non-empty token is stored |
| Auth.AuthProvider.Login | frontend/lib/auth.tsx:35-44 | the state becomes `AfterLogin`; the /me request carries the token just stored, unless it is "" |
| Auth.AuthProvider.Register | frontend/lib/auth.tsx:46-53 | the state becomes `AfterRegister`; the login requests go out only after registration succeeded |
| Auth.AuthProvider.Logout | frontend/lib/auth.tsx:55-58 | the state becomes `AfterLogout` |
| RegisterForm.MatchesEmailPattern | frontend/components/RegisterForm.tsx:54 | the definition of `/^\S+@\S+$/i`: a split at an '@' with a non-empty run on each side free of JavaScript's `\s` (`IsJsWhitespace`: tab, line feed, vertical tab, form feed, carriage return, space, no-break space, the Unicode space separators U+1680, U+2000-U+200A, U+202F, U+205F, U+3000, the line and paragraph separators U+2028/U+2029 and the byte-order mark U+FEFF); the `i` flag changes nothing, as the pattern has no letters |
| RegisterForm.EmailPatternCharacterised | frontend/components/RegisterForm.tsx:53-56 | the email pattern holds exactly when there is no white space and an '@' sits strictly inside |
| RegisterForm.EmailError | frontend/components/RegisterForm.tsx:51-57 | no error exactly for a non-empty email matching the pattern |
| RegisterForm.Utf16Length | frontend/components/RegisterForm.tsx:74-75 | JavaScript's length lies between the number of characters and twice that, and is 0 only for "" |
| RegisterForm.Utf16LengthOfBmpText | frontend/components/RegisterForm.tsx:74-75 | on text inside the Basic Multilingual Plane, JavaScript's length is the number of characters |
| RegisterForm.AstralCharacterCountsTwice | frontend/components/RegisterForm.tsx:74-75 | example only: a two-character username with an emoji is three units long and accepted |
| RegisterForm.UsernameError | frontend/components/RegisterForm.tsx:72-77 | no error exactly for a username of at least 3 UTF-16 units; "required" exactly for "", "at least 3" exactly for a shorter non-empty one |
| RegisterForm.PasswordError | frontend/components/RegisterForm.tsx:93-98 | no error exactly for a password of at least 6 UTF-16 units; "required" exactly for "", "at least 6" exactly for a shorter non-empty one |
| RegisterForm.ConfirmError | frontend/components/RegisterForm.tsx:114-117 | no error exactly when the confirmation is non-empty and equals the password |
| RegisterForm.FormValid | frontend/components/RegisterForm.tsx:51-117 | the definition: every field rule of the four inputs reports no error, which is when react-hook-form lets `onSubmit` run |
| RegisterForm.ValidFormPassesGuard | frontend/components/RegisterForm.tsx:27-30 | a form that passes the field rules also passes the password check in `onSubmit` |
| RegisterForm.RegisterFormState.constructor | frontend/components/RegisterForm.tsx:22 | not loading |
| RegisterForm.RegisterFormState.OnSubmit | frontend/components/RegisterForm.tsx:26-41 | mismatched passwords return before `register`, with nothing changed; otherwise `register` runs first, its request is the next one sent, the session's loading flag is untouched, and isLoading is false afterwards |
| RegisterForm.RegisterFormState.Submit | frontend/components/RegisterForm.tsx:44 | `onSubmit` runs only on a form that passes every field rule, and then the registration request is the next one sent, the session moves as `AfterRegister` and its loading flag is untouched |
| ApplicationForm.CanAfford | frontend/components/ApplicationForm.tsx:87 | true exactly when a user is present with a balance of at least 50 |
| ApplicationForm.CanAffordIffServerAccepts | frontend/components/ApplicationForm.tsx:28 | on the same balance, the client's gate opens exactly when the backend's `AcceptsApplication` (the test `CreateApplication` applies) holds |
| ApplicationForm.MatchesUrlPattern | frontend/components/ApplicationForm.tsx:210 | the definition of `/^https?:\/\/.+/i` (the same pattern at line 277): "http://" or "https://", with each letter matched in either ASCII case (the `i` flag without `u` folds no non-ASCII character onto these letters), followed by at least one character that `.` accepts, i.e. not a line feed, carriage return, U+2028 or U+2029; nothing after that character is constrained |
| ApplicationForm.MatchesUrlPatternExtends | frontend/components/ApplicationForm.tsx:48 | anything appended to a matching URL still matches, so an uploaded file's URL is valid when the API base is |
| ApplicationForm.UrlPatternExamples | frontend/components/ApplicationForm.tsx:210 | sanity examples only: the default API base matches; a bare scheme and an ftp URL do not |
| ApplicationForm.FieldErrors | frontend/components/ApplicationForm.tsx:141-284 | no errors exactly when title and description are non-empty and each URL is empty or matches; the required messages appear exactly for the empty fields |
| ApplicationForm.ApplicationFormState.constructor | frontend/components/ApplicationForm.tsx:23-27 | closed, idle, empty values, no uploads |
| ApplicationForm.ApplicationFormState.Open | frontend/components/ApplicationForm.tsx:92-94 | the form opens only when the user can afford it |
| ApplicationForm.ApplicationFormState.Close | frontend/components/ApplicationForm.tsx:128-129 | the form closes and nothing else changes |
| ApplicationForm.ApplicationFormState.HandleFileUpload | frontend/components/ApplicationForm.tsx:34-64 | a successful upload sets only the matching slot to base + URL; a failure changes no value; isUploading ends false; with an http(s) API base, the uploaded slot's URL passes the pattern |
| ApplicationForm.ApplicationFormState.RemoveUploadedFile | frontend/components/ApplicationForm.tsx:66-74 | clears only the named slot |
| ApplicationForm.ApplicationFormState.HandleFormSubmit | frontend/components/ApplicationForm.tsx:76-85 | isSubmitting ends false and the outcome propagates; on success the values are reset and the form closes, and on failure both stay |
| ApplicationForm.ApplicationFormState.Submit | frontend/components/ApplicationForm.tsx:136 | the handler runs only on a form without field errors; a handled submit leaves the uploading flag and both upload slots as they were |

## Left out

- Floating point: balances, rewards and costs are `Float` columns. They are whole numbers
  of coins here, without rounding.
- Timestamps: `created_at` and `viewed_at` are left out, and the view day is an abstract
  integer. The skew between `date.today()` (local) and `utcnow` is not modelled.
- Password hashing, JWT creation, the login endpoint and `get_current_user`: `auth.py`,
  `database.py` and `config.py` are not part of this model. The caller is given as a
  position in the users table, and the hash as a string.
- Backend.Store.RegisterUser: the email and username uniqueness is enforced by the checks,
  not by the database's constraint. A concurrent duplicate insert is not modelled.
- Backend.Store.RegisterUser: the serialisation of the reply is not modelled. The method
  returns the stored row, but `UserResponse` declares `created_at` as a string
  (backend/main.py:62) while the row returned at backend/main.py:146 carries a datetime.
  Under pydantic v2 that reply plausibly fails validation and answers 500, after the commit
  has already stored the user.
- Backend.UploadFile: the file write, `uuid.uuid4()` and reading the content are
  parameters ("uuid", "size"). A missing filename or content type is not modelled.
- Backend.InsufficientFunds: only whole-number balances are printed, the way Python prints
  them (e.g. "40.0"). The contract states only the 400 status; the number format is
  proved separately (`Common.WholeFloatToStringRoundTrip`).
- Common.WholeFloatToString: Python prints whole floats of magnitude 10^16 or more in
  exponent form ("1e+16"). The model prints all of them in positional form.
- Backend.Store.GetAllApplications: the `cost … else 50.0` and `hasattr` fallbacks are
  dead in this model, because every row has a cost and both URL columns.
- Backend.Store.UpdateApplicationStatus: the body is a map from string to string. A
  non-string JSON value for "status" is not modelled.
- The admin endpoints have no authorisation, and none is added.
- Rendering: layout, styling, toasts and the "Загрузка..." screen are left out. What a card
  or a panel shows is modelled as a value.
- Concurrency: `Promise.all` is one joint reply. A reload is modelled as finishing before
  the next event, although it is not awaited. In-flight interleavings and unmounting are
  not modelled.
- Dashboard.DashboardState.LoadData: the two parallel requests succeed or fail together.
  `Promise.all` rejects if either fails.
- RegisterForm.RegisterFormState.OnSubmit: `isLoading` is true only during the awaited
  call. The model states that it is false afterwards, not what it was in between.
- ApplicationForm.ApplicationFormState.Open: the affordability gate reads the user held by
  the session store. That balance is the one from login and is not refreshed by the
  dashboard's projection.
- ApplicationForm.FieldErrors: the model is stricter than the source. The URL inputs exist
  only while their field is empty (frontend/components/ApplicationForm.tsx:180 and 247), and
  react-hook-form plausibly skips the rules of an unmounted input. The model checks the
  pattern on every non-empty URL field, so it refuses a bad URL that the source would send.
  An uploaded URL matches whenever the API base is an http(s) URL
  (`MatchesUrlPatternExtends`), but not for another base.
- ApplicationForm.ApplicationFormState.Submit: stricter than the source for the same reason;
  it does not run the submit handler on a form with a bad URL, which the source may send.
- Dashboard.DashboardState.SubmitApplicationForm: stricter than the source for the same
  reason; it refuses a form with a bad URL, which the source may submit.
- RegisterForm.FormValid and ApplicationForm.FieldErrors: the browser's own validation of
  the `type="email"` and `type="url"` inputs is left out. Neither form sets `noValidate`,
  so the browser can block a submission that passes these rules (for example the email
  "a@b@c"). React-hook-form's rules are modelled, the browser's are not.
- Other views are left out: FloatingAdBanner, AdCard, LoginForm, the page and layout
  wrappers, and YandexAd. Also left out: the API client's base-URL
  plumbing, and `schemas.py`.
