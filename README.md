# Virtual-number storefront: settlement routes and client helpers

This project models the core of a web storefront that sells virtual WhatsApp
phone numbers. Users register, optionally with a referral code, and sign in.
They top up a balance, buy numbers with that balance or with referrals, submit
KYC documents and chat with a keyword assistant. Administrators work through a
back office that updates users, numbers, orders, payments, KYC records,
settings, products, services and countries.

The server part is the route module:

- **Settlement and admin routes.** The class `Routes.Store` holds one map per
  table, the settings, the append-only activity and chat logs, and the serial
  counters. Each state-changing route is a method of it. Every method:
  - makes the route's checks in the route's order;
  - on a refusal, answers with the route's status code and JSON body and
    leaves the whole store as it was;
  - otherwise states the complete new store as an update of the old one.
- **Pure decisions.** The checks themselves are pure functions in `Accounts`
  (register, login, KYC) and `Settlement` (order verdict, payment checks, the
  WhatsApp hand-off). The admin PATCH pattern is in `Allowlist`: keep the
  allow-listed keys, then write them into the row. The settings loop is in
  `SettingsUpdate`.
- **Chat and sorting.** The keyword chat responder is in `ChatResponder`. The
  newest-first ordering the admin listings use is in `DateSort`.
- **Store invariant.** `Valid()` says that:
  - every table is keyed by its rows' ids;
  - the ids of users, orders, payments and KYC records are positive and below
    the next serial number to hand out;
  - e-mail addresses and usernames are unique;
  - each user has at most one KYC record.

  Every route keeps this invariant.

The client part is pure:

- the sign-up and sign-in form schemas and what the forms submit (`RegisterForm`,
  `LoginForm`, over the issue list of `Validation`);
- URL resolution, request construction and error text (`QueryClient`, `Api`);
- the order table's status badge and order-id label (`OrderTable`).

Several lemmas connect the client to the server:
- a submitted sign-in form never meets the server's "missing" refusal;
- a refusal's message is what the client throws;
- an empty referral field never makes the server refuse the code.

The model keeps three behaviours of the routes as they are. The intended
design states them differently:
- buying a number does not take it off sale (`Scenarios.SameNumberSoldTwice`);
- completing a top-up twice credits it twice (`Scenarios.TopUpCompletedTwice`);
- approving a KYC record leaves the user's own `kycStatus` at "pending"
  (`Scenarios.ApprovalLeavesUserPending`).

## Model

| member | source | states |
|---|---|---|
| Replies.AdminGate | server/routes.ts:47-65 | Only a signed-in admin passes; no session gives 401 "Authentication required", a non-admin 403 "Admin privileges required" |
| Accounts.HashedInjective | server/routes.ts:163 | Two passwords have the same stored credential exactly when they are equal, so the login comparison is a password comparison |
| Accounts.RegisterRefusal | server/routes.ts:91-114 | Registration is refused exactly when the email is taken, the username is taken, or a non-empty referral code is neither ADMIN_CODE nor any user's code; the refusals come in that order, with their 400 messages |
| Accounts.NewUserRow | server/routes.ts:118-120 | The new row stores "hashed_" + password and the referral it came with, with balance 0, no referrals, KYC "none", not admin, not banned |
| Accounts.LoginRefusal | server/routes.ts:151-169 | Sign-in succeeds exactly with a non-empty email and password, a stored user, the matching credential and no ban; otherwise 400 missing, 401 invalid credentials, or 403 banned |
| Accounts.RegisteredUserSignsIn | server/routes.ts:118-169 | A freshly registered user passes every sign-in check with the same email and password |
| Accounts.WrongPasswordRefused | server/routes.ts:163-165 | Any password other than the registered one gets 401 "Invalid credentials" |
| Accounts.KycRefusal | server/routes.ts:418-432 | A KYC submission passes exactly for an existing user without a record; a second one gets 400 "KYC already submitted" with the first record's status |
| Records.WithoutPassword | server/routes.ts:139 | The user sent back keeps every field except the password |
| Allowlist.PickAllowed | server/routes.ts:486-494 | The loop keeps exactly the allow-listed keys present in the body, with the body's values; it is empty exactly when no allow-listed key is present |
| Allowlist.PatchUser | server/routes.ts:487-500 | The update succeeds exactly when every sent field has its column's type; then balance, isAdmin, isBanned and referralCount take the sent values and every other field is kept |
| Allowlist.PatchPhoneNumber | server/routes.ts:548-561 | Only price, isAvailable and country change, to the sent values, and only when they have the column types |
| Allowlist.PatchOrder | server/routes.ts:632-645 | Only status and code change, to the sent values; an order's amount, owner and number are never changed by an admin |
| Allowlist.PatchProduct | server/routes.ts:981-994 | Only isAdminApproved, status, price, name and description change, to the sent values |
| Allowlist.PatchService | server/routes.ts:1030-1043 | Only name, slug, description, icon and isActive change, to the sent values |
| Allowlist.PatchCountry | server/routes.ts:1072-1085 | Only name, code, flag and isActive change, to the sent values |
| Decimal.ParseInt | server/routes.ts:266 | `parseInt` of a non-empty digit string is the number the digits denote |
| Decimal.ParseIntRoundTrip | server/routes.ts:266 | `parseInt` reads back every number's decimal text |
| Settlement.SettingOr | server/routes.ts:265 | A missing or empty setting falls back to the default; any other value is used as it is |
| Settlement.ReferralsNeeded | server/routes.ts:265-266 | The threshold is 20 when REFERRALS_NEEDED is unset or empty, and the value of its digits when it is a digit string |
| Settlement.KycRequired | server/routes.ts:277 | KYC is required exactly when KYC_REQUIRED_FOR_REFERRAL is unset, empty or "true" |
| Settlement.JudgeOrder | server/routes.ts:250-307 | An accepted order passed the lookups and the availability check, and writes back the buyer's own row with only the balance or the referral count changed |
| Settlement.JudgeOrderCases | server/routes.ts:250-307 | Missing user or number: 404; number off sale: 400. A paid order is accepted exactly when the balance covers the price; the balance drops by the price, which becomes the total, so the balance stays non-negative. A reward is accepted exactly when the count reaches the threshold and the KYC gate passes; too few referrals is refused with the current and needed counts, and a sufficient count without required KYC approval gets the 400 KYC refusal. An accepted reward: the count drops by the threshold, stays non-negative, and the total is 0. Each refusal carries its body |
| Settlement.PurchaseScenario | server/routes.ts:292-306 | A balance of 1000 buying a number priced 500 leaves 500 and records a total of 500 |
| Settlement.NineteenReferralsScenario | server/routes.ts:265-274 | With a threshold of "20", 19 referrals are refused and the reply reports current 19 and needed 20 |
| Settlement.PaymentRefusal | server/routes.ts:367-386 | A payment passes exactly when the caller exists and, if it names an order (a truthy orderId), the order exists, is the caller's and is pending; otherwise 404, 404, 403 or 400 in that order |
| Settlement.PaymentReference | server/routes.ts:389 | The reference is "PAY-" followed by the eight random characters |
| Settlement.RedirectFor | server/routes.ts:321-333 | The hand-off names the support number and carries the order message for the bought number and the order id |
| Settlement.RedirectLinkOfSupport | server/routes.ts:322-324 | The wa.me link is the support number with its "+" and spaces removed |
| Settlement.LinkOfPlusNumber | server/routes.ts:324 | For "+" followed by digits, removing "+" and white space leaves exactly the digits |
| SettingsUpdate.StringKeysListed | server/routes.ts:837-842 | A key is in the `updated` list exactly when some body entry with that key has a string value |
| SettingsUpdate.ApplyEntriesUntouched | server/routes.ts:837-842 | A key that no string entry names keeps its presence and its value |
| SettingsUpdate.ApplyEntriesLastWins | server/routes.ts:837-842 | A key that string entries name ends with the value of the last such entry |
| SettingsUpdate.NoStringsNoChange | server/routes.ts:844-846 | When no entry is a string, the settings are unchanged |
| ChatResponder.FirstMatch | server/routes.ts:1113-1142 | The result is the first rule whose keywords occur in the text, and none exactly when no rule matches |
| ChatResponder.RespondFirstMention | server/routes.ts:1110-1142 | The reply is that of the first rule the lower-cased message mentions, whatever later rules it also mentions |
| ChatResponder.RespondGreets | server/routes.ts:1109 | A message that mentions no keyword gets the default greeting |
| ChatResponder.RespondIgnoresCase | server/routes.ts:1110 | The reply does not depend on the case of the message's letters |
| ChatResponder.ThisCountsAsHello | server/routes.ts:1137 | Keywords match inside words: "this" contains "hi", so a message with "this" and no earlier keyword gets the hello reply, even if it also says "thank" |
| DateSort.NewestFirst | server/routes.ts:614-618 | The comparator is negative, zero or positive exactly when the first row's time is later than, equal to or earlier than the second's; a null time counts as 0 |
| DateSort.NewestFirstConsistent | server/routes.ts:695-699 | The comparator is antisymmetric and transitive, and a row without a time ties with one created at time 0 |
| DateSort.SortNewestFirst | server/routes.ts:774-778 | The listing holds the same rows as its input |
| DateSort.InsertSorted | server/routes.ts:614-618 | Inserting a row before the first row not later than it keeps a newest-first listing sorted |
| DateSort.SortSorted | server/routes.ts:614-618 | The listing is sorted newest first |
| DateSort.InsertStable | server/routes.ts:614-618 | An inserted row goes ahead of every row with its own time, and the rows of any one time keep their order |
| DateSort.SortStable | server/routes.ts:614-618 | The sort is stable: for every time, the rows created at that time come out in their input order |
| Routes.Store.Register | server/routes.ts:88-146 | A refusal answers RegisterRefusal's reply and changes nothing; otherwise the new user row is added under the next id, one "User registration" activity is appended, and the reply is the row without its password |
| Routes.Store.Login | server/routes.ts:148-195 | A refusal answers LoginRefusal's reply for the user stored under the email and changes nothing; otherwise only a "User login" activity is appended and the user is sent back without the password |
| Routes.Store.CreateOrder | server/routes.ts:241-335 | A refusal changes nothing. An accepted order writes back the buyer as judged, adds exactly one "pending" order under the next id with the judged total, and appends exactly one activity. The phone numbers, including isAvailable, are untouched. The reply carries the WhatsApp hand-off |
| Routes.Store.CreatePayment | server/routes.ts:359-404 | A refusal changes nothing; otherwise exactly one pending payment with a "PAY-" reference is added and one activity appended, and no balance changes |
| Routes.Store.SubmitKyc | server/routes.ts:412-448 | A refusal changes nothing; otherwise exactly one pending KYC record is added, the user's kycStatus becomes "pending", and one activity is appended |
| Routes.Store.AdminUpdateUser | server/routes.ts:473-517 | Non-admins, unknown ids, one's own id and bodies without an allow-listed key are refused with nothing changed; otherwise only that user's allow-listed fields change and one admin activity is appended |
| Routes.Store.AdminUpdatePhoneNumber | server/routes.ts:539-575 | Refusals change nothing; otherwise only that number's allow-listed fields change and one activity names it |
| Routes.Store.AdminUpdateOrder | server/routes.ts:623-674 | Refusals change nothing; otherwise only that order's status and code change. Setting "completed" logs the purchase for an existing owner, and the admin activity names the new status |
| Routes.Store.AdminUpdatePayment | server/routes.ts:704-753 | A body without status gets 400 and changes nothing. Otherwise the payment takes the status; the owner's balance rises by the amount exactly when the status is "completed", the payment has no truthy orderId and the owner exists; every other balance is unchanged |
| Routes.Store.AdminUpdateKyc | server/routes.ts:783-821 | A body without status gets 400. Otherwise only the record's status changes, the user's kycStatus is not touched, and two activities are appended ("Approved" for "approved", "Rejected" for anything else) |
| Routes.Store.AdminUpdateSettings | server/routes.ts:828-857 | An empty body, or one without string values, is refused with nothing changed; otherwise the settings become the body's string entries, in `Object.entries` order, written one after another over the old settings, and the activity lists the written keys |
| Routes.Store.AdminUpdateProduct | server/routes.ts:972-1008 | Refusals change nothing; otherwise only the product's allow-listed fields change, and its owner is told "approved" or "updated" after the body's isAdminApproved |
| Routes.Store.AdminUpdateService | server/routes.ts:1022-1050 | Refusals change nothing; otherwise only that service's allow-listed fields change and nothing is logged |
| Routes.Store.AdminUpdateCountry | server/routes.ts:1064-1092 | Refusals change nothing; otherwise only that country's allow-listed fields change and nothing is logged |
| Routes.Store.AiChat | server/routes.ts:1095-1153 | A falsy message gets 400 with an "error" body and an unknown user 404, both changing nothing; otherwise exactly one chat holding the message and the responder's reply is appended |
| Scenarios.RegisterThenSignIn | server/routes.ts:88-195 | Someone who has just registered signs in with the same email and password and gets the same user back |
| Scenarios.SameNumberSoldTwice | server/routes.ts:258-319 | Two buyers with enough balance both get orders for the same number |
| Scenarios.TopUpCompletedTwice | server/routes.ts:727-743 | Completing the same top-up twice raises the owner's balance by twice its amount |
| Scenarios.ApprovalLeavesUserPending | server/routes.ts:796-818 | After a KYC submission and its approval, the user's own kycStatus is still "pending", so while KYC is required for rewards, that user's referral reward is refused |
| Validation.FirstMessage | client/src/components/auth/Register.tsx:41 | The message shown under a field is the first issue on its path, and there is none exactly when no issue is on that path |
| RegisterForm.Issues | client/src/components/auth/Register.tsx:19-32 | The schema reports no issue exactly when full name ≥ 2, username ≥ 3, the email is valid, password and confirmation ≥ 6, terms accepted, and the two passwords are equal |
| RegisterForm.IssuesAreBrokenRules | client/src/components/auth/Register.tsx:20-31 | An issue with a given path and message is reported exactly when the matching rule is broken; the mismatch goes on confirmPassword, and nothing ever goes on referralCode |
| RegisterForm.ReferralCodeNeverChecked | client/src/components/auth/Register.tsx:25 | A present, empty or absent referral code never changes the issues |
| RegisterForm.ShortConfirmationShowsLength | client/src/components/auth/Register.tsx:24-32 | A too-short confirmation shows the length message, even when the passwords also differ |
| RegisterForm.ToPayload | client/src/components/auth/Register.tsx:56-61 | The payload keeps name, username, email, password and referral code; referredBy is absent exactly when the code is absent or empty, and is the code otherwise |
| RegisterForm.PayloadDropsConfirmationAndTerms | client/src/components/auth/Register.tsx:56 | The payload does not depend on the confirmation or the terms box |
| RegisterForm.Submit | client/src/components/auth/Register.tsx:53-61 | A payload goes out exactly when every schema rule holds, and it is the mapped payload |
| RegisterForm.SubmittedRegistration | client/src/components/auth/Register.tsx:60 | A submitted form never sends an empty referral code, sends a password of at least 6 characters equal to the confirmation, and is never refused for its referral code when the code field was empty |
| LoginForm.Issues | client/src/components/auth/Login.tsx:19-23 | No issue exactly when the email is valid and the password has at least 6 characters; each failure has its message, and remember-me has none |
| LoginForm.RememberMeNeverChecked | client/src/components/auth/Login.tsx:22 | The remember-me box never changes the issues |
| LoginForm.Submit | client/src/components/auth/Login.tsx:40-42 | `login` is called exactly when the schema passes, with the email and the password |
| LoginForm.SubmitIgnoresRememberMe | client/src/components/auth/Login.tsx:42 | What is passed to `login` does not depend on remember-me |
| LoginForm.SubmittedLoginNotMissing | client/src/components/auth/Login.tsx:40-42 | When the email format rejects "", a submitted form never gets the server's "Email and password are required" |
| Api.ApiBaseUrl | client/src/lib/api.ts:6-15 | The base is "/.netlify/functions/api" exactly when the host name contains "netlify.app", and "/api" otherwise |
| Api.BaseIgnoresBuild | client/src/lib/api.ts:10-15 | Production and development builds get the same base |
| Api.BaseShape | client/src/lib/api.ts:10-15 | Both bases start with "/" and do not end with "/" |
| Api.JoinPath | client/src/lib/api.ts:24 | The URL is the base, one "/", then the endpoint without its leading "/" if it had one |
| Api.LeadingSlashOptional | client/src/lib/api.ts:24 | An endpoint with and without a leading "/" gives the same URL |
| Api.MergeHeaders | client/src/lib/api.ts:27-30 | The headers are the caller's plus Content-Type; every caller header keeps its value, and Content-Type is application/json unless the caller set it |
| Api.FetchApi | client/src/lib/api.ts:20-38 | The request keeps the caller's method and body, has the merged headers and the joined URL, and always includes credentials |
| Api.CredentialsAlwaysIncluded | client/src/lib/api.ts:33-37 | A caller's credentials option makes no difference to the request |
| Api.ErrorMessage | client/src/lib/api.ts:53-56 | The thrown message is a truthy `message` field as text, otherwise "API request failed with status N" |
| Api.RefusalMessageShown | client/src/lib/api.ts:53-56 | A server refusal `{message}` with a non-empty message reaches the caller as exactly that message |
| Api.FallbackNamesStatus | client/src/lib/api.ts:55 | The fallback message starts with the fixed text and the status can be read back from it |
| Api.ErrorData | client/src/lib/api.ts:53-55 | The object `message` is read from: a body that is not JSON falls back to `{}`, an object gives its fields, any other non-null value has no fields, and `null` has none at all |
| Api.ApiRequest | client/src/lib/api.ts:43-65 | An ok response yields its body exactly when the body is JSON, and otherwise the parse error is rethrown. An error response throws the `message` rule's text, except that a `null` body makes reading `message` throw a TypeError, which is rethrown |
| Api.NotOkNeverParsed | client/src/lib/api.ts:51-57 | An error status never yields data: it throws the message exactly when the body is not `null` |
| Api.NotOkFallback | client/src/lib/api.ts:53-56 | An error status whose body is not JSON, or has no truthy `message`, throws "API request failed with status N" |
| Api.RefusalThrown | client/src/lib/api.ts:51-57 | A server refusal `{message}` with a non-empty message and an error status is thrown as exactly that message |
| QueryClient.ResolveUrl | client/src/lib/queryClient.ts:17-18 | An absolute http(s) URL is used as it is; any other URL is joined to the base |
| QueryClient.ResolveUrlCases | client/src/lib/queryClient.ts:17-18 | Absolute: unchanged; starting with "/": base + url; otherwise base + "/" + url |
| QueryClient.OneSlashJoins | client/src/lib/queryClient.ts:18 | A relative URL not starting with "//" is joined to the base by exactly one "/" |
| QueryClient.FetchApiPrefixesAbsolute | client/src/lib/queryClient.ts:18 | `fetchApi` agrees with `apiRequest` on relative URLs but also prefixes absolute ones |
| QueryClient.ApiRequestInit | client/src/lib/queryClient.ts:20-25 | The JSON Content-Type header and the body are sent exactly when the data is truthy; credentials are always included |
| QueryClient.ApiRequestCall | client/src/lib/queryClient.ts:11-29 | The request goes to the resolved URL with that init |
| QueryClient.QueryCall | client/src/lib/queryClient.ts:37-45 | The query function fetches the resolved first key with only credentials set |
| QueryClient.SameUrlRule | client/src/lib/queryClient.ts:40-41 | The query function resolves its key exactly as `apiRequest` resolves its URL |
| QueryClient.NotOkMessage | client/src/lib/queryClient.ts:4-9 | An error occurs exactly on a non-ok status, with the message "<status>: <body>", or the status text when the body is empty |
| QueryClient.NotOkMessageNamesStatus | client/src/lib/queryClient.ts:6-7 | The status can be read back from the front of the thrown message |
| QueryClient.QueryOutcome | client/src/lib/queryClient.ts:47-52 | The result is null exactly for a 401 under "returnNull"; otherwise an error exactly on a non-ok status, with the not-ok message; an ok response yields its body exactly when the body is JSON, and the parse error otherwise |
| QueryClient.DefaultQueryThrowsOn401 | client/src/lib/queryClient.ts:58 | The default query function throws "401: …" on a 401 |
| OrderTable.StatusBadgeClass | client/src/components/store/OrderTable.tsx:11-21 | Success classes exactly for "completed", warning exactly for "pending", danger exactly for "rejected" or "failed", gray exactly for anything else; all compared lower-cased |
| OrderTable.BadgeIgnoresCase | client/src/components/store/OrderTable.tsx:12 | Statuses that lower-case alike get the same badge |
| OrderTable.BadgeOfLowerCase | client/src/components/store/OrderTable.tsx:12 | Lower-casing a status first does not change its badge |
| OrderTable.OrderIdLabel | client/src/components/store/OrderTable.tsx:97 | The label is "#" and at least five characters, more only when the id's text is longer |
| OrderTable.OrderIdLabelRoundTrip | client/src/components/store/OrderTable.tsx:97 | The label's digits read back as the id, and the id's own digits end the label uncut |

## Left out

- Concurrency: each route is one atomic method. The check-then-write races between concurrent requests are not modelled.
- Storage and schemas: tables are in-memory maps. The request-schema parse that ends in a 400 "Validation error" is not modelled, and `shared/schema.ts` is not part of this model. The column defaults the routes rely on are assumptions: a new user has balance 0, no referrals and KYC "none"; a new order, payment or KYC record is "pending".
- Ill-typed values: a value of the wrong JSON type for a column is assumed to make the storage throw, which the error middleware answers with a 500 and nothing written.
- Allowlist.PatchUser: and the other `Patch*` functions return `None` for that failure. The "Failed to update …" 500 for a missing row after the existence check cannot happen in the model.
- Settlement.ReferralsNeeded: only digit strings are stated exactly. A REFERRALS_NEEDED that parses to NaN passes the count check and is assumed to fail when written back (a 500).
- Randomness and hashing: the SHA-256 session token is left out of the register and sign-in replies, which carry only the user. The eight random characters of a payment reference are a parameter. The message part of the wa.me link, which goes through `encodeURIComponent`, is not built; the hand-off carries the message itself.
- Money: balances, prices and amounts are integers in minor units. Floating-point arithmetic is not modelled.
- Text: lower-casing folds ASCII letters only. String lengths count code points, where JavaScript counts UTF-16 units.
- Routes.Store.Login: the email and password are strings, and "" stands for a missing or falsy field.
- Routes.Store.Register: the route itself never touches the referrer's row. Any increment of the referrer's `referralCount` that `storage.createUser` might make is not modelled, because the storage layer is not part of this model. In the model, `referralCount` changes only through a reward order and the admin PATCH. The generated referral code is a parameter.
- Activities and chats have no id or creation time. Rows get `createdAt` from a `now` parameter.
- Read-only routes (profiles, listings, GET by id, pending filters) are not modelled. The admin listings' gathering loops are not modelled either; only their newest-first order is (`DateSort`).
- Admin create and delete routes are outside the modelled core: phone-number create and delete, broadcast, product create, and service and country create.
- Route ids come from `parseInt` of the URL parameter and are taken as integers here.
- Client: JSX, navigation, the `fetch` call, JSON parsing and `JSON.stringify` are not modelled. A request body is the JSON value it carries, and a response body is its text; what it parses to is a parameter (`Api.Body`, or whether it is JSON at all for the query function).
- Api.ApiRequest: the SyntaxError or TypeError it rethrows is `Crashed`; the engine's error text is not modelled.
- QueryClient.QueryOutcome: the SyntaxError of `res.json()` on an ok body that is not JSON is `Unreadable`; its text is not modelled.
- Decimal.Rendered: a JSON array is the same value as an object (`JObject`), so an array `message` renders as "[object Object]", where JavaScript joins its elements with commas. The email format of the schema library is a parameter.
- Headers given as a `Headers` object or an array of pairs, which object spread treats differently, are not modelled: caller headers are a map.
