# WalPay seller identity and session security, in Dafny

WalPay lets a seller open an account, sign in and publish payment links that
buyers pay on the Flow blockchain. This project models the backend's
identity and session-security core and the frontend's slug and address
helpers, and proves properties of that model:

- **Accounts.** Sellers sign up with a one-time code sent by mail. They log
  in with a password or a code. They reset a password with a code. Deleting
  an account removes it softly and cascades to the seller's payments,
  transactions and sessions.
- **Sessions.** A session holds an opaque access token (15 minutes by
  default) and a refresh token (30 days). The session's absolute lifetime
  is capped at 60 days. Only the SHA-256 digests of the tokens are stored.
  Every refresh rotates both tokens, and logging out revokes the session.
- **One-time codes.** A code is bound to an address and a purpose (signup,
  login, reset). Only the newest open code for that pair is compared. It
  is valid up to and including its expiry instant, and is consumed on use.
- **Passwords.** They are stored as `iterations.salt.key` and checked with a
  comparison that visits every position whatever the inputs.
- **Requests.** The router picks the first registered route matching the
  method and path and fills the path parameters. It reads the JSON body,
  refuses guarded routes without a signed-in seller, and maps thrown
  errors to responses. CORS headers and the preflight answer are applied
  around it. Environment settings come from a `.env` loader with defaults.
- **Payment links.** The service and its routes normalise slugs, keep them
  unique, and find, list and deactivate payment links. They record
  transactions and keep them listed.
- **Frontend.** The dashboard uses these helpers: the slug sanitiser,
  random slug generation, slug validation, and the `0x` prefix of Flow
  addresses.

**How the model is built**
- Each source file is a module.
- A collection the services write (`sellers`, `otps`, `sessions`,
  `payments`, `transactions`) is a class holding a `seq` of rows. Its
  methods state the new table in terms of the old.
- A row's id is its position in the table.
- Queries are functions over the rows.
- Each route handler is a method over the stores it touches. It returns an
  outcome: a reply, an `HttpError` thrown with its status, or a crash
  answered 500.
- The clock reading and every random value are parameters. The random
  values are tokens, salts, code bytes and slug candidates. Whether the
  mail went out and what the image host answered are parameters too.
- SHA-256 and PBKDF2 are function-typed parameters of the stores.

## Model

| member | source | states |
|---|---|---|
| Time.MinutesFromNow | backend/src/utils/time.js:1-3 | a zero offset is the current instant, a positive one lies in the future and a negative one in the past |
| Time.DaysFromNow | backend/src/utils/time.js:5-7 | the same three cases for day offsets |
| Time.DaysAreMinutes | backend/src/utils/time.js:1-7 | `daysFromNow(d)` equals `minutesFromNow(1440 d)` on the same clock reading |
| Time.MinutesFromNowMonotone | backend/src/utils/time.js:1-3 | a longer offset never gives an earlier instant |
| Time.DaysFromNowMonotone | backend/src/utils/time.js:5-7 | a longer offset never gives an earlier instant |
| Ids.IdText | backend/src/services/paymentService.js:129 | an id renders as non-empty decimal digits |
| Ids.ParseId | backend/src/services/paymentService.js:149-155 | text names an id exactly when it is non-empty decimal digits, otherwise the lookup fails |
| Ids.ParseIdText | backend/src/services/paymentService.js:149-155 | the rendered text of an id parses back to that id |
| Config.ParseEnvLine | backend/src/config.js:9-14 | blank lines, `#` comments and lines without `=` add nothing; otherwise the key is the trimmed text before the first `=` and the value the trimmed text after it |
| Config.EnvLineRoundTrip | backend/src/config.js:9-14 | a line `key=value` with a trimmed, `=`-free key not starting with `#` parses back to exactly that pair |
| Config.LoadDotEnv | backend/src/config.js:5-19 | the loop over the file's lines computes the environment that applying every line in order gives |
| Config.LoaderNeverOverwrites | backend/src/config.js:15-17 | a variable already set keeps its value, whatever the file says |
| Config.LoaderProvenance | backend/src/config.js:8-18 | every variable the loader adds has a non-empty key and comes from some line of the file with that value |
| Config.ParseOrigins | backend/src/config.js:64-67 | unset or empty gives `["*"]`; otherwise the result is exactly the comma-separated pieces trimmed, with the empty ones dropped, in their order (`Seqs.FilterAppend`); so every entry is non-empty, trimmed and comma-free, and every non-blank piece appears trimmed |
| Config.NumberSetting | backend/src/config.js:25-33 | an unset or empty variable gives the default, any other value `Number()` of its text |
| Config.SettingsOf | backend/src/config.js:28-32 | the service settings exist exactly when all five numeric settings parsed |
| Config.LoadAppConfig | backend/src/config.js:24-35 | each numeric setting left unset takes its default (port 4000, fee 2, access 15 min, refresh 30 days, lifetime 60 days, code 10 min with 6 digits, token bytes 48) and a set one is `Number()` of its text; the country is the variable or Nigeria; unset origins give `["*"]` |
| Config.DefaultConfig | backend/src/config.js:21-35 | with an empty environment the configuration is port 4000, fee 2, access 15 min, refresh 30 days, lifetime 60 days, code 10 min with 6 digits, token bytes 48, country Nigeria, origins `["*"]` |
| Config.ValidateConfig | backend/src/config.js:52-62 | startup may go on exactly when the store URI and mail host, user and password are all set; with no store URI the store message comes first |
| Cors.IsOriginAllowed | backend/src/middleware/cors.js:28-32 | an origin is allowed exactly when it is missing or empty, the list holds `*`, or the list holds the origin |
| Cors.ApplyCors | backend/src/middleware/cors.js:3-16 | the methods, headers and credentials headers are fixed; an allowed origin is echoed, a missing one gives `*`, a refused one gives the first listed origin or `*` |
| Cors.DisallowedOriginNotEchoed | backend/src/middleware/cors.js:5-9 | an origin outside the list is never echoed back |
| Cors.WildcardEchoesOrigin | backend/src/middleware/cors.js:5-30 | with the default list every non-empty origin is echoed back |
| Cors.HandlePreflight | backend/src/middleware/cors.js:18-26 | exactly OPTIONS requests are answered at once, with 204 and the CORS headers |
| Crypto.HashPassword | backend/src/utils/crypto.js:17-23 | the stored text splits on `.` into exactly the three fields `120000`, the salt and the derived base64 key |
| Crypto.PasswordMatches | backend/src/utils/crypto.js:25-32 | text without exactly three fields never verifies; a true answer means the key derived from the stored salt and iteration count equals the stored key |
| Crypto.VerifyPassword | backend/src/utils/crypto.js:25-32 | the method's answer is the verification just specified |
| Crypto.VerifyHashedPassword | backend/src/utils/crypto.js:17-32 | a freshly hashed password verifies against its own hash |
| Crypto.RejectOtherPassword | backend/src/utils/crypto.js:17-32 | a password whose derived key differs is rejected |
| Crypto.SplitThree | backend/src/utils/crypto.js:22-28 | digits, then base64 text, then base64 text joined by `.` split back into the three parts |
| Crypto.BitXorZero | backend/src/utils/crypto.js:50 | `a ^ b` is 0 exactly when a equals b |
| Crypto.BitOrZero | backend/src/utils/crypto.js:50 | `a \| b` is 0 exactly when both are 0 |
| Crypto.DifferenceZero | backend/src/utils/crypto.js:44-53 | the accumulator stays 0 exactly when every visited position agrees |
| Crypto.DifferenceSymmetric | backend/src/utils/crypto.js:44-53 | the accumulator does not depend on the argument order |
| Crypto.SlowEquals | backend/src/utils/crypto.js:44-53 | the loop visits all max(\|a\|,\|b\|) positions, and the result is true exactly when the two strings are identical |
| Crypto.GenerateOtpCode | backend/src/utils/crypto.js:34-42 | the code has exactly `length` decimal digits, and digit i is byte i modulo 10, which is `OtpDigitsOf` of the bytes |
| Slugs.ReplaceInvalid | backend/src/services/paymentService.js:183 | same length; every character outside `[a-z0-9-]` becomes a dash and the others are kept |
| Slugs.CollapseDashes | backend/src/services/paymentService.js:184 | no `--` is left, the first and last characters are kept, and so is the slug alphabet |
| Slugs.CollapseDashesIdentity | backend/src/services/paymentService.js:184 | text without `--` is unchanged |
| Slugs.StripEdgeDash | backend/src/services/paymentService.js:185 | at most one dash goes at each end; after collapsing, no edge dash is left |
| Slugs.StripDashRuns | frontend/src/utils/utils.ts:10 | the result has no dash at either end, keeps the slug alphabet and adds no `--` |
| Slugs.StripDashRunsKeepsClean | frontend/src/utils/utils.ts:10 | text without an edge dash is unchanged |
| Slugs.StripDashRunsDropsLastDash | frontend/src/utils/utils.ts:10 | a single trailing dash is removed and nothing else |
| Slugs.StripFormsAgree | backend/src/services/paymentService.js:185 | on collapsed text the backend's one-dash strip and the frontend's dash-run strip agree |
| Seqs.Filter | backend/src/services/paymentService.js:111 | every kept element satisfies the filter and comes from the input, and every input element that satisfies it is kept |
| Seqs.FilterAppend | backend/src/config.js:66 | filtering keeps order: a concatenation filters to the concatenation of the filtered parts |
| Seqs.SortDesc | backend/src/services/paymentService.js:114 | the result is ordered newest first and is a permutation of the input |
| Seqs.Page | backend/src/services/paymentService.js:112-113 | the page is the contiguous run from `offset`, with min(\|limit\|, elements left) elements, or all of them when limit is 0, and empty past the end |
| Seqs.Query | backend/src/services/paymentService.js:109-115 | the result is the page at `offset` of a newest-first permutation of exactly the filtered elements |
| Payments.NormalizeSlug | backend/src/services/paymentService.js:178-187 | the result uses only `[a-z0-9-]`, has no `--`, has at most 64 characters and never starts with a dash |
| Payments.NormalizeCleanSlug | backend/src/services/paymentService.js:178-187 | an already clean slug is only cut to 64 characters |
| Payments.NormalizeIdempotent | backend/src/services/paymentService.js:178-187 | normalising again changes nothing when the result has no trailing dash |
| Payments.TrailingDashAfterCut | backend/src/services/paymentService.js:185-186 | 63 letters then `-b` normalise to the 63 letters and a trailing dash |
| Payments.FindPaymentById | backend/src/services/paymentService.js:97-100 | text that is not an id fails with "Invalid payment identifier"; otherwise the result is the non-deleted row with that id, or nothing when there is none |
| Payments.FindPaymentBySlug | backend/src/services/paymentService.js:102-105 | the first active, non-deleted row with that link, and nothing exactly when no such row exists |
| Payments.ListPaymentsForSeller | backend/src/services/paymentService.js:107-116 | a negative offset fails; otherwise the result is the page at `offset` of some newest-first ordering of exactly the seller's non-deleted rows, so it holds min(\|limit\|, rows left) of them, or all the rest when limit is 0 |
| Payments.FirstUnused | backend/src/services/paymentService.js:170-175 | the first candidate no row uses, and none exactly when all are used |
| Payments.SerializePayment | backend/src/services/paymentService.js:127-147 | the view carries the row's id text and copies its name, image, description, success message, redirect URL, link, status, timestamps, chain transactions and image id |
| Payments.SerializeHidesOwner | backend/src/services/paymentService.js:127-147 | the view does not depend on the owner or the deletion mark |
| Payments.PaymentStore.ResolvePaymentSlug | backend/src/services/paymentService.js:157-176 | a given slug that normalises to nothing fails "Invalid payment link slug"; a used one fails "already in use"; a free one is returned normalised. Without a slug the first unused candidate is returned, else "Unable to generate unique payment link". A returned link is never in use, and it is the link `SlugResolution` settles on |
| Payments.SlugResolution | backend/src/services/paymentService.js:157-176 | a link is settled exactly when a given slug normalises to something no row uses, or, without one, some candidate is unused; the settled link is the normalised slug or a candidate, and no row uses it |
| Payments.PaymentStore.CreatePayment | backend/src/services/paymentService.js:16-69 | no price fails; a USD-only price without a rate fails; once the price passes, it fails exactly with the slug's error and otherwise succeeds with the settled link; a failure changes nothing; success appends exactly one active row whose link no earlier row uses, with the defaults for the missing text fields |
| Payments.PaymentStore.SetPaymentBlockchainTx | backend/src/services/paymentService.js:71-76 | the row records the creation transaction and update time whatever its state; an unknown id changes nothing |
| Payments.PaymentStore.DeactivatePaymentRecord | backend/src/services/paymentService.js:78-95 | text that is not an id fails and changes nothing; an unknown id gives nothing; otherwise the row becomes inactive, deleted or not, with the transaction or null |
| Payments.DeactivatedNotPublic | backend/src/services/paymentService.js:78-105 | a deactivated payment is never found by its public link |
| Transactions.ListTransactionsForSeller | backend/src/services/transactionService.js:28-37 | a negative offset fails; otherwise the result is the page at `offset` of some newest-first ordering of exactly the seller's rows, deleted ones included; with no paging a permutation of all of them |
| Transactions.ListTransactionsForSellerDefault | backend/src/services/transactionService.js:28 | the defaults are limit 25 and offset 0 |
| Transactions.DeletedStillListed | backend/src/services/transactionService.js:32 | marking a row deleted does not change the seller listing |
| Transactions.ListTransactionsForPayment | backend/src/services/transactionService.js:39-42 | the payment's rows, newest first, a permutation of all of them |
| Transactions.TransactionStore.RecordTransaction | backend/src/services/transactionService.js:3-26 | exactly one row is appended and returned, with missing optional text stored as null |
| Sessions.AuthenticateAccessToken | backend/src/services/sessionService.js:38-48 | a row is found exactly when some row holds the token's digest, is unrevoked and has not yet expired, and the found row is such a row |
| Sessions.FindRefreshable | backend/src/services/sessionService.js:50-59 | the first row whose refresh digest matches, which is unrevoked and whose refresh window and absolute lifetime are both still open; none exactly when no row qualifies |
| Sessions.NewSession | backend/src/services/sessionService.js:6-27 | the new row is unrevoked with no rotations, access expiry now+TTL minutes, refresh expiry now+TTL days, lifetime now+max-life days |
| Sessions.Rotated | backend/src/services/sessionService.js:64-77 | new digests and windows, one more rotation; id, owner, creation time, lifetime and revocation are kept |
| Sessions.RevokeById | backend/src/services/sessionService.js:86-91 | only that row changes, getting revocation and update times; an unknown id changes nothing |
| Sessions.FindUnrevokedAccess | backend/src/services/sessionService.js:96-98 | the first unrevoked row with that access digest, whatever its expiry |
| Sessions.RevokeByAccess | backend/src/services/sessionService.js:93-99 | only that row gets a revocation time and its update time is kept; without one nothing changes |
| Sessions.SessionStore.constructor | backend/src/services/sessionService.js:1-4 | the table starts empty, using the given digest function and settings |
| Sessions.SessionStore.CreateSession | backend/src/services/sessionService.js:6-36 | exactly the new row is appended, and the plain tokens and their expiries are handed back |
| Sessions.SessionStore.RefreshSession | backend/src/services/sessionService.js:50-84 | with no refreshable row the answer is null and nothing changes; otherwise only that row is rotated and the new tokens are handed back |
| Sessions.SessionStore.RevokeSessionById | backend/src/services/sessionService.js:86-91 | the table becomes the revoke-by-id table |
| Sessions.SessionStore.RevokeSessionByAccessToken | backend/src/services/sessionService.js:93-99 | the table becomes the revoke-by-access table for the token's digest |
| Sessions.IssuedAccessTokenAuthenticates | backend/src/services/sessionService.js:6-48 | a fresh access token authenticates its new session until it expires |
| Sessions.IssuedRefreshTokenRedeemable | backend/src/services/sessionService.js:6-59 | a fresh refresh token is redeemable while both of its windows are open |
| Sessions.RotationRetiresOldRefreshToken | backend/src/services/sessionService.js:50-77 | after rotation the old refresh token matches no row at any time |
| Sessions.RotationRetiresOldAccessToken | backend/src/services/sessionService.js:38-77 | after rotation the old access token authenticates no row at any time |
| Sessions.RotatedRefreshTokenRedeemable | backend/src/services/sessionService.js:50-77 | the new refresh token redeems the same row until the new window or the unchanged lifetime closes |
| Sessions.RefreshBoundedByMaxLife | backend/src/services/sessionService.js:12-57 | however many refreshes follow, a refresh succeeds only before creation time plus the maximum life |
| Sessions.RotationKeepsWellFormed | backend/src/services/sessionService.js:64-77 | rotation keeps ids as positions and each lifetime fixed to its creation time |
| Sessions.RevokedByIdIsDead | backend/src/services/sessionService.js:38-91 | a session revoked by id never authenticates or refreshes again |
| Sessions.LogoutEndsAccess | backend/src/services/sessionService.js:38-99 | after revocation by access token that token authenticates nothing, at any time |
| Sessions.LogoutEndsRefresh | backend/src/services/sessionService.js:50-99 | the revoked row is never refreshed again, under any refresh token |
| Otps.ParsePurpose | backend/src/services/otpService.js:7-11 | a recognised purpose is spelled exactly as its stored name |
| Otps.ParsePurposeExact | backend/src/routes/authRoutes.js:92-95 | a purpose is accepted exactly when it is one of the three spellings |
| Otps.Newest | backend/src/services/otpService.js:41-43 | the chosen row has the address, the purpose and no consumption mark, and the latest creation time among such rows (the later-inserted on a tie); none exactly when no row qualifies |
| Otps.VerifyOutcome | backend/src/services/otpService.js:38-55 | no candidate gives "OTP not found", a wrong code "Invalid OTP", an expired one "OTP expired"; verified exactly when the newest candidate has the code's digest and now ≤ expiry |
| Otps.AfterVerify | backend/src/services/otpService.js:53 | only a verified challenge is marked consumed; otherwise the table is unchanged |
| Otps.OtpStore.CreateOtp | backend/src/services/otpService.js:15-36 | one row is appended with the digest of a code of the configured length, expiry now+TTL, unconsumed; it is stored even when the mail fails; the stored digest is that of the code drawn from the bytes |
| Otps.OtpStore.VerifyOtp | backend/src/services/otpService.js:38-55 | the answer and the new table are the ones specified above |
| Otps.IssuedCodeVerifies | backend/src/services/otpService.js:15-55 | a code just issued verifies until its expiry |
| Otps.NewCodeSupersedesOld | backend/src/services/otpService.js:15-55 | after a new code is issued an older code is answered "Invalid OTP" |
| Otps.ConsumedChallengeNotReselected | backend/src/services/otpService.js:41-53 | a verified challenge is never selected again |
| Otps.SingleUse | backend/src/services/otpService.js:41-53 | when it was the only open challenge, the same code is then answered "OTP not found" |
| Otps.ExpiryBoundaryInclusive | backend/src/services/otpService.js:50 | a code verifies at its expiry instant and is refused one millisecond later |
| Sellers.FindSellerByEmail | backend/src/services/sellerService.js:25-28 | the found row is live and holds the lower-cased address, and nothing is found exactly when no live row does |
| Sellers.FindLiveSellerById | backend/src/middleware/auth.js:13 | the live row with that id, and none exactly when there is none |
| Sellers.SerializeSeller | backend/src/services/sellerService.js:82-93 | the view carries the id text, email, business name, country, wallet address and verification time |
| Sellers.SerializeHidesPasswordHash | backend/src/services/sellerService.js:82-93 | the view does not depend on the password hash |
| Sellers.VerifySellerPassword | backend/src/services/sellerService.js:30-32 | the answer is the password verification against the stored hash |
| Sellers.SellerStore.CreateSeller | backend/src/services/sellerService.js:6-23 | an address any row already holds fails with a duplicate-key error and changes nothing (the unique index of backend/src/db.js:34); otherwise one row is appended with the lower-cased address, the password hash, the default country when none is given and unverified |
| Sellers.SellerStore.MarkSellerVerified | backend/src/services/sellerService.js:34-44 | a live row gets its verification time and is returned; otherwise nothing changes and nothing is returned |
| Sellers.SellerStore.UpdateSellerPassword | backend/src/services/sellerService.js:46-56 | a live row gets the new hash and update time; otherwise nothing changes |
| Sellers.SellerStore.UpdateSellerProfile | backend/src/services/sellerService.js:58-71 | with neither field given the row comes back unchanged, deleted or not; otherwise a live row gets only the given fields and an update time |
| Sellers.RevokeSellerSessions | backend/src/services/sellerService.js:79 | exactly the seller's sessions get a revocation time |
| Sellers.DeleteSellerPayments | backend/src/services/sellerService.js:77 | exactly the seller's payments get a deletion time |
| Sellers.DeleteSellerTransactions | backend/src/services/sellerService.js:78 | exactly the seller's transactions get a deletion time |
| Sellers.DeleteSellerAndData | backend/src/services/sellerService.js:73-80 | the seller row is marked deleted and the three cascades apply to the other stores |
| Sellers.DeletedSellerNotFound | backend/src/services/sellerService.js:25-76 | a deleted seller is found neither by address nor by id |
| Sellers.DeletedSellerPaymentsHidden | backend/src/services/sellerService.js:77 | after the cascade none of the seller's payments is found by id or by link, and the listing is empty |
| Sellers.DeletedSellerSessionsDead | backend/src/services/sellerService.js:79 | after the cascade none of the seller's sessions authenticates or refreshes |
| Http.ParseBearerToken | backend/src/utils/http.js:35-46 | a missing or empty header gives null; a token exactly when there are at least two whitespace-separated words and the first is `bearer` in any case; the token is the other words joined by one space, non-empty and trimmed |
| Http.SplitWhitespace | backend/src/utils/http.js:38 | at least one piece, none containing whitespace |
| Http.WordsNonEmpty | backend/src/utils/http.js:38 | trimmed non-empty text splits into non-empty words |
| Http.JoinWordsTrimmed | backend/src/utils/http.js:41-45 | joining non-empty words gives non-empty trimmed text, so the final `trim()` changes nothing |
| Http.BearerRoundTrip | backend/src/utils/http.js:35-46 | any spelling of `Bearer`, a space and a whitespace-free token parse back to the token |
| AuthContext.ResolveAuthContext | backend/src/middleware/auth.js:5-16 | seller, session and token are all present or all absent; no bearer token or no authenticated session or no live seller gives the empty context |
| AuthContext.IssuedTokenResolves | backend/src/middleware/auth.js:5-16 | a freshly issued token presented as `Bearer <token>` resolves to its live seller and session until it expires |
| Requests.JsString | backend/src/routes/authRoutes.js:25 | `String(v)` of a truthy value is non-empty and of a string is itself |
| Requests.JsNumberOf | backend/src/routes/paymentRoutes.js:30 | a number stays itself, null becomes 0, undefined and objects become NaN |
| Requests.TextIfTruthy | backend/src/routes/authRoutes.js:37-38 | text exactly for a truthy value, and then its non-empty `String()` |
| Requests.MissingFields | backend/src/routes/authRoutes.js:17 | exactly the listed fields that are undefined, null or empty |
| Requests.RequireFields | backend/src/routes/authRoutes.js:16-21 | no error exactly when no listed field is blank; otherwise a 400 naming the blank fields |
| Requests.FilledBodyPasses | backend/src/routes/authRoutes.js:16-21 | a body with every field present and non-blank passes |
| Router.SegmentOf | backend/src/router.js:86-91 | a piece is a parameter exactly when it starts with `:`, named by the rest; any other piece is literal |
| Router.ParamNames | backend/src/router.js:83-88 | the `:name` keys, never more than the pieces |
| Router.ParamNamesAppend | backend/src/router.js:85-93 | keys are collected in path order |
| Router.CompilePath | backend/src/router.js:82-95 | the loop's pattern and keys are the compiled path and its parameter names |
| Router.MatchPieces | backend/src/router.js:89-94 | the anchored pattern matches exactly when the piece counts agree and every piece matches its segment, giving one capture per key |
| Router.CaptureAt | backend/src/router.js:43-49 | the capture numbered like a parameter is the piece at that parameter's position |
| Router.ParamsMap | backend/src/router.js:44-49 | the parameter map's keys are exactly the route's keys |
| Router.ParamsByPosition | backend/src/router.js:46-48 | with distinct keys each key maps to the capture at its index |
| Router.FillParams | backend/src/router.js:44-49 | the loop builds the parameter map just specified |
| Router.RouteParam | backend/src/router.js:43-49 | on a matched pathname each `:name` maps to the pathname piece at its position |
| Router.WellFormedAppend | backend/src/router.js:9-10 | appending a correctly compiled route keeps every route compiled from its own path |
| Router.WellFormedAt | backend/src/router.js:9-10 | in a well-formed table every route's pattern and keys come from its path |
| Router.RouteTable.constructor | backend/src/router.js:5 | the table starts empty |
| Router.RouteTable.RegisterRoute | backend/src/router.js:7-16 | the earlier routes are kept and one is appended with the method upper-cased, its compiled pattern and keys, and `requireAuth` false unless given |
| Router.SelectRoute | backend/src/router.js:25 | the first route whose method equals the request's and whose pattern matches the pathname; none exactly when no route serves it |
| Router.RequestBody | backend/src/router.js:51-54 | GET and other non-body methods get `{}`; body methods fail exactly on text that is not JSON, and a JSON object body is its fields |
| Router.Respond | backend/src/router.js:61-79 | a reply is sent as is, an `HttpError` as its status with `{ error: message }`, anything else as 500 |
| Router.AdmitAsWritten | backend/src/router.js:25-59 | no route gives 404; an invalid body on a matched route escapes `handleRequest` as an error |
| Router.Admit | backend/src/router.js:25-59 | nothing escapes; no route gives 404; an invalid body 400; a guarded route without a seller 401; otherwise the handler runs with the route and body |
| Router.AdmitDiffersOnlyOnInvalidBody | backend/src/router.js:51-59 | both forms agree whenever the body can be read |
| Router.InvalidBodyEscapes | backend/src/router.js:51-54 | as written, an invalid body on a matched POST route escapes to the caller |
| Router.InvalidBodyAnswered400 | backend/src/router.js:51-54 | as corrected, that request is answered 400 "Invalid JSON body" |
| AuthRoutes.Signup | backend/src/routes/authRoutes.js:23-54 | missing fields give 400 and a verified holder 409, and then nothing changes; an unverified holder is reused and nobody new is created for it; a reply comes exactly when the fields are given, the address is free or held unverified, and the mail went out; it appends one signup code for the seller and answers 201 with its expiry. The seller table gains exactly the `createSeller` row when the address is new and free, and is otherwise unchanged; the OTP table gains exactly the challenge for the seller whenever the address passes, earlier rows kept, and is otherwise unchanged; an address held only by a deleted row makes `createSeller` fail with the duplicate-key error, answered as a crash (500) with the OTP table unchanged; a failed mail is the mail crash (500) |
| AuthRoutes.FoundAtId | backend/src/services/sellerService.js:25-28 | a found seller sits at its id (ids are positions) |
| AuthRoutes.SignupVerify | backend/src/routes/authRoutes.js:56-88 | missing fields 400, unknown address 404, a rejected code 400 with its reason; a reply exactly when the code verifies, and then the seller is verified and a session is created. The OTP table is the table after verification whenever the seller is found, and unchanged otherwise; the seller table changes only on a reply to an unverified seller, in that seller's row alone, by setting `verifiedAt`; the reply carries exactly the serialised verified row |
| AuthRoutes.IssueFor | backend/src/routes/authRoutes.js:97-101 | unknown address 404 and nothing changes; otherwise exactly one challenge for the seller, purpose and clock reading is appended, earlier rows kept, also when the mail fails; a failed mail refuses with the mail crash (500) |
| AuthRoutes.ResendOtp | backend/src/routes/authRoutes.js:90-103 | missing fields 400, an unknown purpose "Invalid OTP purpose"; a reply exactly when the seller exists and the mail went out; the OTP table gains exactly one challenge, earlier rows kept, when the fields and purpose pass and the seller exists, and is otherwise unchanged; with valid fields and purpose an unknown address gives 404 "Seller not found" and a failed mail the mail crash (500) |
| AuthRoutes.Login | backend/src/routes/authRoutes.js:105-127 | unknown 404, unverified 403, wrong password 401, and none of them changes the sessions; success appends exactly one session and returns its tokens |
| AuthRoutes.RequestLoginOtp | backend/src/routes/authRoutes.js:129-137 | missing email 400; a reply exactly when the seller exists and a login code was sent; the OTP table gains exactly one login challenge, earlier rows kept, when the seller exists, and is otherwise unchanged; an unknown address gives 404 "Seller not found" and a failed mail the mail crash (500) |
| AuthRoutes.VerifyLoginOtp | backend/src/routes/authRoutes.js:139-160 | unknown 404, a rejected code 400; a session only when the code verifies, with no verified-address check; the OTP table is the table after verification whenever the seller is found, and unchanged otherwise |
| AuthRoutes.RequestPasswordReset | backend/src/routes/authRoutes.js:162-169 | missing email 400; a reply exactly when the seller exists and a reset code was sent; the OTP table gains exactly one reset challenge, earlier rows kept, when the seller exists, and is otherwise unchanged; an unknown address gives 404 "Seller not found" and a failed mail the mail crash (500) |
| AuthRoutes.ResetPassword | backend/src/routes/authRoutes.js:171-180 | unknown 404, a rejected code 400, and then the password is unchanged; success stores the new password's hash in that seller's row alone; the OTP table is the table after verification whenever the seller is found, and unchanged otherwise |
| AuthRoutes.Logout | backend/src/routes/authRoutes.js:182-193 | without a session 401 and nothing changes; with one the reply is "Logged out", and the presented token's row is revoked when there is a token |
| AuthRoutes.Refresh | backend/src/routes/authRoutes.js:195-208 | a missing token gives 400 and a token that is not refreshable 401, and then nothing changes; otherwise the row is rotated and the new tokens are returned |
| ProfileRoutes.GetProfile | backend/src/routes/profileRoutes.js:12-20 | 401 exactly without a seller; otherwise the serialised profile |
| ProfileRoutes.ProfileHidesPasswordHash | backend/src/routes/profileRoutes.js:17 | the profile reply does not depend on the password hash |
| ProfileRoutes.UpdateProfile | backend/src/routes/profileRoutes.js:22-34 | without a seller 401 and nothing changes; otherwise only a truthy name or country is written, and the reply falls back to the current seller; with neither field the table is unchanged and the reply is the stored row, or the signed-in seller when no row has its id |
| ProfileRoutes.DeleteProfile | backend/src/routes/profileRoutes.js:36-48 | without a seller 401 and nothing changes; otherwise the cascade runs, then the presented token's session is revoked |
| ProfileRoutes.ChangePassword | backend/src/routes/profileRoutes.js:50-66 | without a seller 401, a missing password 400, a wrong current password 403, and none of them changes anything; success stores the new hash |
| PaymentRoutes.AmountOf | backend/src/routes/paymentRoutes.js:30-31 | NaN exactly when the number did not parse |
| PaymentRoutes.CreatePayment | backend/src/routes/paymentRoutes.js:15-47 | without a seller 401, without a name 400, with neither price field present 400; a price of exactly 0 and no USD price fails in the service; a failure changes nothing; once the price passes, the reply comes exactly when the slug settles, and the new row's link is the settled one; success appends one row with a truthy `blockchainTxId` recorded; the new row is exactly the `createPayment` row built from the body (image or upload, description, success message, redirect URL, USD flag) with the transaction recorded |
| PaymentRoutes.QueryNumber | backend/src/routes/paymentRoutes.js:54-55 | an absent or empty query value gives the default |
| PaymentRoutes.Views | backend/src/routes/paymentRoutes.js:58 | one serialised view per listed row, in order |
| PaymentRoutes.ListPayments | backend/src/routes/paymentRoutes.js:49-63 | without a seller 401; a reply lists the seller's page with the limit and offset echoed and the count equal to the items sent |
| PaymentRoutes.ListDefaults | backend/src/routes/paymentRoutes.js:54-55 | with no query the limit is 20, the offset 0 and at most 20 items are sent |
| PaymentRoutes.GetPayment | backend/src/routes/paymentRoutes.js:65-77 | without a seller 401; a payment that is missing or someone else's 404; a reply is the seller's own payment |
| PaymentRoutes.DeletePayment | backend/src/routes/paymentRoutes.js:79-96 | without a seller 401, missing or foreign 404, and nothing changes; for the owner the row is deactivated with the truthy `txId` or null |
| PaymentRoutes.RecordSellerTransaction | backend/src/routes/paymentRoutes.js:98-121 | 401, 404 for missing or foreign, then 400 without `txId` and `kind`; a reply appends one record filed under the signed-in seller |
| PaymentRoutes.RecordPublicTransaction | backend/src/routes/paymentRoutes.js:123-139 | the fields are checked first (400), then the payment (404); a reply appends one record filed under the payment's own seller |
| PaymentRoutes.GetPublicPayment | backend/src/routes/paymentRoutes.js:141-147 | a reply exactly when an active non-deleted payment has that link, otherwise 404 |
| Api.RegisterAuthRoutes | backend/src/routes/authRoutes.js:23-208 | the ten authentication routes are appended in file order, only logout guarded |
| Api.RegisterPaymentRoutes | backend/src/routes/paymentRoutes.js:15-147 | the seven payment routes are appended in file order, the five seller ones guarded |
| Api.RegisterProfileRoutes | backend/src/routes/profileRoutes.js:12-66 | the four profile routes are appended, all guarded |
| Api.LoadRoutes | backend/src/app.js:3-5 | the table app.js loads holds the 21 routes |
| Api.Dispatch | backend/src/router.js:61-71 | the handler registered for the endpoint runs on the stores, which stay valid |
| Api.DispatchAuth | backend/src/router.js:61-71 | an authentication handler runs on the seller, OTP and session stores, which stay valid |
| Api.DispatchPayment | backend/src/router.js:61-71 | a payment handler runs on the payment and transaction stores, which stay valid |
| Api.RunHandler | backend/src/router.js:61-79 | running the matched route's handler on the body, the captured parameters and the query keeps every store valid; what it answers and changes is each handler's own contract |
| Api.HandleRequestAsWritten | backend/src/router.js:18-80 | as written: a request settled before the handler gets exactly that response and no store changes; an invalid body on a matched route escapes as the thrown error and no store changes |
| Api.AppHandler | backend/src/app.js:10-22 | what escapes `handleRequest` is answered 500, so, as written, a matched request with an invalid body gets 500 and no store changes; a request settled before the handler gets exactly that response |
| Api.HandleRequest | backend/src/router.js:18-80 | the corrected `handleRequest`: a request settled before the handler gets exactly that response and no store changes; an invalid body on a matched route gets 400 "Invalid JSON body"; a guarded route without a seller gets 401 and no store changes |
| FrontendUtils.CountChars | frontend/src/utils/utils.ts:1-3 | the UTF-16 length: between \|text\| and 2\|text\|, and exactly \|text\| for text in the basic plane |
| FrontendUtils.CountCharsAppend | frontend/src/utils/utils.ts:1-3 | the count is additive over concatenation |
| FrontendUtils.SanitizeSlug | frontend/src/utils/utils.ts:5-12 | only `[a-z0-9-]`, no `--`, never a leading dash, and at most `length` characters for a non-negative length |
| FrontendUtils.SlugTextIsTrimmed | frontend/src/utils/utils.ts:5-12 | slug-alphabet text without `--` only loses its edge dashes and is cut |
| FrontendUtils.CleanSlugIsKept | frontend/src/utils/utils.ts:5-12 | a clean slug is only cut to length |
| FrontendUtils.TrailingDashSurvives | frontend/src/utils/utils.ts:9-11 | a cut that ends on a dash keeps it, and sanitising that again drops it, so the sanitiser is not idempotent |
| FrontendUtils.SanitizedSlugSurvivesNormalize | frontend/src/utils/utils.ts:5-12 | a sanitised slug of at most 64 characters with no trailing dash reaches the backend's `normalizeSlug` unchanged |
| FrontendUtils.Base36Digit | frontend/src/utils/utils.ts:20 | `(v).toString(36)` for v < 36 is one base-36 digit that reads back as v |
| FrontendUtils.RandomString | frontend/src/utils/utils.ts:15-21 | a non-positive length gives ""; otherwise exactly `length` characters, each the base-36 digit of its byte modulo 36 |
| FrontendUtils.SlugValueFrom | frontend/src/utils/utils.ts:30-37 | for 1 ≤ length ≤ 54 exactly `length` characters; a long enough base is returned as is, a shorter one keeps the base as its prefix and is filled up with `0` |
| FrontendUtils.ZeroPadded | frontend/src/utils/utils.ts:35-36 | a text shorter than `length`, padded with the 54 zeros and cut to `length`, is the text followed by zeros only |
| FrontendUtils.GenerateSlugValue | frontend/src/utils/utils.ts:30-37 | any positive length gives exactly that many characters, the prefix of the random text, so the padding is never needed |
| FrontendUtils.GeneratedSlugDigits | frontend/src/utils/utils.ts:20-31 | character i of a generated slug is the base-36 digit of byte i modulo 36 |
| FrontendUtils.ValidateSlug | frontend/src/utils/utils.ts:39-47 | no error exactly when the value is non-empty and at least `minLength` long; empty gets the "between" message, too short the "at least" message |
| FrontendUtils.MaxLengthNeverChecked | frontend/src/utils/utils.ts:39-47 | a value longer than `maxLength` still passes |
| FlowConfig.EnsureHexPrefix | frontend/src/flow/config.ts:1-4 | "" exactly for a missing or empty value; a value starting with `0x` is kept; any other gets `0x` in front |
| FlowConfig.EnsureHexPrefixIdempotent | frontend/src/flow/config.ts:1-4 | every output is empty or starts with `0x`, and prefixing again changes nothing |
| FlowConfig.Addresses | frontend/src/flow/config.ts:6-13 | every address starts with `0x`; the defaults are the emulator account and the `WalPay` contract name; a configured `0x` address is kept |

## Left out

- **The document store.** The collections are in-memory sequences. The connection, the index set-up and the TTL clean-up of backend/src/db.js are not part of this model. Two unique indexes are modelled: the one on the seller `email` (backend/src/db.js:34), which CreateSeller enforces, and the one on the payment `paymentLink` (backend/src/db.js:49), which `resolvePaymentSlug`'s lookups keep and `Payments.WellFormed` states. Natural order is taken to be insertion order.
- **Cryptographic and encoding primitives.** SHA-256, PBKDF2, random bytes, base64 and base64url are parameters. Their randomness and collision resistance appear only as hypotheses of the lemmas that need them, for example distinct digests.
- **Even spread of the codes.** It cannot be expressed; `% 10` on a byte is biased in any case.
- **Clock.** `new Date()` is an explicit `now`. `toIso` (backend/src/utils/time.js:9-11) is date formatting and is not modelled.
- **Concurrency.** Two refreshes racing on one row are not modelled, nor is a cascade interrupted half-way. Each request runs to completion on its own.
- **Mail, image host and chain submission.** These are collaborators outside the core. A failed mail delivery is a parameter and answers 500. The image host's answer is a parameter, and its failure is not modelled. The `flowService` submissions are not modelled, because they do not change the stores.
- **Money.** The fee, total and USD conversion arithmetic is floating point and is not modelled; only whether a price was given and whether the USD rate is set are kept. The same holds for `toUFix64` in frontend/src/flow/config.ts:15-21.
- **Logging.** Logging does not change behaviour.
- **Request parsing.** Parsing the URL and decoding the body's UTF-8 are not modelled: a request arrives as method, pathname, query map and a body that is a JSON object, empty, or not JSON. A JSON body that parses to something other than an object is left out.
- **Non-string body values.** Where `String()` of such a value is taken, it is a fixed non-empty text.
- **`Number()`.** Only whitespace-trimmed unsigned decimal text is modelled as a number (and blank text as 0). Any other spelling is taken as NaN. A NaN limit or offset is modelled as the query failing with 500.
- **Case mapping.** `toLowerCase` and `toUpperCase` are modelled on ASCII letters only. JavaScript also maps other letters, such as `İ` to two characters and the Kelvin sign to `k`, so `FindSellerByEmail` differs for such addresses.
- **String positions.** The string operations work on code points. `countChars` and `validateSlug` count UTF-16 code units, as `length` does.
- **`findOneAndUpdate`.** It is taken to return its `{ value }` wrapper (the driver's shape before version 6).
- **OTP tie-break.** When two open codes have the same creation time, the later-inserted one is taken as the newest. The store leaves that order unspecified.
- **The frontend's other random source.** The `Math.random` path of `generateRandomString` (frontend/src/utils/utils.ts:22-26) is not modelled. The model takes the `crypto.getRandomValues` path.
- **Flow build-time variables.** They are parameters.
- **Non-core files.** The React components, pages, browser storage and API clients of the frontend are not part of this model. Neither are the root route of backend/src/routes/rootRoute.js, which app.js never imports, the server start-up (backend/src/server.js, backend/src/index.js) and the application wrapper's logging.
- Api.LoadRoutes: states the number of routes, not that each is correctly compiled. RegisterRoute states each appended route exactly, `WellFormedAppend` shows that appending such routes keeps the table well formed, and `HandleRequest` takes a well-formed table as its precondition.
- Api.HandleRequest: is the corrected half of the finding below: it answers an invalid body 400, where the source lets the error escape and app.js answers 500 (that path is Api.HandleRequestAsWritten with Api.AppHandler). It specifies the request answers settled before the handler call. Once a handler runs, each handler's own contract describes what happens, and `HandleRequest` states only that the stores stay valid.
- Api.RunHandler: states only that the stores stay valid; each handler's own contract says what it answers and changes.
- Api.HandleRequestAsWritten: the same limit once a handler runs.
- Api.AppHandler: models only the `try`/`catch` around `handleRequest`. Setting the CORS headers and answering preflights are Cors.ApplyCors and Cors.HandlePreflight, and resolving the auth context is AuthContext.ResolveAuthContext; they are applied before it and not composed into it, because the response model carries no headers.
- **Identifiers.** Ids are table positions, and their text is the decimal rendering of the position. This stands in for ObjectId text, which is 24 hexadecimal digits, and for `ObjectId.isValid`, which accepts such text. The model keeps the round trip between an id and its text and the refusal of other text.
- Api.Dispatch: states only that the stores stay valid; each handler's contract says what it does.
- Api.DispatchAuth: the same, for the authentication handlers.
- Api.DispatchPayment: the same, for the payment handlers.

## Findings

| source | as written | input that shows it | evidently intended | confidence | as-written member | corrected member |
|---|---|---|---|---|---|---|
| backend/src/router.js:51-54 | `readJsonBody` throws `HttpError(400, "Invalid JSON body")` before the handler's `try`, so the error escapes `handleRequest` and backend/src/app.js:18-20 answers 500 | `POST /auth/login` with the body `{` | the 400 "Invalid JSON body" the error carries, like every other `HttpError` | not executed | Router.AdmitAsWritten (Router.InvalidBodyEscapes, Api.HandleRequestAsWritten, Api.AppHandler) | Router.Admit (Router.InvalidBodyAnswered400, Api.HandleRequest) |
