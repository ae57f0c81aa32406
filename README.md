# Bootstrap Academy backend: sessions, Morphcoins and PayPal, in Dafny

This project models the account, session and coin-purchase logic of the Bootstrap Academy
backend, and proves what that logic promises.

- **Login and sessions** (`SessionFeature`):
  - password login, with a CAPTCHA gate driven by failed-attempt counters;
  - MFA with its reset path;
  - refresh, admin impersonation, and listing and deleting sessions.
- **Morphcoins**:
  - the ledger repository, specified by its contract (`CoinRepository`);
  - the coin service that forwards to it (`CoinService`);
  - the caller-facing coin feature (`CoinFeature`);
  - the internal grant endpoint with its withhold rule (`InternalService`).
- **Buying Morphcoins through PayPal**:
  - the order table and its invoice numbering (`PaypalRepository`);
  - the order service (`PaypalCoinOrder`);
  - the feature with its guard chain (`PaypalFeature`);
  - the PayPal test server with its order life cycle and price parser (`PaypalMockServer`);
  - the client's price text and reply classification (`PaypalClient`).
- **Smaller pieces**:
  - the REST user models, i.e. the `me`/`self`/UUID selector, the password-or-empty field and the struct conversions (`UserApi`);
  - turning MFA off (`MfaDisable`);
  - the get-or-build cache of the dependency-injection provider (`Di`).

Services that change state are classes. Their tables are `map` fields that methods update, and each method's `ensures` states the new state on every path.

Collaborators whose code is not part of this model are functions fixed when a service is built:
- access-token and internal-token checks;
- password, MFA, CAPTCHA and refresh-token checks.

The PayPal API is different: its reply to each request is a parameter of the operation that sends it, so two requests for the same amount or the same order can get different answers.

Calls to collaborators that matter to the behaviour are recorded in ghost logs, for example the CAPTCHA responses checked and the PayPal requests sent together with the replies they got.

Transactions work as follows:
- Database tables are restored on every error path after a write.
- Caches are never restored. These are the failed-login counters and the access-token revocations.

Integers are unbounded. The `u64` and `i64` ranges are subset types, and every conversion between them is checked where the code checks it.

## Model

| member | source | states |
|---|---|---|
| Models.ResolveUser | academy_core/coin/impl/src/lib.rs:46 | `me` is the caller; an explicit id is itself |
| Models.EnsureAdmin | academy_core/coin/impl/src/lib.rs:71 | passes exactly for an administrator, otherwise the admin refusal |
| Models.EnsureSelfOrAdmin | academy_core/coin/impl/src/lib.rs:47 | passes exactly when the target is the caller or the caller is an administrator |
| Models.EnsureEmailVerified | academy_core/paypal/impl/src/lib.rs:69 | passes exactly when the caller's address is verified, otherwise the email-verified refusal |
| Models.SelfAlwaysAuthorized | academy_core/coin/impl/src/lib.rs:45-47 | a caller acting on `me` always passes the self-or-admin check |
| SessionFeature.Incremented | academy_core/session/impl/src/lib.rs:152-154 | one more failure for that identifier, every other count unchanged |
| SessionFeature.Cleared | academy_core/session/impl/src/lib.rs:202-211 | the count for that identifier is zero, every other count unchanged |
| SessionFeature.IncrementAccount | academy_core/session/impl/src/lib.rs:159-171 | one more failure on the account's name and, when it has one, on its email address; nothing else changes |
| SessionFeature.ResetAccount | academy_core/session/impl/src/lib.rs:202-211 | the counts for the account's name and email address are zero; nothing else changes |
| SessionFeature.FailuresAddUp | academy_core/session/impl/src/lib.rs:159-171 | `k` failures against one account add exactly `k` to its name's count and to its address's count |
| SessionFeature.FailuresRequireCaptcha | academy_core/session/impl/src/lib.rs:128-141 | after `login_fails_before_captcha` failures against an account, logging in with its name or its address demands a CAPTCHA |
| SessionFeature.ResetLiftsCaptcha | academy_core/session/impl/src/lib.rs:128-141 | after a successful check the account's name and address no longer demand a CAPTCHA |
| SessionFeature.FailedAuthCount.Get | academy_core/session/impl/src/lib.rs:128-131 | the stored count, zero for an identifier never counted |
| SessionFeature.FailedAuthCount.Increment | academy_core/session/impl/src/lib.rs:152-154 | the counters become `Incremented` of the old counters |
| SessionFeature.FailedAuthCount.Reset | academy_core/session/impl/src/lib.rs:202-211 | the counters become `Cleared` of the old counters |
| SessionFeature.SessionStore.Create | academy_core/session/impl/src/lib.rs:217-220 | a session under an id no row had, for the composite's user, with the device name; the call and its flag are logged |
| SessionFeature.SessionStore.Delete | academy_core/session/impl/src/lib.rs:308 | removes exactly that row and revokes it when it existed; reports whether it existed |
| SessionFeature.SessionStore.DeleteByUser | academy_core/session/impl/src/lib.rs:338 | removes and revokes every session of the user, keeps every other session |
| SessionFeature.SessionFeatureSvc.FindUser | academy_core/session/impl/src/lib.rs:145-157 | the one user the name or address denotes, or `None` exactly when no user has it |
| SessionFeature.SessionFeatureSvc.GetCurrentSession | academy_core/session/impl/src/lib.rs:95-104 | an invalid token is refused; the caller's stored session, or an internal error when it is gone |
| SessionFeature.SessionFeatureSvc.ListByUser | academy_core/session/impl/src/lib.rs:106-121 | `me` is the caller, who must be that user or an administrator; the result holds each of the user's sessions exactly once and no other |
| SessionFeature.SessionFeatureSvc.CreateSession | academy_core/session/impl/src/lib.rs:123-225 | the CAPTCHA is checked exactly when the submitted identifier's count has reached the threshold, and a failed one refuses before any lookup; an unknown account counts against the submitted identifier only; an unknown account and a wrong password give the same error; the rest is `LoginAs` |
| SessionFeature.SessionFeatureSvc.LoginAs | academy_core/session/impl/src/lib.rs:159-225 | a wrong password or refused MFA counts against name and address; MFA is consulted only when enabled; after both pass the counts are reset and only then is a disabled user refused, with no session; a login creates a session with the device name and flag `true`; a recovery-code login hands over the composite with MFA off; failures leave the sessions as they were |
| SessionFeature.SessionFeatureSvc.IncrementFailedAttempts | academy_core/session/impl/src/lib.rs:159-171 | the counters become `IncrementAccount` of the old counters |
| SessionFeature.SessionFeatureSvc.Impersonate | academy_core/session/impl/src/lib.rs:227-251 | only an administrator; an unknown user is `NotFound` with no session; otherwise a session with no device name and flag `false` |
| SessionFeature.SessionFeatureSvc.RefreshSession | academy_core/session/impl/src/lib.rs:253-287 | every failure is `InvalidRefreshToken`; an expired token leaves the rows as they were and revokes that session; a valid one returns the session and its user |
| SessionFeature.SessionFeatureSvc.DeleteSession | academy_core/session/impl/src/lib.rs:289-313 | self-or-admin after resolving `me`; a session that is absent or another user's is `NotFound` and nothing is deleted; otherwise exactly that session is deleted and revoked |
| SessionFeature.SessionFeatureSvc.DeleteCurrentSession | academy_core/session/impl/src/lib.rs:315-325 | the caller's own session is deleted and revoked; a session already gone is not an error |
| SessionFeature.SessionFeatureSvc.DeleteByUser | academy_core/session/impl/src/lib.rs:327-343 | self-or-admin after resolving `me`; exactly the user's sessions are deleted and revoked |
| CoinRepository.ApplyAddCoins | academy_persistence/postgres/tests/repos/coins.rs:14-99 | refused exactly when the field `withhold` selects would go negative; otherwise only that field changes, by the amount |
| CoinRepository.AddThenRemove | academy_persistence/postgres/tests/repos/coins.rs:14-99 | removing what was just added restores the balance |
| CoinRepository.GrantNeverRefused | academy_persistence/postgres/tests/repos/coins.rs:14-99 | a non-negative change is never refused |
| CoinRepository.CoinRepo.GetBalance | academy_persistence/postgres/src/coin.rs:1-66 | the stored balance, zero for a user with none |
| CoinRepository.CoinRepo.AddCoins | academy_persistence/postgres/tests/repos/coins.rs:14-99 | the result is `ApplyAddCoins` of the old balance; only that user's balance changes, and only on success |
| CoinService.MapRepoError | academy_core/coin/impl/src/coin.rs:34-37 | success and its balance pass through; `NotEnoughCoins` is renamed |
| CoinService.CoinSvc.AddCoins | academy_core/coin/impl/src/coin.rs:21-38 | user, amount and withhold flag reach the repository unchanged; the result does not depend on the description or credit-note flag |
| CoinFeature.CoinFeatureSvc.GetBalance | academy_core/coin/impl/src/lib.rs:40-58 | `me` resolves to the caller, who must be that user or an administrator; an unknown user is `UserNotFound`; otherwise the stored balance |
| CoinFeature.CoinFeatureSvc.AddCoins | academy_core/coin/impl/src/lib.rs:61-101 | only an administrator, even for their own balance; an unknown user is `UserNotFound`; the change is never withheld; `NotEnoughCoins` passes through with the balance unchanged |
| InternalService.GrantOutcome | academy_core/internal/impl/src/lib.rs:89 | under the `Withhold` decision a non-negative grant always succeeds, landing in the withheld coins exactly when the user cannot receive coins and in the spendable coins otherwise; a removal takes only spendable coins and is refused exactly when they do not cover it |
| InternalService.InternalSvc.GetUser | academy_core/internal/impl/src/lib.rs:37-51 | needs the `auth` audience; the stored user, or `NotFound` |
| InternalService.InternalSvc.GetUserByEmail | academy_core/internal/impl/src/lib.rs:54-68 | needs the `auth` audience; the user with that address, or `NotFound` when there is none; addresses are unique, so the user found is the only one with it |
| InternalService.InternalSvc.AddCoins | academy_core/internal/impl/src/lib.rs:71-110 | needs the `shop` audience; an unknown user is `UserNotFound`; amount, description and credit-note flag are forwarded with the withhold decision; `NotEnoughCoins` passes through |
| PaypalRepository.PaypalRepo.CreateCoinOrder | academy_persistence/postgres/src/paypal.rs:16-40 | values above `i64::MAX` are refused; success exactly for in-range values and a new id, inserting exactly that row; a failure stores nothing |
| PaypalRepository.PaypalRepo.GetCoinOrder | academy_persistence/postgres/src/paypal.rs:42-58 | `None` exactly for an absent id, otherwise the stored row |
| PaypalRepository.PaypalRepo.CaptureCoinOrder | academy_persistence/postgres/src/paypal.rs:60-74 | sets only `captured_at` of the matching row; an absent id changes nothing |
| PaypalRepository.PaypalRepo.GetNextInvoiceNumber | academy_persistence/postgres/src/paypal.rs:76-85 | above every stored invoice number, and one more than the largest or 1 when there is none; the overflow when the largest is `i64::MAX` |
| PaypalCoinOrder.CoinOrderSvc.Create | academy_core/paypal/impl/src/coin_order.rs:28-50 | the order is the buyer's, holds the coins, was created now, is uncaptured and numbered above every stored invoice; exactly that order is stored; when it fails nothing is stored |
| PaypalCoinOrder.CoinOrderSvc.Capture | academy_core/paypal/impl/src/coin_order.rs:53-66 | stamps the order captured now, then credits its coins to the spendable balance and returns it; coins beyond `i64` are refused |
| PaypalFeature.PaypalFeatureSvc.CreateCoinOrder | academy_core/paypal/impl/src/lib.rs:57-100 | range before authentication, then email verified, then invoice info, and only then PayPal, whose request and reply are logged; PayPal's refusal stores nothing; success stores the caller's order for the coins under the id PayPal returned and returns it; an order is captured exactly when credited |
| PaypalFeature.PaypalFeatureSvc.CaptureCoinOrder | academy_core/paypal/impl/src/lib.rs:103-143 | only the caller's uncaptured order, otherwise `NotFound`, so a second capture is refused; invoice info before PayPal, whose request and reply are logged; PayPal's refusal is `CaptureOrderFailure`; any failure leaves orders and balances as they were; success credits the coins once and marks the order captured |
| PaypalMockServer.Stage | academy_testing/src/paypal.rs:70-74 | the life-cycle position of a state, at most 2 |
| PaypalMockServer.StepAdvances | academy_testing/src/paypal.rs:122-157 | every confirm or capture moves exactly one stage forward |
| PaypalMockServer.CapturedIsFinal | academy_testing/src/paypal.rs:143-148 | nothing follows capture |
| PaypalMockServer.After | academy_testing/src/paypal.rs:122-157 | the state after `n` moves from creation is at stage `n` |
| PaypalMockServer.RunFromCreated | academy_testing/src/paypal.rs:122-157 | every run from `Created(c)` is a prefix of `Created(c)`, `Confirmed(c)`, `Captured` |
| PaypalMockServer.ParseU64 | academy_testing/src/paypal.rs:94-95 | accepted exactly for an optional `+` followed by at least one digit, within `u64`; the value of those digits |
| PaypalMockServer.FindChar | academy_testing/src/paypal.rs:92 | the first occurrence, or `None` exactly when the character is absent |
| PaypalMockServer.ParsePrice | academy_testing/src/paypal.rs:92-100 | anything but a first dot with a non-empty integer part before it and two characters after it is malformed; a price is the integer part times 100 plus the fraction |
| PaypalMockServer.ParsePriceComplete | academy_testing/src/paypal.rs:92-100 | on every well-shaped text: both parts read and the total fits gives that price; an overflowing integer part or total is an overflow; an unreadable part is malformed, the fraction only once the integer part fits |
| PaypalMockServer.CheckCreateRequest | academy_testing/src/paypal.rs:85-100 | intent `CAPTURE`, one purchase unit and euros, or the request is refused; when all three hold, the outcome is exactly `ParsePrice` of its amount |
| PaypalMockServer.MockServer.CreateOrder | academy_testing/src/paypal.rs:76-112 | wrong credentials 401 and a refused body 400, storing nothing; otherwise `Created` at the price under the new id, 201 |
| PaypalMockServer.MockServer.GetOrder | academy_testing/src/paypal.rs:114-120 | 200 with the state exactly for a stored id, otherwise 404 |
| PaypalMockServer.MockServer.ConfirmOrder | academy_testing/src/paypal.rs:122-131 | only `Created(c)` moves, to `Confirmed(c)`; anything else is 404 and changes nothing |
| PaypalMockServer.MockServer.CaptureOrder | academy_testing/src/paypal.rs:133-157 | wrong credentials 401; only `Confirmed` moves, to `Captured`, with `COMPLETED`; anything else is 404 and changes nothing |
| PaypalClient.DecimalValue | academy_extern/impl/src/paypal.rs:48 | the decimal text of a number reads back as that number |
| PaypalClient.DecimalParses | academy_extern/impl/src/paypal.rs:48 | `u64::from_str` reads the decimal text of every `u64` back as that number |
| PaypalClient.FormatPrice | academy_extern/impl/src/paypal.rs:48 | digits, a dot, and exactly two digits |
| PaypalClient.PriceRoundTrip | academy_extern/impl/src/paypal.rs:48 | the test server reads the client's price text back as the same number of cents |
| PaypalClient.CreateOrderBody | academy_extern/impl/src/paypal.rs:50-53 | intent `CAPTURE`, one purchase unit, euros at the formatted price |
| PaypalClient.CreateBodyAccepted | academy_extern/impl/src/paypal.rs:50-53 | every body the client sends passes the test server's checks at the requested amount |
| PaypalClient.ClassifyCreate | academy_extern/impl/src/paypal.rs:69-84 | an order id exactly for a 2xx reply whose body holds an id of at most 256 characters |
| PaypalClient.ClassifyCapture | academy_extern/impl/src/paypal.rs:102-121 | captured exactly for a 2xx reply whose body says `COMPLETED` |
| PaypalClient.CreateAgainstServer | academy_extern/impl/src/paypal.rs:69-84 | against the test server, a stored order is read as created under its id and every refusal as `Failed` |
| PaypalClient.CaptureAgainstServer | academy_extern/impl/src/paypal.rs:102-121 | against the test server, only its successful capture counts |
| PaypalClient.NewConfig | academy_extern/impl/src/paypal.rs:33-39 | the override when given, otherwise `https://api.paypal.com`; credentials kept |
| UserApi.ParseUuid | academy_api/rest/src/models/user.rs:103-105 | accepted exactly as 32 hex digits, the hyphenated form, the hyphenated form in braces or after `urn:uuid:`; the value is that of the hex digits, below 2^128 |
| UserApi.UuidSpellingsAgree | academy_api/rest/src/models/user.rs:103-105 | the braced and `urn:uuid:` spellings of a hyphenated UUID parse to the same value as it |
| UserApi.HexRoundTrip | academy_api/rest/src/models/user.rs:103-105 | hex text of a number reads back as that number |
| UserApi.UuidRoundTrip | academy_api/rest/src/models/user.rs:103-105 | every UUID's text parses back to it |
| UserApi.Lower | academy_api/rest/src/models/user.rs:106 | each capital letter becomes its small letter, nothing else changes |
| UserApi.ParseUserIdOrSelf | academy_api/rest/src/models/user.rs:91-112 | a UUID first; otherwise `me`/`self` in any case select the caller; anything else is refused |
| UserApi.SelfWordsSelectCaller | academy_api/rest/src/models/user.rs:106-108 | `me` and `self` in any letter case always select the caller |
| UserApi.EmptyRejected | academy_api/rest/src/models/user.rs:109 | the empty string is refused |
| UserApi.UuidSelectsUser | academy_api/rest/src/models/user.rs:103-105 | a UUID's text selects that user, never the caller |
| UserApi.ToUserIdOrSelf | academy_api/rest/src/models/user.rs:114-121 | the variant and the id are kept |
| UserApi.ParsePasswordOrEmpty | academy_api/rest/src/models/user.rs:123-129 | `""` is empty; a non-empty string within the length limit is that password; a longer one is refused |
| UserApi.SecondsOf | academy_api/rest/src/models/user.rs:30-57 | a timestamp as whole seconds, absent when absent |
| UserApi.ToApiUser | academy_api/rest/src/models/user.rs:30-57 | every field from user, profile and details, MFA from `mfa_enabled`, password from `password_login`, times in seconds |
| UserApi.ApiUserDeterminesComposite | academy_api/rest/src/models/user.rs:30-57 | the API view loses nothing of user, profile and details but sub-second time |
| UserApi.ToUserFilter | academy_api/rest/src/models/user.rs:71-83 | every criterion copied unchanged |
| MfaDisable.DevicesWithout | academy_core/mfa/impl/src/disable.rs:17-19 | exactly the devices of other users, unchanged |
| MfaDisable.DevicesWithoutIdempotent | academy_core/mfa/impl/src/disable.rs:17-19 | removing a user's devices twice is removing them once |
| MfaDisable.MfaRepo.DeleteTotpDevicesByUser | academy_core/mfa/impl/src/disable.rs:17-19 | the user's devices and nothing else, or nothing on failure |
| MfaDisable.MfaRepo.DeleteMfaRecoveryCodeHash | academy_core/mfa/impl/src/disable.rs:21-23 | the user's hash and nothing else, or nothing on failure |
| MfaDisable.MfaDisableSvc.Disable | academy_core/mfa/impl/src/disable.rs:16-26 | afterwards the user has no device and no hash; devices go first, so a failure there leaves the hash; other users untouched |
| Di.Provider.BuildArc | academy_di/src/lib.rs:30-43 | a hit returns the cached handle without building; a miss builds once, caches a new handle and returns it |
| Di.Provider.Provide | academy_di/src/lib.rs:22-26 | `provide` is the type's `build`: plain values are built afresh, handles go through the cache |
| Di.BuildArcTwice | academy_di/src/lib.rs:36-41 | building the same `Arc` twice returns the same handle, building at most once |

## Left out

- I/O failures are not modelled. These are the `Other` errors of the database, cache, HTTP client and time services. There are two exceptions. First, where the modelled state itself produces the error: a missing authenticated user or session, an `i64` conversion, or a taken order id. Second, turning MFA off: there the repository's failures are parameters (`ioFailure` of `MfaDisable.MfaRepo.DeleteTotpDevicesByUser` and `MfaDisable.MfaRepo.DeleteMfaRecoveryCodeHash`, `devicesFail` and `hashFail` of `MfaDisable.MfaDisableSvc.Disable`), so the order of the two deletions and what a failure leaves behind are modelled.
- Concurrency is not modelled; every operation runs as one atomic sequential step. That covers async execution, the connection pool and the test server's lock.
- The session service, whose implementation is not part of this model, is a minimal stand-in:
  - `create` adds a row under a new id;
  - `delete` removes the row and revokes the session;
  - `delete_by_user` removes and revokes every row of the user.
  Token issuing and the effect of `create`'s boolean flag are not modelled; the flag is only logged.
- SessionFeature.SessionFeatureSvc.RefreshSession: the rotation of the refresh token and the session's timestamps are not modelled; a valid refresh returns the stored session unchanged.
- SessionFeature.SessionFeatureSvc.RefreshSession: on an expired token the code calls `delete` and then returns without committing. The documented intent is that the expired session is removed. The model follows the code: the row stays, and only the revocation, which lives in the cache, remains.
- SessionFeature.SessionFeatureSvc.FindUser: names and addresses match exactly; the repository's case handling is not modelled.
- The failed-attempt counters do not expire; the cache's time-to-live is not modelled.
- Access-token checks do not consult the revocations; the token service is an opaque function of the token.
- The password, MFA, CAPTCHA, refresh-token, access-token and internal-token checks are opaque functions. Hashing, TOTP and reCAPTCHA are not modelled.
- InternalService.InternalSvc: that no two users share an email address is taken as an invariant of the user table, which the constructor requires; the code that keeps it is not part of this model.
- Whether a user can buy or receive coins is kept as two flags of the composite. They are computed from invoice fields elsewhere.
- CoinRepository.CoinRepo.AddCoins: the repository's implementation is not part of this model, so it is specified by the behaviour its tests demand. Balances are unbounded.
- PaypalRepository.PaypalRepo.GetCoinOrder: reading back a negative stored number would be an error in the code. The table's invariant rules it out, so that error path is not modelled.
- `get_client_id` is the configured `clientId` field of `PaypalFeatureSvc`, with no behaviour of its own.
- PaypalMockServer.ParsePrice: the overflow of `a * 100 + b` is modelled as an abort, which is what overflow checks do. A build without those checks wraps around instead.
- PaypalMockServer.MockServer.CreateOrder: the random order id is a parameter, and malformed JSON and a missing `Authorization` header are not modelled.
- The PayPal client's HTTP exchange and URL construction are not modelled. The create request joins a relative path to the base URL; the capture request joins an absolute one. A reply enters as its status and the field the client reads.
- UserApi.ParsePasswordOrEmpty: `UserPassword::MAX_LENGTH` is not part of this model, so it is a parameter, and no other password rule is modelled.
- UserApi.Lower: ASCII lower-casing only. On the words `me` and `self` it decides the same as Unicode lower-casing, because no other character lower-cases to one of their letters.
- UserApi.ParseUuid: the UUID crate's other accepted spellings and its error messages are not modelled.
- Di.Provider.Provide: what `T::build` itself does is a function of the type. Nested provisioning inside a build is not modelled.
- Routing, wiring, email templates, SQL text and database drivers are not modelled.
