# menuvista in Dafny

menuvista is a restaurant-menu backend. Restaurant owners subscribe to a tier
(free trial, free, or a paid plan bought through the Chapa payment provider).
The tier limits how many restaurants, categories, menu items and staff
accounts an owner may create. This project models the parts of the backend
that make decisions and keep state consistent, and proves properties of them:

- **Payment reconciliation.**
  - Starting a checkout: resolve or create the subscription, record a pending
    transaction, ask Chapa for a checkout URL, then record a pending invoice.
  - Completing a payment from the return URL.
  - Chapa's signed webhook. Each event is recorded in a ledger keyed by the
    provider reference, then applied once by the success, failure or
    pending handler.
  - The HTTP handlers that choose which path runs and what they answer.
- **Tier enforcement.**
  - The subscription-validity rule.
  - The count-versus-limit checks: the tier middleware's checks, and the
    menu, staff and restaurant services' own gates, where they differ.
- **Access control.**
  - Bearer-token extraction and copying a token's claims into the request
    context.
  - Role gates and the restaurant-access middleware.
  - The menu service's `verifyAccess`.
  - Login's gating on subscription status.
- **Accounts.** Registration, activation with its 14-day free trial, and
  the subscription an owner starts with.
- **Helpers.**
  - Pagination, filter-key whitelisting, and pointer and UUID helpers.
  - Password generation, days remaining, analytics counters and totals.
  - How the e-mail templates choose their wording.

How the model is built:

- **Tables.** The database is a set of tables held in Dafny maps:
  - `PaymentTables.PaymentStore`: transactions by `tx_ref`, invoices by
    number, subscriptions by id, the webhook ledger by provider reference,
    and the retry jobs.
  - `Accounts.AccountStore`: users and subscriptions.
  - `MenuService.MenuStore`, `RestaurantService.RestaurantStore` and
    `Analytics.AnalyticsStore`: the menu, restaurant and analytics tables.
- **Writes.** An update by key fails when the key has no row. An insert
  fails when its key is taken.
- **Reads.** The answers of the read-only queries are map parameters, for
  example `GetActiveSubscriptionByOwner` and `ListRestaurantsByOwner`. An
  absent key means the query failed or found no row. These queries' SQL is
  not part of this model, so the model never assumes which row they select.
- **Redis** is the `AuthService.Cache` class. A write to a key in its
  `failing` set fails.
- **Foreign code** is passed in as function parameters:
  - Chapa's HTTP API, as a map from a request to a decoded reply;
  - HMAC-SHA256, JWT signing and verification, bcrypt and crypto/rand;
  - UUID parsing and formatting, and JSON encoding and decoding of the
    webhook payload.
- **Time** is integer seconds. `Day` is 86400. Go's `AddDate(0, 1, 0)` is a
  parameter `monthLater` with `now < monthLater`.
- **Ids.** A `Uuid` is a `nat`, with 0 standing for `uuid.Nil`.
- **Step-by-step code** becomes methods:
  - The payment methods each ensure that their effect on the tables equals
    an effect function of the old tables (`SuccessEffect`, `FailedEffect`,
    `ProcessEffect`). Lemmas about those functions state idempotence and
    what each event changes.
  - Loops become `while` loops with invariants: `countOwnerMenuItems`,
    `isAllowed`, `ValidateAndParse`, `RequireRole`, `GeneratePassword`,
    `ReorderCategories` and `GetOverview`.

Behaviour of the code that a reader might not expect:

- **An existing subscription is always reused.** An owner's existing
  subscription is reused whatever its status or plan. Old subscriptions are not superseded, and
  `calculateAmount` always charges the new plan's monthly price. The outer
  `sub` in `InitiatePayment` is never assigned, so `calculateAmount` always
  receives a zero-valued row (`PaymentService.ZeroCurrentPlan`), and the
  amount does not depend on it anyway.
- **Unreachable ledger branch.** With the ledger insert refusing a
  duplicate reference, a new ledger row is always unprocessed. So the
  webhook service's "already processed" branch (webhook_service.go:55-58) is
  never reached. `WebhookService.ReplayIsIdempotent` proves that a replayed
  reference changes nothing.
- **No period check at login.** Login checks only the subscription's status,
  never its period (`AuthService.OwnerLoginIgnoresPeriod`).
- **A failed success is never applied.** A success event whose handler
  fails leaves its ledger row unprocessed. But the ledger insert refuses
  that reference from then on, and the duplicate is acknowledged. So the
  provider's redelivery never applies the payment, and the unprocessed flag
  is never read again (`WebhookService.FailedSuccessIsNeverRetried`).

## Model

| member | source | states |
|---|---|---|
| Strings.IndexOf | internal/handlers/middleware/auth.go:70-75 | the position found holds the separator and nothing before it does |
| Strings.Split | internal/handlers/middleware/auth.go:70 | strings.Split: at least one piece, no piece contains the separator, and joining the pieces gives the input back |
| Strings.IndexAfterPrefix | internal/services/payment/service.go:314-320 | in `a + sep + b` where `a` has no separator, the first separator comes right after `a` |
| Strings.SplitJoin | internal/services/payment/service.go:314-320 | splitting a join of separator-free pieces gives back exactly those pieces |
| Strings.SplitTwo | internal/handlers/middleware/auth.go:70-75 | a string splits into exactly `[a, b]` if and only if it is `a`, the separator, then `b`, with no separator in either |
| Strings.JoinCount | internal/services/payment/service.go:314-320 | joining n separator-free pieces puts exactly n - 1 separators in the result |
| Strings.SplitCount | internal/services/payment/service.go:314-320 | the number of pieces is the number of separators plus one |
| Helpers.ToUUIDPtr | internal/utils/helpers.go:90-95 | the pointer is nil exactly for uuid.Nil |
| Helpers.DerefToUUIDPtr | internal/utils/helpers.go:90-95 | DerefUUID (helpers.go:44-49) of ToUUIDPtr(u) is u for every id, uuid.Nil included |
| Helpers.ToUUIDPtrDeref | internal/utils/helpers.go:44-49 | ToUUIDPtr undoes DerefUUID on every pointer that does not point at uuid.Nil |
| Helpers.NonEmptyText | internal/services/restaurant/service.go:75-93 | the services' optional text column is NULL exactly for the empty string |
| Helpers.PtrText | internal/services/restaurant/service.go:163-178 | an update parameter is set exactly when a value was given, and then carries that value |
| Helpers.PtrBool | internal/services/restaurant/service.go:163-178 | a flag parameter is set exactly when given, and then carries that flag |
| Helpers.UploadedUrl | internal/services/restaurant/service.go:57-73 | the URL of a successful upload; "" when no file was sent or the upload failed |
| Helpers.UploadedColumn | internal/services/restaurant/service.go:180-190 | a URL column is set only when an upload succeeded, and then to its URL |
| Helpers.ParseUUID | internal/utils/helpers.go:52-61 | a non-Nil result means the text was non-empty and parsed to it; "" and unparseable text give uuid.Nil |
| Helpers.UUIDToString | internal/utils/helpers.go:64-69 | uuid.Nil is written as "", any other id in canonical form |
| Helpers.UuidTextRoundTrip | internal/utils/helpers.go:52-69 | ParseUUID(UUIDToString(u)) == u for every id, whenever parsing reads the canonical form back |
| Helpers.UnmarshalFeatures | internal/utils/helpers.go:98-103 | empty data is no error and leaves zero limits; malformed data is an error; a document gives its limits |
| Helpers.FeaturesOrZero | internal/services/menu/service.go:81-84 | what a service that only logs a decode error goes on with: the limits, or all zeros |
| Helpers.CharsetLength | internal/utils/helpers.go:105-111 | the password alphabet has 88 characters |
| Helpers.GeneratePassword | internal/utils/helpers.go:113-127 | succeeds exactly when every random draw succeeds; then the length is `length` and character i is the alphabet character at draw i |
| Helpers.PasswordFromCharset | internal/utils/helpers.go:113-127 | every character of a generated password belongs to the alphabet |
| Pagination.Wrap64 | internal/models/response.go:79 | Go's 64-bit int arithmetic: congruent modulo 2^64, and the identity within range |
| Pagination.NewPaginationParams | internal/models/response.go:72-85 | page >= 1; 1 <= pageSize <= 100, with out-of-range sizes becoming 10; offset == (page - 1) * pageSize wrapped to 64 bits |
| Pagination.NormalisedParamsAreFixed | internal/models/response.go:72-85 | normalising again changes nothing; up to LastSafePage the offset is exactly (page - 1) * pageSize and never negative |
| Pagination.LastSafePage | internal/models/response.go:79 | the last page whose offset fits in 64 bits: at least 1, with (last - 1) * pageSize <= 2^63 - 1 |
| Pagination.HugePageGivesNegativeOffset | internal/models/response.go:79 | page 2^63 - 1 (what Atoi leaves of an over-long number) with the default size 10 gives offset -20 |
| Pagination.NewPaginationParamsBounded | internal/models/response.go:72-85 | the same page size; the page capped at LastSafePage, so the offset is the exact non-negative row count skipped; equal to the code's result below the cap |
| Pagination.GoDiv | internal/models/response.go:92 | Go's truncating division agrees with mathematical division on non-negative numerators |
| Pagination.CalculateMeta | internal/models/response.go:88-105 | at least one page; hasNext iff page < totalPages; hasPrevious iff page > 1 |
| Pagination.PagesCoverRecords | internal/models/response.go:92-95 | totalPages is the ceiling of records over page size, and 1 when there are none |
| Pagination.GoDivBelowTwice | internal/models/response.go:92 | a numerator below twice the page size gives at most one under Go's truncating division |
| Pagination.OnePageWhenFits | internal/models/response.go:92-95 | when every record fits in one page there is exactly one page |
| Pagination.CalculateMetaChecked | internal/models/response.go:88-105 | CalculateMeta faults exactly for a zero page size |
| FilterBuilder.NewFilterBuilder | internal/utils/filter_builder.go:32-37 | an entity gets its allowed keys; an unknown entity gets none |
| FilterBuilder.IsAllowed | internal/utils/filter_builder.go:127-134 | the linear scan answers true exactly when the key is in the list |
| FilterBuilder.ValidateAndParse | internal/utils/filter_builder.go:40-125 | an error exactly when some key that is not a page or sort key is not allowed, naming that key; otherwise every allowed non-empty key sets its filter, and sorting defaults to created_at desc |
| FilterBuilder.AllowedKeysAreFields | internal/utils/filter_builder.go:14-23 | every allowed key of every entity has a case in the switch that sets a field |
| FilterBuilder.FieldValueMeaning | internal/utils/filter_builder.go:57-120 | a set filter came from a non-empty key; a flag filter is true iff the text is "true"; other keys keep the text verbatim |
| FilterBuilder.ToText | internal/utils/filter_builder.go:157-162 | invalid exactly for nil or "" |
| FilterBuilder.ToEnum | internal/utils/filter_builder.go:173-194 | ToUserRole, ToInvoiceStatus and ToSubscriptionStatus: unset exactly for nil or "", and no enum validation |
| FilterBuilder.ToBool | internal/utils/filter_builder.go:197-202 | invalid exactly for nil; a false flag is still a value |
| FilterBuilder.ToUUID | internal/utils/filter_builder.go:137-146 | ParseUUID of the dereferenced text, so nil gives uuid.Nil |
| EmailTemplates.TrialWarningUrgency | internal/services/email/verification_templates.go:120-143 | 4, 3 and 2 days get their own amber heading; 1 day gets "Expires Tomorrow" in red; any other count gets "Ends Soon" in amber |
| EmailTemplates.TrialWarningDistinguishesDays | internal/services/email/verification_templates.go:124-143 | each of the last four days has a distinct heading, and only the last day is red |
| EmailTemplates.TrialWarningArgs | internal/services/email/verification_templates.go:224 | the order of the values: title, name, days left, date, background, colour, then the bronze, silver and gold links |
| EmailTemplates.ExpiryUrgencyLevel | internal/services/email/verification_templates.go:276-281 | "URGENT" iff two days or fewer are left, else "REMINDER" |
| EmailTemplates.SubscriptionExpiringArgs | internal/services/email/verification_templates.go:275-326 | the urgency label comes first, then name, plan, days left, expiry date and renewal link |
| EmailTemplates.VerificationArgs | internal/services/email/verification_templates.go:6-66 | the verification link appears twice, between the name and the expiry period |
| TierCheck.InactiveSubscriptions | internal/handlers/middleware/tier_check.go:81-97 | past-due, cancelled and incomplete never grant a tier; neither does a trial without an end, nor an end at or before now |
| TierCheck.GetOwnerFeatures | internal/handlers/middleware/tier_check.go:73-107 | limits iff the owner's subscription row is found, valid now, and its features decode; then those limits |
| TierCheck.ListedItemsAppend | internal/handlers/middleware/tier_check.go:109-125 | item totals add up over consecutive stretches of restaurants |
| TierCheck.ListedItemsCoverEach | internal/handlers/middleware/tier_check.go:109-125 | every listed restaurant's items are included in the total |
| TierCheck.CountOwnerMenuItems | internal/handlers/middleware/tier_check.go:109-125 | an error iff the owner's restaurants cannot be listed; otherwise the sum of item counts, where a failed listing counts 0 |
| TierCheck.CheckMenuLimit | internal/handlers/middleware/tier_check.go:31-71 | goes on iff (no owner and admin) or (tier readable and (limit <= 0 or total < limit)); 403 iff a positive limit is reached; 401 iff no owner and not admin |
| TierCheck.CheckStaffLimit | internal/handlers/middleware/tier_check.go:127-168 | the same decision, with the owner's staff count against the staff limit |
| TierCheck.UnlimitedTierSkipsCount | internal/handlers/middleware/tier_check.go:52-56 | with limit <= 0 the outcome is Next whatever the restaurant and item listings say |
| TierCheck.MoreItemsNeverUnblock | internal/handlers/middleware/tier_check.go:58-66 | an owner who is at the limit stays refused after gaining another restaurant |
| ServiceGates.SubscriptionOf | internal/services/menu/service.go:59-63 | the subscription lookup finds the owner's row, or fails |
| ServiceGates.SubscriptionFeatures | internal/services/menu/service.go:59-84 | Ok iff the row is found and valid now; then the decoded limits, or zeros when they are malformed; otherwise the fixed part of each error text |
| ServiceGates.ServicesAgreeWithMiddleware | internal/services/menu/service.go:64-84 | whenever the middleware reads a tier, the services read the same one; only malformed features separate them |
| ServiceGates.ZeroLimitBlocksOnlyInServices | internal/services/menu/service.go:256-260 | with limit <= 0 the middleware passes, but the services' check blocks even an empty listing |
| Authorization.RequireRestaurantAccess | internal/handlers/middleware/authorization.go:28-119 | Next iff admin, or a parsed target with (an owner who owns it, or staff assigned to it); 401 without a role; 400 on an unparseable id; 404 iff an owner's target is unknown |
| Authorization.AccessIsTied | internal/handlers/middleware/authorization.go:71-117 | a non-admin who passes is an owner of the target or staff assigned to it |
| Authorization.TransferRevokesOwnerAccess | internal/handlers/middleware/authorization.go:71-94 | moving a restaurant to another owner revokes the old owner's access |
| AuthMiddleware.ExtractToken | internal/handlers/middleware/auth.go:64-76 | an empty header is refused; success means the header is exactly "Bearer " + token with no space in the token |
| AuthMiddleware.BearerHeaderRoundTrip | internal/handlers/middleware/auth.go:70-75 | every "Bearer <token>" header with a space-free token yields that token |
| AuthMiddleware.SetIdentity | internal/handlers/middleware/auth.go:104-106 | sets user_id, an empty email and the role, and leaves every other key as it was |
| AuthMiddleware.SetOwnerId | internal/handlers/middleware/auth.go:107-113 | a non-empty owner claim wins; otherwise an owner gets their own id and other roles get nothing |
| AuthMiddleware.SetRestaurantId | internal/handlers/middleware/auth.go:114-117 | the restaurant claim, parsed, when present; nothing otherwise |
| AuthMiddleware.SetSubscriptionKeys | internal/handlers/middleware/auth.go:119-131 | sub_status when present; sub_end when positive; sub_expired iff SubEnd > 0 and now > SubEnd |
| AuthMiddleware.WithClaims | internal/handlers/middleware/auth.go:97-145 | nothing is written when the user id does not parse, and no key outside the claim keys ever changes |
| AuthMiddleware.WithClaimsContents | internal/handlers/middleware/auth.go:97-145 | for a parseable user id: the full contents of the context after setContext |
| AuthMiddleware.WithClaimsKeepsIdsUuids | internal/handlers/middleware/auth.go:97-145 | the id keys stay UUIDs, so the tier middleware's type assertion holds |
| AuthMiddleware.OwnerClaimWins | internal/handlers/middleware/auth.go:110-113 | a staff token's owner claim is the context owner; an unparseable one becomes uuid.Nil |
| AuthMiddleware.GinContext.SetContext | internal/handlers/middleware/auth.go:97-145 | the context becomes WithClaims of the old context |
| AuthMiddleware.GinContext.Authenticate | internal/handlers/middleware/auth.go:41-62 | 401 leaving the context as it was for a bad header or a token that does not verify; otherwise Next with the claims copied |
| AuthMiddleware.RequireRole | internal/handlers/middleware/auth.go:147-175 | Next iff the role is a string in the list; 401 iff it is missing or not a string; 403 otherwise |
| AuthMiddleware.OwnerRouteAdmitsOnlyOwners | internal/handlers/middleware/auth.go:147-175 | after authentication an owner-only route admits exactly owner tokens |
| Accounts.NoUserChanges | internal/services/auth/service.go:66-72 | the update that sets no column |
| Accounts.UserUpdateKeepsIdentity | internal/services/staff/service.go:185-190 | an update never touches identity or credentials; an empty update changes nothing; applying an update twice is the same as once |
| SubscriptionService.OptionalTime | internal/services/subscription/service.go:122-129 | absent iff the stored value is NULL |
| SubscriptionService.MapToDomainSubscription | internal/services/subscription/service.go:114-146 | TrialEnd and CancelledAt are nil iff NULL; the other fields are copied; features that decode are kept |
| SubscriptionService.DaysRemaining | internal/services/subscription/service.go:69-77 | never negative; 0 for less than a day; otherwise the largest number of whole days before the end |
| SubscriptionService.DaysRemainingMonotone | internal/services/subscription/service.go:69-77 | a later end never leaves fewer days |
| SubscriptionService.GetSubscriptionDetails | internal/services/subscription/service.go:55-91 | Ok iff the subscription and its plan are found; the price is the plan's monthly price; days count toward the trial end or the period end |
| SubscriptionService.CountdownEndChoice | internal/services/subscription/service.go:69-73 | the trial end is used exactly for a trial that has one; otherwise the period end |
| MenuService.GetUser | internal/services/menu/service.go:413-431 | found iff the user row exists, and the owner and restaurant pointers are never nil |
| MenuService.VerifyAccess | internal/services/menu/service.go:433-458 | passes iff admin, or the restaurant exists and (an owner owns it / staff are assigned to it / any other role) |
| MenuService.Access | internal/services/menu/service.go:40-51 | getUser, then verifyAccess |
| MenuService.TierGate | internal/services/menu/service.go:54-84 | passes iff access passes and the effective owner's subscription is valid now; the limits are those decoded, or zeros |
| MenuService.AccessBeforeTier | internal/services/menu/service.go:49-57 | an access failure gives the same error whatever the subscriptions and the clock say |
| MenuService.CategoryGate | internal/services/menu/service.go:86-90 | refused iff the categories could be listed and TierValueCompare rejects one more |
| MenuService.MenuItemGate | internal/services/menu/service.go:256-260 | refused iff the items could be listed and the count >= MaxMenuItems; there is no unlimited guard |
| MenuService.ZeroItemLimitBlocks | internal/services/menu/service.go:251-260 | a zero limit or malformed features blocks every successful listing; only a failed listing passes |
| MenuService.StaffUseOwnersTier | internal/services/menu/service.go:224-227 | staff creations count against their owner's tier |
| MenuService.FirstUnknown | internal/services/menu/service.go:466-478 | the first position whose id is not a category |
| MenuService.Reordered | internal/services/menu/service.go:466-478 | reordering keeps the set of categories |
| MenuService.ReorderedOrders | internal/services/menu/service.go:466-478 | the i-th distinct id gets display order i + 1, nothing else about it changes, and unlisted categories are untouched |
| MenuService.ListMenuItemsMetaAsWritten | internal/services/menu/service.go:305-324 | faults exactly when the restaurant has no items |
| MenuService.EmptyMenuDividesByZero | internal/services/menu/service.go:321 | an empty menu makes CalculateMeta divide by zero |
| MenuService.ListMenuItemsMeta | internal/services/menu/service.go:305-324 | page 1 of at least size 1; agrees with the code whenever there are items; one page when everything fits |
| MenuService.MenuStore.CreateCategory | internal/services/menu/service.go:40-117 | a row is written iff the gate passes and the id is new; empty description or icon is NULL; nothing changes otherwise |
| MenuService.MenuStore.CreateMenuItem | internal/services/menu/service.go:209-294 | a row is written iff the gate passes and the id is new; the image goes in a one-element array; zero calories is NULL |
| MenuService.MenuStore.ReorderCategories | internal/services/menu/service.go:460-481 | Ok iff access passes and every id is a category; the categories before the first unknown id are reordered, and the earlier updates stay |
| StaffService.StaffGate | internal/services/staff/service.go:43-73 | passes iff the subscription is fetched and valid and the listed staff are below the limit (no unlimited guard) |
| StaffService.StaffGateFollowsValidity | internal/services/staff/service.go:48-73 | an invalid subscription admits no staff; a valid one with room admits one |
| StaffService.StaffUserParams | internal/services/staff/service.go:84-92 | the new user is staff of the owner at the restaurant; the phone is NULL exactly when empty, and otherwise the given text |
| StaffService.CreateStaff | internal/services/staff/service.go:39-115 | a user is written iff the gate, all 12 draws, the hash and the insert succeed; then the role is staff, the owner and restaurant are linked, the password has 12 alphabet characters, and the e-mail, name and phone are the input's |
| StaffService.UpdateStaffParams | internal/services/staff/service.go:182-195 | name, phone and active are set exactly when given; the avatar column is UploadedColumn of the upload: set only after a successful upload, and then to its URL |
| StaffService.UpdateStaffChangesOnlyGiven | internal/services/staff/service.go:185-190 | only the given fields change; e-mail, verification, last login and role stay |
| StaffService.UpdateStaff | internal/services/staff/service.go:182-205 | Ok iff the staff id has a row, which is then updated as above; nothing otherwise |
| RestaurantService.RestaurantGate | internal/services/restaurant/service.go:42-55 | passes iff the subscription row is found and the listed restaurants are below the limit; status and period are not looked at |
| RestaurantService.RestaurantGateIgnoresValidity | internal/services/restaurant/service.go:42-45 | replacing the subscription's state changes nothing, so a cancelled subscription with room still admits a restaurant |
| RestaurantService.NewRestaurant | internal/services/restaurant/service.go:75-93 | every column of the row: id, owner, name and slug as given, and each optional text and the logo and cover URLs NULL exactly when empty, otherwise their text |
| RestaurantService.FailedUploadsStoreNull | internal/services/restaurant/service.go:57-88 | a failed or missing upload leaves its column NULL and does not stop creation |
| RestaurantService.RestaurantStore.CreateRestaurant | internal/services/restaurant/service.go:37-96 | a row is written iff the gate passes and the id is new; a refused gate writes nothing |
| RestaurantService.UpdateRestaurantParamsOf | internal/services/restaurant/service.go:158-199 | each optional text field is set iff its pointer is given and then holds the pointed-to text, and the flag likewise; logo and cover are set only after a successful upload and then hold its URL |
| AuthService.ActivationKeysDistinct | internal/services/auth/service.go:99-112 | the token key and the user key never collide |
| AuthService.ActivationWrites | internal/services/auth/service.go:99-112 | the token key maps to the user unless its Set failed; the user key maps to the token only when both Sets succeed |
| AuthService.GenerateActivationToken | internal/services/auth/service.go:99-112 | Ok iff both Sets succeed, returning the token; the cache holds ActivationWrites |
| AuthService.ActivationTokenLeadsToUser | internal/services/auth/service.go:99-118 | a stored activation token leads back, through ActivateUser's lookup, to the user it was generated for |
| AuthService.Register | internal/services/auth/service.go:47-97 | Ok iff the hash and the insert succeed; the user is an owner whatever role was asked, inactive and unverified, with the given full name, the phone NULL iff empty and otherwise its text, and no owner or restaurant; the activation writes follow; nothing is written on error |
| AuthService.TrialSubscription | internal/services/auth/service.go:137-153 | trialing; the period and the trial both end 14 days from now |
| AuthService.TrialValidForFourteenDays | internal/services/auth/service.go:137-153 | the trial grants its tier exactly until 14 days after activation |
| AuthService.ActivationUpdate | internal/services/auth/service.go:124-130 | sets active and verified and nothing else |
| AuthService.StatusName | internal/services/auth/service.go:264-270 | every status has a non-empty name |
| AuthService.AuthResponseOf | internal/services/auth/service.go:257-287 | Ok iff the tokens were signed; an owner with a subscription gets its status and end; others get none |
| AuthService.TokenWrites | internal/services/auth/service.go:275-283 | each successful metadata Set maps its token id to the user; no other key changes |
| AuthService.StoreTokenIds | internal/services/auth/service.go:275-283 | the cache becomes TokenWrites; failures are ignored |
| AuthService.ActivationTarget | internal/services/auth/service.go:115-122 | found iff the token key exists and its value parses |
| AuthService.ActivateUser | internal/services/auth/service.go:114-163 | an unknown token errors with no writes; otherwise the user becomes active and verified, a trial is inserted iff the free-trial plan exists and the id is new, and the answer is generateAuthResponse's |
| AuthService.StartingPlan | internal/services/auth/service.go:197-211 | "" means "free"; an unknown slug falls back to "free"; None when neither exists |
| AuthService.StartingStatus | internal/services/auth/service.go:213-218 | active iff the price is <= 0, else incomplete |
| AuthService.HandleOwnerSubscription | internal/services/auth/service.go:196-245 | nothing is written without a usable plan; otherwise a subscription in the starting status; payment is asked for only when it is incomplete |
| AuthService.OnlyPaidPlansAskForPayment | internal/services/auth/service.go:213-243 | free plans start active, paid plans do not; "" selects the free plan |
| AuthService.LoginDecision | internal/services/auth/service.go:298-423 | same error for an unknown e-mail and a wrong password; logged in iff credentials pass, active, and the status gates pass (owner: none, active or trialing; staff: the owner's active or trialing) and tokens are signed |
| AuthService.UnknownEmailLooksLikeWrongPassword | internal/services/auth/service.go:301-312 | an unknown e-mail and a wrong password give the same answer |
| AuthService.InactiveUserRefused | internal/services/auth/service.go:314-335 | an inactive user is always refused, with "link resent" exactly when a new token was stored |
| AuthService.OwnerLoginIgnoresPeriod | internal/services/auth/service.go:352-391 | an owner with no subscription, or an expired active one, logs in |
| AuthService.TierValidityImpliesLoginStatus | internal/services/auth/service.go:352-407 | the tier rule implies the login status test |
| AuthService.LoginWrites | internal/services/auth/service.go:314-420 | the reissued activation for an inactive user, the token ids for a login, and nothing else |
| AuthService.Login | internal/services/auth/service.go:298-423 | the outcome is LoginDecision; the cache is LoginWrites; last login is written iff the credentials name an active user |
| PaymentTables.ApplySubscriptionUpdate | internal/services/payment/webhook_service.go:118-129 | status, plan, period start and period end each take the update's value when it gives one and keep the row's otherwise; id, owner and trial end stay |
| PaymentTables.SubscriptionUpdateIdempotent | internal/services/payment/webhook_service.go:118-129 | an update naming no column changes nothing, and applying an update twice is the same as once |
| PaymentService.StringField | internal/services/payment/service.go:227-248 | a string field is read only when it is a string |
| PaymentService.ObjectField | internal/services/payment/service.go:227-248 | an object field is read only when it is an object |
| PaymentService.CheckoutUrl | internal/services/payment/service.go:227-248 | Ok iff status == "success" and data.checkout_url is a string; the error of the first check that fails otherwise |
| PaymentService.VerifyReply | internal/services/payment/service.go:251-283 | an error only for a transport or decode failure; true iff status and data.status are both "success" |
| PaymentService.MalformedReplyIsUnverified | internal/services/payment/service.go:268-282 | a wrongly shaped body gives (false, nil) |
| PaymentService.CalculateAmount | internal/services/payment/service.go:109-138 | every branch charges the new plan's monthly price |
| PaymentService.UserDetails | internal/services/payment/service.go:168-190 | the given details when both are non-empty; otherwise the empty ones come from the user row; a missing user is an error |
| PaymentService.ResolveSubscription | internal/services/payment/service.go:47-74 | a given id is kept; else the owner's existing subscription is reused; else an unknown plan errors; else a new incomplete subscription for [now, monthLater] |
| PaymentService.PendingTransaction | internal/services/payment/service.go:140-150 | pending, with the tx_ref, the amount, the plan currency and the reference "type:slug" |
| PaymentService.PendingInvoice | internal/services/payment/service.go:152-166 | numbered by the tx_ref, pending, for the resolved subscription, over [now, monthLater] |
| PaymentService.InitiatePayment | internal/services/payment/service.go:44-107 | the subscription is inserted per ResolveSubscription; the transaction is written before Chapa is called; the invoice is written only after a checkout URL; an invoice failure is swallowed |
| PaymentService.ReferencePlanId | internal/services/payment/service.go:314-330 | no plan unless the reference is set and splits into exactly two parts |
| PaymentService.ReferenceRoundTrip | internal/services/payment/service.go:314-330 | the written reference reads back as its plan iff the type has no ':'; otherwise the plan is lost |
| PaymentService.HandleWebhook | internal/services/payment/service.go:285-380 | an unverified payment writes nothing; otherwise the invoice becomes paid and its subscription active for the month, with the plan from the reference |
| WebhookService.SuccessEffect | internal/services/payment/webhook_service.go:95-155 | the transaction becomes completed; its failure stops before the invoice; the invoice becomes paid; the subscription (of a zero invoice if that update failed) becomes active for [now, monthLater] |
| WebhookService.FailedEffect | internal/services/payment/webhook_service.go:157-218 | the transaction, invoice and subscription become failed, failed and past_due, with one retry job at now + 1 day; only the transaction error propagates |
| WebhookService.DispatchEffect | internal/services/payment/webhook_service.go:61-72 | success, failed and pending run their handlers; unknown events change nothing and succeed |
| WebhookService.ProcessEffect | internal/services/payment/webhook_service.go:34-79 | a bad signature or body errors and writes nothing; a duplicate reference returns nil with no handler; the row is marked processed iff the handler succeeds |
| WebhookService.EmptySecretRefusesAll | internal/services/payment/webhook_service.go:81-93 | with no secret every webhook is refused and nothing is written |
| WebhookService.ReplayIsIdempotent | internal/services/payment/webhook_service.go:47-59 | delivering the same event a second time changes nothing |
| WebhookService.UnknownEventOnlyRecorded | internal/services/payment/webhook_service.go:61-78 | an unknown event type is only recorded and marked processed |
| WebhookService.FailedSuccessStaysUnprocessed | internal/services/payment/webhook_service.go:74-106 | a success whose transaction update fails leaves the event unprocessed and touches no invoice or subscription |
| WebhookService.FailedSuccessIsNeverRetried | internal/services/payment/webhook_service.go:47-55 | a redelivery of that failed success, even once the transaction exists, is acknowledged and changes nothing |
| WebhookService.SuccessGrantsTier | internal/services/payment/webhook_service.go:108-129 | after a successful payment the subscription grants its tier until monthLater |
| WebhookService.ProcessWebhook | internal/services/payment/webhook_service.go:34-79 | the tables and the result follow ProcessEffect |
| WebhookService.HandlePaymentSuccess | internal/services/payment/webhook_service.go:95-155 | the tables and the result follow SuccessEffect |
| WebhookService.HandlePaymentFailed | internal/services/payment/webhook_service.go:157-218 | the tables and the result follow FailedEffect |
| WebhookService.HandlePaymentPending | internal/services/payment/webhook_service.go:220-248 | returns nil and writes nothing |
| PaymentHandler.QueryValue | internal/handlers/rest/payment.go:85-91 | c.Query: the value, or "" when absent |
| PaymentHandler.ReturnTxRef | internal/handlers/rest/payment.go:85-91 | the first non-empty of trx_ref, tx_ref and reference; "" iff all are empty |
| PaymentHandler.PaymentSuccess | internal/handlers/rest/payment.go:79-138 | no ref gives 400 with no call; a verification error gives 500; unpaid gives the failed page; CompletePayment is called iff paid, exactly once, and the success page is shown whatever it returns |
| PaymentHandler.PaymentCancel | internal/handlers/rest/payment.go:140-147 | the cancelled page for trx_ref |
| PaymentHandler.CancelReadsOnlyTrxRef | internal/handlers/rest/payment.go:140-147 | no other query parameter changes the page |
| PaymentHandler.InitiateInput | internal/handlers/rest/payment.go:23-57 | 500 without a UUID user_id; 400 for an unbound body; otherwise the plan and type with a Nil subscription id |
| PaymentHandler.InitiatePayment | internal/handlers/rest/payment.go:23-65 | an early answer writes nothing; otherwise 200 with a URL or 500 with none |
| WebhookHandler.ChapaWebhook | internal/handlers/rest/webhook.go:36-71 | 400 for an unreadable body and 401 without a signature, both before any write; otherwise the tables follow ProcessEffect, and the answer is 200 "success" or "received" |
| WebhookHandler.IntText | internal/handlers/rest/webhook.go:77-89 | fmt's %d: a non-negative value's digits read back as the value, with no leading zero and "0" for zero; a negative value is '-' and the text of its magnitude |
| WebhookHandler.DefaultQuery | internal/handlers/rest/webhook.go:76-80 | the value when the key is present, even if empty |
| WebhookHandler.TestPayload | internal/handlers/rest/webhook.go:76-102 | the event is "payment." + type (default success); data.status is "failed" iff the type is "failed" |
| WebhookHandler.ChapaWebhookTest | internal/handlers/rest/webhook.go:73-113 | the signed test request runs the real endpoint |
| WebhookHandler.TestSuccessRunsHandler | internal/handlers/rest/webhook.go:73-113 | a test success with a secret runs the success handler and records the event |
| PaymentTables.PaymentStore.Snapshot | internal/services/payment/webhook_service.go:34-79 | the five payment tables, read together |
| PaymentTables.PaymentStore.CreateTransaction | internal/services/payment/service.go:141-150 | an insert that fails iff the tx_ref exists; no other table changes |
| PaymentTables.PaymentStore.UpdateTransactionStatus | internal/services/payment/webhook_service.go:99-106 | fails iff the tx_ref has no row; otherwise only its status and provider reference change |
| PaymentTables.PaymentStore.CreateInvoice | internal/services/payment/service.go:153-166 | an insert that fails iff the invoice number exists |
| PaymentTables.PaymentStore.UpdateInvoiceStatus | internal/services/payment/webhook_service.go:109-116 | fails iff the number has no row; otherwise returns the updated invoice, whose status alone changes |
| PaymentTables.PaymentStore.CreateSubscription | internal/services/payment/service.go:62-73 | an insert that fails iff the id exists |
| PaymentTables.PaymentStore.UpdateSubscription | internal/services/payment/webhook_service.go:121-129 | fails iff the id has no row; otherwise the row becomes ApplySubscriptionUpdate of it |
| PaymentTables.PaymentStore.CreateWebhook | internal/services/payment/webhook_service.go:47-53 | a new unprocessed ledger row iff the reference is new; a duplicate is an error and writes nothing |
| PaymentTables.PaymentStore.MarkWebhookProcessed | internal/services/payment/webhook_service.go:75 | sets processed on an existing row; an unknown reference changes nothing |
| PaymentTables.PaymentStore.CreateRetryJob | internal/services/payment/webhook_service.go:189-195 | appends exactly one job |
| Accounts.AccountStore.CreateUser | internal/services/auth/service.go:56-65 | an insert that fails iff the id exists; the row carries the parameters with the table's defaults |
| Accounts.AccountStore.UpdateUser | internal/services/auth/service.go:68-72 | fails iff the id has no row; otherwise the row becomes ApplyUserUpdate of it |
| Accounts.AccountStore.CreateSubscription | internal/services/auth/service.go:142-151 | an insert that fails iff the id exists |
| AuthService.Cache.Set | platform/cache/redis.go:31 | a write succeeds unless the key is failing, and only that key changes |
| Analytics.TargetColumnAsWritten | internal/services/analytics/service.go:33 | the dereference faults exactly for a Nil target |
| Analytics.RestaurantViewWithoutTargetFaults | internal/services/analytics/service.go:28-33 | a restaurant view with no target faults before any write |
| Analytics.TargetColumn | internal/services/analytics/service.go:33 | the stored target is the id itself, agreeing with the code wherever it does not fault |
| Analytics.EventRow | internal/services/analytics/service.go:28-40 | no session, the target as given, and each of the six optional texts (IP address, device type, browser, OS, country, city) NULL exactly when empty, otherwise its text |
| Analytics.AggregateKeyOf | internal/services/analytics/service.go:59-68 | the day and the hour (0..23) that contain now, with the event's restaurant, metric and target |
| Analytics.Bump | internal/services/analytics/service.go:63-70 | the aggregate starts at 1 or grows by 1; no other aggregate changes |
| Analytics.Increment | internal/services/analytics/service.go:48-56 | increments one counter if it exists; no other counter changes |
| Analytics.AnalyticsStore.TrackEvent | internal/services/analytics/service.go:27-76 | an insert failure is the only error and writes nothing else; view_restaurant bumps the restaurant, view_item with a target bumps the item, other types no counter; an upsert failure is swallowed |
| Analytics.Wrap32 | internal/services/analytics/service.go:104-112 | int32 wrap-around: congruent modulo 2^32, and the identity within range |
| Analytics.Wrap32Add | internal/services/analytics/service.go:107-112 | wrapping after each addition equals wrapping the exact sum |
| Analytics.MetricSumAppend | internal/services/analytics/service.go:107-113 | a metric's total over a concatenation is the sum of the parts |
| Analytics.OtherMetricsIgnored | internal/services/analytics/service.go:107-113 | rows of other metrics do not change a total |
| Analytics.GetOverview | internal/services/analytics/service.go:95-121 | a fetch error propagates; otherwise the int32 totals of view_restaurant and view_item, and the period echoed back |

## Left out

- Chapa's HTTP plumbing (request building, headers, reading the body) is left out, as is the callback and return URLs' environment lookup. Only the decoded reply's interpretation is modelled.
- HMAC-SHA256, JWT signing and parsing, bcrypt, crypto/rand, UUID generation and JSON encoding are function parameters. Their own correctness is not modelled.
- Amounts are integers. The `%.2f` amount text and the float day counts that `calculateAmount` only logs are left out.
- The goroutines that send e-mails and SMS messages (after registration, payment success, payment failure and pending) are concurrency with no effect on the model's state, so they are left out.
- The HTML of the e-mail templates is left out. A template is modelled by its interpolated values, in order.
- Redis expiry times, and every query's SQL, are left out. Query answers are parameters, tables are maps, and an upsert or increment is modelled by its evident effect.
- `time.Now()` is called several times per request in the code. The model uses one `now` per operation.
- `AddDate(0, 1, 0)` is a parameter `monthLater` with `now < monthLater`. Calendar arithmetic is not modelled.
- The day and the hour of an analytics aggregate use the server's local time in the code. The model reads both in UTC.
- `ResendActivationEmail`, `sendWelcomeEmailAsync` and `GetUserByID` of the auth service are not part of this model. They only look up rows and send e-mail.
- Only the parts the menu, staff and restaurant services share with the tier and access gates are modelled. This covers creation, reordering, the staff update and the restaurant update parameters. Their other list, get, update and delete operations are row passthroughs and are left out.
- `RenewSubscription` and `UpgradeSubscription` set a context value "type" that nothing reads. They are not routed, and they are left out.
- Analytics.AnalyticsStore.TrackEvent: a failed counter increment is not modelled as a failure. An increment on an id with no row changes nothing, and its error is only logged in the code anyway.
- PaymentHandler.InitiatePayment: states only that the status is 200 or 500 and that a non-200 answer has no URL. It does not tie the status to the service's result. That result is stated by PaymentService.InitiatePayment.
- AuthService.HandleOwnerSubscription: the payment service is a parameter `pay`. The payment it starts is not tied to PaymentService.InitiatePayment's table writes.
- Pagination.CalculateMeta: computed on unbounded integers. `totalRecords + pageSize - 1` would wrap only for a record count within 100 of 2^63, which no table reaches.
- Error texts keep only the fixed part of each `fmt.Errorf` message. The wrapped cause after `%w` (for example the query error in "failed to fetch subscription: %w") and interpolated counts (the `(%d)` after "limit reached for your tier") are dropped.
- Helpers.UnmarshalFeatures: a features document is empty, decodes fully, or is malformed. Go's `json.Unmarshal` on a field of the wrong type returns an error after filling the other fields, and the services go on with those partial limits (internal/services/menu/service.go:81-84). The model goes on with all zero limits (Helpers.FeaturesOrZero) instead.
- The staff count that CreateStaff checks is the parameter `listedStaff`. The code calls `ListStaffByRestaurant` with only the restaurant id (internal/services/staff/service.go:70), so Limit and Offset are 0, while `ListStaff` fills them (internal/services/staff/service.go:119-122). If that query is paginated, the listing is always empty, and the staff gate would then refuse only a limit of 0 or less. The query's SQL is not part of this model, so this stays undecided and is not a finding.
- PaymentTables.PaymentStore, Accounts.AccountStore and AuthService.Cache model the persistence layer and Redis. Their methods have complete contracts, but the layer itself is the generated query code and the Redis client, which this model leaves out.
- The one `subscriptions` table of the database appears twice: as `PaymentTables.PaymentStore.subscriptions` and as `Accounts.AccountStore.subscriptions`. They are separate views of that one table, and nothing ties them together, so a trial that AuthService.ActivateUser inserts is not seen by the payment store's operations.

## Findings

| source | as written | input that shows it | evidently intended | confidence | as-written member | corrected member |
|---|---|---|---|---|---|---|
| internal/services/menu/service.go:321 | `ListMenuItems` builds its page metadata with `CalculateMeta(1, len(rows), total)`, which divides by the page size | a restaurant with no menu items: `len(rows) == 0` is an integer division by zero (Go runtime panic) | every item on one page, with a page size of at least one, so an empty menu is one empty page | not executed | MenuService.ListMenuItemsMetaAsWritten (with MenuService.EmptyMenuDividesByZero) | MenuService.ListMenuItemsMeta |
| internal/services/analytics/service.go:33 | `TrackEvent` stores `*utils.ToUUIDPtr(input.TargetID)`, and `ToUUIDPtr` returns nil for uuid.Nil; line 68 repeats the dereference | a `view_restaurant` event, which has no target (`TargetID == uuid.Nil`): a nil-pointer dereference before anything is written; the dispatch at line 52 shows Nil targets are expected | store the target id as it is (Nil for none) and go on | not executed | Analytics.TargetColumnAsWritten (with Analytics.RestaurantViewWithoutTargetFaults) | Analytics.TargetColumn, used by Analytics.AnalyticsStore.TrackEvent |
| internal/models/response.go:79 | `NewPaginationParams` computes `offset := (page - 1) * pageSize` in Go's 64-bit `int`, with the page only bounded below | `?page=99999999999999999999` (internal/handlers/rest/helpers.go:14 ignores Atoi's range error, which leaves 2^63 - 1) with the default page size 10: the offset wraps to -20 and goes to the query | a non-negative offset that counts the rows of the earlier pages, with the page capped where that count fits | not executed | Pagination.NewPaginationParams (with Pagination.HugePageGivesNegativeOffset) | Pagination.NewPaginationParamsBounded |
