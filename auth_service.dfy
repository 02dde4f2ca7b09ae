/**
 * The account service: registration, activation with its free trial, the
 * subscription an owner starts with, and the login gate. The users and
 * subscriptions tables are an AccountStore and Redis is a Cache; bcrypt,
 * uuid parsing and formatting, the payment service and token signing are
 * parameters.
 */
module AuthService {
  import opened Common
  import Helpers
  import Accounts
  import TierCheck

  const ActivationTokenPrefix: string := "activation_token:"
  const UserActivationPrefix: string := "user_activation:"
  const FreeTrialSlug: string := "free-trial"
  const FreeSlug: string := "free"
  /** The length of the free trial, in days. */
  const TrialDays: int := 14

  /**
   * Redis, as the service uses it: a Set of a key in `failing` fails and
   * writes nothing. Expiry times are not part of this model.
   */
  class Cache {
    var entries: map<string, string>
    const failing: set<string>

    constructor(failing: set<string>)
      ensures entries == map[] && this.failing == failing
    {
      entries := map[];
      this.failing := failing;
    }

    method Set(key: string, value: string) returns (ok: bool)
      modifies this
      ensures ok <==> key !in failing
      ensures entries == if ok then old(entries)[key := value] else old(entries)
    {
      ok := key !in failing;
      if ok {
        entries := entries[key := value];
      }
    }
  }

  /** A token's key and a user's key never collide: their prefixes differ in the first character. */
  lemma ActivationKeysDistinct(token: string, userKey: string)
    ensures ActivationTokenPrefix + token != UserActivationPrefix + userKey
  {
    assert (ActivationTokenPrefix + token)[0] == 'a';
    assert (UserActivationPrefix + userKey)[0] == 'u';
  }

  /** The Redis entries GenerateActivationToken leaves behind, starting from `entries`. */
  function ActivationWrites(entries: map<string, string>, failing: set<string>, userKey: string, token: string): (e: map<string, string>)
    ensures ActivationTokenPrefix + token !in failing ==>
      ActivationTokenPrefix + token in e && e[ActivationTokenPrefix + token] == userKey
    ensures ActivationTokenPrefix + token in failing ==> e == entries
    ensures ActivationTokenPrefix + token !in failing && UserActivationPrefix + userKey !in failing ==>
      e == entries[ActivationTokenPrefix + token := userKey][UserActivationPrefix + userKey := token]
  {
    ActivationKeysDistinct(token, userKey);
    if ActivationTokenPrefix + token in failing then entries
    else if UserActivationPrefix + userKey in failing then entries[ActivationTokenPrefix + token := userKey]
    else entries[ActivationTokenPrefix + token := userKey][UserActivationPrefix + userKey := token]
  }

  /** Whether both of GenerateActivationToken's writes succeed. */
  predicate ActivationStored(failing: set<string>, userKey: string, token: string)
  {
    ActivationTokenPrefix + token !in failing && UserActivationPrefix + userKey !in failing
  }

  /**
   * GenerateActivationToken: map the fresh token (a parameter here) to the
   * user's id, then the user's id to the token; fail at the first Set that
   * fails, keeping what was written before it.
   */
  method GenerateActivationToken(cache: Cache, userId: Uuid, format: Uuid -> string, token: string)
    returns (r: Result<string>)
    modifies cache
    ensures r.Ok? <==> ActivationStored(cache.failing, Helpers.UUIDToString(userId, format), token)
    ensures r.Ok? ==> r.value == token
    ensures cache.entries == ActivationWrites(old(cache.entries), cache.failing, Helpers.UUIDToString(userId, format), token)
  {
    var userKey := Helpers.UUIDToString(userId, format);
    var ok := cache.Set(ActivationTokenPrefix + token, userKey);
    if !ok {
      return Err("failed to store activation token");
    }
    ok := cache.Set(UserActivationPrefix + userKey, token);
    if !ok {
      return Err("failed to store user activation");
    }
    return Ok(token);
  }

  /**
   * A stored activation token leads back to its user: ActivateUser's lookup
   * then parses to the id it was generated for.
   */
  lemma ActivationTokenLeadsToUser(entries: map<string, string>, failing: set<string>, userId: Uuid,
                                   parse: string -> Option<Uuid>, format: Uuid -> string, token: string)
    requires userId != Nil && format(userId) != "" && parse(format(userId)) == Some(userId)
    requires ActivationTokenPrefix + token !in failing
    ensures var e := ActivationWrites(entries, failing, Helpers.UUIDToString(userId, format), token);
      ActivationTokenPrefix + token in e && parse(e[ActivationTokenPrefix + token]) == Some(userId)
  {
  }

  datatype RegisterInput = RegisterInput(email: string, password: string, fullName: string, role: string, phone: string)

  /**
   * Register: hash the password (`hash` stands for bcrypt; None is a
   * failure), insert the user as an owner whatever role was asked for, then
   * mark them inactive and unverified. The activation token is then stored
   * in Redis; failing to store it does not fail the registration. The
   * e-mail is not part of this model.
   */
  method Register(store: Accounts.AccountStore, cache: Cache, input: RegisterInput, hash: string -> Option<string>,
                  format: Uuid -> string, newId: Uuid, token: string)
    returns (r: Result<UserRow>)
    modifies store, cache
    ensures store.subscriptions == old(store.subscriptions)
    ensures r.Ok? <==> hash(input.password).Some? && newId !in old(store.users)
    ensures r.Ok? ==> r.value.role == RoleOwner && !r.value.isActive && !r.value.emailVerified
    ensures r.Ok? ==> r.value.id == newId && r.value.email == input.email && r.value.passwordHash == hash(input.password).value
    ensures r.Ok? ==> r.value.fullName == input.fullName && r.value.phone == Helpers.NonEmptyText(input.phone)
    ensures r.Ok? ==> r.value.ownerId == Nil && r.value.restaurantId == Nil
    ensures r.Ok? ==> store.users == old(store.users)[newId := r.value]
    ensures r.Ok? ==> cache.entries == ActivationWrites(old(cache.entries), cache.failing, Helpers.UUIDToString(newId, format), token)
    ensures r.Err? ==> store.users == old(store.users) && cache.entries == old(cache.entries)
  {
    var hashed := hash(input.password);
    if hashed.None? {
      return Err("failed to hash password");
    }
    var created := store.CreateUser(Accounts.CreateUserParams(input.email, hashed.value, input.fullName, RoleOwner,
                                                              Nil, Nil, Helpers.NonEmptyText(input.phone)), newId);
    if created.Err? {
      return Err("failed to create user");
    }
    var p := Accounts.NoUserChanges(newId).(isActive := NullBool(false, true), emailVerified := NullBool(false, true));
    r := store.UpdateUser(p);
    if r.Err? {
      return Err("failed to set initial user state");
    }
    var _ := GenerateActivationToken(cache, newId, format, token);
  }

  /** The free trial ActivateUser starts: trialing, ending 14 days from now. */
  function TrialSubscription(id: Uuid, ownerId: Uuid, planId: Uuid, now: Time): (s: Subscription)
    ensures s.status == Trialing && s.periodStart == now
    ensures s.periodEnd == now + TrialDays * Day && s.trialEnd == Some(now + TrialDays * Day)
    ensures (s.id, s.ownerId, s.planId) == (id, ownerId, planId)
  {
    var trialEnd := now + TrialDays * Day;
    Subscription(id, ownerId, planId, Trialing, now, trialEnd, Some(trialEnd))
  }

  /** The trial grants its tier for exactly the 14 days after activation. */
  lemma TrialValidForFourteenDays(id: Uuid, ownerId: Uuid, planId: Uuid, now: Time, t: Time)
    ensures TierCheck.IsSubscriptionActive(TrialSubscription(id, ownerId, planId, now), t) <==> t < now + TrialDays * Day
  {
  }

  /** The update ActivateUser applies: active and verified. */
  function ActivationUpdate(id: Uuid): (p: Accounts.UpdateUserParams)
    ensures p.id == id && p.isActive == NullBool(true, true) && p.emailVerified == NullBool(true, true)
    ensures !p.fullName.valid && !p.phone.valid && !p.avatarUrl.valid && p.lastLoginAt.None?
  {
    Accounts.NoUserChanges(id).(isActive := NullBool(true, true), emailVerified := NullBool(true, true))
  }

  /** The ids under which a pair of signed tokens is recorded in Redis. */
  datatype TokenIds = TokenIds(accessUuid: string, refreshUuid: string)

  /** AuthResponse: the user, the owner's subscription as the token carries it, and a checkout URL. */
  datatype AuthResponse = AuthResponse(user: UserRow, subStatus: string, subEnd: Option<Time>, tokens: TokenIds, checkoutUrl: string)

  /** The persistence enum's string for a status. */
  function StatusName(s: SubStatus): (name: string)
    ensures name != ""
  {
    match s
      case Trialing => "trialing"
      case Active => "active"
      case PastDue => "past_due"
      case Cancelled => "cancelled"
      case Incomplete => "incomplete"
  }

  /**
   * generateAuthResponse: an owner's token carries the status and period end
   * of the subscription GetActiveSubscriptionByOwner finds (`subs`), whatever
   * that status is; other roles carry none. Tokens that could not be signed
   * (`tokens` is None) are an error.
   */
  function AuthResponseOf(user: UserRow, subs: map<Uuid, OwnerSubscription>, tokens: Option<TokenIds>, checkoutUrl: string)
    : (r: Result<AuthResponse>)
    ensures r.Ok? <==> tokens.Some?
    ensures r.Ok? ==> r.value.user == user && r.value.tokens == tokens.value && r.value.checkoutUrl == checkoutUrl
    ensures r.Ok? ==> (r.value.subStatus != "" <==> user.role == RoleOwner && user.id in subs)
    ensures r.Ok? && r.value.subStatus != "" ==>
      r.value.subStatus == StatusName(subs[user.id].sub.status) && r.value.subEnd == Some(subs[user.id].sub.periodEnd)
    ensures r.Ok? && r.value.subStatus == "" ==> r.value.subEnd.None?
  {
    if tokens.None? then Err("failed to create tokens")
    else if user.role == RoleOwner && user.id in subs then
      Ok(AuthResponse(user, StatusName(subs[user.id].sub.status), Some(subs[user.id].sub.periodEnd), tokens.value, checkoutUrl))
    else Ok(AuthResponse(user, "", None, tokens.value, checkoutUrl))
  }

  /** The Redis entries recording a token pair for a user: each of the two Sets that succeeds. */
  function TokenWrites(entries: map<string, string>, failing: set<string>, ids: TokenIds, userKey: string): (e: map<string, string>)
    ensures ids.accessUuid !in failing ==> ids.accessUuid in e && e[ids.accessUuid] == userKey
    ensures ids.refreshUuid !in failing ==> ids.refreshUuid in e && e[ids.refreshUuid] == userKey
    ensures forall k :: k in e && k != ids.accessUuid && k != ids.refreshUuid ==> k in entries && e[k] == entries[k]
  {
    var afterAccess := if ids.accessUuid in failing then entries else entries[ids.accessUuid := userKey];
    if ids.refreshUuid in failing then afterAccess else afterAccess[ids.refreshUuid := userKey]
  }

  /** The metadata writes of generateAuthResponse and Login, whose failures are ignored. */
  method StoreTokenIds(cache: Cache, ids: TokenIds, userKey: string)
    modifies cache
    ensures cache.entries == TokenWrites(old(cache.entries), cache.failing, ids, userKey)
  {
    var _ := cache.Set(ids.accessUuid, userKey);
    var _ := cache.Set(ids.refreshUuid, userKey);
  }

  /** The user an activation token names: its Redis entry parses to an id. */
  function ActivationTarget(entries: map<string, string>, token: string, parse: string -> Option<Uuid>): (u: Option<Uuid>)
    ensures u.Some? <==> ActivationTokenPrefix + token in entries && parse(entries[ActivationTokenPrefix + token]).Some?
    ensures u.Some? ==> u == parse(entries[ActivationTokenPrefix + token])
  {
    if ActivationTokenPrefix + token in entries then parse(entries[ActivationTokenPrefix + token]) else None
  }

  /**
   * ActivateUser: the token must name a user id in Redis that parses and
   * has a row; that user becomes active and verified. When the free-trial
   * plan exists a trial subscription is inserted under `newSubId`; a
   * missing plan or a failed insert only skips the trial. The answer is
   * generateAuthResponse's, with `subs` the subscription lookup it makes
   * afterwards. The tokens' Redis entries are written after the rest.
   */
  method ActivateUser(store: Accounts.AccountStore, cache: Cache, token: string, parse: string -> Option<Uuid>,
                      format: Uuid -> string, plansBySlug: map<string, Plan>, subs: map<Uuid, OwnerSubscription>,
                      now: Time, newSubId: Uuid, tokens: Option<TokenIds>)
    returns (r: Result<AuthResponse>)
    modifies store, cache
    ensures ActivationTokenPrefix + token !in old(cache.entries) ==> r == Err("invalid or expired activation token")
    ensures var target := ActivationTarget(old(cache.entries), token, parse);
      && (target.None? || target.value !in old(store.users) ==>
            r.Err? && store.users == old(store.users) && store.subscriptions == old(store.subscriptions)
            && cache.entries == old(cache.entries))
      && (target.Some? && target.value in old(store.users) ==>
            var id := target.value;
            var user := Accounts.ApplyUserUpdate(old(store.users)[id], ActivationUpdate(id));
            && user.isActive && user.emailVerified
            && store.users == old(store.users)[id := user]
            && store.subscriptions ==
                 (if FreeTrialSlug in plansBySlug && newSubId !in old(store.subscriptions)
                  then old(store.subscriptions)[newSubId := TrialSubscription(newSubId, id, plansBySlug[FreeTrialSlug].id, now)]
                  else old(store.subscriptions))
            && r == AuthResponseOf(user, subs, tokens, "")
            && cache.entries == (if tokens.Some? then TokenWrites(old(cache.entries), cache.failing, tokens.value,
                                                                  Helpers.UUIDToString(id, format))
                                 else old(cache.entries)))
  {
    var key := ActivationTokenPrefix + token;
    if key !in cache.entries {
      return Err("invalid or expired activation token");
    }
    var parsed := parse(cache.entries[key]);
    if parsed.None? {
      return Err("invalid user id in token");
    }
    var id := parsed.value;
    var updated := store.UpdateUser(ActivationUpdate(id));
    if updated.Err? {
      return Err("failed to activate user");
    }
    if FreeTrialSlug in plansBySlug {
      var _ := store.CreateSubscription(TrialSubscription(newSubId, id, plansBySlug[FreeTrialSlug].id, now));
    }
    r := AuthResponseOf(updated.value, subs, tokens, "");
    if r.Ok? {
      StoreTokenIds(cache, r.value.tokens, Helpers.UUIDToString(id, format));
    }
  }

  /**
   * The plan an owner starts on: the requested slug ("" means "free"), or
   * "free" when that slug has no plan; None when neither exists, which the
   * source sees as a zero-valued plan with the Nil id.
   */
  function StartingPlan(planSlug: string, plansBySlug: map<string, Plan>): (p: Option<Plan>)
    ensures var slug := if planSlug == "" then FreeSlug else planSlug;
      && (slug in plansBySlug ==> p == Some(plansBySlug[slug]))
      && (slug !in plansBySlug ==> p == (if FreeSlug in plansBySlug then Some(plansBySlug[FreeSlug]) else None))
  {
    var slug := if planSlug == "" then FreeSlug else planSlug;
    if slug in plansBySlug then Some(plansBySlug[slug])
    else if slug != FreeSlug && FreeSlug in plansBySlug then Some(plansBySlug[FreeSlug])
    else None
  }

  /** The first status of an owner's subscription: active for a free plan, incomplete until a paid one is paid. */
  function StartingStatus(plan: Plan): (s: SubStatus)
    ensures s == Active <==> plan.priceMonthly <= 0
    ensures s == Incomplete <==> plan.priceMonthly > 0
  {
    if plan.priceMonthly > 0 then Incomplete else Active
  }

  /**
   * handleOwnerSubscription: with no usable plan (none found, or its id is
   * Nil) nothing is written and the URL is "". Otherwise a subscription in
   * the starting status for the month from now is inserted under `newSubId`
   * (a failed insert is only logged, leaving the Nil id); for an incomplete
   * one, when there is a payment service, a registration payment is asked
   * for and its checkout URL returned ("" when that fails). `pay` stands for
   * the payment service: None is a failure.
   */
  method HandleOwnerSubscription(store: Accounts.AccountStore, user: UserRow, planSlug: string,
                                 plansBySlug: map<string, Plan>, now: Time, monthLater: Time, newSubId: Uuid,
                                 hasPaymentService: bool, pay: PaymentRequest -> Option<string>)
    returns (checkoutUrl: string)
    requires now < monthLater
    modifies store
    ensures store.users == old(store.users)
    ensures var plan := StartingPlan(planSlug, plansBySlug);
      && (plan.None? || plan.value.id == Nil ==> store.subscriptions == old(store.subscriptions) && checkoutUrl == "")
      && (plan.Some? && plan.value.id != Nil ==>
            var sub := Subscription(newSubId, user.id, plan.value.id, StartingStatus(plan.value), now, monthLater, None);
            var inserted := newSubId !in old(store.subscriptions);
            && store.subscriptions == (if inserted then old(store.subscriptions)[newSubId := sub] else old(store.subscriptions))
            && checkoutUrl == (
                 if StartingStatus(plan.value) == Incomplete && hasPaymentService
                    && pay(PaymentRequest(user.id, if inserted then newSubId else Nil, plan.value.slug,
                                          user.email, user.fullName, "registration")).Some?
                 then pay(PaymentRequest(user.id, if inserted then newSubId else Nil, plan.value.slug,
                                         user.email, user.fullName, "registration")).value
                 else ""))
  {
    var plan := StartingPlan(planSlug, plansBySlug);
    if plan.None? || plan.value.id == Nil {
      return "";
    }
    var status := StartingStatus(plan.value);
    var created := store.CreateSubscription(Subscription(newSubId, user.id, plan.value.id, status, now, monthLater, None));
    var subId := if created.Ok? then created.value.id else Nil;
    if status == Incomplete && hasPaymentService {
      var resp := pay(PaymentRequest(user.id, subId, plan.value.slug, user.email, user.fullName, "registration"));
      if resp.Some? {
        return resp.value;
      }
    }
    return "";
  }

  /** A free plan never asks for payment; only a paid plan can yield a checkout URL. */
  lemma OnlyPaidPlansAskForPayment(planSlug: string, plansBySlug: map<string, Plan>)
    requires StartingPlan(planSlug, plansBySlug).Some?
    ensures StartingPlan(planSlug, plansBySlug).value.priceMonthly <= 0 ==> StartingStatus(StartingPlan(planSlug, plansBySlug).value) == Active
    ensures StartingPlan(planSlug, plansBySlug).value.priceMonthly > 0 ==> StartingStatus(StartingPlan(planSlug, plansBySlug).value) != Active
    ensures planSlug == "" ==> StartingPlan(planSlug, plansBySlug) == Some(plansBySlug[FreeSlug])
  {
  }

  /** The outcome of Login. */
  datatype LoginOutcome =
    | LoggedIn(response: AuthResponse)
    | PaymentRequired(checkoutUrl: string)
    | Refused(error: string)

  const ErrInvalidCredentials: string := "invalid credentials"
  const ErrPaymentRequired: string := "payment required"
  const ErrSubscriptionInactive: string := "subscription inactive"
  const ErrActivationResent: string := "activation link expired. a new one has been sent to your email"
  const ErrNotActivated: string := "account is not activated. please check your email"

  /** Login's status test, which looks at the status only and never at the period. */
  predicate StatusAdmitsLogin(status: SubStatus)
  {
    status == Active || status == Trialing
  }

  /** Whether the credentials name an active user: the part of Login before the last-login write. */
  predicate CredentialsAdmit(found: Option<UserRow>, password: string, checkPassword: (string, string) -> bool)
  {
    found.Some? && checkPassword(password, found.value.passwordHash) && found.value.isActive
  }

  /**
   * The decision Login makes. `found` is the user GetUserByEmail finds,
   * `checkPassword` stands for bcrypt, `activationPending` says whether the
   * user's activation key is still in Redis and `reissued` whether a new
   * activation token could be stored; `subs` answers
   * GetActiveSubscriptionByOwner; `pay` stands for the payment service
   * (None is a failure) and `tokens` for token signing (None is a failure).
   */
  function LoginDecision(found: Option<UserRow>, password: string, checkPassword: (string, string) -> bool,
                         activationPending: bool, reissued: bool, subs: map<Uuid, OwnerSubscription>,
                         plansBySlug: map<string, Plan>, hasPaymentService: bool,
                         pay: PaymentRequest -> Option<string>, tokens: Option<TokenIds>): (o: LoginOutcome)
    ensures found.None? ==> o == Refused(ErrInvalidCredentials)
    ensures found.Some? && !checkPassword(password, found.value.passwordHash) ==> o == Refused(ErrInvalidCredentials)
    ensures o.LoggedIn? ==> CredentialsAdmit(found, password, checkPassword) && AuthResponseOf(found.value, subs, tokens, "") == Ok(o.response)
    ensures o.LoggedIn? <==>
      && CredentialsAdmit(found, password, checkPassword) && tokens.Some?
      && (found.value.role == RoleOwner ==> found.value.id !in subs || StatusAdmitsLogin(subs[found.value.id].sub.status))
      && (found.value.role == RoleStaff ==> found.value.ownerId in subs && StatusAdmitsLogin(subs[found.value.ownerId].sub.status))
    ensures o.PaymentRequired? <==>
      && CredentialsAdmit(found, password, checkPassword)
      && found.value.role == RoleOwner && found.value.id in subs
      && !StatusAdmitsLogin(subs[found.value.id].sub.status)
  {
    if found.None? || !checkPassword(password, found.value.passwordHash) then Refused(ErrInvalidCredentials)
    else
      var user := found.value;
      if !user.isActive then
        if !activationPending && reissued then Refused(ErrActivationResent) else Refused(ErrNotActivated)
      else if user.role == RoleOwner && user.id in subs && !StatusAdmitsLogin(subs[user.id].sub.status) then
        var row := subs[user.id];
        var resp := if row.planSlug in plansBySlug && hasPaymentService
                    then pay(PaymentRequest(user.id, row.sub.id, row.planSlug, user.email, user.fullName, "renewal"))
                    else None;
        PaymentRequired(if resp.Some? then resp.value else "")
      else if user.role == RoleStaff && !(user.ownerId in subs && StatusAdmitsLogin(subs[user.ownerId].sub.status)) then
        Refused(ErrSubscriptionInactive)
      else
        var response := AuthResponseOf(user, subs, tokens, "");
        if response.Err? then Refused(response.error) else LoggedIn(response.value)
  }

  /** An unknown e-mail and a wrong password are refused with the same error. */
  lemma UnknownEmailLooksLikeWrongPassword(user: UserRow, password: string, checkPassword: (string, string) -> bool,
                                           activationPending: bool, reissued: bool, subs: map<Uuid, OwnerSubscription>,
                                           plansBySlug: map<string, Plan>, hasPaymentService: bool,
                                           pay: PaymentRequest -> Option<string>, tokens: Option<TokenIds>)
    requires !checkPassword(password, user.passwordHash)
    ensures LoginDecision(None, password, checkPassword, activationPending, reissued, subs, plansBySlug, hasPaymentService, pay, tokens)
         == LoginDecision(Some(user), password, checkPassword, activationPending, reissued, subs, plansBySlug, hasPaymentService, pay, tokens)
  {
  }

  /**
   * An inactive user with the right password is never logged in and never
   * asked to pay; they are told a new link was sent exactly when none was
   * pending and a new token could be stored.
   */
  lemma InactiveUserRefused(user: UserRow, password: string, checkPassword: (string, string) -> bool,
                            activationPending: bool, reissued: bool, subs: map<Uuid, OwnerSubscription>,
                            plansBySlug: map<string, Plan>, hasPaymentService: bool,
                            pay: PaymentRequest -> Option<string>, tokens: Option<TokenIds>)
    requires !user.isActive && checkPassword(password, user.passwordHash)
    ensures LoginDecision(Some(user), password, checkPassword, activationPending, reissued, subs, plansBySlug,
                          hasPaymentService, pay, tokens)
         == Refused(if !activationPending && reissued then ErrActivationResent else ErrNotActivated)
  {
  }

  /**
   * An owner logs in with no subscription at all, and with an active one
   * whose period ended long ago: the login test, unlike the tier rule,
   * never looks at the period.
   */
  lemma OwnerLoginIgnoresPeriod(user: UserRow, password: string, checkPassword: (string, string) -> bool,
                                subs: map<Uuid, OwnerSubscription>, plansBySlug: map<string, Plan>,
                                hasPaymentService: bool, pay: PaymentRequest -> Option<string>, tokens: TokenIds, now: Time)
    requires user.role == RoleOwner && user.isActive && checkPassword(password, user.passwordHash)
    requires user.id !in subs || (subs[user.id].sub.status == Active && subs[user.id].sub.periodEnd <= now)
    ensures LoginDecision(Some(user), password, checkPassword, false, false, subs, plansBySlug, hasPaymentService, pay, Some(tokens)).LoggedIn?
    ensures user.id in subs ==> !TierCheck.IsSubscriptionActive(subs[user.id].sub, now)
  {
  }

  /** Whenever the tier rule holds, the login test holds: Login is the weaker of the two. */
  lemma TierValidityImpliesLoginStatus(sub: Subscription, now: Time)
    ensures TierCheck.IsSubscriptionActive(sub, now) ==> StatusAdmitsLogin(sub.status)
  {
  }

  /** The Redis entries Login leaves: a reissued activation for an inactive user, token ids for a login. */
  function LoginWrites(entries: map<string, string>, failing: set<string>, found: Option<UserRow>, password: string,
                       checkPassword: (string, string) -> bool, o: LoginOutcome, userKey: string, newToken: string)
    : map<string, string>
  {
    if found.Some? && checkPassword(password, found.value.passwordHash) && !found.value.isActive
       && UserActivationPrefix + userKey !in entries
    then ActivationWrites(entries, failing, userKey, newToken)
    else if o.LoggedIn? then TokenWrites(entries, failing, o.response.tokens, userKey)
    else entries
  }

  /**
   * Login: the decision, with the Redis state it reads and writes. The
   * last-login write happens exactly when the credentials name an active
   * user, so it also precedes a payment-required or inactive-subscription
   * answer; its failure is ignored. An inactive user with no pending
   * activation gets a new activation token (`newToken`).
   */
  method Login(store: Accounts.AccountStore, cache: Cache, found: Option<UserRow>, password: string,
               checkPassword: (string, string) -> bool, format: Uuid -> string, newToken: string,
               subs: map<Uuid, OwnerSubscription>, plansBySlug: map<string, Plan>, hasPaymentService: bool,
               pay: PaymentRequest -> Option<string>, tokens: Option<TokenIds>, now: Time)
    returns (o: LoginOutcome)
    modifies store, cache
    ensures var userKey := if found.Some? then Helpers.UUIDToString(found.value.id, format) else "";
      && o == LoginDecision(found, password, checkPassword,
                            UserActivationPrefix + userKey in old(cache.entries),
                            ActivationStored(cache.failing, userKey, newToken),
                            subs, plansBySlug, hasPaymentService, pay, tokens)
      && cache.entries == LoginWrites(old(cache.entries), cache.failing, found, password, checkPassword, o, userKey, newToken)
    ensures store.subscriptions == old(store.subscriptions)
    ensures store.users ==
      if CredentialsAdmit(found, password, checkPassword) && found.value.id in old(store.users)
      then old(store.users)[found.value.id :=
             Accounts.ApplyUserUpdate(old(store.users)[found.value.id],
                                      Accounts.NoUserChanges(found.value.id).(lastLoginAt := Some(now)))]
      else old(store.users)
  {
    var userKey := if found.Some? then Helpers.UUIDToString(found.value.id, format) else "";
    var pending := UserActivationPrefix + userKey in cache.entries;
    var reissued := ActivationStored(cache.failing, userKey, newToken);
    o := LoginDecision(found, password, checkPassword, pending, reissued, subs, plansBySlug, hasPaymentService, pay, tokens);
    if found.None? || !checkPassword(password, found.value.passwordHash) {
      return;
    }
    if !found.value.isActive {
      if !pending {
        var _ := GenerateActivationToken(cache, found.value.id, format, newToken);
      }
      return;
    }
    var _ := store.UpdateUser(Accounts.NoUserChanges(found.value.id).(lastLoginAt := Some(now)));
    if o.LoggedIn? {
      StoreTokenIds(cache, o.response.tokens, userKey);
    }
  }
}
