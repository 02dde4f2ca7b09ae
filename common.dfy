/**
 * Shared vocabulary of the menuvista model: optional values and results,
 * identifiers, clock values, roles, subscription states and the feature
 * limits a subscription tier grants.
 */
module Common {

  datatype Option<T> = None | Some(value: T)

  /** An operation that either yields a value or fails with the source's error text. */
  datatype Result<T> = Ok(value: T) | Err(error: string)

  /** A UUID; 0 plays the part of uuid.Nil. */
  type Uuid = nat
  const Nil: Uuid := 0

  /** A wall-clock instant in seconds. */
  type Time = int

  /** Seconds in one day; `AddDate(0, 0, n)` is modelled as `n * Day`. */
  const Day: int := 86400

  /** Role names are plain strings, as Go's `UserRole` is a string type. */
  const RoleAdmin: string := "admin"
  const RoleOwner: string := "owner"
  const RoleStaff: string := "staff"

  /** The subscription states of the persistence enum (models omits `incomplete`). */
  datatype SubStatus = Trialing | Active | PastDue | Cancelled | Incomplete

  /** The limits a tier grants; a missing JSON key decodes to zero. */
  datatype FeatureLimits = FeatureLimits(
    maxRestaurants: int,
    maxCategories: int,
    maxMenuItems: int,
    maxStaffAccounts: int,
    activityLogEnabled: bool,
    activityLogDays: int,
    analyticsEnabled: bool,
    analyticsHistoryDays: int,
    searchPriorityBoost: int)

  /** The zero value of FeatureLimits: every limit 0, every switch off. */
  const ZeroLimits: FeatureLimits := FeatureLimits(0, 0, 0, 0, false, 0, false, 0, 0)

  /**
   * The stored `features` JSON column of a plan: empty, a document that
   * decodes to some limits, or bytes that do not decode.
   */
  datatype FeatureBlob = EmptyBlob | FeatureDoc(limits: FeatureLimits) | MalformedBlob

  /** One row of the subscriptions table. */
  datatype Subscription = Subscription(
    id: Uuid,
    ownerId: Uuid,
    planId: Uuid,
    status: SubStatus,
    periodStart: Time,
    periodEnd: Time,
    trialEnd: Option<Time>)

  /** The row GetActiveSubscriptionByOwner returns: the subscription joined with its plan. */
  datatype OwnerSubscription = OwnerSubscription(
    sub: Subscription,
    planName: string,
    planSlug: string,
    features: FeatureBlob)

  /** One row of the subscription_plans table. */
  datatype Plan = Plan(
    id: Uuid,
    name: string,
    slug: string,
    priceMonthly: int,
    currency: string,
    features: FeatureBlob)

  /** pgtype.Text: a string and whether the column value is non-NULL. */
  datatype NullText = NullText(text: string, valid: bool)

  /** pgtype.Bool: a flag and whether the column value is non-NULL. */
  datatype NullBool = NullBool(flag: bool, valid: bool)

  /** One row of the restaurants table (theme settings and timestamps left out). */
  datatype Restaurant = Restaurant(
    id: Uuid,
    ownerId: Uuid,
    name: string,
    slug: string,
    description: NullText,
    cuisineType: NullText,
    phone: NullText,
    email: NullText,
    website: NullText,
    address: NullText,
    city: NullText,
    country: NullText,
    logoUrl: NullText,
    coverImageUrl: NullText)

  /**
   * One row of the users table. The owner and restaurant columns are plain
   * UUIDs (Nil when unset); the password hash is opaque text.
   */
  datatype UserRow = UserRow(
    id: Uuid,
    email: string,
    passwordHash: string,
    fullName: string,
    role: string,
    ownerId: Uuid,
    restaurantId: Uuid,
    phone: NullText,
    avatarUrl: NullText,
    emailVerified: bool,
    isActive: bool,
    lastLoginAt: Option<Time>)

  /** payment.InitiatePaymentInput: who pays, for which subscription and plan, and why. */
  datatype PaymentRequest = PaymentRequest(
    ownerId: Uuid,
    subscriptionId: Uuid,
    plan: string,
    email: string,
    name: string,
    kind: string)

  /** The claims of a verified access token. */
  datatype AuthClaims = AuthClaims(
    userId: string,
    role: string,
    ownerId: string,
    restaurantId: string,
    subStatus: string,
    subEnd: int)

  /** A value stored under a key of the gin context. */
  datatype CtxValue =
    | UuidValue(id: Uuid)
    | StringValue(text: string)
    | BoolValue(flag: bool)
    | IntValue(number: int)
    | ClaimsValue(claims: AuthClaims)

  /** The gin context's key-value store. */
  type CtxKeys = map<string, CtxValue>

  /** `c.Get(key)` compared with a string, as Go compares an interface with a string. */
  predicate KeyIsString(keys: CtxKeys, key: string, s: string)
  {
    key in keys && keys[key] == StringValue(s)
  }

  /** What a gin middleware does with the request: pass it on, or abort with a status. */
  datatype Outcome = Next | Abort(status: int)
}
