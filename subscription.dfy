/**
 * The subscription service's read side: the stored subscription row is
 * mapped to the domain value (a NULL timestamp becomes an absent one), and
 * the details response reports the plan's price and the whole days left in
 * the trial or the current period, never fewer than zero.
 */
module SubscriptionService {
  import opened Common
  import Helpers
  import Pagination

  /** pgtype.Timestamptz: an instant and whether the column value is non-NULL. */
  datatype NullTime = NullTime(time: Time, valid: bool)

  /** The row GetActiveSubscriptionByOwner returns, with its nullable columns. */
  datatype SubscriptionRow = SubscriptionRow(
    id: Uuid,
    ownerId: Uuid,
    planId: Uuid,
    status: SubStatus,
    periodStart: Time,
    periodEnd: Time,
    trialEnd: NullTime,
    cancelledAt: NullTime,
    planName: string,
    planSlug: string,
    features: FeatureBlob)

  /** models.Subscription: optional instants, decoded features. */
  datatype DomainSubscription = DomainSubscription(
    id: Uuid,
    ownerId: Uuid,
    planId: Uuid,
    status: SubStatus,
    periodStart: Time,
    periodEnd: Time,
    trialEnd: Option<Time>,
    cancelledAt: Option<Time>,
    planName: string,
    planSlug: string,
    features: FeatureLimits)

  /** models.SubscriptionDetailsResponse. */
  datatype Details = Details(
    planName: string,
    planSlug: string,
    price: int,
    currency: string,
    status: SubStatus,
    startDate: Time,
    endDate: Time,
    trialEnd: Option<Time>,
    daysRemaining: int,
    features: FeatureLimits)

  /** A nullable instant as an optional one. */
  function OptionalTime(t: NullTime): (o: Option<Time>)
    ensures o.None? <==> !t.valid
    ensures o.Some? ==> o.value == t.time
  {
    if t.valid then Some(t.time) else None
  }

  /**
   * mapToDomainSubscription: the trial end and the cancellation instant are
   * absent exactly when the stored value is NULL; the features decode, and
   * bytes that do not decode leave the zero limits.
   */
  function MapToDomainSubscription(row: SubscriptionRow): (s: DomainSubscription)
    ensures s.trialEnd.None? <==> !row.trialEnd.valid
    ensures s.cancelledAt.None? <==> !row.cancelledAt.valid
    ensures s.trialEnd.Some? ==> s.trialEnd.value == row.trialEnd.time
    ensures s.cancelledAt.Some? ==> s.cancelledAt.value == row.cancelledAt.time
    ensures (s.id, s.ownerId, s.planId, s.status) == (row.id, row.ownerId, row.planId, row.status)
    ensures (s.periodStart, s.periodEnd) == (row.periodStart, row.periodEnd)
    ensures (s.planName, s.planSlug) == (row.planName, row.planSlug)
    ensures row.features != MalformedBlob ==> Helpers.UnmarshalFeatures(row.features) == Ok(s.features)
  {
    DomainSubscription(row.id, row.ownerId, row.planId, row.status, row.periodStart, row.periodEnd,
                       OptionalTime(row.trialEnd), OptionalTime(row.cancelledAt),
                       row.planName, row.planSlug, Helpers.FeaturesOrZero(row.features))
  }

  /** The instant the remaining days count toward: the trial end of a trial that has one, else the period end. */
  function CountdownEnd(sub: DomainSubscription): Time
  {
    if sub.status == Trialing && sub.trialEnd.Some? then sub.trialEnd.value else sub.periodEnd
  }

  /**
   * The whole days from now to `end`: Go converts the duration's fractional
   * days to int by truncation toward zero, and a negative count becomes 0.
   * The result is the largest number of full days that fit before `end`.
   */
  function DaysRemaining(end: Time, now: Time): (d: int)
    ensures d >= 0
    ensures end - now < Day ==> d == 0
    ensures end - now >= 0 ==> d * Day <= end - now < (d + 1) * Day
  {
    var days := Pagination.GoDiv(end - now, Day);
    if days < 0 then 0 else days
  }

  /** A later end never leaves fewer days. */
  lemma DaysRemainingMonotone(end1: Time, end2: Time, now: Time)
    requires end1 <= end2
    ensures DaysRemaining(end1, now) <= DaysRemaining(end2, now)
  {
    var d1 := DaysRemaining(end1, now);
    var d2 := DaysRemaining(end2, now);
    if d1 > 0 {
      assert d1 * Day <= end1 - now;
      assert d1 * Day < (d2 + 1) * Day;
    }
  }

  /**
   * GetSubscriptionDetails: the owner's subscription (an absent one is an
   * error) and its plan found by slug (an absent one is an error); the price
   * is the plan's monthly price and the days count toward CountdownEnd.
   */
  function GetSubscriptionDetails(row: Option<SubscriptionRow>, plansBySlug: map<string, Plan>, now: Time): (r: Result<Details>)
    ensures r.Ok? <==> row.Some? && row.value.planSlug in plansBySlug
    ensures r.Ok? ==>
      var sub := MapToDomainSubscription(row.value);
      var plan := plansBySlug[sub.planSlug];
      && r.value.price == plan.priceMonthly
      && (r.value.planName, r.value.planSlug, r.value.currency) == (plan.name, plan.slug, plan.currency)
      && r.value.daysRemaining == DaysRemaining(CountdownEnd(sub), now)
      && (r.value.status, r.value.startDate, r.value.endDate, r.value.trialEnd)
         == (sub.status, sub.periodStart, sub.periodEnd, sub.trialEnd)
      && r.value.features == Helpers.FeaturesOrZero(plan.features)
  {
    if row.None? then Err("subscription not found")
    else
      var sub := MapToDomainSubscription(row.value);
      if sub.planSlug !in plansBySlug then Err("plan not found")
      else
        var plan := plansBySlug[sub.planSlug];
        Ok(Details(plan.name, plan.slug, plan.priceMonthly, plan.currency, sub.status,
                   sub.periodStart, sub.periodEnd, sub.trialEnd,
                   DaysRemaining(CountdownEnd(sub), now), Helpers.FeaturesOrZero(plan.features)))
  }

  /**
   * Only a trial with a stored trial end counts toward the trial end: for
   * every other subscription the days count toward the period end, and a
   * trial's period end does not matter once it has a trial end.
   */
  lemma CountdownEndChoice(row: SubscriptionRow, periodEnd': Time)
    ensures var sub := MapToDomainSubscription(row);
      CountdownEnd(sub) == (if row.status == Trialing && row.trialEnd.valid then row.trialEnd.time else row.periodEnd)
    ensures row.status == Trialing && row.trialEnd.valid ==>
      CountdownEnd(MapToDomainSubscription(row.(periodEnd := periodEnd'))) == CountdownEnd(MapToDomainSubscription(row))
  {
  }
}
