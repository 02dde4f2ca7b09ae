/**
 * The tier check the menu and staff services run themselves before they
 * create a row. It uses the same validity rule as the tier middleware but
 * differs from it in two ways: features that do not decode are only logged
 * (the zero limits apply), and the count is compared with the limit without
 * a guard for "unlimited", so a zero limit blocks every creation.
 */
module ServiceGates {
  import opened Common
  import Helpers
  import TierCheck

  /** GetActiveSubscriptionByOwner: the row for an owner, or None when the query fails. */
  function SubscriptionOf(subs: map<Uuid, OwnerSubscription>, owner: Uuid): (o: Option<OwnerSubscription>)
    ensures o.Some? <==> owner in subs
    ensures o.Some? ==> o.value == subs[owner]
  {
    if owner in subs then Some(subs[owner]) else None
  }

  /**
   * The services' subscription check: a failed fetch and a subscription
   * that is not valid now are errors; otherwise the decoded limits, or the
   * zero limits when the features do not decode.
   */
  function SubscriptionFeatures(row: Option<OwnerSubscription>, now: Time): (r: Result<FeatureLimits>)
    ensures r.Ok? <==> row.Some? && TierCheck.IsSubscriptionActive(row.value.sub, now)
    ensures r.Ok? ==> r.value == Helpers.FeaturesOrZero(row.value.features)
    ensures row.Some? && row.value.features == MalformedBlob && r.Ok? ==> r.value == ZeroLimits
    ensures row.None? ==> r == Err("failed to fetch subscription")
    ensures row.Some? && !TierCheck.IsSubscriptionActive(row.value.sub, now) ==> r == Err("subscription is inactive or expired")
  {
    if row.None? then Err("failed to fetch subscription")
    else if !TierCheck.IsSubscriptionActive(row.value.sub, now) then Err("subscription is inactive or expired")
    else Ok(Helpers.FeaturesOrZero(row.value.features))
  }

  /**
   * `err == nil && len(existing) >= limit`: the limit is reached only when
   * the listing succeeded and holds at least `limit` rows.
   */
  predicate LimitReached(listed: Option<nat>, limit: int)
  {
    listed.Some? && listed.value >= limit
  }

  /**
   * Whenever the middleware reads a tier, the services read the same one;
   * where they differ, the middleware refuses undecodable features and the
   * services go on with the zero limits.
   */
  lemma ServicesAgreeWithMiddleware(q: TierCheck.TierQueries, owner: Uuid, now: Time)
    ensures TierCheck.GetOwnerFeatures(q, owner, now).Ok? ==>
      SubscriptionFeatures(SubscriptionOf(q.activeSubscription, owner), now) == TierCheck.GetOwnerFeatures(q, owner, now)
    ensures SubscriptionFeatures(SubscriptionOf(q.activeSubscription, owner), now).Err? ==>
      TierCheck.GetOwnerFeatures(q, owner, now).Err?
    ensures (owner in q.activeSubscription && q.activeSubscription[owner].features == MalformedBlob
             && TierCheck.IsSubscriptionActive(q.activeSubscription[owner].sub, now)) ==>
      TierCheck.GetOwnerFeatures(q, owner, now).Err?
      && SubscriptionFeatures(SubscriptionOf(q.activeSubscription, owner), now) == Ok(ZeroLimits)
  {
  }

  /**
   * A limit of zero or less: the middleware lets a request through without
   * counting, the services' comparison blocks every successful listing,
   * even an empty one.
   */
  lemma ZeroLimitBlocksOnlyInServices(keys: CtxKeys, q: TierCheck.TierQueries, now: Time, listed: nat)
    requires TierCheck.OwnerIdIsUuid(keys) && "owner_id" in keys
    requires TierCheck.GetOwnerFeatures(q, keys["owner_id"].id, now).Ok?
    requires TierCheck.GetOwnerFeatures(q, keys["owner_id"].id, now).value.maxMenuItems <= 0
    ensures TierCheck.CheckMenuLimit(keys, q, now) == Next
    ensures LimitReached(Some(listed), TierCheck.GetOwnerFeatures(q, keys["owner_id"].id, now).value.maxMenuItems)
  {
  }
}
