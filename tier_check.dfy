/**
 * The tier middleware: before a menu item or a staff account is created it
 * looks up the owner's active subscription, refuses an inactive or expired
 * one, and refuses the request once the owner already has as many items
 * (summed over all their restaurants) or staff accounts as the tier allows.
 * A limit of zero or less means unlimited here.
 */
module TierCheck {
  import opened Common
  import Helpers

  /**
   * The answers of the queries the middleware runs; a key that is absent
   * means the query failed or found no row.
   */
  datatype TierQueries = TierQueries(
    activeSubscription: map<Uuid, OwnerSubscription>,  // GetActiveSubscriptionByOwner
    restaurantsByOwner: map<Uuid, seq<Uuid>>,          // ListRestaurantsByOwner
    menuItemCounts: map<Uuid, nat>,                    // len(ListMenuItemsByRestaurant)
    staffByOwner: map<Uuid, nat>)                      // len(ListStaffByOwner)

  /**
   * Whether a subscription grants its tier now: active with its period
   * ending after now, or trialing with a trial end after now. The menu and
   * staff services apply the same rule.
   */
  predicate IsSubscriptionActive(sub: Subscription, now: Time)
  {
    || (sub.status == Active && sub.periodEnd > now)
    || (sub.status == Trialing && sub.trialEnd.Some? && sub.trialEnd.value > now)
  }

  /**
   * Past-due, cancelled and incomplete subscriptions never grant a tier, a
   * trial without a trial end never does, and an end at or before now has
   * expired.
   */
  lemma InactiveSubscriptions(sub: Subscription, now: Time)
    ensures sub.status in {PastDue, Cancelled, Incomplete} ==> !IsSubscriptionActive(sub, now)
    ensures sub.status == Trialing && sub.trialEnd.None? ==> !IsSubscriptionActive(sub, now)
    ensures sub.status == Active && sub.periodEnd <= now ==> !IsSubscriptionActive(sub, now)
    ensures sub.status == Trialing && sub.trialEnd.Some? && sub.trialEnd.value <= now ==> !IsSubscriptionActive(sub, now)
  {
  }

  /**
   * getOwnerFeatures: the tier's limits when the owner has a subscription
   * that is active now and whose features decode; an error otherwise.
   */
  function GetOwnerFeatures(q: TierQueries, owner: Uuid, now: Time): (r: Result<FeatureLimits>)
    ensures r.Ok? <==> (owner in q.activeSubscription
                        && IsSubscriptionActive(q.activeSubscription[owner].sub, now)
                        && q.activeSubscription[owner].features != MalformedBlob)
    ensures r.Ok? ==> r.value == Helpers.FeaturesOrZero(q.activeSubscription[owner].features)
  {
    if owner !in q.activeSubscription then Err("failed to check subscription")
    else
      var row := q.activeSubscription[owner];
      if !IsSubscriptionActive(row.sub, now) then Err("subscription is inactive or expired")
      else
        var decoded := Helpers.UnmarshalFeatures(row.features);
        if decoded.Err? then Err("failed to parse subscription features") else Ok(decoded.value)
  }

  /** The items of the restaurants whose listing succeeds; a failed listing counts nothing. */
  function ListedItems(restaurants: seq<Uuid>, counts: map<Uuid, nat>): nat
  {
    if restaurants == [] then 0
    else
      var last := restaurants[|restaurants| - 1];
      ListedItems(restaurants[..|restaurants| - 1], counts) + (if last in counts then counts[last] else 0)
  }

  /** Item counts add up over consecutive stretches of restaurants. */
  lemma {:induction false} ListedItemsAppend(a: seq<Uuid>, b: seq<Uuid>, counts: map<Uuid, nat>)
    ensures ListedItems(a + b, counts) == ListedItems(a, counts) + ListedItems(b, counts)
    decreases |b|
  {
    if b != [] {
      var b' := b[..|b| - 1];
      assert (a + b)[..|a + b| - 1] == a + b';
      ListedItemsAppend(a, b', counts);
    } else {
      assert a + b == a;
    }
  }

  /** A restaurant that is listed contributes all its items to the total. */
  lemma {:induction false} ListedItemsCoverEach(restaurants: seq<Uuid>, counts: map<Uuid, nat>, k: nat)
    requires k < |restaurants| && restaurants[k] in counts
    ensures ListedItems(restaurants, counts) >= counts[restaurants[k]]
  {
    var a := restaurants[..k];
    var b := restaurants[k..];
    assert restaurants == a + b;
    ListedItemsAppend(a, b, counts);
    assert b == [restaurants[k]] + b[1..];
    ListedItemsAppend([restaurants[k]], b[1..], counts);
    assert [restaurants[k]][..0] == [];
  }

  /** countOwnerMenuItems as a value: None when the owner's restaurants cannot be listed. */
  function OwnerItemTotal(q: TierQueries, owner: Uuid): Option<nat>
  {
    if owner in q.restaurantsByOwner then Some(ListedItems(q.restaurantsByOwner[owner], q.menuItemCounts)) else None
  }

  /**
   * countOwnerMenuItems: list the owner's restaurants (an error ends the
   * count), then add the length of each restaurant's item listing, skipping
   * restaurants whose listing fails.
   */
  method CountOwnerMenuItems(q: TierQueries, owner: Uuid) returns (r: Result<nat>)
    ensures r.Err? <==> owner !in q.restaurantsByOwner
    ensures r.Ok? ==> Some(r.value) == OwnerItemTotal(q, owner)
  {
    if owner !in q.restaurantsByOwner {
      return Err("failed to list restaurants");
    }
    var restaurants := q.restaurantsByOwner[owner];
    var total: nat := 0;
    var i := 0;
    while i < |restaurants|
      invariant 0 <= i <= |restaurants|
      invariant total == ListedItems(restaurants[..i], q.menuItemCounts)
    {
      assert restaurants[..i + 1][..i] == restaurants[..i];
      var id := restaurants[i];
      if id in q.menuItemCounts {
        total := total + q.menuItemCounts[id];
      }
      i := i + 1;
    }
    assert restaurants[..i] == restaurants;
    return Ok(total);
  }

  /** `c.Get("role") == "admin"`. */
  predicate IsAdmin(keys: CtxKeys)
  {
    KeyIsString(keys, "role", RoleAdmin)
  }

  /** The context's owner id, when set, is a UUID (the middleware asserts its type). */
  predicate OwnerIdIsUuid(keys: CtxKeys)
  {
    "owner_id" in keys ==> keys["owner_id"].UuidValue?
  }

  /**
   * The shared shape of CheckMenuLimit and CheckStaffLimit: admins without an
   * owner pass, anyone else without an owner is refused with 401; an owner
   * whose tier cannot be read is refused with 500; a positive limit is
   * enforced against the current count (500 when it cannot be counted, 403
   * at or over the limit).
   */
  function LimitOutcome(keys: CtxKeys, q: TierQueries, now: Time, limit: FeatureLimits -> int,
                        count: Option<nat>): Outcome
    requires OwnerIdIsUuid(keys)
  {
    if "owner_id" !in keys then (if IsAdmin(keys) then Next else Abort(401))
    else
      var features := GetOwnerFeatures(q, keys["owner_id"].id, now);
      if features.Err? then Abort(500)
      else if limit(features.value) <= 0 then Next
      else if count.None? then Abort(500)
      else if count.value >= limit(features.value) then Abort(403)
      else Next
  }

  /** The menu item limit of a tier. */
  function MenuItemLimit(f: FeatureLimits): int { f.maxMenuItems }

  /** The staff account limit of a tier. */
  function StaffLimit(f: FeatureLimits): int { f.maxStaffAccounts }

  /**
   * CheckMenuLimit: the request goes on exactly when an admin has no owner
   * context, or the owner's tier is readable and either sets no positive
   * item limit or the owner's items, summed over their restaurants, are
   * below it.
   */
  function CheckMenuLimit(keys: CtxKeys, q: TierQueries, now: Time): (o: Outcome)
    requires OwnerIdIsUuid(keys)
    ensures o == Next <==>
      if "owner_id" !in keys then IsAdmin(keys)
      else
        var f := GetOwnerFeatures(q, keys["owner_id"].id, now);
        var total := OwnerItemTotal(q, keys["owner_id"].id);
        f.Ok? && (f.value.maxMenuItems <= 0 || (total.Some? && total.value < f.value.maxMenuItems))
    ensures o == Abort(403) <==>
      "owner_id" in keys && GetOwnerFeatures(q, keys["owner_id"].id, now).Ok?
      && GetOwnerFeatures(q, keys["owner_id"].id, now).value.maxMenuItems > 0
      && OwnerItemTotal(q, keys["owner_id"].id).Some?
      && OwnerItemTotal(q, keys["owner_id"].id).value >= GetOwnerFeatures(q, keys["owner_id"].id, now).value.maxMenuItems
    ensures o == Abort(401) <==> "owner_id" !in keys && !IsAdmin(keys)
    ensures o in {Next, Abort(401), Abort(403), Abort(500)}
  {
    var count := if "owner_id" in keys then OwnerItemTotal(q, keys["owner_id"].id) else None;
    LimitOutcome(keys, q, now, MenuItemLimit, count)
  }

  /**
   * CheckStaffLimit: as CheckMenuLimit, with the owner's staff accounts
   * against the staff limit.
   */
  function CheckStaffLimit(keys: CtxKeys, q: TierQueries, now: Time): (o: Outcome)
    requires OwnerIdIsUuid(keys)
    ensures o == Next <==>
      if "owner_id" !in keys then IsAdmin(keys)
      else
        var owner := keys["owner_id"].id;
        var f := GetOwnerFeatures(q, owner, now);
        f.Ok? && (f.value.maxStaffAccounts <= 0 || (owner in q.staffByOwner && q.staffByOwner[owner] < f.value.maxStaffAccounts))
    ensures o == Abort(403) <==>
      "owner_id" in keys && GetOwnerFeatures(q, keys["owner_id"].id, now).Ok?
      && GetOwnerFeatures(q, keys["owner_id"].id, now).value.maxStaffAccounts > 0
      && keys["owner_id"].id in q.staffByOwner
      && q.staffByOwner[keys["owner_id"].id] >= GetOwnerFeatures(q, keys["owner_id"].id, now).value.maxStaffAccounts
    ensures o == Abort(401) <==> "owner_id" !in keys && !IsAdmin(keys)
    ensures o in {Next, Abort(401), Abort(403), Abort(500)}
  {
    var count := if "owner_id" in keys && keys["owner_id"].id in q.staffByOwner
      then Some(q.staffByOwner[keys["owner_id"].id]) else None;
    LimitOutcome(keys, q, now, StaffLimit, count)
  }

  /**
   * The count is never consulted when the tier sets no positive menu item
   * limit: any other restaurants and item listings give the same outcome.
   */
  lemma UnlimitedTierSkipsCount(keys: CtxKeys, q: TierQueries, q': TierQueries, now: Time)
    requires OwnerIdIsUuid(keys) && "owner_id" in keys
    requires q'.activeSubscription == q.activeSubscription
    requires GetOwnerFeatures(q, keys["owner_id"].id, now).Ok?
    requires GetOwnerFeatures(q, keys["owner_id"].id, now).value.maxMenuItems <= 0
    ensures CheckMenuLimit(keys, q, now) == CheckMenuLimit(keys, q', now) == Next
  {
  }

  /** One more listed restaurant with items can only move a passing owner toward the limit. */
  lemma MoreItemsNeverUnblock(keys: CtxKeys, q: TierQueries, now: Time, extra: Uuid)
    requires OwnerIdIsUuid(keys) && "owner_id" in keys
    requires CheckMenuLimit(keys, q, now) == Abort(403)
    requires keys["owner_id"].id in q.restaurantsByOwner
    ensures var owner := keys["owner_id"].id;
      CheckMenuLimit(keys, q.(restaurantsByOwner := q.restaurantsByOwner[owner := q.restaurantsByOwner[owner] + [extra]]), now)
      == Abort(403)
  {
    var owner := keys["owner_id"].id;
    var rs := q.restaurantsByOwner[owner];
    ListedItemsAppend(rs, [extra], q.menuItemCounts);
    assert [extra][..0] == [];
  }
}
