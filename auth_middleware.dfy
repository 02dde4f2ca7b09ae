/**
 * The authentication middleware: it takes the bearer token from the
 * Authorization header, has it verified, and copies the token's claims into
 * the gin context for the handlers and middlewares after it; and the role
 * gate that admits only the listed roles.
 */
module AuthMiddleware {
  import opened Common
  import Helpers
  import Strings

  /**
   * extractToken: the header must be exactly "Bearer", one space, and a
   * token with no further space.
   */
  function ExtractToken(header: string): (r: Result<string>)
    ensures header == "" ==> r == Err("Authorization header is required")
    ensures r.Ok? ==> header == "Bearer " + r.value && ' ' !in r.value
  {
    if header == "" then Err("Authorization header is required")
    else
      var parts := Strings.Split(header, ' ');
      if |parts| != 2 || parts[0] != "Bearer" then Err("Authorization header must be Bearer {token}")
      else
        Strings.SplitTwo(header, ' ', parts[0], parts[1]);
        Ok(parts[1])
  }

  /** Every header of the form "Bearer <token>" with a space-free token yields that token. */
  lemma BearerHeaderRoundTrip(token: string)
    requires ' ' !in token
    ensures ExtractToken("Bearer " + token) == Ok(token)
  {
    var header := "Bearer " + token;
    assert header == "Bearer" + [' '] + token;
    Strings.SplitTwo(header, ' ', "Bearer", token);
  }

  /** The context keys setContext may write. */
  const ClaimKeys: set<string> := {
    "user_id", "email", "role", "owner_id", "restaurant_id", "sub_status", "sub_end", "sub_expired", "auth_claims"}

  /** The keys `k` that `r` and `keys` agree on, present in both or in neither. */
  predicate Agree(r: CtxKeys, keys: CtxKeys, k: string)
  {
    (k in r <==> k in keys) && (k in keys ==> r[k] == keys[k])
  }

  /** The identity keys: the user id, an empty e-mail and the role. */
  function SetIdentity(keys: CtxKeys, claims: AuthClaims, uid: Uuid): (r: CtxKeys)
    ensures "user_id" in r && r["user_id"] == UuidValue(uid)
    ensures "email" in r && r["email"] == StringValue("")
    ensures "role" in r && r["role"] == StringValue(claims.role)
    ensures forall k :: k !in {"user_id", "email", "role"} ==> Agree(r, keys, k)
  {
    keys["user_id" := UuidValue(uid)]["email" := StringValue("")]["role" := StringValue(claims.role)]
  }

  /**
   * The owner id: the owner claim when there is one (parsed, so text that
   * does not parse gives uuid.Nil), else the user's own id for an owner.
   */
  function SetOwnerId(keys: CtxKeys, claims: AuthClaims, uid: Uuid, parse: string -> Option<Uuid>): (r: CtxKeys)
    ensures claims.ownerId != "" ==> "owner_id" in r && r["owner_id"] == UuidValue(Helpers.ParseUUID(claims.ownerId, parse))
    ensures claims.ownerId == "" && claims.role == RoleOwner ==> "owner_id" in r && r["owner_id"] == UuidValue(uid)
    ensures claims.ownerId == "" && claims.role != RoleOwner ==> r == keys
    ensures forall k :: k != "owner_id" ==> Agree(r, keys, k)
  {
    var k1 := if claims.role == RoleOwner then keys["owner_id" := UuidValue(uid)] else keys;
    if claims.ownerId != "" then k1["owner_id" := UuidValue(Helpers.ParseUUID(claims.ownerId, parse))] else k1
  }

  /** The restaurant id, parsed from the claim when there is one. */
  function SetRestaurantId(keys: CtxKeys, claims: AuthClaims, parse: string -> Option<Uuid>): (r: CtxKeys)
    ensures claims.restaurantId != "" ==> "restaurant_id" in r && r["restaurant_id"] == UuidValue(Helpers.ParseUUID(claims.restaurantId, parse))
    ensures claims.restaurantId == "" ==> r == keys
    ensures forall k :: k != "restaurant_id" ==> Agree(r, keys, k)
  {
    if claims.restaurantId != "" then keys["restaurant_id" := UuidValue(Helpers.ParseUUID(claims.restaurantId, parse))] else keys
  }

  /**
   * The subscription keys: the status when present, the end when positive,
   * and `sub_expired` once that end has passed.
   */
  function SetSubscriptionKeys(keys: CtxKeys, claims: AuthClaims, now: Time): (r: CtxKeys)
    ensures claims.subStatus != "" ==> "sub_status" in r && r["sub_status"] == StringValue(claims.subStatus)
    ensures claims.subEnd > 0 ==> "sub_end" in r && r["sub_end"] == IntValue(claims.subEnd)
    ensures claims.subEnd > 0 && now > claims.subEnd ==> "sub_expired" in r && r["sub_expired"] == BoolValue(true)
    ensures !(claims.subEnd > 0 && now > claims.subEnd) ==> Agree(r, keys, "sub_expired")
    ensures forall k :: k !in {"sub_status", "sub_end", "sub_expired"} ==> Agree(r, keys, k)
  {
    var k1 := if claims.subStatus != "" then keys["sub_status" := StringValue(claims.subStatus)] else keys;
    var k2 := if claims.subEnd > 0 then k1["sub_end" := IntValue(claims.subEnd)] else k1;
    if claims.subEnd > 0 && now > claims.subEnd then k2["sub_expired" := BoolValue(true)] else k2
  }

  /**
   * setContext on the context's keys. Nothing is written when the token's
   * user id does not parse; otherwise the identity, owner, restaurant and
   * subscription keys and the claims themselves.
   */
  function WithClaims(keys: CtxKeys, claims: AuthClaims, now: Time, parse: string -> Option<Uuid>): (r: CtxKeys)
    ensures Helpers.ParseUUID(claims.userId, parse) == Nil ==> r == keys
    ensures forall k :: k !in ClaimKeys ==> Agree(r, keys, k)
  {
    var uid := Helpers.ParseUUID(claims.userId, parse);
    if uid == Nil then keys
    else
      var k1 := SetIdentity(keys, claims, uid);
      var k2 := SetOwnerId(k1, claims, uid, parse);
      var k3 := SetRestaurantId(k2, claims, parse);
      var k4 := SetSubscriptionKeys(k3, claims, now);
      k4["auth_claims" := ClaimsValue(claims)]
  }

  /**
   * What a token with a parseable user id leaves in the context: its
   * identity and claims; its owner claim, or the user's own id for an owner
   * without one; its restaurant claim; and `sub_expired` exactly when the
   * subscription end it carries has passed (on a context without that key).
   */
  lemma WithClaimsContents(keys: CtxKeys, claims: AuthClaims, now: Time, parse: string -> Option<Uuid>)
    requires Helpers.ParseUUID(claims.userId, parse) != Nil
    ensures var r := WithClaims(keys, claims, now, parse);
      var uid := Helpers.ParseUUID(claims.userId, parse);
      && "user_id" in r && r["user_id"] == UuidValue(uid)
      && "email" in r && r["email"] == StringValue("")
      && "role" in r && r["role"] == StringValue(claims.role)
      && "auth_claims" in r && r["auth_claims"] == ClaimsValue(claims)
      && (claims.ownerId != "" ==> "owner_id" in r && r["owner_id"] == UuidValue(Helpers.ParseUUID(claims.ownerId, parse)))
      && (claims.ownerId == "" && claims.role == RoleOwner ==> "owner_id" in r && r["owner_id"] == UuidValue(uid))
      && (claims.ownerId == "" && claims.role != RoleOwner ==> Agree(r, keys, "owner_id"))
      && (claims.restaurantId != "" ==> "restaurant_id" in r && r["restaurant_id"] == UuidValue(Helpers.ParseUUID(claims.restaurantId, parse)))
      && (claims.restaurantId == "" ==> Agree(r, keys, "restaurant_id"))
      && ("sub_expired" !in keys ==> ("sub_expired" in r <==> claims.subEnd > 0 && now > claims.subEnd))
  {
    var uid := Helpers.ParseUUID(claims.userId, parse);
    var k1 := SetIdentity(keys, claims, uid);
    var k2 := SetOwnerId(k1, claims, uid, parse);
    var k3 := SetRestaurantId(k2, claims, parse);
    var k4 := SetSubscriptionKeys(k3, claims, now);
    assert Agree(k3, k1, "sub_expired") && Agree(k1, keys, "sub_expired");
    assert Agree(k4, k3, "owner_id") && Agree(k3, k2, "owner_id");
    assert Agree(k4, k3, "restaurant_id");
    assert Agree(k4, k1, "user_id") && Agree(k4, k1, "email") && Agree(k4, k1, "role") by {
      assert Agree(k2, k1, "user_id") && Agree(k3, k2, "user_id");
      assert Agree(k2, k1, "email") && Agree(k3, k2, "email");
      assert Agree(k2, k1, "role") && Agree(k3, k2, "role");
    }
    if claims.ownerId == "" && claims.role != RoleOwner {
      assert Agree(k1, keys, "owner_id");
    }
    if claims.restaurantId == "" {
      assert Agree(k2, k1, "restaurant_id") && Agree(k1, keys, "restaurant_id");
    }
  }

  /** The context's owner and restaurant ids, when set, are UUIDs. */
  predicate IdsAreUuids(keys: CtxKeys)
  {
    && ("owner_id" in keys ==> keys["owner_id"].UuidValue?)
    && ("restaurant_id" in keys ==> keys["restaurant_id"].UuidValue?)
    && ("user_id" in keys ==> keys["user_id"].UuidValue?)
  }

  /**
   * setContext keeps every id key a UUID, so the tier middleware's type
   * assertion on `owner_id` holds for every request that passed
   * authentication on a fresh context.
   */
  lemma WithClaimsKeepsIdsUuids(keys: CtxKeys, claims: AuthClaims, now: Time, parse: string -> Option<Uuid>)
    requires IdsAreUuids(keys)
    ensures IdsAreUuids(WithClaims(keys, claims, now, parse))
  {
    var uid := Helpers.ParseUUID(claims.userId, parse);
    if uid != Nil {
      var k1 := SetIdentity(keys, claims, uid);
      assert Agree(k1, keys, "owner_id") && Agree(k1, keys, "restaurant_id");
      assert IdsAreUuids(k1);
      var k2 := SetOwnerId(k1, claims, uid, parse);
      assert Agree(k2, k1, "user_id") && Agree(k2, k1, "restaurant_id");
      assert IdsAreUuids(k2);
      var k3 := SetRestaurantId(k2, claims, parse);
      assert Agree(k3, k2, "user_id") && Agree(k3, k2, "owner_id");
      assert IdsAreUuids(k3);
      var k4 := SetSubscriptionKeys(k3, claims, now);
      assert Agree(k4, k3, "user_id") && Agree(k4, k3, "owner_id") && Agree(k4, k3, "restaurant_id");
      assert IdsAreUuids(k4);
    }
  }

  /**
   * A staff token carrying its owner's id puts that owner, not the staff
   * member, in the context; an owner claim that does not parse gives uuid.Nil.
   */
  lemma OwnerClaimWins(keys: CtxKeys, claims: AuthClaims, now: Time, parse: string -> Option<Uuid>)
    requires Helpers.ParseUUID(claims.userId, parse) != Nil && claims.ownerId != ""
    ensures parse(claims.ownerId).None? ==> WithClaims(keys, claims, now, parse)["owner_id"] == UuidValue(Nil)
    ensures parse(claims.ownerId).Some? ==>
      WithClaims(keys, claims, now, parse)["owner_id"] == UuidValue(parse(claims.ownerId).value)
  {
  }

  /** The request context: the keys middlewares set for the handlers after them. */
  class GinContext {
    var keys: CtxKeys

    constructor ()
      ensures keys == map[]
    {
      keys := map[];
    }

    /** setContext: copy a verified token's claims into the context. */
    method SetContext(claims: AuthClaims, now: Time, parse: string -> Option<Uuid>)
      modifies this
      ensures keys == WithClaims(old(keys), claims, now, parse)
    {
      var uid := Helpers.ParseUUID(claims.userId, parse);
      if uid == Nil {
        return;
      }
      keys := SetIdentity(keys, claims, uid);
      keys := SetOwnerId(keys, claims, uid, parse);
      keys := SetRestaurantId(keys, claims, parse);
      keys := SetSubscriptionKeys(keys, claims, now);
      keys := keys["auth_claims" := ClaimsValue(claims)];
    }

    /**
     * AuthMiddleware: a missing or malformed header and a token that does
     * not verify are refused with 401 and leave the context as it was;
     * otherwise the claims are copied and the request goes on, even when the
     * token's user id does not parse (nothing is then set).
     */
    method Authenticate(header: string, verifyToken: string -> Option<AuthClaims>, now: Time,
                        parse: string -> Option<Uuid>) returns (o: Outcome)
      modifies this
      ensures o == Next || o == Abort(401)
      ensures ExtractToken(header).Err? ==> o == Abort(401) && keys == old(keys)
      ensures ExtractToken(header).Ok? && verifyToken(ExtractToken(header).value).None? ==>
        o == Abort(401) && keys == old(keys)
      ensures ExtractToken(header).Ok? && verifyToken(ExtractToken(header).value).Some? ==>
        o == Next && keys == WithClaims(old(keys), verifyToken(ExtractToken(header).value).value, now, parse)
    {
      var token := ExtractToken(header);
      if token.Err? {
        return Abort(401);
      }
      var claims := verifyToken(token.value);
      if claims.None? {
        return Abort(401);
      }
      SetContext(claims.value, now, parse);
      return Next;
    }
  }

  /**
   * RequireRole: 401 when the context has no role or a role that is not a
   * string, the next handler when the role is one of `roles`, 403 otherwise.
   */
  method RequireRole(keys: CtxKeys, roles: seq<string>) returns (o: Outcome)
    ensures o == Next <==> "role" in keys && keys["role"].StringValue? && keys["role"].text in roles
    ensures o == Abort(401) <==> "role" !in keys || !keys["role"].StringValue?
    ensures o == Next || o == Abort(401) || o == Abort(403)
  {
    if "role" !in keys || !keys["role"].StringValue? {
      return Abort(401);
    }
    var role := keys["role"].text;
    var i := 0;
    while i < |roles|
      invariant 0 <= i <= |roles|
      invariant role !in roles[..i]
    {
      if roles[i] == role {
        return Next;
      }
      assert roles[..i + 1] == roles[..i] + [roles[i]];
      i := i + 1;
    }
    assert roles[..i] == roles;
    return Abort(403);
  }

  /**
   * An owner token passes RequireRole("owner") after authentication, and a
   * staff token does not, whatever else the token carries.
   */
  lemma OwnerRouteAdmitsOnlyOwners(claims: AuthClaims, now: Time, parse: string -> Option<Uuid>)
    requires Helpers.ParseUUID(claims.userId, parse) != Nil
    ensures var keys := WithClaims(map[], claims, now, parse);
      "role" in keys && keys["role"].StringValue? && (keys["role"].text in [RoleOwner] <==> claims.role == RoleOwner)
  {
  }
}
