/**
 * The restaurant access middleware: admins reach every restaurant, an owner
 * only the restaurants they own, a staff member only the restaurant their
 * token assigns them to; every other role is refused.
 */
module Authorization {
  import opened Common
  import Helpers

  /**
   * RequireRestaurantAccess for the `restaurant_id` route parameter `param`;
   * `restaurants` is GetRestaurantByID (an absent id finds no row).
   */
  function RequireRestaurantAccess(keys: CtxKeys, param: string, restaurants: map<Uuid, Restaurant>,
                                   parse: string -> Option<Uuid>): (o: Outcome)
    ensures o == Next <==>
      || KeyIsString(keys, "role", RoleAdmin)
      || var target := Helpers.ParseUUID(param, parse);
         && target != Nil
         && "user_id" in keys && keys["user_id"].UuidValue?
         && (|| (KeyIsString(keys, "role", RoleOwner) && target in restaurants
                 && restaurants[target].ownerId == keys["user_id"].id)
             || (KeyIsString(keys, "role", RoleStaff) && "restaurant_id" in keys
                 && keys["restaurant_id"] == UuidValue(target)))
    ensures "role" !in keys ==> o == Abort(401)
    ensures "role" in keys && !KeyIsString(keys, "role", RoleAdmin) && Helpers.ParseUUID(param, parse) == Nil ==> o == Abort(400)
    ensures o == Abort(404) <==>
      && KeyIsString(keys, "role", RoleOwner)
      && Helpers.ParseUUID(param, parse) != Nil
      && "user_id" in keys && keys["user_id"].UuidValue?
      && Helpers.ParseUUID(param, parse) !in restaurants
    ensures o in {Next, Abort(400), Abort(401), Abort(403), Abort(404)}
  {
    if "role" !in keys then Abort(401)
    else if KeyIsString(keys, "role", RoleAdmin) then Next
    else if param == "" then Abort(400)
    else
      var target := Helpers.ParseUUID(param, parse);
      if target == Nil then Abort(400)
      else if !("user_id" in keys && keys["user_id"].UuidValue?) then Abort(401)
      else
        var userId := keys["user_id"].id;
        if KeyIsString(keys, "role", RoleOwner) then
          if target !in restaurants then Abort(404)
          else if restaurants[target].ownerId != userId then Abort(403)
          else Next
        else if KeyIsString(keys, "role", RoleStaff) then
          if "restaurant_id" !in keys then Abort(403)
          else if !(keys["restaurant_id"].UuidValue? && keys["restaurant_id"].id == target) then Abort(403)
          else Next
        else Abort(403)
  }

  /**
   * A non-admin who passes reaches only a restaurant tied to them: an owner
   * one whose owner is the user, a staff member the one their token names.
   */
  lemma AccessIsTied(keys: CtxKeys, param: string, restaurants: map<Uuid, Restaurant>, parse: string -> Option<Uuid>)
    requires RequireRestaurantAccess(keys, param, restaurants, parse) == Next
    requires !KeyIsString(keys, "role", RoleAdmin)
    ensures var target := Helpers.ParseUUID(param, parse);
      && param != "" && target != Nil
      && (KeyIsString(keys, "role", RoleOwner) ==> target in restaurants && UuidValue(restaurants[target].ownerId) == keys["user_id"])
      && (KeyIsString(keys, "role", RoleStaff) ==> keys["restaurant_id"] == UuidValue(target))
      && (KeyIsString(keys, "role", RoleOwner) || KeyIsString(keys, "role", RoleStaff))
  {
  }

  /**
   * For an owner, access depends only on the restaurant's owner: moving the
   * restaurant to another owner revokes it.
   */
  lemma TransferRevokesOwnerAccess(keys: CtxKeys, param: string, restaurants: map<Uuid, Restaurant>,
                                   parse: string -> Option<Uuid>, newOwner: Uuid)
    requires KeyIsString(keys, "role", RoleOwner)
    requires "user_id" in keys && keys["user_id"] != UuidValue(newOwner)
    requires Helpers.ParseUUID(param, parse) in restaurants
    ensures var target := Helpers.ParseUUID(param, parse);
      RequireRestaurantAccess(keys, param, restaurants[target := restaurants[target].(ownerId := newOwner)], parse) != Next
  {
  }
}
