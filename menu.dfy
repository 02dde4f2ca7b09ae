/**
 * The menu service: who may change a restaurant's menu, the tier check
 * before a category or a menu item is created, the rows those creations
 * insert, and the reordering of categories. The categories and menu items
 * tables are the fields of a MenuStore; users, restaurants and the owners'
 * subscriptions are read-only tables passed in.
 */
module MenuService {
  import opened Common
  import Helpers
  import ServiceGates
  import Pagination

  /** The models.User getUser builds: owner and restaurant are pointers. */
  datatype MenuUser = MenuUser(
    id: Uuid,
    email: string,
    fullName: string,
    role: string,
    ownerId: Option<Uuid>,
    restaurantId: Option<Uuid>)

  /** pgtype.Int4: a number and whether the column value is non-NULL. */
  datatype NullInt = NullInt(number: int, valid: bool)

  /** One row of the categories table. */
  datatype Category = Category(
    id: Uuid,
    restaurantId: Uuid,
    name: string,
    description: NullText,
    icon: NullText,
    displayOrder: int,
    isActive: bool,
    createdBy: Uuid)

  /** One row of the menu_items table (price, allergens and dietary tags left out). */
  datatype MenuItem = MenuItem(
    id: Uuid,
    restaurantId: Uuid,
    categoryId: Uuid,
    name: string,
    description: NullText,
    currency: string,
    images: string,
    spiceLevel: NullInt,
    calories: NullInt,
    isAvailable: bool,
    displayOrder: int,
    createdBy: Uuid)

  datatype CategoryInput = CategoryInput(name: string, description: string, displayOrder: int, isActive: bool)

  datatype MenuItemInput = MenuItemInput(
    categoryId: Uuid,
    name: string,
    description: string,
    currency: string,
    spiceLevel: int,
    calories: int,
    isAvailable: bool,
    displayOrder: int)

  /**
   * getUser: the user row by id; the owner and restaurant pointers always
   * point at the row's columns, so they are never nil.
   */
  function GetUser(users: map<Uuid, UserRow>, userId: Uuid): (r: Result<MenuUser>)
    ensures r.Ok? <==> userId in users
    ensures r.Ok? ==> r.value.ownerId.Some? && r.value.restaurantId.Some?
    ensures r.Ok? ==> var row := users[userId];
      r.value == MenuUser(row.id, row.email, row.fullName, row.role, Some(row.ownerId), Some(row.restaurantId))
  {
    if userId !in users then Err("failed to fetch user")
    else
      var row := users[userId];
      Ok(MenuUser(row.id, row.email, row.fullName, row.role, Some(row.ownerId), Some(row.restaurantId)))
  }

  /** The owner whose tier applies: a staff member's owner, otherwise the user. */
  function EffectiveOwner(u: MenuUser): Uuid
    requires u.role == RoleStaff ==> u.ownerId.Some?
  {
    if u.role == RoleStaff then u.ownerId.value else u.id
  }

  /**
   * verifyAccess: admins pass without a lookup; everyone else needs the
   * restaurant to exist, an owner must own it, a staff member must be
   * assigned to it, and any other role passes.
   */
  function VerifyAccess(u: MenuUser, restaurantId: Uuid, restaurants: map<Uuid, Restaurant>): (r: Result<()>)
    ensures r.Ok? <==>
      || u.role == RoleAdmin
      || (&& restaurantId in restaurants
          && (u.role == RoleOwner ==> restaurants[restaurantId].ownerId == u.id)
          && (u.role == RoleStaff ==> u.restaurantId == Some(restaurantId)))
  {
    if u.role == RoleAdmin then Ok(())
    else if restaurantId !in restaurants then Err("failed to fetch restaurant")
    else if u.role == RoleOwner then
      if restaurants[restaurantId].ownerId != u.id then Err("unauthorized: you do not own this restaurant") else Ok(())
    else if u.role == RoleStaff then
      if u.restaurantId.None? || u.restaurantId.value != restaurantId then Err("unauthorized: you are not assigned to this restaurant")
      else Ok(())
    else Ok(())
  }

  /** getUser then verifyAccess: the user who may act on the restaurant. */
  function Access(users: map<Uuid, UserRow>, userId: Uuid, restaurants: map<Uuid, Restaurant>, restaurantId: Uuid): (r: Result<MenuUser>)
    ensures r.Ok? <==> userId in users && VerifyAccess(GetUser(users, userId).value, restaurantId, restaurants).Ok?
    ensures r.Ok? ==> r == GetUser(users, userId)
  {
    var u := GetUser(users, userId);
    if u.Err? then Err(u.error)
    else
      var access := VerifyAccess(u.value, restaurantId, restaurants);
      if access.Err? then Err(access.error) else Ok(u.value)
  }

  /**
   * The tier part of CreateCategory and CreateMenuItem, after access: the
   * effective owner's subscription must be valid now, and its limits (zero
   * when they do not decode) apply.
   */
  function TierGate(users: map<Uuid, UserRow>, userId: Uuid, restaurants: map<Uuid, Restaurant>, restaurantId: Uuid,
                    subs: map<Uuid, OwnerSubscription>, now: Time): (r: Result<(MenuUser, FeatureLimits)>)
    ensures r.Ok? <==>
      && Access(users, userId, restaurants, restaurantId).Ok?
      && ServiceGates.SubscriptionFeatures(
           ServiceGates.SubscriptionOf(subs, EffectiveOwner(Access(users, userId, restaurants, restaurantId).value)), now).Ok?
    ensures Access(users, userId, restaurants, restaurantId).Err? ==> r == Err(Access(users, userId, restaurants, restaurantId).error)
    ensures r.Ok? ==> r.value.0 == Access(users, userId, restaurants, restaurantId).value
    ensures r.Ok? ==> r.value.1 == Helpers.FeaturesOrZero(subs[EffectiveOwner(r.value.0)].features)
  {
    var u := Access(users, userId, restaurants, restaurantId);
    if u.Err? then Err(u.error)
    else
      var f := ServiceGates.SubscriptionFeatures(ServiceGates.SubscriptionOf(subs, EffectiveOwner(u.value)), now);
      if f.Err? then Err(f.error) else Ok((u.value, f.value))
  }

  /**
   * The access check comes first: a user who may not act on the restaurant
   * is refused the same way whatever the subscriptions say.
   */
  lemma AccessBeforeTier(users: map<Uuid, UserRow>, userId: Uuid, restaurants: map<Uuid, Restaurant>, restaurantId: Uuid,
                         subs: map<Uuid, OwnerSubscription>, subs': map<Uuid, OwnerSubscription>, now: Time, now': Time)
    requires Access(users, userId, restaurants, restaurantId).Err?
    ensures TierGate(users, userId, restaurants, restaurantId, subs, now) == TierGate(users, userId, restaurants, restaurantId, subs', now')
    ensures TierGate(users, userId, restaurants, restaurantId, subs, now).Err?
  {
  }

  /**
   * The category gate: the tier gate, then, when the categories could be
   * listed, `TierValueCompare(MaxCategories, count)` must allow one more.
   * The comparison is not part of this model and is a parameter.
   */
  function CategoryGate(users: map<Uuid, UserRow>, userId: Uuid, restaurants: map<Uuid, Restaurant>, restaurantId: Uuid,
                        subs: map<Uuid, OwnerSubscription>, now: Time, listed: Option<nat>,
                        tierValueCompare: (int, nat) -> bool): (r: Result<MenuUser>)
    ensures var t := TierGate(users, userId, restaurants, restaurantId, subs, now);
      r.Ok? <==> t.Ok? && !(listed.Some? && !tierValueCompare(t.value.1.maxCategories, listed.value))
    ensures r.Ok? ==> r.value == TierGate(users, userId, restaurants, restaurantId, subs, now).value.0
  {
    var t := TierGate(users, userId, restaurants, restaurantId, subs, now);
    if t.Err? then Err(t.error)
    else if listed.Some? && !tierValueCompare(t.value.1.maxCategories, listed.value) then Err("category limit reached for your tier")
    else Ok(t.value.0)
  }

  /**
   * The menu item gate: the tier gate, then the item listing must not
   * already hold `MaxMenuItems` rows; there is no "unlimited" guard.
   */
  function MenuItemGate(users: map<Uuid, UserRow>, userId: Uuid, restaurants: map<Uuid, Restaurant>, restaurantId: Uuid,
                        subs: map<Uuid, OwnerSubscription>, now: Time, listed: Option<nat>): (r: Result<MenuUser>)
    ensures var t := TierGate(users, userId, restaurants, restaurantId, subs, now);
      r.Ok? <==> t.Ok? && !ServiceGates.LimitReached(listed, t.value.1.maxMenuItems)
    ensures r.Ok? ==> r.value == TierGate(users, userId, restaurants, restaurantId, subs, now).value.0
  {
    var t := TierGate(users, userId, restaurants, restaurantId, subs, now);
    if t.Err? then Err(t.error)
    else if ServiceGates.LimitReached(listed, t.value.1.maxMenuItems) then Err("menu item limit reached for your tier")
    else Ok(t.value.0)
  }

  /**
   * A tier without a positive item limit, or features that do not decode,
   * blocks every item creation whose listing succeeds; only a failed
   * listing lets it through.
   */
  lemma ZeroItemLimitBlocks(users: map<Uuid, UserRow>, userId: Uuid, restaurants: map<Uuid, Restaurant>, restaurantId: Uuid,
                            subs: map<Uuid, OwnerSubscription>, now: Time, listed: nat)
    requires TierGate(users, userId, restaurants, restaurantId, subs, now).Ok?
    requires TierGate(users, userId, restaurants, restaurantId, subs, now).value.1.maxMenuItems <= 0
             || subs[EffectiveOwner(TierGate(users, userId, restaurants, restaurantId, subs, now).value.0)].features == MalformedBlob
    ensures MenuItemGate(users, userId, restaurants, restaurantId, subs, now, Some(listed)).Err?
    ensures MenuItemGate(users, userId, restaurants, restaurantId, subs, now, None).Ok?
  {
  }

  /** A staff member's creations count against their owner's tier, never their own. */
  lemma StaffUseOwnersTier(users: map<Uuid, UserRow>, userId: Uuid)
    requires userId in users && users[userId].role == RoleStaff
    ensures EffectiveOwner(GetUser(users, userId).value) == users[userId].ownerId
  {
  }

  /** The smallest position of an id that is not a category, or the length when all are. */
  function FirstUnknown(cats: map<Uuid, Category>, ids: seq<Uuid>): (k: nat)
    ensures k <= |ids|
    ensures forall j :: 0 <= j < k ==> ids[j] in cats
    ensures k < |ids| ==> ids[k] !in cats
  {
    if ids == [] then 0
    else if ids[0] !in cats then 0
    else 1 + FirstUnknown(cats, ids[1..])
  }

  /** The categories after each id, in order, got its position plus one as display order. */
  function Reordered(cats: map<Uuid, Category>, ids: seq<Uuid>): (r: map<Uuid, Category>)
    requires forall j :: 0 <= j < |ids| ==> ids[j] in cats
    ensures r.Keys == cats.Keys
  {
    if ids == [] then cats
    else
      var prev := Reordered(cats, ids[..|ids| - 1]);
      var id := ids[|ids| - 1];
      prev[id := prev[id].(displayOrder := |ids|)]
  }

  /**
   * With distinct ids, the i-th id's display order becomes i + 1, nothing
   * else about it changes, and categories not listed are untouched.
   */
  lemma {:induction false} ReorderedOrders(cats: map<Uuid, Category>, ids: seq<Uuid>)
    requires forall j :: 0 <= j < |ids| ==> ids[j] in cats
    requires forall i, j :: 0 <= i < j < |ids| ==> ids[i] != ids[j]
    ensures forall k :: 0 <= k < |ids| ==> Reordered(cats, ids)[ids[k]] == cats[ids[k]].(displayOrder := k + 1)
    ensures forall c :: c in cats && c !in ids ==> Reordered(cats, ids)[c] == cats[c]
  {
    if ids != [] {
      var ids' := ids[..|ids| - 1];
      ReorderedOrders(cats, ids');
      forall k | 0 <= k < |ids| - 1
        ensures ids[k] == ids'[k] && ids[k] != ids[|ids| - 1]
      {
      }
    }
  }

  /** ListMenuItems' page metadata as written: page 1, page size = rows listed. */
  function ListMenuItemsMetaAsWritten(rows: nat, total: int): (m: Option<Pagination.Meta>)
    ensures m.None? <==> rows == 0
  {
    Pagination.CalculateMetaChecked(1, rows, total)
  }

  /** A restaurant without menu items makes CalculateMeta divide by zero. */
  lemma EmptyMenuDividesByZero(total: int)
    ensures ListMenuItemsMetaAsWritten(0, total).None?
  {
  }

  /**
   * ListMenuItems' page metadata as intended: every row on one page, and a
   * page size of at least one so an empty menu is a single empty page.
   */
  function ListMenuItemsMeta(rows: nat, total: int): (m: Pagination.Meta)
    ensures m.page == 1 && !m.hasPrevious && m.totalRecords == total
    ensures m.pageSize >= 1
    ensures rows > 0 ==> Some(m) == ListMenuItemsMetaAsWritten(rows, total)
    ensures total <= m.pageSize ==> m.totalPages == 1 && !m.hasNext
  {
    var size := if rows == 0 then 1 else rows;
    if total <= size then
      Pagination.OnePageWhenFits(1, size, total);
      Pagination.CalculateMeta(1, size, total)
    else
      Pagination.CalculateMeta(1, size, total)
  }

  /** The menu's own tables. */
  class MenuStore {
    var categories: map<Uuid, Category>
    var items: map<Uuid, MenuItem>

    constructor()
      ensures categories == map[] && items == map[]
    {
      categories := map[];
      items := map[];
    }

    /**
     * CreateCategory: nothing is written unless the category gate passes;
     * then the row under the fresh id `newId` (an insert fails when the id
     * is taken). A missing or failed icon upload does not stop the creation;
     * an empty description or icon URL is stored NULL.
     */
    method CreateCategory(users: map<Uuid, UserRow>, userId: Uuid, restaurants: map<Uuid, Restaurant>, restaurantId: Uuid,
                          subs: map<Uuid, OwnerSubscription>, now: Time, listed: Option<nat>,
                          tierValueCompare: (int, nat) -> bool, input: CategoryInput, iconUpload: Option<Result<string>>,
                          newId: Uuid)
      returns (r: Result<Category>)
      modifies this
      ensures items == old(items)
      ensures r.Ok? <==> CategoryGate(users, userId, restaurants, restaurantId, subs, now, listed, tierValueCompare).Ok?
                         && newId !in old(categories)
      ensures r.Ok? ==> categories == old(categories)[newId := r.value]
      ensures r.Ok? ==> r.value == Category(newId, restaurantId, input.name,
                                            Helpers.NonEmptyText(input.description),
                                            Helpers.NonEmptyText(Helpers.UploadedUrl(iconUpload)), input.displayOrder, input.isActive,
                                            users[userId].id)
      ensures r.Err? ==> categories == old(categories)
    {
      var gate := CategoryGate(users, userId, restaurants, restaurantId, subs, now, listed, tierValueCompare);
      if gate.Err? {
        return Err(gate.error);
      }
      if newId in categories {
        return Err("failed to create category");
      }
      var c := Category(newId, restaurantId, input.name, Helpers.NonEmptyText(input.description),
                        Helpers.NonEmptyText(Helpers.UploadedUrl(iconUpload)), input.displayOrder, input.isActive, gate.value.id);
      categories := categories[newId := c];
      return Ok(c);
    }

    /**
     * CreateMenuItem: nothing is written unless the menu item gate passes;
     * then the row under `newId`. The image URL ("" when there was none or
     * the upload failed) is stored as a one-element JSON array, the spice
     * level is always non-NULL and a zero calorie count is NULL.
     */
    method CreateMenuItem(users: map<Uuid, UserRow>, userId: Uuid, restaurants: map<Uuid, Restaurant>, restaurantId: Uuid,
                          subs: map<Uuid, OwnerSubscription>, now: Time, listed: Option<nat>,
                          input: MenuItemInput, imageUpload: Option<Result<string>>, newId: Uuid)
      returns (r: Result<MenuItem>)
      modifies this
      ensures categories == old(categories)
      ensures r.Ok? <==> MenuItemGate(users, userId, restaurants, restaurantId, subs, now, listed).Ok? && newId !in old(items)
      ensures r.Ok? ==> items == old(items)[newId := r.value]
      ensures r.Ok? ==> r.value == MenuItem(newId, restaurantId, input.categoryId, input.name,
                                            Helpers.NonEmptyText(input.description), input.currency,
                                            "[\"" + Helpers.UploadedUrl(imageUpload) + "\"]", NullInt(input.spiceLevel, true),
                                            NullInt(input.calories, input.calories != 0), input.isAvailable,
                                            input.displayOrder, users[userId].id)
      ensures r.Err? ==> items == old(items)
    {
      var gate := MenuItemGate(users, userId, restaurants, restaurantId, subs, now, listed);
      if gate.Err? {
        return Err(gate.error);
      }
      if newId in items {
        return Err("failed to create menu item");
      }
      var item := MenuItem(newId, restaurantId, input.categoryId, input.name,
                           Helpers.NonEmptyText(input.description), input.currency,
                           "[\"" + Helpers.UploadedUrl(imageUpload) + "\"]", NullInt(input.spiceLevel, true),
                           NullInt(input.calories, input.calories != 0), input.isAvailable,
                           input.displayOrder, gate.value.id);
      items := items[newId := item];
      return Ok(item);
    }

    /**
     * ReorderCategories: after the access check, the i-th id's display
     * order is set to i + 1 one update at a time; the first id that is not a
     * category stops the loop with an error and the earlier updates stay.
     */
    method ReorderCategories(users: map<Uuid, UserRow>, userId: Uuid, restaurants: map<Uuid, Restaurant>, restaurantId: Uuid,
                             ids: seq<Uuid>)
      returns (r: Result<()>)
      modifies this
      ensures items == old(items)
      ensures r.Ok? <==> Access(users, userId, restaurants, restaurantId).Ok? && FirstUnknown(old(categories), ids) == |ids|
      ensures Access(users, userId, restaurants, restaurantId).Err? ==> categories == old(categories)
      ensures Access(users, userId, restaurants, restaurantId).Ok? ==>
        categories == Reordered(old(categories), ids[..FirstUnknown(old(categories), ids)])
    {
      var access := Access(users, userId, restaurants, restaurantId);
      if access.Err? {
        return Err(access.error);
      }
      var i := 0;
      while i < |ids|
        invariant 0 <= i <= |ids|
        invariant forall j :: 0 <= j < i ==> ids[j] in old(categories)
        invariant categories == Reordered(old(categories), ids[..i])
        invariant items == old(items)
      {
        if ids[i] !in categories {
          assert FirstUnknown(old(categories), ids) == i;
          return Err("failed to update category order");
        }
        assert ids[..i + 1][..i] == ids[..i];
        categories := categories[ids[i] := categories[ids[i]].(displayOrder := i + 1)];
        i := i + 1;
      }
      assert ids[..i] == ids;
      return Ok(());
    }
  }
}
