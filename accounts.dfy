/**
 * The users and subscriptions tables the account services write. An update
 * by id fails when the id has no row; an insert fails when its id is taken.
 * UpdateUser writes only the columns whose parameter is non-NULL, as the
 * services rely on (Register and Login each pass one or two columns).
 */
module Accounts {
  import opened Common

  /** persistence.CreateUserParams. */
  datatype CreateUserParams = CreateUserParams(
    email: string,
    passwordHash: string,
    fullName: string,
    role: string,
    ownerId: Uuid,
    restaurantId: Uuid,
    phone: NullText)

  /** persistence.UpdateUserParams: a NULL parameter keeps its column. */
  datatype UpdateUserParams = UpdateUserParams(
    id: Uuid,
    fullName: NullText,
    phone: NullText,
    avatarUrl: NullText,
    isActive: NullBool,
    emailVerified: NullBool,
    lastLoginAt: Option<Time>)

  /** The update that names a row and sets nothing. */
  function NoUserChanges(id: Uuid): (p: UpdateUserParams)
    ensures p.id == id
    ensures !p.fullName.valid && !p.phone.valid && !p.avatarUrl.valid
    ensures !p.isActive.valid && !p.emailVerified.valid && p.lastLoginAt.None?
  {
    UpdateUserParams(id, NullText("", false), NullText("", false), NullText("", false),
                     NullBool(false, false), NullBool(false, false), None)
  }

  /** A user row after UpdateUser: each non-NULL parameter replaces its column. */
  function ApplyUserUpdate(row: UserRow, p: UpdateUserParams): UserRow
  {
    row.(fullName := if p.fullName.valid then p.fullName.text else row.fullName,
         phone := if p.phone.valid then p.phone else row.phone,
         avatarUrl := if p.avatarUrl.valid then p.avatarUrl else row.avatarUrl,
         isActive := if p.isActive.valid then p.isActive.flag else row.isActive,
         emailVerified := if p.emailVerified.valid then p.emailVerified.flag else row.emailVerified,
         lastLoginAt := if p.lastLoginAt.Some? then p.lastLoginAt else row.lastLoginAt)
  }

  /**
   * An update never touches the identity, credentials, role or links of a
   * user; one that sets nothing changes nothing, and applying the same
   * update twice is the same as once.
   */
  lemma UserUpdateKeepsIdentity(row: UserRow, p: UpdateUserParams)
    ensures var r := ApplyUserUpdate(row, p);
      (r.id, r.email, r.passwordHash, r.role, r.ownerId, r.restaurantId)
      == (row.id, row.email, row.passwordHash, row.role, row.ownerId, row.restaurantId)
    ensures ApplyUserUpdate(row, NoUserChanges(p.id)) == row
    ensures ApplyUserUpdate(ApplyUserUpdate(row, p), p) == ApplyUserUpdate(row, p)
    ensures p.isActive.valid ==> ApplyUserUpdate(row, p).isActive == p.isActive.flag
    ensures p.emailVerified.valid ==> ApplyUserUpdate(row, p).emailVerified == p.emailVerified.flag
  {
  }

  /** The account tables, and the users table's column defaults, which the schema sets. */
  class AccountStore {
    var users: map<Uuid, UserRow>
    var subscriptions: map<Uuid, Subscription>
    const defaultActive: bool
    const defaultVerified: bool

    constructor(defaultActive: bool, defaultVerified: bool)
      ensures users == map[] && subscriptions == map[]
      ensures this.defaultActive == defaultActive && this.defaultVerified == defaultVerified
    {
      users := map[];
      subscriptions := map[];
      this.defaultActive := defaultActive;
      this.defaultVerified := defaultVerified;
    }

    /** CreateUser: the new row under `newId`, with the table's defaults for the flags. */
    method CreateUser(p: CreateUserParams, newId: Uuid) returns (r: Result<UserRow>)
      modifies this
      ensures subscriptions == old(subscriptions)
      ensures r.Ok? <==> newId !in old(users)
      ensures r.Ok? ==> r.value == UserRow(newId, p.email, p.passwordHash, p.fullName, p.role, p.ownerId, p.restaurantId,
                                           p.phone, NullText("", false), defaultVerified, defaultActive, None)
      ensures r.Ok? ==> users == old(users)[newId := r.value]
      ensures r.Err? ==> users == old(users)
    {
      if newId in users {
        return Err("failed to create user");
      }
      var row := UserRow(newId, p.email, p.passwordHash, p.fullName, p.role, p.ownerId, p.restaurantId,
                         p.phone, NullText("", false), defaultVerified, defaultActive, None);
      users := users[newId := row];
      return Ok(row);
    }

    /** UpdateUser: the row after the update, or an error when the id has no row. */
    method UpdateUser(p: UpdateUserParams) returns (r: Result<UserRow>)
      modifies this
      ensures subscriptions == old(subscriptions)
      ensures r.Ok? <==> p.id in old(users)
      ensures r.Ok? ==> r.value == ApplyUserUpdate(old(users)[p.id], p) && users == old(users)[p.id := r.value]
      ensures r.Err? ==> users == old(users)
    {
      if p.id !in users {
        return Err("no rows in result set");
      }
      var row := ApplyUserUpdate(users[p.id], p);
      users := users[p.id := row];
      return Ok(row);
    }

    /** CreateSubscription: the new row under its own id. */
    method CreateSubscription(sub: Subscription) returns (r: Result<Subscription>)
      modifies this
      ensures users == old(users)
      ensures r.Ok? <==> sub.id !in old(subscriptions)
      ensures r.Ok? ==> r.value == sub && subscriptions == old(subscriptions)[sub.id := sub]
      ensures r.Err? ==> subscriptions == old(subscriptions)
    {
      if sub.id in subscriptions {
        return Err("failed to create subscription");
      }
      subscriptions := subscriptions[sub.id := sub];
      return Ok(sub);
    }
  }
}
