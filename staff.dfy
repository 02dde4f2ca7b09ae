/**
 * The staff service: the tier check before a staff account is created, the
 * account it creates (role staff, tied to the owner and the restaurant, with
 * a generated 12-character password), and the optional-field update of a
 * staff member.
 */
module StaffService {
  import opened Common
  import Helpers
  import ServiceGates
  import Accounts

  /** The length of a generated staff password. */
  const PasswordLength: nat := 12

  datatype StaffInput = StaffInput(email: string, fullName: string, phone: string)

  /** models.UpdateUserRequest: nil fields are left as they are. */
  datatype StaffUpdate = StaffUpdate(fullName: Option<string>, phone: Option<string>, isActive: Option<bool>)

  /**
   * The staff gate of CreateStaff: the owner's subscription must be fetched
   * and valid now; then, when the restaurant's staff could be listed, there
   * must be fewer than MaxStaffAccounts of them (there is no "unlimited"
   * guard, and undecodable features leave a zero limit).
   */
  function StaffGate(subs: map<Uuid, OwnerSubscription>, ownerId: Uuid, now: Time, listedStaff: Option<nat>): (r: Result<FeatureLimits>)
    ensures var f := ServiceGates.SubscriptionFeatures(ServiceGates.SubscriptionOf(subs, ownerId), now);
      r.Ok? <==> f.Ok? && !ServiceGates.LimitReached(listedStaff, f.value.maxStaffAccounts)
    ensures ownerId !in subs ==> r == Err("failed to fetch subscription")
    ensures r.Ok? ==> r.value == Helpers.FeaturesOrZero(subs[ownerId].features)
  {
    var f := ServiceGates.SubscriptionFeatures(ServiceGates.SubscriptionOf(subs, ownerId), now);
    if f.Err? then Err(f.error)
    else if ServiceGates.LimitReached(listedStaff, f.value.maxStaffAccounts) then Err("staff account limit reached for your tier")
    else Ok(f.value)
  }

  /**
   * An expired, cancelled or past-due subscription admits no staff, whatever
   * its limits; a valid one with room admits one more.
   */
  lemma StaffGateFollowsValidity(subs: map<Uuid, OwnerSubscription>, ownerId: Uuid, now: Time, n: nat)
    requires ownerId in subs
    ensures ServiceGates.SubscriptionFeatures(Some(subs[ownerId]), now).Err? ==> StaffGate(subs, ownerId, now, Some(n)).Err?
    ensures (ServiceGates.SubscriptionFeatures(Some(subs[ownerId]), now).Ok?
             && n < Helpers.FeaturesOrZero(subs[ownerId].features).maxStaffAccounts) ==>
      StaffGate(subs, ownerId, now, Some(n)).Ok?
  {
  }

  /** The user CreateStaff inserts: a staff member of the owner, at the restaurant. */
  function StaffUserParams(ownerId: Uuid, restaurantId: Uuid, input: StaffInput, passwordHash: string): (p: Accounts.CreateUserParams)
    ensures p.role == RoleStaff && p.ownerId == ownerId && p.restaurantId == restaurantId
    ensures p.email == input.email && p.fullName == input.fullName && p.passwordHash == passwordHash
    ensures p.phone.valid <==> input.phone != ""
    ensures p.phone.valid ==> p.phone.text == input.phone
  {
    Accounts.CreateUserParams(input.email, passwordHash, input.fullName, RoleStaff, ownerId, restaurantId,
                              Helpers.NonEmptyText(input.phone))
  }

  /**
   * CreateStaff: the gate, then a generated password (a failed draw is an
   * error), its hash (`hash` stands for bcrypt; None is a failure) and the
   * insert of the user under `newId`. Nothing is written unless every step
   * succeeds; the password is handed back for the welcome e-mail.
   */
  method CreateStaff(store: Accounts.AccountStore, subs: map<Uuid, OwnerSubscription>, now: Time,
                     ownerId: Uuid, restaurantId: Uuid, input: StaffInput, listedStaff: Option<nat>,
                     rand: nat -> Option<Helpers.CharsetIndex>, hash: string -> Option<string>, newId: Uuid)
    returns (r: Result<UserRow>, password: string)
    modifies store
    ensures store.subscriptions == old(store.subscriptions)
    ensures r.Ok? <==> && StaffGate(subs, ownerId, now, listedStaff).Ok?
                       && (forall i :: 0 <= i < PasswordLength ==> rand(i).Some?)
                       && hash(password).Some?
                       && newId !in old(store.users)
    ensures r.Err? ==> store.users == old(store.users)
    ensures r.Ok? ==> |password| == PasswordLength && forall c :: c in password ==> c in Helpers.Charset
    ensures r.Ok? ==> r.value.role == RoleStaff && r.value.ownerId == ownerId && r.value.restaurantId == restaurantId
    ensures r.Ok? ==> r.value.passwordHash == hash(password).value && r.value.id == newId
    ensures r.Ok? ==> store.users == old(store.users)[newId := r.value]
    ensures r.Ok? ==> r.value.email == input.email && r.value.fullName == input.fullName
    ensures r.Ok? ==> r.value.phone == Helpers.NonEmptyText(input.phone)
  {
    password := "";
    var gate := StaffGate(subs, ownerId, now, listedStaff);
    if gate.Err? {
      return Err(gate.error), password;
    }
    var generated := Helpers.GeneratePassword(PasswordLength, rand);
    if generated.Err? {
      return Err("failed to generate password"), password;
    }
    password := generated.value;
    Helpers.PasswordFromCharset(password, PasswordLength, rand);
    var hashed := hash(password);
    if hashed.None? {
      return Err("failed to hash password"), password;
    }
    r := store.CreateUser(StaffUserParams(ownerId, restaurantId, input, hashed.value), newId);
    if r.Err? {
      return Err("failed to create staff user"), password;
    }
  }

  /**
   * UpdateStaff's parameters: each of name, phone and active flag is set
   * exactly when given; the avatar URL is set only when an upload
   * succeeded. The restaurant the request names takes no part.
   */
  function UpdateStaffParams(staffId: Uuid, input: StaffUpdate, avatarUpload: Option<Result<string>>): (p: Accounts.UpdateUserParams)
    ensures p.id == staffId
    ensures p.fullName == Helpers.PtrText(input.fullName) && p.phone == Helpers.PtrText(input.phone)
    ensures p.isActive == Helpers.PtrBool(input.isActive)
    ensures p.avatarUrl.valid <==> avatarUpload.Some? && avatarUpload.value.Ok?
    ensures p.avatarUrl == Helpers.UploadedColumn(avatarUpload)
    ensures !p.emailVerified.valid && p.lastLoginAt.None?
  {
    Accounts.UpdateUserParams(staffId, Helpers.PtrText(input.fullName), Helpers.PtrText(input.phone),
                              Helpers.UploadedColumn(avatarUpload),
                              Helpers.PtrBool(input.isActive), NullBool(false, false), None)
  }

  /**
   * A staff update changes the name, phone and active flag only when given,
   * and never the e-mail, verification or last login.
   */
  lemma UpdateStaffChangesOnlyGiven(row: UserRow, staffId: Uuid, input: StaffUpdate, avatarUpload: Option<Result<string>>)
    ensures var r := Accounts.ApplyUserUpdate(row, UpdateStaffParams(staffId, input, avatarUpload));
      && r.fullName == (if input.fullName.Some? then input.fullName.value else row.fullName)
      && r.phone == (if input.phone.Some? then NullText(input.phone.value, true) else row.phone)
      && r.isActive == (if input.isActive.Some? then input.isActive.value else row.isActive)
      && (r.email, r.emailVerified, r.lastLoginAt, r.role) == (row.email, row.emailVerified, row.lastLoginAt, row.role)
  {
  }

  /**
   * UpdateStaff: UpdateUser with those parameters; an id with no row is an
   * error. The row is found by id alone, whatever restaurant it belongs to.
   */
  method UpdateStaff(store: Accounts.AccountStore, staffId: Uuid, restaurantId: Uuid, input: StaffUpdate,
                     avatarUpload: Option<Result<string>>)
    returns (r: Result<UserRow>)
    modifies store
    ensures store.subscriptions == old(store.subscriptions)
    ensures r.Ok? <==> staffId in old(store.users)
    ensures r.Ok? ==> r.value == Accounts.ApplyUserUpdate(old(store.users)[staffId], UpdateStaffParams(staffId, input, avatarUpload))
    ensures r.Ok? ==> store.users == old(store.users)[staffId := r.value]
    ensures r.Err? ==> store.users == old(store.users)
  {
    r := store.UpdateUser(UpdateStaffParams(staffId, input, avatarUpload));
    if r.Err? {
      r := Err("failed to update staff");
    }
  }
}
