/**
 * The restaurant service: the tier check before a restaurant is created,
 * the row it inserts, and the parameters of a restaurant update. Unlike the
 * menu and staff services, creation only needs the owner's subscription row
 * to be found: its status and period are not looked at.
 */
module RestaurantService {
  import opened Common
  import Helpers
  import ServiceGates

  datatype RestaurantInput = RestaurantInput(
    name: string,
    slug: string,
    description: string,
    cuisineType: string,
    phone: string,
    email: string,
    website: string,
    address: string,
    city: string,
    country: string)

  /** models.UpdateRestaurantRequest: nil fields are left as they are. */
  datatype RestaurantUpdate = RestaurantUpdate(
    name: Option<string>,
    description: Option<string>,
    cuisineType: Option<string>,
    phone: Option<string>,
    email: Option<string>,
    website: Option<string>,
    address: Option<string>,
    city: Option<string>,
    country: Option<string>,
    isPublished: Option<bool>)

  /** persistence.UpdateRestaurantParams (theme settings left out). */
  datatype UpdateRestaurantParams = UpdateRestaurantParams(
    id: Uuid,
    ownerId: Uuid,
    isAdmin: bool,
    name: NullText,
    description: NullText,
    cuisineType: NullText,
    phone: NullText,
    email: NullText,
    website: NullText,
    address: NullText,
    city: NullText,
    country: NullText,
    isPublished: NullBool,
    logoUrl: NullText,
    coverImageUrl: NullText)

  /**
   * The gate of CreateRestaurant: the owner's subscription row must be
   * found; then, when the owner's restaurants could be listed, there must be
   * fewer than MaxRestaurants of them (no "unlimited" guard; undecodable
   * features leave a zero limit).
   */
  function RestaurantGate(subs: map<Uuid, OwnerSubscription>, ownerId: Uuid, listed: Option<nat>): (r: Result<FeatureLimits>)
    ensures r.Ok? <==> ownerId in subs && !ServiceGates.LimitReached(listed, Helpers.FeaturesOrZero(subs[ownerId].features).maxRestaurants)
    ensures r.Ok? ==> r.value == Helpers.FeaturesOrZero(subs[ownerId].features)
  {
    if ownerId !in subs then Err("failed to fetch subscription")
    else
      var f := Helpers.FeaturesOrZero(subs[ownerId].features);
      if ServiceGates.LimitReached(listed, f.maxRestaurants) then Err("restaurant limit reached for your tier") else Ok(f)
  }

  /**
   * The gate ignores the subscription's state: replacing the subscription
   * by one in any status, with any period and trial end, changes nothing.
   * So an expired or cancelled subscription with room admits a restaurant,
   * which the menu and staff services would refuse.
   */
  lemma RestaurantGateIgnoresValidity(subs: map<Uuid, OwnerSubscription>, ownerId: Uuid, listed: Option<nat>,
                                      sub': Subscription, now: Time)
    requires ownerId in subs
    ensures var subs' := subs[ownerId := subs[ownerId].(sub := sub')];
      RestaurantGate(subs', ownerId, listed) == RestaurantGate(subs, ownerId, listed)
    ensures sub'.status == Cancelled && RestaurantGate(subs, ownerId, listed).Ok? ==>
      && RestaurantGate(subs[ownerId := subs[ownerId].(sub := sub')], ownerId, listed).Ok?
      && ServiceGates.SubscriptionFeatures(Some(subs[ownerId].(sub := sub')), now).Err?
  {
  }

  /** The row CreateRestaurant inserts: empty inputs and URLs are stored NULL. */
  function NewRestaurant(id: Uuid, ownerId: Uuid, input: RestaurantInput, logoUrl: string, coverUrl: string): (r: Restaurant)
    ensures r.id == id && r.ownerId == ownerId && r.name == input.name && r.slug == input.slug
    ensures r.description == Helpers.NonEmptyText(input.description) && r.cuisineType == Helpers.NonEmptyText(input.cuisineType)
    ensures r.phone == Helpers.NonEmptyText(input.phone) && r.email == Helpers.NonEmptyText(input.email)
    ensures r.website == Helpers.NonEmptyText(input.website) && r.address == Helpers.NonEmptyText(input.address)
    ensures r.city == Helpers.NonEmptyText(input.city) && r.country == Helpers.NonEmptyText(input.country)
    ensures r.logoUrl == Helpers.NonEmptyText(logoUrl) && r.coverImageUrl == Helpers.NonEmptyText(coverUrl)
  {
    Restaurant(id, ownerId, input.name, input.slug,
               Helpers.NonEmptyText(input.description), Helpers.NonEmptyText(input.cuisineType),
               Helpers.NonEmptyText(input.phone), Helpers.NonEmptyText(input.email),
               Helpers.NonEmptyText(input.website), Helpers.NonEmptyText(input.address),
               Helpers.NonEmptyText(input.city), Helpers.NonEmptyText(input.country),
               Helpers.NonEmptyText(logoUrl), Helpers.NonEmptyText(coverUrl))
  }

  /** A failed or missing upload does not stop creation; its URL column is only NULL. */
  lemma FailedUploadsStoreNull(id: Uuid, ownerId: Uuid, input: RestaurantInput, logoError: string, coverError: string)
    ensures var r := NewRestaurant(id, ownerId, input, Helpers.UploadedUrl(Some(Err(logoError))), Helpers.UploadedUrl(None));
      !r.logoUrl.valid && !r.coverImageUrl.valid
  {
  }

  /** The restaurants table. */
  class RestaurantStore {
    var restaurants: map<Uuid, Restaurant>

    constructor()
      ensures restaurants == map[]
    {
      restaurants := map[];
    }

    /**
     * CreateRestaurant: nothing is written unless the gate passes; then the
     * row under `newId` (an insert fails when the id is taken).
     */
    method CreateRestaurant(subs: map<Uuid, OwnerSubscription>, ownerId: Uuid, listed: Option<nat>, input: RestaurantInput,
                            logoUpload: Option<Result<string>>, coverUpload: Option<Result<string>>, newId: Uuid)
      returns (r: Result<Restaurant>)
      modifies this
      ensures r.Ok? <==> RestaurantGate(subs, ownerId, listed).Ok? && newId !in old(restaurants)
      ensures r.Ok? ==> r.value == NewRestaurant(newId, ownerId, input, Helpers.UploadedUrl(logoUpload), Helpers.UploadedUrl(coverUpload))
      ensures r.Ok? ==> restaurants == old(restaurants)[newId := r.value]
      ensures r.Err? ==> restaurants == old(restaurants)
    {
      var gate := RestaurantGate(subs, ownerId, listed);
      if gate.Err? {
        return Err(gate.error);
      }
      if newId in restaurants {
        return Err("failed to create restaurant");
      }
      var row := NewRestaurant(newId, ownerId, input, Helpers.UploadedUrl(logoUpload), Helpers.UploadedUrl(coverUpload));
      restaurants := restaurants[newId := row];
      return Ok(row);
    }
  }

  /** An optional text parameter set exactly when a value was given, and then to that value. */
  predicate TextFrom(t: NullText, given: Option<string>)
  {
    (t.valid <==> given.Some?) && (given.Some? ==> t.text == given.value)
  }

  /**
   * UpdateRestaurant's parameters: each optional field is non-NULL exactly
   * when given, and then carries the given value; the logo and cover URLs
   * only when their upload succeeded, and then the uploaded URL. How the
   * query applies them is not part of this model.
   */
  function UpdateRestaurantParamsOf(id: Uuid, ownerId: Uuid, isAdmin: bool, input: RestaurantUpdate,
                                    logoUpload: Option<Result<string>>, coverUpload: Option<Result<string>>)
    : (p: UpdateRestaurantParams)
    ensures (p.id, p.ownerId, p.isAdmin) == (id, ownerId, isAdmin)
    ensures TextFrom(p.name, input.name) && TextFrom(p.description, input.description)
    ensures TextFrom(p.cuisineType, input.cuisineType) && TextFrom(p.phone, input.phone)
    ensures TextFrom(p.email, input.email) && TextFrom(p.website, input.website)
    ensures TextFrom(p.address, input.address) && TextFrom(p.city, input.city)
    ensures TextFrom(p.country, input.country)
    ensures (p.isPublished.valid <==> input.isPublished.Some?)
    ensures input.isPublished.Some? ==> p.isPublished.flag == input.isPublished.value
    ensures p.logoUrl.valid <==> logoUpload.Some? && logoUpload.value.Ok?
    ensures p.coverImageUrl.valid <==> coverUpload.Some? && coverUpload.value.Ok?
    ensures p.logoUrl.valid ==> p.logoUrl.text == Helpers.UploadedUrl(logoUpload)
    ensures p.coverImageUrl.valid ==> p.coverImageUrl.text == Helpers.UploadedUrl(coverUpload)
  {
    UpdateRestaurantParams(id, ownerId, isAdmin,
      Helpers.PtrText(input.name), Helpers.PtrText(input.description), Helpers.PtrText(input.cuisineType),
      Helpers.PtrText(input.phone), Helpers.PtrText(input.email), Helpers.PtrText(input.website),
      Helpers.PtrText(input.address), Helpers.PtrText(input.city), Helpers.PtrText(input.country),
      Helpers.PtrBool(input.isPublished),
      Helpers.UploadedColumn(logoUpload), Helpers.UploadedColumn(coverUpload))
  }
}
