/**
 * The filter builder of the REST layer: every entity has a list of query
 * keys it may be filtered by; a request naming any other key (besides the
 * pagination and sorting keys) is refused, and the allowed, non-empty keys
 * become typed filters.
 */
module FilterBuilder {
  import opened Common
  import Helpers

  /** The filter keys each entity accepts. */
  const AllowedKeys: map<string, seq<string>> := map[
    "restaurants" := ["id", "name", "status", "owner_id", "slug", "search", "cuisine_type", "city", "country", "is_published"],
    "users" := ["id", "email", "status", "role", "search", "owner_id", "restaurant_id", "is_active"],
    "categories" := ["id", "restaurant_id", "name", "search", "is_active"],
    "items" := ["id", "restaurant_id", "category_id", "name", "is_available", "search"],
    "activity_logs" := ["id", "restaurant_id", "user_id", "action_type", "action_category", "target_type", "target_id", "success", "search"],
    "analytics_events" := ["id", "restaurant_id", "event_type", "visitor_id", "session_id", "target_id", "country", "city", "search"],
    "subscriptions" := ["id", "owner_id", "plan_id", "status"],
    "invoices" := ["id", "subscription_id", "owner_id", "status"]
  ]

  /** Keys that are never filters: pagination and sorting. */
  const SkipKeys: set<string> := {"page", "page_size", "sort_by", "sort_dir"}

  /** Keys whose filter is a flag, true exactly for the text "true". */
  const FlagKeys: set<string> := {"is_available", "is_active", "is_published", "success"}

  /** Keys the switch of ValidateAndParse turns into a field of FilterParams. */
  const FieldKeys: set<string> := {
    "id", "name", "status", "owner_id", "restaurant_id", "plan_id", "subscription_id", "role",
    "search", "email", "slug", "category_id", "is_available", "is_active", "is_published",
    "cuisine_type", "city", "country", "action_type", "action_category", "event_type", "user_id",
    "target_type", "target_id", "success", "visitor_id", "session_id"}

  datatype FilterValue = Text(text: string) | Flag(flag: bool)

  /**
   * FilterParams: each optional field is present in `fields` under the
   * query key that sets it (the struct field of the same name).
   */
  datatype FilterParams = FilterParams(fields: map<string, FilterValue>, sortBy: string, sortDir: string)

  datatype Builder = Builder(entity: string, allowedKeys: seq<string>)

  /** NewFilterBuilder: an unknown entity gets no allowed keys at all. */
  function NewFilterBuilder(entity: string): (b: Builder)
    ensures b.entity == entity
    ensures entity !in AllowedKeys ==> b.allowedKeys == []
    ensures entity in AllowedKeys ==> b.allowedKeys == AllowedKeys[entity]
  {
    Builder(entity, if entity in AllowedKeys then AllowedKeys[entity] else [])
  }

  /** isAllowed: a linear scan of the builder's allowed keys. */
  method IsAllowed(allowed: seq<string>, key: string) returns (found: bool)
    ensures found <==> key in allowed
  {
    var i := 0;
    while i < |allowed|
      invariant 0 <= i <= |allowed|
      invariant key !in allowed[..i]
    {
      if allowed[i] == key {
        return true;
      }
      assert allowed[..i + 1] == allowed[..i] + [allowed[i]];
      i := i + 1;
    }
    assert allowed[..i] == allowed;
    return false;
  }

  /** The filter a non-empty value of a field key sets. */
  function FieldValue(key: string, val: string): FilterValue
  {
    if key in FlagKeys then Flag(val == "true") else Text(val)
  }

  /** A key of the query that refuses the whole request. */
  predicate Refused(query: map<string, string>, allowed: seq<string>, key: string)
  {
    key in query && key !in SkipKeys && key !in allowed
  }

  /** The filters set by the keys of `done`, every one of them allowed. */
  function FiltersOf(query: map<string, string>, done: set<string>): map<string, FilterValue>
  {
    map k | k in done && k in query && k !in SkipKeys && query[k] != "" && k in FieldKeys :: FieldValue(k, query[k])
  }

  /** A skipped, empty or non-field key adds no filter. */
  lemma FiltersOfUnchanged(query: map<string, string>, done: set<string>, key: string)
    requires key in query && (key in SkipKeys || query[key] == "" || key !in FieldKeys)
    ensures FiltersOf(query, done + {key}) == FiltersOf(query, done)
  {
  }

  /** A non-empty allowed field key adds its own filter. */
  lemma FiltersOfAdd(query: map<string, string>, done: set<string>, key: string)
    requires key in query && key !in SkipKeys && query[key] != "" && key in FieldKeys
    ensures FiltersOf(query, done + {key}) == FiltersOf(query, done)[key := FieldValue(key, query[key])]
  {
  }

  /** DefaultQuery: the key's value when the key is present at all, even empty. */
  function DefaultQuery(query: map<string, string>, key: string, default: string): string
  {
    if key in query then query[key] else default
  }

  /**
   * ValidateAndParse. `query` maps each query key to its first value. Keys
   * are visited in no fixed order (Go map iteration): the request is refused
   * exactly when some non-skipped key is not allowed, and the error names one
   * such key. Otherwise every allowed key with a non-empty value sets its
   * field, and sorting defaults to `created_at desc`.
   */
  method ValidateAndParse(b: Builder, query: map<string, string>) returns (r: Result<FilterParams>)
    ensures r.Err? <==> exists k :: Refused(query, b.allowedKeys, k)
    ensures r.Err? ==> exists k ::
      Refused(query, b.allowedKeys, k) && r.error == "filter key '" + k + "' is not allowed for " + b.entity
    ensures r.Ok? ==> r.value.fields == FiltersOf(query, query.Keys)
    ensures r.Ok? ==> r.value.sortBy == DefaultQuery(query, "sort_by", "created_at")
    ensures r.Ok? ==> r.value.sortDir == DefaultQuery(query, "sort_dir", "desc")
  {
    var sortBy := DefaultQuery(query, "sort_by", "created_at");
    var sortDir := DefaultQuery(query, "sort_dir", "desc");
    var fields: map<string, FilterValue> := map[];
    var remaining := query.Keys;
    while remaining != {}
      invariant remaining <= query.Keys
      invariant forall k :: k in query.Keys - remaining ==> !Refused(query, b.allowedKeys, k)
      invariant fields == FiltersOf(query, query.Keys - remaining)
      decreases remaining
    {
      var key :| key in remaining;
      ghost var done := query.Keys - remaining;
      remaining := remaining - {key};
      assert query.Keys - remaining == done + {key};
      if key in SkipKeys {
        FiltersOfUnchanged(query, done, key);
        continue;
      }
      var allowed := IsAllowed(b.allowedKeys, key);
      if !allowed {
        assert Refused(query, b.allowedKeys, key);
        return Err("filter key '" + key + "' is not allowed for " + b.entity);
      }
      var val := query[key];
      if val == "" || key !in FieldKeys {
        FiltersOfUnchanged(query, done, key);
        continue;
      }
      FiltersOfAdd(query, done, key);
      fields := fields[key := FieldValue(key, val)];
    }
    assert query.Keys - remaining == query.Keys;
    return Ok(FilterParams(fields, sortBy, sortDir));
  }

  /** Every allowed key's switch arm exists: the allowed lists only name field keys. */
  lemma AllowedKeysAreFields(entity: string, k: string)
    requires entity in AllowedKeys && k in AllowedKeys[entity]
    ensures k in FieldKeys
  {
  }

  /** A flag filter is true exactly when the text was "true"; other keys keep the text. */
  lemma FieldValueMeaning(query: map<string, string>, k: string)
    requires k in FiltersOf(query, query.Keys)
    ensures k in query && query[k] != "" && k !in SkipKeys
    ensures k in FlagKeys ==> FiltersOf(query, query.Keys)[k] == Flag(query[k] == "true")
    ensures k !in FlagKeys ==> FiltersOf(query, query.Keys)[k] == Text(query[k])
  {
  }

  /** ToText: a nil pointer and the empty string are both NULL; the text is the dereferenced value. */
  function ToText(p: Option<string>): (t: NullText)
    ensures t.valid <==> p.Some? && p.value != ""
    ensures t.text == Helpers.Deref(p, "")
  {
    if p.None? || p.value == "" then NullText("", false) else NullText(p.value, true)
  }

  /**
   * ToUserRole, ToInvoiceStatus and ToSubscriptionStatus: the enum value and
   * whether it is set; nil and "" are both unset.
   */
  function ToEnum(p: Option<string>): (r: (string, bool))
    ensures r.1 <==> p.Some? && p.value != ""
    ensures r.0 == Helpers.Deref(p, "")
  {
    if p.None? || p.value == "" then ("", false) else (p.value, true)
  }

  /** ToBool: NULL exactly for a nil pointer; a false flag is still a value. */
  function ToBool(p: Option<bool>): (b: NullBool)
    ensures b.valid <==> p.Some?
    ensures b.flag == Helpers.Deref(p, false)
  {
    if p.None? then NullBool(false, false) else NullBool(p.value, true)
  }

  /** ToUUID: ParseUUID of the dereferenced text; nil, "" and unparseable text give uuid.Nil. */
  function ToUUID(p: Option<string>, parse: string -> Option<Uuid>): (u: Uuid)
    ensures u == Helpers.ParseUUID(Helpers.Deref(p, ""), parse)
    ensures p.None? ==> u == Nil
  {
    if p.None? || p.value == "" then Nil
    else match parse(p.value)
      case None => Nil
      case Some(v) => v
  }
}
