/**
 * The payment service: starting a Chapa checkout (InitiatePayment), reading
 * Chapa's initialise and verify replies, and the return-URL completion
 * (HandleWebhook). Chapa's HTTP API is a parameter that maps a request to a
 * reply; the GetSubscriptionByOwner query is a map from owner to the row it
 * finds; a fresh uuid is a parameter.
 */
module PaymentService {
  import opened Common
  import Strings
  import PaymentTables

  /**
   * A decoded JSON value, as far as the service looks into it: strings and
   * objects, everything else lumped together.
   */
  datatype Json = JString(s: string) | JObject(fields: map<string, Json>) | JOther

  /**
   * An HTTP reply from Chapa: the request failed, or a body that decodes to
   * a top-level object (None when it does not).
   */
  datatype HttpReply = TransportError | Body(decoded: Option<map<string, Json>>)

  /** `obj[key].(string)`: the string under `key`, if it is one. */
  function StringField(obj: map<string, Json>, key: string): (r: Option<string>)
    ensures r.Some? <==> key in obj && obj[key].JString?
    ensures r.Some? ==> r.value == obj[key].s
  {
    if key in obj && obj[key].JString? then Some(obj[key].s) else None
  }

  /** `obj[key].(map[string]interface{})`: the object under `key`, if it is one. */
  function ObjectField(obj: map<string, Json>, key: string): (r: Option<map<string, Json>>)
    ensures r.Some? <==> key in obj && obj[key].JObject?
    ensures r.Some? ==> r.value == obj[key].fields
  {
    if key in obj && obj[key].JObject? then Some(obj[key].fields) else None
  }

  /** The fields of the initialise request the model keeps (the callback and return URLs come from the environment). */
  datatype ChapaInitRequest = ChapaInitRequest(amount: int, currency: string, email: string, firstName: string,
                                               txRef: string, title: string)

  /**
   * initializeChapaTransaction's reading of the reply: the checkout URL when
   * the top-level status is "success" and data.checkout_url is a string,
   * otherwise the error for the first check that fails.
   */
  function CheckoutUrl(reply: HttpReply): (r: Result<string>)
    ensures r.Ok? <==>
      && reply.Body? && reply.decoded.Some?
      && StringField(reply.decoded.value, "status") == Some("success")
      && ObjectField(reply.decoded.value, "data").Some?
      && StringField(ObjectField(reply.decoded.value, "data").value, "checkout_url").Some?
    ensures r.Ok? ==> r.value == StringField(ObjectField(reply.decoded.value, "data").value, "checkout_url").value
    ensures reply.TransportError? ==> r == Err("failed to initiate payment")
    ensures reply.Body? && reply.decoded.None? ==> r == Err("failed to decode payment response")
  {
    match reply
      case TransportError => Err("failed to initiate payment")
      case Body(decoded) =>
        if decoded.None? then Err("failed to decode payment response")
        else if StringField(decoded.value, "status") != Some("success") then Err("payment initiation failed")
        else if ObjectField(decoded.value, "data").None? then Err("invalid chapa response data")
        else
          var url := StringField(ObjectField(decoded.value, "data").value, "checkout_url");
          if url.None? then Err("checkout_url not found") else Ok(url.value)
  }

  /**
   * VerifyPayment's reading of the reply: an error only when the request
   * fails or the body does not decode; otherwise true exactly when both the
   * top-level status and data.status are the string "success".
   */
  function VerifyReply(reply: HttpReply): (r: Result<bool>)
    ensures r.Err? <==> reply.TransportError? || reply.decoded.None?
    ensures r == Ok(true) <==>
      && reply.Body? && reply.decoded.Some?
      && StringField(reply.decoded.value, "status") == Some("success")
      && ObjectField(reply.decoded.value, "data").Some?
      && StringField(ObjectField(reply.decoded.value, "data").value, "status") == Some("success")
  {
    match reply
      case TransportError => Err("transport error")
      case Body(decoded) =>
        if decoded.None? then Err("decode error")
        else if StringField(decoded.value, "status") != Some("success") then Ok(false)
        else if ObjectField(decoded.value, "data").None? then Ok(false)
        else Ok(StringField(ObjectField(decoded.value, "data").value, "status") == Some("success"))
  }

  /** A body whose shape is wrong (the status is not a string, or data is missing) is "not verified", not an error. */
  lemma MalformedReplyIsUnverified(obj: map<string, Json>)
    requires "status" !in obj || !obj["status"].JString? || ("data" in obj && !obj["data"].JObject?) || "data" !in obj
    ensures VerifyReply(Body(Some(obj))) == Ok(false)
  {
  }

  /** The row GetSubscriptionByOwner returns, as much of it as calculateAmount reads. */
  datatype CurrentPlan = CurrentPlan(planSlug: string, periodStart: Time, periodEnd: Time)

  /** The Unix time of Go's zero time.Time, 0001-01-01 00:00:00 UTC. */
  const GoZeroTime: Time := -62135596800

  /** The zero-valued GetSubscriptionByOwnerRow InitiatePayment hands to calculateAmount. */
  const ZeroCurrentPlan: CurrentPlan := CurrentPlan("", GoZeroTime, GoZeroTime)

  /**
   * calculateAmount: whatever the current subscription or the old plan's
   * price, every branch charges the new plan's monthly price; the day
   * counts only choose what is logged.
   */
  function CalculateAmount(newPlanType: string, current: CurrentPlan, newPlan: Plan,
                           plansBySlug: map<string, Plan>, now: Time): (amount: int)
    ensures amount == newPlan.priceMonthly
  {
    var amount := newPlan.priceMonthly;
    if current.periodEnd - now <= 5 * Day then amount
    else if current.periodEnd - current.periodStart <= 0 then amount
    else
      var oldPrice := if current.planSlug in plansBySlug then plansBySlug[current.planSlug].priceMonthly else 0;
      if newPlan.priceMonthly - oldPrice > 0 && newPlanType != "update" then newPlan.priceMonthly else amount
  }

  /**
   * getUserDetails: the e-mail and name given when both are non-empty;
   * otherwise each empty one is taken from the owner's user row, and an
   * owner with no row is an error.
   */
  function UserDetails(input: PaymentRequest, users: map<Uuid, UserRow>): (r: Result<(string, string)>)
    ensures input.email != "" && input.name != "" ==> r == Ok((input.email, input.name))
    ensures (input.email == "" || input.name == "") && input.ownerId !in users ==> r == Err("user not found")
    ensures r.Ok? ==> r.value.0 == (if input.email != "" then input.email else users[input.ownerId].email)
    ensures r.Ok? ==> r.value.1 == (if input.name != "" then input.name else users[input.ownerId].fullName)
  {
    if input.email != "" && input.name != "" then Ok((input.email, input.name))
    else if input.ownerId !in users then Err("user not found")
    else
      var user := users[input.ownerId];
      Ok((if input.email != "" then input.email else user.email, if input.name != "" then input.name else user.fullName))
  }

  /**
   * The first step of InitiatePayment, for the subscription to charge: the
   * one given; else the owner's existing one, whatever its status or plan;
   * else, for a known plan, a new incomplete subscription for the month from
   * now, to be inserted under `newSubId`. The second component is the row
   * to insert, if any.
   */
  function ResolveSubscription(input: PaymentRequest, byOwner: map<Uuid, Subscription>, plansBySlug: map<string, Plan>,
                               existing: map<Uuid, Subscription>, now: Time, monthLater: Time, newSubId: Uuid)
    : (r: Result<(Uuid, Option<Subscription>)>)
    ensures input.subscriptionId != Nil ==> r == Ok((input.subscriptionId, None))
    ensures input.subscriptionId == Nil && input.ownerId in byOwner ==> r == Ok((byOwner[input.ownerId].id, None))
    ensures input.subscriptionId == Nil && input.ownerId !in byOwner && input.plan !in plansBySlug ==>
      r == Err("invalid plan: " + input.plan)
    ensures r.Ok? && r.value.1.Some? ==>
      && input.subscriptionId == Nil && input.ownerId !in byOwner && newSubId !in existing
      && r.value == (newSubId, Some(Subscription(newSubId, input.ownerId, plansBySlug[input.plan].id, Incomplete, now, monthLater, None)))
    ensures r.Err? ==> input.subscriptionId == Nil && input.ownerId !in byOwner
  {
    if input.subscriptionId != Nil then Ok((input.subscriptionId, None))
    else if input.ownerId in byOwner then Ok((byOwner[input.ownerId].id, None))
    else if input.plan !in plansBySlug then Err("invalid plan: " + input.plan)
    else if newSubId in existing then Err("failed to create subscription")
    else Ok((newSubId, Some(Subscription(newSubId, input.ownerId, plansBySlug[input.plan].id, Incomplete, now, monthLater, None))))
  }

  /** The reference a transaction records: the payment type and the plan slug, joined by ':'. */
  function PaymentReference(kind: string, planSlug: string): string
  {
    kind + ":" + planSlug
  }

  /** The transaction InitiatePayment records before calling Chapa. */
  function PendingTransaction(input: PaymentRequest, plan: Plan, amount: int, txRef: string): (t: PaymentTables.Transaction)
    ensures t.status == "pending" && t.txRef == txRef && t.ownerId == input.ownerId
    ensures t.amount == amount && t.currency == plan.currency
    ensures t.reference == NullText(PaymentReference(input.kind, plan.slug), true) && !t.providerRef.valid
  {
    PaymentTables.Transaction(input.ownerId, amount, plan.currency, "pending", txRef,
                              NullText(PaymentReference(input.kind, plan.slug), true), NullText("", false))
  }

  /** The invoice InitiatePayment records once it has a checkout URL: numbered by the tx_ref, for the month from now. */
  function PendingInvoice(input: PaymentRequest, subId: Uuid, plan: Plan, amount: int, txRef: string, now: Time, monthLater: Time)
    : (inv: PaymentTables.Invoice)
    ensures inv.invoiceNumber == txRef && inv.status == PaymentTables.InvoicePending
    ensures inv.subscriptionId == subId && inv.ownerId == input.ownerId
    ensures inv.periodStart == now && inv.periodEnd == monthLater && inv.amount == amount && inv.currency == plan.currency
  {
    PaymentTables.Invoice(input.ownerId, txRef, amount, plan.currency, PaymentTables.InvoicePending, subId, now, monthLater)
  }

  /** The initialise request for a plan: the amount, the plan's currency and "<plan name> Plan" as title. */
  function InitRequest(plan: Plan, email: string, name: string, amount: int, txRef: string): ChapaInitRequest
  {
    ChapaInitRequest(amount, plan.currency, email, name, txRef, plan.name + " Plan")
  }

  /** Whether InitiatePayment gets as far as writing its transaction. */
  predicate ReachesTransaction(input: PaymentRequest, res: Result<(Uuid, Option<Subscription>)>,
                               plansBySlug: map<string, Plan>, users: map<Uuid, UserRow>)
  {
    res.Ok? && input.plan in plansBySlug && UserDetails(input, users).Ok?
  }

  const TxRefPrefix: string := "tx_"

  /**
   * InitiatePayment. The subscription step may insert a subscription, which
   * stays even when a later step fails. Then the plan and the payer's
   * details are looked up, the amount computed, and the pending
   * transaction "tx_" + `txUuid` written; only then is Chapa asked for a
   * checkout URL (`chapa`), and only with a URL is the pending invoice
   * written. A failed invoice insert is swallowed: the URL is still
   * returned.
   */
  method InitiatePayment(store: PaymentTables.PaymentStore, users: map<Uuid, UserRow>, byOwner: map<Uuid, Subscription>,
                         plansBySlug: map<string, Plan>, input: PaymentRequest, now: Time, monthLater: Time,
                         newSubId: Uuid, txUuid: string, chapa: ChapaInitRequest -> HttpReply)
    returns (r: Result<string>)
    modifies store
    ensures var res := ResolveSubscription(input, byOwner, plansBySlug, old(store.subscriptions), now, monthLater, newSubId);
      var txRef := TxRefPrefix + txUuid;
      var reached := ReachesTransaction(input, res, plansBySlug, users) && txRef !in old(store.transactions);
      && store.subscriptions == (if res.Ok? && res.value.1.Some? then old(store.subscriptions)[newSubId := res.value.1.value]
                                 else old(store.subscriptions))
      && (reached ==>
            var plan := plansBySlug[input.plan];
            var details := UserDetails(input, users).value;
            var request := InitRequest(plan, details.0, details.1, plan.priceMonthly, txRef);
            && store.transactions == old(store.transactions)[txRef := PendingTransaction(input, plan, plan.priceMonthly, txRef)]
            && r == CheckoutUrl(chapa(request))
            && store.invoices == (if r.Ok? && txRef !in old(store.invoices)
                                  then old(store.invoices)[txRef := PendingInvoice(input, res.value.0, plan, plan.priceMonthly, txRef, now, monthLater)]
                                  else old(store.invoices)))
      && (!reached ==> r.Err? && store.transactions == old(store.transactions) && store.invoices == old(store.invoices))
    ensures store.webhooks == old(store.webhooks) && store.retryJobs == old(store.retryJobs)
  {
    var res := ResolveSubscription(input, byOwner, plansBySlug, store.subscriptions, now, monthLater, newSubId);
    if res.Err? {
      return Err(res.error);
    }
    if res.value.1.Some? {
      var _ := store.CreateSubscription(res.value.1.value);
    }
    var subId := res.value.0;
    if input.plan !in plansBySlug {
      return Err("invalid plan: " + input.plan);
    }
    var plan := plansBySlug[input.plan];
    var details := UserDetails(input, users);
    if details.Err? {
      return Err(details.error);
    }
    var amount := CalculateAmount(input.kind, ZeroCurrentPlan, plan, plansBySlug, now);
    var txRef := TxRefPrefix + txUuid;
    var written := store.CreateTransaction(PendingTransaction(input, plan, amount, txRef));
    if !written {
      return Err("failed to create transaction");
    }
    r := CheckoutUrl(chapa(InitRequest(plan, details.value.0, details.value.1, amount, txRef)));
    if r.Err? {
      return;
    }
    var _ := store.CreateInvoice(PendingInvoice(input, subId, plan, amount, txRef, now, monthLater));
  }

  /**
   * The plan HandleWebhook reads off a transaction's reference: the part
   * after the ':' when the reference splits into exactly two parts and
   * names a known plan; otherwise none, and the subscription keeps its plan.
   */
  function ReferencePlanId(reference: NullText, plansBySlug: map<string, Plan>): (id: Uuid)
    ensures !reference.valid ==> id == Nil
    ensures |Strings.Split(reference.text, ':')| != 2 ==> id == Nil
  {
    if !reference.valid then Nil
    else
      var parts := Strings.Split(reference.text, ':');
      if |parts| == 2 && parts[1] in plansBySlug then plansBySlug[parts[1]].id else Nil
  }

  /**
   * The reference InitiatePayment writes is read back as its plan exactly
   * when neither the payment type nor the slug holds a ':'; a type with a
   * ':' (three parts) loses the plan.
   */
  lemma ReferenceRoundTrip(kind: string, slug: string, plansBySlug: map<string, Plan>)
    requires slug in plansBySlug && ':' !in slug
    ensures ':' !in kind ==> ReferencePlanId(NullText(PaymentReference(kind, slug), true), plansBySlug) == plansBySlug[slug].id
    ensures ':' in kind ==> ReferencePlanId(NullText(PaymentReference(kind, slug), true), plansBySlug) == Nil
  {
    var s := PaymentReference(kind, slug);
    assert s == kind + [':'] + slug;
    if ':' !in kind {
      Strings.SplitTwo(s, ':', kind, slug);
    } else {
      Strings.SplitCount(s, ':');
      assert multiset(s) == multiset(kind) + multiset([':']) + multiset(slug);
      assert multiset(kind)[':'] >= 1;
    }
  }

  /**
   * HandleWebhook, the completion the return URL triggers: Chapa must
   * confirm the payment (`verifyReply`), then the invoice numbered `txRef`
   * becomes paid, then the subscription the invoice names becomes active
   * for the month from now, on the plan the transaction's reference names
   * or, failing that, on the plan of the owner's current subscription.
   * Each failing step returns its error and leaves the later steps undone.
   */
  method HandleWebhook(store: PaymentTables.PaymentStore, txRef: string, verifyReply: HttpReply,
                       plansBySlug: map<string, Plan>, byOwner: map<Uuid, Subscription>, now: Time, monthLater: Time)
    returns (r: Result<()>)
    modifies store
    ensures VerifyReply(verifyReply) != Ok(true) ==> r.Err? && store.invoices == old(store.invoices)
    ensures VerifyReply(verifyReply) == Ok(true) && txRef !in old(store.invoices) ==> r.Err? && store.invoices == old(store.invoices)
    ensures VerifyReply(verifyReply) == Ok(true) && txRef in old(store.invoices) ==>
      store.invoices == old(store.invoices)[txRef := old(store.invoices)[txRef].(status := PaymentTables.InvoicePaid)]
    ensures r.Ok? <==>
      && VerifyReply(verifyReply) == Ok(true) && txRef in old(store.invoices) && txRef in old(store.transactions)
      && (ReferencePlanId(old(store.transactions)[txRef].reference, plansBySlug) != Nil || old(store.invoices)[txRef].ownerId in byOwner)
      && old(store.invoices)[txRef].subscriptionId in old(store.subscriptions)
    ensures r.Ok? ==>
      var inv := old(store.invoices)[txRef];
      var refPlan := ReferencePlanId(old(store.transactions)[txRef].reference, plansBySlug);
      var planId := if refPlan != Nil then refPlan else byOwner[inv.ownerId].planId;
      store.subscriptions == old(store.subscriptions)[inv.subscriptionId :=
        PaymentTables.ApplySubscriptionUpdate(old(store.subscriptions)[inv.subscriptionId],
          PaymentTables.SubscriptionUpdate(inv.subscriptionId, Some(Active), Some(now), Some(monthLater), Some(planId)))]
    ensures r.Err? ==> store.subscriptions == old(store.subscriptions)
    ensures store.transactions == old(store.transactions) && store.webhooks == old(store.webhooks) && store.retryJobs == old(store.retryJobs)
  {
    var verified := VerifyReply(verifyReply);
    if verified.Err? {
      return Err(verified.error);
    }
    if !verified.value {
      return Err("payment verification failed");
    }
    var invoice := store.UpdateInvoiceStatus(txRef, PaymentTables.InvoicePaid);
    if invoice.Err? {
      return Err(invoice.error);
    }
    if txRef !in store.transactions {
      return Err("failed to fetch transaction");
    }
    var planId := ReferencePlanId(store.transactions[txRef].reference, plansBySlug);
    if planId == Nil {
      if invoice.value.ownerId !in byOwner {
        return Err("failed to fetch subscription");
      }
      planId := byOwner[invoice.value.ownerId].planId;
    }
    var ok := store.UpdateSubscription(PaymentTables.SubscriptionUpdate(invoice.value.subscriptionId, Some(Active),
                                                                        Some(now), Some(monthLater), Some(planId)));
    if !ok {
      return Err("failed to activate subscription");
    }
    return Ok(());
  }
}
