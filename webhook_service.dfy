/**
 * The webhook service: Chapa's signed event notifications, recorded in a
 * ledger keyed by the provider's reference so that each is applied once,
 * and the three event handlers. Each step is stated as a function from the
 * tables before to the tables after and the result; the methods on the
 * PaymentStore are proved to follow those functions. HMAC-SHA256 and the
 * JSON decoding of the body are parameters; the e-mails are not part of
 * this model.
 */
module WebhookService {
  import opened Common
  import PaymentTables

  /** models.ChapaWebhookData, as far as the handlers read it. */
  datatype WebhookData = WebhookData(status: string, txRef: string, reference: string)

  /** models.ChapaWebhookPayload. */
  datatype WebhookPayload = WebhookPayload(event: string, data: WebhookData)

  const EventSuccess: string := "payment.success"
  const EventFailed: string := "payment.failed"
  const EventPending: string := "payment.pending"

  /**
   * verifySignature: with no secret configured nothing verifies; otherwise
   * the signature must equal the hex HMAC of the body under the secret
   * (`hmac`).
   */
  predicate SignatureValid(secret: string, body: string, signature: string, hmac: (string, string) -> string)
  {
    secret != "" && hmac(secret, body) == signature
  }

  /**
   * handlePaymentSuccess: the transaction becomes completed with the
   * provider reference; then the invoice numbered by the tx_ref becomes
   * paid; then the subscription the invoice names (Nil when the invoice
   * could not be updated) becomes active for the month from now.
   */
  function SuccessEffect(t: PaymentTables.Tables, data: WebhookData, now: Time, monthLater: Time)
    : (res: (PaymentTables.Tables, Result<()>))
    ensures data.txRef !in t.transactions ==> res == (t, Err("failed to update transaction status"))
    ensures data.txRef in t.transactions ==>
      && res.0.transactions == t.transactions[data.txRef := t.transactions[data.txRef].(
           status := "completed", providerRef := NullText(data.reference, true))]
      && res.0.invoices == (if data.txRef in t.invoices
                            then t.invoices[data.txRef := t.invoices[data.txRef].(status := PaymentTables.InvoicePaid)]
                            else t.invoices)
      && (var subId := if data.txRef in t.invoices then t.invoices[data.txRef].subscriptionId else Nil;
          && (res.1.Ok? <==> subId in t.subscriptions)
          && res.0.subscriptions == (if subId in t.subscriptions
                                     then t.subscriptions[subId := t.subscriptions[subId].(status := Active, periodStart := now, periodEnd := monthLater)]
                                     else t.subscriptions))
    ensures res.0.webhooks == t.webhooks && res.0.retryJobs == t.retryJobs
  {
    if data.txRef !in t.transactions then (t, Err("failed to update transaction status"))
    else
      var t1 := t.(transactions := t.transactions[data.txRef := t.transactions[data.txRef].(
                     status := "completed", providerRef := NullText(data.reference, true))]);
      var t2 := if data.txRef in t1.invoices
                then t1.(invoices := t1.invoices[data.txRef := t1.invoices[data.txRef].(status := PaymentTables.InvoicePaid)])
                else t1;
      var subId := if data.txRef in t1.invoices then t1.invoices[data.txRef].subscriptionId else Nil;
      var update := PaymentTables.SubscriptionUpdate(subId, Some(Active), Some(now), Some(monthLater), None);
      if subId in t2.subscriptions
      then (t2.(subscriptions := t2.subscriptions[subId := PaymentTables.ApplySubscriptionUpdate(t2.subscriptions[subId], update)]), Ok(()))
      else (t2, Err("failed to activate subscription"))
  }

  /**
   * handlePaymentFailed: the transaction becomes failed; then the invoice
   * failed, the subscription it names past due, and one retry job for that
   * subscription is scheduled a day from now. Only a missing transaction is
   * an error; the later steps' failures are only logged.
   */
  function FailedEffect(t: PaymentTables.Tables, data: WebhookData, now: Time): (res: (PaymentTables.Tables, Result<()>))
    ensures res.1.Ok? <==> data.txRef in t.transactions
    ensures res.1.Err? ==> res.0 == t
    ensures res.1.Ok? ==>
      var subId := if data.txRef in t.invoices then t.invoices[data.txRef].subscriptionId else Nil;
      && res.0.transactions == t.transactions[data.txRef := t.transactions[data.txRef].(
           status := "failed", providerRef := NullText(data.reference, true))]
      && res.0.invoices == (if data.txRef in t.invoices
                            then t.invoices[data.txRef := t.invoices[data.txRef].(status := PaymentTables.InvoiceFailed)]
                            else t.invoices)
      && res.0.subscriptions == (if subId in t.subscriptions
                                 then t.subscriptions[subId := t.subscriptions[subId].(status := PastDue)]
                                 else t.subscriptions)
      && res.0.retryJobs == t.retryJobs + [PaymentTables.RetryJob(subId, now + Day)]
    ensures res.0.webhooks == t.webhooks
  {
    if data.txRef !in t.transactions then (t, Err("failed to update transaction status"))
    else
      var t1 := t.(transactions := t.transactions[data.txRef := t.transactions[data.txRef].(
                     status := "failed", providerRef := NullText(data.reference, true))]);
      var t2 := if data.txRef in t1.invoices
                then t1.(invoices := t1.invoices[data.txRef := t1.invoices[data.txRef].(status := PaymentTables.InvoiceFailed)])
                else t1;
      var subId := if data.txRef in t1.invoices then t1.invoices[data.txRef].subscriptionId else Nil;
      var update := PaymentTables.SubscriptionUpdate(subId, Some(PastDue), None, None, None);
      var t3 := if subId in t2.subscriptions
                then t2.(subscriptions := t2.subscriptions[subId := PaymentTables.ApplySubscriptionUpdate(t2.subscriptions[subId], update)])
                else t2;
      (t3.(retryJobs := t3.retryJobs + [PaymentTables.RetryJob(subId, now + Day)]), Ok(()))
  }

  /** The handler an event type selects; handlePaymentPending and an unknown type change nothing and succeed. */
  function DispatchEffect(t: PaymentTables.Tables, payload: WebhookPayload, now: Time, monthLater: Time)
    : (res: (PaymentTables.Tables, Result<()>))
    ensures payload.event != EventSuccess && payload.event != EventFailed ==> res == (t, Ok(()))
    ensures res.0.webhooks == t.webhooks
  {
    if payload.event == EventSuccess then SuccessEffect(t, payload.data, now, monthLater)
    else if payload.event == EventFailed then FailedEffect(t, payload.data, now)
    else (t, Ok(()))
  }

  /**
   * ProcessWebhook: the signature, then the payload, then the ledger row
   * for the provider's reference, then the handler; the row is marked
   * processed only when the handler succeeds. A reference already in the
   * ledger (processed or not) is acknowledged without running anything.
   */
  function ProcessEffect(t: PaymentTables.Tables, secret: string, body: string, signature: string,
                         hmac: (string, string) -> string, parse: string -> Option<WebhookPayload>,
                         now: Time, monthLater: Time): (res: (PaymentTables.Tables, Result<()>))
    ensures !SignatureValid(secret, body, signature, hmac) ==> res == (t, Err("invalid webhook signature"))
    ensures SignatureValid(secret, body, signature, hmac) && parse(body).None? ==> res == (t, Err("failed to parse webhook payload"))
    ensures SignatureValid(secret, body, signature, hmac) && parse(body).Some? && parse(body).value.data.reference in t.webhooks ==>
      res == (t, Ok(()))
    ensures SignatureValid(secret, body, signature, hmac) && parse(body).Some? && parse(body).value.data.reference !in t.webhooks ==>
      var p := parse(body).value;
      var handled := DispatchEffect(t, p, now, monthLater);
      && res.1 == handled.1
      && res.0 == handled.0.(webhooks := t.webhooks[p.data.reference := PaymentTables.WebhookRow(p.event, body, handled.1.Ok?)])
  {
    if !SignatureValid(secret, body, signature, hmac) then (t, Err("invalid webhook signature"))
    else if parse(body).None? then (t, Err("failed to parse webhook payload"))
    else
      var p := parse(body).value;
      if p.data.reference in t.webhooks then (t, Ok(()))
      else
        var recorded := t.(webhooks := t.webhooks[p.data.reference := PaymentTables.WebhookRow(p.event, body, false)]);
        var handled := DispatchEffect(recorded, p, now, monthLater);
        var webhooks := if handled.1.Ok? then handled.0.webhooks[p.data.reference := PaymentTables.WebhookRow(p.event, body, true)]
                        else handled.0.webhooks;
        (handled.0.(webhooks := webhooks), handled.1)
  }

  /** With no secret configured, every webhook is refused before anything is read or written. */
  lemma EmptySecretRefusesAll(t: PaymentTables.Tables, body: string, signature: string, hmac: (string, string) -> string,
                              parse: string -> Option<WebhookPayload>, now: Time, monthLater: Time)
    ensures ProcessEffect(t, "", body, signature, hmac, parse, now, monthLater) == (t, Err("invalid webhook signature"))
  {
  }

  /**
   * Replaying a webhook is harmless: once a body has been processed, the
   * same body again changes nothing and is acknowledged, whatever the
   * first run's outcome.
   */
  lemma {:induction false} ReplayIsIdempotent(t: PaymentTables.Tables, secret: string, body: string, signature: string,
                                              hmac: (string, string) -> string, parse: string -> Option<WebhookPayload>,
                                              now: Time, monthLater: Time, now2: Time, monthLater2: Time)
    requires SignatureValid(secret, body, signature, hmac) && parse(body).Some?
    ensures var first := ProcessEffect(t, secret, body, signature, hmac, parse, now, monthLater);
      ProcessEffect(first.0, secret, body, signature, hmac, parse, now2, monthLater2) == (first.0, Ok(()))
  {
    var first := ProcessEffect(t, secret, body, signature, hmac, parse, now, monthLater);
    var p := parse(body).value;
    if p.data.reference !in t.webhooks {
      assert p.data.reference in first.0.webhooks;
    }
  }

  /** An unknown event type is recorded as processed and touches no other table. */
  lemma UnknownEventOnlyRecorded(t: PaymentTables.Tables, secret: string, body: string, signature: string,
                                 hmac: (string, string) -> string, parse: string -> Option<WebhookPayload>,
                                 now: Time, monthLater: Time)
    requires SignatureValid(secret, body, signature, hmac) && parse(body).Some?
    requires parse(body).value.data.reference !in t.webhooks
    requires parse(body).value.event !in {EventSuccess, EventFailed, EventPending}
    ensures var p := parse(body).value;
      ProcessEffect(t, secret, body, signature, hmac, parse, now, monthLater)
      == (t.(webhooks := t.webhooks[p.data.reference := PaymentTables.WebhookRow(p.event, body, true)]), Ok(()))
  {
  }

  /**
   * A success event for a transaction that is not recorded fails with the
   * ledger row left unprocessed and no invoice or subscription touched.
   * The row keeps the reference, so a later delivery is refused by the
   * ledger insert (FailedSuccessIsNeverRetried).
   */
  lemma FailedSuccessStaysUnprocessed(t: PaymentTables.Tables, secret: string, body: string, signature: string,
                                      hmac: (string, string) -> string, parse: string -> Option<WebhookPayload>,
                                      now: Time, monthLater: Time)
    requires SignatureValid(secret, body, signature, hmac) && parse(body).Some?
    requires parse(body).value.data.reference !in t.webhooks && parse(body).value.event == EventSuccess
    requires parse(body).value.data.txRef !in t.transactions
    ensures var p := parse(body).value;
      var res := ProcessEffect(t, secret, body, signature, hmac, parse, now, monthLater);
      && res.1.Err? && p.data.reference in res.0.webhooks && !res.0.webhooks[p.data.reference].processed
      && (res.0.transactions, res.0.invoices, res.0.subscriptions) == (t.transactions, t.invoices, t.subscriptions)
  {
  }

  /**
   * The provider's redelivery of that failed success is acknowledged and
   * applies nothing, even once the transaction row exists: the ledger
   * refuses the known reference, and its unprocessed flag is never read.
   */
  lemma FailedSuccessIsNeverRetried(t: PaymentTables.Tables, secret: string, body: string, signature: string,
                                    hmac: (string, string) -> string, parse: string -> Option<WebhookPayload>,
                                    now: Time, monthLater: Time, tx: PaymentTables.Transaction, now2: Time, monthLater2: Time)
    requires SignatureValid(secret, body, signature, hmac) && parse(body).Some?
    requires parse(body).value.data.reference !in t.webhooks && parse(body).value.event == EventSuccess
    requires parse(body).value.data.txRef !in t.transactions && tx.txRef == parse(body).value.data.txRef
    ensures var first := ProcessEffect(t, secret, body, signature, hmac, parse, now, monthLater);
      var later := first.0.(transactions := first.0.transactions[tx.txRef := tx]);
      && first.1.Err?
      && ProcessEffect(later, secret, body, signature, hmac, parse, now2, monthLater2) == (later, Ok(()))
  {
    FailedSuccessStaysUnprocessed(t, secret, body, signature, hmac, parse, now, monthLater);
  }

  /** A successful payment leaves its subscription valid under the tier rule until the month is over. */
  lemma SuccessGrantsTier(t: PaymentTables.Tables, data: WebhookData, now: Time, monthLater: Time, at: Time)
    requires data.txRef in t.transactions && data.txRef in t.invoices
    requires t.invoices[data.txRef].subscriptionId in t.subscriptions
    requires now <= at < monthLater
    ensures var res := SuccessEffect(t, data, now, monthLater);
      var subId := t.invoices[data.txRef].subscriptionId;
      && res.1.Ok? && subId in res.0.subscriptions
      && res.0.subscriptions[subId].status == Active && res.0.subscriptions[subId].periodEnd > at
  {
  }

  /**
   * ProcessWebhook on the store: it follows ProcessEffect. The store's
   * methods stand for the queries, in the source's order.
   */
  method ProcessWebhook(store: PaymentTables.PaymentStore, secret: string, body: string, signature: string,
                        hmac: (string, string) -> string, parse: string -> Option<WebhookPayload>,
                        now: Time, monthLater: Time)
    returns (r: Result<()>)
    modifies store
    ensures (store.Snapshot(), r) == ProcessEffect(old(store.Snapshot()), secret, body, signature, hmac, parse, now, monthLater)
  {
    if !SignatureValid(secret, body, signature, hmac) {
      return Err("invalid webhook signature");
    }
    var parsed := parse(body);
    if parsed.None? {
      return Err("failed to parse webhook payload");
    }
    var p := parsed.value;
    var row := store.CreateWebhook(p.data.reference, p.event, body);
    if row.Err? {
      return Ok(());
    }
    if row.value.processed {
      return Ok(());
    }
    if p.event == EventSuccess {
      r := HandlePaymentSuccess(store, p.data, now, monthLater);
    } else if p.event == EventFailed {
      r := HandlePaymentFailed(store, p.data, now);
    } else if p.event == EventPending {
      r := HandlePaymentPending(store, p.data);
    } else {
      r := Ok(());
    }
    if r.Ok? {
      store.MarkWebhookProcessed(p.data.reference);
    }
  }

  /** handlePaymentSuccess on the store: it follows SuccessEffect. */
  method HandlePaymentSuccess(store: PaymentTables.PaymentStore, data: WebhookData, now: Time, monthLater: Time)
    returns (r: Result<()>)
    modifies store
    ensures (store.Snapshot(), r) == SuccessEffect(old(store.Snapshot()), data, now, monthLater)
  {
    var ok := store.UpdateTransactionStatus(data.txRef, "completed", data.reference);
    if !ok {
      return Err("failed to update transaction status");
    }
    var invoice := store.UpdateInvoiceStatus(data.txRef, PaymentTables.InvoicePaid);
    var subId := if invoice.Ok? then invoice.value.subscriptionId else Nil;
    ok := store.UpdateSubscription(PaymentTables.SubscriptionUpdate(subId, Some(Active), Some(now), Some(monthLater), None));
    if !ok {
      return Err("failed to activate subscription");
    }
    return Ok(());
  }

  /** handlePaymentFailed on the store: it follows FailedEffect. */
  method HandlePaymentFailed(store: PaymentTables.PaymentStore, data: WebhookData, now: Time)
    returns (r: Result<()>)
    modifies store
    ensures (store.Snapshot(), r) == FailedEffect(old(store.Snapshot()), data, now)
  {
    var ok := store.UpdateTransactionStatus(data.txRef, "failed", data.reference);
    if !ok {
      return Err("failed to update transaction status");
    }
    var invoice := store.UpdateInvoiceStatus(data.txRef, PaymentTables.InvoiceFailed);
    var subId := if invoice.Ok? then invoice.value.subscriptionId else Nil;
    var _ := store.UpdateSubscription(PaymentTables.SubscriptionUpdate(subId, Some(PastDue), None, None, None));
    store.CreateRetryJob(PaymentTables.RetryJob(subId, now + Day));
    return Ok(());
  }

  /** handlePaymentPending: only an e-mail, so no table changes. */
  method HandlePaymentPending(store: PaymentTables.PaymentStore, data: WebhookData) returns (r: Result<()>)
    ensures r == Ok(())
  {
    return Ok(());
  }
}
