/**
 * The tables the payment services write: transactions by tx_ref, invoices
 * by invoice number, subscriptions by id, the webhook ledger by provider
 * reference, and the retry jobs in insertion order. An update by key fails
 * when the key has no row; an insert fails when its key is taken.
 */
module PaymentTables {
  import opened Common

  datatype InvoiceStatus = InvoicePending | InvoicePaid | InvoiceFailed

  /** One row of payment_transactions. */
  datatype Transaction = Transaction(
    ownerId: Uuid,
    amount: int,
    currency: string,
    status: string,
    txRef: string,
    reference: NullText,
    providerRef: NullText)

  /** One row of invoices. */
  datatype Invoice = Invoice(
    ownerId: Uuid,
    invoiceNumber: string,
    amount: int,
    currency: string,
    status: InvoiceStatus,
    subscriptionId: Uuid,
    periodStart: Time,
    periodEnd: Time)

  /** One row of payment_webhooks, the ledger of provider events. */
  datatype WebhookRow = WebhookRow(eventType: string, payload: string, processed: bool)

  /** One row of payment_retry_jobs. */
  datatype RetryJob = RetryJob(subscriptionId: Uuid, scheduledFor: Time)

  /** persistence.UpdateSubscriptionParams: a None keeps its column. */
  datatype SubscriptionUpdate = SubscriptionUpdate(
    id: Uuid,
    status: Option<SubStatus>,
    periodStart: Option<Time>,
    periodEnd: Option<Time>,
    planId: Option<Uuid>)

  /** A subscription row after UpdateSubscription. */
  function ApplySubscriptionUpdate(s: Subscription, p: SubscriptionUpdate): (r: Subscription)
    ensures (r.id, r.ownerId, r.trialEnd) == (s.id, s.ownerId, s.trialEnd)
    ensures r.status == (if p.status.Some? then p.status.value else s.status)
    ensures r.planId == (if p.planId.Some? then p.planId.value else s.planId)
    ensures r.periodStart == (if p.periodStart.Some? then p.periodStart.value else s.periodStart)
    ensures r.periodEnd == (if p.periodEnd.Some? then p.periodEnd.value else s.periodEnd)
  {
    s.(status := if p.status.Some? then p.status.value else s.status,
       periodStart := if p.periodStart.Some? then p.periodStart.value else s.periodStart,
       periodEnd := if p.periodEnd.Some? then p.periodEnd.value else s.periodEnd,
       planId := if p.planId.Some? then p.planId.value else s.planId)
  }

  /** An update naming no column changes nothing, and repeating an update changes nothing more. */
  lemma SubscriptionUpdateIdempotent(s: Subscription, p: SubscriptionUpdate)
    ensures ApplySubscriptionUpdate(s, SubscriptionUpdate(p.id, None, None, None, None)) == s
    ensures ApplySubscriptionUpdate(ApplySubscriptionUpdate(s, p), p) == ApplySubscriptionUpdate(s, p)
  {
  }

  /** The contents of the payment tables at one moment. */
  datatype Tables = Tables(
    transactions: map<string, Transaction>,
    invoices: map<string, Invoice>,
    subscriptions: map<Uuid, Subscription>,
    webhooks: map<string, WebhookRow>,
    retryJobs: seq<RetryJob>)

  /** The payment tables. */
  class PaymentStore {
    var transactions: map<string, Transaction>
    var invoices: map<string, Invoice>
    var subscriptions: map<Uuid, Subscription>
    var webhooks: map<string, WebhookRow>
    var retryJobs: seq<RetryJob>

    /** The tables' contents as a value. */
    function Snapshot(): (t: Tables)
      reads this
      ensures t.transactions == transactions && t.invoices == invoices && t.subscriptions == subscriptions
      ensures t.webhooks == webhooks && t.retryJobs == retryJobs
    {
      Tables(transactions, invoices, subscriptions, webhooks, retryJobs)
    }

    constructor()
      ensures transactions == map[] && invoices == map[] && subscriptions == map[] && webhooks == map[] && retryJobs == []
    {
      transactions := map[];
      invoices := map[];
      subscriptions := map[];
      webhooks := map[];
      retryJobs := [];
    }

    /** CreatePaymentTransaction, keyed by its tx_ref. */
    method CreateTransaction(t: Transaction) returns (ok: bool)
      modifies this
      ensures ok <==> t.txRef !in old(transactions)
      ensures transactions == if ok then old(transactions)[t.txRef := t] else old(transactions)
      ensures (invoices, subscriptions, webhooks, retryJobs) == old((invoices, subscriptions, webhooks, retryJobs))
    {
      ok := t.txRef !in transactions;
      if ok {
        transactions := transactions[t.txRef := t];
      }
    }

    /** UpdatePaymentTransactionStatus: the status and provider reference of the row with this tx_ref. */
    method UpdateTransactionStatus(txRef: string, status: string, providerRef: string) returns (ok: bool)
      modifies this
      ensures ok <==> txRef in old(transactions)
      ensures transactions == if ok then old(transactions)[txRef := old(transactions)[txRef].(
                                          status := status, providerRef := NullText(providerRef, true))]
                              else old(transactions)
      ensures (invoices, subscriptions, webhooks, retryJobs) == old((invoices, subscriptions, webhooks, retryJobs))
    {
      ok := txRef in transactions;
      if ok {
        transactions := transactions[txRef := transactions[txRef].(status := status, providerRef := NullText(providerRef, true))];
      }
    }

    /** CreateInvoice, keyed by its invoice number. */
    method CreateInvoice(inv: Invoice) returns (ok: bool)
      modifies this
      ensures ok <==> inv.invoiceNumber !in old(invoices)
      ensures invoices == if ok then old(invoices)[inv.invoiceNumber := inv] else old(invoices)
      ensures (transactions, subscriptions, webhooks, retryJobs) == old((transactions, subscriptions, webhooks, retryJobs))
    {
      ok := inv.invoiceNumber !in invoices;
      if ok {
        invoices := invoices[inv.invoiceNumber := inv];
      }
    }

    /** UpdateInvoiceStatus: the updated row, or an error when the number has no invoice. */
    method UpdateInvoiceStatus(number: string, status: InvoiceStatus) returns (r: Result<Invoice>)
      modifies this
      ensures r.Ok? <==> number in old(invoices)
      ensures r.Ok? ==> r.value == old(invoices)[number].(status := status) && invoices == old(invoices)[number := r.value]
      ensures r.Err? ==> invoices == old(invoices)
      ensures (transactions, subscriptions, webhooks, retryJobs) == old((transactions, subscriptions, webhooks, retryJobs))
    {
      if number !in invoices {
        return Err("no rows in result set");
      }
      var row := invoices[number].(status := status);
      invoices := invoices[number := row];
      return Ok(row);
    }

    /** CreateSubscription, keyed by its id. */
    method CreateSubscription(sub: Subscription) returns (ok: bool)
      modifies this
      ensures ok <==> sub.id !in old(subscriptions)
      ensures subscriptions == if ok then old(subscriptions)[sub.id := sub] else old(subscriptions)
      ensures (transactions, invoices, webhooks, retryJobs) == old((transactions, invoices, webhooks, retryJobs))
    {
      ok := sub.id !in subscriptions;
      if ok {
        subscriptions := subscriptions[sub.id := sub];
      }
    }

    /** UpdateSubscription: the columns the update names, on the row with its id. */
    method UpdateSubscription(p: SubscriptionUpdate) returns (ok: bool)
      modifies this
      ensures ok <==> p.id in old(subscriptions)
      ensures subscriptions == if ok then old(subscriptions)[p.id := ApplySubscriptionUpdate(old(subscriptions)[p.id], p)]
                               else old(subscriptions)
      ensures (transactions, invoices, webhooks, retryJobs) == old((transactions, invoices, webhooks, retryJobs))
    {
      ok := p.id in subscriptions;
      if ok {
        subscriptions := subscriptions[p.id := ApplySubscriptionUpdate(subscriptions[p.id], p)];
      }
    }

    /** CreatePaymentWebhook: a new, unprocessed ledger row; a reference already recorded is refused. */
    method CreateWebhook(reference: string, eventType: string, payload: string) returns (r: Result<WebhookRow>)
      modifies this
      ensures r.Ok? <==> reference !in old(webhooks)
      ensures r.Ok? ==> r.value == WebhookRow(eventType, payload, false) && webhooks == old(webhooks)[reference := r.value]
      ensures r.Err? ==> webhooks == old(webhooks)
      ensures (transactions, invoices, subscriptions, retryJobs) == old((transactions, invoices, subscriptions, retryJobs))
    {
      if reference in webhooks {
        return Err("duplicate key value violates unique constraint");
      }
      var row := WebhookRow(eventType, payload, false);
      webhooks := webhooks[reference := row];
      return Ok(row);
    }

    /** MarkWebhookAsProcessed. */
    method MarkWebhookProcessed(reference: string)
      modifies this
      ensures webhooks == if reference in old(webhooks) then old(webhooks)[reference := old(webhooks)[reference].(processed := true)]
                          else old(webhooks)
      ensures (transactions, invoices, subscriptions, retryJobs) == old((transactions, invoices, subscriptions, retryJobs))
    {
      if reference in webhooks {
        webhooks := webhooks[reference := webhooks[reference].(processed := true)];
      }
    }

    /** CreatePaymentRetryJob: one more job; the model refuses none. */
    method CreateRetryJob(job: RetryJob)
      modifies this
      ensures retryJobs == old(retryJobs) + [job]
      ensures (transactions, invoices, subscriptions, webhooks) == old((transactions, invoices, subscriptions, webhooks))
    {
      retryJobs := retryJobs + [job];
    }
  }
}
