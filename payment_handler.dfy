/**
 * The payment HTTP handlers: starting a checkout for the signed-in owner,
 * and the pages Chapa's return and cancel URLs render. Query strings are
 * maps; the webhook service's VerifyPayment and CompletePayment, whose code
 * is not part of this model, are recorded as the calls the handler makes.
 */
module PaymentHandler {
  import opened Common
  import PaymentTables
  import PaymentService

  type Query = map<string, string>

  /** `c.Query(key)`: the value, or "" when the key is absent. */
  function QueryValue(q: Query, key: string): (v: string)
    ensures key in q ==> v == q[key]
    ensures key !in q ==> v == ""
  {
    if key in q then q[key] else ""
  }

  /** The transaction reference of a return URL: the first non-empty of trx_ref, tx_ref and reference. */
  function ReturnTxRef(q: Query): (r: string)
    ensures QueryValue(q, "trx_ref") != "" ==> r == QueryValue(q, "trx_ref")
    ensures QueryValue(q, "trx_ref") == "" && QueryValue(q, "tx_ref") != "" ==> r == QueryValue(q, "tx_ref")
    ensures QueryValue(q, "trx_ref") == "" && QueryValue(q, "tx_ref") == "" ==> r == QueryValue(q, "reference")
    ensures r == "" <==> QueryValue(q, "trx_ref") == "" && QueryValue(q, "tx_ref") == "" && QueryValue(q, "reference") == ""
  {
    var first := QueryValue(q, "trx_ref");
    var second := if first == "" then QueryValue(q, "tx_ref") else first;
    if second == "" then QueryValue(q, "reference") else second
  }

  /** The HTML page a handler renders, with its HTTP status where it varies. */
  datatype Page =
    | ErrorPage(code: int, message: string)
    | FailedPage(status: string, txRef: string)
    | SuccessPage(txRef: string)
    | CancelledPage(txRef: string)

  /** What the webhook service's VerifyPayment answers: an error, or the provider's reference and whether it is paid. */
  datatype Verification = VerifyError(error: string) | Verified(providerRef: string, paid: bool)

  /** A call the return-URL handler makes into the webhook service. */
  datatype ServiceCall = VerifyCall(txRef: string) | CompleteCall(txRef: string, providerRef: string)

  /**
   * PaymentSuccess: with no reference, a 400 error page and no call; else
   * one verification; a verification error is a 500 error page and an
   * unpaid one the failed page, neither completing; a paid one completes
   * once and renders the success page, whatever the completion returns.
   */
  function PaymentSuccess(q: Query, verify: string -> Verification): (r: (Page, seq<ServiceCall>))
    ensures ReturnTxRef(q) == "" ==> r.0.ErrorPage? && r.0.code == 400 && r.1 == []
    ensures ReturnTxRef(q) != "" ==> |r.1| >= 1 && r.1[0] == VerifyCall(ReturnTxRef(q))
    ensures ReturnTxRef(q) != "" && verify(ReturnTxRef(q)).VerifyError? ==> r.0.ErrorPage? && r.0.code == 500 && |r.1| == 1
    ensures ReturnTxRef(q) != "" && verify(ReturnTxRef(q)).Verified? && !verify(ReturnTxRef(q)).paid ==>
      r == (FailedPage(QueryValue(q, "status"), ReturnTxRef(q)), [VerifyCall(ReturnTxRef(q))])
    ensures r.0.SuccessPage? <==> ReturnTxRef(q) != "" && verify(ReturnTxRef(q)).Verified? && verify(ReturnTxRef(q)).paid
    ensures (exists c :: c in r.1 && c.CompleteCall?) <==> r.0.SuccessPage?
    ensures r.0.SuccessPage? ==>
      r.1 == [VerifyCall(ReturnTxRef(q)), CompleteCall(ReturnTxRef(q), verify(ReturnTxRef(q)).providerRef)] && r.0.txRef == ReturnTxRef(q)
  {
    var txRef := ReturnTxRef(q);
    if txRef == "" then
      (ErrorPage(400, "Invalid payment reference. Please contact support if payment was deducted."), [])
    else
      match verify(txRef)
        case VerifyError(e) => (ErrorPage(500, "Failed to verify payment: " + e), [VerifyCall(txRef)])
        case Verified(providerRef, paid) =>
          if !paid then (FailedPage(QueryValue(q, "status"), txRef), [VerifyCall(txRef)])
          else
            var calls := [VerifyCall(txRef), CompleteCall(txRef, providerRef)];
            assert calls[1].CompleteCall?;
            (SuccessPage(txRef), calls)
  }

  /** PaymentCancel: the cancelled page for trx_ref alone, and no call. */
  function PaymentCancel(q: Query): (p: Page)
    ensures p.CancelledPage? && p.txRef == QueryValue(q, "trx_ref")
  {
    CancelledPage(QueryValue(q, "trx_ref"))
  }

  /** The cancel page depends on trx_ref alone: no other parameter, not even tx_ref, changes it. */
  lemma CancelReadsOnlyTrxRef(q: Query, key: string, value: string)
    requires key != "trx_ref"
    ensures PaymentCancel(q[key := value]) == PaymentCancel(q)
    ensures PaymentCancel(q - {key}) == PaymentCancel(q)
  {
  }

  /** What the initiate handler does before the service: answer with an error status, or call it with this input. */
  datatype InitiateStep = Respond(code: int, message: string) | CallService(input: PaymentRequest)

  /**
   * InitiatePayment's input: the signed-in user's id from the context (500
   * when missing or not a uuid), the plan and type from the JSON body (400
   * when it does not bind), and no subscription, e-mail or name, which the
   * service then resolves.
   */
  function InitiateInput(keys: CtxKeys, body: Option<(string, string)>): (s: InitiateStep)
    ensures ("user_id" !in keys || !keys["user_id"].UuidValue?) ==> s.Respond? && s.code == 500
    ensures "user_id" in keys && keys["user_id"].UuidValue? && body.None? ==> s == Respond(400, "invalid input")
    ensures s.CallService? <==> "user_id" in keys && keys["user_id"].UuidValue? && body.Some?
    ensures s.CallService? ==>
      s.input == PaymentRequest(keys["user_id"].id, Nil, body.value.0, "", "", body.value.1)
  {
    if "user_id" !in keys then Respond(500, "user_id not found in context")
    else if !keys["user_id"].UuidValue? then Respond(500, "user_id in context is not of type uuid.UUID")
    else if body.None? then Respond(400, "invalid input")
    else CallService(PaymentRequest(keys["user_id"].id, Nil, body.value.0, "", "", body.value.1))
  }

  /**
   * The initiate handler: the input step, then the payment service; 200
   * with the checkout URL when it succeeds, 500 with its error otherwise.
   * Nothing is written when the input step answers by itself.
   */
  method InitiatePayment(store: PaymentTables.PaymentStore, keys: CtxKeys, body: Option<(string, string)>,
                         users: map<Uuid, UserRow>, byOwner: map<Uuid, Subscription>, plansBySlug: map<string, Plan>,
                         now: Time, monthLater: Time, newSubId: Uuid, txUuid: string,
                         chapa: PaymentService.ChapaInitRequest -> PaymentService.HttpReply)
    returns (code: int, checkoutUrl: string)
    modifies store
    ensures InitiateInput(keys, body).Respond? ==>
      code == InitiateInput(keys, body).code && checkoutUrl == "" && store.Snapshot() == old(store.Snapshot())
    ensures InitiateInput(keys, body).CallService? ==> code == 200 || code == 500
    ensures code != 200 ==> checkoutUrl == ""
  {
    var step := InitiateInput(keys, body);
    if step.Respond? {
      return step.code, "";
    }
    var r := PaymentService.InitiatePayment(store, users, byOwner, plansBySlug, step.input, now, monthLater,
                                            newSubId, txUuid, chapa);
    if r.Err? {
      return 500, "";
    }
    return 200, r.value;
  }
}
