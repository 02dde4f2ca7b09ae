/**
 * The Chapa webhook endpoint and its local test endpoint. The endpoint
 * acknowledges every signed request with 200, so that the provider stops
 * retrying, and says "success" only when the webhook service succeeded.
 */
module WebhookHandler {
  import opened Common
  import PaymentTables
  import WebhookService

  /** The endpoint's JSON answer: an error with its status, or a 200 acknowledgement with its "status" field. */
  datatype Reply = ErrorReply(code: int, error: string) | Acknowledged(status: string)

  /**
   * ChapaWebhook: an unreadable body (None) is 400 and a missing
   * Chapa-Signature header is 401, both before the service runs;
   * otherwise the service runs and any error it returns, an invalid
   * signature included, is still acknowledged, as "received".
   */
  method ChapaWebhook(store: PaymentTables.PaymentStore, secret: string, body: Option<string>, signature: string,
                      hmac: (string, string) -> string, parse: string -> Option<WebhookService.WebhookPayload>,
                      now: Time, monthLater: Time)
    returns (reply: Reply)
    modifies store
    ensures body.None? ==> reply == ErrorReply(400, "Cannot read request body") && store.Snapshot() == old(store.Snapshot())
    ensures body.Some? && signature == "" ==>
      reply == ErrorReply(401, "Missing Chapa-Signature header") && store.Snapshot() == old(store.Snapshot())
    ensures body.Some? && signature != "" ==>
      var res := WebhookService.ProcessEffect(old(store.Snapshot()), secret, body.value, signature, hmac, parse, now, monthLater);
      && store.Snapshot() == res.0
      && reply == Acknowledged(if res.1.Ok? then "success" else "received")
  {
    if body.None? {
      return ErrorReply(400, "Cannot read request body");
    }
    if signature == "" {
      return ErrorReply(401, "Missing Chapa-Signature header");
    }
    var r := WebhookService.ProcessWebhook(store, secret, body.value, signature, hmac, parse, now, monthLater);
    if r.Err? {
      return Acknowledged("received");
    }
    return Acknowledged("success");
  }

  /** The value of a string of decimal digits, read most significant digit first. */
  function DecimalValue(s: string): nat
  {
    if |s| == 0 then 0
    else DecimalValue(s[..|s| - 1]) * 10 + (if '0' <= s[|s| - 1] <= '9' then (s[|s| - 1] - '0') as nat else 0)
  }

  /** The character of one decimal digit. */
  function Digit(d: nat): (c: char)
    requires d < 10
    ensures '0' <= c <= '9' && (c - '0') as nat == d
  {
    (('0' as int) + d) as char
  }

  /**
   * The decimal text of an integer, as fmt's %d writes it: a '-' before
   * the text of a negative number's magnitude, digits that read back as
   * the value, and no leading zero.
   */
  function IntText(n: int): (s: string)
    ensures |s| >= 1
    ensures n >= 0 ==> (forall k :: 0 <= k < |s| ==> '0' <= s[k] <= '9') && DecimalValue(s) == n
    ensures n > 0 ==> s[0] != '0'
    ensures n == 0 ==> s == "0"
    ensures n < 0 ==> s[0] == '-' && s[1..] == IntText(-n)
    decreases if n < 0 then -n + 1 else n
  {
    if n < 0 then "-" + IntText(-n)
    else if n < 10 then [Digit(n)]
    else
      var t := IntText(n / 10);
      var s := t + [Digit(n % 10)];
      assert s[..|s| - 1] == t;
      s
  }

  /** `c.DefaultQuery(key, d)`: the value when the key is present, even if empty; `d` otherwise. */
  function DefaultQuery(q: map<string, string>, key: string, d: string): (v: string)
    ensures key in q ==> v == q[key]
    ensures key !in q ==> v == d
  {
    if key in q then q[key] else d
  }

  /**
   * The payload ChapaWebhookTest builds: the event is "payment." and the
   * type (default "success"), the transaction reference defaults to
   * "tx_test_<now>", the provider reference is "ref_<now>", and the data's
   * status is "failed" exactly for the type "failed", else "completed".
   */
  function TestPayload(q: map<string, string>, now: Time): (p: WebhookService.WebhookPayload)
    ensures p.event == "payment." + DefaultQuery(q, "type", "success")
    ensures "type" !in q ==> p.event == WebhookService.EventSuccess
    ensures p.data.status == (if DefaultQuery(q, "type", "success") == "failed" then "failed" else "completed")
    ensures p.data.txRef == DefaultQuery(q, "tx_ref", "tx_test_" + IntText(now))
    ensures p.data.reference == "ref_" + IntText(now)
  {
    var webhookType := DefaultQuery(q, "type", "success");
    var txRef := DefaultQuery(q, "tx_ref", "tx_test_" + IntText(now));
    WebhookService.WebhookPayload("payment." + webhookType,
      WebhookService.WebhookData(if webhookType == "failed" then "failed" else "completed", txRef, "ref_" + IntText(now)))
  }

  /**
   * ChapaWebhookTest: the test payload, encoded (`marshal`), signed with
   * the secret, and handed to ChapaWebhook as a real request would be.
   */
  method ChapaWebhookTest(store: PaymentTables.PaymentStore, secret: string, q: map<string, string>, now: Time,
                          monthLater: Time, marshal: WebhookService.WebhookPayload -> string,
                          hmac: (string, string) -> string, parse: string -> Option<WebhookService.WebhookPayload>)
    returns (reply: Reply)
    modifies store
    ensures var body := marshal(TestPayload(q, now));
      var signature := hmac(secret, body);
      && (signature == "" ==> reply.ErrorReply? && reply.code == 401 && store.Snapshot() == old(store.Snapshot()))
      && (signature != "" ==>
            var res := WebhookService.ProcessEffect(old(store.Snapshot()), secret, body, signature, hmac, parse, now, monthLater);
            store.Snapshot() == res.0 && reply == Acknowledged(if res.1.Ok? then "success" else "received"))
  {
    var body := marshal(TestPayload(q, now));
    var signature := hmac(secret, body);
    reply := ChapaWebhook(store, secret, Some(body), signature, hmac, parse, now, monthLater);
  }

  /**
   * With a secret configured and a body that decodes back to the test
   * payload, a test "success" for a fresh provider reference runs the
   * success handler and records the event.
   */
  lemma TestSuccessRunsHandler(t: PaymentTables.Tables, secret: string, q: map<string, string>, now: Time, monthLater: Time,
                               marshal: WebhookService.WebhookPayload -> string, hmac: (string, string) -> string,
                               parse: string -> Option<WebhookService.WebhookPayload>)
    requires secret != "" && "type" !in q
    requires parse(marshal(TestPayload(q, now))) == Some(TestPayload(q, now))
    requires "ref_" + IntText(now) !in t.webhooks
    ensures var body := marshal(TestPayload(q, now));
      var res := WebhookService.ProcessEffect(t, secret, body, hmac(secret, body), hmac, parse, now, monthLater);
      var handled := WebhookService.SuccessEffect(t.(webhooks := t.webhooks["ref_" + IntText(now) :=
                       PaymentTables.WebhookRow(WebhookService.EventSuccess, body, false)]), TestPayload(q, now).data, now, monthLater);
      res.1 == handled.1 && "ref_" + IntText(now) in res.0.webhooks
  {
  }
}
