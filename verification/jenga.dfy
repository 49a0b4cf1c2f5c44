/** `handleJengaCallback` and `verifyJengaSignature` (utils.js): the signed Jenga webhook. */
module Jenga {
  import opened Wrappers
  import opened Storefront
  import opened Http

  /** The fields of the Jenga callback body that the handler reads. */
  datatype JengaPayload = JengaPayload(
    transactionId: Scalar,
    orderReference: string,
    status: string,
    amount: Scalar,
    currency: Scalar,
    paymentDetails: Scalar)

  /**
   * The operations this core uses without looking inside them: hex HMAC-SHA256 keyed by
   * its first argument, and `JSON.stringify` of the callback body.
   */
  datatype Crypto = Crypto(hmacSha256Hex: (string, string) -> string, stringify: JengaPayload -> string)

  /**
   * The signature `verifyJengaSignature` expects for a payload: the HMAC of the serialised
   * body under the consumer secret. With no secret configured `createHmac` throws, which the
   * function turns into a failed check (`None` here).
   */
  function ExpectedSignature(crypto: Crypto, secret: Option<string>, payload: JengaPayload): (r: Option<string>)
    ensures r.Some? <==> secret.Some?
    ensures r.Some? ==> r.value == crypto.hmacSha256Hex(secret.value, crypto.stringify(payload))
  {
    if secret.Some? then Some(crypto.hmacSha256Hex(secret.value, crypto.stringify(payload))) else None
  }

  /** `verifyJengaSignature`: the `x-jenga-signature` header must be exactly the expected signature. */
  function VerifySignature(crypto: Crypto, secret: Option<string>, payload: JengaPayload, signature: Option<string>): (ok: bool)
    ensures ok ==> signature.Some? && secret.Some?
    ensures ok ==> signature.value == crypto.hmacSha256Hex(secret.value, crypto.stringify(payload))
    ensures secret.Some? && signature == Some(crypto.hmacSha256Hex(secret.value, crypto.stringify(payload))) ==> ok
  {
    var expected := ExpectedSignature(crypto, secret, payload);
    expected.Some? && signature == expected
  }

  /** At most one header value is accepted for a given payload and secret. */
  lemma SignatureUnique(crypto: Crypto, secret: Option<string>, payload: JengaPayload, s1: Option<string>, s2: Option<string>)
    requires VerifySignature(crypto, secret, payload, s1) && VerifySignature(crypto, secret, payload, s2)
    ensures s1 == s2
  {
  }

  const InvalidSignature := Replied(Response(BadRequest, Failure("Invalid signature")))
  const Processed := Replied(Response(OK, Success("Payment processed successfully")))
  const CallbackError := Replied(Response(InternalServerError, Failure("Internal server error")))

  /** The storefront update a successful Jenga payment requests. */
  function SettlementUpdate(p: JengaPayload): (u: OrderUpdate)
    ensures u.JengaPaid? && u.orderId == p.orderReference && u.transactionId == p.transactionId
    ensures u.amount == p.amount && u.currency == p.currency && u.paymentDetails == p.paymentDetails
  {
    JengaPaid(p.orderReference, p.transactionId, p.amount, p.currency, p.paymentDetails)
  }

  /**
   * `handleJengaCallback`: the signature is checked before anything else; a verified
   * `"SUCCESS"` makes one storefront update (a failing update becomes a 500); any other
   * status reports `Payment failed: <status>`.
   */
  function HandleCallback(crypto: Crypto, secret: Option<string>, p: JengaPayload, signature: Option<string>, updateFails: bool): (h: Handled)
    ensures h.update.Some? <==> VerifySignature(crypto, secret, p, signature) && p.status == "SUCCESS"
    ensures h.update.Some? ==> h.update.value == SettlementUpdate(p)
    ensures !VerifySignature(crypto, secret, p, signature) ==> h.outcome == InvalidSignature
    ensures h.update.Some? ==> h.outcome == (if updateFails then CallbackError else Processed)
    ensures VerifySignature(crypto, secret, p, signature) && p.status != "SUCCESS" ==>
      h.outcome == Replied(Response(OK, Failure("Payment failed: " + p.status)))
    ensures h.outcome.Replied?
  {
    if !VerifySignature(crypto, secret, p, signature) then
      Handled(InvalidSignature, None)
    else if p.status == "SUCCESS" then
      Handled(if updateFails then CallbackError else Processed, Some(SettlementUpdate(p)))
    else
      Handled(Replied(Response(OK, Failure("Payment failed: " + p.status))), None)
  }

  /** A forged callback is rejected before its status is looked at: no update, whatever the storefront would do. */
  lemma ForgedCallbackRejected(crypto: Crypto, secret: Option<string>, p: JengaPayload, signature: Option<string>, f1: bool, f2: bool)
    requires !VerifySignature(crypto, secret, p, signature)
    ensures HandleCallback(crypto, secret, p, signature, f1) == HandleCallback(crypto, secret, p, signature, f2)
              == Handled(InvalidSignature, None)
  {
  }

  /** Without a configured secret no callback is ever accepted. */
  lemma NoSecretNoUpdate(crypto: Crypto, p: JengaPayload, signature: Option<string>, fails: bool)
    ensures HandleCallback(crypto, None, p, signature, fails) == Handled(InvalidSignature, None)
  {
  }
}
