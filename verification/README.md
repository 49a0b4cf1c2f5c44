# Payment reconciliation core, modelled in Dafny

This project models the payment-reconciliation core of a small Shopify payment
gateway. The gateway takes a checkout, hands it to one of three mobile/card payment
backends (M-Pesa Express, M-Pesa C2B, Jenga), and writes the result back to the
storefront order when the backend calls back. The model covers:

- the in-memory order ledger (`global.orderStore`). It is the class `Ledger.OrderStore`,
  which holds a `map` from order id to entry and offers store, get and merge-update methods;
- the M-Pesa C2B two-phase protocol (`C2B`):
  - the read-only validation gate;
  - the confirmation, which writes the ledger and then calls the storefront;
  - the ledger bookkeeping and timestamp of initiation;
  - the routing of the callback by path suffix;
- the storefront update as an external effect. `Storefront.Shop` keeps a log of every
  update it was asked for, and each call may fail;
- the phone normaliser `formatPhoneNumber` (`Phone`);
- provider selection and the uniform failure wrapping of `processPayment` (`Checkout`);
- the M-Pesa Express result callback, with its first-match metadata lookup (`Express`);
- the signed Jenga webhook (`Jenga`). HMAC-SHA256 and `JSON.stringify` are abstract
  functions; only the exact comparison and the order of the checks are modelled.

Files: `wrappers.dfy` (Option, Result), `text.dfy` (digit filter, prefixes, lower case),
`phone.dfy`, `ledger.dfy`, `storefront.dfy`, `http.dfy` (responses), `c2b.dfy`,
`express.dfy`, `jenga.dfy`, `checkout.dfy`.

Parameters stand in for the environment:
- configuration: the C2B short code, the Jenga secret and the development flag;
- the clock: the ISO-8601 string;
- backend HTTP outcomes: the `BackendOutcome` record and the `initialize` function
  passed to `ProcessPayment`;
- storefront failure: a `fails` flag.

Amounts are already parsed (`Money`, in minor units). `NotANumber` models the NaN
that `parseFloat` gives, which compares unequal to everything.

Behaviour of the code worth knowing, which the model keeps as written:
- `confirmPayment` is not idempotent. It checks neither that the entry exists nor the
  amount, and a repeated confirmation calls the storefront again and overwrites the
  transaction id (`C2B.RepeatedConfirmationOverwrites`).
- The ledger never holds the statuses `validated` or `failed`, and no status
  transition is guarded.
- A failed C2B URL registration aborts initiation, and nothing is written to the
  ledger. The code does not log the failure and carry on.
- An Express callback with ResultCode 0 but a missing metadata item makes the handler
  throw (`Http.Threw`). It is not rejected with a malformed-callback answer.
- Validation looks the order up by `AccountReference`; confirmation updates it by
  `BillRefNumber`. The model keeps them as two payload fields.

## Model

| member | source | states |
|---|---|---|
| Text.Digits | utils.js:151 | the output of the `\D` filter is all digits and no longer than its input |
| Text.ToLower | utils.js:97 | lower-casing keeps the length and maps each position through the per-character lower case (upper-case ASCII letters become lower-case, everything else is kept) |
| Text.StartsWith | utils.js:152-154 | `startsWith` holds iff the prefix fits and agrees with the string position by position |
| Text.EndsWith | utils.js:169-175 | `endsWith` holds iff the suffix fits and agrees with the last positions of the string |
| Phone.FormatPhoneNumber | utils.js:150-158 | the normalised number contains only digits and always starts with `254` |
| Phone.FormatCases | utils.js:151-156 | on the digits of the input: a leading `0` becomes `254`; a `254` prefix is kept unchanged; anything else gets `254` prepended |
| Phone.FormatKeepsCanonical | utils.js:154-157 | a digit string that already starts with `254` is returned unchanged |
| Phone.FormatIdempotent | utils.js:150-158 | normalising twice equals normalising once |
| Phone.FormatLength | utils.js:151-156 | the output is at least as long as the input's digits and at most three characters longer |
| Phone.FormatTrunkPrefix | utils.js:152-153 | `0` followed by digits gives `254` followed by the same digits |
| Phone.FormatIgnoresNonDigit | utils.js:151 | a leading non-digit such as `+` does not change the result |
| Phone.FormatBareNumber | utils.js:154-155 | digits that start with neither `0` nor `254` get `254` prepended |
| Phone.FormatEmpty | utils.js:150-158 | the empty string is not rejected: it becomes `254` |
| Ledger.NumericEqual | paymentProviders.js:162 | two parsed amounts compare equal iff they are the same number; NaN equals nothing, not even itself |
| Ledger.PendingEntry | paymentProviders.js:111-116 | the initiation entry holds the amount, phone and timestamp with status `pending` and no transaction id |
| Ledger.Merge | paymentProviders.js:353-356 | object spread: every field the patch supplies wins, every other field (such as `timestamp`) is kept |
| Ledger.MergeIdempotent | paymentProviders.js:353-356 | merging the same patch twice equals merging it once |
| Ledger.PatchAt | paymentProviders.js:346-358 | an update never adds or removes a key; the patched order's entry is merged; every other order is unchanged |
| Ledger.PatchAtUnknownIsNoOp | paymentProviders.js:351-352 | an update for an order never stored leaves the ledger exactly as it was |
| Ledger.OrderStore.constructor | paymentProviders.js:332-334 | a process starts with no store, holding nothing |
| Ledger.OrderStore.StoreOrderDetails | paymentProviders.js:329-336 | creates the store if needed; the key then maps to the new details (overwriting any old entry) and every other key is unchanged |
| Ledger.OrderStore.GetOrderDetails | paymentProviders.js:338-344 | returns the entry exactly when the key is stored; an uninitialised store yields nothing |
| Ledger.OrderStore.UpdateOrderPayment | paymentProviders.js:346-358 | the new map is the merge-update of the old one; on an unknown key (or no store) nothing changes and no key is created |
| Storefront.Shop.UpdateOrder | paymentProviders.js:361-389 | each storefront update is logged as called, after all earlier ones, and fails exactly when the remote update fails |
| C2B.StoredAmount | paymentProviders.js:162 | `parseFloat(orderDetails.amount)`: the stored amount, or NaN when the entry has none |
| C2B.ValidatePayment | paymentProviders.js:137-180 | accepted (ResultCode 0) iff the short code matches, the `AccountReference` order is in the ledger and the amounts are numerically equal; a short-code mismatch gives `C2B00010`, a missing order `C2B00011` and an amount that is not numerically equal `C2B00012`; only these four answers occur |
| C2B.ShortCodeCheckedFirst | paymentProviders.js:145-153 | a short-code mismatch gives `C2B00010` for every ledger, so it is decided before any lookup |
| C2B.ValidateIsLocal | paymentProviders.js:153-167 | validation depends only on the referenced order's entry; changing any other order leaves the answer unchanged |
| C2B.UnparseableAmountRejected | paymentProviders.js:162-167 | a NaN amount is never accepted |
| C2B.ConfirmationPatch | paymentProviders.js:199-204 | confirmation sets status `completed` together with the transaction id, amount and MSISDN, and leaves the timestamp alone |
| C2B.ConfirmationUpdate | paymentProviders.js:207-212 | the storefront update of a confirmation is for `BillRefNumber` with `TransID` as receipt, `TransAmount` and `MSISDN` |
| C2B.ConfirmPayment | paymentProviders.js:182-225 | a short-code mismatch returns ResultCode 1 and leaves the ledger and the storefront log untouched; otherwise the ledger is merge-updated first, then exactly one storefront update is logged; a failed update returns ResultCode 1 "Failed to process payment" and the ledger change stays |
| C2B.ConfirmedEntry | paymentProviders.js:199-204 | after confirmation a stored order is completed with the payload's transaction, amount and phone, and keeps its initiation timestamp |
| C2B.RepeatedConfirmationOverwrites | paymentProviders.js:189-217 | a second confirmation for the same order replaces the recorded transaction id with its own |
| C2B.RepeatedConfirmationLedgerStable | paymentProviders.js:199-204 | repeating an identical confirmation leaves the ledger as one confirmation left it |
| C2B.Timestamp | paymentProviders.js:65-68 | the timestamp is the ISO string's digits minus the last three (empty if fewer than three digits), all digits |
| C2B.TimestampOfIso | paymentProviders.js:65-68 | for an instant `YYYY-MM-DDTHH:mm:ss.sssZ` the timestamp is `yyyyMMddHHmmss` |
| C2B.InitializePayment | paymentProviders.js:62-135 | a token failure is reported as "Failed to get access token: …"; a registration failure, or a simulation failure in development, as "M-Pesa C2B payment failed: …"; in each of these cases no ledger write happens; otherwise exactly a `pending` entry with the amount, phone and derived timestamp is stored under the order id, and the paybill fields are returned |
| C2B.InitiatedOrderValidates | paymentProviders.js:111-116 | after initiation, a payment with the configured short code and the order as reference is accepted exactly when its amount equals the stored one (otherwise `C2B00012`) |
| C2B.RouteCallback | utils.js:169-184 | a `/validation` suffix routes to validation, a `/confirmation` suffix to confirmation, and any other path is unknown |
| C2B.RouteSuffixesExclusive | utils.js:169-178 | no path ends with both suffixes, so the order of the two tests cannot matter |
| C2B.HandleCallback | utils.js:160-192 | validation answers 200 from the ledger and changes neither the ledger nor the storefront log; confirmation has exactly `ConfirmPayment`'s effect; any other path answers 400 with ResultCode 1 "Invalid callback type" and changes nothing |
| Express.FindItem | utils.js:21-31 | the lookup finds nothing iff no item has the name; otherwise it returns the value of the first item with that name |
| Express.FirstMatchWins | utils.js:21-31 | later items with the same name are ignored |
| Express.SettlementUpdate | utils.js:35-40 | the settlement update is for `AccountReference` and carries the first `Amount`, `MpesaReceiptNumber` and `PhoneNumber` items' values |
| Express.HandleCallback | utils.js:14-58 | a storefront update is requested iff ResultCode is 0 and all three items are present; it carries the first `MpesaReceiptNumber`, `Amount` and `PhoneNumber`; a missing item makes the handler throw with no update; any other ResultCode answers with `ResultDesc` as the error |
| Express.FailedPaymentNoUpdate | utils.js:50-57 | a non-zero ResultCode never reaches the storefront, whatever the storefront would do |
| Jenga.ExpectedSignature | utils.js:253-257 | an expected signature exists iff a secret is configured, and it is the HMAC of the serialised body under that secret |
| Jenga.VerifySignature | utils.js:250-264 | a header is accepted only if a secret is configured and the header equals the HMAC of the serialised body exactly; that exact value is always accepted |
| Jenga.SignatureUnique | utils.js:259 | for a given payload and secret at most one header value is accepted |
| Jenga.SettlementUpdate | utils.js:219-226 | the Jenga update is for `orderReference` and carries the callback's transaction id, amount, currency and payment details |
| Jenga.HandleCallback | utils.js:194-247 | an update is requested iff the signature verifies and the status is `SUCCESS`; a bad signature gets 400 "Invalid signature"; a failing update gets 500; any other status gets "Payment failed: <status>"; the handler never throws |
| Jenga.ForgedCallbackRejected | utils.js:209-215 | a callback whose signature fails is rejected before its status is examined, with no update and the same answer whatever the storefront would do |
| Jenga.NoSecretNoUpdate | utils.js:253-262 | with no secret configured (`createHmac` throws) every callback is rejected |
| Checkout.DisplayName | paymentProviders.js:7-230 | the providers are named exactly `M-Pesa Express`, `M-Pesa C2B` and `Jenga`, one name each |
| Checkout.Registry | paymentProviders.js:392-396 | a registry hit is the provider registered under that key |
| Checkout.RegistryRoundTrip | paymentProviders.js:392-396 | every provider is found under its own key |
| Checkout.SelectProvider | utils.js:94-109 | each provider is selected iff the lower-cased name is exactly `m-pesa express`, `m-pesa c2b` or `jenga`; anything else selects nothing |
| Checkout.SelectIgnoresCase | utils.js:97 | a name and its lower case select the same provider |
| Checkout.BillingPhone | utils.js:114-117 | a non-empty billing phone becomes exactly `FormatPhoneNumber` of it (so all digits with a `254` prefix); an absent or empty phone passes through unchanged |
| Checkout.BillingPhoneIdempotent | utils.js:114-117 | normalising the billing phone twice equals doing it once |
| Checkout.PaymentRequest | utils.js:119-132 | the provider receives the normalised phone (also as the customer phone), the parsed amount, the order id, the currency, and the billing name and email as customer details |
| Checkout.ProcessPayment | utils.js:92-147 | success iff the first gateway name selects a provider and that provider's initiation succeeds; the result then carries that provider's name and its response; an unknown name fails with "Unsupported payment method: <name>"; a provider error fails with its message; no gateway name fails with the TypeError's message |
| Checkout.UnsupportedNeverInitiates | utils.js:107-108 | an unsupported name fails without any provider being called: the result is the same whatever the providers would do |
| Checkout.OnlyFirstGatewayCounts | utils.js:94 | only the first gateway name is read; later names are never a fallback |

## Left out

- HTTP traffic is not modelled: the OAuth token fetch, the STK push, C2B URL
  registration and simulation, and Jenga authentication and checkout. C2B initiation
  takes their outcomes as a `BackendOutcome` parameter. The Express and Jenga
  `initializePayment` are represented only by the `initialize` parameter of
  `Checkout.ProcessPayment`.
- The body of `updateShopifyOrder` (both copies) is not modelled. It is an external call
  that is logged and may fail. Whether an update is attempted is modelled; what it sends
  to Shopify is not.
- Cryptography and encoding are not modelled: SHA-256 in `generateJengaSignature`, the
  HMAC and `JSON.stringify` in `verifyJengaSignature` (abstract functions in
  `Jenga.Crypto`), and the base64 password.
- Jenga.VerifySignature: the serialisation sees only the six payload fields the handler reads. The real `JSON.stringify(req.body)` depends on the whole body, including unread fields and key order. No lemma relies on more than that it is a function of the payload.
- `parseFloat` and floating point are not modelled. Amounts are already parsed integers
  in minor units, or `NotANumber`.
- Text.ToLower: only ASCII letters are lowered, where `toLowerCase` lowers all of Unicode. This cannot change the provider switch. The only non-ASCII characters whose lower case contains an ASCII letter are U+212A (to `k`) and U+0130 (to `i` with a combining dot), and none of the three provider names contains `k` or `i`.
- `process.env`, `NODE_ENV`, `new Date()` and all console logging are parameters or are
  dropped.
- C2B.InitializePayment: the human-readable `message` text of the paybill instructions
  is not built. It needs the amount rendered as a JavaScript number string.
- C2B.ValidatePayment: the `C2B00013` "Internal server error" branch is not produced.
  Nothing inside its `try` block can throw once the payload is a well-formed record.
  The same holds for the 500 branch of `handleMpesaC2BCallback`.
- Payload fields the source reads without checking are fields of the payload records.
  A body missing one of them (a JavaScript `undefined`) is not modelled, except for the
  C2B short codes and the Jenga signature and secret, which are `Option`s. An object
  spread whose supplied key holds `undefined` is not modelled either.
- Order ids are strings. In the source, the order ledger's `Map` compares keys by
  identity, so a numeric checkout `id` would never match the string `AccountReference`
  of a callback. The model cannot express that mismatch.
- server.js is not modelled: Express/HTTPS wiring, certificates, the second `res.json`
  after a handler has answered, and the fact that only `/order/c2b/callback` is
  registered, so neither routed C2B suffix is reachable in deployment.
  `C2B.RouteCallback` is a function of any path string.
- Concurrency is not modelled. Every operation runs sequentially to completion.
  The source has no locking or compare-and-set around the ledger.
