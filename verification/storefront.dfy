/**
 * The storefront order update (`updateShopifyOrder`, in both paymentProviders.js and
 * utils.js) as an external effect: each call is appended to a log and may fail.
 */
module Storefront {
  import opened Ledger

  /** A JSON scalar taken from a payment callback and passed on to the storefront. */
  datatype Scalar = Text(s: string) | Number(m: Money)

  /** The payment details handed to the storefront; every update marks the order `paid`. */
  datatype OrderUpdate =
    | MpesaPaid(orderId: string, mpesaReceiptNumber: Scalar, amount: Scalar, phoneNumber: Scalar)
    | JengaPaid(orderId: string, transactionId: Scalar, amount: Scalar, currency: Scalar, paymentDetails: Scalar)

  /** The storefront as seen from this core: the calls it has received, in order. */
  class Shop {
    var updates: seq<OrderUpdate>

    constructor ()
      ensures updates == []
    {
      updates := [];
    }

    /**
     * One call of `updateShopifyOrder`. The call is made (and logged) whether or not the
     * remote update then fails; `fails` stands for the HTTP error it would rethrow.
     */
    method UpdateOrder(u: OrderUpdate, fails: bool) returns (ok: bool)
      modifies this
      ensures updates == old(updates) + [u]
      ensures ok == !fails
    {
      updates := updates + [u];
      ok := !fails;
    }
  }
}
