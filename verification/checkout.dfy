/**
 * Payment initiation as `processPayment` (utils.js) does it: pick a provider from the
 * first gateway name, normalise the billing phone, call the provider, and wrap every
 * failure into `{success: false, error}`. The provider registry is `paymentProviders`
 * (paymentProviders.js).
 */
module Checkout {
  import opened Wrappers
  import opened Text
  import opened Phone
  import opened Ledger

  datatype ProviderKind = MpesaExpress | MpesaC2B | JengaCheckout

  /** The provider's `name`, which a successful result reports as `provider`. */
  function DisplayName(k: ProviderKind): (name: string)
    ensures k == MpesaExpress <==> name == "M-Pesa Express"
    ensures k == MpesaC2B <==> name == "M-Pesa C2B"
    ensures k == JengaCheckout <==> name == "Jenga"
  {
    match k
    case MpesaExpress => "M-Pesa Express"
    case MpesaC2B => "M-Pesa C2B"
    case JengaCheckout => "Jenga"
  }

  /** The key of each provider in the `paymentProviders` registry. */
  function RegistryKey(k: ProviderKind): string {
    match k
    case MpesaExpress => "mpesa-express"
    case MpesaC2B => "mpesa-c2b"
    case JengaCheckout => "jenga"
  }

  /** `paymentProviders[key]`. */
  function Registry(key: string): (r: Option<ProviderKind>)
    ensures r.Some? ==> RegistryKey(r.value) == key
  {
    if key == "mpesa-express" then Some(MpesaExpress)
    else if key == "mpesa-c2b" then Some(MpesaC2B)
    else if key == "jenga" then Some(JengaCheckout)
    else None
  }

  /** Every provider is reachable under its own key. */
  lemma RegistryRoundTrip(k: ProviderKind)
    ensures Registry(RegistryKey(k)) == Some(k)
  {
  }

  /** The `switch` on the lower-cased gateway name; anything else is unsupported (no default provider). */
  function SelectProvider(name: string): (r: Option<ProviderKind>)
    ensures r == Some(MpesaExpress) <==> ToLower(name) == "m-pesa express"
    ensures r == Some(MpesaC2B) <==> ToLower(name) == "m-pesa c2b"
    ensures r == Some(JengaCheckout) <==> ToLower(name) == "jenga"
  {
    var lowered := ToLower(name);
    if lowered == "m-pesa express" then Registry("mpesa-express")
    else if lowered == "m-pesa c2b" then Registry("mpesa-c2b")
    else if lowered == "jenga" then Registry("jenga")
    else None
  }

  /** Selection ignores letter case: a name and its lower case select the same provider. */
  lemma SelectIgnoresCase(name: string)
    ensures SelectProvider(ToLower(name)) == SelectProvider(name)
  {
    ToLowerIdempotent(name);
  }

  /** The customer details passed to the provider. */
  datatype Customer = Customer(name: Option<string>, email: Option<string>, phone: Option<string>)

  /** The `orderDetails` object passed to `initializePayment`. */
  datatype InitRequest = InitRequest(
    phoneNumber: Option<string>, amount: Money, orderId: OrderId, currency: Option<string>, customer: Customer)

  /** The parts of the checkout payload that `processPayment` reads; `totalPrice` is already parsed. */
  datatype CheckoutOrder = CheckoutOrder(
    gatewayNames: seq<string>,
    billingPhone: Option<string>,
    billingName: Option<string>,
    email: Option<string>,
    totalPrice: Money,
    id: OrderId,
    currency: Option<string>)

  /** The billing phone is normalised only when it is truthy: absent and empty phones pass through unchanged. */
  function BillingPhone(phone: Option<string>): (r: Option<string>)
    ensures r.Some? <==> phone.Some?
    ensures phone == Some("") ==> r == phone
    ensures phone.Some? && phone.value != "" ==> r == Some(FormatPhoneNumber(phone.value))
    ensures phone.Some? && phone.value != "" ==> AllDigits(r.value) && StartsWith(r.value, CountryCode)
  {
    if phone.Some? && phone.value != "" then Some(FormatPhoneNumber(phone.value)) else phone
  }

  /** Normalising the billing phone a second time changes nothing. */
  lemma BillingPhoneIdempotent(phone: Option<string>)
    ensures BillingPhone(BillingPhone(phone)) == BillingPhone(phone)
  {
    if phone.Some? && phone.value != "" {
      FormatIdempotent(phone.value);
    }
  }

  /** The request `processPayment` hands to the selected provider. */
  function PaymentRequest(order: CheckoutOrder): (req: InitRequest)
    ensures req.phoneNumber == req.customer.phone == BillingPhone(order.billingPhone)
    ensures req.amount == order.totalPrice && req.orderId == order.id && req.currency == order.currency
    ensures req.customer.name == order.billingName && req.customer.email == order.email
  {
    var phone := BillingPhone(order.billingPhone);
    InitRequest(phone, order.totalPrice, order.id, order.currency, Customer(order.billingName, order.email, phone))
  }

  /** What `processPayment` returns: `{success: true, provider, ...response}` or `{success: false, error}`. */
  datatype PaymentResult<F> = Initiated(provider: string, response: F) | PaymentFailed(error: string)

  /** The TypeError raised by `undefined.toLowerCase()` when the payload names no gateway. */
  const NoGatewayError := "Cannot read properties of undefined (reading 'toLowerCase')"

  /**
   * `processPayment`, with the selected provider's `initializePayment` as `initialize`
   * (its thrown error is `Err(message)`). The provider is only called once it is selected.
   */
  function ProcessPayment<F>(order: CheckoutOrder, initialize: (ProviderKind, InitRequest) -> Result<F>): (r: PaymentResult<F>)
    ensures r.Initiated? <==>
      |order.gatewayNames| > 0 && SelectProvider(order.gatewayNames[0]).Some?
      && initialize(SelectProvider(order.gatewayNames[0]).value, PaymentRequest(order)).Ok?
    ensures r.Initiated? ==>
      var k := SelectProvider(order.gatewayNames[0]).value;
      r == Initiated(DisplayName(k), initialize(k, PaymentRequest(order)).value)
    ensures |order.gatewayNames| == 0 ==> r == PaymentFailed(NoGatewayError)
    ensures |order.gatewayNames| > 0 && SelectProvider(order.gatewayNames[0]).None? ==>
      r == PaymentFailed("Unsupported payment method: " + order.gatewayNames[0])
    ensures |order.gatewayNames| > 0 && SelectProvider(order.gatewayNames[0]).Some? ==>
      var out := initialize(SelectProvider(order.gatewayNames[0]).value, PaymentRequest(order));
      out.Err? ==> r == PaymentFailed(out.message)
  {
    if |order.gatewayNames| == 0 then
      PaymentFailed(NoGatewayError)
    else
      var name := order.gatewayNames[0];
      match SelectProvider(name)
      case None => PaymentFailed("Unsupported payment method: " + name)
      case Some(k) =>
        match initialize(k, PaymentRequest(order))
        case Ok(response) => Initiated(DisplayName(k), response)
        case Err(message) => PaymentFailed(message)
  }

  /** An unsupported method never reaches a provider: the result is the same whatever the providers would do. */
  lemma UnsupportedNeverInitiates<F>(order: CheckoutOrder,
                                     i1: (ProviderKind, InitRequest) -> Result<F>, i2: (ProviderKind, InitRequest) -> Result<F>)
    requires |order.gatewayNames| > 0 && SelectProvider(order.gatewayNames[0]).None?
    ensures ProcessPayment(order, i1) == ProcessPayment(order, i2)
    ensures ProcessPayment(order, i1).PaymentFailed?
  {
  }

  /** Only the first gateway name matters: later names are never a fallback. */
  lemma OnlyFirstGatewayCounts<F>(order: CheckoutOrder, rest: seq<string>, initialize: (ProviderKind, InitRequest) -> Result<F>)
    requires |order.gatewayNames| > 0
    ensures ProcessPayment(order.(gatewayNames := [order.gatewayNames[0]] + rest), initialize) == ProcessPayment(order, initialize)
  {
  }
}
