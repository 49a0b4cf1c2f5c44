/**
 * The M-Pesa C2B provider of paymentProviders.js (`mpesaC2BProvider`): the ledger
 * bookkeeping of `initializePayment`, the validation gate `validatePayment`, the
 * confirmation `confirmPayment`, and the routing of `handleMpesaC2BCallback` (utils.js).
 */
module C2B {
  import opened Wrappers
  import opened Text
  import opened Ledger
  import opened Storefront
  import opened Http

  /** `ResultCode` is a string (`"C2B00010"`) on validation rejections and a number elsewhere. */
  datatype ResultCode = Numeric(n: int) | Code(s: string)

  datatype C2BResult = C2BResult(resultCode: ResultCode, resultDesc: string)

  /**
   * The fields of a C2B callback body that the core reads. Validation reads
   * `AccountReference`, confirmation reads `BillRefNumber`; `TransAmount` is already parsed.
   */
  datatype C2BPayload = C2BPayload(
    transId: string,
    transAmount: Money,
    businessShortCode: Option<string>,
    billRefNumber: OrderId,
    accountReference: OrderId,
    msisdn: string)

  const InvalidShortCode := C2BResult(Code("C2B00010"), "Invalid business short code")
  const InvalidAccount := C2BResult(Code("C2B00011"), "Invalid account number")
  const InvalidAmount := C2BResult(Code("C2B00012"), "Invalid amount")
  const Accepted := C2BResult(Numeric(0), "Accepted")

  const ConfirmShortCodeRejected := C2BResult(Numeric(1), "Invalid business short code")
  const ConfirmFailed := C2BResult(Numeric(1), "Failed to process payment")
  const ConfirmSucceeded := C2BResult(Numeric(0), "Success")

  const InvalidCallbackType := C2BResult(Numeric(1), "Invalid callback type")

  /** `parseFloat(orderDetails.amount)`: a missing amount parses to NaN. */
  function StoredAmount(e: Entry): (m: Money)
    ensures e.amount.Some? ==> m == e.amount.value
    ensures e.amount.None? ==> m == NotANumber
  {
    if e.amount.Some? then e.amount.value else NotANumber
  }

  /**
   * `validatePayment`, with the configured short code `shortCode` and the ledger's map:
   * the short code is checked first, then the ledger entry of `AccountReference`, then the amount.
   */
  function ValidatePayment(shortCode: Option<string>, entries: map<OrderId, Entry>, p: C2BPayload): (r: C2BResult)
    ensures r == Accepted <==>
      p.businessShortCode == shortCode && p.accountReference in entries
      && NumericEqual(p.transAmount, StoredAmount(entries[p.accountReference]))
    ensures p.businessShortCode != shortCode ==> r == InvalidShortCode
    ensures p.businessShortCode == shortCode && p.accountReference !in entries ==> r == InvalidAccount
    ensures
      (&& p.businessShortCode == shortCode && p.accountReference in entries
       && !NumericEqual(p.transAmount, StoredAmount(entries[p.accountReference])))
      ==> r == InvalidAmount
    ensures r in {Accepted, InvalidShortCode, InvalidAccount, InvalidAmount}
  {
    if p.businessShortCode != shortCode then InvalidShortCode
    else if p.accountReference !in entries then InvalidAccount
    else if !NumericEqual(p.transAmount, StoredAmount(entries[p.accountReference])) then InvalidAmount
    else Accepted
  }

  /** A short-code mismatch is decided before the ledger is consulted: its answer is the same for every ledger. */
  lemma ShortCodeCheckedFirst(shortCode: Option<string>, e1: map<OrderId, Entry>, e2: map<OrderId, Entry>, p: C2BPayload)
    requires p.businessShortCode != shortCode
    ensures ValidatePayment(shortCode, e1, p) == ValidatePayment(shortCode, e2, p) == InvalidShortCode
  {
  }

  /** Validation only depends on the entry of the referenced account: changes to other orders do not affect it. */
  lemma ValidateIsLocal(shortCode: Option<string>, entries: map<OrderId, Entry>, other: OrderId, e: Entry, p: C2BPayload)
    requires other != p.accountReference
    ensures ValidatePayment(shortCode, entries[other := e], p) == ValidatePayment(shortCode, entries, p)
  {
  }

  /** An amount that does not parse is never accepted, whatever the ledger holds. */
  lemma UnparseableAmountRejected(shortCode: Option<string>, entries: map<OrderId, Entry>, p: C2BPayload)
    requires p.transAmount == NotANumber
    ensures ValidatePayment(shortCode, entries, p) != Accepted
  {
  }

  /** The patch `confirmPayment` merges into the ledger. */
  function ConfirmationPatch(p: C2BPayload): (patch: Entry)
    ensures patch.status == Some(Completed) && patch.transactionId == Some(p.transId)
    ensures patch.amount == Some(p.transAmount) && patch.phoneNumber == Some(p.msisdn)
    ensures patch.timestamp == None
  {
    Entry(Some(p.transAmount), Some(p.msisdn), None, Some(Completed), Some(p.transId))
  }

  /** The storefront update `confirmPayment` requests. */
  function ConfirmationUpdate(p: C2BPayload): (u: OrderUpdate)
    ensures u.MpesaPaid? && u.orderId == p.billRefNumber
    ensures u.mpesaReceiptNumber == Text(p.transId) && u.amount == Number(p.transAmount) && u.phoneNumber == Text(p.msisdn)
  {
    MpesaPaid(p.billRefNumber, Text(p.transId), Number(p.transAmount), Text(p.msisdn))
  }

  /**
   * `confirmPayment`. On a short-code match the ledger entry of `BillRefNumber` (if any) is
   * marked completed BEFORE the storefront is called; a failing storefront call turns the
   * answer into ResultCode 1 but the ledger change stays. Nothing is checked about the entry's
   * existence, its amount or an earlier confirmation.
   */
  method ConfirmPayment(shortCode: Option<string>, ledger: OrderStore, shop: Shop, p: C2BPayload, shopFails: bool)
    returns (r: C2BResult)
    requires ledger.Valid()
    modifies ledger, shop
    ensures ledger.Valid() && ledger.initialised == old(ledger.initialised)
    ensures p.businessShortCode != shortCode ==>
      r == ConfirmShortCodeRejected && ledger.entries == old(ledger.entries) && shop.updates == old(shop.updates)
    ensures p.businessShortCode == shortCode ==>
      && ledger.entries == PatchAt(old(ledger.entries), p.billRefNumber, ConfirmationPatch(p))
      && shop.updates == old(shop.updates) + [ConfirmationUpdate(p)]
      && r == (if shopFails then ConfirmFailed else ConfirmSucceeded)
  {
    if p.businessShortCode != shortCode {
      return ConfirmShortCodeRejected;
    }
    ledger.UpdateOrderPayment(p.billRefNumber, ConfirmationPatch(p));
    var ok := shop.UpdateOrder(ConfirmationUpdate(p), shopFails);
    r := if ok then ConfirmSucceeded else ConfirmFailed;
  }

  /** After confirmation the entry is completed with the payload's transaction, and keeps its timestamp. */
  lemma ConfirmedEntry(entries: map<OrderId, Entry>, p: C2BPayload)
    requires p.billRefNumber in entries
    ensures var e := PatchAt(entries, p.billRefNumber, ConfirmationPatch(p))[p.billRefNumber];
      && e.status == Some(Completed) && e.transactionId == Some(p.transId)
      && e.amount == Some(p.transAmount) && e.phoneNumber == Some(p.msisdn)
      && e.timestamp == entries[p.billRefNumber].timestamp
  {
  }

  /**
   * A second confirmation with a different transaction overwrites the first: the ledger
   * records the later transaction, so confirmation is not idempotent.
   */
  lemma RepeatedConfirmationOverwrites(entries: map<OrderId, Entry>, p1: C2BPayload, p2: C2BPayload)
    requires p1.billRefNumber == p2.billRefNumber && p1.billRefNumber in entries
    ensures var once := PatchAt(entries, p1.billRefNumber, ConfirmationPatch(p1));
      PatchAt(once, p2.billRefNumber, ConfirmationPatch(p2))[p2.billRefNumber].transactionId == Some(p2.transId)
  {
  }

  /** Confirming the same payload twice leaves the ledger as one confirmation did (but calls the storefront twice). */
  lemma RepeatedConfirmationLedgerStable(entries: map<OrderId, Entry>, p: C2BPayload)
    ensures var once := PatchAt(entries, p.billRefNumber, ConfirmationPatch(p));
      PatchAt(once, p.billRefNumber, ConfirmationPatch(p)) == once
  {
  }

  /**
   * The timestamp `new Date().toISOString().replace(/[^0-9]/g, "").slice(0, -3)`, given the ISO
   * string: its digits without the last three (for fewer than three digits, the empty string).
   */
  function Timestamp(iso: string): (r: string)
    ensures AllDigits(r)
    ensures |Digits(iso)| >= 3 ==> |r| == |Digits(iso)| - 3
    ensures |Digits(iso)| < 3 ==> r == ""
    ensures r <= Digits(iso)
  {
    var d := Digits(iso);
    if |d| >= 3 then d[..|d| - 3] else ""
  }

  /** An ISO-8601 instant `YYYY-MM-DDTHH:mm:ss.sssZ` assembled from its digit fields. */
  function IsoString(year: string, month: string, day: string, hour: string, minute: string, second: string, millis: string): string {
    year + "-" + month + "-" + day + "T" + hour + ":" + minute + ":" + second + "." + millis + "Z"
  }

  /** One step through the ISO string: a separator and a digit field extend the digits by that field. */
  lemma DigitsThroughField(prefix: string, sep: char, field: string)
    requires !IsDigit(sep) && AllDigits(field)
    ensures Digits(prefix + [sep] + field) == Digits(prefix) + field
  {
    DigitsAppend(prefix + [sep], field);
    DigitsAppend(prefix, [sep]);
    DigitsOfDigits(field);
  }

  /** For an ISO instant, the timestamp is `yyyyMMddHHmmss`: the milliseconds are dropped. */
  lemma TimestampOfIso(year: string, month: string, day: string, hour: string, minute: string, second: string, millis: string)
    requires AllDigits(year) && AllDigits(month) && AllDigits(day)
    requires AllDigits(hour) && AllDigits(minute) && AllDigits(second) && AllDigits(millis)
    requires |millis| == 3
    ensures Timestamp(IsoString(year, month, day, hour, minute, second, millis))
      == year + month + day + hour + minute + second
  {
    DigitsOfDigits(year);
    var s1 := year + "-" + month;
    DigitsThroughField(year, '-', month);
    var s2 := s1 + "-" + day;
    DigitsThroughField(s1, '-', day);
    var s3 := s2 + "T" + hour;
    DigitsThroughField(s2, 'T', hour);
    var s4 := s3 + ":" + minute;
    DigitsThroughField(s3, ':', minute);
    var s5 := s4 + ":" + second;
    DigitsThroughField(s4, ':', second);
    var s6 := s5 + "." + millis;
    DigitsThroughField(s5, '.', millis);
    DigitsAppend(s6, "Z");
    var stamp := year + month + day + hour + minute + second;
    assert Digits(s6 + "Z") == stamp + millis;
    assert IsoString(year, month, day, hour, minute, second, millis) == s6 + "Z";
    assert (stamp + millis)[..|stamp + millis| - 3] == stamp;
  }

  /** The paybill instructions `initializePayment` returns (its `message` text is not modelled). */
  datatype PaybillInstructions = PaybillInstructions(
    paybillNumber: Option<string>,
    accountNumber: OrderId,
    amount: Money,
    phoneNumber: Option<string>,
    orderId: OrderId,
    timestamp: string)

  /** What the payment backend did with the calls `initializePayment` makes: `None` is success, `Some(e)` an error message. */
  datatype BackendOutcome = BackendOutcome(token: Result<string>, register: Option<string>, simulate: Option<string>)

  /**
   * The bookkeeping of `initializePayment`: the token fetch (outside the try block, so its
   * error is not re-wrapped), URL registration, the sandbox simulation when `development`,
   * then the `pending` ledger entry and the paybill instructions.
   */
  method InitializePayment(
    shortCode: Option<string>, ledger: OrderStore, orderId: OrderId, amount: Money, phoneNumber: Option<string>,
    iso: string, backend: BackendOutcome, development: bool)
    returns (r: Result<PaybillInstructions>)
    requires ledger.Valid()
    modifies ledger
    ensures ledger.Valid()
    ensures backend.token.Err? ==>
      r == Err("Failed to get access token: " + backend.token.message) && ledger.entries == old(ledger.entries)
    ensures backend.token.Ok? && backend.register.Some? ==>
      r == Err("M-Pesa C2B payment failed: " + backend.register.value) && ledger.entries == old(ledger.entries)
    ensures backend.token.Ok? && backend.register.None? && development && backend.simulate.Some? ==>
      r == Err("M-Pesa C2B payment failed: " + backend.simulate.value) && ledger.entries == old(ledger.entries)
    ensures r.Ok? <==> backend.token.Ok? && backend.register.None? && (development ==> backend.simulate.None?)
    ensures r.Ok? ==>
      && ledger.entries == old(ledger.entries)[orderId := PendingEntry(amount, phoneNumber, Timestamp(iso))]
      && r.value == PaybillInstructions(shortCode, orderId, amount, phoneNumber, orderId, Timestamp(iso))
  {
    if backend.token.Err? {
      return Err("Failed to get access token: " + backend.token.message);
    }
    var timestamp := Timestamp(iso);
    if backend.register.Some? {
      return Err("M-Pesa C2B payment failed: " + backend.register.value);
    }
    if development && backend.simulate.Some? {
      return Err("M-Pesa C2B payment failed: " + backend.simulate.value);
    }
    ledger.StoreOrderDetails(orderId, PendingEntry(amount, phoneNumber, timestamp));
    r := Ok(PaybillInstructions(shortCode, orderId, amount, phoneNumber, orderId, timestamp));
  }

  /** After initiation, a payment with the configured short code, the order as reference and the same amount is accepted. */
  lemma InitiatedOrderValidates(
    shortCode: Option<string>, entries: map<OrderId, Entry>, orderId: OrderId, minor: int,
    phoneNumber: Option<string>, timestamp: string, p: C2BPayload)
    requires p.businessShortCode == shortCode && p.accountReference == orderId
    ensures var ledger := entries[orderId := PendingEntry(Amount(minor), phoneNumber, timestamp)];
      ValidatePayment(shortCode, ledger, p) == (if p.transAmount == Amount(minor) then Accepted else InvalidAmount)
  {
  }

  /** Which C2B callback a route path names. */
  datatype CallbackKind = Validation | Confirmation | UnknownCallback

  /** The routing of `handleMpesaC2BCallback`: a `/validation` suffix is tested first, then `/confirmation`. */
  function RouteCallback(path: string): (k: CallbackKind)
    ensures k == Validation <==> EndsWith(path, "/validation")
    ensures k == Confirmation <==> EndsWith(path, "/confirmation")
    ensures k == UnknownCallback <==> !EndsWith(path, "/validation") && !EndsWith(path, "/confirmation")
  {
    RouteSuffixesExclusive(path);
    if EndsWith(path, "/validation") then
      Validation
    else if EndsWith(path, "/confirmation") then
      Confirmation
    else
      UnknownCallback
  }

  /** The two suffixes exclude each other, so the order of the two tests does not matter. */
  lemma RouteSuffixesExclusive(path: string)
    ensures !(EndsWith(path, "/validation") && EndsWith(path, "/confirmation"))
  {
    if EndsWith(path, "/validation") {
      EndsWithExcludes(path, "/validation", "/confirmation", 5);
    }
  }

  /**
   * `handleMpesaC2BCallback`: validation answers from the ledger without touching it or
   * the storefront; confirmation runs `ConfirmPayment`; any other path is a 400.
   */
  method HandleCallback(shortCode: Option<string>, ledger: OrderStore, shop: Shop, path: string, p: C2BPayload, shopFails: bool)
    returns (resp: Response<C2BResult>)
    requires ledger.Valid()
    modifies ledger, shop
    ensures ledger.Valid()
    ensures RouteCallback(path) != Confirmation ==>
      ledger.entries == old(ledger.entries) && shop.updates == old(shop.updates)
    ensures RouteCallback(path) == Validation ==>
      resp == Response(OK, ValidatePayment(shortCode, old(ledger.entries), p))
    ensures RouteCallback(path) == Confirmation && p.businessShortCode != shortCode ==>
      && resp == Response(OK, ConfirmShortCodeRejected)
      && ledger.entries == old(ledger.entries) && shop.updates == old(shop.updates)
    ensures RouteCallback(path) == Confirmation && p.businessShortCode == shortCode ==>
      && resp == Response(OK, if shopFails then ConfirmFailed else ConfirmSucceeded)
      && ledger.entries == PatchAt(old(ledger.entries), p.billRefNumber, ConfirmationPatch(p))
      && shop.updates == old(shop.updates) + [ConfirmationUpdate(p)]
    ensures RouteCallback(path) == UnknownCallback ==> resp == Response(BadRequest, InvalidCallbackType)
  {
    match RouteCallback(path)
    case Validation =>
      resp := Response(OK, ValidatePayment(shortCode, ledger.entries, p));
    case Confirmation =>
      var r := ConfirmPayment(shortCode, ledger, shop, p, shopFails);
      resp := Response(OK, r);
    case UnknownCallback =>
      resp := Response(BadRequest, InvalidCallbackType);
  }
}
