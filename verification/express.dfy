/** `handleMpesaExpressCallback` (utils.js): the M-Pesa Express (STK push) result callback. */
module Express {
  import opened Wrappers
  import opened Storefront
  import opened Http

  /** One `{Name, Value}` element of `CallbackMetadata.Item`. */
  datatype Item = Item(name: string, value: Scalar)

  /** The fields of `Body.stkCallback` that the handler reads. */
  datatype StkCallback = StkCallback(resultCode: int, resultDesc: string, accountReference: string, items: seq<Item>)

  /** The TypeError that `find(...).Value` raises when no item has the name. */
  const MissingItemError := "Cannot read properties of undefined (reading 'Value')"

  /** `items.find(item => item.Name === name)?.Value`: the value of the FIRST item with that name. */
  function FindItem(items: seq<Item>, name: string): (r: Option<Scalar>)
    ensures r.None? <==> forall i :: 0 <= i < |items| ==> items[i].name != name
    ensures r.Some? ==> exists i :: 0 <= i < |items| && items[i].name == name && items[i].value == r.value
                                   && forall j :: 0 <= j < i ==> items[j].name != name
  {
    if items == [] then None
    else if items[0].name == name then Some(items[0].value)
    else
      var r := FindItem(items[1..], name);
      assert r.Some? ==> exists i :: 1 <= i < |items| && items[i].name == name && items[i].value == r.value
                                    && forall j :: 1 <= j < i ==> items[j].name != name by {
        if r.Some? {
          var i :| 0 <= i < |items[1..]| && items[1..][i].name == name && items[1..][i].value == r.value
                   && forall j :: 0 <= j < i ==> items[1..][j].name != name;
          assert forall j :: 1 <= j < i + 1 ==> items[j].name != name by {
            forall j | 1 <= j < i + 1 ensures items[j].name != name {
              assert items[j] == items[1..][j - 1];
            }
          }
        }
      }
      assert r.None? ==> forall i :: 0 <= i < |items| ==> items[i].name != name by {
        if r.None? {
          forall i | 0 <= i < |items| ensures items[i].name != name {
            if i > 0 { assert items[i] == items[1..][i - 1]; }
          }
        }
      }
      r
  }

  /** The item a lookup returns is determined by the first one carrying the name; later duplicates are ignored. */
  lemma FirstMatchWins(items: seq<Item>, name: string, i: nat)
    requires i < |items| && items[i].name == name
    requires forall j :: 0 <= j < i ==> items[j].name != name
    ensures FindItem(items, name) == Some(items[i].value)
  {
    var r := FindItem(items, name);
    var k :| 0 <= k < |items| && items[k].name == name && items[k].value == r.value
             && forall j :: 0 <= j < k ==> items[j].name != name;
    assert k == i;
  }

  /** All three items the settlement needs are present. */
  predicate Complete(items: seq<Item>) {
    FindItem(items, "Amount").Some? && FindItem(items, "MpesaReceiptNumber").Some? && FindItem(items, "PhoneNumber").Some?
  }

  /** The storefront update a successful callback requests. */
  function SettlementUpdate(cb: StkCallback): (u: OrderUpdate)
    requires Complete(cb.items)
    ensures u.MpesaPaid? && u.orderId == cb.accountReference
    ensures Some(u.amount) == FindItem(cb.items, "Amount")
    ensures Some(u.mpesaReceiptNumber) == FindItem(cb.items, "MpesaReceiptNumber")
    ensures Some(u.phoneNumber) == FindItem(cb.items, "PhoneNumber")
  {
    MpesaPaid(cb.accountReference,
      FindItem(cb.items, "MpesaReceiptNumber").value,
      FindItem(cb.items, "Amount").value,
      FindItem(cb.items, "PhoneNumber").value)
  }

  /**
   * The handler. ResultCode 0 settles: one storefront update from the first `Amount`,
   * `MpesaReceiptNumber` and `PhoneNumber` items; a missing item makes the handler throw
   * before any update. Any other ResultCode answers with `ResultDesc` as the error.
   */
  function HandleCallback(cb: StkCallback, updateFails: bool): (h: Handled)
    ensures h.update.Some? <==> cb.resultCode == 0 && Complete(cb.items)
    ensures h.update.Some? ==>
      && h.update.value == SettlementUpdate(cb)
      && h.outcome == Replied(Response(OK, if updateFails then Failure("Failed to update order status") else SuccessNoMessage))
    ensures cb.resultCode == 0 && !Complete(cb.items) ==> h.outcome == Threw(MissingItemError)
    ensures cb.resultCode != 0 ==> h.outcome == Replied(Response(OK, Failure(cb.resultDesc)))
  {
    if cb.resultCode == 0 then
      var amount := FindItem(cb.items, "Amount");
      var receipt := FindItem(cb.items, "MpesaReceiptNumber");
      var phone := FindItem(cb.items, "PhoneNumber");
      if amount.None? || receipt.None? || phone.None? then
        Handled(Threw(MissingItemError), None)
      else
        var update := MpesaPaid(cb.accountReference, receipt.value, amount.value, phone.value);
        Handled(Replied(Response(OK, if updateFails then Failure("Failed to update order status") else SuccessNoMessage)), Some(update))
    else
      Handled(Replied(Response(OK, Failure(cb.resultDesc))), None)
  }

  /** A failed payment never reaches the storefront, whatever its metadata and whatever the storefront would do. */
  lemma FailedPaymentNoUpdate(cb: StkCallback, f1: bool, f2: bool)
    requires cb.resultCode != 0
    ensures HandleCallback(cb, f1) == HandleCallback(cb, f2)
    ensures HandleCallback(cb, f1).update == None
  {
  }
}
