/**
 * The in-memory order ledger of paymentProviders.js: `global.orderStore`, a map from
 * order id to an entry object, with `storeOrderDetails`, `getOrderDetails` and
 * `updateOrderPayment`.
 */
module Ledger {
  import opened Wrappers

  type OrderId = string

  /**
   * An amount after `parseFloat`, in minor currency units. `NotANumber` is the NaN that
   * `parseFloat` yields for a missing or unparseable value.
   */
  datatype Money = Amount(minor: int) | NotANumber

  /** JavaScript's `!==`-negated comparison of two parsed numbers: NaN equals nothing, not even itself. */
  predicate NumericEqual(a: Money, b: Money)
    ensures NumericEqual(a, b) <==> a == b && a != NotANumber
  {
    a.Amount? && b.Amount? && a.minor == b.minor
  }

  /** The values the code stores under `status`. */
  datatype Status = Pending | Completed

  /**
   * A ledger entry: an object whose keys may be absent (`None`). Initiation writes
   * amount, phoneNumber, timestamp and status; confirmation adds transactionId.
   */
  datatype Entry = Entry(
    amount: Option<Money>,
    phoneNumber: Option<string>,
    timestamp: Option<string>,
    status: Option<Status>,
    transactionId: Option<string>)

  /** The entry written when a C2B payment is initiated. */
  function PendingEntry(amount: Money, phoneNumber: Option<string>, timestamp: string): (e: Entry)
    ensures e.status == Some(Pending) && e.transactionId == None
    ensures e.amount == Some(amount) && e.phoneNumber == phoneNumber && e.timestamp == Some(timestamp)
  {
    Entry(Some(amount), phoneNumber, Some(timestamp), Some(Pending), None)
  }

  /** `{...entry, ...patch}`: every key the patch supplies replaces the entry's; the others are kept. */
  function Merge(entry: Entry, patch: Entry): (r: Entry)
    ensures patch.amount.Some? ==> r.amount == patch.amount
    ensures patch.amount.None? ==> r.amount == entry.amount
    ensures patch.phoneNumber.Some? ==> r.phoneNumber == patch.phoneNumber
    ensures patch.phoneNumber.None? ==> r.phoneNumber == entry.phoneNumber
    ensures patch.timestamp.Some? ==> r.timestamp == patch.timestamp
    ensures patch.timestamp.None? ==> r.timestamp == entry.timestamp
    ensures patch.status.Some? ==> r.status == patch.status
    ensures patch.status.None? ==> r.status == entry.status
    ensures patch.transactionId.Some? ==> r.transactionId == patch.transactionId
    ensures patch.transactionId.None? ==> r.transactionId == entry.transactionId
  {
    Entry(
      if patch.amount.Some? then patch.amount else entry.amount,
      if patch.phoneNumber.Some? then patch.phoneNumber else entry.phoneNumber,
      if patch.timestamp.Some? then patch.timestamp else entry.timestamp,
      if patch.status.Some? then patch.status else entry.status,
      if patch.transactionId.Some? then patch.transactionId else entry.transactionId)
  }

  /** Merging the same patch twice is the same as merging it once. */
  lemma MergeIdempotent(entry: Entry, patch: Entry)
    ensures Merge(Merge(entry, patch), patch) == Merge(entry, patch)
  {
  }

  /** The map after `updateOrderPayment(id, patch)`: the entry is merged when present, nothing happens otherwise. */
  function PatchAt(entries: map<OrderId, Entry>, id: OrderId, patch: Entry): (r: map<OrderId, Entry>)
    ensures r.Keys == entries.Keys
    ensures id in entries ==> r[id] == Merge(entries[id], patch)
    ensures forall k :: k in entries && k != id ==> r[k] == entries[k]
  {
    if id in entries then entries[id := Merge(entries[id], patch)] else entries
  }

  /** An update for an order that was never stored leaves the ledger exactly as it was. */
  lemma PatchAtUnknownIsNoOp(entries: map<OrderId, Entry>, id: OrderId, patch: Entry)
    requires id !in entries
    ensures PatchAt(entries, id, patch) == entries
  {
  }

  /**
   * The shared order store. `initialised` is whether `global.orderStore` has been
   * created; until then it holds nothing.
   */
  class OrderStore {
    var initialised: bool
    var entries: map<OrderId, Entry>

    ghost predicate Valid()
      reads this
    {
      !initialised ==> entries == map[]
    }

    /** A process that has not yet created `global.orderStore`. */
    constructor ()
      ensures Valid() && !initialised && entries == map[]
    {
      initialised := false;
      entries := map[];
    }

    /** `storeOrderDetails`: create the store if needed, then set (or overwrite) the entry for `id`. */
    method StoreOrderDetails(id: OrderId, details: Entry)
      requires Valid()
      modifies this
      ensures Valid() && initialised
      ensures entries == old(entries)[id := details]
    {
      if !initialised {
        initialised := true;
        entries := map[];
      }
      entries := entries[id := details];
    }

    /** `getOrderDetails`: the entry for `id`, or nothing (also when the store was never created). */
    method GetOrderDetails(id: OrderId) returns (r: Option<Entry>)
      requires Valid()
      ensures r.Some? <==> id in entries
      ensures r.Some? ==> r.value == entries[id]
      ensures !initialised ==> r == None
    {
      if !initialised {
        return None;
      }
      r := if id in entries then Some(entries[id]) else None;
    }

    /** `updateOrderPayment`: merge `patch` into an existing entry; an unknown id (or no store) changes nothing. */
    method UpdateOrderPayment(id: OrderId, patch: Entry)
      requires Valid()
      modifies this
      ensures Valid() && initialised == old(initialised)
      ensures entries == PatchAt(old(entries), id, patch)
    {
      if !initialised {
        return;
      }
      if id in entries {
        entries := entries[id := Merge(entries[id], patch)];
      }
    }
  }
}
