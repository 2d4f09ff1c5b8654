/** The three stores the fulfilment path writes, seen as values: the event
    store (map eventId -> record), the order ledger (a table of order rows
    in insertion order) and the license registry (a table of key records,
    the position of a record being its id). Each Convex mutation the webhook
    calls is a function from one store value to the next. The Convex
    functions themselves are not part of this model; what each does is
    read off how pages/api/webhook.js and pages/api/license.js use it. */
module Ledger {
  import opened Wrappers
  import opened LicenseKeys

  /** The id of a license-key record (its position in the registry). */
  type KeyId = nat

  datatype Order = Order(
    orderId: string,
    customerEmail: string,
    customerName: string,
    amount: Option<int>,
    currency: Option<string>,
    productId: string,
    priceId: string,
    status: string,
    paymentIntentId: Option<string>,
    checkoutSessionId: Option<string>,
    licenseKeyId: Option<KeyId>,
    source: string)

  datatype KeyRecord = KeyRecord(key: string, source: string, tier: string, notes: string)

  datatype EventRecord = EventRecord(eventType: string, processed: bool, error: Option<string>)

  datatype Stores = Stores(
    events: map<string, EventRecord>,
    orders: seq<Order>,
    licenses: seq<KeyRecord>)

  // ------------------------------------------------------------ order table

  /** The position of the first row with this orderId, `|orders|` if none. */
  function FindOrder(orders: seq<Order>, orderId: string): (r: nat)
    ensures r <= |orders|
    ensures r < |orders| ==> orders[r].orderId == orderId
    ensures forall k :: 0 <= k < r ==> orders[k].orderId != orderId
  {
    if |orders| == 0 then 0
    else if orders[0].orderId == orderId then 0
    else 1 + FindOrder(orders[1..], orderId)
  }

  /** `stripe:getOrder`: the row with this orderId, or null. */
  function GetOrder(s: Stores, orderId: string): (r: Option<Order>)
    ensures r.None? <==> forall k :: 0 <= k < |s.orders| ==> s.orders[k].orderId != orderId
    ensures r.Some? ==> r.value in s.orders && r.value.orderId == orderId
  {
    var i := FindOrder(s.orders, orderId);
    if i < |s.orders| then Some(s.orders[i]) else None
  }

  /** Appending a row for an orderId no earlier row carries makes the new row
      the one lookups find. */
  lemma FindAfterAppend(orders: seq<Order>, o: Order, orderId: string)
    requires o.orderId == orderId && forall k :: 0 <= k < |orders| ==> orders[k].orderId != orderId
    ensures FindOrder(orders + [o], orderId) == |orders|
  {
    var t := orders + [o];
    var r := FindOrder(t, orderId);
    assert t[|orders|].orderId == orderId;
  }

  /** How many rows carry this orderId. */
  function CountOrders(orders: seq<Order>, orderId: string): nat {
    if |orders| == 0 then 0
    else CountOrders(orders[..|orders| - 1], orderId) + (if orders[|orders| - 1].orderId == orderId then 1 else 0)
  }

  lemma CountAppend(orders: seq<Order>, o: Order, orderId: string)
    ensures CountOrders(orders + [o], orderId) == CountOrders(orders, orderId) + (if o.orderId == orderId then 1 else 0)
  {
    assert (orders + [o])[..|orders|] == orders;
  }

  /** Replacing a row by one with the same orderId keeps every count. */
  lemma {:induction false} CountPatch(orders: seq<Order>, k: nat, o: Order, orderId: string)
    requires k < |orders| && o.orderId == orders[k].orderId
    ensures CountOrders(orders[k := o], orderId) == CountOrders(orders, orderId)
  {
    var n := |orders|;
    var p := orders[k := o];
    assert p[..n - 1] == if k < n - 1 then orders[..n - 1][k := o] else orders[..n - 1];
    if k < n - 1 {
      CountPatch(orders[..n - 1], k, o, orderId);
    }
  }

  /** Two tables with the same orderId in every row have the same counts. */
  lemma {:induction false} CountSameIds(a: seq<Order>, b: seq<Order>, orderId: string)
    requires |a| == |b| && forall k :: 0 <= k < |a| ==> a[k].orderId == b[k].orderId
    ensures CountOrders(a, orderId) == CountOrders(b, orderId)
  {
    if |a| > 0 {
      CountSameIds(a[..|a| - 1], b[..|b| - 1], orderId);
    }
  }

  /** No row carries the orderId exactly when the count is zero. */
  lemma {:induction false} CountZero(orders: seq<Order>, orderId: string)
    ensures CountOrders(orders, orderId) == 0 <==> forall k :: 0 <= k < |orders| ==> orders[k].orderId != orderId
  {
    if |orders| > 0 {
      CountZero(orders[..|orders| - 1], orderId);
      assert forall k :: 0 <= k < |orders| - 1 ==> orders[..|orders| - 1][k] == orders[k];
    }
  }

  // -------------------------------------------------------------- mutations

  /** `stripe:storeWebhookEvent` with processed=false: the record for the
      event id is (re)written, whatever was stored under it before. */
  function StoreWebhookEvent(s: Stores, eventId: string, eventType: string): Stores {
    s.(events := s.events[eventId := EventRecord(eventType, false, None)])
  }

  /** `stripe:markWebhookProcessed`: sets the processed flag and the error of
      a stored event; an event that was never stored is left absent. */
  function MarkWebhookProcessed(s: Stores, eventId: string, success: bool, error: Option<string>): Stores {
    if eventId in s.events
    then s.(events := s.events[eventId := s.events[eventId].(processed := success, error := error)])
    else s
  }

  /** `stripe:createOrder`: inserts a new row. */
  function CreateOrder(s: Stores, o: Order): Stores {
    s.(orders := s.orders + [o])
  }

  /** Writes `o` over the first row with `o`'s orderId, if there is one. */
  function PatchOrder(s: Stores, o: Order): (r: Stores)
    ensures r.events == s.events && r.licenses == s.licenses && |r.orders| == |s.orders|
  {
    var i := FindOrder(s.orders, o.orderId);
    if i < |s.orders| then s.(orders := s.orders[i := o]) else s
  }

  /** `stripe:updateOrderStatus`: the first row with this orderId takes the
      new status and payment intent; every other row, and every other store,
      is left as it was; with no such row nothing changes. */
  function UpdateOrderStatus(s: Stores, orderId: string, status: string, paymentIntentId: Option<string>): (r: Stores)
    ensures r.events == s.events && r.licenses == s.licenses && |r.orders| == |s.orders|
    ensures forall k :: 0 <= k < |s.orders| ==>
      r.orders[k] == if k == FindOrder(s.orders, orderId) then s.orders[k].(status := status, paymentIntentId := paymentIntentId) else s.orders[k]
  {
    match GetOrder(s, orderId)
    case None => s
    case Some(o) => PatchOrder(s, o.(status := status, paymentIntentId := paymentIntentId))
  }

  /** `stripe:updateOrderSession`: records the checkout session on the first
      row with this orderId, and nowhere else. */
  function UpdateOrderSession(s: Stores, orderId: string, sessionId: string): (r: Stores)
    ensures r.events == s.events && r.licenses == s.licenses && |r.orders| == |s.orders|
    ensures forall k :: 0 <= k < |s.orders| ==>
      r.orders[k] == if k == FindOrder(s.orders, orderId) then s.orders[k].(checkoutSessionId := Some(sessionId)) else s.orders[k]
  {
    match GetOrder(s, orderId)
    case None => s
    case Some(o) => PatchOrder(s, o.(checkoutSessionId := Some(sessionId)))
  }

  /** `stripe:updateOrderLicenseKey`: links the key record to the first row
      with this orderId, and nowhere else. */
  function UpdateOrderLicenseKey(s: Stores, orderId: string, keyId: KeyId): (r: Stores)
    ensures r.events == s.events && r.licenses == s.licenses && |r.orders| == |s.orders|
    ensures forall k :: 0 <= k < |s.orders| ==>
      r.orders[k] == if k == FindOrder(s.orders, orderId) then s.orders[k].(licenseKeyId := Some(keyId)) else s.orders[k]
  {
    match GetOrder(s, orderId)
    case None => s
    case Some(o) => PatchOrder(s, o.(licenseKeyId := Some(keyId)))
  }

  /** `licenseKeys:createLicenseKey`: appends a record; its id is `|s.licenses|`. */
  function CreateLicenseKey(s: Stores, rec: KeyRecord): Stores {
    s.(licenses := s.licenses + [rec])
  }

  // ------------------------------------------------------------- invariants

  /** Every stored key has the generator's format. */
  ghost predicate KeysWellFormed(s: Stores) {
    forall k :: 0 <= k < |s.licenses| ==> IsKeyFormat(s.licenses[k].key)
  }

  /** Every license reference on an order names an existing key record. */
  ghost predicate LinksResolve(s: Stores) {
    forall i :: 0 <= i < |s.orders| && s.orders[i].licenseKeyId.Some? ==>
      s.orders[i].licenseKeyId.value < |s.licenses|
  }

  ghost predicate Consistent(s: Stores) {
    KeysWellFormed(s) && LinksResolve(s)
  }
}
