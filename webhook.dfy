/** The Stripe webhook endpoint (pages/api/webhook.js): signature check,
    event intake, dispatch by event type, checkout fulfilment and outcome
    recording. `Deliver` and `CheckoutCompleted` say, as functions of the
    store value, what one delivery does; the class ConvexStores performs the
    same steps one mutation at a time and is proved to agree with them.
    Every external call is an oracle: the signature check is a
    `Verification`, each Convex call a `Call` in `Effects`, and the random
    and clock inputs are fields of `Effects` too. */
module Webhook {
  import opened Wrappers
  import opened Text
  import opened LicenseKeys
  import opened Ledger
  import Security

  datatype CustomerDetails = CustomerDetails(email: Option<string>, name: Option<string>)

  /** The `data.object` of an event. For checkout events it is the Checkout
      Session; payment-intent handlers read nothing from it but its id. */
  datatype Session = Session(
    id: string,
    metadata: map<string, string>,
    customerEmail: Option<string>,
    customerDetails: Option<CustomerDetails>,
    amountTotal: Option<int>,
    currency: Option<string>,
    paymentIntent: Option<string>)

  datatype Event = Event(id: string, eventType: string, payload: Session)

  /** What reading the raw body and `stripe.webhooks.constructEvent` give. */
  datatype Verification = Verified(event: Event) | VerificationFailed(message: string)

  /** The oracle answers for one delivery. */
  datatype Effects = Effects(
    storeEvent: Call,
    getOrder: Call,
    createOrder: Call,
    updateStatus: Call,
    createKey: Call,
    updateSession: Call,
    updateLicense: Call,
    markProcessed: Call,
    markFailed: Call,
    keyReturn: KeyReturn, // what createLicenseKey resolves to
    draws: seq<nat>,      // the sixteen Math.random() character choices
    nowMs: nat,           // Date.now()
    randomSuffix: string) // Math.random().toString(36).substr(2, 9)

  /** The shape of `createLicenseKey`'s result. The Convex mutation is not
      part of this model: it may resolve to a document carrying the new
      record's id in an `id` field, or to the bare id of the inserted record,
      as the handler's variable name `licenseKeyId` suggests. */
  datatype KeyReturn = ReturnsDocument | ReturnsBareId

  /** What `createLicenseKey` returns for the record it appended. Only a
      `KeyDocument` has an `id` property; on a bare id, `.id` is undefined. */
  datatype CreatedKey = KeyDocument(id: KeyId) | BareKeyId(raw: KeyId)

  function Created(shape: KeyReturn, keyId: KeyId): CreatedKey {
    if shape == ReturnsDocument then KeyDocument(keyId) else BareKeyId(keyId)
  }

  /** An order's key link after `updateOrderLicenseKey` is given
      `licenseKeyId.id`: the new record's id when that property exists;
      with `undefined` the order is not linked and keeps the link it had. */
  function Relink(link: Option<KeyId>, c: CreatedKey): Option<KeyId> {
    if c.KeyDocument? then Some(c.id) else link
  }

  /** The `result` object of a dispatch. */
  datatype Dispatched =
    | Fulfilled(orderId: string, licenseKeyId: CreatedKey) // {processed:true, orderId, licenseKeyId}
    | Acknowledged(reason: string)                         // {processed:true, reason}

  datatype WebhookResponse =
    | MethodNotAllowed                // 405 {error:'Method not allowed'}
    | WebhookError(message: string)   // 400 "Webhook Error: <message>"
    | Received(processed: Dispatched) // 200 {received:true, processed}
    | ProcessingFailed(error: string) // 500 {error}

  /** A store value after a step, with the step's outcome. */
  datatype Step<T> = Step(stores: Stores, outcome: T)

  const CheckoutCompletedType := "checkout.session.completed"
  const PaymentSucceededType := "payment_intent.succeeded"
  const PaymentFailedType := "payment_intent.payment_failed"

  function MetadataValue(metadata: map<string, string>, key: string): Option<string> {
    if key in metadata then Some(metadata[key]) else None
  }

  /** `order_${Date.now()}_${suffix}`. */
  function SynthesizedOrderId(nowMs: nat, suffix: string): (r: string)
    ensures |r| == 7 + |Decimal(nowMs)| + |suffix| && r[..6] == "order_"
    ensures forall k :: 6 <= k < 6 + |Decimal(nowMs)| ==> '0' <= r[k] <= '9'
    ensures r[6 + |Decimal(nowMs)|] == '_' && r[7 + |Decimal(nowMs)|..] == suffix
  {
    "order_" + Decimal(nowMs) + "_" + suffix
  }

  /** `session.metadata?.orderId || order_<ms>_<base36>`. */
  function OrderIdFor(session: Session, fx: Effects): string {
    OrElse(MetadataValue(session.metadata, "orderId"), SynthesizedOrderId(fx.nowMs, fx.randomSuffix))
  }

  function DetailsEmail(session: Session): Option<string> {
    if session.customerDetails.Some? then session.customerDetails.value.email else None
  }

  function DetailsName(session: Session): Option<string> {
    if session.customerDetails.Some? then session.customerDetails.value.name else None
  }

  /** The row `createOrder` inserts for a session that has no order yet. */
  function NewOrder(orderId: string, session: Session): (o: Order)
    ensures o.orderId == orderId && o.status == "completed"
    ensures o.customerEmail == "" <==> !Truthy(session.customerEmail) && !Truthy(DetailsEmail(session))
    ensures Truthy(session.customerEmail) ==> o.customerEmail == session.customerEmail.value
    ensures !Truthy(session.customerEmail) && Truthy(DetailsEmail(session)) ==> o.customerEmail == DetailsEmail(session).value
    ensures o.productId == "unknown" <==> !Truthy(MetadataValue(session.metadata, "productId")) || session.metadata["productId"] == "unknown"
    ensures o.priceId == "unknown" <==> !Truthy(MetadataValue(session.metadata, "priceId")) || session.metadata["priceId"] == "unknown"
    ensures o.checkoutSessionId.None? && o.licenseKeyId.None? && o.paymentIntentId.None?
  {
    Order(
      orderId,
      OrElse(session.customerEmail, OrElse(DetailsEmail(session), "")),
      OrElse(DetailsName(session), ""),
      session.amountTotal,
      session.currency,
      OrElse(MetadataValue(session.metadata, "productId"), "unknown"),
      OrElse(MetadataValue(session.metadata, "priceId"), "unknown"),
      "completed",
      None,
      None,
      None,
      "stripe_checkout")
  }

  /** The record `createLicenseKey` stores for a key minted for `orderId`. */
  function NewKeyRecord(key: string, orderId: string): KeyRecord {
    KeyRecord(key, "stripe_purchase", "pro", "Generated for order " + orderId)
  }

  /** `handlePaymentSucceeded`. */
  function PaymentSucceeded(intent: Session): Dispatched {
    Acknowledged("payment_succeeded")
  }

  /** `handlePaymentFailed`. */
  function PaymentFailed(intent: Session): Dispatched {
    Acknowledged("payment_failed")
  }

  /** Choosing or creating the order (webhook.js:127-172): the stores after
      that step, or the error that aborts the handler. */
  function SettleOrder(s: Stores, session: Session, orderId: string, fx: Effects): Result<Stores> {
    var existing := if fx.getOrder.Throws? then None else GetOrder(s, orderId);
    if existing.None? then
      if fx.createOrder.Throws? then Err(fx.createOrder.message)
      else Ok(CreateOrder(s, NewOrder(orderId, session)))
    else if fx.updateStatus.Throws? then Ok(s)
    else Ok(UpdateOrderStatus(s, orderId, "completed", session.paymentIntent))
  }

  /** `handleCheckoutCompleted`. */
  function CheckoutCompleted(s: Stores, session: Session, fx: Effects): Step<Result<Dispatched>>
    requires ValidDraws(fx.draws)
  {
    var orderId := OrderIdFor(session, fx);
    match SettleOrder(s, session, orderId, fx)
    case Err(m) => Step(s, Err(m))
    case Ok(s1) =>
      if fx.createKey.Throws? then Step(s1, Err(fx.createKey.message))
      else Step(KeySteps(s1, session, orderId, fx), Ok(Fulfilled(orderId, Created(fx.keyReturn, |s1.licenses|))))
  }

  /** The rest of `handleCheckoutCompleted` once the key was created: the
      record is appended, then the two best-effort links are written. */
  function KeySteps(s1: Stores, session: Session, orderId: string, fx: Effects): Stores
    requires ValidDraws(fx.draws)
  {
    var s2 := CreateLicenseKey(s1, NewKeyRecord(KeyText(fx.draws), orderId));
    var created := Created(fx.keyReturn, |s1.licenses|);
    var s3 := if fx.updateSession.Throws? then s2 else UpdateOrderSession(s2, orderId, session.id);
    if fx.updateLicense.Throws? || created.BareKeyId? then s3 else UpdateOrderLicenseKey(s3, orderId, created.id)
  }

  /** The `switch (event.type)`. */
  function Dispatch(s: Stores, e: Event, fx: Effects): Step<Result<Dispatched>>
    requires ValidDraws(fx.draws)
  {
    if e.eventType == CheckoutCompletedType then CheckoutCompleted(s, e.payload, fx)
    else if e.eventType == PaymentSucceededType then Step(s, Ok(PaymentSucceeded(e.payload)))
    else if e.eventType == PaymentFailedType then Step(s, Ok(PaymentFailed(e.payload)))
    else Step(s, Ok(Acknowledged("unhandled_event_type")))
  }

  /** The body of the outer `try` (webhook.js:46-79): store the event, dispatch,
      mark it processed. An Err outcome is the error the `catch` receives. */
  function Attempt(s: Stores, e: Event, fx: Effects): Step<Result<Dispatched>>
    requires ValidDraws(fx.draws)
  {
    if fx.storeEvent.Throws? then Step(s, Err(fx.storeEvent.message))
    else
      var d := Dispatch(StoreWebhookEvent(s, e.id, e.eventType), e, fx);
      if d.outcome.Err? then d
      else if fx.markProcessed.Throws? then Step(d.stores, Err(fx.markProcessed.message))
      else Step(MarkWebhookProcessed(d.stores, e.id, true, None), d.outcome)
  }

  /** One delivery to the webhook `handler`. */
  function Deliver(s: Stores, httpMethod: string, v: Verification, fx: Effects): (r: Step<WebhookResponse>)
    requires ValidDraws(fx.draws)
    ensures httpMethod != "POST" ==> r == Step(s, MethodNotAllowed)
    ensures httpMethod == "POST" && v.VerificationFailed? ==> r == Step(s, WebhookError("Webhook Error: " + v.message))
  {
    if httpMethod != "POST" then Step(s, MethodNotAllowed)
    else match v
      case VerificationFailed(m) => Step(s, WebhookError("Webhook Error: " + m))
      case Verified(e) =>
        var a := Attempt(s, e, fx);
        match a.outcome
        case Ok(result) => Step(a.stores, Received(result))
        case Err(m) =>
          var marked := if fx.markFailed.Throws? then a.stores else MarkWebhookProcessed(a.stores, e.id, false, Some(m));
          Step(marked, ProcessingFailed(m))
  }

  /** The Convex deployment as mutable state: the three stores as fields,
      one method per query or mutation the webhook calls, and the handler. */
  class ConvexStores {
    var events: map<string, EventRecord>
    var orders: seq<Order>
    var licenses: seq<KeyRecord>

    function State(): Stores
      reads this
    {
      Stores(events, orders, licenses)
    }

    constructor (initial: Stores)
      ensures State() == initial
    {
      events := initial.events;
      orders := initial.orders;
      licenses := initial.licenses;
    }

    method StoreWebhookEvent(eventId: string, eventType: string, call: Call) returns (thrown: Option<string>)
      modifies this
      ensures thrown.Some? <==> call.Throws?
      ensures call.Throws? ==> thrown.value == call.message && State() == old(State())
      ensures call.Succeeds? ==> State() == Ledger.StoreWebhookEvent(old(State()), eventId, eventType)
    {
      if call.Throws? { return Some(call.message); }
      events := events[eventId := EventRecord(eventType, false, None)];
      return None;
    }

    method MarkWebhookProcessed(eventId: string, success: bool, error: Option<string>, call: Call) returns (thrown: Option<string>)
      modifies this
      ensures thrown.Some? <==> call.Throws?
      ensures call.Throws? ==> thrown.value == call.message && State() == old(State())
      ensures call.Succeeds? ==> State() == Ledger.MarkWebhookProcessed(old(State()), eventId, success, error)
    {
      if call.Throws? { return Some(call.message); }
      if eventId in events {
        events := events[eventId := events[eventId].(processed := success, error := error)];
      }
      return None;
    }

    /** `stripe:getOrder`, with the handler's `catch` folded in: a failing
        query reads as "no order". */
    method GetOrder(orderId: string, call: Call) returns (existing: Option<Order>)
      ensures existing == if call.Throws? then None else Ledger.GetOrder(State(), orderId)
    {
      if call.Throws? { return None; }
      var i := FindOrder(orders, orderId);
      existing := if i < |orders| then Some(orders[i]) else None;
    }

    method CreateOrder(o: Order, call: Call) returns (thrown: Option<string>)
      modifies this
      ensures thrown.Some? <==> call.Throws?
      ensures call.Throws? ==> thrown.value == call.message && State() == old(State())
      ensures call.Succeeds? ==> State() == Ledger.CreateOrder(old(State()), o)
    {
      if call.Throws? { return Some(call.message); }
      orders := orders + [o];
      return None;
    }

    /** Writes `o` over the first row with its orderId. */
    method Patch(o: Order)
      modifies this
      ensures State() == PatchOrder(old(State()), o)
    {
      var i := FindOrder(orders, o.orderId);
      if i < |orders| {
        orders := orders[i := o];
      }
    }

    method UpdateOrderStatus(orderId: string, status: string, paymentIntentId: Option<string>, call: Call) returns (thrown: Option<string>)
      modifies this
      ensures thrown.Some? <==> call.Throws?
      ensures call.Throws? ==> State() == old(State())
      ensures call.Succeeds? ==> State() == Ledger.UpdateOrderStatus(old(State()), orderId, status, paymentIntentId)
    {
      if call.Throws? { return Some(call.message); }
      var current := GetOrder(orderId, Succeeds);
      if current.Some? {
        Patch(current.value.(status := status, paymentIntentId := paymentIntentId));
      }
      return None;
    }

    method UpdateOrderSession(orderId: string, sessionId: string, call: Call) returns (thrown: Option<string>)
      modifies this
      ensures thrown.Some? <==> call.Throws?
      ensures call.Throws? ==> State() == old(State())
      ensures call.Succeeds? ==> State() == Ledger.UpdateOrderSession(old(State()), orderId, sessionId)
    {
      if call.Throws? { return Some(call.message); }
      var current := GetOrder(orderId, Succeeds);
      if current.Some? {
        Patch(current.value.(checkoutSessionId := Some(sessionId)));
      }
      return None;
    }

    /** `stripe:updateOrderLicenseKey` given `licenseKeyId.id`; `None` is an
        undefined argument, with which no order is linked. */
    method UpdateOrderLicenseKey(orderId: string, keyId: Option<KeyId>, call: Call) returns (thrown: Option<string>)
      modifies this
      ensures thrown.Some? <==> call.Throws?
      ensures call.Throws? || keyId.None? ==> State() == old(State())
      ensures call.Succeeds? && keyId.Some? ==> State() == Ledger.UpdateOrderLicenseKey(old(State()), orderId, keyId.value)
    {
      if call.Throws? { return Some(call.message); }
      if keyId.None? { return None; }
      var current := GetOrder(orderId, Succeeds);
      if current.Some? {
        Patch(current.value.(licenseKeyId := keyId));
      }
      return None;
    }

    method CreateLicenseKey(rec: KeyRecord, call: Call, shape: KeyReturn) returns (created: Result<CreatedKey>)
      modifies this
      ensures created.Err? <==> call.Throws?
      ensures call.Throws? ==> created.message == call.message && State() == old(State())
      ensures call.Succeeds? ==>
        created.value == Created(shape, |old(licenses)|) && State() == Ledger.CreateLicenseKey(old(State()), rec)
    {
      if call.Throws? { return Err(call.message); }
      created := Ok(Created(shape, |licenses|));
      licenses := licenses + [rec];
    }

    /** `handleCheckoutCompleted`: the order step, then the key, then the two
        best-effort updates. */
    method HandleCheckoutCompleted(session: Session, fx: Effects) returns (result: Result<Dispatched>)
      requires ValidDraws(fx.draws)
      modifies this
      ensures Step(State(), result) == CheckoutCompleted(old(State()), session, fx)
    {
      var licenseKey := GenerateLicenseKey(fx.draws);
      var orderId := OrElse(MetadataValue(session.metadata, "orderId"), SynthesizedOrderId(fx.nowMs, fx.randomSuffix));
      var existing := GetOrder(orderId, fx.getOrder);
      if existing.None? {
        var thrown := CreateOrder(NewOrder(orderId, session), fx.createOrder);
        if thrown.Some? { return Err(thrown.value); }
      } else {
        var ignored := UpdateOrderStatus(orderId, "completed", session.paymentIntent, fx.updateStatus);
      }
      var created := CreateLicenseKey(NewKeyRecord(licenseKey, orderId), fx.createKey, fx.keyReturn);
      if created.Err? { return Err(created.message); }
      var ignoredSession := UpdateOrderSession(orderId, session.id, fx.updateSession);
      var idProperty := if created.value.KeyDocument? then Some(created.value.id) else None;
      var ignoredLicense := UpdateOrderLicenseKey(orderId, idProperty, fx.updateLicense);
      return Ok(Fulfilled(orderId, created.value));
    }

    /** The outer `try` up to its last statement: store the event, dispatch
        on its type, mark it processed. */
    method ProcessEvent(e: Event, fx: Effects) returns (result: Result<Dispatched>)
      requires ValidDraws(fx.draws)
      modifies this
      ensures Step(State(), result) == Attempt(old(State()), e, fx)
    {
      var thrown := StoreWebhookEvent(e.id, e.eventType, fx.storeEvent);
      if thrown.Some? { return Err(thrown.value); }
      if e.eventType == CheckoutCompletedType {
        result := HandleCheckoutCompleted(e.payload, fx);
      } else if e.eventType == PaymentSucceededType {
        result := Ok(PaymentSucceeded(e.payload));
      } else if e.eventType == PaymentFailedType {
        result := Ok(PaymentFailed(e.payload));
      } else {
        result := Ok(Acknowledged("unhandled_event_type"));
      }
      if result.Err? { return; }
      thrown := MarkWebhookProcessed(e.id, true, None, fx.markProcessed);
      if thrown.Some? { return Err(thrown.value); }
    }

    /** The webhook `handler`. */
    method Handler(httpMethod: string, v: Verification, fx: Effects, res: Security.ServerResponse) returns (response: WebhookResponse)
      requires ValidDraws(fx.draws)
      modifies this, res
      ensures Step(State(), response) == Deliver(old(State()), httpMethod, v, fx)
      ensures res.headers == old(res.headers) + Security.SecurityHeaders()
    {
      Security.SetSecurityHeaders(res);
      if httpMethod != "POST" { return MethodNotAllowed; }
      if v.VerificationFailed? { return WebhookError("Webhook Error: " + v.message); }
      var e := v.event;
      var result := ProcessEvent(e, fx);
      if result.Ok? { return Received(result.value); }
      var ignored := MarkWebhookProcessed(e.id, false, Some(result.message), fx.markFailed);
      return ProcessingFailed(result.message);
    }
  }
}
