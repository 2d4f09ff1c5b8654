/** What one or two deliveries to the webhook do to the three stores and to
    the response, for every answer the signature check and the Convex calls
    can give. */
module WebhookProperties {
  import opened Wrappers
  import opened Text
  import opened LicenseKeys
  import opened Ledger
  import opened Webhook

  /** Every Convex call of the delivery succeeds. */
  predicate AllSucceed(fx: Effects) {
    fx.storeEvent.Succeeds? && fx.getOrder.Succeeds? && fx.createOrder.Succeeds?
    && fx.updateStatus.Succeeds? && fx.createKey.Succeeds? && fx.updateSession.Succeeds?
    && fx.updateLicense.Succeeds? && fx.markProcessed.Succeeds? && fx.markFailed.Succeeds?
  }

  /** The order lookup answered and found a row. */
  predicate OrderFound(s: Stores, orderId: string, fx: Effects) {
    fx.getOrder.Succeeds? && GetOrder(s, orderId).Some?
  }

  /** The order step of `handleCheckoutCompleted` does not abort: either an
      order was found, or creating one succeeded. */
  predicate OrderStepSucceeds(s: Stores, orderId: string, fx: Effects) {
    OrderFound(s, orderId, fx) || fx.createOrder.Succeeds?
  }

  /** A verified POST of a completed-checkout event. */
  predicate IsCheckoutDelivery(httpMethod: string, v: Verification) {
    httpMethod == "POST" && v.Verified? && v.event.eventType == CheckoutCompletedType
  }

  /** The delivery reaches `createLicenseKey` and that call succeeds. */
  predicate Mints(s: Stores, httpMethod: string, v: Verification, fx: Effects) {
    IsCheckoutDelivery(httpMethod, v) && fx.storeEvent.Succeeds?
    && OrderStepSucceeds(s, OrderIdFor(v.event.payload, fx), fx) && fx.createKey.Succeeds?
  }

  // ------------------------------------------------------ checkout fulfilment

  /** What `handleCheckoutCompleted` does to the key registry and the event
      store, and when it succeeds. */
  lemma CheckoutOutline(s: Stores, session: Session, fx: Effects)
    requires ValidDraws(fx.draws)
    ensures var st := CheckoutCompleted(s, session, fx);
      var orderId := OrderIdFor(session, fx);
      st.stores.events == s.events
      && (st.outcome.Ok? <==> OrderStepSucceeds(s, orderId, fx) && fx.createKey.Succeeds?)
      && (st.outcome.Ok? ==>
            st.outcome.value == Fulfilled(orderId, Created(fx.keyReturn, |s.licenses|))
            && st.stores.licenses == s.licenses + [NewKeyRecord(KeyText(fx.draws), orderId)])
      && (st.outcome.Err? ==> st.stores.licenses == s.licenses)
      && (!OrderStepSucceeds(s, orderId, fx) ==> st == Step(s, Err(fx.createOrder.message)))
      && (OrderStepSucceeds(s, orderId, fx) && fx.createKey.Throws? ==> st.outcome == Err(fx.createKey.message))
  {
    var orderId := OrderIdFor(session, fx);
    match SettleOrder(s, session, orderId, fx)
    case Err(m) =>
    case Ok(s1) =>
      assert s1.events == s.events && s1.licenses == s.licenses;
  }

  /** Fulfilment of a checkout whose orderId has no row yet, every call
      succeeding: exactly one row is appended, carrying the session id, and
      one key record; the row is linked to that record exactly when
      `createLicenseKey` returns a document with an `id`. */
  lemma {:induction false} FreshCheckout(s: Stores, session: Session, fx: Effects)
    requires ValidDraws(fx.draws) && AllSucceed(fx)
    requires CountOrders(s.orders, OrderIdFor(session, fx)) == 0
    ensures var orderId := OrderIdFor(session, fx);
      CheckoutCompleted(s, session, fx) == Step(
        Stores(
          s.events,
          s.orders + [NewOrder(orderId, session).(checkoutSessionId := Some(session.id),
                                                  licenseKeyId := Relink(None, Created(fx.keyReturn, |s.licenses|)))],
          s.licenses + [NewKeyRecord(KeyText(fx.draws), orderId)]),
        Ok(Fulfilled(orderId, Created(fx.keyReturn, |s.licenses|))))
  {
    var orderId := OrderIdFor(session, fx);
    CountZero(s.orders, orderId);
    var n := NewOrder(orderId, session);
    var s1 := CreateOrder(s, n);
    assert SettleOrder(s, session, orderId, fx) == Ok(s1);
    FindAfterAppend(s.orders, n, orderId);
    var s2 := CreateLicenseKey(s1, NewKeyRecord(KeyText(fx.draws), orderId));
    var s3 := UpdateOrderSession(s2, orderId, session.id);
    assert FindOrder(s2.orders, orderId) == |s.orders|;
    assert s3.orders == s.orders + [n.(checkoutSessionId := Some(session.id))];
    if fx.keyReturn == ReturnsDocument {
      var s4 := UpdateOrderLicenseKey(s3, orderId, |s1.licenses|);
      assert FindOrder(s3.orders, orderId) == |s.orders|;
      assert s4.orders == s.orders + [n.(checkoutSessionId := Some(session.id), licenseKeyId := Some(|s.licenses|))];
    }
  }

  /** Fulfilment of a checkout whose orderId already has a row, every call
      succeeding: no row is added; the first row with that orderId is marked
      completed, takes the session id and, when `createLicenseKey` returns a
      document with an `id`, is re-linked to the newly appended key record. */
  lemma {:induction false} RepeatCheckout(s: Stores, session: Session, fx: Effects)
    requires ValidDraws(fx.draws) && AllSucceed(fx)
    requires FindOrder(s.orders, OrderIdFor(session, fx)) < |s.orders|
    ensures var orderId := OrderIdFor(session, fx);
      var i := FindOrder(s.orders, orderId);
      CheckoutCompleted(s, session, fx) == Step(
        Stores(
          s.events,
          s.orders[i := s.orders[i].(status := "completed", paymentIntentId := session.paymentIntent,
                                     checkoutSessionId := Some(session.id),
                                     licenseKeyId := Relink(s.orders[i].licenseKeyId, Created(fx.keyReturn, |s.licenses|)))],
          s.licenses + [NewKeyRecord(KeyText(fx.draws), orderId)]),
        Ok(Fulfilled(orderId, Created(fx.keyReturn, |s.licenses|))))
  {
    var orderId := OrderIdFor(session, fx);
    var i := FindOrder(s.orders, orderId);
    var s1 := UpdateOrderStatus(s, orderId, "completed", session.paymentIntent);
    assert SettleOrder(s, session, orderId, fx) == Ok(s1);
    assert s1.orders == s.orders[i := s.orders[i].(status := "completed", paymentIntentId := session.paymentIntent)];
    var s2 := CreateLicenseKey(s1, NewKeyRecord(KeyText(fx.draws), orderId));
    assert FindOrder(s2.orders, orderId) == i;
    var s3 := UpdateOrderSession(s2, orderId, session.id);
    assert s3.orders == s.orders[i := s.orders[i].(status := "completed", paymentIntentId := session.paymentIntent,
                                                   checkoutSessionId := Some(session.id))];
    if fx.keyReturn == ReturnsDocument {
      assert FindOrder(s3.orders, orderId) == i;
      var s4 := UpdateOrderLicenseKey(s3, orderId, |s1.licenses|);
      assert s4.orders == s.orders[i := s.orders[i].(status := "completed", paymentIntentId := session.paymentIntent,
                                                     checkoutSessionId := Some(session.id), licenseKeyId := Some(|s.licenses|))];
    }
  }

  /** A failing `getOrder` reads as "no order" even when the orderId has a
      row: a second row with that orderId is created, and, since the later
      updates patch the first row carrying the orderId, the new row stays as
      created while the old one takes the session and the key link. */
  lemma {:induction false} FailedLookupDuplicatesOrder(s: Stores, session: Session, fx: Effects)
    requires ValidDraws(fx.draws) && fx.getOrder.Throws? && fx.createOrder.Succeeds? && fx.createKey.Succeeds?
    requires FindOrder(s.orders, OrderIdFor(session, fx)) < |s.orders|
    ensures var orderId := OrderIdFor(session, fx);
      var r := CheckoutCompleted(s, session, fx);
      r.outcome.Ok?
      && |r.stores.orders| == |s.orders| + 1
      && r.stores.orders[|s.orders|] == NewOrder(orderId, session)
      && CountOrders(r.stores.orders, orderId) == CountOrders(s.orders, orderId) + 1
      && FindOrder(r.stores.orders, orderId) == FindOrder(s.orders, orderId)
  {
    var orderId := OrderIdFor(session, fx);
    var n := NewOrder(orderId, session);
    var i := FindOrder(s.orders, orderId);
    var s1 := CreateOrder(s, n);
    assert SettleOrder(s, session, orderId, fx) == Ok(s1);
    assert s1.orders[i] == s.orders[i];
    assert FindOrder(s1.orders, orderId) == i;
    KeyStepsTouchOneRow(s1, session, orderId, fx);
    var s4 := KeySteps(s1, session, orderId, fx);
    assert CheckoutCompleted(s, session, fx).stores == s4;
    assert s4.orders[i].orderId == orderId;
    AppendedCopyCounts(s.orders, s4.orders, orderId);
  }

  /** A table that repeats every orderId of `orders` and then has one more
      row with `orderId` counts one more row for it. */
  lemma AppendedCopyCounts(orders: seq<Order>, t: seq<Order>, orderId: string)
    requires |t| == |orders| + 1 && t[|orders|].orderId == orderId
    requires forall k :: 0 <= k < |orders| ==> t[k].orderId == orders[k].orderId
    ensures CountOrders(t, orderId) == CountOrders(orders, orderId) + 1
  {
    var head := t[..|orders|];
    assert t == head + [t[|orders|]];
    CountSameIds(head, orders, orderId);
    CountAppend(head, t[|orders|], orderId);
  }

  /** After the order step, the key is created and the session and key
      links patch the first row with the orderId: every row keeps its
      orderId and no other row changes. */
  lemma KeyStepsTouchOneRow(s1: Stores, session: Session, orderId: string, fx: Effects)
    requires ValidDraws(fx.draws)
    ensures var s4 := KeySteps(s1, session, orderId, fx);
      |s4.orders| == |s1.orders|
      && forall k :: 0 <= k < |s1.orders| ==>
           s4.orders[k].orderId == s1.orders[k].orderId
           && (k != FindOrder(s1.orders, orderId) ==> s4.orders[k] == s1.orders[k])
  {
    var s2 := CreateLicenseKey(s1, NewKeyRecord(KeyText(fx.draws), orderId));
    var s3 := if fx.updateSession.Throws? then s2 else UpdateOrderSession(s2, orderId, session.id);
    assert FindOrder(s3.orders, orderId) == FindOrder(s1.orders, orderId) by {
      if FindOrder(s1.orders, orderId) < |s1.orders| {
        assert s3.orders[FindOrder(s1.orders, orderId)].orderId == orderId;
      }
    }
  }

  /** When `createLicenseKey` returns a bare id, `licenseKeyId.id` is
      undefined and fulfilment links no order to a key: every existing row
      keeps its link, and a row it creates has none. The key record is still
      appended. */
  lemma BareIdLinksNothing(s: Stores, session: Session, fx: Effects)
    requires ValidDraws(fx.draws) && fx.keyReturn == ReturnsBareId
    ensures var r := CheckoutCompleted(s, session, fx).stores;
      |s.orders| <= |r.orders| <= |s.orders| + 1
      && (forall k :: 0 <= k < |s.orders| ==> r.orders[k].licenseKeyId == s.orders[k].licenseKeyId)
      && (forall k :: |s.orders| <= k < |r.orders| ==> r.orders[k].licenseKeyId.None?)
  {
    var orderId := OrderIdFor(session, fx);
    match SettleOrder(s, session, orderId, fx)
    case Err(_) =>
    case Ok(s1) =>
      assert |s.orders| <= |s1.orders| <= |s.orders| + 1;
      assert forall k :: 0 <= k < |s.orders| ==> s1.orders[k].licenseKeyId == s.orders[k].licenseKeyId;
      assert forall k :: |s.orders| <= k < |s1.orders| ==> s1.orders[k].licenseKeyId.None?;
  }

  /** The `switch`: only the checkout branch touches the stores. */
  lemma DispatchOutline(s: Stores, e: Event, fx: Effects)
    requires ValidDraws(fx.draws)
    ensures var d := Dispatch(s, e, fx);
      d.stores.events == s.events
      && (e.eventType == CheckoutCompletedType ==> d == CheckoutCompleted(s, e.payload, fx))
      && (e.eventType != CheckoutCompletedType ==> d.stores == s && d.outcome.Ok?)
  {
    if e.eventType == CheckoutCompletedType {
      CheckoutOutline(s, e.payload, fx);
    }
  }

  /** The outer `try`: the event is stored unprocessed, dispatched, then marked
      processed; no other event's record is touched. */
  lemma AttemptOutline(s: Stores, e: Event, fx: Effects)
    requires ValidDraws(fx.draws)
    ensures var a := Attempt(s, e, fx);
      (fx.storeEvent.Throws? ==> a == Step(s, Err(fx.storeEvent.message)))
      && (fx.storeEvent.Succeeds? ==>
            var d := Dispatch(StoreWebhookEvent(s, e.id, e.eventType), e, fx);
            a.stores.orders == d.stores.orders && a.stores.licenses == d.stores.licenses
            && e.id in a.stores.events && a.stores.events - {e.id} == s.events - {e.id}
            && a.stores.events[e.id] == EventRecord(e.eventType, a.outcome.Ok?, None)
            && (d.outcome.Err? ==> a.outcome == d.outcome)
            && (d.outcome.Ok? && fx.markProcessed.Succeeds? ==> a.outcome == d.outcome)
            && (d.outcome.Ok? && fx.markProcessed.Throws? ==> a.outcome == Err(fx.markProcessed.message)))
  {
    if fx.storeEvent.Succeeds? {
      var s0 := StoreWebhookEvent(s, e.id, e.eventType);
      DispatchOutline(s0, e, fx);
      var d := Dispatch(s0, e, fx);
      var a := Attempt(s, e, fx);
      assert s0.events - {e.id} == s.events - {e.id};
      if d.outcome.Ok? && fx.markProcessed.Succeeds? {
        assert a.stores == MarkWebhookProcessed(d.stores, e.id, true, None);
        assert a.stores.events == s0.events[e.id := EventRecord(e.eventType, true, None)];
        assert a.stores.events - {e.id} == s0.events - {e.id};
      }
    }
  }

  // ---------------------------------------------------------- one delivery

  /** A key record is appended exactly when the delivery is a verified POST
      of a completed checkout, the event is stored, the order step does not
      abort and `createLicenseKey` succeeds; then it is the generator's key for
      the order. Whether the event is later marked processed does not matter:
      a failing `markWebhookProcessed` still leaves the key behind. */
  lemma KeyMintedExactlyWhen(s: Stores, httpMethod: string, v: Verification, fx: Effects)
    requires ValidDraws(fx.draws)
    ensures var r := Deliver(s, httpMethod, v, fx);
      if Mints(s, httpMethod, v, fx)
      then r.stores.licenses == s.licenses + [NewKeyRecord(KeyText(fx.draws), OrderIdFor(v.event.payload, fx))]
      else r.stores.licenses == s.licenses
  {
    if httpMethod == "POST" && v.Verified? && fx.storeEvent.Succeeds? {
      var e := v.event;
      var s0 := StoreWebhookEvent(s, e.id, e.eventType);
      assert GetOrder(s0, OrderIdFor(e.payload, fx)) == GetOrder(s, OrderIdFor(e.payload, fx));
      if e.eventType == CheckoutCompletedType {
        CheckoutOutline(s0, e.payload, fx);
      }
    }
  }

  /** The response: 200 exactly when the event is stored, its handler does not
      throw and it is marked processed; otherwise a 500 carrying the message of
      the first call that threw. */
  lemma ResponseOfVerifiedPost(s: Stores, e: Event, fx: Effects)
    requires ValidDraws(fx.draws)
    ensures var r := Deliver(s, "POST", Verified(e), fx);
      var checkout := e.eventType == CheckoutCompletedType;
      var orderOk := OrderStepSucceeds(s, OrderIdFor(e.payload, fx), fx);
      (r.outcome.Received? <==>
         fx.storeEvent.Succeeds? && (checkout ==> orderOk && fx.createKey.Succeeds?) && fx.markProcessed.Succeeds?)
      && (fx.storeEvent.Throws? ==> r.outcome == ProcessingFailed(fx.storeEvent.message))
      && (fx.storeEvent.Succeeds? && checkout && !orderOk ==> r.outcome == ProcessingFailed(fx.createOrder.message))
      && (fx.storeEvent.Succeeds? && checkout && orderOk && fx.createKey.Throws? ==>
            r.outcome == ProcessingFailed(fx.createKey.message))
      && (fx.storeEvent.Succeeds? && (checkout ==> orderOk && fx.createKey.Succeeds?) && fx.markProcessed.Throws? ==>
            r.outcome == ProcessingFailed(fx.markProcessed.message))
  {
    if fx.storeEvent.Succeeds? {
      var s0 := StoreWebhookEvent(s, e.id, e.eventType);
      assert GetOrder(s0, OrderIdFor(e.payload, fx)) == GetOrder(s, OrderIdFor(e.payload, fx));
      if e.eventType == CheckoutCompletedType {
        CheckoutOutline(s0, e.payload, fx);
      }
    }
  }

  /** The payload the 200 response carries, by event type. */
  lemma ProcessedResultByType(s: Stores, e: Event, fx: Effects)
    requires ValidDraws(fx.draws)
    ensures var r := Deliver(s, "POST", Verified(e), fx);
      r.outcome.Received? ==>
        if e.eventType == CheckoutCompletedType then
          r.outcome.processed == Fulfilled(OrderIdFor(e.payload, fx), Created(fx.keyReturn, |s.licenses|))
        else if e.eventType == PaymentSucceededType then r.outcome.processed == Acknowledged("payment_succeeded")
        else if e.eventType == PaymentFailedType then r.outcome.processed == Acknowledged("payment_failed")
        else r.outcome.processed == Acknowledged("unhandled_event_type")
  {
    if fx.storeEvent.Succeeds? && e.eventType == CheckoutCompletedType {
      CheckoutOutline(StoreWebhookEvent(s, e.id, e.eventType), e.payload, fx);
    }
  }

  /** Only a completed checkout touches the orders and the key registry;
      every other delivery changes at most the event store. */
  lemma OnlyCheckoutTouchesLedger(s: Stores, httpMethod: string, v: Verification, fx: Effects)
    requires ValidDraws(fx.draws)
    requires !IsCheckoutDelivery(httpMethod, v)
    ensures Deliver(s, httpMethod, v, fx).stores.orders == s.orders
    ensures Deliver(s, httpMethod, v, fx).stores.licenses == s.licenses
  {
  }

  /** The event store after a verified POST: on a 200 the event is recorded
      as processed without error; on a 500 after the event was stored, it is
      recorded as failed with the response's error, unless that last write
      itself fails. No other event's record changes. */
  lemma EventOutcomeRecorded(s: Stores, e: Event, fx: Effects)
    requires ValidDraws(fx.draws)
    ensures var r := Deliver(s, "POST", Verified(e), fx);
      (r.outcome.Received? ==> e.id in r.stores.events && r.stores.events[e.id] == EventRecord(e.eventType, true, None))
      && (r.outcome.ProcessingFailed? && fx.storeEvent.Succeeds? && fx.markFailed.Succeeds? ==>
            e.id in r.stores.events && r.stores.events[e.id] == EventRecord(e.eventType, false, Some(r.outcome.error)))
      && r.stores.events - {e.id} == s.events - {e.id}
  {
    AttemptOutline(s, e, fx);
    var a := Attempt(s, e, fx);
    if a.outcome.Err? && fx.markFailed.Succeeds? {
      var marked := MarkWebhookProcessed(a.stores, e.id, false, Some(a.outcome.message));
      assert marked.events - {e.id} == a.stores.events - {e.id};
    }
  }

  /** There is no duplicate-delivery guard: what a delivery does to the orders
      and the keys, and the response, do not depend on the event store; an
      event already recorded as processed is handled again in full. */
  lemma EventHistoryIgnored(s: Stores, history: map<string, EventRecord>, httpMethod: string, v: Verification, fx: Effects)
    requires ValidDraws(fx.draws)
    ensures var a := Deliver(s, httpMethod, v, fx);
      var b := Deliver(s.(events := history), httpMethod, v, fx);
      a.outcome == b.outcome && a.stores.orders == b.stores.orders && a.stores.licenses == b.stores.licenses
  {
    if httpMethod == "POST" && v.Verified? {
      var e := v.event;
      var h := s.(events := history);
      AttemptOutline(s, e, fx);
      AttemptOutline(h, e, fx);
      if fx.storeEvent.Succeeds? {
        var s0 := StoreWebhookEvent(s, e.id, e.eventType);
        var h0 := StoreWebhookEvent(h, e.id, e.eventType);
        assert h0 == s0.(events := h0.events);
        DispatchOutline(s0, e, fx);
        DispatchOutline(h0, e, fx);
        if e.eventType == CheckoutCompletedType {
          CheckoutEventsIgnored(s0, h0.events, e.payload, fx);
        }
      }
    }
  }

  lemma CheckoutEventsIgnored(s: Stores, history: map<string, EventRecord>, session: Session, fx: Effects)
    requires ValidDraws(fx.draws)
    ensures var a := CheckoutCompleted(s, session, fx);
      var b := CheckoutCompleted(s.(events := history), session, fx);
      a.outcome == b.outcome && a.stores.orders == b.stores.orders && a.stores.licenses == b.stores.licenses
  {
    var orderId := OrderIdFor(session, fx);
    var h := s.(events := history);
    assert GetOrder(h, orderId) == GetOrder(s, orderId);
    var sa := SettleOrder(s, session, orderId, fx);
    var sb := SettleOrder(h, session, orderId, fx);
    assert sa.Err? ==> sb == sa;
    if sa.Ok? {
      assert sb.value == sa.value.(events := history) by {
        if !OrderFound(s, orderId, fx) {
        } else if fx.updateStatus.Succeeds? {
          UpdatesIgnoreEvents(s, history, orderId, session.paymentIntent, session.id, 0);
        }
      }
      if fx.createKey.Succeeds? {
        CheckoutTail(sa.value, history, session, orderId, fx);
      }
    }
  }

  /** The key and the two order links, after the order step, do not look at
      the event store. */
  lemma CheckoutTail(s1: Stores, history: map<string, EventRecord>, session: Session, orderId: string, fx: Effects)
    requires ValidDraws(fx.draws)
    ensures KeySteps(s1.(events := history), session, orderId, fx) == KeySteps(s1, session, orderId, fx).(events := history)
  {
    var rec := NewKeyRecord(KeyText(fx.draws), orderId);
    var a2 := CreateLicenseKey(s1, rec);
    assert CreateLicenseKey(s1.(events := history), rec) == a2.(events := history);
    UpdatesIgnoreEvents(a2, history, orderId, session.paymentIntent, session.id, |s1.licenses|);
    var a3 := if fx.updateSession.Throws? then a2 else UpdateOrderSession(a2, orderId, session.id);
    var created := Created(fx.keyReturn, |s1.licenses|);
    if !(fx.updateLicense.Throws? || created.BareKeyId?) {
      UpdatesIgnoreEvents(a3, history, orderId, session.paymentIntent, session.id, created.id);
    }
  }

  /** The order updates commute with replacing the event store. */
  lemma UpdatesIgnoreEvents(s: Stores, history: map<string, EventRecord>, orderId: string,
                            paymentIntent: Option<string>, sessionId: string, keyId: KeyId)
    ensures UpdateOrderStatus(s.(events := history), orderId, "completed", paymentIntent)
            == UpdateOrderStatus(s, orderId, "completed", paymentIntent).(events := history)
    ensures UpdateOrderSession(s.(events := history), orderId, sessionId)
            == UpdateOrderSession(s, orderId, sessionId).(events := history)
    ensures UpdateOrderLicenseKey(s.(events := history), orderId, keyId)
            == UpdateOrderLicenseKey(s, orderId, keyId).(events := history)
  {
    assert GetOrder(s.(events := history), orderId) == GetOrder(s, orderId);
  }

  /** The failures the handler swallows (the status update, the session and
      key links on the order, the failure mark) never change the response. */
  lemma BestEffortFailuresAreSwallowed(s: Stores, httpMethod: string, v: Verification, fx: Effects,
                                       updateStatus: Call, updateSession: Call, updateLicense: Call, markFailed: Call)
    requires ValidDraws(fx.draws)
    ensures Deliver(s, httpMethod, v, fx).outcome ==
      Deliver(s, httpMethod, v, fx.(updateStatus := updateStatus, updateSession := updateSession,
                                    updateLicense := updateLicense, markFailed := markFailed)).outcome
  {
    var gx := fx.(updateStatus := updateStatus, updateSession := updateSession,
                  updateLicense := updateLicense, markFailed := markFailed);
    if httpMethod == "POST" && v.Verified? && fx.storeEvent.Succeeds? {
      var e := v.event;
      var s0 := StoreWebhookEvent(s, e.id, e.eventType);
      if e.eventType == CheckoutCompletedType {
        CheckoutOutline(s0, e.payload, fx);
        CheckoutOutline(s0, e.payload, gx);
      }
    }
  }

  // ------------------------------------------------------------- invariant

  /** Every store-changing step keeps the stores consistent: each stored key
      has the generator's format and each order's license link names an
      existing key record. */
  lemma DeliveryKeepsConsistent(s: Stores, httpMethod: string, v: Verification, fx: Effects)
    requires ValidDraws(fx.draws)
    requires Consistent(s)
    ensures Consistent(Deliver(s, httpMethod, v, fx).stores)
  {
    if httpMethod == "POST" && v.Verified? {
      var e := v.event;
      AttemptOutline(s, e, fx);
      var a := Attempt(s, e, fx);
      if fx.storeEvent.Succeeds? {
        var s0 := StoreWebhookEvent(s, e.id, e.eventType);
        DispatchOutline(s0, e, fx);
        if e.eventType == CheckoutCompletedType {
          CheckoutKeepsConsistent(s0, e.payload, fx);
        }
      }
      assert Consistent(a.stores);
    }
  }

  lemma CheckoutKeepsConsistent(s: Stores, session: Session, fx: Effects)
    requires ValidDraws(fx.draws)
    requires Consistent(s)
    ensures Consistent(CheckoutCompleted(s, session, fx).stores)
  {
    var orderId := OrderIdFor(session, fx);
    match SettleOrder(s, session, orderId, fx)
    case Err(_) =>
    case Ok(s1) =>
      assert s1.licenses == s.licenses;
      assert LinksResolve(s1) by {
        if s1 != s && OrderFound(s, orderId, fx) {
          assert s1 == UpdateOrderStatus(s, orderId, "completed", session.paymentIntent);
        }
      }
      if fx.createKey.Succeeds? {
        KeyStepsKeepConsistent(s1, session, orderId, fx);
      }
  }

  /** Creating the key and the two best-effort links keep the stores
      consistent. */
  lemma KeyStepsKeepConsistent(s1: Stores, session: Session, orderId: string, fx: Effects)
    requires ValidDraws(fx.draws)
    requires Consistent(s1)
    ensures Consistent(KeySteps(s1, session, orderId, fx))
  {
    KeyTextIsWellFormed(fx.draws);
    var s2 := CreateLicenseKey(s1, NewKeyRecord(KeyText(fx.draws), orderId));
    assert Consistent(s2);
    var s3 := if fx.updateSession.Throws? then s2 else UpdateOrderSession(s2, orderId, session.id);
    assert Consistent(s3);
    if fx.updateLicense.Succeeds? && fx.keyReturn == ReturnsDocument {
      assert |s1.licenses| < |s3.licenses|;
      assert Consistent(UpdateOrderLicenseKey(s3, orderId, |s1.licenses|));
    }
  }


  // -------------------------------------------------------- two deliveries

  /** A delivery of a completed checkout for an orderId with no row, every
      call succeeding: the event is recorded as processed, one row and one key
      record are appended, the row linked to the record when the created key
      has an `id`, and the response names both. */
  lemma {:induction false} FreshDelivery(s: Stores, e: Event, fx: Effects)
    requires ValidDraws(fx.draws) && AllSucceed(fx) && e.eventType == CheckoutCompletedType
    requires CountOrders(s.orders, OrderIdFor(e.payload, fx)) == 0
    ensures var orderId := OrderIdFor(e.payload, fx);
      Deliver(s, "POST", Verified(e), fx) == Step(
        Stores(
          s.events[e.id := EventRecord(e.eventType, true, None)],
          s.orders + [NewOrder(orderId, e.payload).(checkoutSessionId := Some(e.payload.id),
                                                    licenseKeyId := Relink(None, Created(fx.keyReturn, |s.licenses|)))],
          s.licenses + [NewKeyRecord(KeyText(fx.draws), orderId)]),
        Received(Fulfilled(orderId, Created(fx.keyReturn, |s.licenses|))))
  {
    var s0 := StoreWebhookEvent(s, e.id, e.eventType);
    FreshCheckout(s0, e.payload, fx);
  }

  /** A delivery of a completed checkout for an orderId that has a row, every
      call succeeding: that row is completed and, when the created key has an
      `id`, re-linked to a newly appended key record; no row is added. */
  lemma {:induction false} RepeatDelivery(s: Stores, e: Event, fx: Effects)
    requires ValidDraws(fx.draws) && AllSucceed(fx) && e.eventType == CheckoutCompletedType
    requires FindOrder(s.orders, OrderIdFor(e.payload, fx)) < |s.orders|
    ensures var orderId := OrderIdFor(e.payload, fx);
      var i := FindOrder(s.orders, orderId);
      var session := e.payload;
      Deliver(s, "POST", Verified(e), fx) == Step(
        Stores(
          s.events[e.id := EventRecord(e.eventType, true, None)],
          s.orders[i := s.orders[i].(status := "completed", paymentIntentId := session.paymentIntent,
                                     checkoutSessionId := Some(session.id),
                                     licenseKeyId := Relink(s.orders[i].licenseKeyId, Created(fx.keyReturn, |s.licenses|)))],
          s.licenses + [NewKeyRecord(KeyText(fx.draws), orderId)]),
        Received(Fulfilled(orderId, Created(fx.keyReturn, |s.licenses|))))
  {
    var s0 := StoreWebhookEvent(s, e.id, e.eventType);
    assert s0.orders == s.orders && s0.licenses == s.licenses;
    RepeatCheckout(s0, e.payload, fx);
    CheckoutDeliveryOutline(s, e, fx);
  }

  /** A verified completed-checkout POST whose every call succeeds: the
      response and stores are those of the fulfilment, run on the stores with
      the event stored, with the event then recorded as processed. */
  lemma CheckoutDeliveryOutline(s: Stores, e: Event, fx: Effects)
    requires ValidDraws(fx.draws) && AllSucceed(fx) && e.eventType == CheckoutCompletedType
    ensures var st := CheckoutCompleted(StoreWebhookEvent(s, e.id, e.eventType), e.payload, fx);
      st.outcome.Ok? ==>
        Deliver(s, "POST", Verified(e), fx)
        == Step(st.stores.(events := s.events[e.id := EventRecord(e.eventType, true, None)]), Received(st.outcome.value))
  {
    var s0 := StoreWebhookEvent(s, e.id, e.eventType);
    var st := CheckoutCompleted(s0, e.payload, fx);
    if st.outcome.Ok? {
      assert st.stores.events == s0.events by {
        CheckoutOutline(s0, e.payload, fx);
      }
      assert Dispatch(s0, e, fx) == st;
      var a := Attempt(s, e, fx);
      assert a == Step(MarkWebhookProcessed(st.stores, e.id, true, None), st.outcome);
      StoreThenMark(s, st.stores, e.id, e.eventType);
      assert Deliver(s, "POST", Verified(e), fx) == Step(a.stores, Received(st.outcome.value));
    }
  }

  /** Marking processed an event just stored unprocessed records it as
      processed without error. */
  lemma StoreThenMark(s: Stores, t: Stores, eventId: string, eventType: string)
    requires t.events == StoreWebhookEvent(s, eventId, eventType).events
    ensures MarkWebhookProcessed(t, eventId, true, None)
         == t.(events := s.events[eventId := EventRecord(eventType, true, None)])
  {
    assert t.events[eventId := t.events[eventId].(processed := true, error := None)]
        == s.events[eventId := EventRecord(eventType, true, None)];
  }

  /** A repeat delivery to stores holding exactly one row for the order, as
      the last row: still exactly one row, linked to the new key when the
      created key has an `id`. */
  lemma {:induction false} SecondDelivery(prefix: seq<Order>, row: Order, t: Stores, e: Event, fx: Effects)
    requires ValidDraws(fx.draws) && AllSucceed(fx) && e.eventType == CheckoutCompletedType
    requires t.orders == prefix + [row] && row.orderId == OrderIdFor(e.payload, fx)
    requires CountOrders(prefix, OrderIdFor(e.payload, fx)) == 0
    ensures var orderId := OrderIdFor(e.payload, fx);
      var r := Deliver(t, "POST", Verified(e), fx);
      r.outcome == Received(Fulfilled(orderId, Created(fx.keyReturn, |t.licenses|)))
      && CountOrders(r.stores.orders, orderId) == 1
      && r.stores.licenses == t.licenses + [NewKeyRecord(KeyText(fx.draws), orderId)]
      && GetOrder(r.stores, orderId).Some?
      && GetOrder(r.stores, orderId).value.licenseKeyId == Relink(row.licenseKeyId, Created(fx.keyReturn, |t.licenses|))
  {
    var orderId := OrderIdFor(e.payload, fx);
    var session := e.payload;
    CountZero(prefix, orderId);
    FindAfterAppend(prefix, row, orderId);
    RepeatDelivery(t, e, fx);
    var row2 := row.(status := "completed", paymentIntentId := session.paymentIntent,
                     checkoutSessionId := Some(session.id),
                     licenseKeyId := Relink(row.licenseKeyId, Created(fx.keyReturn, |t.licenses|)));
    var r := Deliver(t, "POST", Verified(e), fx);
    assert r.stores.orders == t.orders[|prefix| := row2];
    assert r.stores.orders == prefix + [row2];
    CountAppend(prefix, row2, orderId);
    FindAfterAppend(prefix, row2, orderId);
  }

  /** The two tables after a first delivery, as `FreshDelivery` gives them. */
  lemma FirstDeliveryTables(s: Stores, e: Event, fx: Effects)
    requires ValidDraws(fx.draws) && AllSucceed(fx) && e.eventType == CheckoutCompletedType
    requires CountOrders(s.orders, OrderIdFor(e.payload, fx)) == 0
    ensures var orderId := OrderIdFor(e.payload, fx);
      var r := Deliver(s, "POST", Verified(e), fx);
      r.outcome == Received(Fulfilled(orderId, Created(fx.keyReturn, |s.licenses|)))
      && r.stores.orders == s.orders + [NewOrder(orderId, e.payload).(checkoutSessionId := Some(e.payload.id),
                                                                      licenseKeyId := Relink(None, Created(fx.keyReturn, |s.licenses|)))]
      && r.stores.licenses == s.licenses + [NewKeyRecord(KeyText(fx.draws), orderId)]
  {
    FreshDelivery(s, e, fx);
  }

  /** The first of two deliveries of the same completed-checkout event, in
      the terms the second delivery needs: one new row, linked to the first
      key when its creation returned a document, and one new key record. */
  lemma {:induction false} FirstOfTwoDeliveries(s: Stores, e: Event, fx1: Effects)
    requires ValidDraws(fx1.draws) && AllSucceed(fx1)
    requires e.eventType == CheckoutCompletedType && Truthy(MetadataValue(e.payload.metadata, "orderId"))
    requires CountOrders(s.orders, e.payload.metadata["orderId"]) == 0
    ensures var orderId := e.payload.metadata["orderId"];
      var r1 := Deliver(s, "POST", Verified(e), fx1);
      var row1 := NewOrder(orderId, e.payload).(checkoutSessionId := Some(e.payload.id),
                                                licenseKeyId := Relink(None, Created(fx1.keyReturn, |s.licenses|)));
      r1.outcome == Received(Fulfilled(orderId, Created(fx1.keyReturn, |s.licenses|)))
      && r1.stores.orders == s.orders + [row1] && row1.orderId == orderId
      && r1.stores.licenses == s.licenses + [NewKeyRecord(KeyText(fx1.draws), orderId)]
  {
    var orderId := e.payload.metadata["orderId"];
    assert OrderIdFor(e.payload, fx1) == orderId;
    FirstDeliveryTables(s, e, fx1);
  }

  /** The second of two deliveries of the same completed-checkout event, on
      stores holding the one row the first delivery appended. */
  lemma {:induction false} SecondOfTwoDeliveries(s: Stores, t: Stores, row1: Order, e: Event, fx2: Effects)
    requires ValidDraws(fx2.draws) && AllSucceed(fx2)
    requires e.eventType == CheckoutCompletedType && Truthy(MetadataValue(e.payload.metadata, "orderId"))
    requires CountOrders(s.orders, e.payload.metadata["orderId"]) == 0
    requires t.orders == s.orders + [row1] && row1.orderId == e.payload.metadata["orderId"]
    ensures var orderId := e.payload.metadata["orderId"];
      var r2 := Deliver(t, "POST", Verified(e), fx2);
      r2.outcome == Received(Fulfilled(orderId, Created(fx2.keyReturn, |t.licenses|)))
      && CountOrders(r2.stores.orders, orderId) == 1
      && r2.stores.licenses == t.licenses + [NewKeyRecord(KeyText(fx2.draws), orderId)]
      && GetOrder(r2.stores, orderId).Some?
      && GetOrder(r2.stores, orderId).value.licenseKeyId == Relink(row1.licenseKeyId, Created(fx2.keyReturn, |t.licenses|))
  {
    var orderId := e.payload.metadata["orderId"];
    assert OrderIdFor(e.payload, fx2) == orderId;
    SecondDelivery(s.orders, row1, t, e, fx2);
  }

  /** What two deliveries `r1` then `r2` of one completed-checkout event for
      `orderId`, starting from `s`, leave behind: both fulfilled, one order
      row, two new key records, and the row linked as `Relink` says. */
  predicate TwiceFulfilled(s: Stores, r1: Step<WebhookResponse>, r2: Step<WebhookResponse>, orderId: string,
                           fx1: Effects, fx2: Effects)
    requires ValidDraws(fx1.draws) && ValidDraws(fx2.draws)
  {
    var c1 := Created(fx1.keyReturn, |s.licenses|);
    var c2 := Created(fx2.keyReturn, |s.licenses| + 1);
    r1.outcome == Received(Fulfilled(orderId, c1))
    && r2.outcome == Received(Fulfilled(orderId, c2))
    && CountOrders(r2.stores.orders, orderId) == 1
    && r2.stores.licenses == s.licenses + [NewKeyRecord(KeyText(fx1.draws), orderId), NewKeyRecord(KeyText(fx2.draws), orderId)]
    && GetOrder(r2.stores, orderId).Some? && GetOrder(r2.stores, orderId).value.licenseKeyId == Relink(Relink(None, c1), c2)
  }

  /** Stripe redelivers the same completed-checkout event (its metadata names
      the order, and every call succeeds both times) to stores without that
      order: afterwards there is one order row for it and two new key
      records, and the order ends linked to the last key whose creation
      returned a document with an `id`, if any. */
  lemma {:induction false} TwoDeliveriesOneOrderTwoKeys(s: Stores, e: Event, fx1: Effects, fx2: Effects)
    requires ValidDraws(fx1.draws) && ValidDraws(fx2.draws) && AllSucceed(fx1) && AllSucceed(fx2)
    requires e.eventType == CheckoutCompletedType && Truthy(MetadataValue(e.payload.metadata, "orderId"))
    requires CountOrders(s.orders, e.payload.metadata["orderId"]) == 0
    ensures var r1 := Deliver(s, "POST", Verified(e), fx1);
      TwiceFulfilled(s, r1, Deliver(r1.stores, "POST", Verified(e), fx2), e.payload.metadata["orderId"], fx1, fx2)
  {
    var orderId := e.payload.metadata["orderId"];
    var r1 := Deliver(s, "POST", Verified(e), fx1);
    var row1 := NewOrder(orderId, e.payload).(checkoutSessionId := Some(e.payload.id),
                                              licenseKeyId := Relink(None, Created(fx1.keyReturn, |s.licenses|)));
    FirstOfTwoDeliveries(s, e, fx1);
    SecondOfTwoDeliveries(s, r1.stores, row1, e, fx2);
    TwiceFulfilledByParts(s, r1, Deliver(r1.stores, "POST", Verified(e), fx2), row1, orderId, fx1, fx2);
  }

  /** The two delivery steps compose into `TwiceFulfilled`. */
  lemma TwiceFulfilledByParts(s: Stores, r1: Step<WebhookResponse>, r2: Step<WebhookResponse>, row1: Order,
                              orderId: string, fx1: Effects, fx2: Effects)
    requires ValidDraws(fx1.draws) && ValidDraws(fx2.draws)
    requires r1.outcome == Received(Fulfilled(orderId, Created(fx1.keyReturn, |s.licenses|)))
    requires row1.licenseKeyId == Relink(None, Created(fx1.keyReturn, |s.licenses|))
    requires r1.stores.licenses == s.licenses + [NewKeyRecord(KeyText(fx1.draws), orderId)]
    requires r2.outcome == Received(Fulfilled(orderId, Created(fx2.keyReturn, |r1.stores.licenses|)))
    requires CountOrders(r2.stores.orders, orderId) == 1
    requires r2.stores.licenses == r1.stores.licenses + [NewKeyRecord(KeyText(fx2.draws), orderId)]
    requires GetOrder(r2.stores, orderId).Some?
    requires GetOrder(r2.stores, orderId).value.licenseKeyId == Relink(row1.licenseKeyId, Created(fx2.keyReturn, |r1.stores.licenses|))
    ensures TwiceFulfilled(s, r1, r2, orderId, fx1, fx2)
  {
    var k1 := NewKeyRecord(KeyText(fx1.draws), orderId);
    var k2 := NewKeyRecord(KeyText(fx2.draws), orderId);
    assert (s.licenses + [k1]) + [k2] == s.licenses + [k1, k2];
  }

}
