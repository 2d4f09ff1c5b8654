/** The purchase as a whole: the webhook fulfils a checkout, the license
    endpoint then finds the key, and the success page shows it. */
module PurchaseFlow {
  import opened Wrappers
  import opened Text
  import opened LicenseKeys
  import opened Ledger
  import opened Webhook
  import opened WebhookProperties
  import LicenseApi
  import SuccessPage
  import Security

  /** How the page reads the license endpoint's answer: a 200 carries
      `licenseKey`; every other status is not `ok`. */
  function ReplyFor(r: LicenseApi.LicenseResponse): (reply: SuccessPage.FetchReply)
    ensures SuccessPage.KeyOf(reply).Some? <==> r.Found? && r.licenseKey != ""
    ensures r.Found? && r.licenseKey != "" ==> SuccessPage.KeyOf(reply) == Some(r.licenseKey)
  {
    if r.Found? then SuccessPage.Replied(true, Some(r.licenseKey)) else SuccessPage.Replied(false, None)
  }

  /** Every Convex query of the license endpoint answers. */
  const QueriesAnswer := LicenseApi.QueryFaults(Succeeds, Succeeds, Succeeds)

  /** A row appended last, completed and carrying a session no earlier row
      carries, is the one the session lookup and the latest-order lookup both
      land on. */
  lemma AppendedRowIsFound(orders: seq<Order>, row: Order, sessionId: string)
    requires row.checkoutSessionId == Some(sessionId) && row.status == "completed"
    requires forall k :: 0 <= k < |orders| ==> orders[k].checkoutSessionId != Some(sessionId)
    ensures LicenseApi.FindBySession(orders + [row], sessionId) == |orders|
    ensures LicenseApi.LatestCompletedIndex(orders + [row]) == |orders|
  {
    var all := orders + [row];
    assert all[|orders|] == row;
    assert forall k :: 0 <= k < |orders| ==> all[k] == orders[k];
  }

  /** Both lookups answer from such a row and the key record it links. */
  lemma AppendedRowAnswers(t: Stores, prefix: seq<Order>, row: Order, sessionId: string, development: bool)
    requires t.orders == prefix + [row] && row.checkoutSessionId == Some(sessionId) && row.status == "completed"
    requires row.licenseKeyId.Some? && row.licenseKeyId.value < |t.licenses|
    requires forall k :: 0 <= k < |prefix| ==> prefix[k].checkoutSessionId != Some(sessionId)
    requires sessionId != ""
    ensures var expected := LicenseApi.Found(t.licenses[row.licenseKeyId.value].key, row.orderId, row.customerEmail);
      LicenseApi.Lookup("GET", LicenseApi.LicenseQuery(Some(sessionId), None), t, QueriesAnswer,
                        Security.NoArg, Security.NoArg, development) == expected
      && LicenseApi.Lookup("GET", LicenseApi.LicenseQuery(None, Some("true")), t, QueriesAnswer,
                           Security.NoArg, Security.NoArg, development) == expected
  {
    AppendedRowIsFound(prefix, row, sessionId);
  }

  /** Both lookups land on such a row when it carries no key link, and
      answer 404. */
  lemma AppendedUnlinkedRowAnswers(t: Stores, prefix: seq<Order>, row: Order, sessionId: string, development: bool)
    requires t.orders == prefix + [row] && row.checkoutSessionId == Some(sessionId) && row.status == "completed"
    requires row.licenseKeyId.None?
    requires forall k :: 0 <= k < |prefix| ==> prefix[k].checkoutSessionId != Some(sessionId)
    requires sessionId != ""
    ensures LicenseApi.Lookup("GET", LicenseApi.LicenseQuery(Some(sessionId), None), t, QueriesAnswer,
                              Security.NoArg, Security.NoArg, development)
         == LicenseApi.NotFound("License key not found for this session")
    ensures LicenseApi.Lookup("GET", LicenseApi.LicenseQuery(None, Some("true")), t, QueriesAnswer,
                              Security.NoArg, Security.NoArg, development)
         == LicenseApi.NotFound("No license key found for the latest order")
  {
    AppendedRowIsFound(prefix, row, sessionId);
  }

  /** After a completed checkout is delivered once, with every call
      succeeding, for an order and a session the stores did not know: when
      `createLicenseKey` returns a document with an `id`, asking the license
      endpoint by that session id, or for the latest order, answers with the
      key the webhook generated, the order's id and its e-mail; when it
      returns a bare id the order was never linked, and both lookups answer
      404 although the key record exists. */
  lemma FulfilledCheckoutIsFound(s: Stores, e: Event, fx: Effects, development: bool)
    requires ValidDraws(fx.draws) && AllSucceed(fx) && e.eventType == CheckoutCompletedType
    requires CountOrders(s.orders, OrderIdFor(e.payload, fx)) == 0
    requires forall k :: 0 <= k < |s.orders| ==> s.orders[k].checkoutSessionId != Some(e.payload.id)
    requires e.payload.id != ""
    ensures var after := Deliver(s, "POST", Verified(e), fx).stores;
      var orderId := OrderIdFor(e.payload, fx);
      var expected := LicenseApi.Found(KeyText(fx.draws), orderId, NewOrder(orderId, e.payload).customerEmail);
      var bySession := LicenseApi.Lookup("GET", LicenseApi.LicenseQuery(Some(e.payload.id), None), after, QueriesAnswer,
                                         Security.NoArg, Security.NoArg, development);
      var latest := LicenseApi.Lookup("GET", LicenseApi.LicenseQuery(None, Some("true")), after, QueriesAnswer,
                                      Security.NoArg, Security.NoArg, development);
      if fx.keyReturn == ReturnsDocument then
        bySession == expected && latest == expected
      else
        bySession == LicenseApi.NotFound("License key not found for this session")
        && latest == LicenseApi.NotFound("No license key found for the latest order")
  {
    var orderId := OrderIdFor(e.payload, fx);
    FreshDelivery(s, e, fx);
    var row := NewOrder(orderId, e.payload).(checkoutSessionId := Some(e.payload.id),
                                             licenseKeyId := Relink(None, Created(fx.keyReturn, |s.licenses|)));
    var after := Deliver(s, "POST", Verified(e), fx).stores;
    assert after.orders == s.orders + [row];
    if fx.keyReturn == ReturnsDocument {
      assert after.licenses == s.licenses + [NewKeyRecord(KeyText(fx.draws), orderId)];
      assert after.licenses[|s.licenses|].key == KeyText(fx.draws);
      AppendedRowAnswers(after, s.orders, row, e.payload.id, development);
    } else {
      AppendedUnlinkedRowAnswers(after, s.orders, row, e.payload.id, development);
    }
  }

  /** The same purchase seen from the success page, opened with the session
      id. When the order was linked, its first request is answered with the
      generated key, which it shows without polling; the copy button is then
      enabled unless the draws happened to spell the placeholder. When the
      created key was a bare id, the first request finds no key and the page
      falls back to polling for the latest order. */
  lemma SuccessPageShowsGeneratedKey(s: Stores, e: Event, fx: Effects, development: bool,
                                     replies: nat -> SuccessPage.FetchReply)
    requires ValidDraws(fx.draws) && AllSucceed(fx) && e.eventType == CheckoutCompletedType
    requires CountOrders(s.orders, OrderIdFor(e.payload, fx)) == 0
    requires forall k :: 0 <= k < |s.orders| ==> s.orders[k].checkoutSessionId != Some(e.payload.id)
    requires e.payload.id != ""
    requires replies(0) == ReplyFor(LicenseApi.Lookup("GET", LicenseApi.LicenseQuery(Some(e.payload.id), None),
                                                      Deliver(s, "POST", Verified(e), fx).stores, QueriesAnswer,
                                                      Security.NoArg, Security.NoArg, development))
    ensures var page := SuccessPage.Load(SuccessPage.PageParams(Some(e.payload.id), None), replies, SuccessPage.Initial);
      if fx.keyReturn == ReturnsDocument then
        page.licenseKey == KeyText(fx.draws) && !page.isLoading
        && page.requests == [SuccessPage.BySession(e.payload.id)]
        && (SuccessPage.CopyDisabled(page) <==> KeyText(fx.draws) == Placeholder)
      else
        !page.isLoading && |page.requests| > 1 && page.requests[0] == SuccessPage.BySession(e.payload.id)
        && forall k :: 1 <= k < |page.requests| ==> page.requests[k] == SuccessPage.Latest
  {
    FulfilledCheckoutIsFound(s, e, fx, development);
    KeyTextIsWellFormed(fx.draws);
  }
}
