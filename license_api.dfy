/** The license lookup endpoint (pages/api/license.js): a read-only decision
    over a snapshot of the stores. The three Convex queries it makes are
    modelled on the store value: `stripe:getOrderBySessionId` is the first
    order row carrying the session id, `stripe:getAllOrders` with status
    'completed' and limit 1 is the most recently inserted completed row, and
    `licenseKeys:getLicenseKeyById` is the record at that position. Each query
    may instead throw (a `Call`). */
module LicenseApi {
  import opened Wrappers
  import opened Text
  import opened Ledger
  import Security

  /** `req.query`: the `session_id` and `latest` parameters. */
  datatype LicenseQuery = LicenseQuery(sessionId: Option<string>, latest: Option<string>)

  /** Whether each Convex query answers or throws. */
  datatype QueryFaults = QueryFaults(bySession: Call, allOrders: Call, keyById: Call)

  datatype LicenseResponse =
    | Rejected(message: string)                                          // a middleware rejected the handler's promise
    | MethodNotAllowed                                                   // 405
    | MissingParameter                                                   // 400
    | NotFound(error: string)                                            // 404
    | Found(licenseKey: string, orderId: string, customerEmail: string)  // 200
    | ServerError(message: string)                                       // 500 {error:'Failed to fetch license key', message}

  const MissingParameterMessage := "Missing required parameter: session_id or latest"
  const FetchFailedError := "Failed to fetch license key"

  // ---------------------------------------------------------------- queries

  /** The position of the first row carrying this checkout session id. */
  function FindBySession(orders: seq<Order>, sessionId: string): (r: nat)
    ensures r <= |orders|
    ensures r < |orders| ==> orders[r].checkoutSessionId == Some(sessionId)
    ensures forall k :: 0 <= k < r ==> orders[k].checkoutSessionId != Some(sessionId)
  {
    if |orders| == 0 then 0
    else if orders[0].checkoutSessionId == Some(sessionId) then 0
    else 1 + FindBySession(orders[1..], sessionId)
  }

  /** `stripe:getOrderBySessionId`. */
  function OrderBySessionId(s: Stores, sessionId: string): (r: Option<Order>)
    ensures r.None? <==> forall k :: 0 <= k < |s.orders| ==> s.orders[k].checkoutSessionId != Some(sessionId)
    ensures r.Some? ==> r.value in s.orders && r.value.checkoutSessionId == Some(sessionId)
  {
    var i := FindBySession(s.orders, sessionId);
    if i < |s.orders| then Some(s.orders[i]) else None
  }

  /** The position of the most recently inserted completed row, or -1. */
  function LatestCompletedIndex(orders: seq<Order>): (r: int)
    ensures -1 <= r < |orders|
    ensures r >= 0 ==> orders[r].status == "completed"
    ensures forall k :: r < k < |orders| ==> orders[k].status != "completed"
  {
    if |orders| == 0 then -1
    else if orders[|orders| - 1].status == "completed" then |orders| - 1
    else LatestCompletedIndex(orders[..|orders| - 1])
  }

  /** `stripe:getAllOrders({status:'completed', limit:1})`: at most one row. */
  function LatestCompleted(s: Stores): (r: seq<Order>)
    ensures |r| <= 1
    ensures |r| == 0 <==> forall k :: 0 <= k < |s.orders| ==> s.orders[k].status != "completed"
    ensures |r| == 1 ==> r[0] == s.orders[LatestCompletedIndex(s.orders)]
    ensures |r| == 1 ==>
      exists i :: 0 <= i < |s.orders| && s.orders[i] == r[0] && r[0].status == "completed"
                  && forall k :: i < k < |s.orders| ==> s.orders[k].status != "completed"
  {
    var i := LatestCompletedIndex(s.orders);
    if i < 0 then [] else [s.orders[i]]
  }

  /** `licenseKeys:getLicenseKeyById`. */
  function KeyById(s: Stores, id: KeyId): (r: Option<KeyRecord>)
    ensures r.Some? <==> id < |s.licenses|
    ensures r.Some? ==> r.value == s.licenses[id]
  {
    if id < |s.licenses| then Some(s.licenses[id]) else None
  }

  // ---------------------------------------------------------------- handler

  /** The 500 body's `message`: the thrown message only in development. */
  function ExposedMessage(thrown: string, development: bool): string {
    if development then thrown else "Internal server error"
  }

  /** The 200 answer `r` is made of the row at `k` and the key record that
      row references. */
  ghost predicate AnswersFrom(s: Stores, k: nat, r: LicenseResponse)
    requires k < |s.orders| && r.Found?
  {
    s.orders[k].licenseKeyId.Some? && s.orders[k].licenseKeyId.value < |s.licenses|
    && s.licenses[s.orders[k].licenseKeyId.value].key == r.licenseKey
    && s.orders[k].orderId == r.orderId && s.orders[k].customerEmail == r.customerEmail
  }

  /** Fetching the key an order references and answering with it. */
  function RespondWithKey(order: Order, s: Stores, q: QueryFaults, development: bool): LicenseResponse
    requires order.licenseKeyId.Some?
  {
    if q.keyById.Throws? then ServerError(ExposedMessage(q.keyById.message, development))
    else match KeyById(s, order.licenseKeyId.value)
      case None => NotFound("License key not found")
      case Some(rec) => Found(rec.key, order.orderId, order.customerEmail)
  }

  /** The `session_id` branch: a 200 answer comes from the first row that
      carries the session. */
  function BySession(sessionId: string, s: Stores, q: QueryFaults, development: bool): (r: LicenseResponse)
    ensures r.Found? ==> FindBySession(s.orders, sessionId) < |s.orders| && AnswersFrom(s, FindBySession(s.orders, sessionId), r)
  {
    if q.bySession.Throws? then ServerError(ExposedMessage(q.bySession.message, development))
    else match OrderBySessionId(s, sessionId)
      case None => NotFound("License key not found for this session")
      case Some(order) =>
        if order.licenseKeyId.None? then NotFound("License key not found for this session")
        else RespondWithKey(order, s, q, development)
  }

  /** The `latest` branch: a 200 answer comes from the most recent completed
      row. */
  function ByLatest(s: Stores, q: QueryFaults, development: bool): (r: LicenseResponse)
    ensures r.Found? ==> LatestCompletedIndex(s.orders) >= 0 && AnswersFrom(s, LatestCompletedIndex(s.orders), r)
    ensures q.allOrders.Succeeds? && (forall k :: 0 <= k < |s.orders| ==> s.orders[k].status != "completed") ==>
      r == NotFound("No completed orders found")
    ensures (q.allOrders.Succeeds? && LatestCompletedIndex(s.orders) >= 0
             && s.orders[LatestCompletedIndex(s.orders)].licenseKeyId.None?) ==>
      r == NotFound("No license key found for the latest order")
  {
    if q.allOrders.Throws? then ServerError(ExposedMessage(q.allOrders.message, development))
    else
      var orders := LatestCompleted(s);
      if |orders| == 0 then NotFound("No completed orders found")
      else if orders[0].licenseKeyId.None? then NotFound("No license key found for the latest order")
      else RespondWithKey(orders[0], s, q, development)
  }

  /** The license `handler`, after its security headers: the CORS and limiter
      middleware, the method check, then the lookup. A 200 answer always
      carries the key of a stored record together with the orderId and
      e-mail of an order that references that very record. */
  function Lookup(httpMethod: string, query: LicenseQuery, s: Stores, q: QueryFaults,
                  cors: Security.CallbackArg, limiter: Security.CallbackArg, development: bool): (r: LicenseResponse)
    ensures Security.Admit(cors, limiter).Some? ==> r == Rejected(Security.Admit(cors, limiter).value)
    ensures Security.Admit(cors, limiter).None? && httpMethod != "GET" ==> r == MethodNotAllowed
    ensures r == MissingParameter <==>
      Security.Admit(cors, limiter).None? && httpMethod == "GET" && !Truthy(query.sessionId) && !Truthy(query.latest)
    ensures r.Found? ==> exists k :: 0 <= k < |s.orders| && AnswersFrom(s, k, r)
  {
    match Security.Admit(cors, limiter)
    case Some(m) => Rejected(m)
    case None =>
      if httpMethod != "GET" then MethodNotAllowed
      else if Truthy(query.sessionId) then BySession(query.sessionId.value, s, q, development)
      else if Truthy(query.latest) then ByLatest(s, q, development)
      else MissingParameter
  }

  // ---------------------------------------------------------------- lemmas

  /** A truthy `session_id` decides the branch: `latest` is then ignored. */
  lemma SessionTakesPrecedence(httpMethod: string, query: LicenseQuery, latest: Option<string>, s: Stores, q: QueryFaults,
                               cors: Security.CallbackArg, limiter: Security.CallbackArg, development: bool)
    requires Truthy(query.sessionId)
    ensures Lookup(httpMethod, query, s, q, cors, limiter, development)
         == Lookup(httpMethod, query.(latest := latest), s, q, cors, limiter, development)
  {
  }

  /** `latest` is tested for truthiness: any non-empty value, the string
      "false" included, selects the latest branch, and which one does not
      matter. */
  lemma AnyTruthyLatestSelectsLatest(query: LicenseQuery, s: Stores, q: QueryFaults, development: bool)
    requires !Truthy(query.sessionId) && Truthy(query.latest)
    ensures Lookup("GET", query, s, q, Security.NoArg, Security.NoArg, development) == ByLatest(s, q, development)
    ensures Lookup("GET", query, s, q, Security.NoArg, Security.NoArg, development)
         == Lookup("GET", query.(latest := Some("false")), s, q, Security.NoArg, Security.NoArg, development)
  {
  }

  /** The session branch answers 404 exactly when no order carries the
      session, or the first one that does has no key reference, or the
      referenced record is missing. */
  lemma SessionNotFoundCases(sessionId: string, s: Stores, q: QueryFaults, development: bool)
    requires q.bySession.Succeeds? && q.keyById.Succeeds?
    ensures var r := BySession(sessionId, s, q, development);
      var i := FindBySession(s.orders, sessionId);
      r.NotFound? <==>
        i == |s.orders| || s.orders[i].licenseKeyId.None? || s.orders[i].licenseKeyId.value >= |s.licenses|
  {
  }

  /** Only the single most recent completed order is examined: if it has no
      key reference the answer is 404, whatever older orders hold. */
  lemma OnlyLatestOrderExamined(s: Stores, q: QueryFaults, development: bool, older: seq<Order>)
    requires q.allOrders.Succeeds?
    requires |s.orders| > 0 && s.orders[|s.orders| - 1].status == "completed"
    requires s.orders[|s.orders| - 1].licenseKeyId.None?
    ensures ByLatest(s, q, development) == NotFound("No license key found for the latest order")
    ensures ByLatest(s.(orders := older + s.orders), q, development) == NotFound("No license key found for the latest order")
  {
    var t := s.(orders := older + s.orders);
    assert t.orders[|t.orders| - 1] == s.orders[|s.orders| - 1];
  }

  /** A failing query yields 500, whose message is the thrown one only in
      development. */
  lemma ServerErrorHidesMessage(httpMethod: string, query: LicenseQuery, s: Stores, q: QueryFaults,
                                cors: Security.CallbackArg, limiter: Security.CallbackArg, development: bool)
    ensures var r := Lookup(httpMethod, query, s, q, cors, limiter, development);
      r.ServerError? ==>
        (if development
         then (q.bySession.Throws? && r.message == q.bySession.message)
           || (q.allOrders.Throws? && r.message == q.allOrders.message)
           || (q.keyById.Throws? && r.message == q.keyById.message)
         else r.message == "Internal server error" && (q.bySession.Throws? || q.allOrders.Throws? || q.keyById.Throws?))
  {
  }
}
