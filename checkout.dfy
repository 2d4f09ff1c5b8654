/** The checkout endpoint (pages/api/checkout.js): request validation and the
    parameters of the Checkout Session it asks Stripe to create. The provider
    call is an oracle (`ProviderReply`); the two order ids the handler
    synthesises each come from their own clock reading and random suffix. */
module Checkout {
  import opened Wrappers
  import opened Text
  import opened Email
  import Security
  import Webhook

  /** The fields of `req.body` the handler reads; an absent `metadata`
      defaults to the empty object. */
  datatype CheckoutRequest = CheckoutRequest(
    priceId: Option<string>,
    customerEmail: Option<string>,
    customerName: Option<string>,
    successUrl: Option<string>,
    cancelUrl: Option<string>,
    metadata: map<string, string>)

  /** A `Date.now()` reading and a `Math.random()` base-36 suffix. */
  datatype Clock = Clock(nowMs: nat, suffix: string)

  datatype LineItem = LineItem(price: string, quantity: nat)

  /** The argument of `stripe.checkout.sessions.create`. */
  datatype SessionParams = SessionParams(
    paymentMethodTypes: seq<string>,
    lineItems: seq<LineItem>,
    mode: string,
    customerEmail: Option<string>,
    successUrl: string,
    cancelUrl: string,
    metadata: map<string, string>)

  /** What the provider answers: the created session, or a thrown error. */
  datatype ProviderReply = SessionCreated(id: string, url: string) | ProviderFailed(message: string)

  datatype CheckoutResponse =
    | Rejected(message: string)                              // a middleware rejected the handler's promise
    | MethodNotAllowed                                       // 405
    | MissingFields                                          // 400 {error:'Missing required fields', required:[...]}
    | InvalidEmail                                           // 400 {error:'Invalid email format'}
    | Created(sessionId: string, url: string, orderId: string) // 200 {success:true, sessionId, url, orderId}
    | ServerError(message: string)                           // 500 {error:'Failed to create checkout session', message}

  /** The response, and the parameters sent to the provider if a session was
      requested at all. */
  datatype CheckoutResult = CheckoutResult(sent: Option<SessionParams>, response: CheckoutResponse)

  const RequiredFields: seq<string> := ["priceId", "successUrl", "cancelUrl"]
  const SessionIdToken: string := "{CHECKOUT_SESSION_ID}"
  const SessionIdQuery: string := "session_id=" + SessionIdToken

  // ------------------------------------------------------------ success_url

  /** `successUrl + (successUrl.includes('?') ? '&' : '?') + 'session_id={CHECKOUT_SESSION_ID}'`. */
  function SuccessUrl(u: string): (r: string)
    ensures |r| == |u| + 1 + |SessionIdQuery| && r[..|u|] == u
    ensures r[|u|] == (if '?' in u then '&' else '?')
    ensures r[|u| + 1..] == SessionIdQuery
  {
    u + (if '?' in u then "&" else "?") + SessionIdQuery
  }

  /** `t` occurs in `s` starting at position `p`. */
  predicate OccursAt(s: string, t: string, p: nat) {
    p + |t| <= |s| && s[p..p + |t|] == t
  }

  /** The success URL keeps the caller's URL as its prefix and adds exactly one
      `{CHECKOUT_SESSION_ID}` placeholder, 12 characters after it (past the
      separator and `session_id=`): every other occurrence is one the caller's
      URL already had. */
  lemma SuccessUrlAddsOnePlaceholder(u: string, p: nat)
    ensures OccursAt(SuccessUrl(u), SessionIdToken, p) <==> OccursAt(u, SessionIdToken, p) || p == |u| + 12
  {
    var r := SuccessUrl(u);
    var n := |SessionIdToken|;
    if p + n <= |u| {
      assert r[p..p + n] == u[p..p + n];
    } else if p <= |u| && p + n <= |r| {
      // the window covers the separator, which the placeholder does not contain
      assert '?' !in SessionIdToken && '&' !in SessionIdToken;
      assert r[p..p + n][|u| - p] == r[|u|] != SessionIdToken[|u| - p];
    } else if |u| < p < |u| + 12 {
      // the window starts inside `session_id=`, which has no '{'
      assert r[p] == SessionIdQuery[p - |u| - 1] != '{';
      assert r[p..p + n][0] == r[p];
    } else if p == |u| + 12 {
      assert r[p..p + n] == r[|u| + 1..][11..];
    }
  }

  // --------------------------------------------------------------- metadata

  /** `{source:'nextjs_website', orderId, ...metadata}`: the caller's entries
      are spread last and so win. */
  function SessionMetadata(caller: map<string, string>, orderId: string): (m: map<string, string>)
    ensures m.Keys == caller.Keys + {"source", "orderId"}
    ensures forall k :: k in caller ==> m[k] == caller[k]
    ensures "source" !in caller ==> m["source"] == "nextjs_website"
    ensures "orderId" !in caller ==> m["orderId"] == orderId
  {
    map["source" := "nextjs_website", "orderId" := orderId] + caller
  }

  /** The session parameters for a request that passed validation. */
  function Params(req: CheckoutRequest, metaClock: Clock): (p: SessionParams)
    requires Truthy(req.priceId) && Truthy(req.successUrl) && Truthy(req.cancelUrl)
    ensures p.lineItems == [LineItem(req.priceId.value, 1)] && p.mode == "payment" && p.paymentMethodTypes == ["card"]
    ensures p.customerEmail.Some? <==> Truthy(req.customerEmail)
    ensures p.customerEmail.Some? ==> p.customerEmail == req.customerEmail
    ensures p.cancelUrl == req.cancelUrl.value
  {
    SessionParams(
      ["card"],
      [LineItem(req.priceId.value, 1)],
      "payment",
      if Truthy(req.customerEmail) then req.customerEmail else None,
      SuccessUrl(req.successUrl.value),
      req.cancelUrl.value,
      SessionMetadata(req.metadata, Webhook.SynthesizedOrderId(metaClock.nowMs, metaClock.suffix)))
  }

  // ---------------------------------------------------------------- handler

  /** The request passes the two validation steps. */
  predicate Valid(req: CheckoutRequest) {
    Truthy(req.priceId) && Truthy(req.successUrl) && Truthy(req.cancelUrl)
    && (Truthy(req.customerEmail) ==> IsEmail(req.customerEmail.value))
  }

  /** The checkout `handler`, after its security headers. A session is
      requested exactly when the middleware admit the request, it is a POST
      and it passes validation; missing fields are reported before a bad
      e-mail. */
  function Handle(httpMethod: string, req: CheckoutRequest, cors: Security.CallbackArg, limiter: Security.CallbackArg,
                  metaClock: Clock, responseClock: Clock, reply: ProviderReply): (r: CheckoutResult)
    ensures r.sent.Some? <==> Security.Admit(cors, limiter).None? && httpMethod == "POST" && Valid(req)
    ensures Security.Admit(cors, limiter).Some? ==> r.response == Rejected(Security.Admit(cors, limiter).value)
    ensures Security.Admit(cors, limiter).None? && httpMethod != "POST" ==> r.response == MethodNotAllowed
    ensures r.response == MissingFields <==>
      Security.Admit(cors, limiter).None? && httpMethod == "POST"
      && (!Truthy(req.priceId) || !Truthy(req.successUrl) || !Truthy(req.cancelUrl))
    ensures r.response == InvalidEmail <==>
      Security.Admit(cors, limiter).None? && httpMethod == "POST"
      && Truthy(req.priceId) && Truthy(req.successUrl) && Truthy(req.cancelUrl)
      && Truthy(req.customerEmail) && !IsEmail(req.customerEmail.value)
    ensures r.sent.Some? ==> r.sent.value.successUrl == SuccessUrl(req.successUrl.value)
    ensures r.sent.Some? ==> r.sent.value.metadata == SessionMetadata(req.metadata, Webhook.SynthesizedOrderId(metaClock.nowMs, metaClock.suffix))
    ensures r.sent.Some? ==> (r.response.Created? <==> reply.SessionCreated?)
    ensures r.sent.Some? && reply.ProviderFailed? ==> r.response == ServerError(reply.message)
    ensures r.response.Created? ==> r.response.sessionId == reply.id && r.response.url == reply.url
  {
    match Security.Admit(cors, limiter)
    case Some(m) => CheckoutResult(None, Rejected(m))
    case None =>
      if httpMethod != "POST" then CheckoutResult(None, MethodNotAllowed)
      else if !Truthy(req.priceId) || !Truthy(req.successUrl) || !Truthy(req.cancelUrl) then CheckoutResult(None, MissingFields)
      else if Truthy(req.customerEmail) && !IsEmail(req.customerEmail.value) then CheckoutResult(None, InvalidEmail)
      else
        var p := Params(req, metaClock);
        match reply
        case ProviderFailed(m) => CheckoutResult(Some(p), ServerError(m))
        case SessionCreated(id, url) =>
          CheckoutResult(Some(p), Created(id, url, Webhook.SynthesizedOrderId(responseClock.nowMs, responseClock.suffix)))
  }

  /** The orderId in the response is not the one put in the session metadata:
      it is synthesised again from a second clock reading and random suffix,
      so the two differ whenever the suffixes do, even within one millisecond. */
  lemma ResponseOrderIdIsIndependent(httpMethod: string, req: CheckoutRequest, cors: Security.CallbackArg,
                                     limiter: Security.CallbackArg, metaClock: Clock, responseClock: Clock, reply: ProviderReply)
    requires "orderId" !in req.metadata
    requires metaClock.nowMs == responseClock.nowMs && metaClock.suffix != responseClock.suffix
    ensures var r := Handle(httpMethod, req, cors, limiter, metaClock, responseClock, reply);
      r.response.Created? ==> r.response.orderId != r.sent.value.metadata["orderId"]
  {
    var r := Handle(httpMethod, req, cors, limiter, metaClock, responseClock, reply);
    if r.response.Created? {
      var a := Webhook.SynthesizedOrderId(metaClock.nowMs, metaClock.suffix);
      var b := Webhook.SynthesizedOrderId(responseClock.nowMs, responseClock.suffix);
      var d := |Decimal(metaClock.nowMs)|;
      assert a[7 + d..] != b[7 + d..];
    }
  }

  /** A caller-supplied metadata orderId overrides the generated one, and
      that is the orderId the webhook will later use for the order. */
  lemma CallerOrderIdWins(httpMethod: string, req: CheckoutRequest, cors: Security.CallbackArg,
                          limiter: Security.CallbackArg, metaClock: Clock, responseClock: Clock, reply: ProviderReply)
    requires "orderId" in req.metadata
    ensures var r := Handle(httpMethod, req, cors, limiter, metaClock, responseClock, reply);
      r.sent.Some? ==> r.sent.value.metadata["orderId"] == req.metadata["orderId"]
  {
  }
}
