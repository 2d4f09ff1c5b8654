/** The boundary filter every API route runs first: the CORS origin
    allow-list, the rate-limiter key and skip rules, the promise wrapper around
    Connect-style middleware, and the fixed response security headers
    (lib/security.js). */
module Security {
  import opened Wrappers
  import opened Text

  // ---------------------------------------------------------------- limiters

  /** The configured part of one express-rate-limit instance. */
  datatype LimiterConfig = LimiterConfig(windowMs: nat, max: nat, retryAfterSeconds: nat, message: string)

  const FifteenMinutesMs: nat := 15 * 60 * 1000

  /** `rateLimiter`, used by the license and contact routes. */
  const GeneralLimiter := LimiterConfig(FifteenMinutesMs, 100, 15 * 60, "Too many requests, please try again later.")
  /** `paymentRateLimiter`, used by the checkout route. */
  const PaymentLimiter := LimiterConfig(FifteenMinutesMs, 10, 15 * 60, "Too many payment requests, please try again later.")
  /** `contactRateLimiter` (declared, not used by any route). */
  const ContactLimiter := LimiterConfig(FifteenMinutesMs, 5, 15 * 60, "Too many contact form submissions, please try again later.")

  /** The three limiters, general first. */
  function Limiters(): (r: seq<LimiterConfig>)
    ensures |r| == 3 && r[0].max == 100 && r[1].max == 10 && r[2].max == 5
    ensures forall k :: 0 <= k < |r| ==> r[k].windowMs == 900000 && r[k].retryAfterSeconds * 1000 == r[k].windowMs
  {
    [GeneralLimiter, PaymentLimiter, ContactLimiter]
  }

  /** The address fields of an incoming request: `req.ip`,
      `req.connection?.remoteAddress` and `req.socket?.remoteAddress`
      (an absent `connection` or `socket` reads as an absent address). */
  datatype ClientAddress = ClientAddress(ip: Option<string>, connectionRemote: Option<string>, socketRemote: Option<string>)

  /** `skip`: no address field is truthy. */
  predicate Skip(req: ClientAddress) {
    !Truthy(req.ip) && !Truthy(req.connectionRemote) && !Truthy(req.socketRemote)
  }

  /** `keyGenerator`: the first truthy address, else 'unknown'. The key is
      never empty; it is 'unknown' whenever the request is skipped, and
      otherwise it is one of the request's own addresses, earlier fields
      taking precedence. */
  function RateLimitKey(req: ClientAddress): (key: string)
    ensures key != ""
    ensures Skip(req) ==> key == "unknown"
    ensures !Skip(req) ==>
      (Truthy(req.ip) && key == req.ip.value)
      || (Truthy(req.connectionRemote) && key == req.connectionRemote.value)
      || (Truthy(req.socketRemote) && key == req.socketRemote.value)
    ensures Truthy(req.ip) ==> key == req.ip.value
    ensures !Truthy(req.ip) && Truthy(req.connectionRemote) ==> key == req.connectionRemote.value
  {
    OrElse(req.ip, OrElse(req.connectionRemote, OrElse(req.socketRemote, "unknown")))
  }

  // -------------------------------------------------------------------- CORS

  const FixedOrigins: seq<string> :=
    ["http://localhost:3000", "http://localhost:3001", "https://demofyapp.com", "https://www.demofyapp.com"]

  /** The allow-list: the four fixed origins, then the comma-split,
      untrimmed entries of ALLOWED_ORIGINS when that variable is truthy. */
  function AllowedOrigins(allowedOriginsEnv: Option<string>): seq<string> {
    FixedOrigins + (if Truthy(allowedOriginsEnv) then Split(allowedOriginsEnv.value, ',') else [])
  }

  datatype CorsVerdict = Allow | Deny(message: string)

  /** `corsOptions.origin`: what it passes to its callback. */
  function CorsOrigin(origin: Option<string>, allowedOriginsEnv: Option<string>): CorsVerdict {
    if !Truthy(origin) then Allow
    else if origin.value in AllowedOrigins(allowedOriginsEnv) then Allow
    else Deny("Not allowed by CORS")
  }

  /** A request is let through exactly when it has no origin, or its origin
      equals one of the fixed origins, or it equals, character for character,
      one whole comma-separated entry of ALLOWED_ORIGINS (no trimming: an
      entry " https://a.test" does not admit "https://a.test"). A refusal
      always carries the message 'Not allowed by CORS'. */
  lemma CorsAllowsExactly(origin: Option<string>, env: Option<string>)
    ensures CorsOrigin(origin, env).Allow? <==>
      !Truthy(origin) || origin.value in FixedOrigins
      || (Truthy(env) && IsPiece(env.value, ',', origin.value))
    ensures CorsOrigin(origin, env).Deny? ==> CorsOrigin(origin, env).message == "Not allowed by CORS"
  {
    if Truthy(origin) && Truthy(env) {
      InSplitIff(env.value, ',', origin.value);
    }
  }

  // -------------------------------------------------------------- middleware

  /** The argument a Connect-style middleware passes to its `next` callback. */
  datatype CallbackArg = NoArg | Value(value: string) | Error(message: string)

  /** How the promise returned by `runMiddleware` settles. */
  datatype Settled = Resolved(value: CallbackArg) | Rejected(message: string)

  /** `runMiddleware`: an Error argument rejects the promise with that error;
      any other argument resolves it with that argument unchanged. */
  function RunMiddleware(arg: CallbackArg): (r: Settled)
    ensures r.Rejected? <==> arg.Error?
    ensures r.Rejected? ==> r.message == arg.message
    ensures r.Resolved? ==> r.value == arg
  {
    match arg
    case Error(m) => Rejected(m)
    case _ => Resolved(arg)
  }

  /** The argument the cors middleware hands on after asking
      `corsOptions.origin`: the verdict's Error, or nothing. */
  function CorsArg(verdict: CorsVerdict): CallbackArg {
    match verdict
    case Allow => NoArg
    case Deny(m) => Error(m)
  }

  /** The two `await runMiddleware(...)` steps a route runs, CORS first: the
      message of the first rejection, or None when both resolve. */
  function Admit(cors: CallbackArg, limiter: CallbackArg): (rejection: Option<string>)
    ensures rejection.None? <==> !cors.Error? && !limiter.Error?
    ensures cors.Error? ==> rejection == Some(cors.message)
    ensures !cors.Error? && limiter.Error? ==> rejection == Some(limiter.message)
  {
    match RunMiddleware(cors)
    case Rejected(m) => Some(m)
    case Resolved(_) =>
      match RunMiddleware(limiter)
      case Rejected(m) => Some(m)
      case Resolved(_) => None
  }

  /** A request whose origin the allow-list refuses never gets past the
      boundary, whatever the limiter says. */
  lemma DisallowedOriginIsRejected(origin: Option<string>, env: Option<string>, limiter: CallbackArg)
    requires CorsOrigin(origin, env).Deny?
    ensures Admit(CorsArg(CorsOrigin(origin, env)), limiter) == Some("Not allowed by CORS")
  {
  }

  // ----------------------------------------------------------------- headers

  const CspPolicy: string :=
    "default-src 'self'; script-src 'self' 'unsafe-inline' 'unsafe-eval' https://js.stripe.com https://vercel.live https://va.vercel-scripts.com; style-src 'self' 'unsafe-inline' https://fonts.googleapis.com; font-src 'self' https://fonts.gstatic.com; img-src 'self' data: https: blob:; connect-src 'self' https://api.stripe.com https://*.convex.cloud https://vitals.vercel-insights.com https://va.vercel-scripts.com; frame-ancestors 'none';"

  /** The six headers `setSecurityHeaders` writes. */
  function SecurityHeaders(): (h: map<string, string>)
    ensures |h| == 6
    ensures h.Keys == {"X-Content-Type-Options", "X-Frame-Options", "X-XSS-Protection",
                       "Referrer-Policy", "Strict-Transport-Security", "Content-Security-Policy"}
    ensures h["X-Frame-Options"] == "DENY" && h["X-Content-Type-Options"] == "nosniff"
  {
    map[
      "X-Content-Type-Options" := "nosniff",
      "X-Frame-Options" := "DENY",
      "X-XSS-Protection" := "1; mode=block",
      "Referrer-Policy" := "strict-origin-when-cross-origin",
      "Strict-Transport-Security" := "max-age=31536000; includeSubDomains",
      "Content-Security-Policy" := CspPolicy
    ]
  }

  /** The header part of a Node.js ServerResponse. */
  class ServerResponse {
    var headers: map<string, string>

    constructor ()
      ensures headers == map[]
    {
      headers := map[];
    }

    /** `res.setHeader(name, value)`: replaces any earlier value of `name`. */
    method SetHeader(name: string, value: string)
      modifies this
      ensures headers == old(headers)[name := value]
    {
      headers := headers[name := value];
    }
  }

  /** `setSecurityHeaders(res)`: the six fixed headers are set, overriding any
      earlier value, and every other header is left as it was. */
  method SetSecurityHeaders(res: ServerResponse)
    modifies res
    ensures res.headers == old(res.headers) + SecurityHeaders()
    ensures forall name :: name in old(res.headers) && name !in SecurityHeaders() ==>
      name in res.headers && res.headers[name] == old(res.headers)[name]
  {
    ghost var before := res.headers;
    res.SetHeader("X-Content-Type-Options", "nosniff");
    res.SetHeader("X-Frame-Options", "DENY");
    res.SetHeader("X-XSS-Protection", "1; mode=block");
    res.SetHeader("Referrer-Policy", "strict-origin-when-cross-origin");
    res.SetHeader("Strict-Transport-Security", "max-age=31536000; includeSubDomains");
    res.SetHeader("Content-Security-Policy", CspPolicy);
    SixUpdatesAreUnion(before);
  }

  lemma SixUpdatesAreUnion(h: map<string, string>)
    ensures h["X-Content-Type-Options" := "nosniff"]["X-Frame-Options" := "DENY"]
             ["X-XSS-Protection" := "1; mode=block"]
             ["Referrer-Policy" := "strict-origin-when-cross-origin"]
             ["Strict-Transport-Security" := "max-age=31536000; includeSubDomains"]
             ["Content-Security-Policy" := CspPolicy]
            == h + SecurityHeaders()
  {
    var u := h["X-Content-Type-Options" := "nosniff"]["X-Frame-Options" := "DENY"]
             ["X-XSS-Protection" := "1; mode=block"]
             ["Referrer-Policy" := "strict-origin-when-cross-origin"]
             ["Strict-Transport-Security" := "max-age=31536000; includeSubDomains"]
             ["Content-Security-Policy" := CspPolicy];
    var sh := SecurityHeaders();
    assert u.Keys == h.Keys + sh.Keys;
    forall k | k in u ensures u[k] == (h + sh)[k] {
      if k in sh {
        assert (h + sh)[k] == sh[k];
      }
    }
  }
}
