# Demofy website purchase and contact back end, in Dafny

This project models the server side of the Demofy marketing site and its
purchase flow, and proves properties of that model. The model covers:

- the Stripe **checkout** endpoint. It validates a purchase request and builds
  the Checkout Session parameters.
- the Stripe **webhook**. It records each event, dispatches on the event type
  and fulfils a completed checkout. Fulfilment finds or creates the order row,
  generates a `DEMOFY-XXXX-XXXX-XXXX-XXXX` license key, stores the key and
  links it to the order.
- the **license** endpoint. It looks a key up by checkout session or takes the
  latest completed order.
- the **contact** endpoint. It validates the form, builds the mail (subject
  label, plain-text and HTML bodies) and turns SMTP outcomes into responses.
- the shared **security** layer: the CORS allow-list, the rate-limiter key and
  skip rules, the middleware promise wrapper and the six response headers.
- the **success page**. It picks a URL parameter, fetches the key, polls at
  most ten times and then falls back to a placeholder. It also decides when the
  copy button is disabled.

Modules and files:

| file | module | contents |
|---|---|---|
| wrappers.dfy | `Wrappers` | `Option`, `Result`, and `Call` (an external call that succeeds or throws) |
| text.dfy | `Text` | JavaScript truthiness, `||` defaulting, `trim`, `split`/`join` on one character, decimal digits |
| email.dfy | `Email` | the e-mail check `/^[^\s@]+@[^\s@]+\.[^\s@]+$/` as a scan, proved equal to the pattern |
| security.dfy | `Security` | limiters, key generator, CORS, `runMiddleware`, and the headers as a class `ServerResponse` |
| license_keys.dfy | `LicenseKeys` | the key generator as nested loops, the key format and its round trip |
| ledger.dfy | `Ledger` | the Convex tables (events, orders, license keys) and the mutations the webhook calls |
| webhook.dfy | `Webhook` | one delivery as a function `Deliver`, plus the class `ConvexStores` that performs it step by step |
| webhook_properties.dfy | `WebhookProperties` | what a delivery does, what it ignores, and what two deliveries do |
| license_api.dfy | `LicenseApi` | the lookup decision tree over a snapshot of the stores |
| checkout.dfy | `Checkout` | validation, `success_url`, the metadata merge and the response |
| contact.dfy | `Contact` | validation, subject labels, the two bodies, mail options and SMTP handling |
| success_page.dfy | `SuccessPage` | the page state as a class `Page`, and the poll loop |
| purchase_flow.dfy | `PurchaseFlow` | webhook, then license endpoint, then success page, end to end |

The model represents the environment as follows:

- **External calls.** Convex queries and mutations, the Stripe API, the SMTP
  transport, `fetch` and the clipboard are not executed. Each call is an input
  that says what the call answers or throws.
- **Non-deterministic inputs.** `Math.random()` becomes a sequence of draws.
  `Date.now()` becomes a number. The base-36 random suffix becomes a string.
- **Convex tables.** The orders table is a sequence in insertion order. A
  lookup by orderId or session id takes the first matching row. A license key
  record's id is its position. The Convex functions themselves are not part of
  this model. Their behaviour is inferred from how the handlers use them:
  - `createOrder` appends a row.
  - The `update*` mutations patch the first row with the orderId, or do
    nothing.
  - `markWebhookProcessed` sets the processed flag and the error on a known
    event.
  - `getAllOrders({status:'completed', limit:1})` returns the most recently
    inserted completed row.
  - `createLicenseKey` appends a record. What it resolves to is an input
    (`KeyReturn`): a document whose `id` is the new record's id, or the bare
    id itself. The handler stores `licenseKeyId.id` on the order, so only the
    first links the order to the key. With the bare id that property is
    `undefined`, and `updateOrderLicenseKey` links nothing.

## Model

| member | source | states |
|---|---|---|
| Text.TrimTemplate | pages/api/contact.js:139-150 | trimming a template laid out as newline + text + newline-and-indent removes exactly that outer white space, given the text starts and ends with a visible character |
| Text.JoinSplit | lib/security.js:60 | splitting on a character and joining back with it gives the original string |
| Text.SplitUnique | lib/security.js:60 | any cut of a string into separator-free pieces that join back to it is exactly what `split` returns |
| Text.InSplitIff | lib/security.js:60-63 | a string is an element of `s.split(c)` iff it is a whole, untrimmed piece of `s` between separators |
| Text.Decimal | pages/api/webhook.js:124 | `${Date.now()}` is a non-empty run of decimal digits |
| Email.EmailCheckMatchesPattern | pages/api/contact.js:32 | the scan-based e-mail check accepts a string iff it matches `^[^\s@]+@[^\s@]+\.[^\s@]+$`, in both directions |
| Security.Limiters | lib/security.js:8-14 | three limiters allow 100, 10 and 5 requests over 15 minutes, and each retryAfter (900 s) equals its window |
| Security.RateLimitKey | lib/security.js:17-24 | the key is the first truthy address (ip, then connection, then socket) or 'unknown'; it is 'unknown' whenever `skip` holds, and never empty |
| Security.CorsAllowsExactly | lib/security.js:49-68 | an origin is allowed iff it is absent, one of the four fixed origins, or exactly one whole comma-separated untrimmed entry of ALLOWED_ORIGINS; a refusal is 'Not allowed by CORS' |
| Security.RunMiddleware | lib/security.js:78-87 | the promise rejects iff the callback argument is an Error, with its message; otherwise it resolves with the argument unchanged |
| Security.Admit | pages/api/license.js:15-18 | CORS then the limiter: the request passes iff neither rejects, and the first rejection's message is reported |
| Security.DisallowedOriginIsRejected | lib/security.js:63-67 | an origin refused by the allow-list stops the request with 'Not allowed by CORS', whatever the limiter does |
| Security.SecurityHeaders | lib/security.js:108-115 | exactly six header names, including `X-Frame-Options: DENY` and `X-Content-Type-Options: nosniff` |
| Security.ServerResponse.SetHeader | lib/security.js:109 | `setHeader` replaces the value of that one name and leaves every other header alone |
| Security.SetSecurityHeaders | lib/security.js:108-115 | the new headers are the old ones overridden by the six fixed headers; every other header keeps its value |
| LicenseKeys.GenerateLicenseKey | pages/api/webhook.js:228-241 | the nested loops produce the key the draws specify, and that key has the `DEMOFY-` + four dash-separated groups of 4 alphabet characters format (26 characters) |
| LicenseKeys.KeyTextIsWellFormed | pages/api/webhook.js:228-241 | every key built from 16 valid draws has the format |
| LicenseKeys.DrawsRoundTrip | pages/api/webhook.js:232-240 | reading the draws back from a generated key gives the original draws |
| LicenseKeys.KeyRoundTrip | pages/api/webhook.js:232-240 | every string of the key format is the key of the draws read from it, so the format describes exactly the generable keys |
| LicenseKeys.PlaceholderIsGenerable | pages/success.jsx:73 | the placeholder `DEMOFY-XXXX-XXXX-XXXX-XXXX` has the generator's format and is generated by sixteen draws of 'X' |
| Ledger.FindOrder | pages/api/webhook.js:132 | the position of the first row with the orderId, or the length; no earlier row has it |
| Ledger.GetOrder | pages/api/webhook.js:132 | `stripe:getOrder` finds a row with that orderId iff one exists |
| Ledger.UpdateOrderStatus | pages/api/webhook.js:163-167 | only the first row with the orderId gets the new status and payment intent; every other row, the events and the keys are unchanged |
| Ledger.UpdateOrderSession | pages/api/webhook.js:189 | only the first row with the orderId gets the session id; everything else is unchanged |
| Ledger.UpdateOrderLicenseKey | pages/api/webhook.js:197 | only the first row with the orderId gets the key reference; everything else is unchanged |
| Webhook.SynthesizedOrderId | pages/api/webhook.js:124 | `order_<Date.now()>_<suffix>`: prefix `order_`, then decimal digits, `_`, and the suffix as its tail |
| Webhook.NewOrder | pages/api/webhook.js:141-153 | the e-mail is customer_email, else customer_details.email, else ''; productId and priceId are 'unknown' iff absent, empty or 'unknown'; the status is 'completed'; there is no session or key link yet |
| Webhook.Deliver | pages/api/webhook.js:18-42 | a non-POST gives 405 and a failed signature check gives 400 `Webhook Error: …`, both leaving the stores untouched |
| Webhook.ConvexStores.HandleCheckoutCompleted | pages/api/webhook.js:116-211 | the sequence of mutations leaves the stores, and returns the result, that `CheckoutCompleted` specifies |
| Webhook.ConvexStores.Handler | pages/api/webhook.js:18-97 | the handler's stores and response equal `Deliver`'s, and the six security headers are set |
| Webhook.ConvexStores.ProcessEvent | pages/api/webhook.js:46-79 | storing the event, dispatching it by type and marking it processed leave the stores, and return the outcome, that `Attempt` specifies; the first call that throws ends the attempt |
| Webhook.ConvexStores.StoreWebhookEvent | pages/api/webhook.js:49-54 | on success the event is recorded unprocessed (overwriting any earlier record); a throw changes nothing |
| Webhook.ConvexStores.CreateLicenseKey | pages/api/webhook.js:176-183 | on success a record is appended and the returned value names it, as a document with an `id` or as the bare id, per the input shape; a throw changes nothing |
| Webhook.ConvexStores.UpdateOrderLicenseKey | pages/api/webhook.js:196-201 | given a defined `licenseKeyId.id`, the first row with the orderId is linked to it; given `undefined`, or when the call throws, nothing changes |
| WebhookProperties.CheckoutOutline | pages/api/webhook.js:116-211 | fulfilment succeeds iff the order step succeeds and the key is created; then exactly one key record for the orderId is appended and the result names it; otherwise no key is added |
| WebhookProperties.FreshCheckout | pages/api/webhook.js:137-204 | with no row for the orderId and every call succeeding, one row is appended with the session id, and one key record; the row is linked to that record iff the created key is a document with an `id` |
| WebhookProperties.RepeatCheckout | pages/api/webhook.js:159-204 | with a row for the orderId, no row is added; the first such row is completed, takes the session id, and is re-linked to the new key iff the created key has an `id` (else it keeps its old link) |
| WebhookProperties.FailedLookupDuplicatesOrder | pages/api/webhook.js:129-157 | when `getOrder` throws although the orderId has a row, a second row is created; the later patches still reach the first row, and the new row stays as created |
| WebhookProperties.BareIdLinksNothing | pages/api/webhook.js:176-201 | when `createLicenseKey` returns a bare id, no order gains a key link: existing rows keep theirs and a created row has none |
| WebhookProperties.KeyMintedExactlyWhen | pages/api/webhook.js:58-183 | a key record is appended exactly when a verified POST of a completed checkout gets its event stored, its order step and key creation succeed, whatever later steps do |
| WebhookProperties.ResponseOfVerifiedPost | pages/api/webhook.js:46-96 | 200 iff storing, dispatching and marking all succeed; otherwise 500 with the message of the first call that threw |
| WebhookProperties.ProcessedResultByType | pages/api/webhook.js:58-225 | the 200 payload is the fulfilled order and key for checkouts, 'payment_succeeded', 'payment_failed', or 'unhandled_event_type' |
| WebhookProperties.OnlyCheckoutTouchesLedger | pages/api/webhook.js:22-71 | every delivery other than a verified completed-checkout POST (405, 400, payment and unknown events) leaves the orders and keys unchanged |
| WebhookProperties.EventOutcomeRecorded | pages/api/webhook.js:49-95 | on 200 the event is recorded processed with no error; on 500, when the failure mark succeeds, it is recorded unprocessed with the error; no other event changes |
| WebhookProperties.EventHistoryIgnored | pages/api/webhook.js:46-79 | there is no duplicate-delivery guard: orders, keys and the response do not depend on the event store, even when the event was already processed |
| WebhookProperties.BestEffortFailuresAreSwallowed | pages/api/webhook.js:85-201 | a throw from updateOrderStatus, updateOrderSession, updateOrderLicenseKey or the failure mark never changes the response |
| WebhookProperties.DeliveryKeepsConsistent | pages/api/webhook.js:116-211 | every delivery keeps the stores consistent: keys are well-formed and every order's key reference resolves |
| WebhookProperties.FreshDelivery | pages/api/webhook.js:18-97 | a first delivery for an unknown order records the event as processed, appends one row and one key, links them iff the created key has an `id`, and answers with both |
| WebhookProperties.RepeatDelivery | pages/api/webhook.js:18-97 | a delivery for a known order completes its first row, re-links it to a new key iff the created key has an `id`, and adds no row |
| WebhookProperties.CheckoutDeliveryOutline | pages/api/webhook.js:46-79 | when every call succeeds, a verified completed-checkout POST answers with the fulfilment result over the fulfilled stores, with the event recorded processed and no error |
| WebhookProperties.SecondDelivery | pages/api/webhook.js:18-97 | a repeat delivery when the order's only row is the last one keeps exactly one row for it, linked to the new key iff the created key has an `id` |
| WebhookProperties.TwoDeliveriesOneOrderTwoKeys | pages/api/webhook.js:116-211 | two deliveries of the same completed checkout give one order row and two new key records; the order ends linked to the last of them whose creation returned an `id`, if any |
| LicenseApi.FindBySession | pages/api/license.js:28 | the first row carrying the session id, or the length when there is none |
| LicenseApi.OrderBySessionId | pages/api/license.js:28 | `getOrderBySessionId` finds nothing iff no row carries the session id; otherwise a stored row carrying it |
| LicenseApi.LatestCompletedIndex | pages/api/license.js:48-51 | the last completed row, with no completed row after it, or -1 |
| LicenseApi.LatestCompleted | pages/api/license.js:48-57 | at most one row; empty iff no order is completed; otherwise a completed row with no completed row after it |
| LicenseApi.KeyById | pages/api/license.js:35-64 | a record is found iff the id is a stored position |
| LicenseApi.BySession | pages/api/license.js:26-45 | a 200 in the session branch comes from the first row with the session and the record that row references |
| LicenseApi.ByLatest | pages/api/license.js:46-74 | 404 "No completed orders found" when no order is completed; 404 "No license key found for the latest order" when the latest completed one has no key; a 200 comes from the most recent completed row and the record it references |
| LicenseApi.Lookup | pages/api/license.js:10-86 | a middleware rejection, then 405 for non-GET, then 400 iff neither parameter is truthy; a 200 always carries a stored key with the orderId and e-mail of the order referencing it |
| LicenseApi.SessionTakesPrecedence | pages/api/license.js:26-46 | with a truthy session_id the value of `latest` does not matter |
| LicenseApi.AnyTruthyLatestSelectsLatest | pages/api/license.js:46 | any non-empty `latest`, including "false", selects the latest branch |
| LicenseApi.SessionNotFoundCases | pages/api/license.js:30-39 | the session branch answers 404 iff no row has the session, that row has no key reference, or the record is missing |
| LicenseApi.OnlyLatestOrderExamined | pages/api/license.js:48-61 | if the most recent completed order has no key the answer is 404, whatever older orders hold |
| LicenseApi.ServerErrorHidesMessage | pages/api/license.js:79-84 | a 500 carries the thrown message in development and 'Internal server error' otherwise |
| Checkout.SuccessUrl | pages/api/checkout.js:59 | the caller's URL is a prefix, followed by '&' if it already has '?' (else '?'), then `session_id={CHECKOUT_SESSION_ID}` |
| Checkout.SuccessUrlAddsOnePlaceholder | pages/api/checkout.js:59 | the success URL has the placeholder at a position iff the caller's URL had it there or it is the one appended |
| Checkout.SessionMetadata | pages/api/checkout.js:61-65 | the keys are the caller's plus source and orderId; caller entries win; the defaults apply only where the caller gave none |
| Checkout.Params | pages/api/checkout.js:48-66 | one line item with the price and quantity 1, mode 'payment', cards only; customer_email is sent iff the e-mail is non-empty |
| Checkout.Handle | pages/api/checkout.js:9-82 | a session is requested iff the request is admitted, is a POST and is valid; missing fields are reported before a bad e-mail; a provider failure gives 500 with its message |
| Checkout.ResponseOrderIdIsIndependent | pages/api/checkout.js:63-72 | the response orderId is synthesised again and differs from the metadata one whenever the random suffixes differ |
| Checkout.CallerOrderIdWins | pages/api/checkout.js:61-65 | a caller-supplied metadata orderId is what the session carries |
| Contact.GetSubjectText | pages/api/contact.js:126-135 | (corrected) one of the five labels; 'General Inquiry' for any subject that is not one of the five keys |
| Contact.GetSubjectTextAsWritten | pages/api/contact.js:126-135 | as written, the lookup yields an inherited Object.prototype member iff the subject is not a key but names such a member |
| Contact.InheritedSubjectEscapesFallback | pages/api/contact.js:93-134 | as written, a valid form with subject "constructor" is mailed with the subject `[Demofy Contact] function Object() { [native code] }`; the corrected lookup mails `[Demofy Contact] General Inquiry` |
| Contact.SubjectLookupsAgreeOffPrototype | pages/api/contact.js:126-135 | on all other subjects the written and corrected lookups agree |
| Contact.ShownSubjectIsALabel | pages/api/contact.js:93-135 | the corrected shown subject is always a label; the written one equals it off the prototype names and is never a label on them |
| Contact.FormatEmailText | pages/api/contact.js:138-151 | the text body is the template with the fields and the shown subject inserted verbatim; the trim removes only the template's own outer white space |
| Contact.FormatEmailHTML | pages/api/contact.js:154-186 | the HTML body is the template with the name, e-mail (twice), shown subject and message inserted without escaping; the trim removes only outer white space |
| Contact.Mail | pages/api/contact.js:93-100 | to is CONTACT_EMAIL or contact@demofyapp.com; the subject is `[Demofy Contact] ` + the shown subject; from, replyTo and both bodies |
| Contact.SendEmailViaSmtp | pages/api/contact.js:66-123 | missing credentials throw; otherwise the send succeeds iff verify and send both succeed; mail is handed over iff verify succeeded, built with the chosen subject lookup; the errors carry the expected messages |
| Contact.Handle | pages/api/contact.js:7-63 | mail is attempted only for an admitted POST with four truthy fields and a valid e-mail; 400 cases are exact; 200 iff the send succeeded; a 500 always has a message |
| Contact.ValidPostMail | pages/api/contact.js:7-100 | a valid, admitted POST with credentials and a verified transporter hands over mail whose subject is `[Demofy Contact] ` followed by the subject the lookup shows |
| Contact.SendFailureMessages | pages/api/contact.js:52-121 | the 500 message is the configuration message, `SMTP verification failed: …`, or the send error (falling back to 'Failed to send email' when empty) |
| SuccessPage.KeyOf | pages/success.jsx:32-38 | a reply delivers a key iff it is ok and has a truthy licenseKey |
| SuccessPage.FirstKeyed | pages/success.jsx:71-96 | the first request number in range whose reply delivers a key; none before it does |
| SuccessPage.Poll | pages/success.jsx:67-99 | 1 to 10 requests, all for `latest`; every reply except the last delivered nothing; the key of the last reply is shown, or the placeholder after 10 failures; loading ends |
| SuccessPage.AfterFetch | pages/success.jsx:29-65 | the first request is the given one; a key in its reply is shown without polling; otherwise all later requests are `latest`; loading ends |
| SuccessPage.Page.PollForLicenseKey | pages/success.jsx:67-99 | the loop leaves the page state `Poll` specifies |
| SuccessPage.Page.Mount | pages/success.jsx:11-27 | the effect leaves the page state `Load` specifies |
| SuccessPage.Page.CopyLicenseKey | pages/success.jsx:101-112 | the shown key is written to the clipboard; copySuccess is raised iff the write succeeds |
| SuccessPage.LicenseParamShownWithoutRequest | pages/success.jsx:16-18 | a `license` parameter is shown immediately with no request, and session_id is ignored |
| SuccessPage.PollAlwaysAsksLatest | pages/success.jsx:19-81 | the first request uses session_id when present; every later one asks for `latest`; at most 11 requests in all |
| SuccessPage.PlaceholderAfterTenFailures | pages/success.jsx:68-76 | with no key delivered, exactly 11 requests are made, then the placeholder is shown, loading ends and copying stays disabled |
| SuccessPage.ShownKeyHasASource | pages/success.jsx:11-213 | once settled the key is the `license` parameter, a reply's key, or the placeholder after 11 requests; copy is disabled iff it is the placeholder |
| SuccessPage.GenuinePlaceholderKeyCannotBeCopied | pages/success.jsx:213 | a genuinely generated key that spells the placeholder cannot be copied |
| PurchaseFlow.FulfilledCheckoutIsFound | pages/api/license.js:26-74 | after a fresh successful delivery whose created key has an `id`, lookup by that session id and by `latest` both answer with the generated key, the orderId and the order's e-mail; with a bare id both answer 404 |
| PurchaseFlow.SuccessPageShowsGeneratedKey | pages/success.jsx:19-38 | with a linked order the success page opened with that session id shows the generated key after one request, copy enabled unless it spells the placeholder; with a bare id it falls back to polling `latest` |

## Left out

- The Convex functions (`stripe:*`, `licenseKeys:*`) are not part of this model. Their effect is inferred from how the handlers use them, as described above. A Convex document id is modelled as the record's position.
- `getRawBody` and `stripe.webhooks.constructEvent` are not modelled. The signature check is an input: a verified event, or a failure message.
- The express-rate-limit counting and its own 429 reply are left out. A limiter is modelled only by its configuration, its key and skip functions, and the argument it passes to the callback.
- The `cors` package's handling of methods, allowed headers, credentials and preflight requests is left out. Only the origin decision is modelled.
- Request bodies and query parameters are modelled as optional strings. Non-string JSON values (numbers, arrays, objects) in `req.body` are not modelled, and neither is a missing body. A repeated query parameter, which Next.js passes as an array of strings, is not modelled either: `LicenseQuery` and `PageParams` hold at most one string per parameter.
- `stripe.checkout.sessions.create` is not modelled. Its answer is an input: a created session, or a thrown error.
- Console logging is left out.
- Timing and concurrency are not modelled:
  - the awaits and the 2-second timers on the success page, including the copySuccess reset;
  - any request running concurrently with another;
  - a Convex write racing another.
- The rendered page markup and the download button are left out.
- Randomness is not modelled. `Math.random()` character choices, `Date.now()` and the base-36 suffix are inputs. Any 16 draws in range are allowed, not a distribution.
- In `SuccessPage`, each `fetch` reply is an input. It is indexed by the page's request number, not derived from the server.
- The session id is placed in the request URL without URL encoding, as the page does. URL parsing itself is not modelled.
- Webhook.ConvexStores.UpdateOrderLicenseKey: a call with an `undefined` licenseKeyId is modelled as changing nothing. Whether Convex rejects the argument or patches the field away is not known here, because the Convex function is not part of this model.
- Contact.Handle: the mail is built with the subject lookup given as a parameter (`AsWritten` or `Corrected`). With `AsWritten`, an inherited member is shown as a JavaScript engine prints it; the exact text of native functions is engine-dependent.
- Webhook.ConvexStores.MarkWebhookProcessed: marking an event the store does not hold changes nothing. This is a choice, because the Convex function is not available.

## Findings

| source | as written | input that shows it | evidently intended | confidence | as-written member | corrected member |
|---|---|---|---|---|---|---|
| pages/api/contact.js:126-135 | `subjectMap[subject] \|\| 'General Inquiry'` looks the subject up in a plain object literal, so inherited Object.prototype members are found too | subject `"constructor"`: the lookup yields the inherited `Object` function, which is truthy, so there is no 'General Inquiry' fallback, and its text ends up in the subject line and both bodies | any subject other than the five keys shows 'General Inquiry' | not executed | Contact.InheritedSubjectEscapesFallback | Contact.GetSubjectText |
