/** The purchase success page (pages/success.jsx): which URL parameter it
    reads, the requests it makes to the license endpoint, the bounded poll,
    and when the copy button is disabled. The awaited fetches and the
    2-second timers between polls are taken in order, one after the other;
    what each request answers is an oracle indexed by the page's request
    number. */
module SuccessPage {
  import opened Wrappers
  import opened Text
  import LicenseKeys

  /** `session_id` and `license` from `window.location.search`. */
  datatype PageParams = PageParams(sessionId: Option<string>, license: Option<string>)

  /** A request to /api/license: by checkout session, or `latest=true`. */
  datatype LicenseRequest = BySession(sessionId: string) | Latest

  /** What one `fetch` gives the page: a thrown error (network failure or an
      unreadable body), or a response with its `ok` flag and the body's
      `licenseKey` field. */
  datatype FetchReply = FetchThrew | Replied(ok: bool, licenseKey: Option<string>)

  /** The page state the rendering depends on. */
  datatype PageState = PageState(licenseKey: string, isLoading: bool, requests: seq<LicenseRequest>)

  const MaxAttempts: nat := 10
  const GeneratingText := "Generating your license key..."

  /** The state before the effect runs: empty key, loading, nothing asked. */
  const Initial := PageState("", true, [])

  /** The key a reply delivers: only an ok response with a truthy
      `licenseKey` stops the search. */
  function KeyOf(reply: FetchReply): (k: Option<string>)
    ensures k.Some? <==> reply.Replied? && reply.ok && Truthy(reply.licenseKey)
    ensures k.Some? ==> k.value == reply.licenseKey.value && k.value != ""
  {
    if reply.Replied? && reply.ok && Truthy(reply.licenseKey) then reply.licenseKey else None
  }

  /** `n` poll requests, each for the latest order. */
  function Latests(n: nat): (r: seq<LicenseRequest>)
    ensures |r| == n && forall j :: 0 <= j < n ==> r[j] == Latest
  {
    seq(n, _ => Latest)
  }

  lemma LatestsGrow(n: nat)
    ensures Latests(n) + [Latest] == Latests(n + 1)
  {
  }

  // ------------------------------------------------------------ the poll

  /** The first request number in `from` .. `end - 1` whose reply
      delivers a key, or `end` if none does. */
  function FirstKeyed(replies: nat -> FetchReply, from: nat, end: nat): (n: nat)
    requires from <= end
    ensures from <= n <= end
    ensures n < end ==> KeyOf(replies(n)).Some?
    ensures forall k :: from <= k < n ==> KeyOf(replies(k)).None?
    decreases end - from
  {
    if from == end then end
    else if KeyOf(replies(from)).Some? then from
    else FirstKeyed(replies, from + 1, end)
  }

  /** `pollForLicenseKey`, run to its end: requests for the latest order
      until one delivers a key, at most 10 of them, then the placeholder. */
  function Poll(replies: nat -> FetchReply, before: PageState): (after: PageState)
    ensures !after.isLoading
    ensures |before.requests| < |after.requests| <= |before.requests| + MaxAttempts
    ensures after.requests == before.requests + Latests(|after.requests| - |before.requests|)
    ensures forall k :: |before.requests| <= k < |after.requests| - 1 ==> KeyOf(replies(k)).None?
    ensures KeyOf(replies(|after.requests| - 1)).Some? ==> after.licenseKey == KeyOf(replies(|after.requests| - 1)).value
    ensures KeyOf(replies(|after.requests| - 1)).None? ==>
      after.licenseKey == LicenseKeys.Placeholder && |after.requests| == |before.requests| + MaxAttempts
  {
    var made := |before.requests|;
    var n := FirstKeyed(replies, made, made + MaxAttempts);
    if n < made + MaxAttempts then PageState(KeyOf(replies(n)).value, false, before.requests + Latests(n - made + 1))
    else PageState(LicenseKeys.Placeholder, false, before.requests + Latests(MaxAttempts))
  }

  /** `fetchLicenseKey` / `fetchLatestLicenseKey`: one request, and the poll
      if its reply delivers no key. */
  function AfterFetch(replies: nat -> FetchReply, before: PageState, request: LicenseRequest): (after: PageState)
    ensures !after.isLoading
    ensures |after.requests| > |before.requests| && after.requests[|before.requests|] == request
    ensures after.requests[..|before.requests| + 1] == before.requests + [request]
    ensures forall k :: |before.requests| < k < |after.requests| ==> after.requests[k] == Latest
    ensures |after.requests| <= |before.requests| + 1 + MaxAttempts
    ensures KeyOf(replies(|before.requests|)).Some? ==>
      after.licenseKey == KeyOf(replies(|before.requests|)).value && |after.requests| == |before.requests| + 1
  {
    var asked := before.(requests := before.requests + [request]);
    match KeyOf(replies(|before.requests|))
    case Some(k) => asked.(licenseKey := k, isLoading := false)
    case None =>
      var after := Poll(replies, asked);
      assert after.requests[..|before.requests| + 1] == asked.requests;
      after
  }

  /** The mount effect: a `license` parameter is shown at once; otherwise a
      `session_id` is looked up; otherwise the latest order, with the
      "Generating" text shown meanwhile. */
  function Load(params: PageParams, replies: nat -> FetchReply, before: PageState): (after: PageState)
  {
    if Truthy(params.license) then before.(licenseKey := params.license.value, isLoading := false)
    else if Truthy(params.sessionId) then AfterFetch(replies, before, BySession(params.sessionId.value))
    else AfterFetch(replies, before.(licenseKey := GeneratingText), Latest)
  }

  /** The copy button's `disabled` attribute. */
  predicate CopyDisabled(s: PageState) {
    s.isLoading || s.licenseKey == LicenseKeys.Placeholder
  }

  // ------------------------------------------------------------ the page

  /** The component's state hooks and the requests it has sent. */
  class Page {
    var licenseKey: string
    var isLoading: bool
    var copySuccess: bool
    var requests: seq<LicenseRequest>

    function State(): PageState
      reads this
    {
      PageState(licenseKey, isLoading, requests)
    }

    constructor()
      ensures State() == Initial && !copySuccess
    {
      licenseKey := "";
      isLoading := true;
      copySuccess := false;
      requests := [];
    }

    /** Whether the copy button is disabled now. */
    predicate CopyButtonDisabled()
      reads this
    {
      CopyDisabled(State())
    }

    /** `pollForLicenseKey`: `attempts` is counted up before each request and
        checked against 10 before the next one. */
    method PollForLicenseKey(replies: nat -> FetchReply)
      modifies this
      ensures State() == Poll(replies, old(State()))
      ensures copySuccess == old(copySuccess)
    {
      var made := |requests|;
      var attempts: nat := 0;
      while attempts < MaxAttempts
        invariant attempts <= MaxAttempts
        invariant requests == old(requests) + Latests(attempts)
        invariant licenseKey == old(licenseKey) && isLoading == old(isLoading) && copySuccess == old(copySuccess)
        invariant FirstKeyed(replies, made + attempts, made + MaxAttempts) == FirstKeyed(replies, made, made + MaxAttempts)
        decreases MaxAttempts - attempts
      {
        var reply := replies(made + attempts);
        LatestsGrow(attempts);
        requests := requests + [Latest];
        match KeyOf(reply)
        case Some(k) =>
          assert FirstKeyed(replies, made, made + MaxAttempts) == made + attempts;
          attempts := attempts + 1;
          licenseKey := k;
          isLoading := false;
          return;
        case None =>
          attempts := attempts + 1;
      }
      licenseKey := LicenseKeys.Placeholder;
      isLoading := false;
    }

    /** One request; a delivered key is shown, anything else falls back to
        the poll. */
    method Fetch(replies: nat -> FetchReply, request: LicenseRequest)
      modifies this
      ensures State() == AfterFetch(replies, old(State()), request)
      ensures copySuccess == old(copySuccess)
    {
      var reply := replies(|requests|);
      requests := requests + [request];
      match KeyOf(reply)
      case Some(k) =>
        licenseKey := k;
        isLoading := false;
      case None =>
        PollForLicenseKey(replies);
    }

    /** `fetchLicenseKey(sessionId)`. */
    method FetchLicenseKey(sessionId: string, replies: nat -> FetchReply)
      modifies this
      ensures State() == AfterFetch(replies, old(State()), BySession(sessionId))
      ensures copySuccess == old(copySuccess)
    {
      Fetch(replies, BySession(sessionId));
    }

    /** `fetchLatestLicenseKey()`. */
    method FetchLatestLicenseKey(replies: nat -> FetchReply)
      modifies this
      ensures State() == AfterFetch(replies, old(State()), Latest)
      ensures copySuccess == old(copySuccess)
    {
      Fetch(replies, Latest);
    }

    /** The mount effect. */
    method Mount(params: PageParams, replies: nat -> FetchReply)
      modifies this
      ensures State() == Load(params, replies, old(State()))
      ensures copySuccess == old(copySuccess)
    {
      if Truthy(params.license) {
        licenseKey := params.license.value;
        isLoading := false;
      } else if Truthy(params.sessionId) {
        FetchLicenseKey(params.sessionId.value, replies);
      } else {
        licenseKey := GeneratingText;
        FetchLatestLicenseKey(replies);
      }
    }

    /** `copyLicenseKey`: the shown key is handed to the clipboard, and a
        successful write raises the "copied" flag (its 2-second reset is a
        timer, left out). */
    method CopyLicenseKey(clipboard: Call) returns (written: string)
      modifies this
      ensures written == licenseKey
      ensures State() == old(State())
      ensures copySuccess == (old(copySuccess) || clipboard.Succeeds?)
    {
      written := licenseKey;
      if clipboard.Succeeds? {
        copySuccess := true;
      }
    }
  }

  // ------------------------------------------------------------ properties

  /** A `license` parameter is shown at once: loading ends, nothing is
      requested, and `session_id` is not looked at. */
  lemma LicenseParamShownWithoutRequest(params: PageParams, replies: nat -> FetchReply, before: PageState)
    requires Truthy(params.license)
    ensures var after := Load(params, replies, before);
      after.licenseKey == params.license.value && !after.isLoading && after.requests == before.requests
    ensures Load(params, replies, before) == Load(params.(sessionId := None), replies, before)
  {
  }

  /** Only the first request uses the session id; every later one, the poll,
      asks for the latest order, and there are at most 11 in all. */
  lemma PollAlwaysAsksLatest(params: PageParams, replies: nat -> FetchReply)
    requires !Truthy(params.license)
    ensures var after := Load(params, replies, Initial);
      1 <= |after.requests| <= 1 + MaxAttempts
      && after.requests[0] == (if Truthy(params.sessionId) then BySession(params.sessionId.value) else Latest)
      && forall k :: 1 <= k < |after.requests| ==> after.requests[k] == Latest
  {
  }

  /** When no reply delivers a key, the page makes exactly 11 requests (the
      first lookup and 10 polls), then shows the placeholder and stops
      loading; the copy button stays disabled. */
  lemma PlaceholderAfterTenFailures(params: PageParams, replies: nat -> FetchReply)
    requires !Truthy(params.license)
    requires forall k :: 0 <= k <= MaxAttempts ==> KeyOf(replies(k)).None?
    ensures var after := Load(params, replies, Initial);
      after.licenseKey == LicenseKeys.Placeholder && !after.isLoading
      && |after.requests| == 1 + MaxAttempts && CopyDisabled(after)
  {
    var first := if Truthy(params.sessionId) then BySession(params.sessionId.value) else Latest;
    var start := if Truthy(params.sessionId) then Initial else Initial.(licenseKey := GeneratingText);
    var asked := start.(requests := [first]);
    assert KeyOf(replies(0)).None?;
    var after := Poll(replies, asked);
    assert KeyOf(replies(|after.requests| - 1)).None?;
  }

  /** Once loading has ended, the page shows either the `license` parameter
      or a key that the last reply delivered, or the placeholder after 11
      requests; in every case the copy button is enabled exactly when the
      key is not the placeholder. */
  lemma ShownKeyHasASource(params: PageParams, replies: nat -> FetchReply)
    ensures var after := Load(params, replies, Initial);
      !after.isLoading
      && (Truthy(params.license) ==> after.licenseKey == params.license.value)
      && (!Truthy(params.license) ==>
            (KeyOf(replies(|after.requests| - 1)) == Some(after.licenseKey)
             || (after.licenseKey == LicenseKeys.Placeholder && |after.requests| == 1 + MaxAttempts)))
      && (CopyDisabled(after) <==> after.licenseKey == LicenseKeys.Placeholder)
  {
  }

  /** The placeholder has the generator's own format and is what the
      generator yields for sixteen draws of 'X': so a genuine key can equal
      it, and the page then refuses to copy it even though it is real. */
  lemma GenuinePlaceholderKeyCannotBeCopied(draws: seq<nat>, s: PageState)
    requires draws == seq(16, _ => 23) && s.licenseKey == LicenseKeys.KeyText(draws)
    ensures LicenseKeys.ValidDraws(draws) && LicenseKeys.IsKeyFormat(s.licenseKey)
    ensures CopyDisabled(s)
  {
    LicenseKeys.PlaceholderIsGenerable();
  }
}
