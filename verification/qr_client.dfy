/** The browser-side `QRCodeClient`: request headers, the ok-check on every
    response, the QR polling loop and the create-then-poll flow. `fetch` and the
    timers are not modelled: every request is answered by the next element of a
    sequence of answers, and every `setTimeout` is recorded as a wait of its
    duration. */
module QrClient {
  import opened Wrappers
  import Text

  const DefaultBaseUrl := "http://localhost:3000"
  const DefaultMaxAttempts := 30
  /** Milliseconds between two polling attempts unless configured. */
  const DefaultInterval := 1000
  /** Milliseconds waited after creating a session before the first poll. */
  const SettleDelay := 1500

  type Headers = map<string, string>

  datatype Client = Client(apiBaseUrl: string, apiKey: string, headers: Headers)

  datatype Method = GET | POST | DELETE

  /** What is handed to `fetch`. */
  datatype Request = Request(url: string, verb: Method, headers: Headers, body: Option<string>)

  /** What a request yields: a parsed response, or the rejection of `fetch`. */
  datatype Answer =
    | Reply(ok: bool, status: int, message: Option<string>, qr: string)
    | NetworkFailure(reason: string)

  /** The argument of one `onAttempt` call. */
  datatype AttemptInfo = AttemptInfo(attempt: int, success: bool, message: string, error: Option<string>)

  /** `maxAttempts` and `interval` fall back to their defaults when absent;
      `notify` says whether an `onAttempt` callback was given. */
  datatype PollOptions = PollOptions(maxAttempts: Option<int>, interval: Option<int>, notify: bool)

  /** Outcome of a polling run: the QR image or the thrown message, the number
      of QR requests made, the waits performed and the callbacks fired. */
  datatype PollRun = PollRun(result: Result<string, string>, fetches: nat, waits: seq<int>, callbacks: seq<AttemptInfo>)

  /** Outcome of `setupSessionWithQR`: every request in order, and the waits. */
  datatype SetupRun = SetupRun(result: Result<string, string>, requests: seq<Request>, waits: seq<int>, callbacks: seq<AttemptInfo>)

  /** The constructor: `Authorization` is present only for a non-empty key. */
  function NewClient(apiBaseUrl: Option<string>, apiKey: Option<string>): (c: Client)
    ensures c.apiBaseUrl == apiBaseUrl.GetOr(DefaultBaseUrl) && c.apiKey == apiKey.GetOr("")
    ensures "Content-Type" in c.headers && c.headers["Content-Type"] == "application/json"
    ensures "Authorization" in c.headers <==> c.apiKey != ""
    ensures "Authorization" in c.headers ==> c.headers["Authorization"] == "Bearer " + c.apiKey
    ensures c.headers.Keys <= {"Content-Type", "Authorization"}
  {
    var key := apiKey.GetOr("");
    var base := map["Content-Type" := "application/json"];
    Client(apiBaseUrl.GetOr(DefaultBaseUrl), key,
           if key != "" then base["Authorization" := "Bearer " + key] else base)
  }

  /** `setApiKey`: sets the bearer header even for an empty key and keeps the
      other headers. */
  function SetApiKey(c: Client, apiKey: string): (c': Client)
    ensures c'.apiKey == apiKey && c'.apiBaseUrl == c.apiBaseUrl
    ensures "Authorization" in c'.headers && c'.headers["Authorization"] == "Bearer " + apiKey
    ensures c'.headers.Keys == c.headers.Keys + {"Authorization"}
    ensures forall k :: k in c.headers && k != "Authorization" ==> c'.headers[k] == c.headers[k]
  {
    c.(apiKey := apiKey, headers := c.headers["Authorization" := "Bearer " + apiKey])
  }

  /** The request `request(verb, endpoint, body)` hands to `fetch`: the
      client's headers, and a body only when one is given. */
  function BuildRequest(c: Client, verb: Method, endpoint: string, body: Option<string>): (r: Request)
    ensures r.url == c.apiBaseUrl + endpoint
    ensures r.verb == verb && r.headers == c.headers
    ensures r.body.Some? <==> body.Some?
    ensures body.Some? ==> r.body == body
  {
    Request(c.apiBaseUrl + endpoint, verb, c.headers, body)
  }

  function ApiErrorMessage(status: int, message: Option<string>): string {
    var detail := if message.Some? && message.value != "" then message.value else "Unknown error";
    "API Error: " + Text.IntToString(status) + " - " + detail
  }

  /** The ok-check of `request`: every non-ok response is rejected with the
      status and the server's message, a `fetch` rejection is passed on. */
  function CheckAnswer(a: Answer): (r: Result<Answer, string>)
    ensures r.Success? <==> a.Reply? && a.ok
    ensures r.Success? ==> r.value == a
    ensures a.Reply? && !a.ok ==> r == Failure(ApiErrorMessage(a.status, a.message))
    ensures a.NetworkFailure? ==> r == Failure(a.reason)
  {
    match a
    case NetworkFailure(reason) => Failure(reason)
    case Reply(ok, status, message, _) =>
      if ok then Success(a) else Failure(ApiErrorMessage(status, message))
  }

  /** `getQRCode`: one request, the QR of an ok response. */
  function GetQrCode(a: Answer): (r: Result<string, string>)
    ensures r.Success? <==> Succeeds(a)
    ensures r.Success? ==> r.value == a.qr
    ensures r.Failure? ==> r.error == ErrorOf(a)
  {
    match CheckAnswer(a)
    case Success(reply) => Success(reply.qr)
    case Failure(e) => Failure(e)
  }

  /** The JSON body `{"sessionId": <id>}` of `createSession`. */
  function SessionBody(sessionId: string): string {
    "{\"sessionId\":" + Text.JsonQuote(sessionId) + "}"
  }

  /** An id without quotes or backslashes is sent between plain double
      quotes: `s1` gives `{"sessionId":"s1"}`. */
  lemma CreateBodyOfPlainId(sessionId: string)
    requires '"' !in sessionId && '\\' !in sessionId
    ensures SessionBody(sessionId) == "{\"sessionId\":\"" + sessionId + "\"}"
  {
    Text.JsonEscapePlain(sessionId);
  }

  /** `createSession`: a POST to the create endpoint whose body names the
      session as a JSON string. */
  function CreateRequest(c: Client, sessionId: string): (r: Request)
    ensures r.verb == POST && r.url == c.apiBaseUrl + "/api/sessions/create" && r.headers == c.headers
    ensures r.body.Some? && r.body.value == SessionBody(sessionId)
    ensures var q := Text.JsonQuote(sessionId);
            r.body.value == "{\"sessionId\":" + q + "}" && Text.JsonUnescape(q[1..|q| - 1]) == sessionId
  {
    BuildRequest(c, POST, "/api/sessions/create", Some(SessionBody(sessionId)))
  }

  /** The request of `getQRCode`: a bodiless GET of the session's QR
      endpoint; the id goes into the path unencoded. */
  function QrRequest(c: Client, sessionId: string): (r: Request)
    ensures r.verb == GET && r.headers == c.headers && r.body.None?
    ensures r.url == c.apiBaseUrl + "/api/sessions/" + sessionId + "/qr"
  {
    BuildRequest(c, GET, "/api/sessions/" + sessionId + "/qr", None)
  }

  function WaitingMessage(attempt: int, maxAttempts: int): string {
    "Waiting for QR code... (" + Text.IntToString(attempt) + "/" + Text.IntToString(maxAttempts) + ")"
  }

  /** The thrown message once the attempts are spent; with no attempt at all
      there is no last error and the template renders `undefined`. */
  function TimeoutMessage(maxAttempts: int, lastError: Option<string>): string {
    "QR code not available after " + Text.IntToString(maxAttempts) + " attempts. " + lastError.GetOr("undefined")
  }

  function Failed(attempt: int, maxAttempts: int, error: string): AttemptInfo {
    AttemptInfo(attempt, false, WaitingMessage(attempt, maxAttempts), Some(error))
  }

  function Received(attempt: int): AttemptInfo {
    AttemptInfo(attempt, true, "QR code received", None)
  }

  function Max0(n: int): nat {
    if n > 0 then n else 0
  }

  function ErrorOf(a: Answer): string {
    if a.NetworkFailure? then a.reason else ApiErrorMessage(a.status, a.message)
  }

  predicate Succeeds(a: Answer) {
    a.Reply? && a.ok
  }

  /** No answer before index `n` is a success. */
  predicate NoneSucceedBefore(answers: seq<Answer>, n: int)
    requires n <= |answers|
  {
    forall i :: 0 <= i < n ==> !Succeeds(answers[i])
  }

  /** The callbacks of `n` failed attempts. */
  function FailureLog(answers: seq<Answer>, n: nat, maxAttempts: int): (log: seq<AttemptInfo>)
    requires n <= |answers|
    ensures |log| == n
    ensures forall i :: 0 <= i < n ==> log[i] == Failed(i + 1, maxAttempts, ErrorOf(answers[i]))
  {
    seq(n, i requires 0 <= i < n => Failed(i + 1, maxAttempts, ErrorOf(answers[i])))
  }

  lemma FailureLogGrows(answers: seq<Answer>, n: nat, maxAttempts: int)
    requires n < |answers|
    ensures FailureLog(answers, n + 1, maxAttempts)
            == FailureLog(answers, n, maxAttempts) + [Failed(n + 1, maxAttempts, ErrorOf(answers[n]))]
  {
    var longer := FailureLog(answers, n + 1, maxAttempts);
    var expected := FailureLog(answers, n, maxAttempts) + [Failed(n + 1, maxAttempts, ErrorOf(answers[n]))];
    forall i | 0 <= i < n + 1
      ensures longer[i] == expected[i]
    {
    }
    assert longer == expected;
  }

  /** What a polling run must be, given the server's answers and the
      options. */
  predicate Polled(answers: seq<Answer>, options: PollOptions, run: PollRun)
    requires options.maxAttempts.GetOr(DefaultMaxAttempts) <= |answers|
  {
    var max := options.maxAttempts.GetOr(DefaultMaxAttempts);
    var interval := options.interval.GetOr(DefaultInterval);
    // at most maxAttempts requests, none when maxAttempts <= 0
    && run.fetches <= Max0(max)
    // it succeeds iff some attempt within the budget succeeds ...
    && (run.result.Success? <==> exists k :: 0 <= k < max && Succeeds(answers[k]))
    // ... and then returns the QR of the first successful attempt, the last one made
    && (run.result.Success? ==>
          && 1 <= run.fetches
          && NoneSucceedBefore(answers, run.fetches - 1)
          && Succeeds(answers[run.fetches - 1])
          && run.result.value == answers[run.fetches - 1].qr)
    // an exhausted run makes every attempt and reports the budget and the last error
    && (run.result.Failure? ==>
          && run.fetches == Max0(max)
          && run.result.error == TimeoutMessage(max, if max > 0 then Some(ErrorOf(answers[max - 1])) else None))
    // waits happen only between attempts
    && |run.waits| == (if run.result.Success? then run.fetches - 1 else Max0(max - 1))
    && (forall i :: 0 <= i < |run.waits| ==> run.waits[i] == interval)
    // one callback per attempt, numbered from 1, successful only on the returning one
    && (!options.notify ==> run.callbacks == [])
    && (options.notify ==> |run.callbacks| == run.fetches)
    && (options.notify ==> forall i :: 0 <= i < |run.callbacks| ==>
          run.callbacks[i] ==
            if run.result.Success? && i == run.fetches - 1 then Received(i + 1)
            else Failed(i + 1, max, ErrorOf(answers[i])))
  }

  /** The waits before attempt `n + 1`: one between each two attempts. */
  function Waits(n: nat, interval: int): (ws: seq<int>)
    ensures |ws| == Max0(n - 1)
    ensures forall i :: 0 <= i < |ws| ==> ws[i] == interval
  {
    seq(Max0(n - 1), _ => interval)
  }

  /** The callbacks of a run whose first `n` attempts failed, under `notify`. */
  function Callbacks(answers: seq<Answer>, n: nat, maxAttempts: int, notify: bool): seq<AttemptInfo>
    requires n <= |answers|
  {
    if notify then FailureLog(answers, n, maxAttempts) else []
  }

  /** Returning the QR of attempt `n + 1`, the first to succeed, is a run as
      `Polled` describes. */
  lemma SucceededPolled(answers: seq<Answer>, options: PollOptions, n: nat)
    requires options.maxAttempts.GetOr(DefaultMaxAttempts) <= |answers|
    requires n < options.maxAttempts.GetOr(DefaultMaxAttempts)
    requires NoneSucceedBefore(answers, n) && Succeeds(answers[n])
    ensures
      var max := options.maxAttempts.GetOr(DefaultMaxAttempts);
      var callbacks := Callbacks(answers, n, max, options.notify) + (if options.notify then [Received(n + 1)] else []);
      Polled(answers, options, PollRun(Success(answers[n].qr), n + 1, Waits(n + 1, options.interval.GetOr(DefaultInterval)), callbacks))
  {
  }

  /** Giving up after `maxAttempts` failed attempts is a run as `Polled`
      describes. */
  lemma ExhaustedPolled(answers: seq<Answer>, options: PollOptions, lastError: Option<string>)
    requires options.maxAttempts.GetOr(DefaultMaxAttempts) <= |answers|
    requires NoneSucceedBefore(answers, Max0(options.maxAttempts.GetOr(DefaultMaxAttempts)))
    requires
      var max := options.maxAttempts.GetOr(DefaultMaxAttempts);
      lastError == if max > 0 then Some(ErrorOf(answers[max - 1])) else None
    ensures
      var max := options.maxAttempts.GetOr(DefaultMaxAttempts);
      Polled(answers, options,
             PollRun(Failure(TimeoutMessage(max, lastError)), Max0(max),
                     Waits(Max0(max), options.interval.GetOr(DefaultInterval)),
                     Callbacks(answers, Max0(max), max, options.notify)))
  {
  }

  /** `getQRCodeWithPolling`. `answers[i]` answers attempt `i + 1`. */
  method GetQrCodeWithPolling(answers: seq<Answer>, options: PollOptions) returns (run: PollRun)
    requires options.maxAttempts.GetOr(DefaultMaxAttempts) <= |answers|
    ensures Polled(answers, options, run)
  {
    var maxAttempts := options.maxAttempts.GetOr(DefaultMaxAttempts);
    var interval := options.interval.GetOr(DefaultInterval);
    var lastError: Option<string> := None;
    var waits: seq<int> := [];
    var callbacks: seq<AttemptInfo> := [];
    var attempt := 0;
    while attempt < maxAttempts
      invariant 0 <= attempt <= Max0(maxAttempts)
      invariant NoneSucceedBefore(answers, attempt)
      invariant lastError == if attempt == 0 then None else Some(ErrorOf(answers[attempt - 1]))
      invariant waits == Waits(if attempt < maxAttempts then attempt + 1 else attempt, interval)
      invariant callbacks == Callbacks(answers, attempt, maxAttempts, options.notify)
    {
      var qr := GetQrCode(answers[attempt]);
      match qr
      case Success(image) =>
        SucceededPolled(answers, options, attempt);
        if options.notify {
          callbacks := callbacks + [Received(attempt + 1)];
        }
        return PollRun(Success(image), attempt + 1, waits, callbacks);
      case Failure(error) =>
        assert error == ErrorOf(answers[attempt]);
        lastError := Some(error);
        if options.notify {
          FailureLogGrows(answers, attempt, maxAttempts);
          callbacks := callbacks + [Failed(attempt + 1, maxAttempts, error)];
        }
        if attempt < maxAttempts - 1 {
          waits := waits + [interval];
        }
        attempt := attempt + 1;
    }
    ExhaustedPolled(answers, options, lastError);
    run := PollRun(Failure(TimeoutMessage(maxAttempts, lastError)), attempt, waits, callbacks);
  }

  /** `setupSessionWithQR`: the create request comes first; a rejected create
      throws before any QR request; otherwise one settle wait, then polling. */
  method SetupSessionWithQr(c: Client, sessionId: string, created: Answer, answers: seq<Answer>, options: PollOptions)
    returns (run: SetupRun)
    requires options.maxAttempts.GetOr(DefaultMaxAttempts) <= |answers|
    ensures |run.requests| >= 1 && run.requests[0] == CreateRequest(c, sessionId)
    ensures forall i :: 1 <= i < |run.requests| ==> run.requests[i] == QrRequest(c, sessionId)
    ensures CheckAnswer(created).Failure? ==>
              run.result == Failure(ErrorOf(created)) && |run.requests| == 1 && run.waits == [] && run.callbacks == []
    ensures CheckAnswer(created).Success? ==>
              |run.waits| >= 1 && run.waits[0] == SettleDelay
    ensures CheckAnswer(created).Success? ==>
              |run.requests| - 1 <= Max0(options.maxAttempts.GetOr(DefaultMaxAttempts))
    ensures run.result.Success? ==>
              && CheckAnswer(created).Success?
              && 2 <= |run.requests|
              && Succeeds(answers[|run.requests| - 2])
    // after an accepted create, the rest of the run is a polling run
    ensures CheckAnswer(created).Success? ==>
              && |run.waits| >= 1
              && Polled(answers, options, PollRun(run.result, |run.requests| - 1, run.waits[1..], run.callbacks))
  {
    var create := CheckAnswer(created);
    if create.Failure? {
      return SetupRun(Failure(create.error), [CreateRequest(c, sessionId)], [], []);
    }
    var poll := GetQrCodeWithPolling(answers, options);
    var polls := seq(poll.fetches, _ => QrRequest(c, sessionId));
    run := SetupRun(poll.result, [CreateRequest(c, sessionId)] + polls, [SettleDelay] + poll.waits, poll.callbacks);
    assert run.waits[1..] == poll.waits;
  }
}
