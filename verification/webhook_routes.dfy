/** The `/api/webhook` router: read, set, clear and test a session's webhook.
    The configuration lives in the session manager, which is not part of this
    model; it is represented by what `setWebhookConfig` last stored for each
    session, and `getWebhookConfig` is assumed to return exactly that. URL
    parsing (`new URL`) is the parameter `urlParses`. */
module WebhookRoutes {
  import opened Wrappers
  import Js
  import Seqs
  import Text
  import WebhookForm
  import opened Events

  /** The events a configuration may subscribe to. */
  const ValidEvents: seq<string> := [
    "connection.update", "messages.upsert", "messages.update",
    "messages.delete", "presence.update", "chats.upsert",
    "chats.update", "contacts.upsert", "groups.upsert",
    "group-participants.update", "call"
  ]

  const TestEvent := "test"
  const TestMessage := "This is a test webhook from KirimKan"
  /** Milliseconds the test delivery may take. */
  const TestTimeout := 10000
  const UserAgent := "KirimKan-Webhook/1.0"

  /** A stored configuration; fields another writer left out are `None`. */
  datatype Config = Config(webhookUrl: Option<string>, events: Option<seq<string>>)

  /** Per session, what was last stored; `None` is a stored `null`. */
  type Store = map<string, Option<Config>>

  /** The JSON body of a POST; only these two fields are read. */
  datatype Body = Body(webhookUrl: Js.Value, events: Js.Value)

  /** The response of GET. */
  datatype ConfigView = ConfigView(sessionId: string, webhookUrl: Option<string>, events: seq<string>, enabled: bool)

  datatype PostReply =
    | MissingUrl
    | InvalidUrl
    | Configured(sessionId: string, webhookUrl: string, events: seq<string>)
  {
    function Status(): int {
      if Configured? then 200 else 400
    }
  }

  datatype PostRun = PostRun(store: Store, reply: PostReply)

  /** What the test delivery's HTTP POST came to: a response with its status,
      or a transport error (timeout, refused connection) with its message. */
  datatype DeliveryOutcome = Delivered(status: int) | DeliveryError(message: string)

  /** `axios.post` resolves only for a 2xx response (its default
      `validateStatus`). */
  predicate Accepted(o: DeliveryOutcome) {
    o.Delivered? && 200 <= o.status < 300
  }

  /** The message `axios.post` rejects with. */
  function RejectionMessage(o: DeliveryOutcome): string
    requires !Accepted(o)
  {
    if o.Delivered? then "Request failed with status code " + Text.IntToString(o.status) else o.message
  }

  /** One outbound POST of the test route. */
  datatype Delivery = Delivery(url: string, event: string, sessionId: string, payload: Payload, timeout: int, userAgent: string)

  datatype TestReply =
    | NotConfigured
    | TestSent(status: int)
    | TestFailed(message: string)
  {
    function Status(): int {
      match this
      case NotConfigured => 400
      case TestSent(_) => 200
      case TestFailed(_) => 500
    }
  }

  /** The test route's reply, the deliveries it attempted and the
      notifications it emitted. */
  datatype TestRun = TestRun(reply: TestReply, deliveries: seq<Delivery>, emitted: seq<WebhookSent>)

  function Lookup(store: Store, sessionId: string): Option<Config> {
    if sessionId in store then store[sessionId] else None
  }

  /** A URL is configured when the stored one is present and non-empty. */
  predicate HasUrl(c: Option<Config>) {
    c.Some? && c.value.webhookUrl.Some? && c.value.webhookUrl.value != ""
  }

  /** GET `/:sessionId`: `enabled` iff a non-empty URL is stored; a missing URL
      reads as `null` and missing events as `[]`. */
  function GetConfig(store: Store, sessionId: string): (v: ConfigView)
    ensures v.sessionId == sessionId
    ensures v.enabled <==> HasUrl(Lookup(store, sessionId))
    ensures v.enabled <==> v.webhookUrl.Some?
    ensures v.enabled ==> v.webhookUrl == Lookup(store, sessionId).value.webhookUrl
    ensures Lookup(store, sessionId).None? ==> v.events == []
    ensures Lookup(store, sessionId).Some? && Lookup(store, sessionId).value.events.Some? ==>
              v.events == Lookup(store, sessionId).value.events.value
    ensures Lookup(store, sessionId).Some? && Lookup(store, sessionId).value.events.None? ==> v.events == []
  {
    var c := Lookup(store, sessionId);
    ConfigView(
      sessionId,
      if HasUrl(c) then c.value.webhookUrl else None,
      if c.Some? && c.value.events.Some? then c.value.events.value else [],
      HasUrl(c))
  }

  predicate IsValidEvent(v: Js.Value) {
    v.Str? && v.s in ValidEvents
  }

  function StringOf(v: Js.Value): string {
    if v.Str? then v.s else ""
  }

  /** The stored events: the requested names on the allow-list, in request
      order; anything but an array selects none. */
  function SelectEvents(events: Js.Value): (r: seq<string>)
    ensures !events.Arr? ==> r == []
    ensures forall i :: 0 <= i < |r| ==> r[i] in ValidEvents
    ensures events.Arr? ==> |r| <= |events.items|
    ensures events.Arr? ==> forall i :: 0 <= i < |events.items| && IsValidEvent(events.items[i]) ==> events.items[i].s in r
    ensures events.Arr? ==> forall i :: 0 <= i < |r| ==> Js.Str(r[i]) in events.items
  {
    if events.Arr? then
      var kept := Seqs.Filter(IsValidEvent, events.items);
      var r := Seqs.Map(StringOf, kept);
      assert forall i :: 0 <= i < |r| ==> Js.Str(r[i]) == kept[i];
      r
    else []
  }

  /** Selection keeps the request order: it is computed piecewise. */
  lemma {:induction false} SelectEventsKeepsOrder(a: seq<Js.Value>, b: seq<Js.Value>)
    ensures SelectEvents(Js.Arr(a + b)) == SelectEvents(Js.Arr(a)) + SelectEvents(Js.Arr(b))
  {
    Seqs.FilterAppend(IsValidEvent, a, b);
    var fa := Seqs.Filter(IsValidEvent, a);
    var fb := Seqs.Filter(IsValidEvent, b);
    assert Seqs.Map(StringOf, fa + fb) == Seqs.Map(StringOf, fa) + Seqs.Map(StringOf, fb);
  }

  /** POST `/:sessionId`: a missing, empty or non-string URL is refused first,
      then an unparsable one; otherwise the URL and the selected events are
      stored and echoed. */
  function PostConfig(store: Store, sessionId: string, body: Body, urlParses: string -> bool): (run: PostRun)
    ensures !(body.webhookUrl.Str? && body.webhookUrl.s != "") ==> run.reply == MissingUrl
    ensures body.webhookUrl.Str? && body.webhookUrl.s != "" && !urlParses(body.webhookUrl.s) ==>
              run.reply == InvalidUrl
    ensures run.reply.Status() == 400 ==> run.store == store
    ensures run.reply.Configured? <==>
              body.webhookUrl.Str? && body.webhookUrl.s != "" && urlParses(body.webhookUrl.s)
    ensures run.reply.Configured? ==>
              && run.reply.sessionId == sessionId
              && run.reply.webhookUrl == body.webhookUrl.s
              && run.reply.events == SelectEvents(body.events)
              && run.store == store[sessionId := Some(Config(Some(run.reply.webhookUrl), Some(run.reply.events)))]
  {
    if !(body.webhookUrl.Str? && body.webhookUrl.s != "") then PostRun(store, MissingUrl)
    else
      var url := body.webhookUrl.s;
      if !urlParses(url) then PostRun(store, InvalidUrl)
      else
        var events := SelectEvents(body.events);
        PostRun(store[sessionId := Some(Config(Some(url), Some(events)))], Configured(sessionId, url, events))
  }

  /** DELETE `/:sessionId`: stores `null`, and touches no other session. */
  function DeleteConfig(store: Store, sessionId: string): (store': Store)
    ensures Lookup(store', sessionId).None?
    ensures forall id :: id != sessionId ==> Lookup(store', id) == Lookup(store, id)
  {
    store[sessionId := None]
  }

  /** After a successful POST, GET reports the webhook enabled with exactly the
      URL and events the POST echoed, and only the subscribed allow-list
      events. */
  lemma PostThenGet(store: Store, sessionId: string, body: Body, urlParses: string -> bool)
    requires PostConfig(store, sessionId, body, urlParses).reply.Configured?
    ensures var run := PostConfig(store, sessionId, body, urlParses);
            var v := GetConfig(run.store, sessionId);
            && v.enabled
            && v.webhookUrl == Some(run.reply.webhookUrl)
            && v.events == run.reply.events
            && forall i :: 0 <= i < |v.events| ==> v.events[i] in ValidEvents
  {
  }

  /** After DELETE, GET reports the webhook disabled, with no URL and no
      events. */
  lemma DeleteThenGet(store: Store, sessionId: string)
    ensures var v := GetConfig(DeleteConfig(store, sessionId), sessionId);
            !v.enabled && v.webhookUrl.None? && v.events == []
  {
  }

  /** The dashboard posts `{sessionId, callbackUrls, retry, domainWhitelist,
      events}` to `/api/webhook/config`. The router reads that path as session
      `"config"` and the body as having no `webhookUrl`, so every such save is
      refused with 400 and stores nothing. */
  lemma DashboardSaveIsRefused(store: Store, events: seq<string>, urlParses: string -> bool)
    ensures var body := Body(Js.Undefined, Js.Arr(Seqs.Map((e: string) => Js.Str(e), events)));
            var run := PostConfig(store, "config", body, urlParses);
            run.reply == MissingUrl && run.reply.Status() == 400 && run.store == store
  {
  }

  /** The `data` field the dashboard looks for in a GET reply. The reply
      carries `success`, `sessionId`, `webhookUrl`, `events` and `enabled`,
      and no `data`. The dashboard's `window.app.apiCall` is not part of this
      model; it is taken to resolve to the server's JSON body unchanged. */
  function DashboardData(v: ConfigView): Option<WebhookForm.LoadedConfig> {
    None
  }

  /** The dashboard's load, which asks for session `"config"`, never fills
      the form of a selected session, whatever is stored. */
  lemma DashboardLoadFillsNothing(f: WebhookForm.Form, store: Store)
    requires f.sessionId != ""
    ensures WebhookForm.LoadConfig(f, DashboardData(GetConfig(store, "config"))) == f
  {
  }

  /** POST `/:sessionId/test`: without a stored URL nothing is delivered and
      400 is returned; otherwise exactly one delivery of a `test` event to the
      stored URL, exactly one `webhook:sent` notification whose `success` is
      the delivery's outcome, and 200 or 500 accordingly. */
  function TestWebhook(store: Store, sessionId: string, outcome: DeliveryOutcome, timestamp: string): (run: TestRun)
    ensures !HasUrl(Lookup(store, sessionId)) ==>
              run.reply == NotConfigured && run.deliveries == [] && run.emitted == []
    ensures HasUrl(Lookup(store, sessionId)) ==>
              var url := Lookup(store, sessionId).value.webhookUrl.value;
              && |run.deliveries| == 1
              && run.deliveries[0].url == url
              && run.deliveries[0].event == TestEvent
              && run.deliveries[0].sessionId == sessionId
              && run.deliveries[0].timeout == TestTimeout
              && |run.emitted| == 1
              && run.emitted[0].url == url
              && run.emitted[0].event == TestEvent
              && run.emitted[0].payload == run.deliveries[0].payload
              && (run.emitted[0].success <==> Accepted(outcome))
              && (run.reply.Status() == 200 <==> Accepted(outcome))
              && (Accepted(outcome) ==>
                    run.reply == TestSent(outcome.status) && run.emitted[0].status == Some(outcome.status))
              && (!Accepted(outcome) ==>
                    && run.reply == TestFailed("Webhook test failed: " + RejectionMessage(outcome))
                    && run.emitted[0].error == Some(RejectionMessage(outcome)))
  {
    var c := Lookup(store, sessionId);
    if !HasUrl(c) then TestRun(NotConfigured, [], [])
    else
      var url := c.value.webhookUrl.value;
      var payload := TestData(TestMessage, timestamp);
      var delivery := Delivery(url, TestEvent, sessionId, payload, TestTimeout, UserAgent);
      if Accepted(outcome) then
        TestRun(TestSent(outcome.status), [delivery], [WebhookSent(true, Some(outcome.status), None, url, TestEvent, payload)])
      else
        var message := RejectionMessage(outcome);
        TestRun(TestFailed("Webhook test failed: " + message), [delivery],
                [WebhookSent(false, None, Some(message), url, TestEvent, payload)])
  }
}
