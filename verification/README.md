# KirimKan gateway: routes, dashboard webhook form and QR client in Dafny

KirimKan is a multi-session WhatsApp gateway. This project models the small,
deterministic decision logic around its session manager:

- the browser `QRCodeClient`: request headers, the ok-check on every response,
  the bounded QR polling loop and the create-then-poll flow (`QrClient`);
- the dashboard's webhook form: newline-separated callback URLs and
  comma-separated domains, validation order, filling the form from a loaded
  configuration, the select-all checkbox and the session drop-down
  (`WebhookForm`);
- the dashboard's webhook log: newest first, capped at 50, mirrored into
  session storage (`WebhookLogger`);
- the `/api/webhook` router: URL validation, the 11-event allow-list, GET,
  DELETE and the test delivery with its `webhook:sent` notification
  (`WebhookRoutes`, `Events`);
- the `/api/sessions` router's status codes (`SessionRoutes`);
- the contacts and groups routers: socket lookup and JID normalisation
  (`SessionSockets`, `ContactRoutes`, `GroupRoutes`);
- `MediaHandler`: the media-type gate, extension inference and the file name
  (`Media`);
- the `x-api-key` middleware and the `/api/auth` router (`ApiKeyAuth`,
  `AuthRoutes`).

Everything is a pure function over immutable values, except three methods.
`QrClient.GetQrCodeWithPolling` and `WebhookLogger.AddLog` have loops that
mirror the source's loops. `QrClient.SetupSessionWithQr` has no loop: it
sends the create request, records the settle delay and calls the polling
method. The JavaScript builtins the code relies on are defined once. `Text`
holds `trim` with the full ECMAScript whitespace set, `split` on one
character, `join`, integer rendering and `JSON.stringify` of a string. `Seqs` holds `filter`, `map` and `every`. `Js` holds JSON values and
truthiness.

The outside world is represented by parameters:

- Each HTTP request of the QR client is answered by the next element of a
  sequence of `Answer`s.
- Each `setTimeout` is recorded as a wait of its duration.
- The session manager is reduced to what each route reads from it.
  `getSession` is a map from id to `Session`. `getAllSessions` is a list,
  `deleteSession` a boolean, and `createSession` an outcome handed in by the
  caller, either "returned" or "threw with this message". A throw is modelled
  only for `createSession`.
- The stored webhook configuration is what `setWebhookConfig` last stored for
  that session. `getWebhookConfig` is assumed to return exactly that.
- `new URL(...)` is the predicate parameter `urlParses`.
- Downloads, the `onWhatsApp`/`groupCreate` socket calls and the test
  delivery's POST are outcome parameters.

The dashboard and the server disagree about the webhook API.
`WebhookRoutes.DashboardSaveIsRefused` records this. The dashboard posts
`{sessionId, callbackUrls, retry, domainWhitelist, events}` to
`/api/webhook/config`. The router matches that path as `/:sessionId` with
session `"config"`. It expects a `webhookUrl` field, so every dashboard save
gets 400 and stores nothing. The dashboard's load likewise asks for session
`"config"`. Each side is modelled as its own code reads.

The QR client and the server disagree too. The client sends its key as
`Authorization: Bearer <key>`, while `apiKeyAuth` reads only `x-api-key`.
`ApiKeyAuth.ClientKeyNeverAccepted` records that, with a key configured,
every client request is refused. The client's `getQRCode` asks for
`/api/sessions/<id>/qr`, a path that src/routes/sessions.js does not route
(it has `/`, `/:id`, `/create` and `DELETE /:id`). The server would answer
with its default HTML 404, on which `response.json()` throws. The client is
modelled as written, against answers handed in by the caller.

## Model

| member | source | states |
|---|---|---|
| `QrClient.NewClient` | public/js/qr-api-client.js:7-14 | Defaults are base URL `http://localhost:3000` and key `''`. JSON content type is always set. `Authorization: Bearer <key>` is present iff the key is non-empty. No other header is set. |
| `QrClient.SetApiKey` | public/js/qr-api-client.js:19-22 | The bearer header is set even for an empty key. Every other header is kept. |
| `QrClient.BuildRequest` | public/js/qr-api-client.js:27-37 | The request goes to base URL + endpoint with the client's headers. It carries a body iff one is given. |
| `QrClient.CheckAnswer` | public/js/qr-api-client.js:37-44 | A response is accepted iff it is ok. A non-ok response is rejected with `API Error: <status> - <message or 'Unknown error'>`. A fetch rejection is passed on. |
| `QrClient.CreateRequest` | public/js/qr-api-client.js:50-52 | `createSession` is a POST to base URL + `/api/sessions/create` with the client's headers. Its body is `{"sessionId":<id>}` with the id as a JSON string (line 34), and unescaping the quoted part gives back the id. |
| `QrClient.CreateBodyOfPlainId` | public/js/qr-api-client.js:50-52 | An id without `"` or `\` is sent between plain double quotes. |
| `Text.JsonUnescapeEscape` | public/js/qr-api-client.js:34 | Escaping a string for JSON and unescaping it gives the string back. |
| `QrClient.QrRequest` | public/js/qr-api-client.js:58 | `getQRCode` sends a bodiless GET to base URL + `/api/sessions/<id>/qr` with the client's headers. |
| `QrClient.GetQrCode` | public/js/qr-api-client.js:57-60 | It succeeds iff the answer is accepted, and then returns that answer's QR. Otherwise it fails with the same error as the ok-check. |
| `QrClient.GetQrCodeWithPolling` | public/js/qr-api-client.js:72-107 | At most `maxAttempts` requests are made (default 30), and none when it is ≤ 0. Polling succeeds iff some attempt within the budget succeeds. It returns that first success's QR and makes no request after it. Otherwise it makes every attempt and throws a message naming `maxAttempts` and the last error (`undefined` when there was none). There are exactly n−1 waits of `interval` (default 1000) for n attempts. `onAttempt` fires once per attempt, numbered 1..k, with `success` true only on the returning attempt. |
| `QrClient.SetupSessionWithQr` | public/js/qr-api-client.js:116-125 | The create request is first, and every later request is a QR poll. A rejected create throws with no poll and no wait. Otherwise the first wait is the 1500 ms settle delay. After it, the requests, waits, callbacks and result are exactly a polling run with the same answers and options. Success implies the create was accepted and the last poll succeeded. |
| `WebhookForm.ParseList` | public/js/webhook.js:121-130 | Every parsed URL or domain is trimmed, non-empty and free of the separator. |
| `WebhookForm.CheckedEvents` | public/js/webhook.js:133-134 | The posted events are exactly the values of checked boxes. |
| `WebhookForm.SaveConfig` | public/js/webhook.js:113-162 | The checks run in order: session, then URLs, then events. The first failure decides the warning. Only a form passing all three is posted, to `/api/webhook/config`. The body holds the session, the parsed URL list, the retry flag, the parsed domain list and exactly the checked events. |
| `WebhookForm.ToggleAll` | public/js/webhook.js:16-24 | The select-all handler sets every box to its state and keeps the values. |
| `WebhookForm.ToggleEvent` | public/js/webhook.js:27-35 | Changing one box leaves the others alone. Select-all is then checked iff every box is checked. |
| `WebhookForm.ToggleAllThenAllChecked` | public/js/webhook.js:18-30 | After the select-all handler, "every box checked" holds iff select-all was checked or there are no boxes. |
| `WebhookForm.LoadConfig` | public/js/webhook.js:57-111 | With no session, the form resets to no URLs, retry on, domains `*` and no events. A failed load leaves the form unchanged. The retry box is checked unless `retry` is exactly `false`. A box is checked iff its value is among the loaded events, and select-all iff all boxes are. Absent fields leave their inputs alone. |
| `WebhookForm.ParseJoinRoundTrip` | public/js/webhook.js:121-130 | Clean entries joined by the separator plus optional whitespace parse back to the same list. |
| `WebhookForm.UrlsRoundTrip` | public/js/webhook.js:121-124 | Loaded URLs joined with a newline (line 78) parse back to the same list when each is trimmed, non-empty and newline-free. |
| `WebhookForm.DomainsRoundTrip` | public/js/webhook.js:127-130 | Loaded domains joined with `', '` (line 90) parse back to the same list when each is trimmed, non-empty and comma-free. |
| `WebhookForm.LoadThenSave` | public/js/webhook.js:72-98 | Saving right after loading a clean configuration posts back the same URLs and domains. It also posts the retry flag and only events the configuration listed. |
| `WebhookForm.LoadedEventsListed` | public/js/webhook.js:94-98 | After a load, the checked events are non-empty when any box matches, and all come from the loaded list. |
| `WebhookForm.SessionOptions` | public/js/webhook.js:48-55 | The drop-down is the placeholder followed by exactly the ids of connected sessions. |
| `WebhookForm.ConnectedKeepsOrder` | public/js/webhook.js:52 | The connected filter distributes over concatenation, so session order is kept. |
| `WebhookLogger.StatusLabel` | public/js/webhookLogger.js:29 | On success the badge is `✓ ` followed by the status number, or 200 when the status is absent or zero. Otherwise it is `✗ Error`. |
| `WebhookLogger.Render` | public/js/webhookLogger.js:25-42 | The entry class is `success`/`failed` and the badge class `status-success`/`status-error`. The badge text is the status label. Event, URL, payload and time are shown as received. |
| `WebhookLogger.SaveToStorage` | public/js/webhookLogger.js:55-65 | Storage holds the first `min(n, 50)` on-screen entries in display order. Without a container, nothing changes. |
| `WebhookLogger.LoadFromStorage` | public/js/webhookLogger.js:67-80 | Stored entries replace the screen only when both exist. |
| `WebhookLogger.ClearLogs` | public/js/webhookLogger.js:82-88 | The screen is emptied if present, and the storage key is removed. |
| `WebhookLogger.AddLog` | public/js/webhookLogger.js:21-53 | The new entry comes first. The list is cut to `min(n+1, 50)` by dropping the oldest from the end, the rest keeps its order, and storage equals the screen. Without a container, nothing changes. |
| `WebhookLogger.LoadAfterSave` | public/js/webhookLogger.js:64-76 | Load after save restores the screen when it holds at most 50 entries. |
| `WebhookLogger.LoadAfterClear` | public/js/webhookLogger.js:82-88 | After clearing, a reload changes nothing. |
| `WebhookLogger.BoundedPreserved` | public/js/webhookLogger.js:47-64 | Save, load and clear keep screen and storage at no more than 50 entries. |
| `WebhookRoutes.GetConfig` | src/routes/webhook.js:5-16 | `enabled` holds iff a non-empty URL is stored. A missing URL reads as `null`, and missing events read as `[]`. |
| `WebhookRoutes.SelectEvents` | src/routes/webhook.js:47-56 | Stored events are exactly the requested names on the 11-name allow-list; others are silently dropped. A non-array stores `[]`. |
| `WebhookRoutes.SelectEventsKeepsOrder` | src/routes/webhook.js:54-56 | Event selection distributes over concatenation, so request order is kept. |
| `WebhookRoutes.PostConfig` | src/routes/webhook.js:24-69 | A missing, empty or non-string `webhookUrl` gets 400 first, then an unparsable one gets 400, and in both cases nothing is stored. Otherwise the URL and selected events are stored for the session only and echoed. |
| `WebhookRoutes.DeleteConfig` | src/routes/webhook.js:77-92 | Stores `null` for the session and leaves other sessions alone. |
| `WebhookRoutes.PostThenGet` | src/routes/webhook.js:58-68 | After a successful POST, GET reports enabled with exactly the echoed URL and events, all on the allow-list. |
| `WebhookRoutes.DeleteThenGet` | src/routes/webhook.js:81 | After DELETE, GET reports disabled, URL `null` and no events. |
| `WebhookRoutes.DashboardSaveIsRefused` | src/routes/webhook.js:24-34 | The dashboard's save body, posted to `/config`, is refused with 400 and stores nothing. |
| `WebhookRoutes.TestWebhook` | src/routes/webhook.js:95-157 | Without a stored URL: 400, no delivery, no notification. Otherwise: one `test` delivery to the stored URL with a 10 s timeout, and one `webhook:sent` whose `success` matches the delivery. The delivery succeeds iff it gets a 2xx response. Then the reply is 200 with that status. Otherwise it is 500 with `Webhook test failed: <message>`, where the message is `Request failed with status code <n>` for a non-2xx response or the transport error. |
| `WebhookRoutes.DashboardLoadFillsNothing` | src/routes/webhook.js:5-16 | The GET reply has no `data`. If `apiCall` hands that body back unchanged, the dashboard's load (public/js/webhook.js:72) leaves a form with a selected session unchanged. |
| `SessionRoutes.List` | src/routes/sessions.js:5-8 | Returns the manager's list unchanged, with 200. |
| `SessionRoutes.Get` | src/routes/sessions.js:11-25 | 404 iff the session is absent. Otherwise only `{id, status, user}` of the session. |
| `SessionRoutes.Create` | src/routes/sessions.js:28-40 | A falsy id gets 400 without calling the manager. Otherwise the manager is called once: a throw gives 500 with its message, and a return gives 200 echoing the id. |
| `SessionRoutes.Delete` | src/routes/sessions.js:43-50 | 200 iff the manager reports a deletion, else 404. |
| `SessionSockets.GetSocket` | src/routes/contacts.js:4-10 | Fails with `Session not found or not connected` unless the session exists and has a socket. The same helper is at src/routes/groups.js:4-10. |
| `SessionSockets.NormalizeJid` | src/routes/contacts.js:34 | The output always contains `@`. A number with `@` is unchanged. Any other number gets `@s.whatsapp.net` appended. |
| `SessionSockets.NormalizeJidIdempotent` | src/routes/contacts.js:34 | Normalising twice equals normalising once. |
| `SessionSockets.NormalizeParticipants` | src/routes/groups.js:30 | Length and order are kept. Every entry contains `@`, and entries that already held `@` are unchanged. |
| `ContactRoutes.ListContacts` | src/routes/contacts.js:13-28 | 200 with empty `data` iff the socket is found, else 500. |
| `ContactRoutes.CheckNumber` | src/routes/contacts.js:31-40 | Without a socket: 500 and no lookup. Otherwise the normalised JID is looked up, and a failure gives 500 with its message. |
| `GroupRoutes.ListGroups` | src/routes/groups.js:13-21 | 200 with the socket's groups, or 500 with the failure's message. |
| `GroupRoutes.CreateGroup` | src/routes/groups.js:24-37 | The socket is checked first. A non-array participant list gives 500. `groupCreate` receives the subject and the normalised participants. Every failure is 500. |
| `Media.DefaultExtension` | src/lib/MediaHandler.js:76-83 | The per-type default is one of jpg/mp4/mp3/bin/webp, and `bin` for any non-media type. |
| `Media.GetExtension` | src/lib/MediaHandler.js:70-84 | A falsy mimetype gives the type default. A truthy mimetype throws iff it is not a string (no `split`) or is a string without `/`. Any extension returned is non-empty and free of `/` and `;`. |
| `Media.FieldExtension` | src/lib/MediaHandler.js:52 | A null media value throws when its `mimetype` is read. Otherwise its mimetype goes to `getExtension`. |
| `Media.ExtensionOfPlainMime` | src/lib/MediaHandler.js:72 | `type/subtype` gives `subtype`. |
| `Media.ExtensionOfMimeWithParameters` | src/lib/MediaHandler.js:72 | `type/subtype;params` gives `subtype`, cut at the first `;`, for any parameters, including ones that contain `/`. |
| `Media.ExtensionOfEmptySubtype` | src/lib/MediaHandler.js:71-73 | `type/` falls back to the type default. |
| `Media.SaveMedia` | src/lib/MediaHandler.js:18-68 | A download happens iff the first content key is one of the five media types. Without one, the result is null. A media message yields `<key id>.<ext>` iff the download and the extension succeed, else null. |
| `Media.MalformedMediaNotSaved` | src/lib/MediaHandler.js:52-67 | A media value that is null, or whose mimetype is truthy but not a string, is downloaded and then gives null. |
| `ApiKeyAuth.Check` | src/middleware/auth.js:1-20 | With no key, or only whitespace, configured, everything passes. Otherwise a request passes iff its header exactly equals the untrimmed key; an empty or missing header is rejected with 401 and `Unauthorized: Invalid or missing API key`. |
| `ApiKeyAuth.ClientKeyNeverAccepted` | src/middleware/auth.js:10-12 | Only `x-api-key` is read. A QR client, before or after `setApiKey`, never sends that header, so with a key configured each of its requests is refused. |
| `ApiKeyAuth.KeyComparedUntrimmed` | src/middleware/auth.js:5-12 | A header equal to the configured key without its leading space is refused. |
| `AuthRoutes.Login` | src/routes/auth.js:4-16 | Success iff both fields strictly equal the admin values, where unset matches only an absent field. The token is the admin password and the username is echoed. Otherwise 401. |
| `AuthRoutes.LoginWithNothingConfigured` | src/routes/auth.js:7 | With both variables unset, a body without both fields logs in with no token. |
| `AuthRoutes.Logout` | src/routes/auth.js:18-20 | Always 200. |
| `AuthRoutes.CheckAsMounted` | src/routes/auth.js:22-25 | Always `authenticated: true`. |
| `AuthRoutes.CheckAcceptsMissingKey` | src/routes/auth.js:22-25 | With a key configured, a request with no key is rejected by the middleware yet told it is authenticated by `/check`. |
| `AuthRoutes.CheckGuarded` | src/routes/auth.js:22-25 | Behind the middleware, `/check` is authenticated iff the key check passes, else 401. |

## Left out

- The session manager and webhook sender (`src/lib/SessionManager`, `src/lib/WebhookSender`), which server.js:13-14 loads, are not part of this model. That leaves out the session registry, the connection state machine, QR freshness, domain-whitelist matching and retrying dispatch. Duplicate creates are whatever the manager throws: 500 here, never 409.
- server.js bootstrap, CORS set-up (including the origin list split at line 23), toast.js, the socket.io room handler and the status router: wiring and UI around calls this model does not see.
- tests/qr-api-test.js: a network script with no assertions, whose loop duplicates the client's polling.
- `QRCodeClient.getSessionStatus`, `listSessions`, `deleteSession` and the usage examples: thin calls of `request`. They are covered by `BuildRequest` and `CheckAnswer`.
- Timing: `setTimeout` delays are recorded as waits of their duration, not as elapsed time.
- A failure of `response.json()` and an ok response without `data.data` are not modelled: an ok answer always carries a QR.
- QrClient.GetQrCodeWithPolling: needs one answer for every attempt the budget allows (`maxAttempts <= |answers|`), because the server's answers are a finite sequence. Non-integer `maxAttempts` is not modelled.
- QrClient.SetupSessionWithQr: needs the same answer budget as the polling loop.
- DOM and HTML: option and entry markup, escaping, the spinner on the save button and the toasts after a POST are left out. A load whose call throws is treated like a load without `data`.
- WebhookLogger.LoadFromStorage: storage holds entries rather than their `outerHTML` strings, so the JSON parse error branch cannot arise.
- The `catch` branches of the webhook router that answer 500 when the manager itself throws are left out, because those manager calls are not visible.
- SessionRoutes.List, SessionRoutes.Get, SessionRoutes.Delete: a manager that throws is not modelled. These routes (src/routes/sessions.js:5-8, 11-25, 43-50) have no `try`, so a throw would reach Express's error handler.
- QrClient.CreateRequest: `JSON.stringify` escaping is modelled for `"` and `\` only. Control characters below U+0020 get `\uXXXX` escapes, and those are not modelled.
- WebhookRoutes.TestWebhook: the rejection message for a non-2xx response is axios's default wording. Redirects and axios's other error kinds are folded into the transport error.
- Media.GetExtension: each TypeError case has one fixed message, and no contract of a saved file depends on it. The engine's wording varies with the value: an undefined media value reads "undefined" where the fixed string says "null".
- GroupRoutes.CreateGroup: participants that are not strings are not modelled. Any non-array list gives 500 with one fixed TypeError message. The engine's real wording differs by case: a missing list reads "Cannot read properties of undefined (reading 'map')", and another value reads "participants.map is not a function".
- Media.SaveMedia: the lazy import of the protocol library, the download itself, the dated directory and file writes are left out. The result is the file name, not its path. A message without `key` is not modelled.
- WebhookRoutes.DashboardLoadFillsNothing: the dashboard's `window.app.apiCall` is not part of this model. It is assumed to resolve to the server's JSON body unchanged. A wrapper that put the body under `data` would make the load fill the form.
- Numbers in JSON bodies are integers; fractions and NaN are not modelled.

## Findings

| source | as written | input that shows it | evidently intended | confidence | as-written member | corrected member |
|---|---|---|---|---|---|---|
| src/routes/auth.js:22-25 | `/api/auth/check` is mounted without `apiKeyAuth` (server.js:56), so it answers `authenticated: true` to every request | `API_KEY=secret`, request without `x-api-key`: the middleware would reject it, `/check` returns 200 `authenticated: true` | the comment at line 23 says invalid requests are blocked by the middleware: `/check` should pass only when the key check passes | medium, not executed | `AuthRoutes.CheckAsMounted` | `AuthRoutes.CheckGuarded` |
