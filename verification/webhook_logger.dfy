/** The dashboard's `webhookLogger`: the live list of `webhook:sent`
    notifications, newest first and capped, mirrored into session storage.
    The DOM container is `Some` list of entries when the page has it, and the
    storage slot is `Some` list when its key is set. */
module WebhookLogger {
  import opened Wrappers
  import Text
  import opened Events

  /** Entries kept on screen and in storage. */
  const MaxLogs := 50

  /** One rendered log entry. */
  datatype Entry = Entry(
    entryClass: string,
    time: string,
    statusLabel: string,
    statusClass: string,
    event: string,
    url: string,
    payload: Payload)

  datatype Logger = Logger(container: Option<seq<Entry>>, storage: Option<seq<Entry>>)

  function Min(a: int, b: int): int {
    if a < b then a else b
  }

  /** The status badge: the HTTP status (200 when absent or zero) after a tick
      on success, a fixed error label otherwise. */
  function StatusLabel(data: WebhookSent): (badge: string)
    ensures data.success ==> |badge| > 2 && badge[..2] == "✓ "
    ensures data.success ==>
              var shown := if data.status.Some? && data.status.value != 0 then data.status.value else 200;
              badge[2..] == Text.IntToString(shown)
    ensures !data.success ==> badge == "✗ Error"
  {
    if data.success then
      var status := if data.status.Some? && data.status.value != 0 then data.status.value else 200;
      "✓ " + Text.IntToString(status)
    else "✗ Error"
  }

  /** The entry `addLog` renders for a notification received at `time`. */
  function Render(data: WebhookSent, time: string): (e: Entry)
    ensures e.entryClass == if data.success then "webhook-entry success" else "webhook-entry failed"
    ensures e.statusClass == if data.success then "status-success" else "status-error"
    ensures e.statusLabel == StatusLabel(data)
    ensures e.event == data.event && e.url == data.url && e.payload == data.payload && e.time == time
  {
    if data.success then
      Entry("webhook-entry success", time, StatusLabel(data), "status-success", data.event, data.url, data.payload)
    else
      Entry("webhook-entry failed", time, StatusLabel(data), "status-error", data.event, data.url, data.payload)
  }

  /** `saveToStorage`: the first `MaxLogs` entries on screen, in display
      order; nothing happens without a container. */
  function SaveToStorage(l: Logger): (l': Logger)
    ensures l'.container == l.container
    ensures l.container.None? ==> l'.storage == l.storage
    ensures l.container.Some? ==>
              && l'.storage.Some?
              && |l'.storage.value| == Min(|l.container.value|, MaxLogs)
              && l'.storage.value == l.container.value[..|l'.storage.value|]
  {
    match l.container
    case None => l
    case Some(entries) =>
      l.(storage := Some(if |entries| > MaxLogs then entries[..MaxLogs] else entries))
  }

  /** `loadFromStorage`: the stored entries replace the screen's, if both a
      stored list and a container exist. */
  function LoadFromStorage(l: Logger): (l': Logger)
    ensures l'.storage == l.storage
    ensures l.storage.Some? && l.container.Some? ==> l'.container == l.storage
    ensures l.storage.None? || l.container.None? ==> l'.container == l.container
  {
    if l.storage.Some? && l.container.Some? then l.(container := l.storage) else l
  }

  /** `clearLogs`: the screen is emptied (if present) and the stored key is
      removed. */
  function ClearLogs(l: Logger): (l': Logger)
    ensures l.container.Some? ==> l'.container == Some([])
    ensures l.container.None? ==> l'.container.None?
    ensures l'.storage.None?
  {
    Logger(if l.container.Some? then Some([]) else None, None)
  }

  /** `addLog`: the new entry goes first, the oldest entries are dropped from
      the end down to `MaxLogs`, and the screen is saved; nothing happens
      without a container. */
  method AddLog(l: Logger, data: WebhookSent, time: string) returns (l': Logger)
    ensures l.container.None? ==> l' == l
    ensures l.container.Some? ==>
              var old_entries := l.container.value;
              && l'.container.Some?
              && |l'.container.value| == Min(|old_entries| + 1, MaxLogs)
              && l'.container.value[0] == Render(data, time)
              && l'.container.value[1..] == old_entries[..|l'.container.value| - 1]
              && l'.storage == l'.container
  {
    if l.container.None? {
      return l;
    }
    var all := [Render(data, time)] + l.container.value;
    var entries := all;
    while |entries| > MaxLogs
      invariant MaxLogs <= |entries| <= |all| || entries == all
      invariant entries == all[..|entries|]
      decreases |entries|
    {
      entries := entries[..|entries| - 1];
    }
    l' := SaveToStorage(l.(container := Some(entries)));
  }

  /** Screen and storage both hold at most `MaxLogs` entries. */
  predicate Bounded(l: Logger) {
    && (l.container.Some? ==> |l.container.value| <= MaxLogs)
    && (l.storage.Some? ==> |l.storage.value| <= MaxLogs)
  }

  /** Reloading right after saving restores the screen, once it holds no more
      than `MaxLogs` entries (which `addLog` guarantees). */
  lemma LoadAfterSave(l: Logger)
    requires l.container.Some? && |l.container.value| <= MaxLogs
    ensures LoadFromStorage(SaveToStorage(l)).container == l.container
  {
  }

  /** After clearing, reloading finds nothing and leaves the screen empty. */
  lemma LoadAfterClear(l: Logger)
    ensures LoadFromStorage(ClearLogs(l)) == ClearLogs(l)
  {
  }

  /** Clearing and saving keep the bound. */
  lemma BoundedPreserved(l: Logger)
    requires Bounded(l)
    ensures Bounded(SaveToStorage(l)) && Bounded(LoadFromStorage(l)) && Bounded(ClearLogs(l))
  {
  }
}
