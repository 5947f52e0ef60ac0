/** The dashboard's `WebhookManager`: parsing and validating the webhook form
    before saving, filling the form from a loaded configuration, the
    select-all checkbox and the session drop-down. The DOM is a `Form` value;
    the API call is its request (on save) or its answer (on load). */
module WebhookForm {
  import opened Wrappers
  import Text
  import Seqs

  /** One `.webhook-event` checkbox. */
  datatype Checkbox = Checkbox(value: string, checked: bool)

  /** The form: session drop-down, URL textarea, retry checkbox, domain
      input, event checkboxes and the select-all checkbox. */
  datatype Form = Form(
    sessionId: string,
    urlsText: string,
    retry: bool,
    domainsText: string,
    events: seq<Checkbox>,
    selectAll: bool)

  /** The body posted to `/api/webhook/config`. */
  datatype DashboardConfig = DashboardConfig(
    sessionId: string,
    callbackUrls: seq<string>,
    retry: bool,
    domainWhitelist: seq<string>,
    events: seq<string>)

  /** What pressing "save" does: a warning toast, or the POST request. */
  datatype SaveAction = Warn(message: string) | Submit(path: string, body: DashboardConfig)

  /** The `data` of a successful load; absent fields are `None`. */
  datatype LoadedConfig = LoadedConfig(
    callbackUrls: Option<seq<string>>,
    retry: Option<bool>,
    domainWhitelist: Option<seq<string>>,
    events: Option<seq<string>>)

  datatype SessionSummary = SessionSummary(id: string, status: string)

  const ConfigPath := "/api/webhook/config"
  const NoSessionWarning := "Please select a session"
  const NoUrlWarning := "Please enter at least one callback URL"
  const NoEventWarning := "Please select at least one event"

  predicate NonEmpty(s: string) {
    |s| > 0
  }

  /** A list entry as the form produces it: trimmed, non-empty, free of the
      separator. */
  predicate Clean(s: string, sep: char) {
    Text.Trimmed(s) && |s| > 0 && sep !in s
  }

  /** Split on `sep`, trim every piece, drop the empty ones. */
  function ParseList(text: string, sep: char): (r: seq<string>)
    ensures forall i :: 0 <= i < |r| ==> Clean(r[i], sep)
  {
    var pieces := Text.Split(text, sep);
    var trimmed := Seqs.Map(Text.Trim, pieces);
    assert forall i :: 0 <= i < |trimmed| ==> Text.Trimmed(trimmed[i]) && sep !in trimmed[i] by {
      forall i | 0 <= i < |trimmed|
        ensures Text.Trimmed(trimmed[i]) && sep !in trimmed[i]
      {
        Text.TrimKeepsOut(pieces[i], sep);
      }
    }
    NonEmptyKeptClean(trimmed, sep);
    Seqs.Filter(NonEmpty, trimmed)
  }

  /** The non-empty ones among trimmed, separator-free pieces are clean. */
  lemma NonEmptyKeptClean(trimmed: seq<string>, sep: char)
    requires forall i :: 0 <= i < |trimmed| ==> Text.Trimmed(trimmed[i]) && sep !in trimmed[i]
    ensures forall i :: 0 <= i < |Seqs.Filter(NonEmpty, trimmed)| ==> Clean(Seqs.Filter(NonEmpty, trimmed)[i], sep)
  {
    var r := Seqs.Filter(NonEmpty, trimmed);
    forall i | 0 <= i < |r|
      ensures Clean(r[i], sep)
    {
      assert r[i] in trimmed;
    }
  }

  /** Callback URLs: one per line. */
  function ParseUrls(text: string): seq<string> {
    ParseList(text, '\n')
  }

  /** Domain whitelist: comma separated. */
  function ParseDomains(text: string): seq<string> {
    ParseList(text, ',')
  }

  /** Values of the checked boxes, in the order of the boxes. */
  function CheckedEvents(boxes: seq<Checkbox>): (r: seq<string>)
    ensures |r| <= |boxes|
    ensures forall i :: 0 <= i < |boxes| && boxes[i].checked ==> boxes[i].value in r
    ensures forall v :: v in r ==> Checkbox(v, true) in boxes
  {
    var checked := Seqs.Filter((b: Checkbox) => b.checked, boxes);
    var r := Seqs.Map((b: Checkbox) => b.value, checked);
    assert forall i :: 0 <= i < |r| ==> r[i] == checked[i].value && Checkbox(r[i], true) == checked[i];
    assert forall i :: 0 <= i < |boxes| && boxes[i].checked ==> boxes[i].value in r by {
      forall i | 0 <= i < |boxes| && boxes[i].checked
        ensures boxes[i].value in r
      {
        assert boxes[i] in checked;
        var j :| 0 <= j < |checked| && checked[j] == boxes[i];
        assert r[j] == boxes[i].value;
      }
    }
    r
  }

  /** `saveConfig`: the session, then the URLs, then the events are checked,
      and the first failure decides the warning; only a form that passes all
      three is posted. */
  function SaveConfig(f: Form): (a: SaveAction)
    ensures f.sessionId == "" ==> a == Warn(NoSessionWarning)
    ensures f.sessionId != "" && ParseUrls(f.urlsText) == [] ==> a == Warn(NoUrlWarning)
    ensures f.sessionId != "" && ParseUrls(f.urlsText) != [] && CheckedEvents(f.events) == [] ==>
              a == Warn(NoEventWarning)
    ensures a.Submit? <==> f.sessionId != "" && ParseUrls(f.urlsText) != [] && CheckedEvents(f.events) != []
    ensures a.Submit? ==>
              && a.path == ConfigPath
              && a.body.sessionId == f.sessionId
              && a.body.retry == f.retry
              && a.body.callbackUrls == ParseUrls(f.urlsText)
              && a.body.domainWhitelist == ParseDomains(f.domainsText)
              && a.body.events == CheckedEvents(f.events)
              && |a.body.callbackUrls| > 0
              && (forall i :: 0 <= i < |a.body.callbackUrls| ==> Clean(a.body.callbackUrls[i], '\n'))
              && (forall i :: 0 <= i < |a.body.domainWhitelist| ==> Clean(a.body.domainWhitelist[i], ','))
              && |a.body.events| > 0
  {
    var urls := ParseUrls(f.urlsText);
    var domains := ParseDomains(f.domainsText);
    var events := CheckedEvents(f.events);
    if f.sessionId == "" then Warn(NoSessionWarning)
    else if |urls| == 0 then Warn(NoUrlWarning)
    else if |events| == 0 then Warn(NoEventWarning)
    else Submit(ConfigPath, DashboardConfig(f.sessionId, urls, f.retry, domains, events))
  }

  /** True iff every event checkbox is checked (so also when there are none). */
  predicate AllChecked(boxes: seq<Checkbox>) {
    Seqs.Every((b: Checkbox) => b.checked, boxes)
  }

  /** The select-all handler: every box takes the state of select-all. */
  function ToggleAll(boxes: seq<Checkbox>, checked: bool): (r: seq<Checkbox>)
    ensures |r| == |boxes|
    ensures forall i :: 0 <= i < |r| ==> r[i] == Checkbox(boxes[i].value, checked)
  {
    Seqs.Map((b: Checkbox) => b.(checked := checked), boxes)
  }

  /** The handler of one event checkbox: it changes that box, then select-all
      follows whether every box is checked. */
  function ToggleEvent(f: Form, i: nat, checked: bool): (f': Form)
    requires i < |f.events|
    ensures |f'.events| == |f.events| && f'.events[i] == Checkbox(f.events[i].value, checked)
    ensures forall j :: 0 <= j < |f.events| && j != i ==> f'.events[j] == f.events[j]
    ensures f'.selectAll <==> forall j :: 0 <= j < |f'.events| ==> f'.events[j].checked
  {
    var boxes := f.events[i := Checkbox(f.events[i].value, checked)];
    f.(events := boxes, selectAll := AllChecked(boxes))
  }

  /** After select-all is set, it agrees with the boxes, except that unchecking
      it with no boxes at all leaves "every box checked" true. */
  lemma ToggleAllThenAllChecked(boxes: seq<Checkbox>, checked: bool)
    ensures AllChecked(ToggleAll(boxes, checked)) <==> checked || |boxes| == 0
  {
    var r := ToggleAll(boxes, checked);
    if !checked && |boxes| > 0 {
      assert !r[0].checked;
    }
  }

  /** The form with no session selected. */
  function ClearedForm(f: Form): Form {
    f.(urlsText := "", retry := true, domainsText := "*",
       events := ToggleAll(f.events, false))
  }

  /** `loadConfig`. `response` is `None` when the call failed or answered
      without `success` and `data`; then the form is left as it was. */
  function LoadConfig(f: Form, response: Option<LoadedConfig>): (f': Form)
    ensures f'.sessionId == f.sessionId
    ensures |f'.events| == |f.events|
    ensures forall i :: 0 <= i < |f.events| ==> f'.events[i].value == f.events[i].value
    ensures f.sessionId == "" ==>
              && f'.urlsText == "" && f'.retry && f'.domainsText == "*"
              && (forall i :: 0 <= i < |f'.events| ==> !f'.events[i].checked)
              && f'.selectAll == f.selectAll
    ensures f.sessionId != "" && response.None? ==> f' == f
    ensures f.sessionId != "" && response.Some? ==>
              var cfg := response.value;
              && (f'.retry <==> cfg.retry != Some(false))
              && (cfg.callbackUrls.None? ==> f'.urlsText == f.urlsText)
              && (cfg.domainWhitelist.None? ==> f'.domainsText == f.domainsText)
              && (cfg.events.None? ==> f'.events == f.events && f'.selectAll == f.selectAll)
              && (cfg.events.Some? ==>
                    && (forall i :: 0 <= i < |f'.events| ==> (f'.events[i].checked <==> f.events[i].value in cfg.events.value))
                    && (f'.selectAll <==> forall i :: 0 <= i < |f'.events| ==> f'.events[i].checked))
  {
    if f.sessionId == "" then ClearedForm(f)
    else match response
      case None => f
      case Some(cfg) =>
        var urlsText := if cfg.callbackUrls.Some? then Text.Join(cfg.callbackUrls.value, "\n") else f.urlsText;
        var domainsText := if cfg.domainWhitelist.Some? then Text.Join(cfg.domainWhitelist.value, ", ") else f.domainsText;
        var f1 := f.(urlsText := urlsText, retry := cfg.retry != Some(false), domainsText := domainsText);
        match cfg.events
        case None => f1
        case Some(es) =>
          var boxes := Seqs.Map((b: Checkbox) => b.(checked := b.value in es), f.events);
          f1.(events := boxes, selectAll := AllChecked(boxes))
  }

  /** `pieces` with `pad` put in front of every piece but the first. */
  function PadTail(pieces: seq<string>, pad: string): (r: seq<string>)
    ensures |r| == |pieces|
    ensures |r| > 0 ==> r[0] == pieces[0]
    ensures forall i :: 1 <= i < |r| ==> r[i] == pad + pieces[i]
  {
    if |pieces| == 0 then [] else [pieces[0]] + Seqs.Map((p: string) => pad + p, pieces[1..])
  }

  lemma {:induction false} JoinPadded(xs: seq<string>, sep: char, pad: string)
    ensures Text.Join(xs, [sep] + pad) == Text.Join(PadTail(xs, pad), [sep])
    decreases |xs|
  {
    if |xs| > 1 {
      var tail := PadTail(xs[1..], pad);
      JoinPadded(xs[1..], sep, pad);
      assert PadTail(xs, pad) == [xs[0]] + ([pad + tail[0]] + tail[1..]);
      JoinPrefixFirst(tail, pad, [sep]);
    }
  }

  /** Prefixing the first piece prefixes the joined string. */
  lemma JoinPrefixFirst(ys: seq<string>, p: string, sep: string)
    requires |ys| >= 1
    ensures Text.Join([p + ys[0]] + ys[1..], sep) == p + Text.Join(ys, sep)
  {
    var zs := [p + ys[0]] + ys[1..];
    assert zs[1..] == ys[1..];
  }

  /** Trimming every piece of a padded list of clean entries gives the
      entries back. */
  lemma TrimPadded(xs: seq<string>, sep: char, pad: string)
    requires Text.AllSpace(pad)
    requires forall i :: 0 <= i < |xs| ==> Clean(xs[i], sep)
    ensures Seqs.Map(Text.Trim, PadTail(xs, pad)) == xs
  {
    var padded := PadTail(xs, pad);
    var trimmed := Seqs.Map(Text.Trim, padded);
    forall i | 0 <= i < |xs|
      ensures trimmed[i] == xs[i]
    {
      TrimPiece(xs[i], sep, pad, i == 0, padded[i]);
    }
  }

  /** One piece of a padded list: the entry itself, or the entry after the
      padding. */
  lemma TrimPiece(x: string, sep: char, pad: string, first: bool, piece: string)
    requires Text.AllSpace(pad) && Clean(x, sep)
    requires piece == if first then x else pad + x
    ensures Text.Trim(piece) == x
  {
    if first {
      Text.TrimOfTrimmed(x);
    } else {
      assert pad + x + [] == piece;
      Text.TrimDropsPadding(pad, x, []);
    }
  }

  /** Joining clean entries with `sep` followed by whitespace and parsing the
      text again gives the entries back. */
  lemma ParseJoinRoundTrip(xs: seq<string>, sep: char, pad: string, joiner: string)
    requires Text.AllSpace(pad) && sep !in pad && joiner == [sep] + pad
    requires forall i :: 0 <= i < |xs| ==> Clean(xs[i], sep)
    ensures ParseList(Text.Join(xs, joiner), sep) == xs
  {
    SplitPadded(xs, sep, pad);
    TrimPadded(xs, sep, pad);
    Seqs.FilterKeepsAll(NonEmpty, xs);
  }

  /** Splitting entries joined by `sep` and padding gives the padded pieces. */
  lemma SplitPadded(xs: seq<string>, sep: char, pad: string)
    requires sep !in pad
    requires forall i :: 0 <= i < |xs| ==> sep !in xs[i]
    ensures Text.Split(Text.Join(xs, [sep] + pad), sep) == if |xs| == 0 then [""] else PadTail(xs, pad)
  {
    if |xs| > 0 {
      var padded := PadTail(xs, pad);
      JoinPadded(xs, sep, pad);
      assert forall i :: 0 <= i < |padded| ==> sep !in padded[i];
      Text.SplitJoin(padded, sep);
    }
  }

  /** Loaded URLs, shown one per line, parse back to the same list. */
  lemma UrlsRoundTrip(urls: seq<string>)
    requires forall i :: 0 <= i < |urls| ==> Clean(urls[i], '\n')
    ensures ParseUrls(Text.Join(urls, "\n")) == urls
  {
    NewlineJoiner();
    ParseJoinRoundTrip(urls, '\n', "", "\n");
  }

  /** The URL joiner is the separator alone. */
  lemma NewlineJoiner()
    ensures Text.AllSpace("") && '\n' !in "" && "\n" == ['\n'] + ""
  {
    assert |""| == 0;
  }

  /** Loaded domains, shown joined by ", ", parse back to the same list. */
  lemma DomainsRoundTrip(domains: seq<string>)
    requires forall i :: 0 <= i < |domains| ==> Clean(domains[i], ',')
    ensures ParseDomains(Text.Join(domains, ", ")) == domains
  {
    CommaJoiner();
    ParseJoinRoundTrip(domains, ',', " ", ", ");
  }

  /** The domain joiner is the separator followed by whitespace. */
  lemma CommaJoiner()
    ensures Text.AllSpace(" ") && ',' !in " " && ", " == [','] + " "
  {
    assert Text.IsSpace(' ');
  }

  /** Saving right after loading a clean configuration posts that
      configuration back: the same URLs and domains, the retry flag read as
      "not exactly false", and the checkbox values it lists. */
  lemma LoadThenSave(f: Form, cfg: LoadedConfig)
    requires f.sessionId != ""
    requires cfg.callbackUrls.Some? && cfg.domainWhitelist.Some? && cfg.events.Some?
    requires |cfg.callbackUrls.value| > 0
    requires forall i :: 0 <= i < |cfg.callbackUrls.value| ==> Clean(cfg.callbackUrls.value[i], '\n')
    requires forall i :: 0 <= i < |cfg.domainWhitelist.value| ==> Clean(cfg.domainWhitelist.value[i], ',')
    requires exists i :: 0 <= i < |f.events| && f.events[i].value in cfg.events.value
    ensures var a := SaveConfig(LoadConfig(f, Some(cfg)));
            && a.Submit?
            && a.body.sessionId == f.sessionId
            && a.body.callbackUrls == cfg.callbackUrls.value
            && a.body.domainWhitelist == cfg.domainWhitelist.value
            && a.body.retry == (cfg.retry != Some(false))
            && (forall v :: v in a.body.events ==> v in cfg.events.value)
  {
    var f' := LoadConfig(f, Some(cfg));
    var urls := cfg.callbackUrls.value;
    var domains := cfg.domainWhitelist.value;
    assert ParseUrls(f'.urlsText) == urls by {
      assert f'.urlsText == Text.Join(urls, "\n");
      UrlsRoundTrip(urls);
    }
    assert ParseDomains(f'.domainsText) == domains by {
      assert f'.domainsText == Text.Join(domains, ", ");
      DomainsRoundTrip(domains);
    }
    LoadedEventsListed(f, cfg);
  }

  /** The events posted after a load are non-empty and all listed by the
      loaded configuration. */
  lemma LoadedEventsListed(f: Form, cfg: LoadedConfig)
    requires f.sessionId != "" && cfg.events.Some?
    requires exists i :: 0 <= i < |f.events| && f.events[i].value in cfg.events.value
    ensures var events := CheckedEvents(LoadConfig(f, Some(cfg)).events);
            && events != []
            && forall v :: v in events ==> v in cfg.events.value
  {
    var boxes := LoadConfig(f, Some(cfg)).events;
    var i :| 0 <= i < |f.events| && f.events[i].value in cfg.events.value;
    assert boxes[i].checked && boxes[i].value in cfg.events.value;
    assert forall j :: 0 <= j < |boxes| && boxes[j].checked ==> boxes[j].value in cfg.events.value;
    CheckedAmong(boxes, cfg.events.value, i);
  }

  /** When every checked box holds a listed value, so does every posted event;
      a checked box makes the posted list non-empty. */
  lemma CheckedAmong(boxes: seq<Checkbox>, listed: seq<string>, i: nat)
    requires i < |boxes| && boxes[i].checked
    requires forall j :: 0 <= j < |boxes| && boxes[j].checked ==> boxes[j].value in listed
    ensures CheckedEvents(boxes) != []
    ensures forall v :: v in CheckedEvents(boxes) ==> v in listed
  {
    var events := CheckedEvents(boxes);
    assert boxes[i].value in events;
    forall v | v in events
      ensures v in listed
    {
      assert Checkbox(v, true) in boxes;
      var j :| 0 <= j < |boxes| && boxes[j] == Checkbox(v, true);
    }
  }

  predicate IsConnected(s: SessionSummary) {
    s.status == "connected"
  }

  /** The sessions `populateSessions` offers. */
  function ConnectedSessions(sessions: seq<SessionSummary>): seq<SessionSummary> {
    Seqs.Filter(IsConnected, sessions)
  }

  /** The option values of the session drop-down: the empty placeholder, then
      the id of every connected session. */
  function SessionOptions(sessions: seq<SessionSummary>): (r: seq<string>)
    ensures |r| >= 1 && r[0] == ""
    ensures |r| - 1 <= |sessions|
    ensures forall i :: 0 <= i < |sessions| && sessions[i].status == "connected" ==> sessions[i].id in r[1..]
    ensures forall i :: 1 <= i < |r| ==> SessionSummary(r[i], "connected") in sessions
  {
    var connected := ConnectedSessions(sessions);
    var ids := Seqs.Map((s: SessionSummary) => s.id, connected);
    assert forall i :: 0 <= i < |ids| ==> SessionSummary(ids[i], "connected") == connected[i];
    assert forall i :: 0 <= i < |sessions| && sessions[i].status == "connected" ==> sessions[i].id in ids by {
      forall i | 0 <= i < |sessions| && sessions[i].status == "connected"
        ensures sessions[i].id in ids
      {
        assert IsConnected(sessions[i]);
        assert sessions[i] in connected;
        var j :| 0 <= j < |connected| && connected[j] == sessions[i];
        assert ids[j] == sessions[i].id;
      }
    }
    assert ([""] + ids)[1..] == ids;
    [""] + ids
  }

  /** The drop-down keeps the sessions' order: it is computed piecewise. */
  lemma {:induction false} ConnectedKeepsOrder(a: seq<SessionSummary>, b: seq<SessionSummary>)
    ensures ConnectedSessions(a + b) == ConnectedSessions(a) + ConnectedSessions(b)
  {
    Seqs.FilterAppend(IsConnected, a, b);
  }
}
