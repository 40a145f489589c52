/**
 * The outbound webhook dispatcher of unpackerr (pkg/unpackerr/webhook.go):
 * hook configuration normalisation, the event and exclusion filters, the
 * choice of hooks an event is sent to, the payload shaping, the HTTP status
 * decision and the per-hook delivery counters.
 *
 * Network I/O, templates, logging and goroutines are outside the model: the
 * outcome of an HTTP exchange and of template rendering are parameters.
 */
module Webhook {
  import opened Wrappers
  import opened Bytes
  import opened Extract

  /** Longest nickname kept (the Discord nickname limit). */
  const MaxNickname: nat := 80

  const DefaultContentType: Bytes := FromString("application/json")

  const NicknamePrefix: Bytes := FromString("WebhookURL")

  /** What logEvents prints for the match-everything filter. */
  const AllEvents: Bytes := FromString("all")

  /** What logEvents puts between two event names. */
  const EventSeparator: Bytes := FromString("; ")

  /** net/http's StatusOK and StatusNoContent: the accepted reply range. */
  const StatusOK: int := 200
  const StatusNoContent: int := 204

  // =======================================================================
  // Matching a hook against an event
  // =======================================================================

  /** The scan HasEvent's loop performs, from index k onwards. */
  function ScanEvents(events: seq<ExtractStatus>, k: nat, e: ExtractStatus): (r: bool)
    requires k <= |events|
    ensures r <==> exists j :: k <= j < |events| && ((events[j] == WAITING && |events| == 1) || events[j] == e)
    decreases |events| - k
  {
    if k == |events| then false
    else if (events[k] == WAITING && |events| == 1) || events[k] == e then true
    else ScanEvents(events, k + 1, e)
  }

  /**
   * WebhookConfig.HasEvent: the status is in the filter, or the filter is
   * exactly [WAITING], which stands for every status. An empty filter
   * matches nothing.
   */
  function HasEvent(events: seq<ExtractStatus>, e: ExtractStatus): (r: bool)
    ensures r <==> e in events || events == [WAITING]
    ensures events == [] ==> !r
  {
    var r := ScanEvents(events, 0, e);
    assert events == [WAITING] ==> events[0] == WAITING;
    assert r && e !in events ==> events == [events[0]];
    r
  }

  /** The scan Excluded's loop performs, from index k onwards. */
  function ScanExclude(exclude: seq<Bytes>, k: nat, app: Bytes): (r: bool)
    requires k <= |exclude|
    ensures r <==> exists j :: k <= j < |exclude| && EqualFold(exclude[j], app)
    decreases |exclude| - k
  {
    if k == |exclude| then false
    else if EqualFold(exclude[k], app) then true
    else ScanExclude(exclude, k + 1, app)
  }

  /**
   * WebhookConfig.Excluded: some entry of the exclusion list names the
   * application, ignoring case.
   */
  function Excluded(exclude: seq<Bytes>, app: Bytes): (r: bool)
    ensures r <==> exists j :: 0 <= j < |exclude| && Lower(exclude[j]) == Lower(app)
    ensures exclude == [] ==> !r
  {
    ScanExclude(exclude, 0, app)
  }

  // =======================================================================
  // logEvents: the event filter as text
  // =======================================================================

  /** One turn of logEvents' loop: a separator unless nothing was written yet, then the name. */
  function AppendEvent(s: Bytes, name: Bytes): Bytes
  {
    (if |s| > 0 then s + EventSeparator else s) + name
  }

  /** What logEvents' loop has built after visiting the given events. */
  function Accumulate(events: seq<ExtractStatus>, name: ExtractStatus -> Bytes): Bytes
  {
    if events == [] then []
    else AppendEvent(Accumulate(events[..|events| - 1], name), name(events[|events| - 1]))
  }

  /** What logEvents returns; `name` is ExtractStatus.String. */
  function EventsText(events: seq<ExtractStatus>, name: ExtractStatus -> Bytes): Bytes
  {
    if |events| == 1 && events[0] == WAITING then AllEvents else Accumulate(events, name)
  }

  /** The names of the events, in order. */
  function Names(events: seq<ExtractStatus>, name: ExtractStatus -> Bytes): (r: seq<Bytes>)
    ensures |r| == |events|
    ensures forall k :: 0 <= k < |events| ==> r[k] == name(events[k])
  {
    if events == [] then [] else Names(events[..|events| - 1], name) + [name(events[|events| - 1])]
  }

  /** The strings joined with a separator between each neighbouring pair. */
  function Join(parts: seq<Bytes>, sep: Bytes): Bytes
  {
    if parts == [] then []
    else if |parts| == 1 then parts[0]
    else Join(parts[..|parts| - 1], sep) + sep + parts[|parts| - 1]
  }

  method LogEvents(events: seq<ExtractStatus>, name: ExtractStatus -> Bytes) returns (s: Bytes)
    ensures s == EventsText(events, name)
  {
    if |events| == 1 && events[0] == WAITING {
      return AllEvents;
    }
    s := [];
    var k := 0;
    while k < |events|
      invariant 0 <= k <= |events|
      invariant s == Accumulate(events[..k], name)
    {
      if |s| > 0 {
        s := s + EventSeparator;
      }
      s := s + name(events[k]);
      assert events[..k + 1][..k] == events[..k];
      k := k + 1;
    }
    assert events[..k] == events;
  }

  /**
   * When no status has an empty name, logEvents' loop is a plain join of
   * the names with "; ", and it is non-empty for a non-empty list.
   */
  lemma {:induction false} AccumulateIsJoin(events: seq<ExtractStatus>, name: ExtractStatus -> Bytes)
    requires forall e :: name(e) != []
    ensures Accumulate(events, name) == Join(Names(events, name), EventSeparator)
    ensures events != [] ==> |Accumulate(events, name)| > 0
  {
    if events != [] {
      var front := events[..|events| - 1];
      AccumulateIsJoin(front, name);
      var parts := Names(events, name);
      assert parts[..|parts| - 1] == Names(front, name);
    }
  }

  /**
   * logEvents gives "all" exactly for the filter [WAITING], the empty
   * string for an empty filter, and otherwise the names joined by "; " --
   * provided no status is named "all" or "".
   */
  lemma LogEventsText(events: seq<ExtractStatus>, name: ExtractStatus -> Bytes)
    requires forall e :: name(e) != [] && name(e) != AllEvents
    ensures EventsText(events, name) == AllEvents <==> events == [WAITING]
    ensures events == [] ==> EventsText(events, name) == []
    ensures events != [WAITING] ==> EventsText(events, name) == Join(Names(events, name), EventSeparator)
  {
    AccumulateIsJoin(events, name);
    assert events == [WAITING] ==> |events| == 1 && events[0] == WAITING;
    if |events| >= 2 {
      var front := events[..|events| - 1];
      AccumulateIsJoin(front, name);
      assert |Accumulate(events, name)| >= 1 + |EventSeparator| + 1;
    } else if |events| == 1 {
      assert Accumulate(events, name) == name(events[0]);
    }
  }

  // =======================================================================
  // send: the HTTP exchange and the status decision
  // =======================================================================

  /** What the network did with one POST: the part of send that is I/O. */
  datatype Exchange =
    | BadRequest                                 // http.NewRequestWithContext failed
    | NoResponse                                 // client.Do failed
    | Replied(StatusCode: int, reply: Bytes)     // a response, its full body read

  datatype SendError =
    | RequestError
    | PostError
    | InvalidStatus(StatusCode: int, reply: Bytes)   // ErrInvalidStatus

  datatype SendResult = Ok(reply: Bytes) | Err(error: SendError)

  /** The set of accepted reply codes, written out. */
  const AcceptedCodes: set<int> := {200, 201, 202, 203, 204}

  /** send's status test: a reply is accepted unless its code lies outside 200..204. */
  function Accepted(code: int): (r: bool)
    ensures r <==> code in AcceptedCodes
  {
    !(code < StatusOK || code > StatusNoContent)
  }

  /**
   * WebhookConfig.send once the exchange is known: the reply body is
   * returned exactly for an accepted status; otherwise an error and no bytes.
   */
  function SendOutcome(x: Exchange): (r: SendResult)
    ensures r.Ok? <==> x.Replied? && StatusOK <= x.StatusCode <= StatusNoContent
    ensures r.Ok? ==> r.reply == x.reply
    ensures x.Replied? && !r.Ok? ==> r.error == InvalidStatus(x.StatusCode, x.reply)
    ensures !x.Replied? ==> r.Err? && !r.error.InvalidStatus?
  {
    match x
    case BadRequest => Err(RequestError)
    case NoResponse => Err(PostError)
    case Replied(code, reply) =>
      if !Accepted(code) then Err(InvalidStatus(code, reply)) else Ok(reply)
  }

  // =======================================================================
  // Delivery counters
  // =======================================================================

  /** A hook's counters: POSTs attempted and POSTs that failed. */
  datatype Tally = Tally(posts: nat, fails: nat)

  /** The counter update of one Send. */
  function Record(t: Tally, failed: bool): (r: Tally)
    ensures r.posts == t.posts + 1
    ensures r.fails == if failed then t.fails + 1 else t.fails
    ensures t.fails <= t.posts ==> r.fails <= r.posts
  {
    Tally(t.posts + 1, if failed then t.fails + 1 else t.fails)
  }

  /** The counters after a run of Sends, given which of them failed, in order. */
  function RecordAll(t: Tally, failed: seq<bool>): Tally
    decreases |failed|
  {
    if failed == [] then t else RecordAll(Record(t, failed[0]), failed[1..])
  }

  /** After N sends of which F failed, the counters have grown by exactly (N, F). */
  lemma {:induction false} RecordAllCounts(t: Tally, failed: seq<bool>)
    ensures RecordAll(t, failed) == Tally(t.posts + |failed|, t.fails + multiset(failed)[true])
    decreases |failed|
  {
    if failed != [] {
      RecordAllCounts(Record(t, failed[0]), failed[1..]);
      assert failed == [failed[0]] + failed[1..];
      assert multiset(failed) == multiset([failed[0]]) + multiset(failed[1..]);
    }
  }

  /** The counters never show more failures than posts. */
  lemma {:induction false} RecordAllKeepsBound(t: Tally, failed: seq<bool>)
    requires t.fails <= t.posts
    ensures RecordAll(t, failed).fails <= RecordAll(t, failed).posts
    decreases |failed|
  {
    if failed != [] {
      RecordAllKeepsBound(Record(t, failed[0]), failed[1..]);
    }
  }

  /** The counters do not depend on the order in which the sends happened. */
  lemma RecordAllOrderFree(t: Tally, xs: seq<bool>, ys: seq<bool>)
    requires multiset(xs) == multiset(ys)
    ensures RecordAll(t, xs) == RecordAll(t, ys)
  {
    RecordAllCounts(t, xs);
    RecordAllCounts(t, ys);
    assert |xs| == |multiset(xs)| == |multiset(ys)| == |ys|;
  }

  // =======================================================================
  // validateWebhook: normalising one hook's configuration
  // =======================================================================

  /** The HTTP client a hook is given once: its timeout and TLS policy. */
  datatype HttpClient = HttpClient(Timeout: int, InsecureSkipVerify: bool)

  /** The configuration fields of one hook, as a value. */
  datatype HookSettings = HookSettings(
    Name: Bytes,
    URL: Bytes,
    CType: Bytes,
    TmplPath: Bytes,
    Timeout: int,
    IgnoreSSL: bool,
    Silent: bool,
    Events: seq<ExtractStatus>,
    Exclude: seq<Bytes>,
    nickname: Bytes,
    client: Option<HttpClient>)

  /**
   * The nickname of the unnamed hook at index i: "WebhookURL" followed by
   * digits, without a leading zero, that read back as i.
   */
  function GeneratedNickname(i: nat): (r: Bytes)
    ensures |r| > |NicknamePrefix|
    ensures r[..|NicknamePrefix|] == NicknamePrefix
    ensures forall k :: |NicknamePrefix| <= k < |r| ==> IsDigit(r[k])
    ensures ParseDecimal(r[|NicknamePrefix|..]) == i
    ensures |r| > |NicknamePrefix| + 1 ==> r[|NicknamePrefix|] != '0' as int as byte
  {
    var r := NicknamePrefix + Decimal(i);
    assert r[|NicknamePrefix|..] == Decimal(i);
    DecimalRoundTrip(i);
    r
  }

  /** Two unnamed hooks never get the same generated nickname. */
  lemma GeneratedNicknamesDistinct(i: nat, j: nat)
    requires i != j
    ensures GeneratedNickname(i) != GeneratedNickname(j)
  {
    DecimalInjective(i, j);
  }

  /** The nickname before it is cut: the hook's name, or a generated one. */
  function NicknameSource(name: Bytes, i: nat): Bytes
  {
    if name == [] then GeneratedNickname(i) else name
  }

  /**
   * validateWebhook's nickname for the hook at index i: a prefix of the
   * name (or of the generated nickname), cut to at most MaxNickname bytes,
   * never empty, and left whole when it already fits.
   */
  function Nickname(name: Bytes, i: nat): (r: Bytes)
    ensures r <= NicknameSource(name, i)
    ensures |r| == if |NicknameSource(name, i)| > MaxNickname then MaxNickname else |NicknameSource(name, i)|
    ensures r != []
    ensures name != [] && |name| <= MaxNickname ==> r == name
  {
    var source := NicknameSource(name, i);
    if |source| > MaxNickname then source[..MaxNickname] else source
  }

  /**
   * validateWebhook's event filter: an empty filter becomes [WAITING], which
   * matches every status; any other filter is kept.
   */
  function DefaultEvents(events: seq<ExtractStatus>): (r: seq<ExtractStatus>)
    ensures r != []
    ensures events != [] ==> r == events
    ensures events == [] ==> r == [WAITING]
    ensures events == [] ==> forall e :: HasEvent(r, e)
  {
    if |events| == 0 then [WAITING] else events
  }

  /**
   * What validateWebhook does to the hook at index i, given the global
   * default timeout.
   */
  function Normalise(s: HookSettings, i: nat, timeout: int): (r: HookSettings)
    ensures r.Name == if s.Name == [] then s.URL else s.Name
    ensures r.nickname == Nickname(s.Name, i)
    ensures r.CType != [] && (s.CType != [] ==> r.CType == s.CType)
    ensures s.CType == [] ==> r.CType == DefaultContentType
    ensures r.Timeout == if s.Timeout == 0 then timeout else s.Timeout
    ensures r.Events == DefaultEvents(s.Events)
    ensures r.client.Some? && (s.client.Some? ==> r.client == s.client)
    ensures s.client.None? ==> r.client.value == HttpClient(r.Timeout, s.IgnoreSSL)
    ensures r.URL == s.URL && r.TmplPath == s.TmplPath && r.IgnoreSSL == s.IgnoreSSL
    ensures r.Silent == s.Silent && r.Exclude == s.Exclude
  {
    var timeout' := if s.Timeout == 0 then timeout else s.Timeout;
    s.(
      Name := if s.Name == [] then s.URL else s.Name,
      nickname := Nickname(s.Name, i),
      CType := if s.CType == [] then DefaultContentType else s.CType,
      Timeout := timeout',
      Events := DefaultEvents(s.Events),
      client := if s.client.None? then Some(HttpClient(timeout', s.IgnoreSSL)) else s.client)
  }

  /**
   * Normalising twice changes nothing but, possibly, the nickname: a hook
   * that had no name was named after its URL by the first pass, so the
   * second pass takes its nickname from the URL instead of generating one.
   */
  lemma NormaliseTwice(s: HookSettings, i: nat, timeout: int)
    ensures Normalise(Normalise(s, i, timeout), i, timeout).(nickname := Normalise(s, i, timeout).nickname)
         == Normalise(s, i, timeout)
    ensures Normalise(Normalise(s, i, timeout), i, timeout).nickname == Normalise(s, i, timeout).nickname
        <==> s.Name != [] || s.URL == [] || Nickname(s.URL, i) == Nickname([], i)
  {
  }

  // =======================================================================
  // sendWebhooks: the payload
  // =======================================================================

  /** Build and runtime facts copied into every payload; opaque here. */
  datatype Metadata = Metadata(Go: Bytes, OS: Bytes, Arch: Bytes, Version: Bytes, Revision: Bytes, Branch: Bytes, Started: int)

  /** The extraction block of a payload. */
  datatype XtractPayload = XtractPayload(
    Archives: seq<Bytes>,
    Files: seq<Bytes>,
    Start: int,
    Output: Bytes,
    Bytes: int,
    Elapsed: int,
    Error: Bytes)   // "" when the extraction had no error

  datatype WebhookPayload = WebhookPayload(
    Path: Bytes,
    App: Bytes,
    IDs: map<Bytes, Bytes>,
    Time: int,
    Data: Option<XtractPayload>,
    Event: ExtractStatus,
    Meta: Metadata)

  /** An internal state change of the folder watcher: nothing is sent for it. */
  predicate Skip(i: Extract)
  {
    i.Status == IMPORTED && i.App == FolderString
  }

  /** The payload sendWebhooks builds, or None when it returns early. */
  function BuildPayload(i: Extract, meta: Metadata): (r: Option<WebhookPayload>)
    ensures r.None? <==> Skip(i)
    ensures r.Some? ==>
      (r.value.Path == i.Path && r.value.App == i.App && r.value.IDs == i.IDs
       && r.value.Time == i.Updated && r.value.Event == i.Status && r.value.Meta == meta)
    ensures r.Some? ==> (r.value.Data.Some? <==> i.Status <= EXTRACTED && i.Resp.Some?)
    ensures r.Some? && r.value.Data.Some? ==>
      var resp, data := i.Resp.value, r.value.Data.value;
      data.Archives == resp.Extras + resp.Archives && data.Files == resp.NewFiles
      && data.Start == resp.Started && data.Output == resp.Output && data.Bytes == resp.Size
      && data.Elapsed == resp.Elapsed
      && data.Error == (if resp.Error.Some? then resp.Error.value else [])
  {
    if Skip(i) then None
    else
      var data :=
        if i.Status <= EXTRACTED && i.Resp.Some? then
          var resp := i.Resp.value;
          var x := XtractPayload(resp.Extras + resp.Archives, resp.NewFiles, resp.Started,
                                 resp.Output, resp.Size, resp.Elapsed, []);
          Some(if resp.Error.Some? then x.(Error := resp.Error.value) else x)
        else None;
      Some(WebhookPayload(i.Path, i.App, i.IDs, i.Updated, data, i.Status, meta))
  }

  // =======================================================================
  // A hook: configuration plus counters, updated in place
  // =======================================================================

  class WebhookConfig {
    var Name: Bytes
    var URL: Bytes
    var CType: Bytes
    var TmplPath: Bytes
    var Timeout: int
    var IgnoreSSL: bool
    var Silent: bool
    var Events: seq<ExtractStatus>
    var Exclude: seq<Bytes>
    var nickname: Bytes
    var client: Option<HttpClient>
    var fails: nat
    var posts: nat

    ghost predicate Valid()
      reads this
    {
      fails <= posts
    }

    function Config(): HookSettings
      reads this
    {
      HookSettings(Name, URL, CType, TmplPath, Timeout, IgnoreSSL, Silent, Events, Exclude, nickname, client)
    }

    function Counters(): Tally
      reads this
    {
      Tally(posts, fails)
    }

    /** A hook as read from the configuration file: no nickname, no client, no traffic. */
    constructor (name: Bytes, url: Bytes, ctype: Bytes, tmplPath: Bytes, timeout: int,
                 ignoreSSL: bool, silent: bool, events: seq<ExtractStatus>, exclude: seq<Bytes>)
      ensures Valid()
      ensures Config() == HookSettings(name, url, ctype, tmplPath, timeout, ignoreSSL, silent, events, exclude, [], None)
      ensures Counters() == Tally(0, 0)
    {
      Name, URL, CType, TmplPath, Timeout := name, url, ctype, tmplPath, timeout;
      IgnoreSSL, Silent, Events, Exclude := ignoreSSL, silent, events, exclude;
      nickname, client := [], None;
      fails, posts := 0, 0;
    }

    /**
     * WebhookConfig.Send: one POST. Every call counts one post; a failed
     * one also counts one failure.
     */
    method Send(x: Exchange) returns (r: SendResult)
      requires Valid()
      modifies this`fails, this`posts
      ensures Valid()
      ensures r == SendOutcome(x)
      ensures Counters() == Record(old(Counters()), r.Err?)
      ensures Config() == old(Config())
    {
      r := SendOutcome(x);
      if r.Err? {
        fails := fails + 1;
      }
      posts := posts + 1;
    }

    /** validateWebhook's naming step for the hook at index i. */
    method SetNickname(i: nat)
      modifies this`Name, this`nickname
      ensures Name == if old(Name) == [] then old(URL) else old(Name)
      ensures nickname == Nickname(old(Name), i)
    {
      nickname := Name;
      if Name == [] {
        nickname := NicknamePrefix + Decimal(i);
        Name := URL;
      }
      if |nickname| > MaxNickname {
        nickname := nickname[..MaxNickname];
      }
    }

    /** validateWebhook's defaulting step, given the global default timeout. */
    method SetDefaults(timeout: int)
      modifies this`CType, this`Timeout, this`Events, this`client
      ensures CType == if old(CType) == [] then DefaultContentType else old(CType)
      ensures Timeout == if old(Timeout) == 0 then timeout else old(Timeout)
      ensures Events == DefaultEvents(old(Events))
      ensures client == if old(client).None? then Some(HttpClient(Timeout, IgnoreSSL)) else old(client)
    {
      if CType == [] {
        CType := DefaultContentType;
      }
      if Timeout == 0 {
        Timeout := timeout;
      }
      if |Events| == 0 {
        Events := [WAITING];
      }
      if client.None? {
        client := Some(HttpClient(Timeout, IgnoreSSL));
      }
    }

    /** The body of validateWebhook's loop, for the hook at index i. */
    method Validate(i: nat, timeout: int)
      modifies this`Name, this`nickname, this`CType, this`Timeout, this`Events, this`client
      ensures Config() == Normalise(old(Config()), i, timeout)
    {
      SetNickname(i);
      SetDefaults(timeout);
    }

    /** WebhookConfig.Counts: (posts, fails). */
    method Counts() returns (total: nat, failed: nat)
      requires Valid()
      ensures Tally(total, failed) == Counters()
      ensures failed <= total
    {
      return posts, fails;
    }
  }

  /** The hook fires for the status of an event from the application. */
  predicate Fires(h: WebhookConfig, e: ExtractStatus, app: Bytes)
    reads h
  {
    HasEvent(h.Events, e) && !Excluded(h.Exclude, app)
  }

  /** The hooks that fire, in the order of the list. */
  function Selected(hooks: seq<WebhookConfig>, e: ExtractStatus, app: Bytes): seq<WebhookConfig>
    reads hooks
  {
    if hooks == [] then []
    else
      var last := hooks[|hooks| - 1];
      Selected(hooks[..|hooks| - 1], e, app) + (if Fires(last, e, app) then [last] else [])
  }

  /** A hook is selected exactly when it is listed and fires. */
  lemma {:induction false} SelectedMember(hooks: seq<WebhookConfig>, e: ExtractStatus, app: Bytes, h: WebhookConfig)
    ensures h in Selected(hooks, e, app) <==> h in hooks && Fires(h, e, app)
  {
    if hooks != [] {
      var front := hooks[..|hooks| - 1];
      SelectedMember(front, e, app, h);
      assert hooks == front + [hooks[|hooks| - 1]];
    }
  }

  /**
   * Selection keeps the list order: selecting from two lists one after the
   * other is selecting from their concatenation.
   */
  lemma {:induction false} SelectedAppend(a: seq<WebhookConfig>, b: seq<WebhookConfig>, e: ExtractStatus, app: Bytes)
    ensures Selected(a + b, e, app) == Selected(a, e, app) + Selected(b, e, app)
  {
    if b == [] {
      assert a + b == a;
    } else {
      var front := b[..|b| - 1];
      SelectedAppend(a, front, e, app);
      assert (a + b)[..|a + b| - 1] == a + front;
    }
  }

  /** The sum of the counters of all hooks. */
  function SumCounters(hooks: seq<WebhookConfig>): Tally
    reads hooks
  {
    if hooks == [] then Tally(0, 0)
    else
      var rest, last := SumCounters(hooks[..|hooks| - 1]), hooks[|hooks| - 1];
      Tally(rest.posts + last.posts, rest.fails + last.fails)
  }

  /** The outcome of one delivery, as sendWebhookWithLog logs it. */
  datatype Delivery = TemplateFailed | SendFailed(error: SendError) | Posted(reply: Bytes)

  // =======================================================================
  // The dispatcher
  // =======================================================================

  class Unpackerr {
    var Webhook: seq<WebhookConfig>
    var Timeout: int

    constructor (hooks: seq<WebhookConfig>, timeout: int)
      ensures Webhook == hooks && Timeout == timeout
    {
      Webhook, Timeout := hooks, timeout;
    }

    /** Every hook is listed once. */
    ghost predicate Distinct()
      reads this
    {
      forall j, k :: 0 <= j < k < |Webhook| ==> Webhook[j] != Webhook[k]
    }

    ghost predicate HooksValid()
      reads this, Webhook
    {
      forall h :: h in Webhook ==> h.Valid()
    }

    /** validateWebhook: normalises every hook in place. */
    method ValidateWebhook()
      requires Distinct()
      modifies Webhook
      ensures forall k :: 0 <= k < |Webhook| ==> Webhook[k].Config() == Normalise(old(Webhook[k].Config()), k, Timeout)
      ensures forall k :: 0 <= k < |Webhook| ==> Webhook[k].Counters() == old(Webhook[k].Counters())
    {
      var i := 0;
      while i < |Webhook|
        invariant 0 <= i <= |Webhook|
        invariant forall k :: 0 <= k < i ==> Webhook[k].Config() == Normalise(old(Webhook[k].Config()), k, Timeout)
        invariant forall k :: i <= k < |Webhook| ==> Webhook[k].Config() == old(Webhook[k].Config())
        invariant forall k :: 0 <= k < |Webhook| ==> Webhook[k].Counters() == old(Webhook[k].Counters())
      {
        Webhook[i].Validate(i, Timeout);
        i := i + 1;
      }
    }

    /**
     * sendWebhooks: builds the payload and returns the hooks a delivery is
     * started for, in the order they are started.
     */
    method SendWebhooks(i: Extract, meta: Metadata) returns (payload: Option<WebhookPayload>, fired: seq<WebhookConfig>)
      ensures payload == BuildPayload(i, meta)
      ensures Skip(i) ==> fired == []
      ensures !Skip(i) ==> fired == Selected(Webhook, i.Status, i.App)
    {
      payload := BuildPayload(i, meta);
      fired := [];
      if payload.None? {
        return;
      }
      var k := 0;
      while k < |Webhook|
        invariant 0 <= k <= |Webhook|
        invariant fired == Selected(Webhook[..k], i.Status, i.App)
      {
        var hook := Webhook[k];
        assert Webhook[..k + 1][..k] == Webhook[..k];
        if HasEvent(hook.Events, i.Status) && !Excluded(hook.Exclude, i.App) {
          fired := fired + [hook];
        }
        k := k + 1;
      }
      assert Webhook[..k] == Webhook;
    }

    /**
     * sendWebhookWithLog: renders the payload and, when that worked, sends
     * it. A rendering failure never reaches Send and is not counted.
     */
    method SendWebhookWithLog(hook: WebhookConfig, rendered: bool, x: Exchange) returns (d: Delivery)
      requires hook.Valid()
      modifies hook`fails, hook`posts
      ensures hook.Valid()
      ensures !rendered ==> d == TemplateFailed && hook.Counters() == old(hook.Counters())
      ensures rendered ==> hook.Counters() == Record(old(hook.Counters()), SendOutcome(x).Err?)
      ensures rendered ==> d == match SendOutcome(x) case Ok(reply) => Posted(reply) case Err(e) => SendFailed(e)
    {
      if !rendered {
        return TemplateFailed;
      }
      var r := hook.Send(x);
      match r
      case Ok(reply) => d := Posted(reply);
      case Err(e) => d := SendFailed(e);
    }

    /** WebhookCounts: posts and failures summed over all hooks. */
    method WebhookCounts() returns (total: nat, fails: nat)
      requires HooksValid()
      ensures Tally(total, fails) == SumCounters(Webhook)
      ensures fails <= total
    {
      total, fails := 0, 0;
      var k := 0;
      while k < |Webhook|
        invariant 0 <= k <= |Webhook|
        invariant Tally(total, fails) == SumCounters(Webhook[..k])
        invariant fails <= total
      {
        assert Webhook[..k + 1][..k] == Webhook[..k];
        var t, f := Webhook[k].Counts();
        total, fails := total + t, fails + f;
        k := k + 1;
      }
      assert Webhook[..k] == Webhook;
    }
  }
}
