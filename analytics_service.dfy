/**
 * src/services/analyticsService.js: the category mapping of `trackSearch`, the
 * `ProductStreamSSE` client of the product stream, and the batching
 * `AnalyticsTracker`.
 */
module AnalyticsService {
  import opened Wrappers
  import opened JsonValues
  import opened Strings
  import opened EventStream
  import opened StreamClient

  // ---------------------------------------------------------------- trackSearch

  /** `categoryMapping`: colloquial category names onto the catalogue's own. */
  const CategoryMapping: map<string, string> := map[
    "의류" := "패션잡화", "옷" := "패션잡화", "패션" := "패션잡화",
    "전자기기" := "전자제품", "가전" := "전자제품",
    "아기용품" := "유아용품", "베이비" := "유아용품",
    "운동" := "스포츠용품", "스포츠" := "스포츠용품",
    "음식" := "식품", "먹거리" := "식품"]

  /** `category === 'all' ? 'all' : (categoryMapping[category] || category)`. */
  function MapCategory(category: string): string {
    if category == "all" then "all"
    else if category in CategoryMapping then CategoryMapping[category]
    else category
  }

  /**
   * `all` and every category outside the table pass through; each table entry goes to
   * its catalogue name; and a catalogue name is never mapped again.
   */
  lemma MapCategoryFacts(category: string)
    ensures MapCategory(category) != category ==> category in CategoryMapping
    ensures category in CategoryMapping ==> MapCategory(category) == CategoryMapping[category]
    ensures MapCategory(category) in {"패션잡화", "전자제품", "유아용품", "스포츠용품", "식품"} || MapCategory(category) == category
    ensures MapCategory(MapCategory(category)) == MapCategory(category)
  {
  }

  /** `if (!userId) userId = currentUser?.id || 'anonymous'`; "" is a falsy id or no user. */
  function ResolveUserId(userId: string, currentUserId: string): (r: string)
    ensures r != ""
    ensures userId != "" ==> r == userId
    ensures userId == "" && currentUserId != "" ==> r == currentUserId
    ensures userId == "" && currentUserId == "" ==> r == "anonymous"
  {
    if userId != "" then userId
    else if currentUserId != "" then currentUserId
    else "anonymous"
  }

  /** The body `trackSearch` posts to `/api/analytics/search`. */
  datatype SearchRecord = SearchRecord(keyword: string, category: string, resultCount: int, userId: string)

  /**
   * The posted record names the given user, else the current user, else `anonymous`;
   * a category the table knows is posted as its table value, any other as given, so the
   * posted category is already in catalogue form (mapping it again changes nothing).
   */
  function SearchBody(keyword: string, category: string, resultCount: int, userId: string, currentUserId: string): (r: SearchRecord)
    ensures r.keyword == keyword && r.resultCount == resultCount
    ensures r.userId != "" && (userId != "" ==> r.userId == userId)
    ensures userId == "" && currentUserId != "" ==> r.userId == currentUserId
    ensures userId == "" && currentUserId == "" ==> r.userId == "anonymous"
    ensures category in CategoryMapping ==> r.category == CategoryMapping[category]
    ensures category !in CategoryMapping ==> r.category == category
    ensures MapCategory(r.category) == r.category
    ensures r.category != category <==> category in CategoryMapping
  {
    MapCategoryFacts(category);
    SearchRecord(keyword, MapCategory(category), resultCount, ResolveUserId(userId, currentUserId))
  }

  // ---------------------------------------------------------------- ProductStreamSSE

  const Cfg := Config(5, Linear(1000), AnnounceAttempts("reconnect-failed"), EveryOccurrence)

  const DefaultServiceUrl := "http://211.188.63.186:31251"

  const StreamPath := "/api/products/stream"

  /**
   * The stream URL, from `NEXT_PUBLIC_PRODUCT_SERVICE_URL` ("" when unset) or the default
   * host: it always names a host before the stream path, the configured one when set.
   */
  function StreamUrl(env: string): (url: string)
    ensures |url| > |StreamPath| && url[|url| - |StreamPath|..] == StreamPath
    ensures env != "" ==> StartsWith(url, env) && |url| == |env| + |StreamPath|
    ensures env == "" ==> StartsWith(url, DefaultServiceUrl) && |url| == |DefaultServiceUrl| + |StreamPath|
  {
    var base := if env != "" then env else DefaultServiceUrl;
    var url := base + StreamPath;
    assert url[..|base|] == base;
    url
  }

  /** Named server events passed on, under their own name, once parsed. */
  const NamedEvents: set<string> := {"product-created", "product-updated"}

  /** The payload of the `connected` event. */
  const ConnectedPayload := Data(JObj(map["status" := JStr("connected")]))

  /** The class has no connection flag. Sources it stopped holding may still be open. */
  ghost predicate Inv(s: State) {
    Wf(Cfg, s) && !s.isConnected
  }

  /** `connect()` opens a new source without closing the one it held. */
  function AfterConnect(s: State, env: string, openThrows: bool, fails: Behaviour): State {
    if openThrows then AfterReconnect(Cfg, s, fails) else Opened(s, StreamUrl(env))
  }

  function AfterOpen(s: State, fails: Behaviour): State {
    Emitted(s.(reconnectAttempts := 0), "connected", ConnectedPayload, fails)
  }

  /** `onmessage`: parsed data goes out as `product-update`; a parse failure is only logged. */
  function AfterMessage(s: State, parse: Parse, fails: Behaviour): State {
    match parse
    case Parsed(v) => Emitted(s, "product-update", Data(v), fails)
    case SyntaxError(_) => s
  }

  /** `product-created` / `product-updated`: a bare `JSON.parse` throws out of the handler on bad text. */
  function AfterNamedEvent(s: State, name: string, parse: Parse, fails: Behaviour): State {
    if name in NamedEvents && parse.Parsed? then Emitted(s, name, Data(parse.value), fails) else s
  }

  /**
   * `onerror`: always emit `error`; only when the held source reports `CLOSED`
   * (`closed`) is it counted as closed and the reconnect policy run.
   */
  function AfterError(s: State, closed: bool, fails: Behaviour): State {
    var s1 := Emitted(s, "error", TransportError, fails);
    if closed then AfterReconnect(Cfg, Closed(s1), fails) else s1
  }

  /** `disconnect()`: close and drop the source when held, `listeners = {}`, attempts back to 0. */
  function AfterDisconnect(s: State): State {
    (if s.source.Some? then Released(Closed(s)) else s).(listeners := map[], reconnectAttempts := 0)
  }

  function AfterTimer(s: State, i: nat, env: string, openThrows: bool, fails: Behaviour): State
    requires i < |s.pending|
  {
    AfterConnect(TimerTaken(s, i), env, openThrows, fails)
  }

  /** The k-th retry waits 1000 * k ms; the sixth consecutive failure gives up. */
  lemma RetrySchedule()
    ensures var r := Run(Cfg, 0, 6);
      && |r| == 6
      && (forall k :: 0 <= k < 5 ==> r[k] == Scheduled(1000 * (k + 1)))
      && r[5] == GaveUp
  {
    RunFromZero(Cfg);
  }

  /** A second `connect` leaves the first source open next to the new one. */
  lemma ConnectLeaksSource(s: State, env: string, fails: Behaviour)
    requires Inv(s) && s.source.Some? && s.source.value in s.live
    ensures var s' := AfterConnect(s, env, false, fails);
      && s'.source == Some(|s.urls|) && s.source.value in s'.live && |s.urls| in s'.live
      && s.source.value != |s.urls| && Inv(s')
  {
  }

  /** Removal takes out every copy of the callback and keeps the other callbacks as they were. */
  lemma RemoveDropsEveryCopy(r: Registry, t: string, cb: Callback)
    ensures var r' := Unregistered(Cfg.removal, r, t, cb);
      && cb !in ListenersOf(r', t)
      && (forall y :: y != cb ==> multiset(ListenersOf(r', t))[y] == multiset(ListenersOf(r, t))[y])
      && (forall u :: u != t ==> ListenersOf(r', u) == ListenersOf(r, u))
  {
    if t in r {
      WithoutAllCount(r[t], cb);
    }
  }

  /** `onopen` zeroes the attempts, then announces `{status: 'connected'}`. */
  lemma OpenResets(s: State, fails: Behaviour)
    ensures var s' := AfterOpen(s, fails);
      && s'.reconnectAttempts == 0
      && s'.delivered == s.delivered + Deliveries(ListenersOf(s.listeners, "connected"), "connected", ConnectedPayload, fails)
      && Field(ConnectedPayload.value, "status") == Some(JStr("connected"))
  {
  }

  /**
   * `onerror` always announces `error`; a source still retrying itself leaves the attempts
   * alone, a closed one runs the policy, whose give-up reports `{attempts: 5}`.
   */
  lemma ErrorThenMaybeReconnect(s: State, closed: bool, fails: Behaviour)
    requires Inv(s)
    ensures var s' := AfterError(s, closed, fails);
      var errors := Deliveries(ListenersOf(s.listeners, "error"), "error", TransportError, fails);
      && Inv(s')
      && (!closed ==> s' == s.(delivered := s.delivered + errors))
      && (closed && s.reconnectAttempts < 5 ==>
            s'.reconnectAttempts == s.reconnectAttempts + 1
            && s'.pending == s.pending + [1000 * s'.reconnectAttempts]
            && s'.delivered == s.delivered + errors)
      && (closed && s.reconnectAttempts == 5 ==>
            s'.reconnectAttempts == 5 && s'.pending == s.pending
            && s'.delivered == s.delivered + errors
                 + Deliveries(ListenersOf(s.listeners, "reconnect-failed"), "reconnect-failed", AttemptsPayload(5), fails))
  {
    ReconnectBounded(Cfg, Closed(Emitted(s, "error", TransportError, fails)), fails);
  }

  /** A message that does not parse reaches nobody; a named event of another name is ignored. */
  lemma UnparsedIgnored(s: State, name: string, parse: Parse, msg: string, fails: Behaviour)
    ensures AfterMessage(s, SyntaxError(msg), fails) == s
    ensures AfterNamedEvent(s, name, SyntaxError(msg), fails) == s
    ensures name !in NamedEvents ==> AfterNamedEvent(s, name, parse, fails) == s
  {
  }

  /** `disconnect` forgets the source, every listener and the attempt count; timers already set stay. */
  lemma DisconnectResets(s: State)
    requires Inv(s)
    ensures var s' := AfterDisconnect(s);
      && Inv(s') && s'.source.None? && s'.listeners == map[] && s'.reconnectAttempts == 0
      && s'.pending == s.pending && s'.delivered == s.delivered
      && (s.source.Some? ==> s.source.value !in s'.live)
      && AfterDisconnect(s') == s'
  {
  }

  lemma KeepsInv(s: State, env: string, openThrows: bool, closed: bool, fails: Behaviour)
    requires Inv(s)
    ensures Inv(AfterConnect(s, env, openThrows, fails)) && Inv(AfterOpen(s, fails))
    ensures Inv(AfterError(s, closed, fails))
  {
    ReconnectBounded(Cfg, s, fails);
    ReconnectBounded(Cfg, Closed(Emitted(s, "error", TransportError, fails)), fails);
  }

  class ProductStreamSse {
    const engine: Engine

    ghost predicate Valid()
      reads engine
    {
      engine.cfg == Cfg && Inv(engine.State())
    }

    constructor ()
      ensures Valid() && fresh(engine) && engine.State() == Initial
    {
      engine := new Engine(Cfg);
    }

    method Connect(env: string, openThrows: bool, fails: Behaviour)
      requires Valid()
      modifies engine
      ensures Valid() && engine.State() == AfterConnect(old(engine.State()), env, openThrows, fails)
    {
      KeepsInv(engine.State(), env, openThrows, false, fails);
      if openThrows {
        engine.HandleReconnect(fails);
      } else {
        engine.Open(StreamUrl(env));
      }
    }

    method OnOpen(fails: Behaviour)
      requires Valid() && Firing(engine.State())
      modifies engine
      ensures Valid() && engine.State() == AfterOpen(old(engine.State()), fails)
    {
      engine.ResetAttempts();
      engine.Emit("connected", ConnectedPayload, fails);
    }

    method OnMessage(parse: Parse, fails: Behaviour)
      requires Valid() && Firing(engine.State())
      modifies engine
      ensures Valid() && engine.State() == AfterMessage(old(engine.State()), parse, fails)
    {
      if parse.Parsed? {
        engine.Emit("product-update", Data(parse.value), fails);
      }
    }

    method OnNamedEvent(name: string, parse: Parse, fails: Behaviour)
      requires Valid() && Firing(engine.State())
      modifies engine
      ensures Valid() && engine.State() == AfterNamedEvent(old(engine.State()), name, parse, fails)
    {
      if name in NamedEvents && parse.Parsed? {
        engine.Emit(name, Data(parse.value), fails);
      }
    }

    method OnError(closed: bool, fails: Behaviour)
      requires Valid() && Firing(engine.State())
      modifies engine
      ensures Valid() && engine.State() == AfterError(old(engine.State()), closed, fails)
    {
      KeepsInv(engine.State(), "", false, closed, fails);
      engine.Emit("error", TransportError, fails);
      if closed {
        engine.Close();
        engine.HandleReconnect(fails);
      }
    }

    method OnReconnectTimer(i: nat, env: string, openThrows: bool, fails: Behaviour)
      requires Valid() && i < |engine.pending|
      modifies engine
      ensures Valid() && engine.State() == AfterTimer(old(engine.State()), i, env, openThrows, fails)
    {
      engine.TakeTimer(i);
      Connect(env, openThrows, fails);
    }

    method Disconnect()
      requires Valid()
      modifies engine
      ensures Valid() && engine.State() == AfterDisconnect(old(engine.State()))
    {
      if engine.source.Some? {
        engine.Close();
        engine.Release();
      }
      engine.ClearListeners();
      engine.ResetAttempts();
    }

    method AddEventListener(eventType: string, cb: Callback)
      requires Valid()
      modifies engine
      ensures Valid() && engine.State() == old(engine.State()).(listeners := Registered(old(engine.listeners), eventType, cb))
    {
      engine.AddEventListener(eventType, cb);
    }

    /** `listeners[eventType].filter(cb => cb !== callback)` when the type has a list. */
    method RemoveEventListener(eventType: string, cb: Callback)
      requires Valid()
      modifies engine
      ensures Valid()
      ensures engine.State() == old(engine.State()).(listeners := Unregistered(EveryOccurrence, old(engine.listeners), eventType, cb))
    {
      engine.RemoveEventListener(eventType, cb);
    }

    method Emit(eventType: string, p: Payload, fails: Behaviour)
      requires Valid()
      modifies engine
      ensures Valid() && engine.State() == Emitted(old(engine.State()), eventType, p, fails)
    {
      engine.Emit(eventType, p, fails);
    }
  }

  // ---------------------------------------------------------------- AnalyticsTracker

  /** One queued `{type, data, timestamp}`; the timestamp is the `Date.now()` given to `track`. */
  datatype TrackedEvent = TrackedEvent(eventType: string, data: Json, timestamp: int)

  /** The tracker's fields: the queue, every batch handed to `sendBatchEvents`, and whether the interval runs. */
  datatype Tracker = Tracker(events: seq<TrackedEvent>, sent: seq<seq<TrackedEvent>>, timerRunning: bool)

  const BatchSize := 10
  const FlushInterval := 30000
  /** A failed batch is put back only when it holds fewer events than this. */
  const RequeueBound := 100

  /**
   * `flush()`, taken as one step with the send's outcome as a parameter: an empty queue
   * sends nothing; otherwise the whole queue is sent and the queue emptied, and a failed
   * batch smaller than the bound goes back at the head.
   */
  function Flushed(t: Tracker, sendThrows: bool): Tracker {
    if |t.events| == 0 then t
    else
      var batch := t.events;
      var requeued := if sendThrows && |batch| < RequeueBound then batch else [];
      t.(events := requeued, sent := t.sent + [batch])
  }

  /** `track(type, data)`: append, then flush once the queue reaches the batch size. */
  function Tracked(t: Tracker, ev: TrackedEvent, sendThrows: bool): Tracker {
    var t1 := t.(events := t.events + [ev]);
    if |t1.events| >= BatchSize then Flushed(t1, sendThrows) else t1
  }

  /** `destroy()`: stop the interval, then one last flush. */
  function Destroyed(t: Tracker, sendThrows: bool): Tracker {
    Flushed(t.(timerRunning := false), sendThrows)
  }

  /** The queue never reaches the re-queue bound. */
  predicate TrackerInv(t: Tracker) {
    |t.events| < RequeueBound
  }

  /** Flushing an empty queue sends nothing; otherwise exactly the queue is sent, in order. */
  lemma FlushSendsQueue(t: Tracker, sendThrows: bool)
    ensures var t' := Flushed(t, sendThrows);
      && t'.timerRunning == t.timerRunning
      && (t.events == [] ==> t' == t)
      && (t.events != [] ==> t'.sent == t.sent + [t.events])
      && (t.events != [] && !sendThrows ==> t'.events == [])
      && (t.events != [] && sendThrows && |t.events| < RequeueBound ==> t'.events == t.events)
      && (t.events != [] && sendThrows && |t.events| >= RequeueBound ==> t'.events == [])
  {
  }

  /**
   * The tracked event ends up at the tail of the queue, or at the tail of the batch just
   * sent, which is the old queue followed by it.
   */
  lemma TrackAppends(t: Tracker, ev: TrackedEvent, sendThrows: bool)
    ensures var t' := Tracked(t, ev, sendThrows);
      && (|t.events| + 1 < BatchSize ==> t' == t.(events := t.events + [ev]))
      && (|t.events| + 1 >= BatchSize ==> t'.sent == t.sent + [t.events + [ev]])
      && (|t.events| + 1 >= BatchSize && !sendThrows ==> t'.events == [])
  {
  }

  /** `track`, `flush` and `destroy` keep the queue below the bound, whatever each send does. */
  lemma TrackerInvPreserved(t: Tracker, ev: TrackedEvent, sendThrows: bool)
    requires TrackerInv(t)
    ensures TrackerInv(Tracked(t, ev, sendThrows))
    ensures TrackerInv(Flushed(t, sendThrows)) && TrackerInv(Destroyed(t, sendThrows))
  {
  }

  /** While every send succeeds the queue stays below the batch size. */
  lemma SuccessfulSendsKeepBatchBound(t: Tracker, ev: TrackedEvent)
    requires |t.events| < BatchSize
    ensures |Tracked(t, ev, false).events| < BatchSize
    ensures Flushed(t, false).events == []
  {
  }

  class AnalyticsTracker {
    var events: seq<TrackedEvent>
    var sent: seq<seq<TrackedEvent>>
    var timerRunning: bool

    function Model(): Tracker
      reads this
    {
      Tracker(events, sent, timerRunning)
    }

    /** The constructor starts the 30-second interval. */
    constructor ()
      ensures Model() == Tracker([], [], true)
    {
      events, sent, timerRunning := [], [], true;
    }

    method Track(eventType: string, data: Json, now: int, sendThrows: bool)
      modifies this
      ensures Model() == Tracked(old(Model()), TrackedEvent(eventType, data, now), sendThrows)
    {
      events := events + [TrackedEvent(eventType, data, now)];
      if |events| >= BatchSize {
        Flush(sendThrows);
      }
    }

    method Flush(sendThrows: bool)
      modifies this
      ensures Model() == Flushed(old(Model()), sendThrows)
    {
      if |events| == 0 {
        return;
      }
      var eventsToSend := events;
      events := [];
      sent := sent + [eventsToSend];
      if sendThrows && |eventsToSend| < RequeueBound {
        events := eventsToSend + events;
      }
    }

    /** The interval fires while it runs. */
    method OnInterval(sendThrows: bool)
      requires timerRunning
      modifies this
      ensures Model() == Flushed(old(Model()), sendThrows)
    {
      Flush(sendThrows);
    }

    method Destroy(sendThrows: bool)
      modifies this
      ensures Model() == Destroyed(old(Model()), sendThrows)
    {
      if timerRunning {
        timerRunning := false;
      }
      Flush(sendThrows);
    }
  }
}
