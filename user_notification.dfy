/**
 * `UserNotificationSSE` (src/services/userNotificationService.js): the per-user
 * notification stream of the user service. Reconnects up to 5 times with a delay of
 * 3000 ms times the attempt number, announces `giveup` when the attempts are used up,
 * removes only the first copy of a callback, and decodes every payload defensively.
 */
module UserNotification {
  import opened Wrappers
  import opened JsonValues
  import opened Strings
  import opened EventStream
  import opened StreamClient

  const Cfg := Config(5, Linear(3000), Announce("giveup"), FirstOccurrence)

  const StreamBase := "http://211.188.63.186:31207/api/notifications/stream/"

  /** The server events that are passed on to subscribers under their own name. */
  const NotificationEvents: set<string> := {"user_registration", "profile_update", "test"}

  /** The stored login, as far as `connect` uses it; "" stands for a missing or falsy field. */
  datatype CurrentUser = CurrentUser(userId: string, id: string)

  /** `currentUser.userId || currentUser.id`, or nothing when there is no user or both are falsy. */
  function Subject(user: Option<CurrentUser>): (r: Option<string>)
    ensures r.None? <==> user.None? || (user.value.userId == "" && user.value.id == "")
    ensures r.Some? ==> r.value != "" && (r.value == user.value.userId || r.value == user.value.id)
    ensures r.Some? && user.value.userId != "" ==> r.value == user.value.userId
  {
    match user
    case None => None
    case Some(u) => if u.userId != "" then Some(u.userId) else if u.id != "" then Some(u.id) else None
  }

  // ---------------------------------------------------------------- safeParseJSON

  /** What `safeParseJSON` may be given: an object (or array, or null), a string, or anything else rendered by `String(data)`. */
  datatype Raw = RawObject(value: Json) | RawString(text: string) | RawOther(text: string)

  /**
   * `safeParseJSON(data)`, where `parse` is what `JSON.parse` would do with the text.
   * It never fails: objects pass through, plain text and text that does not parse are
   * wrapped as `{message: text}`.
   */
  function SafeParseJson(data: Raw, parse: Parse): (r: Json)
    ensures data.RawObject? ==> r == data.value
    ensures data.RawOther? ==> r == Message(data.text)
    ensures data.RawString? ==> r == Message(data.text) || (parse.Parsed? && r == parse.value)
    ensures data.RawString? && !StartsWith(data.text, "{") && !StartsWith(data.text, "[") ==> r == Message(data.text)
    ensures data.RawString? && parse.SyntaxError? ==> r == Message(data.text)
    ensures data.RawString? && (StartsWith(data.text, "{") || StartsWith(data.text, "[")) && parse.Parsed? ==> r == parse.value
  {
    match data
    case RawObject(v) => v
    case RawString(text) =>
      if !StartsWith(text, "{") && !StartsWith(text, "[") then Message(text)
      else if parse.Parsed? then parse.value
      else Message(text)
    case RawOther(text) => Message(text)
  }

  /** Plain text never reaches the parser: the result is the same whatever `JSON.parse` would have done. */
  lemma PlainTextIgnoresParser(text: string, p1: Parse, p2: Parse)
    requires !StartsWith(text, "{") && !StartsWith(text, "[")
    ensures SafeParseJson(RawString(text), p1) == SafeParseJson(RawString(text), p2) == Message(text)
  {
  }

  // ---------------------------------------------------------------- the client as transitions

  /** The invariant of this class: the bound, at most the held transport open, connected only while holding one. */
  ghost predicate Inv(s: State) {
    Wf(Cfg, s) && s.live <= Held(s) && (s.isConnected ==> s.source.Some?)
  }

  /** `connect()`: nothing without a user; otherwise drop the old transport and open the user's stream. */
  function AfterConnect(s: State, user: Option<CurrentUser>, openThrows: bool, fails: Behaviour): State {
    match Subject(user)
    case None => s
    case Some(uid) =>
      var s1 := Dropped(s);
      if openThrows then AfterReconnect(Cfg, s1, fails) else Opened(s1, StreamBase + uid)
  }

  /** A named server event with its text; other names have no handler. */
  function AfterEvent(s: State, name: string, text: string, parse: Parse, fails: Behaviour): State {
    var data := Data(SafeParseJson(RawString(text), parse));
    if name == "connected" then Emitted(s.(isConnected := true, reconnectAttempts := 0), "connected", data, fails)
    else if name in NotificationEvents then Emitted(s, name, data, fails)
    else s
  }

  /** `onerror`. */
  function AfterError(s: State, fails: Behaviour): State {
    AfterReconnect(Cfg, Emitted(s.(isConnected := false), "error", TransportError, fails), fails)
  }

  /** `onopen`. */
  function AfterOpen(s: State, fails: Behaviour): State {
    Emitted(s.(isConnected := true), "open", NoPayload, fails)
  }

  /** The reconnect timer at `pending[i]` fires and calls `connect()`. */
  function AfterTimer(s: State, i: nat, user: Option<CurrentUser>, openThrows: bool, fails: Behaviour): State
    requires i < |s.pending|
  {
    AfterConnect(TimerTaken(s, i), user, openThrows, fails)
  }

  // ---------------------------------------------------------------- properties

  /** Without a user id `connect` changes nothing at all. */
  lemma ConnectWithoutUser(s: State, user: Option<CurrentUser>, openThrows: bool, fails: Behaviour)
    requires user.None? || (user.value.userId == "" && user.value.id == "")
    ensures AfterConnect(s, user, openThrows, fails) == s
  {
  }

  /**
   * With a user, `connect` tears the old transport down first: afterwards exactly the new
   * transport, for `userId || id`, is open, and nothing else of the state moved.
   */
  lemma ConnectReplacesSource(s: State, user: Option<CurrentUser>, fails: Behaviour)
    requires Inv(s) && Subject(user).Some?
    ensures var s' := AfterConnect(s, user, false, fails);
      && s'.urls == s.urls + [StreamBase + Subject(user).value]
      && s'.source == Some(|s.urls|) && s'.live == {|s.urls|}
      && !s'.isConnected
      && s'.listeners == s.listeners && s'.delivered == s.delivered
      && s'.reconnectAttempts == s.reconnectAttempts && s'.pending == s.pending
  {
  }

  /** `onerror` drops the flag, tells the `error` subscribers, then runs the 5-attempt, 3000 ms-step policy. */
  lemma ErrorThenReconnect(s: State, fails: Behaviour)
    requires Inv(s)
    ensures var s' := AfterError(s, fails);
      var errors := Deliveries(ListenersOf(s.listeners, "error"), "error", TransportError, fails);
      && !s'.isConnected && s'.reconnectAttempts <= 5
      && s'.listeners == s.listeners && s'.source == s.source && s'.live == s.live
      && (s.reconnectAttempts < 5 ==>
            s'.reconnectAttempts == s.reconnectAttempts + 1
            && s'.pending == s.pending + [3000 * s'.reconnectAttempts]
            && s'.delivered == s.delivered + errors)
      && (s.reconnectAttempts == 5 ==>
            s'.reconnectAttempts == 5 && s'.pending == s.pending
            && s'.delivered == s.delivered + errors
                 + Deliveries(ListenersOf(s.listeners, "giveup"), "giveup", NoPayload, fails))
  {
    var s1 := Emitted(s.(isConnected := false), "error", TransportError, fails);
    ReconnectBounded(Cfg, s1, fails);
  }

  /** The `connected` event marks the client connected and resets the attempts before the subscribers hear of it. */
  lemma ConnectedResets(s: State, text: string, parse: Parse, fails: Behaviour)
    ensures var s' := AfterEvent(s, "connected", text, parse, fails);
      && s'.isConnected && s'.reconnectAttempts == 0
      && s'.delivered == s.delivered
           + Deliveries(ListenersOf(s.listeners, "connected"), "connected", Data(SafeParseJson(RawString(text), parse)), fails)
  {
  }

  /** `onopen` marks the client connected but leaves the attempt counter alone. */
  lemma OpenKeepsAttempts(s: State, fails: Behaviour)
    ensures AfterOpen(s, fails).isConnected
    ensures AfterOpen(s, fails).reconnectAttempts == s.reconnectAttempts
  {
  }

  /** A payload that does not parse still reaches every subscriber of its event, as `{message: text}`. */
  lemma MalformedPayloadDelivered(s: State, name: string, text: string, msg: string, fails: Behaviour)
    requires name == "connected" || name in NotificationEvents
    ensures var s' := AfterEvent(s, name, text, SyntaxError(msg), fails);
      var cbs := ListenersOf(s.listeners, name);
      && |s'.delivered| == |s.delivered| + |cbs|
      && forall i :: 0 <= i < |cbs| ==>
           s'.delivered[|s.delivered| + i].callback == cbs[i]
           && s'.delivered[|s.delivered| + i].payload == Data(Message(text))
  {
  }

  /** A timer scheduled before `disconnect` still fires afterwards and opens a new transport. */
  lemma StaleTimerReopens(s: State, user: Option<CurrentUser>, fails: Behaviour)
    requires Inv(s) && |s.pending| > 0 && Subject(user).Some?
    ensures var d := Dropped(s);
      |d.pending| > 0 && Firing(AfterTimer(d, 0, user, false, fails))
  {
  }

  /** `connect` keeps the invariant. */
  lemma ConnectKeepsInv(s: State, user: Option<CurrentUser>, openThrows: bool, fails: Behaviour)
    requires Inv(s)
    ensures Inv(Dropped(s)) && Inv(AfterConnect(s, user, openThrows, fails))
  {
    ReconnectBounded(Cfg, Dropped(s), fails);
  }

  /** The transport callbacks keep the invariant. */
  lemma CallbacksKeepInv(s: State, name: string, text: string, parse: Parse, fails: Behaviour)
    requires Inv(s)
    ensures Firing(s) ==> Inv(AfterEvent(s, name, text, parse, fails)) && Inv(AfterOpen(s, fails))
    ensures Inv(AfterError(s, fails))
  {
    ReconnectBounded(Cfg, Emitted(s.(isConnected := false), "error", TransportError, fails), fails);
  }

  /** A firing timer keeps the invariant. */
  lemma TimerKeepsInv(s: State, i: nat, user: Option<CurrentUser>, openThrows: bool, fails: Behaviour)
    requires Inv(s) && i < |s.pending|
    ensures Inv(TimerTaken(s, i)) && Inv(AfterTimer(s, i, user, openThrows, fails))
  {
    ConnectKeepsInv(TimerTaken(s, i), user, openThrows, fails);
  }

  // ---------------------------------------------------------------- the class

  class UserNotificationSse {
    const engine: Engine

    ghost predicate Valid()
      reads engine
    {
      engine.cfg == Cfg && Inv(engine.State())
    }

    constructor ()
      ensures Valid() && fresh(engine) && engine.State() == Initial
    {
      engine := new Engine(Cfg);
    }

    /** `connect()`; `user` is the stored login, `openThrows` whether `new EventSource` throws. */
    method Connect(user: Option<CurrentUser>, openThrows: bool, fails: Behaviour)
      requires Valid()
      modifies engine
      ensures Valid() && engine.State() == AfterConnect(old(engine.State()), user, openThrows, fails)
    {
      ConnectKeepsInv(engine.State(), user, openThrows, fails);
      var uid := Subject(user);
      if uid.None? {
        return;
      }
      if engine.source.Some? {
        Disconnect();
      }
      if openThrows {
        engine.HandleReconnect(fails);
      } else {
        engine.Open(StreamBase + uid.value);
      }
    }

    method Disconnect()
      requires Valid()
      modifies engine
      ensures Valid() && engine.State() == Dropped(old(engine.State()))
    {
      if engine.source.Some? {
        engine.Close();
        engine.Release();
        engine.SetConnected(false);
      }
    }

    /** The handler registered for the server event `name` receives `text`. */
    method OnServerEvent(name: string, text: string, parse: Parse, fails: Behaviour)
      requires Valid() && Firing(engine.State())
      modifies engine
      ensures Valid() && engine.State() == AfterEvent(old(engine.State()), name, text, parse, fails)
    {
      CallbacksKeepInv(engine.State(), name, text, parse, fails);
      var data := Data(SafeParseJson(RawString(text), parse));
      if name == "connected" {
        engine.SetConnected(true);
        engine.ResetAttempts();
        engine.Emit("connected", data, fails);
      } else if name in NotificationEvents {
        engine.Emit(name, data, fails);
      }
    }

    method OnError(fails: Behaviour)
      requires Valid()
      modifies engine
      ensures Valid() && engine.State() == AfterError(old(engine.State()), fails)
    {
      CallbacksKeepInv(engine.State(), "", "", SyntaxError(""), fails);
      engine.SetConnected(false);
      engine.Emit("error", TransportError, fails);
      engine.HandleReconnect(fails);
    }

    method OnOpen(fails: Behaviour)
      requires Valid() && Firing(engine.State())
      modifies engine
      ensures Valid() && engine.State() == AfterOpen(old(engine.State()), fails)
    {
      engine.SetConnected(true);
      engine.Emit("open", NoPayload, fails);
    }

    /** The reconnect timer at `pending[i]` fires: the same as `connect()` with the login stored by then. */
    method OnReconnectTimer(i: nat, user: Option<CurrentUser>, openThrows: bool, fails: Behaviour)
      requires Valid() && i < |engine.pending|
      modifies engine
      ensures Valid() && engine.State() == AfterTimer(old(engine.State()), i, user, openThrows, fails)
    {
      TimerKeepsInv(engine.State(), i, user, openThrows, fails);
      engine.TakeTimer(i);
      Connect(user, openThrows, fails);
    }

    method AddEventListener(eventType: string, cb: Callback)
      requires Valid()
      modifies engine
      ensures Valid() && engine.State() == old(engine.State()).(listeners := Registered(old(engine.listeners), eventType, cb))
    {
      engine.AddEventListener(eventType, cb);
    }

    method RemoveEventListener(eventType: string, cb: Callback)
      requires Valid()
      modifies engine
      ensures Valid()
      ensures engine.State() == old(engine.State()).(listeners := Unregistered(FirstOccurrence, old(engine.listeners), eventType, cb))
    {
      engine.RemoveEventListener(eventType, cb);
    }

    method Emit(eventType: string, p: Payload, fails: Behaviour)
      requires Valid()
      modifies engine
      ensures Valid() && engine.State() == Emitted(old(engine.State()), eventType, p, fails)
    {
      engine.Emit(eventType, p, fails);
    }

    /** `getConnectionStatus()`: the flag, the counter and the bound 5. */
    function GetConnectionStatus(): (st: ConnectionStatus)
      reads engine
      requires Valid()
      ensures st == ConnectionStatus(engine.isConnected, engine.reconnectAttempts, 5)
      ensures st.reconnectAttempts <= st.maxReconnectAttempts
    {
      engine.GetConnectionStatus()
    }
  }
}
