/**
 * `RealTimeUpdates` of src/components/RealTimeUpdates.js: the analytics stream
 * behind the real-time dashboard. Reconnects up to 5 times with a delay of 1000 ms
 * times the attempt number and announces `giveup`; its server events are decoded
 * with a bare `JSON.parse`, so a payload that does not parse is dropped.
 */
module RealTimeUpdatesComponent {
  import opened Wrappers
  import opened JsonValues
  import opened EventStream
  import opened StreamClient

  const Cfg := Config(5, Linear(1000), Announce("giveup"), FirstOccurrence)

  const StreamUrl := "http://211.188.63.186:31251/api/analytics/stream"

  /** Server events passed on under their own name once parsed. */
  const DataEvents: set<string> := {"stats", "view", "search"}

  ghost predicate Inv(s: State) {
    Wf(Cfg, s) && s.live <= Held(s) && (s.isConnected ==> s.source.Some?)
  }

  /** `connect()`: drop the held transport (via `disconnect`), then open the stream. */
  function AfterConnect(s: State, openThrows: bool, fails: Behaviour): State {
    var s1 := Dropped(s);
    if openThrows then AfterReconnect(Cfg, s1, fails) else Opened(s1, StreamUrl)
  }

  /**
   * A named server event. `JSON.parse` throws out of the handler on bad text, so then
   * nothing happens; `connection` marks the client connected and resets the attempts.
   */
  function AfterEvent(s: State, name: string, parse: Parse, fails: Behaviour): State {
    match parse
    case SyntaxError(_) => s
    case Parsed(v) =>
      if name == "connection" then Emitted(s.(isConnected := true, reconnectAttempts := 0), "connection", Data(v), fails)
      else if name in DataEvents then Emitted(s, name, Data(v), fails)
      else s
  }

  function AfterError(s: State, fails: Behaviour): State {
    AfterReconnect(Cfg, Emitted(s.(isConnected := false), "error", TransportError, fails), fails)
  }

  function AfterOpen(s: State, fails: Behaviour): State {
    Emitted(s.(isConnected := true), "open", NoPayload, fails)
  }

  function AfterTimer(s: State, i: nat, openThrows: bool, fails: Behaviour): State
    requires i < |s.pending|
  {
    AfterConnect(TimerTaken(s, i), openThrows, fails)
  }

  // ---------------------------------------------------------------- properties

  /** The k-th consecutive retry waits 1000 * k ms; the sixth consecutive failure gives up. */
  lemma RetrySchedule()
    ensures var r := Run(Cfg, 0, 6);
      && |r| == 6
      && (forall k :: 0 <= k < 5 ==> r[k] == Scheduled(1000 * (k + 1)))
      && r[5] == GaveUp
  {
    RunFromZero(Cfg);
  }

  /** `connect` leaves exactly the new transport open and holds it. */
  lemma ConnectReplacesSource(s: State, fails: Behaviour)
    requires Inv(s)
    ensures var s' := AfterConnect(s, false, fails);
      && s'.urls == s.urls + [StreamUrl] && s'.source == Some(|s.urls|) && s'.live == {|s.urls|}
      && !s'.isConnected
      && s'.listeners == s.listeners && s'.delivered == s.delivered
      && s'.reconnectAttempts == s.reconnectAttempts && s'.pending == s.pending
  {
  }

  /** The `connection` event marks the client connected and zeroes the attempts before telling subscribers. */
  lemma ConnectionResets(s: State, v: Json, fails: Behaviour)
    ensures var s' := AfterEvent(s, "connection", Parsed(v), fails);
      && s'.isConnected && s'.reconnectAttempts == 0
      && s'.delivered == s.delivered + Deliveries(ListenersOf(s.listeners, "connection"), "connection", Data(v), fails)
  {
  }

  /** Unlike the user stream, a payload that does not parse reaches nobody and changes nothing. */
  lemma UnparsableEventDropped(s: State, name: string, msg: string, fails: Behaviour)
    ensures AfterEvent(s, name, SyntaxError(msg), fails) == s
  {
  }

  /** `onopen` sets the flag and emits `open`, but does not reset the attempts. */
  lemma OpenKeepsAttempts(s: State, fails: Behaviour)
    ensures var s' := AfterOpen(s, fails);
      && s'.isConnected && s'.reconnectAttempts == s.reconnectAttempts
      && s'.delivered == s.delivered + Deliveries(ListenersOf(s.listeners, "open"), "open", NoPayload, fails)
  {
  }

  /** `onerror` drops the flag, emits `error`, and runs the policy: one more attempt after 1000 * k ms, or `giveup`. */
  lemma ErrorThenReconnect(s: State, fails: Behaviour)
    requires Inv(s)
    ensures var s' := AfterError(s, fails);
      var errors := Deliveries(ListenersOf(s.listeners, "error"), "error", TransportError, fails);
      && !s'.isConnected && s'.reconnectAttempts <= 5
      && (s.reconnectAttempts < 5 ==>
            s'.reconnectAttempts == s.reconnectAttempts + 1
            && s'.pending == s.pending + [1000 * s'.reconnectAttempts]
            && s'.delivered == s.delivered + errors)
      && (s.reconnectAttempts == 5 ==>
            s'.reconnectAttempts == 5 && s'.pending == s.pending
            && s'.delivered == s.delivered + errors
                 + Deliveries(ListenersOf(s.listeners, "giveup"), "giveup", NoPayload, fails))
  {
    ReconnectBounded(Cfg, Emitted(s.(isConnected := false), "error", TransportError, fails), fails);
  }

  lemma ConnectKeepsInv(s: State, openThrows: bool, fails: Behaviour)
    requires Inv(s)
    ensures Inv(Dropped(s)) && Inv(AfterConnect(s, openThrows, fails))
  {
    ReconnectBounded(Cfg, Dropped(s), fails);
  }

  lemma CallbacksKeepInv(s: State, name: string, parse: Parse, fails: Behaviour)
    requires Inv(s)
    ensures Firing(s) ==> Inv(AfterEvent(s, name, parse, fails)) && Inv(AfterOpen(s, fails))
    ensures Inv(AfterError(s, fails))
  {
    ReconnectBounded(Cfg, Emitted(s.(isConnected := false), "error", TransportError, fails), fails);
  }

  // ---------------------------------------------------------------- the class

  class RealTimeUpdates {
    const engine: Engine

    ghost predicate Valid()
      reads engine
    {
      engine.cfg == Cfg && Inv(engine.State())
    }

    constructor ()
      ensures Valid() && fresh(engine) && engine.State() == Initial
    {
      engine := new Engine(Cfg);
    }

    method Connect(openThrows: bool, fails: Behaviour)
      requires Valid()
      modifies engine
      ensures Valid() && engine.State() == AfterConnect(old(engine.State()), openThrows, fails)
    {
      ConnectKeepsInv(engine.State(), openThrows, fails);
      if engine.source.Some? {
        Disconnect();
      }
      if openThrows {
        engine.HandleReconnect(fails);
      } else {
        engine.Open(StreamUrl);
      }
    }

    method Disconnect()
      requires Valid()
      modifies engine
      ensures Valid() && engine.State() == Dropped(old(engine.State()))
    {
      if engine.source.Some? {
        engine.Close();
        engine.Release();
        engine.SetConnected(false);
      }
    }

    method OnServerEvent(name: string, parse: Parse, fails: Behaviour)
      requires Valid() && Firing(engine.State())
      modifies engine
      ensures Valid() && engine.State() == AfterEvent(old(engine.State()), name, parse, fails)
    {
      CallbacksKeepInv(engine.State(), name, parse, fails);
      if parse.SyntaxError? {
        return;
      }
      if name == "connection" {
        engine.SetConnected(true);
        engine.ResetAttempts();
        engine.Emit("connection", Data(parse.value), fails);
      } else if name in DataEvents {
        engine.Emit(name, Data(parse.value), fails);
      }
    }

    method OnError(fails: Behaviour)
      requires Valid()
      modifies engine
      ensures Valid() && engine.State() == AfterError(old(engine.State()), fails)
    {
      CallbacksKeepInv(engine.State(), "", SyntaxError(""), fails);
      engine.SetConnected(false);
      engine.Emit("error", TransportError, fails);
      engine.HandleReconnect(fails);
    }

    method OnOpen(fails: Behaviour)
      requires Valid() && Firing(engine.State())
      modifies engine
      ensures Valid() && engine.State() == AfterOpen(old(engine.State()), fails)
    {
      engine.SetConnected(true);
      engine.Emit("open", NoPayload, fails);
    }

    method OnReconnectTimer(i: nat, openThrows: bool, fails: Behaviour)
      requires Valid() && i < |engine.pending|
      modifies engine
      ensures Valid() && engine.State() == AfterTimer(old(engine.State()), i, openThrows, fails)
    {
      engine.TakeTimer(i);
      Connect(openThrows, fails);
    }

    method AddEventListener(eventType: string, cb: Callback)
      requires Valid()
      modifies engine
      ensures Valid() && engine.State() == old(engine.State()).(listeners := Registered(old(engine.listeners), eventType, cb))
    {
      engine.AddEventListener(eventType, cb);
    }

    method RemoveEventListener(eventType: string, cb: Callback)
      requires Valid()
      modifies engine
      ensures Valid()
      ensures engine.State() == old(engine.State()).(listeners := Unregistered(FirstOccurrence, old(engine.listeners), eventType, cb))
    {
      engine.RemoveEventListener(eventType, cb);
    }

    method Emit(eventType: string, p: Payload, fails: Behaviour)
      requires Valid()
      modifies engine
      ensures Valid() && engine.State() == Emitted(old(engine.State()), eventType, p, fails)
    {
      engine.Emit(eventType, p, fails);
    }

    function GetConnectionStatus(): (st: ConnectionStatus)
      reads engine
      requires Valid()
      ensures st == ConnectionStatus(engine.isConnected, engine.reconnectAttempts, 5)
      ensures st.reconnectAttempts <= st.maxReconnectAttempts
    {
      engine.GetConnectionStatus()
    }
  }
}
