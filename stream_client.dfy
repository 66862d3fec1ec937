/**
 * The state every SSE client class keeps in its fields, as one class. Each method
 * changes the fields the way one statement group of the JavaScript classes does,
 * and is proved against the pure transition of the same name in EventStream.
 */
module StreamClient {
  import opened Wrappers
  import opened JsonValues
  import opened EventStream

  class Engine {
    const cfg: Config
    var listeners: Registry
    var delivered: seq<Call>
    var isConnected: bool
    var reconnectAttempts: nat
    var urls: seq<string>
    var source: Option<nat>
    var live: set<nat>
    var pending: seq<nat>

    /** The fields as one value. */
    function State(): State
      reads this
    {
      EventStream.State(listeners, delivered, isConnected, reconnectAttempts, urls, source, live, pending)
    }

    constructor (cfg: Config)
      ensures this.cfg == cfg && State() == Initial
    {
      this.cfg := cfg;
      listeners, delivered, isConnected, reconnectAttempts := map[], [], false, 0;
      urls, source, live, pending := [], None, {}, [];
    }

    /** `addEventListener(t, cb)`: create the list on first use, then `push`. */
    method AddEventListener(t: string, cb: Callback)
      modifies this
      ensures State() == old(State()).(listeners := Registered(old(listeners), t, cb))
    {
      if t !in listeners {
        listeners := listeners[t := []];
      }
      listeners := listeners[t := listeners[t] + [cb]];
    }

    /** `removeEventListener(t, cb)`: `indexOf` + `splice`, or `filter`, as the class does it. */
    method RemoveEventListener(t: string, cb: Callback)
      modifies this
      ensures State() == old(State()).(listeners := Unregistered(cfg.removal, old(listeners), t, cb))
    {
      if t in listeners {
        var callbacks := listeners[t];
        if cfg.removal == FirstOccurrence {
          var index := IndexOf(callbacks, cb);
          if index > -1 {
            callbacks := callbacks[..index] + callbacks[index + 1..];
          }
        } else {
          callbacks := WithoutAll(callbacks, cb);
        }
        listeners := listeners[t := callbacks];
      }
    }

    /** `emit(t, p)`: call each registered callback in order, catching what it throws. */
    method Emit(t: string, p: Payload, fails: Behaviour)
      modifies this
      ensures State() == Emitted(old(State()), t, p, fails)
    {
      var callbacks := ListenersOf(listeners, t);
      var i := 0;
      while i < |callbacks|
        invariant 0 <= i <= |callbacks|
        invariant State() == old(State()).(delivered := old(delivered) + Deliveries(callbacks[..i], t, p, fails))
      {
        var threw := fails(callbacks[i], p);
        DeliveriesSnoc(callbacks[..i], callbacks[i], t, p, fails);
        assert callbacks[..i + 1] == callbacks[..i] + [callbacks[i]];
        delivered := delivered + [Call(callbacks[i], t, p, threw)];
        i := i + 1;
      }
      assert callbacks[..i] == callbacks;
    }

    /** `handleReconnect()`. */
    method HandleReconnect(fails: Behaviour)
      modifies this
      ensures State() == AfterReconnect(cfg, old(State()), fails)
    {
      if reconnectAttempts < cfg.maxAttempts {
        reconnectAttempts := reconnectAttempts + 1;
        pending := pending + [Delay(cfg.backoff, reconnectAttempts)];
      } else {
        match cfg.giveUp
        case Silent =>
        case Announce(e) =>
          Emit(e, NoPayload, fails);
        case AnnounceAttempts(e) =>
          Emit(e, AttemptsPayload(reconnectAttempts), fails);
      }
    }

    /** `this.eventSource = new EventSource(url)`. */
    method Open(url: string)
      modifies this
      ensures State() == Opened(old(State()), url)
    {
      source := Some(|urls|);
      live := live + {|urls|};
      urls := urls + [url];
    }

    /** `this.eventSource.close()`. */
    method Close()
      modifies this
      ensures State() == Closed(old(State()))
    {
      if source.Some? {
        live := live - {source.value};
      }
    }

    /** `this.eventSource = null`. */
    method Release()
      modifies this
      ensures State() == Released(old(State()))
    {
      source := None;
    }

    method SetConnected(b: bool)
      modifies this
      ensures State() == old(State()).(isConnected := b)
    {
      isConnected := b;
    }

    /** `this.reconnectAttempts = 0`. */
    method ResetAttempts()
      modifies this
      ensures State() == old(State()).(reconnectAttempts := 0)
    {
      reconnectAttempts := 0;
    }

    /** `listeners.clear()` or `listeners = {}`. */
    method ClearListeners()
      modifies this
      ensures State() == old(State()).(listeners := map[])
    {
      listeners := map[];
    }

    /** The timer at `pending[i]` fires. */
    method TakeTimer(i: nat)
      requires i < |pending|
      modifies this
      ensures State() == TimerTaken(old(State()), i)
    {
      pending := pending[..i] + pending[i + 1..];
    }

    /** `getConnectionStatus()`: the three fields as they are now. */
    function GetConnectionStatus(): (st: ConnectionStatus)
      reads this
      ensures st.isConnected == isConnected && st.reconnectAttempts == reconnectAttempts
      ensures st.maxReconnectAttempts == cfg.maxAttempts
      ensures Wf(cfg, State()) ==> st.reconnectAttempts <= st.maxReconnectAttempts
    {
      ConnectionStatus(isConnected, reconnectAttempts, cfg.maxAttempts)
    }
  }
}
