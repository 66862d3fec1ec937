/**
 * The shared core of the four Server-Sent-Events client classes, as pure values:
 * the listener registry, the dispatch of one event to its subscribers, the
 * reconnect counter with its backoff, and the handle on the transport.
 *
 * The transport (a browser `EventSource`) is abstract: a client opens transports by
 * URL, holds at most a reference to one of them, and closes them; the browser's
 * open / error / message callbacks arrive as separate stimuli. A `setTimeout` that
 * would call `connect` again is recorded as a pending delay.
 */
module EventStream {
  import opened Wrappers
  import opened JsonValues

  /** A subscriber callback. JavaScript compares functions by identity, so a callback is its identity. */
  datatype Callback = Callback(id: nat)

  /** What `emit` hands to the subscribers: nothing, the transport's error event, or decoded data. */
  datatype Payload = NoPayload | TransportError | Data(value: Json)

  /** One invocation of a subscriber during `emit`; `threw` says whether the callback threw (the throw is caught). */
  datatype Call = Call(callback: Callback, eventType: string, payload: Payload, threw: bool)

  /** Whether invoking a callback with a payload throws. Callbacks are the caller's code, so this is a parameter. */
  type Behaviour = (Callback, Payload) -> bool

  /** How `removeEventListener` treats a callback registered more than once. */
  datatype Removal = FirstOccurrence | EveryOccurrence

  /** The delay before the k-th reconnect: `delay * k` or a fixed `delay`. */
  datatype Backoff = Linear(baseDelay: nat) | Fixed(delay: nat)

  /** What happens once the attempts are used up: nothing, an event, or an event carrying `{attempts}`. */
  datatype GiveUp = Silent | Announce(eventType: string) | AnnounceAttempts(eventType: string)

  /** The per-class constants of the reconnect machine and the registry. */
  datatype Config = Config(maxAttempts: nat, backoff: Backoff, giveUp: GiveUp, removal: Removal)

  /** Event type to the ordered list of callbacks registered for it. */
  type Registry = map<string, seq<Callback>>

  /**
   * The whole state of one client.
   * - `delivered`: every subscriber invocation so far, in order;
   * - `urls`: every transport ever opened, in order (a transport is its index here);
   * - `source`: the transport the client holds (`this.eventSource`);
   * - `live`: the transports neither closed by the client nor closed for good by the browser;
   * - `pending`: the delays of the reconnect timers scheduled and not yet fired.
   */
  datatype State = State(
    listeners: Registry,
    delivered: seq<Call>,
    isConnected: bool,
    reconnectAttempts: nat,
    urls: seq<string>,
    source: Option<nat>,
    live: set<nat>,
    pending: seq<nat>)

  /** A freshly constructed client. */
  const Initial := State(map[], [], false, 0, [], None, {}, [])

  /** The held transport as a set (empty when nothing is held). */
  function Held(s: State): set<nat> {
    if s.source.Some? then {s.source.value} else {}
  }

  /** What every client keeps: attempts within the bound, transports referring to opened ones. */
  ghost predicate Wf(cfg: Config, s: State) {
    && s.reconnectAttempts <= cfg.maxAttempts
    && (s.source.Some? ==> s.source.value < |s.urls|)
    && (forall t :: t in s.live ==> t < |s.urls|)
  }

  /** The held transport is open, so the browser may fire its callbacks. */
  predicate Firing(s: State) {
    s.source.Some? && s.source.value in s.live
  }

  // ---------------------------------------------------------------- registry

  /** `listeners.get(t)` when `listeners.has(t)`, and the empty list otherwise. */
  function ListenersOf(r: Registry, t: string): seq<Callback> {
    if t in r then r[t] else []
  }

  /** `addEventListener`: the callback goes at the end of its type's list; duplicates are kept. */
  function Registered(r: Registry, t: string, cb: Callback): (r': Registry)
    ensures ListenersOf(r', t) == ListenersOf(r, t) + [cb]
    ensures forall u :: u != t ==> ListenersOf(r', u) == ListenersOf(r, u)
  {
    r[t := ListenersOf(r, t) + [cb]]
  }

  /** `indexOf`: the position of the first occurrence, or -1. */
  function IndexOf(s: seq<Callback>, x: Callback): (i: int)
    ensures -1 <= i
    ensures i == -1 <==> x !in s
    ensures 0 <= i ==> i < |s| && s[i] == x && x !in s[..i]
  {
    if s == [] then -1
    else if s[0] == x then 0
    else
      var j := IndexOf(s[1..], x);
      assert s == [s[0]] + s[1..];
      assert j >= 0 ==> s[..j + 1] == [s[0]] + s[1..][..j];
      if j == -1 then -1 else j + 1
  }

  /** `indexOf` followed by `splice(index, 1)`. */
  function WithoutFirst(s: seq<Callback>, x: Callback): seq<Callback> {
    var i := IndexOf(s, x);
    if i < 0 then s else s[..i] + s[i + 1..]
  }

  /** `filter(cb => cb !== x)`. */
  function WithoutAll(s: seq<Callback>, x: Callback): seq<Callback>
    decreases |s|
  {
    if s == [] then []
    else if s[0] == x then WithoutAll(s[1..], x)
    else [s[0]] + WithoutAll(s[1..], x)
  }

  /** `removeEventListener` under either removal policy: a no-op for a type with no list. */
  function Unregistered(policy: Removal, r: Registry, t: string, cb: Callback): Registry {
    if t in r then
      r[t := if policy == FirstOccurrence then WithoutFirst(r[t], cb) else WithoutAll(r[t], cb)]
    else r
  }

  /** Removing an absent callback or from an unknown type changes nothing; other types are never touched. */
  lemma UnregisteredAbsent(policy: Removal, r: Registry, t: string, cb: Callback)
    ensures cb !in ListenersOf(r, t) ==> Unregistered(policy, r, t, cb) == r
    ensures t !in r ==> Unregistered(policy, r, t, cb) == r
    ensures forall u :: u != t ==> ListenersOf(Unregistered(policy, r, t, cb), u) == ListenersOf(r, u)
  {
    if cb !in ListenersOf(r, t) && t in r {
      WithoutAllAbsent(r[t], cb);
      assert r[t := r[t]] == r;
    }
  }

  /** Splicing out the first occurrence takes away exactly one copy and nothing else. */
  lemma WithoutFirstCount(s: seq<Callback>, x: Callback)
    requires x in s
    ensures multiset(WithoutFirst(s, x)) == multiset(s) - multiset{x}
    ensures |WithoutFirst(s, x)| == |s| - 1
  {
    var i := IndexOf(s, x);
    assert s == s[..i] + [s[i]] + s[i + 1..];
    assert multiset(s) == multiset(s[..i]) + multiset{x} + multiset(s[i + 1..]);
  }

  /** Filtering leaves no copy of the callback and every other callback as often as before. */
  lemma {:induction false} WithoutAllCount(s: seq<Callback>, x: Callback)
    ensures x !in WithoutAll(s, x)
    ensures forall y :: y != x ==> multiset(WithoutAll(s, x))[y] == multiset(s)[y]
    decreases |s|
  {
    if s != [] {
      WithoutAllCount(s[1..], x);
      assert s == [s[0]] + s[1..];
    }
  }

  /** Filtering a list without the callback returns it unchanged. */
  lemma {:induction false} WithoutAllAbsent(s: seq<Callback>, x: Callback)
    requires x !in s
    ensures WithoutAll(s, x) == s
    decreases |s|
  {
    if s != [] {
      WithoutAllAbsent(s[1..], x);
      assert s == [s[0]] + s[1..];
    }
  }

  /** Filtering keeps the other callbacks in order: it distributes over concatenation. */
  lemma {:induction false} WithoutAllAppend(a: seq<Callback>, b: seq<Callback>, x: Callback)
    ensures WithoutAll(a + b, x) == WithoutAll(a, x) + WithoutAll(b, x)
    decreases |a|
  {
    if a == [] {
      assert a + b == b;
    } else {
      assert (a + b)[0] == a[0];
      assert (a + b)[1..] == a[1..] + b;
      WithoutAllAppend(a[1..], b, x);
    }
  }

  /**
   * The two removal policies agree exactly when the callback is registered at most once;
   * with two or more copies, splicing leaves a copy behind and filtering does not.
   */
  lemma FirstVersusEvery(s: seq<Callback>, x: Callback)
    ensures multiset(s)[x] <= 1 ==> WithoutFirst(s, x) == WithoutAll(s, x)
    ensures multiset(s)[x] >= 2 ==> x in WithoutFirst(s, x) && x !in WithoutAll(s, x)
  {
    WithoutAllCount(s, x);
    if x !in s {
      WithoutAllAbsent(s, x);
    } else {
      WithoutFirstCount(s, x);
      if multiset(s)[x] <= 1 {
        SingleCopySplice(s, x);
      } else {
        assert multiset(WithoutFirst(s, x))[x] >= 1;
      }
    }
  }

  /** With exactly one copy, splicing it out and filtering it out give the same list. */
  lemma SingleCopySplice(s: seq<Callback>, x: Callback)
    requires x in s && multiset(s)[x] <= 1
    ensures WithoutFirst(s, x) == WithoutAll(s, x)
  {
    var i := IndexOf(s, x);
    var pre, post := s[..i], s[i + 1..];
    assert s == pre + [x] + post;
    OnlyCopyIsAt(pre, x, post);
    FilterSingleCopy(pre, x, post);
  }

  /** Filtering out a callback's only copy leaves the callbacks around it. */
  lemma FilterSingleCopy(pre: seq<Callback>, x: Callback, post: seq<Callback>)
    requires x !in pre && x !in post
    ensures WithoutAll(pre + [x] + post, x) == pre + post
  {
    assert WithoutAll([x], x) == [] by {
      assert [x][1..] == [];
    }
    calc {
      WithoutAll(pre + [x] + post, x);
    == { WithoutAllAppend(pre + [x], post, x); }
      WithoutAll(pre + [x], x) + WithoutAll(post, x);
    == { WithoutAllAppend(pre, [x], x); }
      WithoutAll(pre, x) + WithoutAll([x], x) + WithoutAll(post, x);
    == { WithoutAllAbsent(pre, x); WithoutAllAbsent(post, x); }
      pre + [] + post;
    == { assert pre + [] == pre; }
      pre + post;
    }
  }

  /** A list holding a single copy of `x` has none after that copy. */
  lemma OnlyCopyIsAt(pre: seq<Callback>, x: Callback, post: seq<Callback>)
    requires multiset(pre + [x] + post)[x] <= 1
    ensures x !in post
  {
    assert multiset(pre + [x] + post) == multiset(pre) + multiset{x} + multiset(post);
  }

  // ---------------------------------------------------------------- dispatch

  /**
   * `emit`: every callback of the list is called once, in list order, whether or not
   * earlier callbacks threw.
   */
  function Deliveries(cbs: seq<Callback>, t: string, p: Payload, fails: Behaviour): (r: seq<Call>)
    ensures |r| == |cbs|
    ensures forall i :: 0 <= i < |cbs| ==> r[i] == Call(cbs[i], t, p, fails(cbs[i], p))
    decreases |cbs|
  {
    if cbs == [] then [] else [Call(cbs[0], t, p, fails(cbs[0], p))] + Deliveries(cbs[1..], t, p, fails)
  }

  /** Which callbacks were reached does not depend on which of them threw. */
  lemma DeliveriesIgnoreThrows(cbs: seq<Callback>, t: string, p: Payload, fails: Behaviour, fails': Behaviour)
    ensures |Deliveries(cbs, t, p, fails)| == |Deliveries(cbs, t, p, fails')|
    ensures forall i :: 0 <= i < |cbs| ==>
      Deliveries(cbs, t, p, fails)[i].callback == Deliveries(cbs, t, p, fails')[i].callback == cbs[i]
  {
  }

  /** Dispatching one more callback appends one more call. */
  lemma DeliveriesSnoc(cbs: seq<Callback>, cb: Callback, t: string, p: Payload, fails: Behaviour)
    ensures Deliveries(cbs + [cb], t, p, fails) == Deliveries(cbs, t, p, fails) + [Call(cb, t, p, fails(cb, p))]
  {
  }

  /** A callback not in the list is never invoked. */
  lemma NotListedNotCalled(cbs: seq<Callback>, cb: Callback, t: string, p: Payload, fails: Behaviour)
    requires cb !in cbs
    ensures forall c :: c in Deliveries(cbs, t, p, fails) ==> c.callback != cb
  {
  }

  /** `emit(t, p)` on a client. */
  function Emitted(s: State, t: string, p: Payload, fails: Behaviour): State {
    s.(delivered := s.delivered + Deliveries(ListenersOf(s.listeners, t), t, p, fails))
  }

  // ---------------------------------------------------------------- reconnect machine

  /** The delay before reconnect attempt number `attempt`. */
  function Delay(b: Backoff, attempt: nat): nat {
    match b
    case Linear(d) => d * attempt
    case Fixed(d) => d
  }

  /** What one call of `handleReconnect` does about the retry. */
  datatype Outcome = Scheduled(delay: nat) | GaveUp

  datatype Transition = Transition(attempts: nat, outcome: Outcome)

  /** `handleReconnect`'s counter: below the bound count one more attempt and schedule it; at the bound give up. */
  function Step(cfg: Config, attempts: nat): (t: Transition)
    ensures attempts <= cfg.maxAttempts ==> t.attempts <= cfg.maxAttempts
    ensures t.outcome.GaveUp? <==> attempts >= cfg.maxAttempts
    ensures t.outcome.Scheduled? ==> t.attempts == attempts + 1 && t.outcome.delay == Delay(cfg.backoff, attempts + 1)
    ensures t.outcome.GaveUp? ==> t.attempts == attempts
  {
    if attempts < cfg.maxAttempts then Transition(attempts + 1, Scheduled(Delay(cfg.backoff, attempts + 1)))
    else Transition(attempts, GaveUp)
  }

  /** The outcomes of `n` consecutive `handleReconnect` calls with no successful open in between. */
  function Run(cfg: Config, attempts: nat, n: nat): seq<Outcome>
    decreases n
  {
    if n == 0 then []
    else
      var t := Step(cfg, attempts);
      [t.outcome] + Run(cfg, t.attempts, n - 1)
  }

  /**
   * Starting from `a` attempts, consecutive failures first schedule the remaining
   * `max - a` retries with delays for attempts a+1, a+2, ..., then give up on every
   * further failure.
   */
  lemma {:induction false} RunShape(cfg: Config, a: nat, n: nat)
    requires a <= cfg.maxAttempts
    ensures |Run(cfg, a, n)| == n
    ensures forall k :: 0 <= k < n ==>
      Run(cfg, a, n)[k] == if a + k < cfg.maxAttempts then Scheduled(Delay(cfg.backoff, a + k + 1)) else GaveUp
    decreases n
  {
    if n > 0 {
      var t := Step(cfg, a);
      RunShape(cfg, t.attempts, n - 1);
      forall k | 0 <= k < n
        ensures Run(cfg, a, n)[k] == if a + k < cfg.maxAttempts then Scheduled(Delay(cfg.backoff, a + k + 1)) else GaveUp
      {
        if k > 0 {
          assert Run(cfg, a, n)[k] == Run(cfg, t.attempts, n - 1)[k - 1];
        }
      }
    }
  }

  /** From a fresh counter, `max` failures are all retried and the next one is the single give-up. */
  lemma RunFromZero(cfg: Config)
    ensures var r := Run(cfg, 0, cfg.maxAttempts + 1);
      && |r| == cfg.maxAttempts + 1
      && (forall k :: 0 <= k < cfg.maxAttempts ==> r[k] == Scheduled(Delay(cfg.backoff, k + 1)))
      && r[cfg.maxAttempts] == GaveUp
  {
    RunShape(cfg, 0, cfg.maxAttempts + 1);
  }

  /** Total waiting time of the first `n` retries. */
  function TotalDelay(b: Backoff, n: nat): nat {
    if n == 0 then 0 else TotalDelay(b, n - 1) + Delay(b, n)
  }

  /** With linear backoff the whole retry chain waits `delay * n * (n + 1) / 2`; with a fixed delay `delay * n`. */
  lemma {:induction false} TotalDelayClosedForm(b: Backoff, n: nat)
    ensures b.Linear? ==> 2 * TotalDelay(b, n) == b.baseDelay * n * (n + 1)
    ensures b.Fixed? ==> TotalDelay(b, n) == b.delay * n
  {
    if n > 0 {
      TotalDelayClosedForm(b, n - 1);
      if b.Linear? {
        LinearSumStep(b.baseDelay, n);
      }
    }
  }

  lemma LinearSumStep(d: nat, n: nat)
    requires n > 0
    ensures d * (n - 1) * n + 2 * (d * n) == d * n * (n + 1)
  {
    calc {
      d * (n - 1) * n + 2 * (d * n);
      d * n * (n - 1) + d * n * 2;
      d * n * (n - 1 + 2);
    }
  }

  /** The payload `{ attempts: n }`. */
  function AttemptsPayload(n: nat): (p: Payload)
    ensures p.Data? && Field(p.value, "attempts") == Some(JNum(n))
  {
    Data(JObj(map["attempts" := JNum(n)]))
  }

  /** `handleReconnect` on a client: schedule the next `connect`, or give up as configured. */
  function AfterReconnect(cfg: Config, s: State, fails: Behaviour): State {
    var t := Step(cfg, s.reconnectAttempts);
    match t.outcome
    case Scheduled(d) => s.(reconnectAttempts := t.attempts, pending := s.pending + [d])
    case GaveUp =>
      match cfg.giveUp
      case Silent => s
      case Announce(e) => Emitted(s, e, NoPayload, fails)
      case AnnounceAttempts(e) => Emitted(s, e, AttemptsPayload(s.reconnectAttempts), fails)
  }

  /**
   * `handleReconnect` never lets the counter pass the bound. Below it, the counter goes up
   * by one and one timer is scheduled with the backoff for the new count; at it, nothing is
   * scheduled and only the give-up event (if any) reaches the subscribers.
   */
  lemma ReconnectBounded(cfg: Config, s: State, fails: Behaviour)
    requires Wf(cfg, s)
    ensures Wf(cfg, AfterReconnect(cfg, s, fails))
    ensures var s' := AfterReconnect(cfg, s, fails);
      && s'.listeners == s.listeners && s'.isConnected == s.isConnected
      && s'.urls == s.urls && s'.source == s.source && s'.live == s.live
      && (s.reconnectAttempts < cfg.maxAttempts ==>
            s'.reconnectAttempts == s.reconnectAttempts + 1
            && s'.pending == s.pending + [Delay(cfg.backoff, s'.reconnectAttempts)]
            && s'.delivered == s.delivered)
      && (s.reconnectAttempts == cfg.maxAttempts ==>
            s'.reconnectAttempts == s.reconnectAttempts && s'.pending == s.pending
            && s'.delivered == s.delivered + match cfg.giveUp
                 case Silent => []
                 case Announce(e) => Deliveries(ListenersOf(s.listeners, e), e, NoPayload, fails)
                 case AnnounceAttempts(e) =>
                   Deliveries(ListenersOf(s.listeners, e), e, AttemptsPayload(cfg.maxAttempts), fails))
  {
  }

  // ---------------------------------------------------------------- transport handle

  /** `this.eventSource = new EventSource(url)`: a new live transport becomes the held one. */
  function Opened(s: State, url: string): State {
    s.(urls := s.urls + [url], source := Some(|s.urls|), live := s.live + {|s.urls|})
  }

  /** `this.eventSource.close()` on the held transport (the reference is kept). */
  function Closed(s: State): State {
    if s.source.Some? then s.(live := s.live - {s.source.value}) else s
  }

  /** `this.eventSource = null`. */
  function Released(s: State): State {
    s.(source := None)
  }

  /**
   * `disconnect()` of the classes that keep a connection flag: close and drop the held
   * transport and clear the flag; listeners, attempts and timers stay.
   */
  function Dropped(s: State): State {
    if s.source.Some? then Released(Closed(s)).(isConnected := false) else s
  }

  /**
   * Dropping is idempotent and, for a client that is connected only while it holds a
   * transport and keeps no other transport open, leaves nothing open and the flag down.
   * It keeps the listeners and the attempt counter and does not cancel scheduled timers.
   */
  lemma DroppedFacts(s: State)
    requires (s.isConnected ==> s.source.Some?) && s.live <= Held(s)
    ensures Dropped(Dropped(s)) == Dropped(s)
    ensures var s' := Dropped(s);
      && !s'.isConnected && s'.source.None? && s'.live == {}
      && s'.listeners == s.listeners && s'.reconnectAttempts == s.reconnectAttempts
      && s'.pending == s.pending && s'.delivered == s.delivered && s'.urls == s.urls
  {
  }

  /** The browser fires the reconnect timer at `pending[i]`; it is no longer pending. */
  function TimerTaken(s: State, i: nat): State
    requires i < |s.pending|
  {
    s.(pending := s.pending[..i] + s.pending[i + 1..])
  }

  /** What `getConnectionStatus` reports. */
  datatype ConnectionStatus = ConnectionStatus(isConnected: bool, reconnectAttempts: nat, maxReconnectAttempts: nat)
}
