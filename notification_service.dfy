/**
 * src/services/notificationService.js: the browser-notification lookup tables of
 * `notificationService`, and its own `RealTimeUpdates` class, which reads typed
 * messages from the unnamed SSE channel, hands them to the listeners of their `type`
 * and then runs a default action. It reconnects up to 5 times after a fixed 5000 ms,
 * gives up silently, and `disconnect` also forgets every listener.
 */
module NotificationService {
  import opened Wrappers
  import opened JsonValues
  import opened EventStream
  import opened StreamClient

  // ---------------------------------------------------------------- notification tables

  /** What `new Notification(title, options)` would be given. */
  datatype Notice = Notice(title: string, options: map<string, string>)

  /** What a `show...Notification` call ends in: nothing shown, a notification, or a `TypeError`. */
  datatype Shown = NotShown | Shown(notice: Notice) | Threw

  /** The product fields the table reads; "" is a missing or falsy `imageUrl`. */
  datatype Product = Product(id: string, title: string, imageUrl: string)

  const DefaultProductImage := "/images/default-product.svg"

  /** `showNotification` puts the caller's options over these defaults. */
  const NoticeDefaults: map<string, string> := map["icon" := "/favicon.ico", "badge" := "/badge-icon.png", "tag" := "mini-carrot"]

  /** `showNotification(title, options)` once permission is granted. */
  function Show(title: string, options: map<string, string>): (r: Shown)
    ensures r.Shown? && r.notice.title == title
    ensures forall k :: k in options ==> k in r.notice.options && r.notice.options[k] == options[k]
    ensures forall k :: k !in options ==> (k in r.notice.options <==> k in NoticeDefaults)
    ensures forall k :: k !in options && k in NoticeDefaults ==> r.notice.options[k] == NoticeDefaults[k]
  {
    Shown(Notice(title, NoticeDefaults + options))
  }

  /**
   * `showProductNotification(type, product)`. The whole table is built before the
   * lookup, so a missing product throws whatever the type; `priceText` is the
   * formatted price.
   */
  function ProductNotification(kind: string, product: Option<Product>, priceText: string): Shown {
    match product
    case None => Threw
    case Some(p) =>
      var icon := if p.imageUrl != "" then p.imageUrl else DefaultProductImage;
      if kind == "new_product" then
        Show("🆕 새로운 상품이 등록되었어요!", map["body" := p.title + " - " + priceText + "원", "icon" := icon, "url" := "/products/" + p.id])
      else if kind == "price_change" then
        Show("💰 가격이 변경되었습니다", map["body" := p.title + " - " + priceText + "원", "icon" := icon, "url" := "/products/" + p.id])
      else if kind == "sold_out" then
        Show("🔥 상품이 판매되었습니다!", map["body" := "축하합니다! \"" + p.title + "\"이 판매되었어요.", "icon" := icon, "url" := "/mypage"])
      else NotShown
  }

  /** Product notifications link to the product page, or to the dashboard when sold; other types show nothing. */
  lemma ProductNotificationRoutes(kind: string, p: Product, priceText: string)
    ensures var r := ProductNotification(kind, Some(p), priceText);
      && (kind in {"new_product", "price_change"} ==> r.Shown? && r.notice.options["url"] == "/products/" + p.id)
      && (kind == "sold_out" ==> r.Shown? && r.notice.options["url"] == "/mypage")
      && (kind !in {"new_product", "price_change", "sold_out"} ==> r == NotShown)
      && (r.Shown? ==> r.notice.options["icon"] == if p.imageUrl != "" then p.imageUrl else DefaultProductImage)
  {
  }

  /** Without a product every call throws, even for a type that has no entry. */
  lemma ProductNotificationNeedsProduct(kind: string, priceText: string)
    ensures ProductNotification(kind, None, priceText) == Threw
  {
  }

  /** `showUserNotification(type, data)`: the table's body and url, overridden by anything in `data`. */
  function UserNotification(kind: string, data: map<string, string>): Shown {
    if kind == "welcome" then
      Show("🎉 미니 당근에 오신 것을 환영합니다!", map["body" := "첫 상품을 등록해보세요.", "url" := "/products/create"] + data)
    else if kind == "profile_updated" then
      Show("✅ 프로필이 업데이트되었습니다", map["body" := "프로필 변경사항이 저장되었어요.", "url" := "/mypage"] + data)
    else if kind == "password_changed" then
      Show("🔒 비밀번호가 변경되었습니다", map["body" := "계정 보안이 업데이트되었어요.", "url" := "/mypage"] + data)
    else NotShown
  }

  /** Unknown types show nothing; for the three known ones every field of `data` wins over the table. */
  lemma UserNotificationOverrides(kind: string, data: map<string, string>)
    ensures var r := UserNotification(kind, data);
      && (kind !in {"welcome", "profile_updated", "password_changed"} ==> r == NotShown)
      && (kind in {"welcome", "profile_updated", "password_changed"} ==>
            r.Shown? && "body" in r.notice.options && "url" in r.notice.options
            && forall k :: k in data ==> r.notice.options[k] == data[k])
      && (kind == "welcome" && "url" !in data ==> r.notice.options["url"] == "/products/create")
  {
  }

  // ---------------------------------------------------------------- handleMessage

  /** What `handleMessage` does after the listeners: `updateViewCount`, a product notification, or nothing. */
  datatype DefaultAction =
    | NoAction
    | UpdateViewCount(productId: Option<Json>, newCount: Option<Json>)
    | ProductNotice(kind: string, product: Option<Json>)

  /** The `switch (type)` of `handleMessage`, applied to the rest of the message. */
  function DefaultActionFor(t: string, payload: Json): DefaultAction {
    if t == "VIEW_COUNT_UPDATE" then UpdateViewCount(Field(payload, "productId"), Field(payload, "newCount"))
    else if t == "NEW_PRODUCT" then ProductNotice("new_product", Field(payload, "product"))
    else if t == "PRICE_CHANGE" then ProductNotice("price_change", Field(payload, "product"))
    else if t == "PRODUCT_SOLD" then ProductNotice("sold_out", Field(payload, "product"))
    else NoAction
  }

  datatype Handled = Handled(state: State, action: DefaultAction)

  /**
   * `handleMessage(data)`: `const {type, ...payload} = data`, deliver `payload` to the
   * listeners of `type`, then the default action. Only an object whose `type` is a
   * string can match a listener or a case; destructuring `null` throws before either.
   */
  function HandledMessage(s: State, data: Json, fails: Behaviour): Handled {
    if data.JObj? && "type" in data.fields && data.fields["type"].JStr? then
      var t := data.fields["type"].s;
      var payload := JObj(data.fields - {"type"});
      Handled(Emitted(s, t, Data(payload), fails), DefaultActionFor(t, payload))
    else Handled(s, NoAction)
  }

  /** `onmessage`: a message that does not parse is logged and goes nowhere. */
  function AfterMessage(s: State, parse: Parse, fails: Behaviour): Handled {
    match parse
    case Parsed(v) => HandledMessage(s, v, fails)
    case SyntaxError(_) => Handled(s, NoAction)
  }

  /**
   * The listeners of the message's type receive, in order, the message without its
   * `type` field and with every other field; then the type picks the default action.
   */
  lemma MessageDispatch(s: State, fields: map<string, Json>, t: string, fails: Behaviour)
    requires "type" in fields && fields["type"] == JStr(t)
    ensures var h := HandledMessage(s, JObj(fields), fails);
      var payload := JObj(fields - {"type"});
      && "type" !in payload.fields
      && (forall k :: k in fields && k != "type" ==> k in payload.fields && payload.fields[k] == fields[k])
      && h.state == s.(delivered := s.delivered + Deliveries(ListenersOf(s.listeners, t), t, Data(payload), fails))
      && (t == "VIEW_COUNT_UPDATE" <==> h.action.UpdateViewCount?)
      && (t == "NEW_PRODUCT" <==> h.action == ProductNotice("new_product", Field(payload, "product")))
      && (t == "PRICE_CHANGE" <==> h.action == ProductNotice("price_change", Field(payload, "product")))
      && (t == "PRODUCT_SOLD" <==> h.action == ProductNotice("sold_out", Field(payload, "product")))
      && (t !in {"VIEW_COUNT_UPDATE", "NEW_PRODUCT", "PRICE_CHANGE", "PRODUCT_SOLD"} <==> h.action == NoAction)
  {
  }

  /** A message that does not parse, or has no string `type`, reaches no listener and triggers nothing. */
  lemma UntypedMessageIgnored(s: State, parse: Parse, fails: Behaviour)
    requires parse.SyntaxError? || !(parse.value.JObj? && "type" in parse.value.fields && parse.value.fields["type"].JStr?)
    ensures AfterMessage(s, parse, fails) == Handled(s, NoAction)
  {
  }

  // ---------------------------------------------------------------- the client as transitions

  const Cfg := Config(5, Fixed(5000), Silent, FirstOccurrence)

  const StreamUrl := "/api/analytics/stream"

  /** This class has no connection flag, so the engine's stays down. */
  ghost predicate Inv(s: State) {
    Wf(Cfg, s) && s.live <= Held(s) && !s.isConnected
  }

  /** `connect()`: close the held transport (the reference is then overwritten), open the stream. */
  function AfterConnect(s: State, openThrows: bool, fails: Behaviour): State {
    var s1 := Closed(s);
    if openThrows then AfterReconnect(Cfg, s1, fails) else Opened(s1, StreamUrl)
  }

  /** `onopen` only resets the attempts. */
  function AfterOpen(s: State): State {
    s.(reconnectAttempts := 0)
  }

  /** `onerror` goes straight to `handleReconnect`. */
  function AfterError(s: State, fails: Behaviour): State {
    AfterReconnect(Cfg, s, fails)
  }

  /** `disconnect()`: close and drop the transport if any, then `listeners.clear()`. */
  function AfterDisconnect(s: State): State {
    (if s.source.Some? then Released(Closed(s)) else s).(listeners := map[])
  }

  function AfterTimer(s: State, i: nat, openThrows: bool, fails: Behaviour): State
    requires i < |s.pending|
  {
    AfterConnect(TimerTaken(s, i), openThrows, fails)
  }

  /** Every retry waits the same 5000 ms; the sixth consecutive failure gives up. */
  lemma RetrySchedule()
    ensures var r := Run(Cfg, 0, 6);
      && |r| == 6
      && (forall k :: 0 <= k < 5 ==> r[k] == Scheduled(5000))
      && r[5] == GaveUp
  {
    RunFromZero(Cfg);
  }

  /** `onerror` keeps the attempts within 5, schedules a fixed 5000 ms retry, and never tells anybody. */
  lemma ErrorThenReconnect(s: State, fails: Behaviour)
    requires Inv(s)
    ensures var s' := AfterError(s, fails);
      && Inv(s') && s'.delivered == s.delivered && s'.listeners == s.listeners
      && (s.reconnectAttempts < 5 ==>
            s'.reconnectAttempts == s.reconnectAttempts + 1 && s'.pending == s.pending + [5000])
      && (s.reconnectAttempts == 5 ==> s' == s)
  {
    ReconnectBounded(Cfg, s, fails);
  }

  /** `connect` leaves only the new transport open. */
  lemma ConnectReplacesSource(s: State, fails: Behaviour)
    requires Inv(s)
    ensures var s' := AfterConnect(s, false, fails);
      && s'.source == Some(|s.urls|) && s'.live == {|s.urls|} && s'.urls == s.urls + [StreamUrl]
      && s'.listeners == s.listeners && s'.reconnectAttempts == s.reconnectAttempts
  {
  }

  /** `disconnect` drops the transport and every listener but keeps attempts and timers. */
  lemma DisconnectClears(s: State)
    requires Inv(s)
    ensures var s' := AfterDisconnect(s);
      && s'.source.None? && s'.live == {} && s'.listeners == map[]
      && s'.reconnectAttempts == s.reconnectAttempts && s'.pending == s.pending
      && AfterDisconnect(s') == s'
  {
  }

  lemma KeepsInv(s: State, openThrows: bool, fails: Behaviour)
    requires Inv(s)
    ensures Inv(AfterConnect(s, openThrows, fails)) && Inv(AfterOpen(s))
    ensures Inv(AfterError(s, fails)) && Inv(AfterDisconnect(s))
  {
    ReconnectBounded(Cfg, s, fails);
    ReconnectBounded(Cfg, Closed(s), fails);
  }

  // ---------------------------------------------------------------- the class

  class RealTimeUpdates {
    const engine: Engine

    ghost predicate Valid()
      reads engine
    {
      engine.cfg == Cfg && Inv(engine.State())
    }

    constructor ()
      ensures Valid() && fresh(engine) && engine.State() == Initial
    {
      engine := new Engine(Cfg);
    }

    method Connect(openThrows: bool, fails: Behaviour)
      requires Valid()
      modifies engine
      ensures Valid() && engine.State() == AfterConnect(old(engine.State()), openThrows, fails)
    {
      KeepsInv(engine.State(), openThrows, fails);
      if engine.source.Some? {
        engine.Close();
      }
      if openThrows {
        engine.HandleReconnect(fails);
      } else {
        engine.Open(StreamUrl);
      }
    }

    method OnOpen()
      requires Valid() && Firing(engine.State())
      modifies engine
      ensures Valid() && engine.State() == AfterOpen(old(engine.State()))
    {
      engine.ResetAttempts();
    }

    /** `onmessage`; returns the default action `handleMessage` took. */
    method OnMessage(parse: Parse, fails: Behaviour) returns (action: DefaultAction)
      requires Valid() && Firing(engine.State())
      modifies engine
      ensures Valid() && Handled(engine.State(), action) == AfterMessage(old(engine.State()), parse, fails)
    {
      if parse.SyntaxError? {
        return NoAction;
      }
      action := HandleMessage(parse.value, fails);
    }

    method HandleMessage(data: Json, fails: Behaviour) returns (action: DefaultAction)
      requires Valid()
      modifies engine
      ensures Valid() && Handled(engine.State(), action) == HandledMessage(old(engine.State()), data, fails)
    {
      if data.JObj? && "type" in data.fields && data.fields["type"].JStr? {
        var t := data.fields["type"].s;
        var payload := JObj(data.fields - {"type"});
        engine.Emit(t, Data(payload), fails);
        action := DefaultActionFor(t, payload);
      } else {
        action := NoAction;
      }
    }

    method OnError(fails: Behaviour)
      requires Valid()
      modifies engine
      ensures Valid() && engine.State() == AfterError(old(engine.State()), fails)
    {
      KeepsInv(engine.State(), false, fails);
      engine.HandleReconnect(fails);
    }

    method OnReconnectTimer(i: nat, openThrows: bool, fails: Behaviour)
      requires Valid() && i < |engine.pending|
      modifies engine
      ensures Valid() && engine.State() == AfterTimer(old(engine.State()), i, openThrows, fails)
    {
      engine.TakeTimer(i);
      Connect(openThrows, fails);
    }

    method Disconnect()
      requires Valid()
      modifies engine
      ensures Valid() && engine.State() == AfterDisconnect(old(engine.State()))
    {
      if engine.source.Some? {
        engine.Close();
        engine.Release();
      }
      engine.ClearListeners();
    }

    method AddEventListener(eventType: string, cb: Callback)
      requires Valid()
      modifies engine
      ensures Valid() && engine.State() == old(engine.State()).(listeners := Registered(old(engine.listeners), eventType, cb))
    {
      engine.AddEventListener(eventType, cb);
    }

    /** `listeners.get(type) || []`, then `indexOf` + `splice`. */
    method RemoveEventListener(eventType: string, cb: Callback)
      requires Valid()
      modifies engine
      ensures Valid()
      ensures engine.State() == old(engine.State()).(listeners := Unregistered(FirstOccurrence, old(engine.listeners), eventType, cb))
    {
      engine.RemoveEventListener(eventType, cb);
    }
  }
}
