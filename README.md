# Mini Carrot Market frontend: the real-time client layer in Dafny

This project models the client logic of the Mini Carrot Market web frontend in Dafny, and proves
properties of that model. Its centre is the four hand-written Server-Sent-Events clients:

- `UserNotificationSSE` (the per-user notification stream);
- the `RealTimeUpdates` component (the analytics dashboard stream);
- the `RealTimeUpdates` class of the notification service (typed messages and browser notifications);
- `ProductStreamSSE` (the product stream).

Around it sit the small pure rules of the same code base:

- the defensive JSON decode;
- the search-category mapping;
- the message dispatch and notification tables;
- the header, error and body rules of the REST helper;
- the `AnalyticsTracker` batch queue;
- the product card's status rules and delete flow;
- the admin page's search, delete, list-selection and paging rules.

## How it is organised

- `common.dfy`:
  - `Wrappers`: `Option`;
  - `Strings`: `startsWith`, `includes`, `trim`-blankness, decimal rendering;
  - `JsonValues`: parsed JSON values and the outcome of `JSON.parse`.
- `event_stream.dfy`, module `EventStream`: the machine shared by the four SSE clients, as values.
  - **Configuration.** It is one parameterised machine. Each class is a `Config`: attempt bound,
    linear or fixed backoff, give-up behaviour (silent, an event, or an event carrying
    `{attempts}`), and removal policy (`indexOf`+`splice` or `filter`).
  - **State.** The listener registry; the log of every subscriber call; the connection flag; the
    attempt counter; the transports opened so far, the one held, and those still open; and the
    delays of the reconnect timers not yet fired.
- `stream_client.dfy`, module `StreamClient`: class `Engine`, which holds the same state in
  mutable fields.
  - Each method performs one statement group of the JavaScript classes, such as `push`,
    `splice`/`filter`, the `forEach` of `emit` (a loop), `handleReconnect`, `close` or
    `= null`. Each one is proved equal to the pure transition of `EventStream`.
- `user_notification.dfy`, `realtime_updates.dfy`, `notification_service.dfy` and
  `analytics_service.dfy`: one module per source file.
  - Each SSE class is a class owning an `Engine`, with one method per handler (`connect`,
    `onopen`, `onerror`, message handlers, timer firing, `disconnect`, listener API).
  - Each method is proved against a pure transition function of the module (`AfterConnect`,
    `AfterError`, ...). It keeps the class invariant (`Valid`).
  - The lemmas beside it state each class's behaviour and how it differs from the others.
- `api.dfy`, `my_product_card.dfy` and `user_management.dfy`: one module per source file.
  - `MyProductCardState`, `UserManagementPage` and `AnalyticsTracker` are classes whose fields
    are the component's state cells. Each handler is proved against a pure function on a record
    of those fields.

## Modelling conventions

- **Transport.** A transport is abstract: opening one gives it the next index. The browser's
  callbacks (`onopen`, `onerror`, named or unnamed messages) are method calls. The `onopen`
  and message callbacks require that the held transport is still open. `onerror` may also
  arrive for a transport that has already closed, so only `ProductStreamSSE`, whose
  handler reads that transport's `readyState`, requires it there.
- **Parsing and callbacks.** `JSON.parse` is an outcome handed in: a value or a syntax error.
  Whether a subscriber throws is a function handed in. `emit` catches every throw, so each call
  lands in the log either way.
- **Timers.** `setTimeout(connect, d)` appends `d` to the pending timers. A timer fires when its
  entry is taken and `connect` runs.
- **Falsy strings.** The empty string stands for a missing or falsy string value (`!userId`,
  `!imagePath`, a missing token).

## Where the code and the design disagree

The model follows the code. In each of these cases the code does something other than what the
design of the stream client calls for:

- **Pending timers.** No `disconnect` cancels a pending reconnect timer. A timer scheduled before
  `disconnect` still fires, and it opens a new transport (`UserNotification.StaleTimerReopens`).
- **Attempt counter.** `disconnect` resets the counter only in `ProductStreamSSE`. The other three
  classes keep it.
- **Listener lists.** `disconnect` clears the listener lists in the notification service's
  `RealTimeUpdates` and in `ProductStreamSSE`. The other two keep them.
- **Second transport.** `ProductStreamSSE.connect` does not close the source it holds, so a second
  `connect` leaves two transports open (`AnalyticsService.ConnectLeaksSource`).
- **Give-up.** Giving up closes nothing. It only emits the give-up event, or stays silent.

## Model

| member | source | states |
|---|---|---|
| EventStream.Registered | src/services/userNotificationService.js:156-161 | the callback goes at the end of its type's list, duplicates are kept, and every other type's list is unchanged |
| EventStream.IndexOf | src/services/userNotificationService.js:167 | `indexOf`: -1 exactly when the callback is absent, otherwise a position holding it with no earlier copy |
| EventStream.WithoutFirst | src/services/userNotificationService.js:164-172 | `indexOf` then `splice(index, 1)`; stated by `WithoutFirstCount` and `FirstVersusEvery` |
| EventStream.WithoutAll | src/services/analyticsService.js:194-198 | `filter(cb => cb !== callback)`; stated by `WithoutAllCount`, `WithoutAllAbsent` and `WithoutAllAppend` |
| EventStream.Unregistered | src/services/notificationService.js:210-216 | `removeEventListener` under the class's removal policy; stated by `UnregisteredAbsent` and the removal lemmas |
| EventStream.UnregisteredAbsent | src/services/notificationService.js:210-216 | removing an absent callback, or from a type with no list, changes nothing; other types are never touched |
| EventStream.WithoutFirstCount | src/services/userNotificationService.js:164-172 | `indexOf`+`splice` takes away exactly one copy of the callback and nothing else |
| EventStream.WithoutAllCount | src/services/analyticsService.js:194-198 | `filter` leaves no copy of the callback and every other callback as often as before |
| EventStream.WithoutAllAbsent | src/services/analyticsService.js:196 | filtering a list without the callback returns it unchanged |
| EventStream.WithoutAllAppend | src/services/analyticsService.js:196 | filtering keeps the remaining callbacks in order (it distributes over concatenation) |
| EventStream.FirstVersusEvery | src/components/RealTimeUpdates.js:91-99 | splice and filter agree exactly when the callback is registered at most once; with two copies, splice leaves one behind |
| EventStream.SingleCopySplice | src/components/RealTimeUpdates.js:94-97 | with a single copy, splicing it out equals filtering it out |
| EventStream.Deliveries | src/services/userNotificationService.js:175-185 | `emit` calls every registered callback exactly once, in list order, with the same type and payload, whether or not earlier ones threw |
| EventStream.DeliveriesIgnoreThrows | src/services/userNotificationService.js:177-183 | which callbacks are reached does not depend on which of them throw |
| EventStream.DeliveriesSnoc | src/components/RealTimeUpdates.js:103-109 | dispatching one more callback appends exactly one more call |
| EventStream.NotListedNotCalled | src/components/RealTimeUpdates.js:101-111 | a callback not in the list is never invoked |
| EventStream.Emitted | src/services/userNotificationService.js:175-185 | `emit`: appends the `Deliveries` of the type's list to the call log; the `Engine.Emit` loop is proved equal to it |
| EventStream.Delay | src/services/userNotificationService.js:113 | the backoff `reconnectDelay * reconnectAttempts`, or the fixed `reconnectDelay` of the notification service (notificationService.js:195); stated by `Step` and `TotalDelayClosedForm` |
| EventStream.Step | src/services/userNotificationService.js:106-118 | below the bound the counter goes up by one and a retry is scheduled with the backoff for the new count; at the bound it gives up and the counter stays |
| EventStream.RunShape | src/components/RealTimeUpdates.js:62-74 | consecutive failures from `a` attempts schedule the remaining retries with delays for attempts a+1, a+2, ..., then give up on every further failure |
| EventStream.RunFromZero | src/services/analyticsService.js:212-224 | from a fresh counter exactly `max` failures are retried and the next one gives up |
| EventStream.TotalDelayClosedForm | src/components/RealTimeUpdates.js:67-69 | the whole retry chain waits `d*n*(n+1)/2` ms with linear backoff, `d*n` with a fixed delay |
| EventStream.AttemptsPayload | src/services/analyticsService.js:222 | the give-up payload is an object whose `attempts` is the count |
| EventStream.ReconnectBounded | src/services/userNotificationService.js:106-118 | `handleReconnect` keeps attempts within the bound; below it one timer is scheduled and nobody is told; at it nothing is scheduled and only the give-up event is delivered |
| EventStream.AfterReconnect | src/services/userNotificationService.js:106-118 | `handleReconnect`; stated by `ReconnectBounded` and the per-class `RetrySchedule` lemmas |
| EventStream.Opened | src/services/userNotificationService.js:33 | `new EventSource(url)` held by the client; proved open and held by the `ConnectReplacesSource` lemmas |
| EventStream.Closed | src/services/userNotificationService.js:148 | `eventSource.close()` |
| EventStream.Released | src/services/userNotificationService.js:149 | `eventSource = null` |
| EventStream.Dropped | src/services/userNotificationService.js:146-153 | `disconnect`; stated by `DroppedFacts` |
| EventStream.TimerTaken | src/services/userNotificationService.js:111-113 | a pending `setTimeout` fires and leaves the pending set; used by every `OnReconnectTimer` |
| EventStream.DroppedFacts | src/services/userNotificationService.js:146-153 | `disconnect` is idempotent, lowers the flag, closes and forgets the transport, and keeps listeners, attempts and pending timers |
| StreamClient.Engine.constructor | src/services/userNotificationService.js:7-14 | a new client has no listeners, no transport, attempts 0 and the flag down |
| StreamClient.Engine.AddEventListener | src/services/userNotificationService.js:156-161 | the fields afterwards are the registry with the callback appended |
| StreamClient.Engine.RemoveEventListener | src/services/analyticsService.js:194-198 | the fields afterwards are the registry with the callback removed under the class's policy |
| StreamClient.Engine.Emit | src/services/userNotificationService.js:175-185 | the loop over the callbacks appends exactly the calls of `emit` to the log and changes nothing else |
| StreamClient.Engine.HandleReconnect | src/services/notificationService.js:188-199 | the fields afterwards are the reconnect transition of the class's configuration |
| StreamClient.Engine.Open | src/services/userNotificationService.js:33 | a new open transport becomes the held one |
| StreamClient.Engine.Close | src/services/userNotificationService.js:148 | the held transport is no longer open |
| StreamClient.Engine.Release | src/services/userNotificationService.js:149 | the client no longer holds a transport |
| StreamClient.Engine.SetConnected | src/services/userNotificationService.js:95 | only the connection flag changes, to the given value |
| StreamClient.Engine.ResetAttempts | src/services/userNotificationService.js:41 | only the attempt counter changes, to 0 |
| StreamClient.Engine.ClearListeners | src/services/notificationService.js:236 | the registry is empty |
| StreamClient.Engine.TakeTimer | src/services/userNotificationService.js:111-113 | the fired timer is no longer pending |
| StreamClient.Engine.GetConnectionStatus | src/components/RealTimeUpdates.js:113-119 | the flag and the counter as they are now, the configured bound, and the counter never above the bound whenever the client is well formed |
| UserNotification.Subject | src/services/userNotificationService.js:18-22 | the stream subject is `userId`, else `id`, and missing exactly when there is no user or both are falsy |
| UserNotification.SafeParseJson | src/services/userNotificationService.js:121-143 | never fails: objects pass through, text starting with `{` or `[` that parses gives the parsed value, and other values, plain text and text that does not parse become `{message: text}` |
| UserNotification.PlainTextIgnoresParser | src/services/userNotificationService.js:131-133 | plain text never reaches the parser |
| UserNotification.AfterConnect | src/services/userNotificationService.js:17-103 | `connect`; stated by `ConnectWithoutUser`, `ConnectReplacesSource` and `ConnectKeepsInv` |
| UserNotification.AfterEvent | src/services/userNotificationService.js:36-82 | the `connected` and notification event handlers; stated by `ConnectedResets` and `MalformedPayloadDelivered` |
| UserNotification.AfterError | src/services/userNotificationService.js:85-90 | `onerror`; stated by `ErrorThenReconnect` |
| UserNotification.AfterOpen | src/services/userNotificationService.js:93-97 | `onopen`; stated by `OpenKeepsAttempts` |
| UserNotification.AfterTimer | src/services/userNotificationService.js:111-113 | the reconnect timer calling `connect`; stated by `StaleTimerReopens` and `TimerKeepsInv` |
| UserNotification.ConnectWithoutUser | src/services/userNotificationService.js:18-22 | with no `userId` and no `id`, `connect` changes nothing at all |
| UserNotification.ConnectReplacesSource | src/services/userNotificationService.js:24-33 | with a user, exactly the new transport for `userId \|\| id` is open and held afterwards; listeners, attempts and timers are kept |
| UserNotification.ErrorThenReconnect | src/services/userNotificationService.js:85-90 | `onerror` lowers the flag, tells the `error` subscribers, then retries after `3000*k` ms or announces `giveup` at 5 |
| UserNotification.ConnectedResets | src/services/userNotificationService.js:36-46 | `connected` raises the flag and zeroes the attempts before its subscribers get the decoded payload |
| UserNotification.OpenKeepsAttempts | src/services/userNotificationService.js:93-97 | `onopen` raises the flag but leaves the attempt counter alone |
| UserNotification.MalformedPayloadDelivered | src/services/userNotificationService.js:49-82 | a payload that does not parse still reaches every subscriber of its event, as `{message: text}` |
| UserNotification.StaleTimerReopens | src/services/userNotificationService.js:111-113 | a timer scheduled before `disconnect` still fires afterwards and leaves an open, held transport |
| UserNotification.ConnectKeepsInv | src/services/userNotificationService.js:17-103 | `connect` keeps the bound, at most the held transport open, and connected only while holding one |
| UserNotification.CallbacksKeepInv | src/services/userNotificationService.js:36-97 | the transport callbacks keep that invariant |
| UserNotification.TimerKeepsInv | src/services/userNotificationService.js:111-113 | a firing timer keeps that invariant |
| UserNotification.UserNotificationSse.constructor | src/services/userNotificationService.js:7-14 | a new client satisfies the invariant with the initial state |
| UserNotification.UserNotificationSse.Connect | src/services/userNotificationService.js:17-103 | the new state is the `connect` transition: guard, teardown through `disconnect`, open or retry |
| UserNotification.UserNotificationSse.Disconnect | src/services/userNotificationService.js:146-153 | the new state is the state with the transport closed and dropped and the flag down |
| UserNotification.UserNotificationSse.OnServerEvent | src/services/userNotificationService.js:36-82 | the new state is the named-event transition over the defensive decode |
| UserNotification.UserNotificationSse.OnError | src/services/userNotificationService.js:85-90 | the new state is the `onerror` transition |
| UserNotification.UserNotificationSse.OnOpen | src/services/userNotificationService.js:93-97 | the new state is the `onopen` transition |
| UserNotification.UserNotificationSse.OnReconnectTimer | src/services/userNotificationService.js:111-113 | the fired timer calls `connect` |
| UserNotification.UserNotificationSse.AddEventListener | src/services/userNotificationService.js:156-161 | only the registry changes, by appending |
| UserNotification.UserNotificationSse.RemoveEventListener | src/services/userNotificationService.js:164-172 | only the registry changes, by removing the first copy |
| UserNotification.UserNotificationSse.Emit | src/services/userNotificationService.js:175-185 | only the log changes, by the calls of `emit` |
| UserNotification.UserNotificationSse.GetConnectionStatus | src/services/userNotificationService.js:240-246 | the flag, the counter and 5, with the counter never above 5 |
| RealTimeUpdatesComponent.RetrySchedule | src/components/RealTimeUpdates.js:62-74 | the k-th consecutive retry waits `1000*k` ms and the sixth failure gives up |
| RealTimeUpdatesComponent.AfterConnect | src/components/RealTimeUpdates.js:13-60 | `connect`; stated by `ConnectReplacesSource` and `ConnectKeepsInv` |
| RealTimeUpdatesComponent.AfterEvent | src/components/RealTimeUpdates.js:21-41 | the named-event handlers; stated by `ConnectionResets` and `UnparsableEventDropped` |
| RealTimeUpdatesComponent.AfterError | src/components/RealTimeUpdates.js:43-48 | `onerror`; stated by `ErrorThenReconnect` |
| RealTimeUpdatesComponent.AfterOpen | src/components/RealTimeUpdates.js:50-54 | `onopen`; stated by `OpenKeepsAttempts` |
| RealTimeUpdatesComponent.AfterTimer | src/components/RealTimeUpdates.js:67-69 | the reconnect timer calling `connect`; its invariant is kept by `ConnectKeepsInv` |
| RealTimeUpdatesComponent.ConnectReplacesSource | src/components/RealTimeUpdates.js:13-19 | `connect` tears the old transport down, so exactly the new one is open and held |
| RealTimeUpdatesComponent.ConnectionResets | src/components/RealTimeUpdates.js:21-26 | `connection` raises the flag and zeroes the attempts before emitting the parsed data |
| RealTimeUpdatesComponent.UnparsableEventDropped | src/components/RealTimeUpdates.js:21-41 | an event whose data does not parse changes nothing and reaches nobody |
| RealTimeUpdatesComponent.OpenKeepsAttempts | src/components/RealTimeUpdates.js:50-54 | `onopen` raises the flag and emits `open` but keeps the attempts |
| RealTimeUpdatesComponent.ErrorThenReconnect | src/components/RealTimeUpdates.js:43-48 | `onerror` lowers the flag, emits `error`, then retries after `1000*k` ms or announces `giveup` |
| RealTimeUpdatesComponent.ConnectKeepsInv | src/components/RealTimeUpdates.js:13-60 | `connect` keeps the class invariant |
| RealTimeUpdatesComponent.CallbacksKeepInv | src/components/RealTimeUpdates.js:21-54 | the transport callbacks keep the class invariant |
| RealTimeUpdatesComponent.RealTimeUpdates.constructor | src/components/RealTimeUpdates.js:4-11 | a new client satisfies the invariant with the initial state |
| RealTimeUpdatesComponent.RealTimeUpdates.Connect | src/components/RealTimeUpdates.js:13-60 | the new state is the `connect` transition |
| RealTimeUpdatesComponent.RealTimeUpdates.Disconnect | src/components/RealTimeUpdates.js:76-82 | the transport is closed and dropped and the flag lowered; nothing else changes |
| RealTimeUpdatesComponent.RealTimeUpdates.OnServerEvent | src/components/RealTimeUpdates.js:21-41 | the new state is the named-event transition |
| RealTimeUpdatesComponent.RealTimeUpdates.OnError | src/components/RealTimeUpdates.js:43-48 | the new state is the `onerror` transition |
| RealTimeUpdatesComponent.RealTimeUpdates.OnOpen | src/components/RealTimeUpdates.js:50-54 | the new state is the `onopen` transition |
| RealTimeUpdatesComponent.RealTimeUpdates.OnReconnectTimer | src/components/RealTimeUpdates.js:67-69 | the fired timer calls `connect` |
| RealTimeUpdatesComponent.RealTimeUpdates.AddEventListener | src/components/RealTimeUpdates.js:84-89 | only the registry changes, by appending |
| RealTimeUpdatesComponent.RealTimeUpdates.RemoveEventListener | src/components/RealTimeUpdates.js:91-99 | only the registry changes, by removing the first copy |
| RealTimeUpdatesComponent.RealTimeUpdates.Emit | src/components/RealTimeUpdates.js:101-111 | only the log changes, by the calls of `emit` |
| RealTimeUpdatesComponent.RealTimeUpdates.GetConnectionStatus | src/components/RealTimeUpdates.js:113-119 | the flag, the counter and 5, with the counter never above 5 |
| NotificationService.Show | src/services/notificationService.js:16-23 | the caller's options win, and every default (icon, badge, tag) the caller left out keeps its default value; nothing else is added |
| NotificationService.ProductNotification | src/services/notificationService.js:44-74 | `showProductNotification`; stated by `ProductNotificationRoutes` and `ProductNotificationNeedsProduct` |
| NotificationService.UserNotification | src/services/notificationService.js:77-103 | `showUserNotification`; stated by `UserNotificationOverrides` |
| NotificationService.DefaultActionFor | src/services/notificationService.js:171-184 | the `switch (type)` of `handleMessage`; stated by `MessageDispatch` |
| NotificationService.HandledMessage | src/services/notificationService.js:157-185 | `handleMessage`; stated by `MessageDispatch` |
| NotificationService.AfterMessage | src/services/notificationService.js:136-143 | `onmessage`; stated by `MessageDispatch` and `UntypedMessageIgnored` |
| NotificationService.ProductNotificationRoutes | src/services/notificationService.js:44-74 | `new_product` and `price_change` link to `/products/{id}`, `sold_out` to `/mypage`, other types show nothing; the icon is the image or the placeholder |
| NotificationService.ProductNotificationNeedsProduct | src/services/notificationService.js:45-64 | without a product the table itself throws, whatever the type |
| NotificationService.UserNotificationOverrides | src/services/notificationService.js:77-103 | unknown types show nothing; for known ones the caller's `data` overrides `body` and `url` |
| NotificationService.MessageDispatch | src/services/notificationService.js:157-184 | the listeners of `type` receive, in order, the message without `type` and with every other field; the type then picks the view-count update, the product notice, or nothing |
| NotificationService.UntypedMessageIgnored | src/services/notificationService.js:136-143 | a message that does not parse, or has no string `type`, reaches no listener and triggers nothing |
| NotificationService.RetrySchedule | src/services/notificationService.js:188-199 | every retry waits a constant 5000 ms and the sixth failure gives up |
| NotificationService.AfterConnect | src/services/notificationService.js:123-154 | `connect`; stated by `ConnectReplacesSource` and `KeepsInv` |
| NotificationService.AfterOpen | src/services/notificationService.js:131-134 | `onopen`, zeroing the attempts; kept invariant by `KeepsInv` |
| NotificationService.AfterError | src/services/notificationService.js:145-148 | `onerror`; stated by `ErrorThenReconnect` |
| NotificationService.AfterDisconnect | src/services/notificationService.js:231-237 | `disconnect`; stated by `DisconnectClears` |
| NotificationService.AfterTimer | src/services/notificationService.js:193-195 | the reconnect timer calling `connect`; kept invariant by `KeepsInv` |
| NotificationService.ErrorThenReconnect | src/services/notificationService.js:145-148 | `onerror` keeps attempts within 5, schedules a 5000 ms retry, and tells nobody even when giving up |
| NotificationService.ConnectReplacesSource | src/services/notificationService.js:123-129 | `connect` closes the held transport, so only the new one is open |
| NotificationService.DisconnectClears | src/services/notificationService.js:231-237 | `disconnect` drops the transport and every listener, keeps attempts and timers, and is idempotent |
| NotificationService.KeepsInv | src/services/notificationService.js:123-154 | the handlers and `disconnect` keep the class invariant |
| NotificationService.RealTimeUpdates.constructor | src/services/notificationService.js:114-120 | a new client satisfies the invariant with the initial state |
| NotificationService.RealTimeUpdates.Connect | src/services/notificationService.js:123-154 | the new state is the `connect` transition |
| NotificationService.RealTimeUpdates.OnOpen | src/services/notificationService.js:131-134 | only the attempts change, to 0 |
| NotificationService.RealTimeUpdates.OnMessage | src/services/notificationService.js:136-143 | the new state and the default action are those of the message transition |
| NotificationService.RealTimeUpdates.HandleMessage | src/services/notificationService.js:157-185 | the new state and the default action are those of `handleMessage` |
| NotificationService.RealTimeUpdates.OnError | src/services/notificationService.js:145-148 | the new state is the reconnect transition |
| NotificationService.RealTimeUpdates.OnReconnectTimer | src/services/notificationService.js:193-195 | the fired timer calls `connect` |
| NotificationService.RealTimeUpdates.Disconnect | src/services/notificationService.js:231-237 | the new state is the `disconnect` transition |
| NotificationService.RealTimeUpdates.AddEventListener | src/services/notificationService.js:202-207 | only the registry changes, by appending |
| NotificationService.RealTimeUpdates.RemoveEventListener | src/services/notificationService.js:210-216 | only the registry changes, by removing the first copy |
| AnalyticsService.MapCategoryFacts | src/services/analyticsService.js:14-28 | `all` and categories outside the table pass through, table entries map to their catalogue name, and mapping is idempotent |
| AnalyticsService.MapCategory | src/services/analyticsService.js:14-28 | the category mapping of `trackSearch`; stated by `MapCategoryFacts` |
| AnalyticsService.ResolveUserId | src/services/analyticsService.js:8-11 | the given id, else the current user's id, else `anonymous`; never empty |
| AnalyticsService.SearchBody | src/services/analyticsService.js:8-37 | the posted record keeps the keyword and count; it names the given user, else the current user, else `anonymous`; a category the table knows is posted as its table value and any other as given, so mapping it again leaves it alone |
| AnalyticsService.StreamUrl | src/services/analyticsService.js:132-133 | the URL is exactly the configured service URL, or the default host when none is set, followed by `/api/products/stream` |
| AnalyticsService.RetrySchedule | src/services/analyticsService.js:212-224 | the k-th retry waits `1000*k` ms and the sixth failure gives up |
| AnalyticsService.AfterConnect | src/services/analyticsService.js:130-175 | `connect`, without teardown; stated by `ConnectLeaksSource` and `KeepsInv` |
| AnalyticsService.AfterOpen | src/services/analyticsService.js:135-139 | `onopen`; stated by `OpenResets` |
| AnalyticsService.AfterMessage | src/services/analyticsService.js:141-149 | `onmessage`; stated by `UnparsedIgnored` |
| AnalyticsService.AfterNamedEvent | src/services/analyticsService.js:161-169 | the named-event handlers; stated by `UnparsedIgnored` |
| AnalyticsService.AfterError | src/services/analyticsService.js:151-158 | `onerror`; stated by `ErrorThenMaybeReconnect` |
| AnalyticsService.AfterDisconnect | src/services/analyticsService.js:177-185 | `disconnect`; stated by `DisconnectResets` |
| AnalyticsService.AfterTimer | src/services/analyticsService.js:217-219 | the reconnect timer calling `connect`; kept invariant by `KeepsInv` |
| AnalyticsService.ConnectLeaksSource | src/services/analyticsService.js:130-133 | a second `connect` leaves the first source open beside the new one |
| AnalyticsService.RemoveDropsEveryCopy | src/services/analyticsService.js:194-198 | removal takes out every copy and keeps the other callbacks and types as they were |
| AnalyticsService.OpenResets | src/services/analyticsService.js:135-139 | `onopen` zeroes the attempts, then emits `connected` with `{status: 'connected'}` |
| AnalyticsService.ErrorThenMaybeReconnect | src/services/analyticsService.js:151-158 | `onerror` always emits `error`; only a closed source runs the policy, whose give-up emits `reconnect-failed` with `{attempts: 5}` |
| AnalyticsService.UnparsedIgnored | src/services/analyticsService.js:141-169 | a message that does not parse reaches nobody, and so does a named event that does not parse |
| AnalyticsService.DisconnectResets | src/services/analyticsService.js:177-185 | `disconnect` drops the source, empties the listeners and zeroes the attempts, keeps timers, and is idempotent |
| AnalyticsService.KeepsInv | src/services/analyticsService.js:130-175 | the handlers keep the class invariant |
| AnalyticsService.ProductStreamSse.constructor | src/services/analyticsService.js:122-128 | a new client satisfies the invariant with the initial state |
| AnalyticsService.ProductStreamSse.Connect | src/services/analyticsService.js:130-175 | the new state is the `connect` transition, with no teardown |
| AnalyticsService.ProductStreamSse.OnOpen | src/services/analyticsService.js:135-139 | the new state is the `onopen` transition |
| AnalyticsService.ProductStreamSse.OnMessage | src/services/analyticsService.js:141-149 | the new state is the `onmessage` transition |
| AnalyticsService.ProductStreamSse.OnNamedEvent | src/services/analyticsService.js:161-169 | the new state is the named-event transition |
| AnalyticsService.ProductStreamSse.OnError | src/services/analyticsService.js:151-158 | the new state is the `onerror` transition |
| AnalyticsService.ProductStreamSse.OnReconnectTimer | src/services/analyticsService.js:217-219 | the fired timer calls `connect` |
| AnalyticsService.ProductStreamSse.Disconnect | src/services/analyticsService.js:177-185 | the new state is the `disconnect` transition |
| AnalyticsService.ProductStreamSse.AddEventListener | src/services/analyticsService.js:187-192 | only the registry changes, by appending |
| AnalyticsService.ProductStreamSse.RemoveEventListener | src/services/analyticsService.js:194-198 | only the registry changes, by filtering |
| AnalyticsService.ProductStreamSse.Emit | src/services/analyticsService.js:200-210 | only the log changes, by the calls of `emit` |
| AnalyticsService.FlushSendsQueue | src/services/analyticsService.js:249-264 | an empty queue sends nothing; otherwise exactly the queue is sent in order and emptied, and a failed batch under 100 comes back whole |
| AnalyticsService.TrackAppends | src/services/analyticsService.js:237-247 | the event goes at the tail, and reaching 10 sends the old queue followed by it |
| AnalyticsService.TrackerInvPreserved | src/services/analyticsService.js:237-265 | `track`, `flush` and `destroy` keep the queue below 100 events |
| AnalyticsService.SuccessfulSendsKeepBatchBound | src/services/analyticsService.js:244-253 | while sends succeed the queue stays below the batch size |
| AnalyticsService.Flushed | src/services/analyticsService.js:249-265 | `flush`; stated by `FlushSendsQueue` and `TrackerInvPreserved` |
| AnalyticsService.Tracked | src/services/analyticsService.js:237-247 | `track`; stated by `TrackAppends` and `TrackerInvPreserved` |
| AnalyticsService.Destroyed | src/services/analyticsService.js:273-279 | `destroy`; its invariant is kept by `TrackerInvPreserved` |
| AnalyticsService.AnalyticsTracker.constructor | src/services/analyticsService.js:229-235 | an empty queue with the interval running |
| AnalyticsService.AnalyticsTracker.Track | src/services/analyticsService.js:237-247 | the fields afterwards are the `track` transition |
| AnalyticsService.AnalyticsTracker.Flush | src/services/analyticsService.js:249-265 | the fields afterwards are the `flush` transition |
| AnalyticsService.AnalyticsTracker.OnInterval | src/services/analyticsService.js:267-271 | a firing interval flushes |
| AnalyticsService.AnalyticsTracker.Destroy | src/services/analyticsService.js:273-279 | the interval stops, then one last flush |
| Api.GetImageUrl | src/utils/api.js:142-146 | the placeholder for a falsy path, an `http` path unchanged, and the product service URL followed by the path otherwise |
| Api.ImageUrlSettles | src/utils/api.js:142-146 | never empty; for an absolute service URL a produced URL comes back unchanged, except the relative placeholder |
| Api.UserServiceUrl | src/utils/api.js:2 | the user service URL and its default; used by `DefaultUserServiceName` |
| Api.ProductServiceUrl | src/utils/api.js:3 | the product service URL and its default |
| Api.GetErrorMessage | src/utils/api.js:149-155 | `getErrorMessage`; stated by `ErrorMessagePriority` |
| Api.RequestHeaders | src/utils/api.js:7-23 | the headers `request` sends; stated by `HeaderPolicy`, and the statement-by-statement `BuildRequestHeaders` is proved equal to it |
| Api.ErrorMessagePriority | src/utils/api.js:149-155 | a string comes back itself; otherwise `message`, then `response.data.message`, then `response.data.error`, then the fixed text |
| Api.HeaderPolicy | src/utils/api.js:7-23 | `Content-Type: application/json` exactly when the body is not a `FormData`, `Authorization: Bearer <token>` exactly when a token is stored, other headers kept |
| Api.BuildRequestHeaders | src/utils/api.js:14-23 | the step-by-step header mutations give exactly that header map |
| Api.HttpErrorMessage | src/utils/api.js:28-31 | never empty; a `null` body gives the `TypeError` of the failed property read; otherwise a non-empty `error` wins, then a non-empty `message`, and only then the status line |
| Api.StringField | src/utils/api.js:29-30 | a non-empty field comes from a parsed object holding that string |
| Api.HttpErrorFallsBackToStatus | src/utils/api.js:29-30 | for a body that is not `null` and has no usable `error` or `message`, the message is `HTTP error! status: <status>` |
| Api.NullErrorBodyRethrown | src/utils/api.js:28-48 | a failed response whose body is `null` does not throw the status line: `request` rethrows the `TypeError` unchanged, since it names no connection failure |
| Api.RethrowRule | src/utils/api.js:43-48 | connection failures become the unreachable-service text naming `User Service` exactly when the base URL contains `8080`; other errors are rethrown unchanged |
| Api.ServiceName | src/utils/api.js:44 | the service named in a connection failure; stated by `RethrowRule` |
| Api.Rethrown | src/utils/api.js:43-48 | the `catch` of `request`; stated by `RethrowRule` |
| Api.DefaultUserServiceName | src/utils/api.js:2 | with the default user service URL the service is named `User Service` |
| Api.DefaultProductServiceName | src/utils/api.js:3 | with the default product service URL the service is named `Product Service`: `8082` contains no `8080` |
| Api.RequestOutcomes | src/utils/api.js:25-49 | a failed status always throws, a network failure is rewritten, and only a JSON content type resolves to JSON |
| Api.Request | src/utils/api.js:25-49 | `request` after `fetch`; stated by `RequestOutcomes` and `NullErrorBodyRethrown` |
| Api.PostOptions | src/utils/api.js:61-76 | the options `post` hands to `request`; stated by `PostEncoding` |
| Api.PostEncoding | src/utils/api.js:61-76 | a `FormData` is sent as is and without a forced `Content-Type`; other data is sent as its JSON text and no data as no body, both as JSON; the method is `POST` unless the options name one |
| MyProductCard.StatusMappings | src/components/MyProductCard.js:42-59 | labels and style classes differ from the plain status exactly for `AVAILABLE`, `SOLD` and `HIDDEN` |
| MyProductCard.GetStatusText | src/components/MyProductCard.js:42-49 | `getStatusText`; stated by `StatusMappings` |
| MyProductCard.GetStatusClass | src/components/MyProductCard.js:52-59 | `getStatusClass`; stated by `StatusMappings` |
| MyProductCard.ButtonsDisabled | src/components/MyProductCard.js:87 | `disabled={loading || product.status === 'SOLD'}` (also line 94); stated by `ButtonRule` |
| MyProductCard.DeleteLabel | src/components/MyProductCard.js:96 | the delete button's label; stated by `ButtonRule` |
| MyProductCard.AfterDelete | src/components/MyProductCard.js:15-35 | `handleDelete`; stated by `DeleteFlow` and `ButtonRule` |
| MyProductCard.ButtonRule | src/components/MyProductCard.js:15-35 | a sold product's buttons are disabled before, during and after any delete; for another product, a finished delete (or an idle card) leaves them enabled with the label `삭제`, and the label reads `삭제 중...` while loading |
| MyProductCard.DeleteFlow | src/components/MyProductCard.js:15-35 | declining does nothing; a confirmed delete sends one request, calls `onUpdate` exactly on success, alerts the outcome (the success alert followed by the failure alert when `onUpdate` throws) and clears `loading` |
| MyProductCard.MyProductCardState.constructor | src/components/MyProductCard.js:9 | the card starts not loading |
| MyProductCard.MyProductCardState.HandleDelete | src/components/MyProductCard.js:15-35 | the fields afterwards are the delete transition |
| UserManagement.WithoutUserMembers | src/pages/user-management.js:87-88 | the filtered list holds exactly the rows of another id |
| UserManagement.WithoutUserAppend | src/pages/user-management.js:87-88 | filtering keeps the other rows in order |
| UserManagement.WithoutUserAbsent | src/pages/user-management.js:87-88 | a list without the id is unchanged |
| UserManagement.WithoutUser | src/pages/user-management.js:87-88 | `filter(u => u.id !== userId)`; stated by `WithoutUserMembers`, `WithoutUserAppend` and `WithoutUserAbsent` |
| UserManagement.DisplayUsers | src/pages/user-management.js:101 | the list shown; stated by `EmptySearchShowsAllUsers`, `ClearRestoresList` and `DisplayedUsers` |
| UserManagement.ShowPagination | src/pages/user-management.js:222 | when the pagination renders; stated by `ClearRestoresList` |
| UserManagement.PreviousPage | src/pages/user-management.js:225 | `Math.max(0, currentPage - 1)`; stated by `PagingStaysInRange` |
| UserManagement.NextPage | src/pages/user-management.js:237 | `Math.min(totalPages - 1, currentPage + 1)`; stated by `PagingStaysInRange` |
| UserManagement.ShowsDelete | src/pages/user-management.js:195 | the delete button of a row; stated by `AdminRowRule` |
| UserManagement.ShowsAdminBadge | src/pages/user-management.js:203 | the admin badge of a row; stated by `AdminRowRule` |
| UserManagement.PagingStaysInRange | src/pages/user-management.js:224-242 | from a page in range both buttons land in range and move by exactly one where enabled; each stays put exactly where it is disabled |
| UserManagement.DefaultTotalPages | src/pages/user-management.js:44 | a missing page count becomes 1; a given one is kept |
| UserManagement.AdminRowRule | src/pages/user-management.js:195-205 | a delete started from a listed row's button leaves every admin row of another id in the page list, whatever the outcome |
| UserManagement.Loaded | src/pages/user-management.js:37-51 | `loadUsers`; stated by `LoadSetsPages` and `PageInvPreserved` |
| UserManagement.Searched | src/pages/user-management.js:53-73 | `handleSearch`; stated by `BlankSearchSendsNothing`, `SearchSendsKeyword` and `EmptySearchShowsAllUsers` |
| UserManagement.DeletedUser | src/pages/user-management.js:75-93 | `handleDeleteUser`; stated by `DeleteFiltersBothLists` and `AdminRowRule` |
| UserManagement.Cleared | src/pages/user-management.js:95-99 | `clearSearch`; stated by `ClearRestoresList` |
| UserManagement.BlankSearchSendsNothing | src/pages/user-management.js:55-59 | a blank keyword clears the results and the flag without a request |
| UserManagement.SearchSendsKeyword | src/pages/user-management.js:61-72 | another keyword is sent once, and a successful answer replaces the results |
| UserManagement.EmptySearchShowsAllUsers | src/pages/user-management.js:71 | a search that found nobody shows the page list again, because the flag is lowered in `finally` |
| UserManagement.DeleteFiltersBothLists | src/pages/user-management.js:75-93 | a confirmed successful delete replaces both lists by their filtered versions, which hold exactly the rows of another id; otherwise both are kept |
| UserManagement.ClearRestoresList | src/pages/user-management.js:95-99 | the keyword, results and flag are reset and the page list shows again |
| UserManagement.LoadSetsPages | src/pages/user-management.js:37-51 | a successful load sets the rows and the page count sent, or exactly 1 when it is missing, and clears `loading` |
| UserManagement.PageInvPreserved | src/pages/user-management.js:37-99 | no handler leaves a search flagged as running or the page negative |
| UserManagement.UserManagementPage.constructor | src/pages/user-management.js:9-16 | the initial state cells |
| UserManagement.UserManagementPage.SetSearchKeyword | src/pages/user-management.js:143 | only the keyword changes, to what was typed |
| UserManagement.UserManagementPage.LoadUsers | src/pages/user-management.js:37-51 | the fields afterwards are the load transition |
| UserManagement.UserManagementPage.HandleSearch | src/pages/user-management.js:53-73 | the fields afterwards are the search transition |
| UserManagement.UserManagementPage.HandleDeleteUser | src/pages/user-management.js:75-93 | the fields afterwards are the delete transition |
| UserManagement.UserManagementPage.ClearSearch | src/pages/user-management.js:95-99 | the fields afterwards are the cleared search |
| UserManagement.UserManagementPage.GoToPreviousPage | src/pages/user-management.js:225 | only the page changes, to the "previous" clamp |
| UserManagement.UserManagementPage.GoToNextPage | src/pages/user-management.js:237 | only the page changes, to the "next" clamp |
| UserManagement.UserManagementPage.DisplayedUsers | src/pages/user-management.js:101 | the results while a search runs or whenever there are any, and the page list otherwise |

## Left out

- **Transport.** The SSE wire format, `readyState`, and the browser's own automatic reconnection
  are left out, because they happen inside the browser. The only exception is the `CLOSED` check
  of `ProductStreamSSE`, which is an input.
- **Leaked transports.** Callbacks of transports a client no longer holds (possible after
  `ProductStreamSSE.connect`) are not modelled as stimuli.
- **Time.** Timer delays are recorded, but time itself is not modelled. The 30-second
  `setInterval` of `AnalyticsTracker` is a method the caller invokes.
- **Re-entrant callbacks.** A subscriber that calls back into its client during `emit` is not
  modelled. A subscriber only reports whether it throws.
- **Browser notifications.** The `Notification` API (permission, click navigation, auto-close)
  and the welcome, profile and test notifications of `UserNotificationSSE` are left out.
  `NotificationService.Show` gives the notification that would be shown once permission is
  granted.
- **View-count update.** `updateViewCount`'s DOM writes are left out. `handleMessage` reports
  the call as its default action.
- **Product object.** How a message's `product` object becomes the fields the notification table
  reads is left out.
- **Formatting.** `formatPrice` (`Intl.NumberFormat`), `formatDate`, `toLocaleString` and
  `Date.now()` depend on a library or locale. They are inputs (the formatted price, the
  timestamp) or left out.
- **JSON.** `JSON.parse` and `JSON.stringify` are inputs.
- **Non-string JSON fields.** `error`/`message` fields a failed response holds that are truthy
  but not strings are not rendered. The model treats them as absent.
- **REST calls.** `fetch`, `localStorage` and the REST services are left out. What they return
  is an input.
- **Other REST helpers.** The `get`/`put`/`delete` wrappers, `getPopularProducts`,
  `getProductDashboard`, `getDashboardStats` and `sendBatchEvents` hold no rule beyond passing a
  request on.
- **Header aliasing.** `request` may share `options.headers` with its caller, so setting headers
  can change the caller's object. This aliasing is left out. Header names are compared exactly,
  as object keys are.
- **Prototype keys.** Keys named after `Object.prototype` members (such as `constructor`) behave
  differently in JavaScript's plain objects, and here keys are plain strings. This affects the
  listener registry of `ProductStreamSSE` and the category table. It also affects the two
  notification tables of `NotificationService` (notificationService.js:66 and 96): there such a
  type finds an inherited function and shows a notification with undefined fields. So the
  "other types show nothing" clause of `NotificationService.ProductNotificationRoutes` and
  `NotificationService.UserNotificationOverrides` holds only for keys that are not such names.
- NotificationService.ProductNotificationRoutes: "other types show nothing" is stated for plain
  string keys. A type named after an `Object.prototype` member shows a notification in the source.
- NotificationService.UserNotificationOverrides: the same holds here. A type such as `constructor`
  shows a notification with undefined fields in the source.
- Api.HttpErrorMessage: for a `null` body, the message of the `TypeError` (`NullPropertyError`) follows the V8 engine's wording. Other
  engines word it differently; in every engine it names no connection failure.
- **Sending in `AnalyticsTracker`.** `flush` is one atomic step, and the send's outcome is an
  input. Events tracked while a send is awaited are concurrency. `sendBatchEvents` catches its
  own errors, so in the source the re-queue branch is never taken.
- **React.** The hooks of `useRealTimeUpdates` and `useUserNotifications` and all rendering are
  left out.
- **In-flight screens.** What renders while a request is awaited is left out: the
  `loading`/`isSearching` screens and the "no results" line. This includes the login and admin
  redirect of the admin page.
- **Card navigation.** `handleEdit` / `handleProductClick` only navigate.
- **Style classes.** `GetStatusClass` reads its class names from a CSS module, so they are a
  parameter.
