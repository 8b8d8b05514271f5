# go-notification: the notification registry, modelled in Dafny

This is a model of the Go package `notification`. The package sends desktop
notifications over D-Bus following the freedesktop Desktop Notifications
Specification, and it reacts to the `NotificationClosed` and `ActionInvoked`
signals. The model covers the part of the package that holds state:

- the **Notification** entity (`Entities.Notification`): a heap object with
  the package's fields. `New` builds it; the setters, `AddHint` and
  `AddActionHandler` update it in place. `ActionList` flattens the actions map
  into the `actions` argument of `Notify`: alternating key and display name,
  in map iteration order.
- the **package-level state** (`Registry.Session`): `AppName`, `AppIcon`,
  whether the bus object exists (`ready`, for `busObj != nil`), the
  `notifications` registry from server id to entity, and a log `spawned` of
  the handlers that the Go code starts with `go`.
- **Notify / CloseNotification**: the initialisation guard, the icon fallback,
  the forced `urgency` hint, the write-back of the server id and the
  registration on success. The bus is an oracle: each call takes the server's
  reply as a parameter, and Notify returns the arguments it would send.
- **signal dispatch** (`Signals`): classification by name suffix, the two
  handlers, and `Run`, which folds them over a sequence of signals. Lemmas
  about `Run` hold for any signal sequence. Over any sequence of signals, a
  closed handler is started at most once per registered id. Every action
  handler started was registered under its id and key. Signals only ever
  remove registry entries.

Files: `types.dfy` (widths, constants, opaque values), `entity.dfy`,
`signals.dfy`, `registry.dfy`.

Go function values are opaque tokens (`ActionHandler`, `ClosedHandler`).
`nil` is `None`. A `dbus.Variant` is `UrgencyByte(level)` for the value that
`Notify` writes, otherwise `Opaque(token)`. `filepath.Abs` is the parameter
`abs` of `Notify`. It is applied only to a non-empty icon, and its error
result is the empty string, as with `icon, _ = filepath.Abs(icon)`.

## Behaviour of the code a caller may not expect

- The registry map is read and written from two goroutines with no lock:
  `Notify` writes it on the caller's goroutine, and
  `notificationClosedHandler` deletes from it on the loop's goroutine. The
  model is sequential and does not capture this race.
- `Notify` only does `notifications[id] = noti`. A re-send answered with a new
  id leaves the old key registered to the same object, whose `id` field now
  holds the new id. `Session.Notify` states exactly this map update.
- If an `AddMatch` call fails, `Init` returns an error, but the bus object
  and the empty registry are already in place, so `Notify` sends and
  registers. The signal loop is not started, so no entry is ever removed and
  no handler ever starts. `Session.Init` records this in `listening`, and
  `Dispatch` and `Listen` require it.
- `CloseNotification` returns the transport's error unwrapped, while `Notify`
  wraps it (`Error.Wrapped`).

## Model

| member | source | states |
|---|---|---|
| `Entities.Notification.New` | notification/notification.go:208-218 | id 0, empty icon, the given summary and body, `UrgencyNormal`, `ExpiresDefault`, no hints, no actions, no closed handler |
| `Entities.Notification.SetIcon` | notification/notification.go:220-224 | only the icon changes; every other field keeps its value |
| `Entities.Notification.SetSummary` | notification/notification.go:226-230 | only the summary changes |
| `Entities.Notification.SetBody` | notification/notification.go:232-236 | only the body changes |
| `Entities.Notification.SetUrgency` | notification/notification.go:238-242 | only the urgency changes; any byte is accepted |
| `Entities.Notification.SetTimeout` | notification/notification.go:244-249 | only the timeout changes |
| `Entities.Notification.AddHint` | notification/notification.go:251-260 | a nil value removes the key; otherwise the key maps to the value; every other hint key keeps its presence and value; no other field changes |
| `Entities.Notification.SetClosedHandler` | notification/notification.go:262-268 | only the closed handler changes; nil removes it |
| `Entities.Notification.AddActionHandler` | notification/notification.go:270-282 | a nil handler removes the key; otherwise the key maps to (name, handler), replacing an old entry; other keys are unchanged; at most one entry is added |
| `Entities.Notification.ActionList` | notification/notification.go:284-290 | the result is the (key, name) flattening of the actions map for some repetition-free enumeration of all its keys |
| `Entities.EnumerationLength` | notification/notification.go:285-287 | an enumeration of the keys without repetition has one element per key |
| `Entities.ActionListLength` | notification/notification.go:284-290 | the action list has length twice the number of actions |
| `Entities.ActionListPair` | notification/notification.go:286-288 | each even position holds a registered key, and the next position holds that action's name |
| `Entities.ActionListIndexOf` | notification/notification.go:286-288 | every registered key occurs at some even position |
| `Entities.ActionListUnique` | notification/notification.go:286-288 | no key occurs at two different even positions |
| `Signals.SuffixesExclusive` | notification/notification.go:95-99 | no name ends in both `.NotificationClosed` and `.ActionInvoked`, so the two tests are exclusive |
| `Signals.Classify` | notification/notification.go:94-100 | a name ending in `.NotificationClosed` routes to Closed(id, reason) from the body, one ending in `.ActionInvoked` to Invoked(id, key), any other name is ignored; a routed name with a body that fails the type assertions is Malformed, and nothing else is |
| `Signals.ClosedMemberRoutes` | notification/notification.go:95-96 | the server's `org.freedesktop.Notifications.NotificationClosed` signal routes to the closed handler with its id and reason |
| `Signals.InvokedMemberRoutes` | notification/notification.go:97-98 | the server's `org.freedesktop.Notifications.ActionInvoked` signal routes to the action handler with its id and key |
| `Signals.AfterEvent` | notification/notification.go:121-129 | a close removes exactly its id; other events leave the registry as it is; remaining entries keep their values |
| `Signals.Fired` | notification/notification.go:111-129 | one event starts at most one handler |
| `Signals.RunOnlyRemoves` | notification/notification.go:92-101 | over any sequence of signals, the registry only loses entries, and the remaining entries are unchanged |
| `Signals.RunWithoutCloseKeepsRegistry` | notification/notification.go:111-119 | a sequence with no NotificationClosed signal leaves the registry unchanged |
| `Signals.ClosedHandlerAtMostOnce` | notification/notification.go:121-129 | over any sequence of signals, the closed handler for id is started at most once, never for an id that was not registered, and after it is started the id is not registered |
| `Signals.ActionCallsWereRegistered` | notification/notification.go:111-119 | every action handler started was registered under that id and key, and a matching ActionInvoked signal was delivered |
| `Registry.WireIcon` | notification/notification.go:165-172 | the entity icon if non-empty, else the default icon; a non-empty choice goes through `abs`; an empty choice stays empty |
| `Registry.Session.constructor` | notification/notification.go:39-45 | before Init: empty names, no bus object, no signal loop, empty registry, nothing started |
| `Registry.Session.Init` | notification/notification.go:72-102 | name and icon are always recorded; if the bus is unreachable, nothing else changes; once the bus object exists, the registry is reset even if AddMatch then fails; the signal loop is started only when both AddMatch calls succeed, and a loop started earlier keeps running |
| `Registry.Session.Notify` | notification/notification.go:159-182 | before Init: NotInitialized, with the registry and the entity unchanged. After it: the urgency hint equals the urgency whatever the caller stored. The call carries the old id, the wire icon, summary, body, action list, hints and timeout. On success, the id is written back and the registry gains or replaces exactly that key. On failure, the error is wrapped and the registry and id are unchanged |
| `Registry.Session.CloseNotification` | notification/notification.go:184-187 | sends the entity's id and returns the transport error as it is; with no modifies clause, it changes no state, the registry included |
| `Registry.Session.NotificationClosed` | notification/notification.go:121-129 | an unknown id changes nothing and starts nothing; a registered id is removed, and only it; its closed handler, if set, is started once with the reason as received |
| `Registry.Session.ActionInvoked` | notification/notification.go:111-119 | the registry never changes; the action's handler is started once if both the id and the key are registered, otherwise nothing is started |
| `Registry.Session.Dispatch` | notification/notification.go:92-101 | only with the loop started; one loop turn changes the registry by `AfterEvent` and appends `Fired` to the log, for the signal's classification |
| `Registry.Session.Listen` | notification/notification.go:92-101 | only with the loop started; handling a sequence of signals in delivery order yields `Run` of their classifications: the registry and the handlers started |
| `Registry.SendBuildFinished` | notification/notification.go:159-182 | a critical notification with one action, sent after Init and assigned id 7, is registered alone under 7 with urgency hint Critical |
| `Registry.BuildFinished` | notification/notification.go:111-129 | after ActionInvoked(7, "open") and NotificationClosed(7, 2), the "open" handler and then the closed handler with reason 2 have started once each, and 7 is unregistered |

## Left out

- `SendNotification` (notification/notification.go:47-68): a one-shot send on a new connection with no package state. It is transport only.
- The D-Bus connection, the `AddMatch` member filters and `busConn.Signal` in `Init`: each is one outcome of the `Setup` oracle. After a failed `AddMatch` no signal is ever handled.
- `GetCapabilities` and `GetServerInformation`: pure bus calls that decode the reply and have no state effect.
- Concurrency: the loop's goroutine, the `go` for each handler and the 10-slot signal channel. The handlers are appended to `spawned` in start order, and are never run. Handler bodies, their ordering and the unlocked map access are not modelled.
- `Registry.Session.Listen`: handles a finite prefix of the signals of the endless Go loop. A second `Init` starts a second loop; the model has only one.
- `Registry.Session.Notify`: the call carries the `Duration`, not `int32(timeout.Seconds()*1000)`, because the conversion is floating point.
- `Registry.Session.Notify`: `filepath.Abs` is the parameter `abs` (filesystem and working directory); only "applied to a non-empty icon, empty stays empty" is modelled.
- `Registry.Session.CloseNotification`: requires `ready`; in Go, calling it before `Init` is a nil dereference that panics.
- `Registry.Session.Dispatch`: requires a body that passes the loop's type assertions; in Go, any other body panics and ends the process.
- Hint values: `dbus.MakeVariant` typing is not modelled; any value other than the urgency byte is opaque.
- Error messages: errors are constructors, and the text of `fmt.Errorf` is not modelled.
- A `Notification` built as a bare struct literal instead of by `New`: its `hints` map is nil, so `AddHint` with a non-nil value and `Notify` past its guard panic on assignment to a nil map. The model builds entities only through `New`.
