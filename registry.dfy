/** The package-level state of the notification package (AppName, AppIcon,
    the bus object and the map of sent notifications) as one Session object,
    with the operations that read and change it: Init, Notify,
    CloseNotification, and the handlers run by the signal loop.

    The bus is an oracle: each operation that calls it takes the reply as a
    parameter. Handlers that the Go code starts with `go` are appended to the
    `spawned` log instead of being run. */
module Registry {
  import opened Types
  import opened Entities
  import opened Signals

  /** The arguments of org.freedesktop.Notifications.Notify, in wire order.
      The timeout is the Duration before its conversion to milliseconds. */
  datatype NotifyCall = NotifyCall(
    appName: string,
    replacesId: uint32,
    icon: string,
    summary: string,
    body: string,
    actions: seq<string>,
    hints: map<string, Variant>,
    timeout: Duration)

  /** What the server answers to Notify: an assigned id, or an error. */
  datatype Reply = Assigned(id: uint32) | Rejected(cause: CallError)

  /** How connecting during Init goes: the session bus is unreachable, one of
      the two AddMatch calls fails, or both succeed. */
  datatype Setup = BusUnavailable(cause: CallError) | MatchRejected(cause: CallError) | Connected

  /** The icon sent with a notification: its own icon, else the session's
      default icon, made absolute by `abs` unless it is empty. `abs` stands
      for filepath.Abs, whose error result is the empty string. */
  function WireIcon(own: string, fallback: string, abs: string -> string): (icon: string)
    ensures own != "" ==> icon == abs(own)
    ensures own == "" && fallback != "" ==> icon == abs(fallback)
    ensures own == "" && fallback == "" ==> icon == ""
  {
    var chosen := if own == "" then fallback else own;
    if chosen == "" then "" else abs(chosen)
  }

  class Session {
    var appName: string
    var appIcon: string
    /** The bus object has been obtained (`busObj != nil`). */
    var ready: bool
    /** The registry: server id to the notification last sent under it. */
    var notifications: map<uint32, Notification>
    /** The signal loop has been started: some Init got both AddMatch calls
        through. A loop once started keeps running on the shared connection. */
    var listening: bool
    /** Handlers started by the signal loop, oldest first. */
    var spawned: seq<Invocation>

    /** The registry with every notification replaced by its current fields. */
    ghost function Entries(): map<uint32, Entity>
      reads this, notifications.Values
    {
      map k | k in notifications :: notifications[k].Fields()
    }

    /** The package before Init: no names, no bus object, nothing sent. */
    constructor ()
      ensures appName == "" && appIcon == "" && !ready && !listening
      ensures notifications == map[] && spawned == []
    {
      appName := "";
      appIcon := "";
      ready := false;
      listening := false;
      notifications := map[];
      spawned := [];
    }

    /** Records the application name and default icon, then connects. Once
        the bus object is obtained the registry is reset, even if a later
        AddMatch call fails; the signal loop is started only when both
        AddMatch calls succeed. */
    method Init(appName: string, appIcon: string, setup: Setup) returns (err: Option<Error>)
      modifies this
      ensures this.appName == appName && this.appIcon == appIcon && spawned == old(spawned)
      ensures listening == (old(listening) || setup.Connected?)
      ensures setup.BusUnavailable? ==> && err == Some(SessionBusUnavailable(setup.cause))
                                        && ready == old(ready) && notifications == old(notifications)
      ensures setup.MatchRejected? ==> err == Some(Wrapped(setup.cause)) && ready && notifications == map[]
      ensures setup.Connected? ==> err == None && ready && notifications == map[]
    {
      this.appName := appName;
      this.appIcon := appIcon;
      if setup.BusUnavailable? {
        return Some(SessionBusUnavailable(setup.cause));
      }
      notifications := map[];
      ready := true;
      if setup.MatchRejected? {
        return Some(Wrapped(setup.cause));
      }
      listening := true;
      err := None;
    }

    /** Sends `noti`. Past the initialisation guard the "urgency" hint is
        overwritten from the urgency field whatever the outcome; on success
        the assigned id is stored in `noti` and `noti` is registered under it;
        on failure nothing else changes. */
    method Notify(noti: Notification, abs: string -> string, reply: Reply)
      returns (call: Option<NotifyCall>, err: Option<Error>)
      modifies this, noti
      ensures appName == old(appName) && appIcon == old(appIcon)
      ensures ready == old(ready) && listening == old(listening) && spawned == old(spawned)
      ensures !old(ready) ==> && err == Some(NotInitialized) && call == None
                              && notifications == old(notifications)
                              && noti.Fields() == old(noti.Fields())
      ensures old(ready) ==> && noti.hints == old(noti.hints)[UrgencyKey := UrgencyByte(noti.urgency)]
                             && noti.hints[UrgencyKey] == UrgencyByte(old(noti.urgency))
      ensures old(ready) ==> && call.Some?
                             && call.value.appName == appName
                             && call.value.replacesId == old(noti.id)
                             && call.value.icon == WireIcon(old(noti.icon), appIcon, abs)
                             && call.value.summary == old(noti.summary)
                             && call.value.body == old(noti.body)
                             && IsActionList(call.value.actions, old(noti.actions))
                             && call.value.hints == noti.hints
                             && call.value.timeout == old(noti.timeout)
      ensures old(ready) && reply.Assigned? ==> && err == None
                                                && noti.Fields() == old(noti.Fields()).(id := reply.id, hints := noti.hints)
                                                && notifications == old(notifications)[reply.id := noti]
                                                && |notifications| == |old(notifications)| + (if reply.id in old(notifications) then 0 else 1)
      ensures old(ready) && reply.Rejected? ==> && err == Some(Wrapped(reply.cause))
                                                && noti.Fields() == old(noti.Fields()).(hints := noti.hints)
                                                && notifications == old(notifications)
    {
      if !ready {
        return None, Some(NotInitialized);
      }
      var icon := if noti.icon == "" then appIcon else noti.icon;
      if icon != "" {
        icon := abs(icon);
      }
      noti.hints := noti.hints[UrgencyKey := UrgencyByte(noti.urgency)];
      var actions := noti.ActionList();
      call := Some(NotifyCall(appName, noti.id, icon, noti.summary, noti.body, actions, noti.hints, noti.timeout));
      match reply {
        case Assigned(id) =>
          noti.id := id;
          notifications := notifications[noti.id := noti];
          err := None;
        case Rejected(cause) =>
          err := Some(Wrapped(cause));
      }
    }

    /** Asks the server to close `noti`. The transport's error is returned
        as it is. Nothing local changes: the registry entry goes only when
        the NotificationClosed signal arrives. The Go code dereferences the
        bus object, so calling this before Init panics. */
    method CloseNotification(noti: Notification, reply: Option<CallError>)
      returns (request: uint32, err: Option<CallError>)
      requires ready
      ensures request == noti.id
      ensures err == reply
    {
      request := noti.id;
      err := reply;
    }

    /** The NotificationClosed handler: an unknown id is ignored; a
        registered one is removed and its closed handler, if set, is started
        with the reason as received. */
    method NotificationClosed(id: uint32, reason: uint32)
      requires listening
      modifies this
      ensures appName == old(appName) && appIcon == old(appIcon) && ready == old(ready) && listening
      ensures id !in old(notifications) ==> notifications == old(notifications) && spawned == old(spawned)
      ensures id in old(notifications) ==> && notifications == old(notifications) - {id}
                                           && spawned == old(spawned) +
                                                (match old(notifications)[id].closedHandler
                                                 case None => []
                                                 case Some(h) => [ClosedCall(id, h, reason)])
    {
      if id in notifications {
        var noti := notifications[id];
        notifications := notifications - {id};
        if noti.closedHandler.Some? {
          spawned := spawned + [ClosedCall(id, noti.closedHandler.value, reason)];
        }
      }
    }

    /** The ActionInvoked handler: starts the handler of action `key` of
        notification `id` when both are registered; never changes the
        registry. */
    method ActionInvoked(id: uint32, key: string)
      requires listening
      modifies this
      ensures appName == old(appName) && appIcon == old(appIcon) && ready == old(ready) && listening
      ensures notifications == old(notifications)
      ensures id in notifications && key in notifications[id].actions ==>
                spawned == old(spawned) + [ActionCall(id, key, notifications[id].actions[key].handler)]
      ensures !(id in notifications && key in notifications[id].actions) ==> spawned == old(spawned)
    {
      if id in notifications {
        var noti := notifications[id];
        if key in noti.actions {
          spawned := spawned + [ActionCall(id, key, noti.actions[key].handler)];
        }
      }
    }

    /** One turn of the signal loop, which exists only once Init has started
        it. A routed signal whose body fails the loop's type assertions
        panics in Go, so it is excluded. */
    method Dispatch(sig: Signal)
      requires listening
      requires !Classify(sig).Malformed?
      modifies this
      ensures appName == old(appName) && appIcon == old(appIcon) && ready == old(ready) && listening
      ensures notifications == AfterEvent(old(notifications), Classify(sig))
      ensures Entries() == AfterEvent(old(Entries()), Classify(sig))
      ensures spawned == old(spawned) + Fired(old(Entries()), Classify(sig))
    {
      var ev := Classify(sig);
      match ev {
        case Closed(id, reason) =>
          NotificationClosed(id, reason);
        case Invoked(id, key) =>
          ActionInvoked(id, key);
        case Ignored =>
      }
      assert Entries() == AfterEvent(old(Entries()), ev);
    }

    /** The signal loop over the signals delivered so far, in order. */
    method Listen(signals: seq<Signal>)
      requires listening
      requires forall i :: 0 <= i < |signals| ==> !Classify(signals[i]).Malformed?
      modifies this
      ensures appName == old(appName) && appIcon == old(appIcon) && ready == old(ready) && listening
      ensures notifications.Keys <= old(notifications).Keys
      ensures forall k :: k in notifications ==> notifications[k] == old(notifications)[k]
      ensures Entries() == Run(old(Entries()), ClassifyAll(signals)).registry
      ensures spawned == old(spawned) + Run(old(Entries()), ClassifyAll(signals)).fired
    {
      var i := 0;
      while i < |signals|
        invariant 0 <= i <= |signals|
        invariant appName == old(appName) && appIcon == old(appIcon) && ready == old(ready) && listening
        invariant notifications.Keys <= old(notifications).Keys
        invariant forall k :: k in notifications ==> notifications[k] == old(notifications)[k]
        invariant Entries() == Run(old(Entries()), ClassifyAll(signals[..i])).registry
        invariant spawned == old(spawned) + Run(old(Entries()), ClassifyAll(signals[..i])).fired
      {
        assert ClassifyAll(signals[..i + 1])[..i] == ClassifyAll(signals[..i]);
        Dispatch(signals[i]);
        i := i + 1;
      }
      assert signals[..i] == signals;
    }
  }

  /** The first half of the "Build finished" walk-through: a critical
      notification with one action and a closed handler is sent on an
      initialised session, and the server assigns it id 7. */
  method SendBuildFinished() returns (session: Session, a: Notification)
    ensures fresh(session)
    ensures session.ready && session.listening && session.spawned == []
    ensures session.notifications == map[7 := a]
    ensures a.id == 7 && a.summary == "Build finished" && a.urgency == UrgencyCritical
    ensures a.hints == map[UrgencyKey := UrgencyByte(UrgencyCritical)]
    ensures a.actions == map["open" := Action("Open Log", ActionHandler(1))]
    ensures a.closedHandler == Some(ClosedHandler(2))
  {
    session := new Session();
    var _ := session.Init("builder", "", Connected);
    a := new Notification.New("Build finished", "");
    a.SetUrgency(UrgencyCritical);
    a.AddActionHandler("open", "Open Log", Some(ActionHandler(1)));
    a.SetClosedHandler(Some(ClosedHandler(2)));
    assert a.actions == map["open" := Action("Open Log", ActionHandler(1))];
    var call, err := session.Notify(a, s => s, Assigned(7));
  }

  /** The whole walk-through: after sending, the user clicks "open", then
      dismisses the notification. The action handler and then the closed
      handler (with reason 2) are started once each, and id 7 is no longer
      registered. */
  method BuildFinished() returns (id: uint32, fired: seq<Invocation>, registered: bool)
    ensures id == 7
    ensures fired == [ActionCall(7, "open", ActionHandler(1)), ClosedCall(7, ClosedHandler(2), ReasonDismissed)]
    ensures !registered
  {
    var session, a := SendBuildFinished();
    id := a.id;
    ghost var entries := session.Entries();
    assert entries == map[7 := a.Fields()];

    InvokedMemberRoutes(7, "open");
    session.Dispatch(Signal(InvokedMember, [U32(7), Str("open")]));
    assert session.spawned == [ActionCall(7, "open", ActionHandler(1))];

    ClosedMemberRoutes(7, ReasonDismissed);
    session.Dispatch(Signal(ClosedMember, [U32(7), U32(ReasonDismissed)]));
    fired := session.spawned;
    registered := 7 in session.notifications;
  }
}
