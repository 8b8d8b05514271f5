/** Signal dispatch as pure functions: the classification of a signal by the
    suffix of its name (the body of the event loop started by Init), and the
    effect of one classified event on the registry and on the handlers that
    are started. Run folds the effect over the signals delivered in order. */
module Signals {
  import opened Types
  import opened Entities

  /** A value in a signal's body, as far as the loop's type assertions see it. */
  datatype Value = U32(u: uint32) | Str(s: string) | OtherValue(token: nat)

  /** A signal as delivered by the bus: its qualified member name and its body. */
  datatype Signal = Signal(name: string, body: seq<Value>)

  const ClosedSuffix: string := ".NotificationClosed"
  const InvokedSuffix: string := ".ActionInvoked"

  predicate HasSuffix(s: string, suffix: string)
  {
    |suffix| <= |s| && s[|s| - |suffix|..] == suffix
  }

  /** What the loop makes of one signal. `Malformed` is a routed name whose
      body fails the loop's type assertions; the Go loop panics on it. */
  datatype Event =
    | Closed(id: uint32, reason: uint32)
    | Invoked(id: uint32, key: string)
    | Ignored
    | Malformed

  /** No name ends in both suffixes, so the order of the two tests in the loop
      does not matter. */
  lemma SuffixesExclusive(name: string)
    ensures !(HasSuffix(name, ClosedSuffix) && HasSuffix(name, InvokedSuffix))
  {
    if HasSuffix(name, ClosedSuffix) {
      var n := |name|;
      var tail := name[n - |ClosedSuffix|..];
      assert tail[|ClosedSuffix| - 3] == 's';
      assert name[n - 3] == 's';
    }
  }

  /** The body of a NotificationClosed signal passes `Body[0].(uint32)` and `Body[1].(uint32)`. */
  predicate IsClosedBody(body: seq<Value>)
  {
    |body| >= 2 && body[0].U32? && body[1].U32?
  }

  /** The body of an ActionInvoked signal passes `Body[0].(uint32)` and `Body[1].(string)`. */
  predicate IsInvokedBody(body: seq<Value>)
  {
    |body| >= 2 && body[0].U32? && body[1].Str?
  }

  /** Routes a signal by the suffix of its name; any other name is ignored. */
  function Classify(sig: Signal): (ev: Event)
    ensures ev.Ignored? <==> !HasSuffix(sig.name, ClosedSuffix) && !HasSuffix(sig.name, InvokedSuffix)
    ensures ev.Closed? ==> HasSuffix(sig.name, ClosedSuffix)
    ensures ev.Invoked? ==> HasSuffix(sig.name, InvokedSuffix)
    ensures HasSuffix(sig.name, ClosedSuffix) && IsClosedBody(sig.body)
      ==> ev == Closed(sig.body[0].u, sig.body[1].u)
    ensures HasSuffix(sig.name, InvokedSuffix) && IsInvokedBody(sig.body)
      ==> ev == Invoked(sig.body[0].u, sig.body[1].s)
    ensures ev.Malformed? <==>
      || (HasSuffix(sig.name, ClosedSuffix) && !IsClosedBody(sig.body))
      || (HasSuffix(sig.name, InvokedSuffix) && !IsInvokedBody(sig.body))
  {
    SuffixesExclusive(sig.name);
    if HasSuffix(sig.name, ClosedSuffix) then
      if IsClosedBody(sig.body) then Closed(sig.body[0].u, sig.body[1].u) else Malformed
    else if HasSuffix(sig.name, InvokedSuffix) then
      if IsInvokedBody(sig.body) then Invoked(sig.body[0].u, sig.body[1].s) else Malformed
    else Ignored
  }

  /** The qualified member names the notification server emits. */
  const ClosedMember: string := "org.freedesktop.Notifications.NotificationClosed"
  const InvokedMember: string := "org.freedesktop.Notifications.ActionInvoked"

  /** The server's NotificationClosed signal is routed to the closed handler. */
  lemma ClosedMemberRoutes(id: uint32, reason: uint32)
    ensures Classify(Signal(ClosedMember, [U32(id), U32(reason)])) == Closed(id, reason)
  {
  }

  /** The server's ActionInvoked signal is routed to the action handler. */
  lemma InvokedMemberRoutes(id: uint32, key: string)
    ensures Classify(Signal(InvokedMember, [U32(id), Str(key)])) == Invoked(id, key)
  {
  }

  /** The events of a sequence of signals, in delivery order. */
  function ClassifyAll(signals: seq<Signal>): seq<Event>
  {
    seq(|signals|, i requires 0 <= i < |signals| => Classify(signals[i]))
  }

  /** A handler started on a goroutine: an action handler for `key` of
      notification `id`, or the closed handler of `id` with the reason. */
  datatype Invocation =
    | ActionCall(id: uint32, key: string, action: ActionHandler)
    | ClosedCall(id: uint32, handler: ClosedHandler, reason: uint32)

  /** The registry after one event: a close removes its id, nothing else
      removes or adds anything. */
  function AfterEvent<V>(registry: map<uint32, V>, ev: Event): (r: map<uint32, V>)
    ensures ev.Closed? ==> r.Keys == registry.Keys - {ev.id}
    ensures !ev.Closed? ==> r == registry
    ensures forall k :: k in r ==> k in registry && r[k] == registry[k]
  {
    if ev.Closed? then registry - {ev.id} else registry
  }

  /** The handlers one event starts, looked up in the registry before the
      event's own removal. An unknown id or action key starts nothing. */
  function Fired(registry: map<uint32, Entity>, ev: Event): (fired: seq<Invocation>)
    ensures |fired| <= 1
  {
    match ev
    case Closed(id, reason) =>
      if id in registry && registry[id].closedHandler.Some?
      then [ClosedCall(id, registry[id].closedHandler.value, reason)]
      else []
    case Invoked(id, key) =>
      if id in registry && key in registry[id].actions
      then [ActionCall(id, key, registry[id].actions[key].handler)]
      else []
    case _ => []
  }

  datatype Outcome = Outcome(registry: map<uint32, Entity>, fired: seq<Invocation>)

  /** The registry and the handlers started after the loop has handled
      `events` in order, starting from `registry`. */
  function Run(registry: map<uint32, Entity>, events: seq<Event>): Outcome
  {
    if events == [] then Outcome(registry, [])
    else
      var before := Run(registry, events[..|events| - 1]);
      var ev := events[|events| - 1];
      Outcome(AfterEvent(before.registry, ev), before.fired + Fired(before.registry, ev))
  }

  /** Signals only ever remove entries; what is left is unchanged. */
  lemma {:induction false} RunOnlyRemoves(registry: map<uint32, Entity>, events: seq<Event>)
    ensures Run(registry, events).registry.Keys <= registry.Keys
    ensures forall k :: k in Run(registry, events).registry ==> Run(registry, events).registry[k] == registry[k]
  {
    if events != [] {
      RunOnlyRemoves(registry, events[..|events| - 1]);
    }
  }

  /** Without a NotificationClosed event the registry stays as it was. */
  lemma {:induction false} RunWithoutCloseKeepsRegistry(registry: map<uint32, Entity>, events: seq<Event>)
    requires forall i :: 0 <= i < |events| ==> !events[i].Closed?
    ensures Run(registry, events).registry == registry
  {
    if events != [] {
      RunWithoutCloseKeepsRegistry(registry, events[..|events| - 1]);
    }
  }

  /** How many times the closed handler of `id` occurs in `fired`. */
  function ClosedCount(fired: seq<Invocation>, id: uint32): nat
  {
    if fired == [] then 0
    else ClosedCount(fired[..|fired| - 1], id) + (if fired[|fired| - 1].ClosedCall? && fired[|fired| - 1].id == id then 1 else 0)
  }

  lemma {:induction false} ClosedCountAppend(a: seq<Invocation>, b: seq<Invocation>, id: uint32)
    ensures ClosedCount(a + b, id) == ClosedCount(a, id) + ClosedCount(b, id)
  {
    if b != [] {
      assert (a + b)[..|a + b| - 1] == a + b[..|b| - 1];
      ClosedCountAppend(a, b[..|b| - 1], id);
    } else {
      assert a + b == a;
    }
  }

  /** Over any sequence of signals the closed handler of a notification is
      started at most once, never for an id that was not registered, and
      once started, the id is no longer registered. */
  lemma {:induction false} ClosedHandlerAtMostOnce(registry: map<uint32, Entity>, events: seq<Event>, id: uint32)
    ensures ClosedCount(Run(registry, events).fired, id) <= (if id in registry then 1 else 0)
    ensures ClosedCount(Run(registry, events).fired, id) == 1 ==> id !in Run(registry, events).registry
  {
    if events != [] {
      var prefix := events[..|events| - 1];
      var ev := events[|events| - 1];
      var before := Run(registry, prefix);
      ClosedHandlerAtMostOnce(registry, prefix, id);
      RunOnlyRemoves(registry, prefix);
      ClosedCountAppend(before.fired, Fired(before.registry, ev), id);
      var step := Fired(before.registry, ev);
      assert ClosedCount(step, id) <= (if id in before.registry then 1 else 0) by {
        if step != [] {
          assert step[..0] == [];
        }
      }
    }
  }

  /** Every action handler started was registered under that id and key
      when its signal arrived, the registry being a subset of the first one. */
  lemma {:induction false} ActionCallsWereRegistered(registry: map<uint32, Entity>, events: seq<Event>, k: nat)
    requires k < |Run(registry, events).fired|
    requires Run(registry, events).fired[k].ActionCall?
    ensures var call := Run(registry, events).fired[k];
      && call.id in registry
      && call.key in registry[call.id].actions
      && registry[call.id].actions[call.key].handler == call.action
      && Invoked(call.id, call.key) in events
  {
    var prefix := events[..|events| - 1];
    var ev := events[|events| - 1];
    var before := Run(registry, prefix);
    RunOnlyRemoves(registry, prefix);
    if k < |before.fired| {
      ActionCallsWereRegistered(registry, prefix, k);
      assert Invoked(before.fired[k].id, before.fired[k].key) in prefix;
    } else {
      assert events[|events| - 1] == ev;
    }
  }
}
