/** The Notification entity: a mutable record built by New and changed by its
    setters, plus the flattening of its actions map into the `actions` argument
    of org.freedesktop.Notifications.Notify (alternating key and display name). */
module Entities {
  import opened Types

  /** The value of every field of a Notification at one moment. */
  datatype Entity = Entity(
    id: uint32,
    icon: string,
    summary: string,
    body: string,
    urgency: Urgency,
    timeout: Duration,
    actions: map<string, Action>,
    hints: map<string, Variant>,
    closedHandler: Option<ClosedHandler>)

  /** The action list produced by visiting the keys in `order`: each key is
      followed by its action's display name. */
  function Pairs(order: seq<string>, actions: map<string, Action>): (list: seq<string>)
    requires forall i :: 0 <= i < |order| ==> order[i] in actions
    ensures |list| == 2 * |order|
  {
    if order == [] then []
    else
      var last := order[|order| - 1];
      Pairs(order[..|order| - 1], actions) + [last, actions[last].name]
  }

  /** `order` lists every key of `keys` exactly once. */
  ghost predicate Enumerates(order: seq<string>, keys: set<string>)
  {
    && (forall i :: 0 <= i < |order| ==> order[i] in keys)
    && (forall k :: k in keys ==> k in order)
    && (forall i, j :: 0 <= i < j < |order| ==> order[i] != order[j])
  }

  /** `list` is the action list of `actions` for some visiting order of its
      keys. Go's map iteration order is unspecified, so no order is fixed. */
  ghost predicate IsActionList(list: seq<string>, actions: map<string, Action>)
  {
    exists order :: Enumerates(order, actions.Keys) && list == Pairs(order, actions)
  }

  /** A repetition-free enumeration of a set is as long as the set is large. */
  lemma {:induction false} EnumerationLength(order: seq<string>, keys: set<string>)
    requires Enumerates(order, keys)
    ensures |order| == |keys|
  {
    if order != [] {
      var n := |order| - 1;
      var last := order[n];
      var prefix := order[..n];
      assert Enumerates(prefix, keys - {last}) by {
        forall k | k in keys - {last} ensures k in prefix {
          assert k in order;
          var i :| 0 <= i < |order| && order[i] == k;
          assert i != n;
          assert prefix[i] == k;
        }
        forall i | 0 <= i < |prefix| ensures prefix[i] in keys - {last} {
          assert prefix[i] == order[i] != order[n];
        }
      }
      EnumerationLength(prefix, keys - {last});
    }
  }

  /** Position 2i of the list holds the i-th visited key, 2i+1 its name. */
  lemma {:induction false} PairsAt(order: seq<string>, actions: map<string, Action>, i: nat)
    requires forall j :: 0 <= j < |order| ==> order[j] in actions
    requires i < |order|
    ensures Pairs(order, actions)[2 * i] == order[i]
    ensures Pairs(order, actions)[2 * i + 1] == actions[order[i]].name
  {
    var n := |order| - 1;
    if i < n {
      PairsAt(order[..n], actions, i);
    }
  }

  /** The action list has two entries per registered action. */
  lemma ActionListLength(list: seq<string>, actions: map<string, Action>)
    requires IsActionList(list, actions)
    ensures |list| == 2 * |actions|
  {
    var order :| Enumerates(order, actions.Keys) && list == Pairs(order, actions);
    EnumerationLength(order, actions.Keys);
  }

  /** Every even position holds a registered key, and the next position
      holds that action's display name. */
  lemma ActionListPair(list: seq<string>, actions: map<string, Action>, i: nat)
    requires IsActionList(list, actions)
    requires i < |actions|
    ensures 2 * i + 1 < |list|
    ensures list[2 * i] in actions
    ensures list[2 * i + 1] == actions[list[2 * i]].name
  {
    var order :| Enumerates(order, actions.Keys) && list == Pairs(order, actions);
    EnumerationLength(order, actions.Keys);
    PairsAt(order, actions, i);
  }

  /** Every registered key appears at some even position. */
  lemma ActionListIndexOf(list: seq<string>, actions: map<string, Action>, key: string)
    returns (i: nat)
    requires IsActionList(list, actions)
    requires key in actions
    ensures i < |actions| && 2 * i < |list|
    ensures list[2 * i] == key
  {
    var order :| Enumerates(order, actions.Keys) && list == Pairs(order, actions);
    EnumerationLength(order, actions.Keys);
    assert key in order;
    i :| 0 <= i < |order| && order[i] == key;
    PairsAt(order, actions, i);
  }

  /** No key appears at two even positions. */
  lemma ActionListUnique(list: seq<string>, actions: map<string, Action>, i: nat, j: nat)
    requires IsActionList(list, actions)
    requires 2 * i < |list| && 2 * j < |list|
    requires list[2 * i] == list[2 * j]
    ensures i == j
  {
    var order :| Enumerates(order, actions.Keys) && list == Pairs(order, actions);
    PairsAt(order, actions, i);
    PairsAt(order, actions, j);
  }

  /** A notification as the package holds it: one heap object, shared by the
      caller and the registry, whose fields are updated in place. */
  class Notification {
    var id: uint32
    var icon: string
    var summary: string
    var body: string
    var urgency: Urgency
    var timeout: Duration
    var actions: map<string, Action>
    var hints: map<string, Variant>
    var closedHandler: Option<ClosedHandler>

    /** All fields at once. */
    function Fields(): Entity
      reads this
    {
      Entity(id, icon, summary, body, urgency, timeout, actions, hints, closedHandler)
    }

    /** A fresh notification: not yet sent (id 0), normal urgency, the
        server's default timeout, no icon, hints, actions or closed handler. */
    constructor New(summary: string, body: string)
      ensures Fields() == Entity(0, "", summary, body, UrgencyNormal, ExpiresDefault, map[], map[], None)
    {
      this.id := 0;
      this.icon := "";
      this.summary := summary;
      this.body := body;
      this.urgency := UrgencyNormal;
      this.timeout := ExpiresDefault;
      this.actions := map[];
      this.hints := map[];
      this.closedHandler := None;
    }

    /** An empty icon means the session's default icon is used when sending. */
    method SetIcon(icon: string)
      modifies this
      ensures Fields() == old(Fields()).(icon := icon)
    {
      this.icon := icon;
    }

    method SetSummary(summary: string)
      modifies this
      ensures Fields() == old(Fields()).(summary := summary)
    {
      this.summary := summary;
    }

    method SetBody(body: string)
      modifies this
      ensures Fields() == old(Fields()).(body := body)
    {
      this.body := body;
    }

    method SetUrgency(urgency: Urgency)
      modifies this
      ensures Fields() == old(Fields()).(urgency := urgency)
    {
      this.urgency := urgency;
    }

    method SetTimeout(timeout: Duration)
      modifies this
      ensures Fields() == old(Fields()).(timeout := timeout)
    {
      this.timeout := timeout;
    }

    /** A nil value removes the hint, any other value sets it. The "urgency"
        key is stored like any other; Notify overwrites it before sending. */
    method AddHint(key: string, value: Option<Variant>)
      modifies this
      ensures value.None? ==> key !in hints
      ensures value.Some? ==> key in hints && hints[key] == value.value
      ensures forall k :: k != key ==> (k in hints <==> k in old(hints))
      ensures forall k :: k != key && k in hints ==> hints[k] == old(hints)[k]
      ensures Fields() == old(Fields()).(hints := hints)
    {
      if value.None? {
        hints := hints - {key};
      } else {
        hints := hints[key := value.value];
      }
    }

    /** A nil handler removes the closed handler. */
    method SetClosedHandler(handler: Option<ClosedHandler>)
      modifies this
      ensures Fields() == old(Fields()).(closedHandler := handler)
    {
      this.closedHandler := handler;
    }

    /** A nil handler removes the action `key`; otherwise the entry for `key`
        becomes (name, handler), replacing any earlier one. */
    method AddActionHandler(key: string, name: string, handler: Option<ActionHandler>)
      modifies this
      ensures handler.None? ==> key !in actions
      ensures handler.Some? ==> key in actions && actions[key] == Action(name, handler.value)
      ensures forall k :: k != key ==> (k in actions <==> k in old(actions))
      ensures forall k :: k != key && k in actions ==> actions[k] == old(actions)[k]
      ensures |actions| <= |old(actions)| + 1
      ensures Fields() == old(Fields()).(actions := actions)
    {
      if handler.None? {
        actions := actions - {key};
      } else {
        actions := actions[key := Action(name, handler.value)];
      }
    }

    /** Flattens the actions map into alternating (key, name) entries, one
        pair per action, visiting the keys in an unspecified order. */
    method ActionList() returns (list: seq<string>)
      ensures IsActionList(list, actions)
    {
      list := [];
      ghost var order: seq<string> := [];
      var remaining := actions.Keys;
      while remaining != {}
        invariant remaining <= actions.Keys
        invariant Enumerates(order, actions.Keys - remaining)
        invariant list == Pairs(order, actions)
        decreases remaining
      {
        var key :| key in remaining;
        ghost var visited := order;
        list := list + [key, actions[key].name];
        order := order + [key];
        assert order[..|order| - 1] == visited;
        remaining := remaining - {key};
      }
      assert actions.Keys - remaining == actions.Keys;
    }
  }
}
