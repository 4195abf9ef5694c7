/**
 * The publish/subscribe bus: a dictionary from event name to the ordered
 * list of listeners subscribed to it.
 *
 * A listener is identified by the id of the callback it wraps. Listeners
 * are opaque: they may fail (an exception the bus catches), but they do
 * not call back into the bus, except for the wrapper `once` installs,
 * which unsubscribes itself before running its callback.
 */
module Events {
  import opened Json

  datatype Listener =
    | Plain(callback: nat)             // a callback passed to `on`
    | Once(token: nat, callback: nat)  // the wrapper `once` creates; `token` is its identity

  /** The function `on` returns: calling it is `off(name, listener)`. */
  datatype Unsubscribe = Unsubscribe(name: string, listener: Listener)

  /** `list.filter(cb => cb !== l)` */
  function Without(list: seq<Listener>, l: Listener): (r: seq<Listener>)
    ensures l !in r
    ensures forall x :: x in r <==> x in list && x != l
    ensures forall x :: x != l ==> multiset(r)[x] == multiset(list)[x]
  {
    if list == [] then []
    else
      var rest := Without(list[..|list| - 1], l);
      var last := list[|list| - 1];
      assert list == list[..|list| - 1] + [last];
      if last == l then rest else rest + [last]
  }

  /** Filtering is done piecewise, so the survivors keep their relative order. */
  lemma {:induction false} WithoutConcat(a: seq<Listener>, b: seq<Listener>, l: Listener)
    ensures Without(a + b, l) == Without(a, l) + Without(b, l)
    decreases |b|
  {
    if b == [] {
      assert a + b == a;
    } else {
      var b' := b[..|b| - 1];
      assert (a + b)[..|a + b| - 1] == a + b';
      assert (a + b)[|a + b| - 1] == b[|b| - 1];
      WithoutConcat(a, b', l);
    }
  }

  /** The listeners of `list` not in `gone`, in order. */
  function Keep(list: seq<Listener>, gone: set<Listener>): seq<Listener> {
    if list == [] then []
    else
      var last := list[|list| - 1];
      Keep(list[..|list| - 1], gone) + (if last in gone then [] else [last])
  }

  lemma {:induction false} KeepMembers(list: seq<Listener>, gone: set<Listener>)
    ensures forall x :: x in Keep(list, gone) <==> x in list && x !in gone
  {
    if list != [] {
      KeepMembers(list[..|list| - 1], gone);
      assert list == list[..|list| - 1] + [list[|list| - 1]];
    }
  }

  lemma {:induction false} KeepThenWithout(list: seq<Listener>, gone: set<Listener>, l: Listener)
    ensures Without(Keep(list, gone), l) == Keep(list, gone + {l})
  {
    if list != [] {
      var init := list[..|list| - 1];
      var last := list[|list| - 1];
      KeepThenWithout(init, gone, l);
      WithoutConcat(Keep(init, gone), if last in gone then [] else [last], l);
    }
  }

  lemma {:induction false} KeepNothing(list: seq<Listener>)
    ensures Keep(list, {}) == list
  {
    if list != [] {
      KeepNothing(list[..|list| - 1]);
      assert list == list[..|list| - 1] + [list[|list| - 1]];
    }
  }

  /** The once-wrappers among `list`. */
  function OncesIn(list: seq<Listener>): (r: set<Listener>)
    ensures forall x :: x in r <==> x in list && x.Once?
  {
    if list == [] then {}
    else
      var last := list[|list| - 1];
      assert list == list[..|list| - 1] + [last];
      OncesIn(list[..|list| - 1]) + (if last.Once? then {last} else {})
  }

  /** What is left of a list once every once-wrapper in it has removed itself. */
  function PlainOnly(list: seq<Listener>): (r: seq<Listener>)
    ensures forall x :: x in r <==> x in list && x.Plain?
  {
    KeepMembers(list, OncesIn(list));
    Keep(list, OncesIn(list))
  }

  /** The callbacks among `cbs` that throw. */
  function Failing(cbs: seq<nat>, throws: nat -> bool): seq<nat> {
    if cbs == [] then []
    else Failing(cbs[..|cbs| - 1], throws) + (if throws(cbs[|cbs| - 1]) then [cbs[|cbs| - 1]] else [])
  }

  /** A failure is reported for exactly the invoked callbacks that throw; the others run normally. */
  lemma {:induction false} FailingExactly(cbs: seq<nat>, throws: nat -> bool)
    ensures forall c :: c in Failing(cbs, throws) <==> c in cbs && throws(c)
  {
    if cbs != [] {
      FailingExactly(cbs[..|cbs| - 1], throws);
      assert cbs == cbs[..|cbs| - 1] + [cbs[|cbs| - 1]];
    }
  }

  lemma PrefixStep(list: seq<Listener>, i: nat)
    requires i < |list|
    ensures OncesIn(list[..i + 1]) == OncesIn(list[..i]) + (if list[i].Once? then {list[i]} else {})
  {
    assert list[..i + 1] == list[..i] + [list[i]];
    assert list[..i + 1][..i] == list[..i];
  }

  lemma FailingStep(cbs: seq<nat>, c: nat, throws: nat -> bool)
    ensures Failing(cbs + [c], throws) == Failing(cbs, throws) + (if throws(c) then [c] else [])
  {
    assert (cbs + [c])[..|cbs|] == cbs;
  }

  /** The callbacks of `list`, in order. */
  function Callbacks(list: seq<Listener>): seq<nat> {
    if list == [] then [] else Callbacks(list[..|list| - 1]) + [list[|list| - 1].callback]
  }

  lemma {:induction false} CallbacksAt(list: seq<Listener>)
    ensures |Callbacks(list)| == |list|
    ensures forall j :: 0 <= j < |list| ==> Callbacks(list)[j] == list[j].callback
  {
    if list != [] {
      CallbacksAt(list[..|list| - 1]);
    }
  }

  /** One more listener of the dispatch: a once-wrapper removes itself from what is left, a plain listener stays. */
  lemma DispatchStep(list: seq<Listener>, i: nat)
    requires i < |list|
    ensures Callbacks(list[..i + 1]) == Callbacks(list[..i]) + [list[i].callback]
    ensures Keep(list, OncesIn(list[..i + 1]))
            == if list[i].Once? then Without(Keep(list, OncesIn(list[..i])), list[i]) else Keep(list, OncesIn(list[..i]))
  {
    PrefixStep(list, i);
    assert list[..i + 1][..i] == list[..i];
    if list[i].Once? {
      KeepThenWithout(list, OncesIn(list[..i]), list[i]);
    } else {
      assert OncesIn(list[..i + 1]) == OncesIn(list[..i]);
    }
  }

  /** A second update under the same name overrides the first. */
  lemma UpdateTwice(m: map<string, seq<Listener>>, name: string, a: seq<Listener>, b: seq<Listener>)
    ensures m[name := a][name := b] == m[name := b]
  {
  }

  class EventSystem {
    var events: map<string, seq<Listener>>
    /** The identity the next once-wrapper gets. */
    var nextToken: nat

    constructor()
      ensures events == map[]
    {
      events := map[];
      nextToken := 0;
    }

    function Listeners(name: string): seq<Listener>
      reads this
    {
      if name in events then events[name] else []
    }

    /** listenerCount: the length of the list, 0 for an unknown name. */
    function ListenerCount(name: string): (n: nat)
      reads this
      ensures name !in events ==> n == 0
      ensures name in events ==> n == |events[name]|
    {
      |Listeners(name)|
    }

    /** on: append the callback at the end of the name's list, creating the list if needed. */
    method On(name: string, callback: nat) returns (unsub: Unsubscribe)
      modifies this
      ensures events == old(events)[name := old(Listeners(name)) + [Plain(callback)]]
      ensures ListenerCount(name) == old(ListenerCount(name)) + 1
      ensures nextToken == old(nextToken)
      ensures unsub == Unsubscribe(name, Plain(callback))
    {
      unsub := Subscribe(name, Plain(callback));
    }

    method Subscribe(name: string, l: Listener) returns (unsub: Unsubscribe)
      modifies this
      ensures events == old(events)[name := old(Listeners(name)) + [l]]
      ensures nextToken == old(nextToken)
      ensures unsub == Unsubscribe(name, l)
    {
      var list := if name in events then events[name] else [];
      events := events[name := list + [l]];
      unsub := Unsubscribe(name, l);
    }

    /** once: subscribe a fresh wrapper that unsubscribes itself before running the callback. */
    method Once(name: string, callback: nat) returns (unsub: Unsubscribe)
      modifies this
      ensures events == old(events)[name := old(Listeners(name)) + [Listener.Once(old(nextToken), callback)]]
      ensures nextToken == old(nextToken) + 1
      ensures unsub == Unsubscribe(name, Listener.Once(old(nextToken), callback))
    {
      var wrapper := Listener.Once(nextToken, callback);
      nextToken := nextToken + 1;
      unsub := Subscribe(name, wrapper);
    }

    /**
     * off: with a listener, drop every occurrence of it from the name's list;
     * without one, delete the whole list; nothing for an unknown name.
     */
    method Off(name: string, listener: Option<Listener>)
      modifies this
      ensures name !in old(events) ==> events == old(events)
      ensures name in old(events) && listener.Some? ==>
                events == old(events)[name := Without(old(events)[name], listener.value)]
      ensures name in old(events) && listener.None? ==> events == old(events) - {name}
      ensures nextToken == old(nextToken)
    {
      if name !in events {
        return;
      }
      if listener.Some? {
        events := events[name := Without(events[name], listener.value)];
      } else {
        events := events - {name};
      }
    }

    /** Calling the function `on` or `once` returned. */
    method Unsub(u: Unsubscribe)
      modifies this
      ensures u.name !in old(events) ==> events == old(events)
      ensures u.name in old(events) ==> events == old(events)[u.name := Without(old(events)[u.name], u.listener)]
      ensures nextToken == old(nextToken)
    {
      Off(u.name, Some(u.listener));
    }

    /**
     * emit: call every listener subscribed when the dispatch starts, in
     * order; a throwing listener is caught and the rest still run. Each
     * once-wrapper removes itself from the live list first, which does not
     * disturb the dispatch. Returns the callbacks invoked and those that threw.
     */
    method Emit(name: string, throws: nat -> bool) returns (invoked: seq<nat>, failed: seq<nat>)
      modifies this
      ensures name !in old(events) ==> events == old(events) && invoked == [] && failed == []
      ensures name in old(events) ==> |invoked| == |old(events)[name]|
      ensures name in old(events) ==> forall j :: 0 <= j < |invoked| ==> invoked[j] == old(events)[name][j].callback
      ensures name in old(events) ==> events == old(events)[name := PlainOnly(old(events)[name])]
      ensures failed == Failing(invoked, throws)
      ensures nextToken == old(nextToken)
    {
      if name !in events {
        return [], [];
      }
      invoked, failed := Dispatch(name, events[name], throws);
    }

    /** The `forEach` of emit over the snapshot `list` of the name's listeners. */
    method Dispatch(name: string, list: seq<Listener>, throws: nat -> bool) returns (invoked: seq<nat>, failed: seq<nat>)
      requires name in events && events[name] == list
      modifies this
      ensures events == old(events)[name := PlainOnly(list)]
      ensures |invoked| == |list|
      ensures forall j :: 0 <= j < |list| ==> invoked[j] == list[j].callback
      ensures failed == Failing(invoked, throws)
      ensures nextToken == old(nextToken)
    {
      invoked, failed := [], [];
      KeepNothing(list);
      assert list[..0] == [];
      assert events == old(events)[name := Keep(list, OncesIn(list[..0]))];
      var i := 0;
      while i < |list|
        invariant 0 <= i <= |list|
        invariant events == old(events)[name := Keep(list, OncesIn(list[..i]))]
        invariant invoked == Callbacks(list[..i])
        invariant failed == Failing(invoked, throws)
        invariant nextToken == old(nextToken)
      {
        var l := list[i];
        DispatchStep(list, i);
        if l.Once? {
          // the wrapper's own `off(name, wrapper)`, before its callback runs
          UpdateTwice(old(events), name, events[name], Without(events[name], l));
          events := events[name := Without(events[name], l)];
        }
        FailingStep(invoked, l.callback, throws);
        invoked := invoked + [l.callback];
        if throws(l.callback) {
          failed := failed + [l.callback];
        }
        i := i + 1;
      }
      assert list[..i] == list;
      CallbacksAt(list);
    }

    /** clear: forget every subscription. */
    method Clear()
      modifies this
      ensures events == map[]
      ensures forall name :: ListenerCount(name) == 0
      ensures nextToken == old(nextToken)
    {
      events := map[];
    }
  }

  /**
   * A once-subscription is dispatched at most once: after the first emit of
   * its name the wrapper is gone, so a second emit does not reach it.
   */
  lemma OnceRunsAtMostOnce(list: seq<Listener>, token: nat, callback: nat)
    ensures Listener.Once(token, callback) !in PlainOnly(list)
    ensures forall l :: l in list && l.Plain? ==> l in PlainOnly(list)
  {
  }
}
