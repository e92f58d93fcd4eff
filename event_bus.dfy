/**
 * Pure part of the bridge's event bus: a registry from event name to an
 * ordered list of listeners, and what one emission delivers.
 */
module EventBus {

  /** A registered callback: its identity, and whether invoking it throws. */
  datatype Listener = Listener(id: nat, throws: bool)

  /** One invocation of a listener by `emit`; `threw` records a caught exception. */
  datatype Delivery<D> = Delivery(listener: Listener, event: string, data: D, threw: bool)

  /** `listeners.indexOf(x)`: the first position of `x`, or -1. */
  function IndexOf(s: seq<Listener>, x: Listener): (i: int)
    ensures -1 <= i < |s|
    ensures i == -1 <==> x !in s
    ensures 0 <= i ==> s[i] == x && x !in s[..i]
  {
    if s == [] then -1
    else if s[0] == x then 0
    else
      var j := IndexOf(s[1..], x);
      assert j >= 0 ==> s[1..][..j] == s[1..j + 1];
      if j == -1 then -1 else j + 1
  }

  /** `listeners.splice(listeners.indexOf(x), 1)` guarded by `index > -1`. */
  function RemoveFirst(s: seq<Listener>, x: Listener): seq<Listener> {
    var i := IndexOf(s, x);
    if i > -1 then s[..i] + s[i + 1..] else s
  }

  /**
   * Removing a listener that is absent changes nothing; removing a present
   * one drops exactly its first occurrence.
   */
  lemma RemoveFirstSpec(s: seq<Listener>, x: Listener)
    ensures x !in s ==> RemoveFirst(s, x) == s
    ensures x in s ==> |RemoveFirst(s, x)| == |s| - 1
                       && RemoveFirst(s, x) == s[..IndexOf(s, x)] + s[IndexOf(s, x) + 1..]
  {
  }

  /** Removal takes exactly one copy of `x` out of the multiset of registrations, if there is one. */
  lemma RemoveFirstCount(s: seq<Listener>, x: Listener)
    ensures multiset(RemoveFirst(s, x)) == multiset(s) - multiset{x}
  {
    var i := IndexOf(s, x);
    if i > -1 {
      var front, back := s[..i], s[i + 1..];
      assert RemoveFirst(s, x) == front + back;
      assert s == front + [x] + back;
      assert multiset(s) == multiset(front) + multiset{x} + multiset(back);
    }
  }

  /** The listeners of `name` in `registry`, in registration order (none when the name is absent). */
  function ListenersOf(registry: map<string, seq<Listener>>, name: string): seq<Listener> {
    if name in registry then registry[name] else []
  }

  /** `on(name, l)`: `l` is appended to the listeners of `name`. */
  function Register(registry: map<string, seq<Listener>>, name: string, l: Listener): map<string, seq<Listener>> {
    registry[name := ListenersOf(registry, name) + [l]]
  }

  /** `off(name, l)`: the first registration of `l` under `name` is removed. */
  function Unregister(registry: map<string, seq<Listener>>, name: string, l: Listener): map<string, seq<Listener>> {
    if name in registry then registry[name := RemoveFirst(registry[name], l)] else registry
  }

  /** Registering appends to the named list and leaves every other list alone. */
  lemma RegisterSpec(registry: map<string, seq<Listener>>, name: string, l: Listener)
    ensures ListenersOf(Register(registry, name, l), name) == ListenersOf(registry, name) + [l]
    ensures forall n :: n != name ==> ListenersOf(Register(registry, name, l), n) == ListenersOf(registry, n)
  {
  }

  /**
   * Unregistering removes the first registration from the named list and
   * leaves every other list alone; an unknown name or listener changes nothing.
   */
  lemma UnregisterSpec(registry: map<string, seq<Listener>>, name: string, l: Listener)
    ensures ListenersOf(Unregister(registry, name, l), name) == RemoveFirst(ListenersOf(registry, name), l)
    ensures forall n :: n != name ==> ListenersOf(Unregister(registry, name, l), n) == ListenersOf(registry, n)
    ensures l !in ListenersOf(registry, name) ==> Unregister(registry, name, l) == registry
  {
    if name in registry {
      RemoveFirstSpec(registry[name], l);
    }
  }

  /** The deliveries of one emission to `ls`: every listener, in order, whether or not it throws. */
  function Fanout<D>(ls: seq<Listener>, name: string, data: D): seq<Delivery<D>>
    decreases |ls|
  {
    if ls == [] then []
    else Fanout(ls[..|ls| - 1], name, data) + [Delivery(ls[|ls| - 1], name, data, ls[|ls| - 1].throws)]
  }

  /** Logging two batches in turn is logging their concatenation. */
  lemma AppendAssoc<T>(a: seq<T>, b: seq<T>, c: seq<T>)
    ensures a + b + c == a + (b + c)
  {
  }

  /**
   * An emission invokes every listener exactly once, in registration order,
   * and a listener that throws does not stop the ones after it.
   */
  lemma {:induction false} FanoutReachesEveryListener<D>(ls: seq<Listener>, name: string, data: D)
    ensures |Fanout(ls, name, data)| == |ls|
    ensures forall i :: 0 <= i < |ls| ==> Fanout(ls, name, data)[i] == Delivery(ls[i], name, data, ls[i].throws)
    decreases |ls|
  {
    if ls != [] {
      FanoutReachesEveryListener(ls[..|ls| - 1], name, data);
    }
  }

  /** Registering a listener that was not there and then removing it restores the list. */
  lemma {:induction false} RemoveFirstUndoesAppend(s: seq<Listener>, x: Listener)
    requires x !in s
    ensures RemoveFirst(s + [x], x) == s
  {
    assert IndexOf(s + [x], x) == |s| by {
      assert (s + [x])[|s|] == x;
      assert (s + [x])[..|s|] == s;
    }
    assert (s + [x])[..|s|] == s;
  }

  /** Removing a listener keeps the relative order of every other registration. */
  lemma {:induction false} RemoveFirstKeepsOthers(s: seq<Listener>, x: Listener, i: nat, j: nat)
    requires i < j < |s| && s[i] != x && s[j] != x
    ensures exists i', j' ::
              0 <= i' < j' < |RemoveFirst(s, x)| && RemoveFirst(s, x)[i'] == s[i] && RemoveFirst(s, x)[j'] == s[j]
  {
    var r := RemoveFirst(s, x);
    if x in s {
      var k := IndexOf(s, x);
      var i' := if i < k then i else i - 1;
      var j' := if j < k then j else j - 1;
      assert r[i'] == s[i];
      assert r[j'] == s[j];
    } else {
      assert r[i] == s[i] && r[j] == s[j];
    }
  }
}
