/**
 * The Stardust event emitter: for each event name, an insertion-ordered set
 * of listeners. Callbacks are opaque; emitting records which ones are called.
 */
module StardustEventEmitter {

  import opened Wrappers

  /**
   * A listener as stored in the set: a callback registered with `on`, or the
   * wrapper `once` creates around a callback. Every call of `once` makes a new
   * wrapper, told apart from the others by its token.
   */
  datatype Listener = Direct(callback: nat) | OnceWrapper(callback: nat, token: nat)

  /** What the unsubscribe closure returned by `on` captures. */
  datatype Subscription = Subscription(eventName: string, listener: Listener)

  predicate NoDuplicates(ls: seq<Listener>)
  {
    forall i, j :: 0 <= i < j < |ls| ==> ls[i] != ls[j]
  }

  function ListenersOf(m: map<string, seq<Listener>>, name: string): seq<Listener>
  {
    if name in m then m[name] else []
  }

  /** `Set.add`: a listener already present keeps its place. */
  function Added(ls: seq<Listener>, l: Listener): (r: seq<Listener>)
    ensures l in r && forall x :: x in r <==> x in ls || x == l
    ensures NoDuplicates(ls) ==> NoDuplicates(r)
    ensures l in ls ==> r == ls
    ensures l !in ls ==> r == ls + [l]
  {
    if l in ls then ls else ls + [l]
  }

  /** `Set.delete`. */
  function Removed(ls: seq<Listener>, l: Listener): seq<Listener>
  {
    if ls == [] then []
    else if ls[0] == l then Removed(ls[1..], l)
    else [ls[0]] + Removed(ls[1..], l)
  }

  /** `Set.delete` removes exactly that listener and keeps the set free of repeats. */
  lemma {:induction false} RemovedMembers(ls: seq<Listener>, l: Listener)
    ensures forall x :: x in Removed(ls, l) <==> x in ls && x != l
    ensures NoDuplicates(ls) ==> NoDuplicates(Removed(ls, l))
    decreases |ls|
  {
    if ls != [] {
      RemovedMembers(ls[1..], l);
      assert ls == [ls[0]] + ls[1..];
      assert NoDuplicates(ls) ==> ls[0] !in ls[1..] && NoDuplicates(ls[1..]);
    }
  }

  /** Whether emitting removes this listener: a once-wrapper whose callback returned normally. */
  predicate Expires(l: Listener, throwing: set<nat>)
  {
    l.OnceWrapper? && l.callback !in throwing
  }

  /** The callbacks one emission calls, in set order. */
  function Fired(ls: seq<Listener>): (calls: seq<nat>)
    ensures |calls| == |ls|
    ensures forall i :: 0 <= i < |ls| ==> calls[i] == ls[i].callback
  {
    seq(|ls|, i requires 0 <= i < |ls| => ls[i].callback)
  }

  /** The listeners left after an emission in which the callbacks in `throwing` threw. */
  function Remaining(ls: seq<Listener>, throwing: set<nat>): seq<Listener>
  {
    if ls == [] then []
    else
      var last := ls[|ls| - 1];
      var front := Remaining(ls[..|ls| - 1], throwing);
      if Expires(last, throwing) then front else front + [last]
  }

  /** An emission keeps exactly the listeners that do not expire, without repeats. */
  lemma {:induction false} RemainingMembers(ls: seq<Listener>, throwing: set<nat>)
    ensures forall x :: x in Remaining(ls, throwing) <==> x in ls && !Expires(x, throwing)
    ensures NoDuplicates(ls) ==> NoDuplicates(Remaining(ls, throwing))
    decreases |ls|
  {
    if ls != [] {
      var last := ls[|ls| - 1];
      RemainingMembers(ls[..|ls| - 1], throwing);
      assert ls == ls[..|ls| - 1] + [last];
      assert NoDuplicates(ls) ==> last !in ls[..|ls| - 1] && NoDuplicates(ls[..|ls| - 1]);
    }
  }

  lemma {:induction false} RemovedConcat(a: seq<Listener>, b: seq<Listener>, l: Listener)
    ensures Removed(a + b, l) == Removed(a, l) + Removed(b, l)
    decreases |a|
  {
    if a == [] {
      assert a + b == b;
    } else {
      assert (a + b)[1..] == a[1..] + b;
      RemovedConcat(a[1..], b, l);
    }
  }

  lemma {:induction false} RemovedAbsent(ls: seq<Listener>, l: Listener)
    requires l !in ls
    ensures Removed(ls, l) == ls
    decreases |ls|
  {
    if ls != [] {
      assert ls[0] in ls;
      RemovedAbsent(ls[1..], l);
    }
  }

  /** Subscribing a new listener and then unsubscribing it restores the set. */
  lemma SubscribeUnsubscribe(ls: seq<Listener>, l: Listener)
    requires l !in ls
    ensures Removed(Added(ls, l), l) == ls
  {
    RemovedConcat(ls, [l], l);
    RemovedAbsent(ls, l);
    assert Removed([l], l) == Removed([], l);
  }

  /** Subscribing the same listener twice is the same as subscribing it once. */
  lemma AddedIdempotent(ls: seq<Listener>, l: Listener)
    ensures Added(Added(ls, l), l) == Added(ls, l)
  {
  }

  /**
   * A once-listener whose callback returned normally is gone after the
   * emission, so the next emission does not call it through that wrapper;
   * listeners added with `on` stay.
   */
  lemma OnceFiresOnce(ls: seq<Listener>, throwing: set<nat>, cb: nat, token: nat)
    requires OnceWrapper(cb, token) in ls && cb !in throwing
    ensures OnceWrapper(cb, token) !in Remaining(ls, throwing)
    ensures forall x :: x in ls && x.Direct? ==> x in Remaining(ls, throwing)
  {
    RemainingMembers(ls, throwing);
  }

  /** One step of an emission: the current once-wrapper removes itself from the live set. */
  lemma {:induction false} EmitStep(ls: seq<Listener>, i: nat, throwing: set<nat>)
    requires NoDuplicates(ls) && i < |ls|
    ensures Remaining(ls[..i + 1], throwing) + ls[i + 1..] ==
      if Expires(ls[i], throwing) then Removed(Remaining(ls[..i], throwing) + ls[i..], ls[i])
      else Remaining(ls[..i], throwing) + ls[i..]
  {
    assert ls[..i + 1][..i] == ls[..i];
    assert ls[i..] == [ls[i]] + ls[i + 1..];
    if Expires(ls[i], throwing) {
      ExpiredStep(ls, i, throwing);
    } else {
      assert Remaining(ls[..i], throwing) + [ls[i]] + ls[i + 1..] == Remaining(ls[..i], throwing) + ls[i..];
    }
  }

  /** The expiring case of `EmitStep`: deleting the wrapper touches nothing else. */
  lemma ExpiredStep(ls: seq<Listener>, i: nat, throwing: set<nat>)
    requires NoDuplicates(ls) && i < |ls|
    requires ls[i..] == [ls[i]] + ls[i + 1..]
    ensures Removed(Remaining(ls[..i], throwing) + ls[i..], ls[i]) == Remaining(ls[..i], throwing) + ls[i + 1..]
  {
    var front := Remaining(ls[..i], throwing);
    assert ls[i] !in front by {
      assert ls[i] !in ls[..i];
      RemainingMembers(ls[..i], throwing);
    }
    assert ls[i] !in ls[i + 1..] by {
      forall j | i + 1 <= j < |ls| ensures ls[j] != ls[i] { }
    }
    RemovedConcat(front, ls[i..], ls[i]);
    RemovedConcat([ls[i]], ls[i + 1..], ls[i]);
    RemovedAbsent(front, ls[i]);
    RemovedAbsent(ls[i + 1..], ls[i]);
    assert Removed([ls[i]], ls[i]) == [];
  }

  /**
   * The live listener set after the first `i` listeners of the snapshot `ls`
   * have had their turn, each expired once-wrapper deleting itself.
   */
  function Live(ls: seq<Listener>, i: nat, throwing: set<nat>): seq<Listener>
    requires i <= |ls|
  {
    if i == 0 then ls
    else
      var before := Live(ls, i - 1, throwing);
      if Expires(ls[i - 1], throwing) then Removed(before, ls[i - 1]) else before
  }

  /** Deleting expired wrappers one by one during the walk leaves exactly `Remaining`. */
  lemma {:induction false} LiveIsRemaining(ls: seq<Listener>, i: nat, throwing: set<nat>)
    requires NoDuplicates(ls) && i <= |ls|
    ensures Live(ls, i, throwing) == Remaining(ls[..i], throwing) + ls[i..]
  {
    if i == 0 {
      assert ls[..0] == [] && ls[0..] == ls;
      assert Remaining(ls[..0], throwing) + ls[0..] == ls;
    } else {
      var j := i - 1;
      var prev := Live(ls, j, throwing);
      var front := Remaining(ls[..j], throwing) + ls[j..];
      assert prev == front by {
        LiveIsRemaining(ls, j, throwing);
      }
      assert Remaining(ls[..i], throwing) + ls[i..] ==
        (if Expires(ls[j], throwing) then Removed(front, ls[j]) else front) by {
        EmitStep(ls, j, throwing);
        assert j + 1 == i;
      }
      assert Live(ls, i, throwing) == if Expires(ls[j], throwing) then Removed(prev, ls[j]) else prev;
    }
  }

  /** A listener set without repeats whose once-wrappers all have tokens below `nextToken`. */
  ghost predicate WellFormed(ls: seq<Listener>, nextToken: nat)
  {
    && NoDuplicates(ls)
    && (forall l :: l in ls && l.OnceWrapper? ==> l.token < nextToken)
  }

  class EventEmitter {
    var listeners: map<string, seq<Listener>>
    /** The token the next `once` wrapper receives. */
    var nextToken: nat

    ghost predicate Valid()
      reads this
    {
      forall e :: e in listeners ==> WellFormed(listeners[e], nextToken)
    }

    constructor ()
      ensures Valid() && listeners == map[]
    {
      listeners := map[];
      nextToken := 0;
    }

    method Subscribe(name: string, l: Listener) returns (s: Subscription)
      requires Valid() && (l.OnceWrapper? ==> l.token < nextToken)
      modifies this`listeners
      ensures Valid()
      ensures listeners == old(listeners)[name := Added(ListenersOf(old(listeners), name), l)]
      ensures s == Subscription(name, l)
    {
      var current := ListenersOf(listeners, name);
      listeners := listeners[name := Added(current, l)];
      s := Subscription(name, l);
    }

    /** `on`: the returned subscription unsubscribes this callback from this event. */
    method On(name: string, callback: nat) returns (s: Subscription)
      requires Valid()
      modifies this`listeners
      ensures Valid()
      ensures listeners == old(listeners)[name := Added(ListenersOf(old(listeners), name), Direct(callback))]
      ensures s == Subscription(name, Direct(callback))
    {
      s := Subscribe(name, Direct(callback));
    }

    /** `off`: an unknown event is left alone; a known one keeps its (possibly empty) set. */
    method Off(name: string, l: Listener)
      requires Valid()
      modifies this`listeners
      ensures Valid()
      ensures name !in old(listeners) ==> listeners == old(listeners)
      ensures name in old(listeners) ==> listeners == old(listeners)[name := Removed(old(listeners)[name], l)]
    {
      if name !in listeners {
        return;
      }
      RemovedMembers(listeners[name], l);
      listeners := listeners[name := Removed(listeners[name], l)];
    }

    /** Calling the closure returned by `on` or `once`. */
    method Unsubscribe(s: Subscription)
      requires Valid()
      modifies this`listeners
      ensures Valid()
      ensures s.eventName !in old(listeners) ==> listeners == old(listeners)
      ensures s.eventName in old(listeners) ==>
        listeners == old(listeners)[s.eventName := Removed(old(listeners)[s.eventName], s.listener)]
    {
      Off(s.eventName, s.listener);
    }

    /**
     * `emit`: every listener present when the emission starts is called once,
     * in order; exceptions are swallowed, and a once-wrapper removes itself
     * only when its callback returned normally.
     */
    method Emit(name: string, throwing: set<nat>) returns (calls: seq<nat>)
      requires Valid()
      modifies this`listeners
      ensures Valid()
      ensures name !in old(listeners) ==> calls == [] && listeners == old(listeners)
      ensures name in old(listeners) ==>
        && calls == Fired(old(listeners)[name])
        && listeners == old(listeners)[name := Remaining(old(listeners)[name], throwing)]
    {
      calls := [];
      if name !in listeners {
        return;
      }
      var ls := listeners[name];
      assert listeners == old(listeners)[name := Live(ls, 0, throwing)];
      var i := 0;
      while i < |ls|
        invariant 0 <= i <= |ls| && Valid()
        invariant listeners == old(listeners)[name := Live(ls, i, throwing)]
        invariant |calls| == i && forall j :: 0 <= j < i ==> calls[j] == ls[j].callback
      {
        var l := ls[i];
        calls := calls + [l.callback];
        Deliver(name, l, throwing);
        i := i + 1;
      }
      LiveIsRemaining(ls, i, throwing);
      assert ls[..i] == ls && ls[i..] == [];
      assert Live(ls, i, throwing) == Remaining(ls, throwing);
    }

    /**
     * One listener's turn in an emission: its callback runs, and a
     * once-wrapper whose callback returned normally unsubscribes itself.
     */
    method Deliver(name: string, l: Listener, throwing: set<nat>)
      requires Valid() && name in listeners
      modifies this`listeners
      ensures Valid()
      ensures listeners == old(listeners)[name := if Expires(l, throwing) then Removed(old(listeners)[name], l) else old(listeners)[name]]
    {
      if Expires(l, throwing) {
        Off(name, l);
      }
    }

    /** `once`: subscribes a new wrapper around the callback. */
    method Once(name: string, callback: nat) returns (s: Subscription)
      requires Valid()
      modifies this
      ensures Valid() && nextToken == old(nextToken) + 1
      ensures listeners == old(listeners)[name := ListenersOf(old(listeners), name) + [OnceWrapper(callback, old(nextToken))]]
      ensures s == Subscription(name, OnceWrapper(callback, old(nextToken)))
    {
      var wrapper := OnceWrapper(callback, nextToken);
      assert wrapper !in ListenersOf(listeners, name);
      nextToken := nextToken + 1;
      s := Subscribe(name, wrapper);
    }

    /** `clear`: a non-empty name drops that event; no name, or an empty one, drops them all. */
    method Clear(name: Option<string>)
      requires Valid()
      modifies this`listeners
      ensures Valid()
      ensures name.Some? && name.value != "" ==> listeners == old(listeners) - {name.value}
      ensures name.None? || name.value == "" ==> listeners == map[]
    {
      if name.Some? && name.value != "" {
        listeners := listeners - {name.value};
      } else {
        listeners := map[];
      }
    }
  }
}
