/**
  The event slot: a multicast publish/subscribe point (EventBase and
  EventBase<T>). A subscriber is an opaque handler id; the slot keeps the
  invocation list of the underlying C# multicast delegate as a sequence.
  Handlers are assumed neither to throw nor to subscribe or unsubscribe
  while a Raise is running.
 */
module EventSlots {

  /** A subscriber (the delegate's target method). */
  type HandlerId = nat

  /** One call made by `Raise(v)`: the handler that ran and the payload it got. */
  datatype Invocation<T> = Invocation(handler: HandlerId, payload: T)

  /** Index of the last registration of `a` in `hs`, or -1 when there is none. */
  function LastIndexOf(hs: seq<HandlerId>, a: HandlerId): (k: int)
    ensures -1 <= k < |hs|
    ensures k == -1 <==> a !in hs
    ensures 0 <= k ==> hs[k] == a && a !in hs[k + 1..]
  {
    if hs == [] then -1
    else if hs[|hs| - 1] == a then |hs| - 1
    else
      assert hs[..|hs| - 1] + [hs[|hs| - 1]] == hs;
      LastIndexOf(hs[..|hs| - 1], a)
  }

  /**
    The invocation list after delegate removal `hs - a`: the last
    registration of `a` is taken out; with no registration of `a`, the list
    is unchanged. Every other handler keeps all its registrations.
   */
  function Remove(hs: seq<HandlerId>, a: HandlerId): (r: seq<HandlerId>)
    ensures forall x :: x != a ==> multiset(r)[x] == multiset(hs)[x]
  {
    if hs == [] then []
    else
      assert hs == hs[..|hs| - 1] + [hs[|hs| - 1]];
      if hs[|hs| - 1] == a then hs[..|hs| - 1]
      else Remove(hs[..|hs| - 1], a) + [hs[|hs| - 1]]
  }

  /** Unsubscribing a handler that is not registered changes nothing. */
  lemma {:induction false} RemoveAbsent(hs: seq<HandlerId>, a: HandlerId)
    requires a !in hs
    ensures Remove(hs, a) == hs
  {
    if hs != [] {
      var init := hs[..|hs| - 1];
      assert init + [hs[|hs| - 1]] == hs;
      RemoveAbsent(init, a);
    }
  }

  /**
    Unsubscribing a registered handler removes exactly the registration at
    its last index; everything before and after keeps its relative order.
   */
  lemma {:induction false} RemoveDropsLastRegistration(hs: seq<HandlerId>, a: HandlerId)
    requires a in hs
    ensures var k := LastIndexOf(hs, a);
      Remove(hs, a) == hs[..k] + hs[k + 1..]
  {
    var n := |hs|;
    var init := hs[..n - 1];
    if hs[n - 1] != a {
      assert init + [hs[n - 1]] == hs;
      assert a in init;
      RemoveDropsLastRegistration(init, a);
      var k := LastIndexOf(init, a);
      assert LastIndexOf(hs, a) == k;
      calc {
        Remove(hs, a);
        Remove(init, a) + [hs[n - 1]];
        init[..k] + init[k + 1..] + [hs[n - 1]];
        { assert init[..k] == hs[..k]; assert init[k + 1..] + [hs[n - 1]] == hs[k + 1..]; }
        hs[..k] + hs[k + 1..];
      }
    }
  }

  /**
    Unsubscribing takes away one registration of `a` (none if there is none)
    and no registration of any other handler.
   */
  lemma {:induction false} RemoveCounts(hs: seq<HandlerId>, a: HandlerId)
    ensures multiset(Remove(hs, a)) == multiset(hs) - multiset{a}
    ensures |Remove(hs, a)| == if a in hs then |hs| - 1 else |hs|
  {
    if hs != [] {
      var init := hs[..|hs| - 1];
      var last := hs[|hs| - 1];
      assert init + [last] == hs;
      assert multiset(hs) == multiset(init) + multiset{last};
      RemoveCounts(init, a);
      if last != a {
        assert a in hs <==> a in init;
      }
    }
  }

  /**
    Subscribing `a` and then unsubscribing it restores the invocation list:
    the registration removed is the one just appended, so this holds even
    when `a` was already subscribed.
   */
  lemma SubscribeThenUnsubscribe(hs: seq<HandlerId>, a: HandlerId)
    ensures Remove(hs + [a], a) == hs
  {
    assert (hs + [a])[..|hs|] == hs;
  }

  /** A slot whose handlers take no payload (EventBase). */
  class EventBase {
    var handlers: seq<HandlerId>

    constructor ()
      ensures handlers == []
    {
      handlers := [];
    }

    /**
      Invokes every registered handler once, in subscription order, and
      returns the calls made; with no subscriber it makes none.
     */
    method Raise() returns (trace: seq<HandlerId>)
      ensures |trace| == |handlers|
      ensures forall i :: 0 <= i < |trace| ==> trace[i] == handlers[i]
    {
      trace := [];
      var i := 0;
      while i < |handlers|
        invariant 0 <= i <= |handlers|
        invariant trace == handlers[..i]
      {
        trace := trace + [handlers[i]];
        i := i + 1;
      }
    }

    /** Appends `a`; a handler subscribed twice runs twice. */
    method Subscribe(a: HandlerId)
      modifies this
      ensures handlers == old(handlers) + [a]
    {
      handlers := handlers + [a];
    }

    /** Removes the last registration of `a`, if any. */
    method Unsubscribe(a: HandlerId)
      modifies this
      ensures handlers == Remove(old(handlers), a)
    {
      handlers := Remove(handlers, a);
    }

    /** Drops every registration; the slot stays usable. */
    method UnsubscribeAll()
      modifies this
      ensures handlers == []
    {
      handlers := [];
    }
  }

  /** A slot whose handlers take one payload of type T (EventBase<T>). */
  class PayloadEvent<T> {
    var handlers: seq<HandlerId>

    constructor ()
      ensures handlers == []
    {
      handlers := [];
    }

    /**
      Invokes every registered handler once, in subscription order, each
      with the same payload `v`, and returns the calls made.
     */
    method Raise(v: T) returns (trace: seq<Invocation<T>>)
      ensures |trace| == |handlers|
      ensures forall i :: 0 <= i < |trace| ==> trace[i] == Invocation(handlers[i], v)
    {
      trace := [];
      var i := 0;
      while i < |handlers|
        invariant 0 <= i <= |handlers|
        invariant |trace| == i
        invariant forall j :: 0 <= j < i ==> trace[j] == Invocation(handlers[j], v)
      {
        trace := trace + [Invocation(handlers[i], v)];
        i := i + 1;
      }
    }

    method Subscribe(a: HandlerId)
      modifies this
      ensures handlers == old(handlers) + [a]
    {
      handlers := handlers + [a];
    }

    method Unsubscribe(a: HandlerId)
      modifies this
      ensures handlers == Remove(old(handlers), a)
    {
      handlers := Remove(handlers, a);
    }

    method UnsubscribeAll()
      modifies this
      ensures handlers == []
    {
      handlers := [];
    }
  }
}
