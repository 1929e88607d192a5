/** pkg/dcgm/bcast.go: the subscriber list of a publisher and the fan-out of one published value. */
module Broadcast {
  /** A subscriber is known by its identity; `Delivery` is a goroutine blocked on sending to its read channel. */
  datatype Delivery<V> = Delivery(subscriber: nat, value: V)

  function Deliveries<V>(subscribers: seq<nat>, value: V): (r: seq<Delivery<V>>)
    ensures |r| == |subscribers|
    ensures forall i :: 0 <= i < |r| ==> r[i] == Delivery(subscribers[i], value)
  {
    if subscribers == [] then []
    else Deliveries(subscribers[..|subscribers| - 1], value) + [Delivery(subscribers[|subscribers| - 1], value)]
  }

  lemma DeliveriesStep<V>(subscribers: seq<nat>, i: nat, value: V)
    requires i < |subscribers|
    ensures Deliveries(subscribers[..i + 1], value)
        == Deliveries(subscribers[..i], value) + [Delivery(subscribers[i], value)]
  {
    assert subscribers[..i + 1][..i] == subscribers[..i];
  }

  /** Everything spawned for a history of published values. */
  ghost function AllDeliveries<V>(subscribers: seq<nat>, history: seq<V>): seq<Delivery<V>> {
    if history == [] then []
    else AllDeliveries(subscribers, history[..|history| - 1]) + Deliveries(subscribers, history[|history| - 1])
  }

  /** The list without the first occurrence of x. */
  function Without(s: seq<nat>, x: nat): seq<nat> {
    if s == [] then [] else if s[0] == x then s[1..] else [s[0]] + Without(s[1..], x)
  }

  lemma {:induction false} WithoutAt(s: seq<nat>, i: nat)
    requires i < |s| && s[i] !in s[..i]
    ensures Without(s, s[i]) == s[..i] + s[i + 1..]
  {
    if i > 0 {
      assert s[0] == s[..i][0] && s[1..][..i - 1] == s[..i][1..];
      WithoutAt(s[1..], i - 1);
    }
  }

  lemma {:induction false} WithoutUnknown(s: seq<nat>, x: nat)
    requires x !in s
    ensures Without(s, x) == s
  {
    if s != [] { WithoutUnknown(s[1..], x); }
  }

  class Publisher<V> {
    var subscribers: seq<nat>
    var next: nat
    var spawned: seq<Delivery<V>>

    /** Subscribers are fresh pointers, so they never repeat. */
    ghost predicate Valid()
      reads this
    {
      && (forall i :: 0 <= i < |subscribers| ==> subscribers[i] < next)
      && (forall i, j :: 0 <= i < j < |subscribers| ==> subscribers[i] != subscribers[j])
    }

    constructor ()
      ensures Valid() && subscribers == [] && spawned == []
    {
      subscribers, next, spawned := [], 0, [];
    }

    method Add() returns (sub: nat)
      requires Valid()
      modifies this
      ensures Valid() && sub !in old(subscribers)
      ensures subscribers == old(subscribers) + [sub] && spawned == old(spawned)
    {
      sub := next;
      next := next + 1;
      subscribers := subscribers + [sub];
    }

    /** Removing a subscriber leaves the others in their order; an unknown one is an error and changes nothing. */
    method Remove(leaving: nat) returns (found: bool)
      requires Valid()
      modifies this
      ensures Valid() && spawned == old(spawned)
      ensures found <==> leaving in old(subscribers)
      ensures subscribers == Without(old(subscribers), leaving) && leaving !in subscribers
    {
      var subscriberIndex := -1;
      for i := 0 to |subscribers|
        invariant subscriberIndex == -1
        invariant forall j :: 0 <= j < i ==> subscribers[j] != leaving
      {
        if subscribers[i] == leaving {
          subscriberIndex := i;
          break;
        }
      }
      if subscriberIndex == -1 {
        WithoutUnknown(subscribers, leaving);
        return false;
      }
      WithoutAt(subscribers, subscriberIndex);
      ghost var before := subscribers;
      subscribers := subscribers[..subscriberIndex] + subscribers[subscriberIndex + 1..];
      assert forall k :: 0 <= k < |subscribers| ==> subscribers[k] == before[if k < subscriberIndex then k else k + 1];
      found := true;
    }

    /** One round of the broadcast loop: one delivery for each current subscriber. */
    method Publish(value: V)
      requires Valid()
      modifies this`spawned
      ensures Valid()
      ensures spawned == old(spawned) + Deliveries(subscribers, value)
    {
      var list := subscribers;
      for i := 0 to |list|
        invariant spawned == old(spawned) + Deliveries(list[..i], value)
      {
        assert list[..i + 1][..i] == list[..i];
        spawned := spawned + [Delivery(list[i], value)];
      }
      assert list[..|list|] == list;
    }

    /** A subscriber that is added and leaves at once was never there. */
    method AddThenRemove()
      requires Valid()
      modifies this
      ensures Valid() && subscribers == old(subscribers)
    {
      var sub := Add();
      WithoutAt(subscribers, |subscribers| - 1);
      assert subscribers[|subscribers|..] == [];
      var found := Remove(sub);
    }
  }
}
