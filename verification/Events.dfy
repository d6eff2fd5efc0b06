/** The event bus: numbered events, subscribers, and a bounded buffer to replay from. */
module Events {
  datatype Event = Event(sequence: nat, payload: string)

  function Max(a: int, b: int): int {
    if a < b then b else a
  }

  /** The number of events, of `n` published, that a buffer of this capacity has let go of. */
  function Evicted(n: nat, capacity: nat): nat {
    if n <= capacity then 0 else n - capacity
  }

  class EventBus {
    const capacity: nat
    var sequence: nat
    var subscribers: seq<nat>
    var recent: seq<Event>
    /** All events ever published. */
    ghost var published: seq<Event>

    /** Events are numbered from 1 without a gap, and the buffer holds the latest of them. */
    ghost predicate Valid()
      reads this
    {
      && |published| == sequence
      && (forall i | 0 <= i < |published| :: published[i].sequence == i + 1)
      && recent == published[Evicted(sequence, capacity)..]
    }

    constructor (capacity: nat)
      ensures Valid() && this.capacity == capacity && published == [] && subscribers == []
    {
      this.capacity := capacity;
      sequence, subscribers, recent, published := 0, [], [], [];
    }

    method Subscribe(callback: nat)
      requires Valid()
      modifies this`subscribers
      ensures Valid() && subscribers == old(subscribers) + [callback]
    {
      subscribers := subscribers + [callback];
    }

    /** Removes the first registration of a callback, if there is one. */
    method Unsubscribe(callback: nat)
      requires Valid()
      modifies this`subscribers
      ensures Valid() && multiset(subscribers) == multiset(old(subscribers)) - multiset{callback}
    {
      if k :| 0 <= k < |subscribers| && subscribers[k] == callback && callback !in subscribers[..k] {
        assert subscribers == subscribers[..k] + [callback] + subscribers[k + 1..];
        subscribers := subscribers[..k] + subscribers[k + 1..];
      } else {
        NotSubscribed(subscribers, callback);
      }
    }

    /** Numbers and records an event; it goes to those who are subscribed at that moment. */
    method Publish(payload: string) returns (event: Event, targets: seq<nat>)
      requires Valid()
      modifies this`sequence, this`recent, this`published
      ensures Valid() && event == Event(old(sequence) + 1, payload) && published == old(published) + [event]
      ensures |recent| == if sequence < capacity then sequence else capacity
      ensures targets == subscribers
    {
      sequence := sequence + 1;
      event := Event(sequence, payload);
      recent := recent + [event];
      if |recent| > capacity {
        recent := recent[1..];
      }
      published := published + [event];
      return event, subscribers;
    }

    /** The buffered events with a greater number. */
    method EventsSince(since: int) returns (r: seq<Event>)
      requires Valid()
      ensures var from := Max(since, Evicted(sequence, capacity));
              r == if from >= sequence then [] else published[from..]
      ensures 0 <= since <= sequence && sequence - since <= capacity ==> r == published[since..]
      ensures since < 0 || sequence - since > capacity ==> r == recent
      ensures since >= sequence ==> r == []
    {
      r := [];
      ghost var evicted := Evicted(sequence, capacity);
      ghost var from := Max(since, evicted);
      for k := 0 to |recent|
        invariant r == if from >= evicted + k then [] else published[from..evicted + k]
      {
        assert recent[k] == published[evicted + k] && recent[k].sequence == evicted + k + 1;
        if recent[k].sequence > since {
          r := r + [recent[k]];
        }
      }
    }
  }

  lemma NotSubscribed(subscribers: seq<nat>, callback: nat)
    requires forall k | 0 <= k < |subscribers| :: !(subscribers[k] == callback && callback !in subscribers[..k])
    ensures callback !in subscribers
  {
    if callback in subscribers {
      var k := FirstIndex(subscribers, callback);
    }
  }

  lemma FirstIndex(s: seq<nat>, x: nat) returns (k: nat)
    requires x in s
    ensures k < |s| && s[k] == x && x !in s[..k]
  {
    if s[0] == x {
      k := 0;
    } else {
      k := FirstIndex(s[1..], x);
      assert s[..k + 1] == [s[0]] + s[1..][..k];
      k := k + 1;
    }
  }

  /** A replay is complete exactly when the events it should begin with are still buffered. */
  lemma ReplayIsCompleteIff(published: seq<Event>, capacity: nat, since: nat)
    requires since <= |published|
    ensures var from := Max(since, Evicted(|published|, capacity));
            (if from >= |published| then [] else published[from..]) == published[since..]
            <==> |published| - since <= capacity
  {
    var from := Max(since, Evicted(|published|, capacity));
    if from > since {
      assert |published[since..]| == |published| - since;
    }
  }
}
