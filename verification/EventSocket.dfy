/**
 The WebSocket connection on top of the event bus. Publishers record and dispatch, and the
 connection subscribes, replays and delivers, each in steps that interleave at will.
 */
module EventSocket {
  import opened Events

  datatype Phase = Connecting | Subscribed | Replaying(backlog: seq<nat>)

  /**
   One connection and what it sees of the bus. `last` is the number of the last event recorded;
   `inflight` has the events whose callback has yet to run; `sent` is what the client got.
   `joined` and `replayed` are the values of `last` at the subscription and at the snapshot.
   Once the backlog is empty the connection is live.
   */
  datatype Stream = Stream(
    since: int,
    capacity: nat,
    last: nat,
    phase: Phase,
    inflight: set<nat>,
    queue: seq<nat>,
    highest: int,
    sent: seq<nat>,
    joined: nat,
    replayed: nat)

  datatype Move = Record | Dispatch(event: nat) | Subscribe | Snapshot | SendBacklog | Deliver

  function Connect(since: int, capacity: nat, last: nat): Stream {
    Stream(since, capacity, last, Connecting, {}, [], since, [], 0, 0)
  }

  /** The numbers from `a + 1` to `b`. */
  function Range(a: nat, b: nat): seq<nat> {
    if a >= b then [] else seq(b - a, i requires 0 <= i < b - a => a + 1 + i)
  }

  /** What the bus returns for `since` when its last event is `last`. */
  function Backlog(since: int, capacity: nat, last: nat): seq<nat> {
    Range(Max(since, Evicted(last, capacity)), last)
  }

  /** The backlog is the numbers of what the buffer of `published` has after `since`. */
  lemma BacklogIsTheBuffer(published: seq<Event>, since: int, capacity: nat)
    requires forall i | 0 <= i < |published| :: published[i].sequence == i + 1
    ensures var from := Max(since, Evicted(|published|, capacity));
            var buffered := if from >= |published| then [] else published[from..];
            var backlog := Backlog(since, capacity, |published|);
            Numbered(backlog, buffered)
  {
  }

  /** `numbers` are those of the events. */
  predicate Numbered(numbers: seq<nat>, events: seq<Event>) {
    |numbers| == |events| && forall i | 0 <= i < |events| :: numbers[i] == events[i].sequence
  }

  predicate CanMove(s: Stream, move: Move) {
    match move
    case Record => true
    case Dispatch(e) => e in s.inflight
    case Subscribe => s.phase.Connecting?
    case Snapshot => s.phase.Subscribed?
    case SendBacklog => s.phase.Replaying? && s.phase.backlog != []
    case Deliver => s.phase.Replaying? && s.phase.backlog == [] && s.queue != []
  }

  function Moved(s: Stream, move: Move): Stream
    requires CanMove(s, move)
  {
    match move
    case Record =>
      var t := s.(last := s.last + 1);
      if s.phase.Connecting? then t else t.(inflight := s.inflight + {s.last + 1})
    case Dispatch(e) => s.(inflight := s.inflight - {e}, queue := s.queue + [e])
    case Subscribe => s.(phase := Subscribed, joined := s.last)
    case Snapshot => s.(phase := Replaying(Backlog(s.since, s.capacity, s.last)), highest := s.since, replayed := s.last)
    case SendBacklog =>
      var e := s.phase.backlog[0];
      s.(phase := Replaying(s.phase.backlog[1..]), sent := s.sent + [e], highest := Max(s.highest, e))
    case Deliver =>
      var e := s.queue[0];
      var t := s.(queue := s.queue[1..]);
      if e <= s.highest then t else t.(sent := s.sent + [e])
  }

  ghost predicate IsRun(run: seq<Stream>, since: int, capacity: nat, last: nat) {
    && |run| > 0 && run[0] == Connect(since, capacity, last)
    && forall i, k | 0 <= i < k < |run| && k == i + 1 :: Goes(run[i], run[k])
  }

  ghost predicate Goes(s: Stream, t: Stream) {
    exists move: Move :: CanMove(s, move) && t == Moved(s, move)
  }

  function Count(s: seq<nat>, e: nat): nat {
    multiset(s)[e]
  }

  /** How often `e` is on its way to the connection. */
  function Underway(s: Stream, e: nat): nat {
    Count(s.queue, e) + if e in s.inflight then 1 else 0
  }

  /** Events numbered up to here are not delivered. */
  function Floor(s: Stream): nat {
    if s.since >= s.replayed then Max(s.since, 0)
    else if s.capacity == 0 then Max(s.since, s.joined)
    else Max(s.since, Evicted(s.replayed, s.capacity))
  }

  /** The value of `highest` once the backlog is sent. */
  function Replayed(s: Stream): int {
    if Backlog(s.since, s.capacity, s.replayed) == [] then s.since else s.replayed
  }

  /** What every interleaving keeps. */
  ghost predicate Consistent(s: Stream) {
    match s.phase
    case Connecting => s.inflight == {} && s.queue == [] && s.sent == []
    case Subscribed =>
      s.joined <= s.last && s.sent == [] && forall e: nat :: Underway(s, e) == if s.joined < e <= s.last then 1 else 0
    case Replaying(backlog) =>
      && s.joined <= s.replayed <= s.last
      && (if backlog == [] then s.highest == Replayed(s)
          else backlog[|backlog| - 1] == s.replayed == Replayed(s) && s.highest <= s.replayed
               && forall i | 0 <= i < |backlog| :: backlog[i] <= s.replayed)
      && (forall e: nat :: Underway(s, e) <= if s.joined < e <= s.last then 1 else 0)
      && (forall e: nat :: Accounted(s, e) == if Floor(s) < e <= s.last then 1 else 0)
  }

  /** How often `e` has been sent, or still will be. */
  function Accounted(s: Stream, e: nat): nat
    requires s.phase.Replaying?
  {
    Count(s.sent, e) + Count(s.phase.backlog, e) + if e > Replayed(s) then Underway(s, e) else 0
  }

  lemma {:induction false} RangeCount(a: nat, b: nat, e: nat)
    ensures Count(Range(a, b), e) == if a < e <= b then 1 else 0
    decreases b
  {
    if a < b {
      assert Range(a, b) == Range(a, b - 1) + [b];
      RangeCount(a, b - 1, e);
    }
  }

  lemma CountAppend(s: seq<nat>, x: nat, e: nat)
    ensures Count(s + [x], e) == Count(s, e) + if e == x then 1 else 0
  {
  }

  lemma CountTail(s: seq<nat>, e: nat)
    requires s != []
    ensures Count(s, e) == Count(s[1..], e) + if e == s[0] then 1 else 0
  {
    assert s == [s[0]] + s[1..];
  }

  lemma RecordKeeps(s: Stream)
    requires Consistent(s)
    ensures Consistent(Moved(s, Record))
  {
    var t := Moved(s, Record);
    if !s.phase.Connecting? {
      assert Underway(s, s.last + 1) == 0;
      assert s.last + 1 !in s.inflight;
      forall e: nat
        ensures Underway(t, e) == Underway(s, e) + if e == s.last + 1 then 1 else 0
      {
      }
      if s.phase.Replaying? {
        forall e: nat
          ensures Accounted(t, e) == if Floor(t) < e <= t.last then 1 else 0
        {
          assert Accounted(s, e) == if Floor(s) < e <= s.last then 1 else 0;
        }
      }
    }
  }

  lemma DispatchKeeps(s: Stream, event: nat)
    requires Consistent(s) && event in s.inflight
    ensures Consistent(Moved(s, Dispatch(event)))
  {
    var t := Moved(s, Dispatch(event));
    forall e: nat
      ensures Underway(t, e) == Underway(s, e)
    {
      CountAppend(s.queue, event, e);
    }
    if s.phase.Replaying? {
      assert forall e: nat :: Accounted(t, e) == Accounted(s, e);
    }
  }

  lemma SnapshotKeeps(s: Stream)
    requires Consistent(s) && s.phase.Subscribed?
    ensures Consistent(Moved(s, Snapshot))
  {
    var t := Moved(s, Snapshot);
    var from := Max(s.since, Evicted(s.last, s.capacity));
    forall e: nat
      ensures Accounted(t, e) == if Floor(t) < e <= t.last then 1 else 0
    {
      assert Underway(t, e) == Underway(s, e) == if s.joined < e <= s.last then 1 else 0;
      RangeCount(from, s.last, e);
    }
    assert forall e: nat :: Underway(t, e) == Underway(s, e);
  }

  lemma SendBacklogKeeps(s: Stream)
    requires Consistent(s) && CanMove(s, SendBacklog)
    ensures Consistent(Moved(s, SendBacklog))
  {
    var t := Moved(s, SendBacklog);
    forall e: nat
      ensures Accounted(t, e) == Accounted(s, e)
    {
      CountAppend(s.sent, s.phase.backlog[0], e);
      CountTail(s.phase.backlog, e);
    }
    assert forall e: nat :: Underway(t, e) == Underway(s, e);
  }

  lemma DeliverKeeps(s: Stream)
    requires Consistent(s) && CanMove(s, Deliver)
    ensures Consistent(Moved(s, Deliver))
  {
    var t := Moved(s, Deliver);
    forall e: nat
      ensures Underway(t, e) == Underway(s, e) - if e == s.queue[0] then 1 else 0
      ensures Accounted(t, e) == Accounted(s, e)
    {
      CountTail(s.queue, e);
      CountAppend(s.sent, s.queue[0], e);
    }
  }

  lemma MoveKeeps(s: Stream, move: Move)
    requires Consistent(s) && CanMove(s, move)
    ensures Consistent(Moved(s, move))
  {
    match move
    case Record => RecordKeeps(s);
    case Dispatch(e) => DispatchKeeps(s, e);
    case Subscribe =>
    case Snapshot => SnapshotKeeps(s);
    case SendBacklog => SendBacklogKeeps(s);
    case Deliver => DeliverKeeps(s);
  }

  lemma {:induction false} EveryStreamIsConsistent(run: seq<Stream>, since: int, capacity: nat, last: nat, k: nat)
    requires IsRun(run, since, capacity, last) && k < |run|
    ensures Consistent(run[k]) && run[k].since == since && run[k].capacity == capacity
  {
    if k > 0 {
      EveryStreamIsConsistent(run, since, capacity, last, k - 1);
      assert Goes(run[k - 1], run[k]);
      var move: Move :| CanMove(run[k - 1], move) && run[k] == Moved(run[k - 1], move);
      MoveKeeps(run[k - 1], move);
    }
  }

  /** Replay is over, and nothing is queued or on its way. */
  predicate CaughtUp(s: Stream) {
    s.phase == Replaying([]) && s.queue == [] && s.inflight == {}
  }

  /**
   However the steps interleave, a client that has caught up has received every event above the
   floor exactly once, and no other.
   */
  lemma SentIsExact(run: seq<Stream>, since: int, capacity: nat, last: nat, k: nat, e: nat)
    requires IsRun(run, since, capacity, last) && k < |run| && CaughtUp(run[k])
    ensures Count(run[k].sent, e) == if Floor(run[k]) < e <= run[k].last then 1 else 0
  {
    EveryStreamIsConsistent(run, since, capacity, last, k);
    assert Accounted(run[k], e) == if Floor(run[k]) < e <= run[k].last then 1 else 0;
  }

  /** Even before it has caught up, a client is never sent an event twice. */
  lemma NothingIsSentTwice(run: seq<Stream>, since: int, capacity: nat, last: nat, k: nat, e: nat)
    requires IsRun(run, since, capacity, last) && k < |run|
    ensures Count(run[k].sent, e) <= 1
  {
    EveryStreamIsConsistent(run, since, capacity, last, k);
    var s := run[k];
    if s.phase.Replaying? {
      assert Accounted(s, e) == if Floor(s) < e <= s.last then 1 else 0;
    }
  }

  /** Each event after what the client had, as far as this bus can know, was sent exactly once. */
  ghost predicate ExactlyOnce(s: Stream) {
    forall e: nat :: Count(s.sent, e) == if s.since < e && e > 0 && e <= s.last then 1 else 0
  }

  /**
   Reconnection is exactly-once precisely when the gap was still buffered at the snapshot. (A
   bus that keeps no buffer replays nothing, and then the gap must have begun after the
   subscription.)
   */
  lemma ExactlyOnceIff(run: seq<Stream>, since: nat, capacity: nat, last: nat, k: nat)
    requires IsRun(run, since, capacity, last) && k < |run| && CaughtUp(run[k])
    requires since <= run[k].replayed
    ensures ExactlyOnce(run[k]) <==>
              if capacity > 0 then run[k].replayed - since <= capacity
              else run[k].joined <= since || since == run[k].replayed
  {
    var s := run[k];
    EveryStreamIsConsistent(run, since, capacity, last, k);
    forall e: nat
      ensures Count(s.sent, e) == if Floor(s) < e <= s.last then 1 else 0
    {
      SentIsExact(run, since, capacity, last, k, e);
    }
    if Floor(s) > since {
      assert Count(s.sent, since + 1) == 0;
    }
  }

  /**
   A client whose `since` is beyond the bus, as after a restart of the service, misses every
   event up to that number, for they look as if they had been delivered.
   */
  lemma SinceFromTheFutureMisses(run: seq<Stream>, since: nat, capacity: nat, last: nat, k: nat, e: nat)
    requires IsRun(run, since, capacity, last) && k < |run| && CaughtUp(run[k])
    requires since >= run[k].replayed && 0 < e <= run[k].last
    ensures Count(run[k].sent, e) == if e <= since then 0 else 1
  {
    SentIsExact(run, since, capacity, last, k, e);
    EveryStreamIsConsistent(run, since, capacity, last, k);
  }

  lemma LongerRun(run: seq<Stream>, since: int, capacity: nat, last: nat, move: Move)
    requires IsRun(run, since, capacity, last) && CanMove(run[|run| - 1], move)
    ensures IsRun(run + [Moved(run[|run| - 1], move)], since, capacity, last)
  {
    var next := Moved(run[|run| - 1], move);
    assert Goes(run[|run| - 1], next);
    forall i, k | 0 <= i < k < |run| + 1 && k == i + 1
      ensures Goes((run + [next])[i], (run + [next])[k])
    {
      if k < |run| {
        assert Goes(run[i], run[k]);
      }
    }
  }

  lemma RunTells(run: seq<Stream>, since: int, capacity: nat, last: nat)
    requires IsRun(run, since, capacity, last)
    ensures var s := run[|run| - 1];
            && (forall e: nat :: Count(s.sent, e) <= 1)
            && (CaughtUp(s) ==> forall e: nat :: Count(s.sent, e) == if Floor(s) < e <= s.last then 1 else 0)
  {
    var s := run[|run| - 1];
    forall e: nat
      ensures Count(s.sent, e) <= 1
      ensures CaughtUp(s) ==> Count(s.sent, e) == if Floor(s) < e <= s.last then 1 else 0
    {
      NothingIsSentTwice(run, since, capacity, last, |run| - 1, e);
      if CaughtUp(s) {
        SentIsExact(run, since, capacity, last, |run| - 1, e);
      }
    }
  }

  /**
   A connection, the bus it is subscribed to, and what the other threads do meanwhile. Events go
   by their numbers; `callback` is the connection's own subscriber. `trace` has the streams it has
   been, so that every theorem about runs applies to it.
   */
  class Connection {
    const bus: EventBus
    const since: int
    const callback: nat
    var inflight: set<nat>
    var queue: seq<nat>
    var highest: int
    var sent: seq<nat>
    ghost const first: nat
    ghost var trace: seq<Stream>

    ghost function Now(): Stream
      reads this
      requires trace != []
    {
      trace[|trace| - 1]
    }

    /** The connection is where a run of the stream has come to. */
    ghost predicate Valid()
      reads this, bus
    {
      && bus.Valid() && IsRun(trace, since, bus.capacity, first)
      && var s := Now();
      && s.since == since && s.capacity == bus.capacity && s.last == bus.sequence
      && s.inflight == inflight && s.queue == queue && s.sent == sent && s.highest == highest
    }

    /** It is also subscribed, once it should be. */
    ghost predicate Open()
      reads this, bus
    {
      Valid() && (callback in bus.subscribers <==> !Now().phase.Connecting?)
    }

    constructor (bus: EventBus, since: int, callback: nat)
      requires bus.Valid() && callback !in bus.subscribers
      ensures Open() && this.bus == bus && this.since == since && this.callback == callback
      ensures Now() == Connect(since, bus.capacity, bus.sequence)
    {
      this.bus, this.since, this.callback := bus, since, callback;
      inflight, queue, highest, sent := {}, [], since, [];
      first := bus.sequence;
      trace := [Connect(since, bus.capacity, bus.sequence)];
    }

    ghost method Step(move: Move)
      requires IsRun(trace, since, bus.capacity, first) && CanMove(Now(), move)
      modifies this`trace
      ensures IsRun(trace, since, bus.capacity, first) && Now() == Moved(old(Now()), move)
    {
      LongerRun(trace, since, bus.capacity, first, move);
      trace := trace + [Moved(Now(), move)];
    }

    /** Another thread publishes, and is about to call back those who were subscribed. */
    method Publish(payload: string)
      requires Open()
      modifies this`inflight, this`trace, bus`sequence, bus`recent, bus`published
      ensures Open() && Now() == Moved(old(Now()), Record)
    {
      var event, targets := bus.Publish(payload);
      if callback in targets {
        inflight := inflight + {event.sequence};
      }
      Step(Record);
    }

    /** A callback has its event put into the queue. */
    method CallBack(event: nat)
      requires Open() && event in inflight
      modifies this`inflight, this`queue, this`trace
      ensures Open() && Now() == Moved(old(Now()), Dispatch(event))
    {
      inflight, queue := inflight - {event}, queue + [event];
      Step(Dispatch(event));
    }

    /** Whatever the other threads do while the connection waits. */
    method Others()
      requires Open()
      modifies this`inflight, this`queue, this`trace, bus`sequence, bus`recent, bus`published
      ensures Open() && Now().phase == old(Now().phase) && Now().replayed == old(Now().replayed)
      ensures old(queue) <= queue
    {
      var steps: nat :| true;
      for i := 0 to steps
        invariant Open() && Now().phase == old(Now().phase) && Now().replayed == old(Now().replayed)
        invariant old(queue) <= queue
      {
        if * {
          var payload: string := *;
          Publish(payload);
        } else if event :| event in inflight {
          CallBack(event);
        }
      }
    }

    method Join()
      requires Open() && Now().phase.Connecting?
      modifies this`trace, bus`subscribers
      ensures Open() && Now().phase.Subscribed? && bus.subscribers == old(bus.subscribers) + [callback]
    {
      bus.Subscribe(callback);
      Step(Subscribe);
    }

    /** Asks the bus for what the client has missed. */
    method Ask() returns (backlog: seq<Event>)
      requires Open() && Now().phase.Subscribed?
      modifies this`highest, this`trace
      ensures Open() && Now().phase.Replaying? && Numbered(Now().phase.backlog, backlog)
    {
      backlog := bus.EventsSince(since);
      BacklogIsTheBuffer(bus.published, since, bus.capacity);
      highest := since;
      Step(Snapshot);
    }

    /** Sends the client what it has missed; true if the client is gone. */
    method Replay() returns (gone: bool)
      requires Open() && Now().phase.Subscribed?
      modifies this, bus`sequence, bus`recent, bus`published
      ensures Open() && !Now().phase.Connecting?
      ensures !gone ==> Now().phase == Replaying([])
    {
      var backlog := Ask();
      ghost var numbers := Now().phase.backlog;
      for k := 0 to |backlog|
        invariant Open() && Numbered(numbers, backlog) && Now().phase == Replaying(numbers[k..])
      {
        Others();
        if * {
          return true;
        }
        Send(backlog[k].sequence);
      }
      return false;
    }

    /** Sends the next event of the backlog. */
    method Send(event: nat)
      requires Open() && Now().phase.Replaying? && Now().phase.backlog != [] && Now().phase.backlog[0] == event
      modifies this`sent, this`highest, this`trace
      ensures Open() && Now() == Moved(old(Now()), SendBacklog)
    {
      sent := sent + [event];
      highest := Max(highest, event);
      Step(SendBacklog);
    }

    /** Takes one event from the queue, and sends it unless the backlog had it; true if the client is gone. */
    method OnQueued() returns (gone: bool)
      requires Open() && Now().phase == Replaying([]) && queue != []
      modifies this`queue, this`sent, this`trace
      ensures Open()
      ensures Now() == if gone then old(Now()) else Moved(old(Now()), Deliver)
    {
      var event := queue[0];
      if event > highest {
        if * {
          return true;
        }
        sent := sent + [event];
      }
      queue := queue[1..];
      Step(Deliver);
      return false;
    }

    /** Takes events from the queue, until the client is gone or the rounds are up. */
    method Live(rounds: nat) returns (gone: bool)
      requires Open() && Now().phase == Replaying([])
      modifies this`inflight, this`queue, this`sent, this`trace, bus`sequence, bus`recent, bus`published
      ensures Open() && !Now().phase.Connecting?
      ensures !gone ==> Now().phase == Replaying([])
    {
      gone := false;
      var round := 0;
      while round < rounds && !gone
        invariant Open() && Now().phase == Replaying([])
      {
        Others();
        if queue != [] {
          gone := OnQueued();
        }
        round := round + 1;
      }
    }

    /** The connection from its beginning to its end, short of leaving the bus. */
    method Converse(rounds: nat) returns (gone: bool)
      requires Open() && Now().phase.Connecting?
      modifies this, bus
      ensures Open() && bus.subscribers == old(bus.subscribers) + [callback]
      ensures !gone ==> Now().phase == Replaying([])
    {
      Others();
      Join();
      Others();
      gone := Replay();
      if !gone {
        gone := Live(rounds);
      }
    }

    /**
     The whole connection, for as long as the client stays and for `rounds` rounds at the most.
     Whatever the other threads do, no event is sent twice; once the client has caught up it was
     sent each event above the floor; and no subscription is left behind.
     */
    method Serve(rounds: nat) returns (gone: bool)
      requires Open() && Now().phase.Connecting?
      modifies this, bus
      ensures Valid() && multiset(bus.subscribers) == multiset(old(bus.subscribers))
      ensures forall e: nat :: Count(sent, e) <= 1
      ensures !gone ==> Now().phase == Replaying([])
      ensures !gone && queue == [] && inflight == {} ==>
                forall e: nat :: Count(sent, e) == if Floor(Now()) < e <= bus.sequence then 1 else 0
      ensures !gone && queue == [] && inflight == {} && 0 <= Now().replayed - since <= bus.capacity && since >= 0 ==>
                forall e: nat :: Count(sent, e) == if since < e <= bus.sequence then 1 else 0
    {
      gone := Converse(rounds);
      bus.Unsubscribe(callback);
      RunTells(trace, since, bus.capacity, first);
    }
  }
}
