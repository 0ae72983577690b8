/** Leased delivery of committed events to one subscriber, and the dispatcher
    that publishes them.  Workers interleave freely, crash, and let leases
    expire; no assumption is made about their clocks. */
module EventDelivery {
  import opened ReviewTypes

  datatype Stream = Stream(entityType: string, entityId: string)

  /** A committed event; stream and sequence identify it. */
  datatype Event = Event(stream: Stream, index: nat)

  type Worker = string

  datatype DeliveryStatus = Waiting | Claimed | Retry | Delivered

  datatype Delivery = Delivery(
    status: DeliveryStatus,
    claimedBy: Option<Worker>,
    leaseExpiresAt: Option<int>,
    availableAt: int,
    attempts: nat)

  /** One subscription's rows beside the committed log, in commit order. */
  datatype Queue = Queue(log: seq<Event>, streamType: Option<string>, active: bool, deliveries: map<Event, Delivery>)

  predicate Wanted(q: Queue, e: Event) {
    q.streamType.None? || q.streamType.value == e.stream.entityType
  }

  function OfStream(events: seq<Event>, s: Stream): seq<Event> {
    if events == [] then []
    else
      var before := OfStream(events[..|events| - 1], s);
      if events[|events| - 1].stream == s then before + [events[|events| - 1]] else before
  }

  // ------------------------------------------------------------- transactions

  /** _persist_event: the next sequence number of the stream. */
  function Committed(q: Queue, s: Stream): Queue {
    q.(log := q.log + [Event(s, |OfStream(q.log, s)| + 1)])
  }

  /** _backfill_event_deliveries: a row for every wanted event. */
  function Backfilled(q: Queue, now: int): Queue {
    q.(deliveries := (map e | e in q.log && Wanted(q, e) && e !in q.deliveries :: Delivery(Waiting, None, None, now, 0)) + q.deliveries)
  }

  predicate DeliveredIn(q: Queue, e: Event) {
    e in q.deliveries && q.deliveries[e].status == Delivered
  }

  predicate Claimable(q: Queue, e: Event, now: int) {
    && e in q.deliveries
    && var d := q.deliveries[e];
    && ((d.status in {Waiting, Retry} && d.availableAt <= now) ||
        (d.status == Claimed && d.leaseExpiresAt.Some? && d.leaseExpiresAt.value <= now))
    && forall f :: f in q.deliveries && f.stream == e.stream && f.index < e.index ==> q.deliveries[f].status == Delivered
  }

  function Lease(q: Queue, e: Event, worker: Worker, now: int, lease: nat): Queue
    requires e in q.deliveries
  {
    var d := q.deliveries[e];
    q.(deliveries := q.deliveries[e := d.(status := Claimed, claimedBy := Some(worker), leaseExpiresAt := Some(now + lease),
                                           attempts := d.attempts + 1)])
  }

  predicate HeldBy(q: Queue, e: Event, worker: Worker) {
    e in q.deliveries && q.deliveries[e].status == Claimed && q.deliveries[e].claimedBy == Some(worker)
  }

  predicate MayComplete(q: Queue, e: Event, worker: Worker, now: int) {
    HeldBy(q, e, worker) && (q.deliveries[e].leaseExpiresAt.Some? ==> now <= q.deliveries[e].leaseExpiresAt.value)
  }

  function Finished(q: Queue, e: Event): Queue
    requires e in q.deliveries
  {
    q.(deliveries := q.deliveries[e := q.deliveries[e].(status := Delivered, claimedBy := None, leaseExpiresAt := None)])
  }

  /** fail_event_delivery looks at the holder, not at the lease. */
  function Returned(q: Queue, e: Event, now: int, delay: nat): Queue
    requires e in q.deliveries
  {
    q.(deliveries := q.deliveries[e := q.deliveries[e].(status := Retry, claimedBy := None, leaseExpiresAt := None,
                                                        availableAt := now + delay)])
  }

  // ----------------------------------------------------------------- publisher

  datatype Published = Published(events: seq<Event>, seen: set<Event>)

  /** InMemoryEventPublisher.publish. */
  function Publish(p: Published, e: Event): Published {
    if e in p.seen then p else Published(p.events + [e], p.seen + {e})
  }

  // -------------------------------------------------------------- interleaving

  /** Where a worker's dispatch_once stands. */
  datatype Position = Idle | Holding(event: Event) | Sent(event: Event) | Unsent(event: Event)

  datatype World = World(queue: Queue, publisher: Published, workers: map<Worker, Position>)

  datatype Action =
    | Commit(stream: Stream)
    | SetActive(active: bool)
    | Claim(worker: Worker, event: Event, now: int, lease: nat)
    | Send(worker: Worker, effective: bool, succeeded: bool)
    | Complete(worker: Worker, now: int)
    | Fail(worker: Worker, now: int, delay: nat)
    | Crash(worker: Worker)

  function At(w: World, worker: Worker): Position {
    if worker in w.workers then w.workers[worker] else Idle
  }

  /** A worker claims the first claimable event in commit order. */
  predicate FirstClaimable(q: Queue, e: Event, now: int) {
    exists i :: 0 <= i < |q.log| && q.log[i] == e && Claimable(q, e, now) &&
                forall k :: 0 <= k < i ==> !Claimable(q, q.log[k], now)
  }

  predicate Possible(w: World, act: Action) {
    match act
    case Claim(worker, e, now, lease) =>
      At(w, worker).Idle? && w.queue.active && lease > 0 && FirstClaimable(Backfilled(w.queue, now), e, now)
    case Send(worker, effective, succeeded) => At(w, worker).Holding? && (succeeded ==> effective)
    case Complete(worker, _) => At(w, worker).Sent?
    case Fail(worker, _, _) => At(w, worker).Unsent?
    case _ => true
  }

  function Moved(w: World, worker: Worker, p: Position): World {
    w.(workers := w.workers[worker := p])
  }

  function After(w: World, act: Action): World
    requires Possible(w, act)
  {
    match act
    case Commit(s) => w.(queue := Committed(w.queue, s))
    case SetActive(active) => w.(queue := w.queue.(active := active))
    case Claim(worker, e, now, lease) => Moved(w, worker, Holding(e)).(queue := Lease(Backfilled(w.queue, now), e, worker, now, lease))
    case Send(worker, effective, succeeded) =>
      var e := At(w, worker).event;
      Moved(w, worker, if succeeded then Sent(e) else Unsent(e))
        .(publisher := if effective then Publish(w.publisher, e) else w.publisher)
    case Complete(worker, now) =>
      var e := At(w, worker).event;
      Moved(w, worker, Idle).(queue := if MayComplete(w.queue, e, worker, now) then Finished(w.queue, e) else w.queue)
    case Fail(worker, now, delay) =>
      var e := At(w, worker).event;
      Moved(w, worker, Idle).(queue := if HeldBy(w.queue, e, worker) then Returned(w.queue, e, now, delay) else w.queue)
    case Crash(worker) => Moved(w, worker, Idle)
  }

  // ------------------------------------------------------------------ ordering

  /** A stream's events in a list are its first ones, in order, once each. */
  ghost predicate Numbered(events: seq<Event>, s: Stream) {
    forall k :: 0 <= k < |OfStream(events, s)| ==> OfStream(events, s)[k] == Event(s, k + 1)
  }

  lemma {:induction false} StreamMembers(events: seq<Event>, s: Stream)
    ensures forall e :: e in OfStream(events, s) <==> e in events && e.stream == s
    decreases |events|
  {
    if events != [] {
      var front := events[..|events| - 1];
      StreamMembers(front, s);
      assert events == front + [events[|events| - 1]];
    }
  }

  /** In a numbered list the events of a stream are exactly those up to its
      length. */
  lemma NumberedMembers(events: seq<Event>, s: Stream, k: nat)
    requires Numbered(events, s)
    ensures Event(s, k) in events <==> 1 <= k <= |OfStream(events, s)|
  {
    StreamMembers(events, s);
    if 1 <= k <= |OfStream(events, s)| { assert OfStream(events, s)[k - 1] == Event(s, k); }
  }

  lemma NumberedAppend(events: seq<Event>, e: Event, s: Stream)
    requires Numbered(events, s)
    requires e.stream == s ==> e.index == |OfStream(events, s)| + 1
    ensures Numbered(events + [e], s)
    ensures OfStream(events + [e], s) == if e.stream == s then OfStream(events, s) + [e] else OfStream(events, s)
  {
    assert (events + [e])[..|events|] == events;
  }

  /** Everything of e's stream before e is delivered. */
  ghost predicate Preceded(q: Queue, e: Event) {
    forall f :: f in q.log && Wanted(q, f) && f.stream == e.stream && f.index < e.index ==> DeliveredIn(q, f)
  }

  ghost predicate Listed(w: World) {
    && (forall s :: Numbered(w.queue.log, s) && Numbered(w.publisher.events, s))
    && (forall e :: e in w.publisher.seen <==> e in w.publisher.events)
  }

  ghost predicate Lined(q: Queue, seen: set<Event>) {
    && (forall e :: e in q.deliveries || e in seen ==> e in q.log && Wanted(q, e))
    && (forall e :: DeliveredIn(q, e) ==> e in seen)
    && (forall e :: e in seen ==> Preceded(q, e))
    && (forall e :: e in q.deliveries && q.deliveries[e].status in {Claimed, Retry} ==> Preceded(q, e))
  }

  ghost predicate Placed(q: Queue, seen: set<Event>, workers: map<Worker, Position>) {
    && (forall x :: x in workers && !workers[x].Idle? ==>
          workers[x].event in q.log && Wanted(q, workers[x].event) && Preceded(q, workers[x].event))
    && (forall x :: x in workers && workers[x].Sent? ==> workers[x].event in seen)
  }

  ghost predicate Ordered(w: World) {
    Listed(w) && Lined(w.queue, w.publisher.seen) && Placed(w.queue, w.publisher.seen, w.workers)
  }

  function Start(streamType: Option<string>): World {
    World(Queue([], streamType, true, map[]), Published([], {}), map[])
  }

  /** q2 has q1's log and every delivery q1 had made. */
  ghost predicate Advances(q1: Queue, q2: Queue) {
    q2.log == q1.log && q2.streamType == q1.streamType && forall e :: DeliveredIn(q1, e) ==> DeliveredIn(q2, e)
  }

  lemma PrecededStays(q1: Queue, q2: Queue)
    requires Advances(q1, q2)
    ensures forall e :: Preceded(q1, e) ==> Preceded(q2, e)
  {
  }

  lemma CommitOrdered(w: World, s: Stream)
    requires Ordered(w)
    ensures Ordered(After(w, Commit(s)))
  {
    var e := Event(s, |OfStream(w.queue.log, s)| + 1);
    var v := After(w, Commit(s));
    forall t ensures Numbered(v.queue.log, t) { NumberedAppend(w.queue.log, e, t); }
    forall f | Preceded(w.queue, f) && f in w.queue.log ensures Preceded(v.queue, f) {
      if f.stream == s { NumberedMembers(w.queue.log, s, f.index); }
    }
    hide OfStream, Numbered;
  }

  /** A claimed event is the first undelivered one of its stream. */
  lemma ClaimedIsFirst(w: World, e: Event, now: int)
    requires Ordered(w) && FirstClaimable(Backfilled(w.queue, now), e, now)
    ensures e in Backfilled(w.queue, now).deliveries
    ensures e in w.queue.log && Wanted(w.queue, e) && !DeliveredIn(w.queue, e) && Preceded(w.queue, e)
  {
    hide Numbered, OfStream;
    var q := Backfilled(w.queue, now);
    forall f | f in w.queue.log && Wanted(w.queue, f) && f.stream == e.stream && f.index < e.index
      ensures DeliveredIn(w.queue, f)
    {
      assert f in q.deliveries && q.deliveries[f].status == Delivered;
    }
  }

  /** Delivery rows may change as long as nothing skips its predecessors. */
  lemma LinedStays(q: Queue, r: Queue, seen: set<Event>, e: Event)
    requires Lined(q, seen) && Advances(q, r) && e in q.log && Wanted(q, e) && Preceded(q, e)
    requires forall f :: DeliveredIn(r, f) ==> DeliveredIn(q, f) || (f == e && e in seen)
    requires forall f :: f in r.deliveries ==> f in q.deliveries || (f in q.log && Wanted(q, f))
    requires forall f :: f in r.deliveries && f != e && r.deliveries[f].status in {Claimed, Retry} ==>
               f in q.deliveries && q.deliveries[f].status == r.deliveries[f].status
    ensures Lined(r, seen)
  {
    hide Preceded;
    PrecededStays(q, r);
  }

  lemma PlacedStays(q: Queue, r: Queue, seen: set<Event>, workers: map<Worker, Position>, x: Worker, p: Position)
    requires Placed(q, seen, workers) && Advances(q, r)
    requires !p.Idle? ==> p.event in q.log && Wanted(q, p.event) && Preceded(q, p.event)
    requires p.Sent? ==> p.event in seen
    ensures Placed(r, seen, workers[x := p])
  {
    hide Preceded;
    PrecededStays(q, r);
  }

  lemma ClaimOrdered(w: World, worker: Worker, e: Event, now: int, lease: nat)
    requires Ordered(w) && Possible(w, Claim(worker, e, now, lease))
    ensures Ordered(After(w, Claim(worker, e, now, lease)))
  {
    hide Numbered, OfStream, FirstClaimable, Backfilled, Lease, Claimable, Preceded, Lined, Placed, Listed, Advances;
    ClaimedIsFirst(w, e, now);
    var v := After(w, Claim(worker, e, now, lease));
    ClaimedRows(w.queue, e, worker, now, lease);
    LinedStays(w.queue, v.queue, w.publisher.seen, e);
    PlacedStays(w.queue, v.queue, w.publisher.seen, w.workers, worker, Holding(e));
    ListedStays(w, v);
  }

  lemma ListedStays(w: World, v: World)
    requires Listed(w) && v.queue.log == w.queue.log && v.publisher == w.publisher
    ensures Listed(v)
  {
    hide Numbered;
  }

  /** Backfilling adds waiting rows; the lease changes one row. */
  lemma ClaimedRows(q: Queue, e: Event, worker: Worker, now: int, lease: nat)
    requires e in Backfilled(q, now).deliveries && !DeliveredIn(q, e)
    ensures var r := Lease(Backfilled(q, now), e, worker, now, lease);
            && r == q.(deliveries := r.deliveries)
            && Advances(q, r)
            && (forall f :: DeliveredIn(r, f) <==> DeliveredIn(q, f))
            && (forall f :: f in r.deliveries ==> f in q.deliveries || (f in q.log && Wanted(q, f)))
            && (forall f :: f in r.deliveries && f != e && r.deliveries[f].status in {Claimed, Retry} ==>
                  f in q.deliveries && q.deliveries[f].status == r.deliveries[f].status)
  {
  }

  /** Publishing a held event extends its stream by exactly that event, or
      changes nothing. */
  lemma SendOrdered(w: World, worker: Worker, effective: bool, succeeded: bool)
    requires Ordered(w) && Possible(w, Send(worker, effective, succeeded))
    ensures Ordered(After(w, Send(worker, effective, succeeded)))
  {
    hide Numbered, OfStream, Preceded;
    var e := At(w, worker).event;
    SentIsPlaced(w, worker);
    if effective && e !in w.publisher.seen {
      SendExtends(w, e);
      forall s ensures Numbered(w.publisher.events + [e], s) { NumberedAppend(w.publisher.events, e, s); }
    }
  }

  /** An unpublished event whose predecessors are delivered is the publisher's
      next of its stream. */
  lemma SendExtends(w: World, e: Event)
    requires Ordered(w) && e in w.queue.log && Wanted(w.queue, e) && Preceded(w.queue, e) && e !in w.publisher.seen
    ensures e.index == |OfStream(w.publisher.events, e.stream)| + 1
  {
    hide OfStream, Placed;
    assert Numbered(w.publisher.events, e.stream) && Numbered(w.queue.log, e.stream);
    NumberedMembers(w.publisher.events, e.stream, e.index);
    NumberedMembers(w.queue.log, e.stream, e.index);
    hide Numbered;
    if e.index > 1 {
      var f := Event(e.stream, e.index - 1);
      NumberedMembers(w.queue.log, e.stream, f.index);
      assert DeliveredIn(w.queue, f);
      NumberedMembers(w.publisher.events, e.stream, f.index);
    }
  }

  lemma CompleteOrdered(w: World, worker: Worker, now: int)
    requires Ordered(w) && Possible(w, Complete(worker, now))
    ensures Ordered(After(w, Complete(worker, now)))
  {
    hide Numbered, OfStream, Preceded, Lined, Placed, Listed, Advances;
    var v, e := After(w, Complete(worker, now)), At(w, worker).event;
    SentIsPlaced(w, worker);
    assert Advances(w.queue, v.queue) by { FinishedAdvances(w.queue, e); }
    LinedStays(w.queue, v.queue, w.publisher.seen, e);
    PlacedStays(w.queue, v.queue, w.publisher.seen, w.workers, worker, Idle);
    ListedStays(w, v);
  }

  lemma SentIsPlaced(w: World, x: Worker)
    requires Ordered(w) && !At(w, x).Idle?
    ensures var e := At(w, x).event; e in w.queue.log && Wanted(w.queue, e) && Preceded(w.queue, e)
    ensures At(w, x).Sent? ==> At(w, x).event in w.publisher.seen
  {
    hide Preceded, Lined, Listed;
  }

  lemma FinishedAdvances(q: Queue, e: Event)
    ensures Advances(q, q)
    ensures e in q.deliveries ==> Advances(q, Finished(q, e))
  {
  }

  lemma FailOrdered(w: World, worker: Worker, now: int, delay: nat)
    requires Ordered(w) && Possible(w, Fail(worker, now, delay))
    ensures Ordered(After(w, Fail(worker, now, delay)))
  {
    hide Numbered, OfStream, Preceded, Lined, Placed, Listed, Advances;
    var v, e := After(w, Fail(worker, now, delay)), At(w, worker).event;
    SentIsPlaced(w, worker);
    assert Advances(w.queue, v.queue) by { ReturnedAdvances(w.queue, e, worker, now, delay); }
    LinedStays(w.queue, v.queue, w.publisher.seen, e);
    PlacedStays(w.queue, v.queue, w.publisher.seen, w.workers, worker, Idle);
    ListedStays(w, v);
  }

  lemma ReturnedAdvances(q: Queue, e: Event, worker: Worker, now: int, delay: nat)
    ensures Advances(q, q)
    ensures HeldBy(q, e, worker) ==> Advances(q, Returned(q, e, now, delay))
  {
  }

  lemma StepOrdered(w: World, act: Action)
    requires Ordered(w) && Possible(w, act)
    ensures Ordered(After(w, act))
  {
    hide Ordered, Numbered, OfStream;
    match act
    case Commit(s) => CommitOrdered(w, s);
    case Claim(worker, e, now, lease) => ClaimOrdered(w, worker, e, now, lease);
    case Send(worker, effective, succeeded) => SendOrdered(w, worker, effective, succeeded);
    case Complete(worker, now) => CompleteOrdered(w, worker, now);
    case Fail(worker, now, delay) => FailOrdered(w, worker, now, delay);
    case SetActive(active) => SwitchOrdered(w, active);
    case Crash(worker) => CrashOrdered(w, worker);
  }

  lemma SwitchOrdered(w: World, active: bool)
    requires Ordered(w)
    ensures Ordered(After(w, SetActive(active)))
  {
    hide Numbered, OfStream;
    var v := After(w, SetActive(active));
    assert Advances(w.queue, v.queue) && forall e :: DeliveredIn(v.queue, e) == DeliveredIn(w.queue, e);
    PrecededStays(w.queue, v.queue);
    hide Preceded, DeliveredIn;
  }

  lemma CrashOrdered(w: World, worker: Worker)
    requires Ordered(w)
    ensures Ordered(After(w, Crash(worker)))
  {
    hide Numbered, OfStream, Preceded;
  }

  ghost predicate Runs(w: World, acts: seq<Action>, v: World)
    decreases |acts|
  {
    if acts == [] then w == v else Possible(w, acts[0]) && Runs(After(w, acts[0]), acts[1..], v)
  }

  lemma {:induction false} RunOrdered(w: World, acts: seq<Action>, v: World)
    requires Ordered(w) && Runs(w, acts, v)
    ensures Ordered(v)
    decreases |acts|
  {
    hide Ordered, Possible, After;
    if acts != [] {
      StepOrdered(w, acts[0]);
      RunOrdered(After(w, acts[0]), acts[1..], v);
    }
  }

  /** In-order, exactly-once effect: after any interleaving of workers, crashes,
      failures and expired leases, what a stream's subscriber has been delivered
      is a prefix of the stream, and what the publisher holds of the stream is a
      prefix of it, each event once. */
  lemma InOrderExactlyOnce(streamType: Option<string>, acts: seq<Action>, w: World, s: Stream)
    requires Runs(Start(streamType), acts, w)
    ensures OfStream(w.publisher.events, s) <= OfStream(w.queue.log, s)
    ensures forall i, j :: 0 <= i < j < |w.publisher.events| ==> w.publisher.events[i] != w.publisher.events[j]
    ensures forall e, f :: DeliveredIn(w.queue, e) && f in w.queue.log && Wanted(w.queue, f) && f.stream == e.stream && f.index < e.index ==>
              DeliveredIn(w.queue, f)
    ensures forall e :: DeliveredIn(w.queue, e) ==> e in w.publisher.events
  {
    assert Ordered(Start(streamType));
    RunOrdered(Start(streamType), acts, w);
    PublishedPrefix(w, s);
    NoRepeats(w.publisher.events);
  }

  lemma PublishedPrefix(w: World, s: Stream)
    requires Ordered(w)
    ensures OfStream(w.publisher.events, s) <= OfStream(w.queue.log, s)
  {
    var sent, all := OfStream(w.publisher.events, s), OfStream(w.queue.log, s);
    assert Numbered(w.publisher.events, s) && Numbered(w.queue.log, s);
    if |sent| > 0 {
      var last := Event(s, |sent|);
      NumberedMembers(w.publisher.events, s, |sent|);
      assert last in w.publisher.seen;
      NumberedMembers(w.queue.log, s, |sent|);
    }
    forall k | 0 <= k < |sent| ensures sent[k] == all[k] {}
  }

  lemma {:induction false} NoRepeats(events: seq<Event>)
    requires forall s :: Numbered(events, s)
    ensures forall i, j :: 0 <= i < j < |events| ==> events[i] != events[j]
    decreases |events|
  {
    if events != [] {
      var front, last := events[..|events| - 1], events[|events| - 1];
      forall s ensures Numbered(front, s) && (last in front ==> s != last.stream) { FrontNumbered(events, s); }
      NoRepeats(front);
      FrontNumbered(events, last.stream);
      forall i, j | 0 <= i < j < |events| ensures events[i] != events[j] {
        if j == |events| - 1 { assert events[i] == front[i]; assert last !in front; }
        else { assert events[i] == front[i] && events[j] == front[j]; }
      }
    }
  }

  lemma FrontNumbered(events: seq<Event>, s: Stream)
    requires events != [] && Numbered(events, s)
    ensures var front, last := events[..|events| - 1], events[|events| - 1];
            Numbered(front, s) && (last.stream == s ==> last !in front)
  {
    var front, last := events[..|events| - 1], events[|events| - 1];
    var all, before := OfStream(events, s), OfStream(front, s);
    forall k | 0 <= k < |before| ensures before[k] == Event(s, k + 1) { assert before[k] == all[k]; }
    if last.stream == s {
      assert all[|before|] == last == Event(s, |before| + 1);
      NumberedMembers(front, s, |before| + 1);
    }
  }
}
