/** The dispatcher and its collaborators as objects: the delivery rows, the
    in-memory publisher, and one dispatch of one event. */
module EventDispatch {
  import opened ReviewTypes
  import opened EventDelivery

  class InMemoryEventPublisher {
    var events: seq<Event>
    var seen: set<Event>

    constructor ()
      ensures events == [] && seen == {}
    {
      events, seen := [], {};
    }

    method Publish(e: Event)
      modifies this
      ensures Published(events, seen) == EventDelivery.Publish(Published(old(events), old(seen)), e)
    {
      if e in seen { return; }
      seen := seen + {e};
      events := events + [e];
    }
  }

  class DeliveryRows {
    var queue: Queue

    constructor (streamType: Option<string>)
      ensures queue == Queue([], streamType, true, map[])
    {
      queue := Queue([], streamType, true, map[]);
    }

    method Backfill(now: int)
      modifies this
      ensures queue == Backfilled(old(queue), now)
    {
      var rows := queue.deliveries;
      var i := 0;
      while i < |queue.log|
        invariant 0 <= i <= |queue.log|
        invariant queue == old(queue)
        invariant forall e :: e in rows <==> e in queue.deliveries || (e in queue.log[..i] && Wanted(queue, e))
        invariant forall e :: e in rows ==>
                    rows[e] == if e in queue.deliveries then queue.deliveries[e] else Delivery(Waiting, None, None, now, 0)
      {
        var e := queue.log[i];
        assert queue.log[..i + 1] == queue.log[..i] + [e];
        if Wanted(queue, e) && e !in rows {
          rows := rows[e := Delivery(Waiting, None, None, now, 0)];
        }
        i := i + 1;
      }
      assert queue.log[..i] == queue.log;
      assert rows == Backfilled(queue, now).deliveries;
      queue := queue.(deliveries := rows);
    }

    /** claim_next_event_delivery: lease the first claimable event, if any. */
    method ClaimNext(worker: Worker, now: int, lease: nat) returns (claimed: Option<Event>)
      requires lease > 0
      modifies this
      ensures !old(queue).active ==> claimed == None && queue == old(queue)
      ensures old(queue).active && claimed.None? ==>
                queue == Backfilled(old(queue), now) && forall e :: e in queue.log ==> !Claimable(queue, e, now)
      ensures old(queue).active && claimed.Some? ==>
                FirstClaimable(Backfilled(old(queue), now), claimed.value, now) &&
                claimed.value in Backfilled(old(queue), now).deliveries &&
                queue == Lease(Backfilled(old(queue), now), claimed.value, worker, now, lease)
    {
      if !queue.active { return None; }
      Backfill(now);
      hide *;
      var i := 0;
      while i < |queue.log|
        invariant 0 <= i <= |queue.log|
        invariant queue == Backfilled(old(queue), now)
        invariant forall k :: 0 <= k < i ==> !Claimable(queue, queue.log[k], now)
      {
        var e := queue.log[i];
        if Claimable(queue, e, now) {
          FirstFound(queue, i, now);
          queue := Lease(queue, e, worker, now, lease);
          return Some(e);
        }
        i := i + 1;
      }
      NoneFound(queue, now);
      claimed := None;
    }

    method Complete(e: Event, worker: Worker, now: int) returns (ok: bool)
      modifies this
      ensures ok <==> MayComplete(old(queue), e, worker, now)
      ensures queue == if ok then Finished(old(queue), e) else old(queue)
    {
      if e !in queue.deliveries { return false; }
      var d := queue.deliveries[e];
      if d.status != Claimed || d.claimedBy != Some(worker) { return false; }
      if d.leaseExpiresAt.Some? && d.leaseExpiresAt.value < now { return false; }
      queue := Finished(queue, e);
      ok := true;
    }

    method Fail(e: Event, worker: Worker, now: int, delay: nat) returns (ok: bool)
      modifies this
      ensures ok <==> HeldBy(old(queue), e, worker)
      ensures queue == if ok then Returned(old(queue), e, now, delay) else old(queue)
    {
      if e !in queue.deliveries { return false; }
      var d := queue.deliveries[e];
      if d.status != Claimed || d.claimedBy != Some(worker) { return false; }
      queue := Returned(queue, e, now, delay);
      ok := true;
    }
  }

  lemma FirstFound(q: Queue, i: nat, now: int)
    requires i < |q.log| && Claimable(q, q.log[i], now) && forall k :: 0 <= k < i ==> !Claimable(q, q.log[k], now)
    ensures FirstClaimable(q, q.log[i], now) && q.log[i] in q.deliveries
  {
  }

  lemma NoneFound(q: Queue, now: int)
    requires forall k :: 0 <= k < |q.log| ==> !Claimable(q, q.log[k], now)
    ensures forall e :: e in q.log ==> !Claimable(q, e, now)
  {
    hide Claimable;
  }

  datatype Dispatch = Empty | Dispatched(event: Event) | ToRetry(event: Event)

  ghost function Seen(rows: DeliveryRows, publisher: InMemoryEventPublisher, workers: map<Worker, Position>): World
    reads rows, publisher
  {
    World(rows.queue, Published(publisher.events, publisher.seen), workers)
  }

  /** dispatch_once: claim, publish, then settle the delivery.  It is a run of
      the interleaving model by one worker, so every dispatch keeps the order;
      with one clock reading its lease cannot expire before it completes. */
  method DispatchOnce(rows: DeliveryRows, publisher: InMemoryEventPublisher, worker: Worker, now: int, lease: nat, delay: nat,
                      publisherRaises: bool)
    returns (result: Dispatch, ghost acts: seq<Action>)
    requires lease > 0
    modifies rows, publisher
    ensures result.Empty? ==> acts == [] && publisher.events == old(publisher.events)
    ensures !result.Empty? ==>
              Runs(old(Seen(rows, publisher, map[])), acts, Seen(rows, publisher, map[worker := Idle]))
    ensures result.Dispatched? ==> DeliveredIn(rows.queue, result.event) && result.event in publisher.seen
    ensures result.ToRetry? ==> publisherRaises && result.event in rows.queue.deliveries &&
                                rows.queue.deliveries[result.event].status == Retry
  {
    ghost var w0 := Seen(rows, publisher, map[]);
    var claimed := rows.ClaimNext(worker, now, lease);
    if claimed.None? { return Empty, []; }
    var e := claimed.value;
    ghost var claim := Claim(worker, e, now, lease);
    ghost var w1 := Seen(rows, publisher, map[worker := Holding(e)]);
    assert Possible(w0, claim) && After(w0, claim) == w1;
    if publisherRaises {
      ghost var send := Send(worker, false, false);
      ghost var w2 := Seen(rows, publisher, map[worker := Unsent(e)]);
      assert After(w1, send) == w2 by { assert w1.workers[worker := Unsent(e)] == map[worker := Unsent(e)]; }
      var _ := rows.Fail(e, worker, now, delay);
      ghost var fail := EventDelivery.Action.Fail(worker, now, delay);
      ghost var w3 := Seen(rows, publisher, map[worker := Idle]);
      assert After(w2, fail) == w3 by { assert w2.workers[worker := Idle] == map[worker := Idle]; }
      acts := [claim, send, fail];
      ThreeSteps(w0, claim, w1, send, w2, fail, w3);
      return ToRetry(e), acts;
    }
    publisher.Publish(e);
    ghost var send := Send(worker, true, true);
    ghost var w2 := Seen(rows, publisher, map[worker := Sent(e)]);
    assert After(w1, send) == w2 by { assert w1.workers[worker := Sent(e)] == map[worker := Sent(e)]; }
    var _ := rows.Complete(e, worker, now);
    ghost var complete := EventDelivery.Action.Complete(worker, now);
    ghost var w3 := Seen(rows, publisher, map[worker := Idle]);
    assert After(w2, complete) == w3 by { assert w2.workers[worker := Idle] == map[worker := Idle]; }
    ThreeSteps(w0, claim, w1, send, w2, complete, w3);
    result, acts := Dispatched(e), [claim, send, complete];
  }

  lemma ThreeSteps(w0: World, a: Action, w1: World, b: Action, w2: World, c: Action, w3: World)
    requires Possible(w0, a) && After(w0, a) == w1 && Possible(w1, b) && After(w1, b) == w2 && Possible(w2, c) && After(w2, c) == w3
    ensures Runs(w0, [a, b, c], w3)
  {
    hide Possible, After;
    assert Runs(w3, [], w3);
    assert [c][1..] == [] && Runs(w2, [c], w3);
    assert [b, c][1..] == [c] && Runs(w1, [b, c], w3);
    assert [a, b, c][1..] == [b, c];
  }
}
