/** The scheduler's work items: leases, automatic retries, dead letters and
    manual retries.  A ghost tally per item remembers what its row forgets. */
module WorkQueue {
  import opened ReviewTypes

  type Worker = string

  datatype ItemStatus = Waiting | Claimed | Retry | Completed | DeadLetter | Cancelled

  datatype Item = Item(
    status: ItemStatus,
    dueAt: int,
    availableAt: int,
    claimedBy: Option<Worker>,
    leaseExpiresAt: Option<int>,
    attempts: nat,
    maxAttempts: nat)

  /** automatic counts retries scheduled by a failure, reclaims the claims that
      took over an expired lease. */
  datatype Tally = Tally(automatic: nat, reclaims: nat, latest: Option<Worker>)

  predicate Claimable(item: Item, now: int) {
    || (item.status in {Waiting, Retry} && item.availableAt <= now)
    || (item.status == Claimed && item.leaseExpiresAt.Some? && item.leaseExpiresAt.value <= now)
  }

  /** The claim order: earlier due first, then the smaller id. */
  predicate Before(a: Item, i: nat, b: Item, j: nat) {
    a.dueAt < b.dueAt || (a.dueAt == b.dueAt && i <= j)
  }

  predicate HeldBy(item: Item, worker: Worker) {
    item.status == Claimed && item.claimedBy == Some(worker)
  }

  /** What is true of every item over its whole life. */
  predicate Kept(item: Item, t: Tally) {
    && item.maxAttempts >= 1
    && t.automatic <= item.maxAttempts - 1
    && t.automatic <= item.attempts
    && (item.status == Claimed ==> t.automatic < item.attempts && item.claimedBy == t.latest && t.latest.Some?)
    && item.attempts <= item.maxAttempts + t.reclaims
    && (item.status in {Waiting, Retry} ==> item.attempts < item.maxAttempts + t.reclaims)
  }

  /** The transitions of one row. */
  datatype Change =
    | Claim(worker: Worker, now: int, lease: nat)
    | Finish(worker: Worker, now: int)
    | Fail(worker: Worker, now: int, retryable: bool, delay: nat)
    | Extend(worker: Worker, now: int, lease: nat)
    | Regrant(now: int, additional: nat)
    | Cancel

  predicate Legal(item: Item, c: Change) {
    match c
    case Claim(_, now, lease) => Claimable(item, now) && lease > 0
    case Finish(worker, now) => HeldBy(item, worker) && (item.leaseExpiresAt.Some? ==> now <= item.leaseExpiresAt.value)
    case Fail(worker, _, _, _) => HeldBy(item, worker)
    case Extend(worker, _, lease) => HeldBy(item, worker) && lease > 0
    case Regrant(_, additional) => item.status == DeadLetter && additional > 0
    case Cancel => item.status !in {Completed, ItemStatus.Cancelled}
  }

  predicate Dead(item: Item, retryable: bool) {
    !retryable || item.attempts >= item.maxAttempts
  }

  function Changed(item: Item, c: Change): Item {
    match c
    case Claim(worker, now, lease) =>
      item.(status := Claimed, claimedBy := Some(worker), leaseExpiresAt := Some(now + lease), attempts := item.attempts + 1)
    case Finish(_, _) => item.(status := Completed, leaseExpiresAt := None)
    case Fail(_, now, retryable, delay) =>
      item.(status := if Dead(item, retryable) then DeadLetter else Retry, availableAt := now + delay,
            claimedBy := None, leaseExpiresAt := None)
    case Extend(_, now, lease) => item.(leaseExpiresAt := Some(now + lease))
    case Regrant(now, additional) => item.(status := Retry, availableAt := now, maxAttempts := item.maxAttempts + additional)
    case Cancel => item.(status := ItemStatus.Cancelled, claimedBy := None, leaseExpiresAt := None)
  }

  class SchedulerQueue {
    var items: map<nat, Item>
    ghost var tallies: map<nat, Tally>

    ghost predicate Valid()
      reads this
    {
      items.Keys == tallies.Keys && forall i :: i in items ==> Kept(items[i], tallies[i])
    }

    constructor ()
      ensures Valid() && items == map[]
    {
      items := map[];
      tallies := map[];
    }

    /** enqueue_occurrence: idempotent for the same due time. */
    method Enqueue(i: nat, dueAt: int, maxAttempts: nat) returns (ok: bool)
      requires Valid()
      modifies this
      ensures Valid()
      ensures ok <==> maxAttempts > 0 && (i in old(items) ==> old(items)[i].dueAt == dueAt)
      ensures items == if ok && i !in old(items) then old(items)[i := Item(Waiting, dueAt, dueAt, None, None, 0, maxAttempts)] else old(items)
    {
      if maxAttempts == 0 { return false; }
      if i in items { return items[i].dueAt == dueAt; }
      items := items[i := Item(Waiting, dueAt, dueAt, None, None, 0, maxAttempts)];
      tallies := tallies[i := Tally(0, 0, None)];
      ok := true;
    }

    /** The claimable item that is first in claim order. */
    method FirstClaimable(now: int) returns (claimed: Option<nat>)
      ensures claimed.None? ==> forall i :: i in items ==> !Claimable(items[i], now)
      ensures claimed.Some? ==>
                && claimed.value in items && Claimable(items[claimed.value], now)
                && forall j :: j in items && Claimable(items[j], now) ==> Before(items[claimed.value], claimed.value, items[j], j)
    {
      var rest := items.Keys;
      claimed := None;
      while rest != {}
        invariant rest <= items.Keys
        invariant claimed.Some? ==> claimed.value in items && Claimable(items[claimed.value], now)
        invariant forall j :: j in items && j !in rest && Claimable(items[j], now) ==>
                    claimed.Some? && Before(items[claimed.value], claimed.value, items[j], j)
        decreases |rest|
      {
        var j :| j in rest;
        rest := rest - {j};
        if Claimable(items[j], now) && (claimed.None? || Before(items[j], j, items[claimed.value], claimed.value)) {
          claimed := Some(j);
        }
      }
    }

    /** claim_next_work_item: the first claimable item; an expired lease is
        taken over without looking at maxAttempts. */
    method ClaimNext(worker: Worker, now: int, lease: nat) returns (claimed: Option<nat>)
      requires Valid() && lease > 0
      modifies this
      ensures Valid()
      ensures claimed.None? ==> items == old(items) && forall i :: i in items ==> !Claimable(items[i], now)
      ensures claimed.Some? ==>
                var i := claimed.value;
                && i in old(items) && Claimable(old(items)[i], now)
                && (forall j :: j in old(items) && Claimable(old(items)[j], now) ==> Before(old(items)[i], i, old(items)[j], j))
                && items == old(items)[i := Changed(old(items)[i], Change.Claim(worker, now, lease))]
                && tallies[i].latest == Some(worker)
    {
      claimed := FirstClaimable(now);
      if claimed.None? { return; }
      var i := claimed.value;
      var item := items[i];
      ghost var t := tallies[i];
      tallies := tallies[i := t.(latest := Some(worker), reclaims := t.reclaims + (if item.status == Claimed then 1 else 0))];
      items := items[i := item.(status := Claimed, claimedBy := Some(worker), leaseExpiresAt := Some(now + lease),
                                attempts := item.attempts + 1)];
    }

    /** complete_work_item: only the latest claimer, while its lease holds. */
    method Complete(i: nat, worker: Worker, now: int) returns (ok: bool)
      requires Valid()
      modifies this
      ensures Valid()
      ensures ok <==> i in old(items) && Legal(old(items)[i], Finish(worker, now))
      ensures ok ==> old(tallies)[i].latest == Some(worker)
      ensures items == if ok then old(items)[i := Changed(old(items)[i], Finish(worker, now))] else old(items)
    {
      if i !in items { return false; }
      var item := items[i];
      if item.status != Claimed || item.claimedBy != Some(worker) { return false; }
      if item.leaseExpiresAt.Some? && item.leaseExpiresAt.value < now { return false; }
      items := items[i := item.(status := Completed, leaseExpiresAt := None)];
      ok := true;
    }

    /** fail_work_item: retry, or dead-letter once the attempts are used up. */
    method Fail(i: nat, worker: Worker, now: int, retryable: bool, delay: nat) returns (ok: bool)
      requires Valid()
      modifies this
      ensures Valid()
      ensures ok <==> i in old(items) && Legal(old(items)[i], Change.Fail(worker, now, retryable, delay))
      ensures ok ==> old(tallies)[i].latest == Some(worker)
      ensures items == if ok then old(items)[i := Changed(old(items)[i], Change.Fail(worker, now, retryable, delay))] else old(items)
    {
      if i !in items { return false; }
      var item := items[i];
      if item.status != Claimed || item.claimedBy != Some(worker) { return false; }
      var dead := !retryable || item.attempts >= item.maxAttempts;
      ghost var t := tallies[i];
      tallies := tallies[i := t.(automatic := t.automatic + if dead then 0 else 1)];
      items := items[i := item.(status := if dead then DeadLetter else Retry, availableAt := now + delay,
                                claimedBy := None, leaseExpiresAt := None)];
      ok := true;
    }

    /** extend_work_item_lease looks at the holder, not at the lease. */
    method Extend(i: nat, worker: Worker, now: int, lease: nat) returns (ok: bool)
      requires Valid() && lease > 0
      modifies this
      ensures Valid()
      ensures ok <==> i in old(items) && Legal(old(items)[i], Change.Extend(worker, now, lease))
      ensures items == if ok then old(items)[i := Changed(old(items)[i], Change.Extend(worker, now, lease))] else old(items)
    {
      if i !in items || !HeldBy(items[i], worker) { return false; }
      items := items[i := items[i].(leaseExpiresAt := Some(now + lease))];
      ok := true;
    }

    /** retry_dead_letter: an operator grants more attempts. */
    method RetryDeadLetter(i: nat, now: int, additional: nat) returns (ok: bool)
      requires Valid()
      modifies this
      ensures Valid()
      ensures ok <==> i in old(items) && Legal(old(items)[i], Regrant(now, additional))
      ensures items == if ok then old(items)[i := Changed(old(items)[i], Regrant(now, additional))] else old(items)
    {
      if additional == 0 || i !in items || items[i].status != DeadLetter { return false; }
      items := items[i := items[i].(status := Retry, availableAt := now, maxAttempts := items[i].maxAttempts + additional)];
      ok := true;
    }

    method Cancel(i: nat) returns (ok: bool)
      requires Valid()
      modifies this
      ensures Valid()
      ensures ok <==> i in old(items) && Legal(old(items)[i], Change.Cancel)
      ensures items == if ok then old(items)[i := Changed(old(items)[i], Change.Cancel)] else old(items)
    {
      if i !in items || items[i].status in {Completed, ItemStatus.Cancelled} { return false; }
      items := items[i := items[i].(status := ItemStatus.Cancelled, claimedBy := None, leaseExpiresAt := None)];
      ok := true;
    }
  }

  // ------------------------------------------------------- one item's lifetime

  ghost predicate Lives(item: Item, changes: seq<Change>, after: Item)
    decreases |changes|
  {
    if changes == [] then item == after else Legal(item, changes[0]) && Lives(Changed(item, changes[0]), changes[1..], after)
  }

  /** The automatic retries a life schedules. */
  ghost function AutomaticRetries(item: Item, changes: seq<Change>): nat
    decreases |changes|
  {
    if changes == [] then 0
    else (if changes[0].Fail? && !Dead(item, changes[0].retryable) then 1 else 0) +
         AutomaticRetries(Changed(item, changes[0]), changes[1..])
  }

  /** The claims that took over an expired lease. */
  ghost function Takeovers(item: Item, changes: seq<Change>): nat
    decreases |changes|
  {
    if changes == [] then 0
    else (if changes[0].Claim? && item.status == Claimed then 1 else 0) + Takeovers(Changed(item, changes[0]), changes[1..])
  }

  lemma {:induction false} LifeKeeps(item: Item, t: Tally, changes: seq<Change>, after: Item)
    requires Kept(item, t) && Lives(item, changes, after)
    ensures exists u: Tally ::
              Kept(after, u) && u.automatic == t.automatic + AutomaticRetries(item, changes) &&
              u.reclaims == t.reclaims + Takeovers(item, changes)
    decreases |changes|
  {
    if changes == [] {
      assert Kept(after, t);
    } else {
      var c := changes[0];
      var t' := match c
        case Claim(worker, _, _) => t.(latest := Some(worker), reclaims := t.reclaims + (if item.status == Claimed then 1 else 0))
        case Fail(_, _, retryable, _) => t.(automatic := t.automatic + (if Dead(item, retryable) then 0 else 1))
        case _ => t;
      LifeKeeps(Changed(item, c), t', changes[1..], after);
    }
  }

  /** Over a whole life automatic retries stay below the attempts granted, and
      attempts pass that limit only by takeovers of expired leases. */
  lemma RetriesBounded(dueAt: int, maxAttempts: nat, changes: seq<Change>, after: Item)
    requires maxAttempts > 0 && Lives(Item(Waiting, dueAt, dueAt, None, None, 0, maxAttempts), changes, after)
    ensures var first := Item(Waiting, dueAt, dueAt, None, None, 0, maxAttempts);
            && AutomaticRetries(first, changes) <= after.maxAttempts - 1
            && after.attempts <= after.maxAttempts + Takeovers(first, changes)
  {
    LifeKeeps(Item(Waiting, dueAt, dueAt, None, None, 0, maxAttempts), Tally(0, 0, None), changes, after);
  }

  // ------------------------------------------------------ the attempt limit

  /** Within its limit, and able to be claimed without passing it. */
  predicate WithinLimit(item: Item) {
    item.attempts <= item.maxAttempts && (item.status in {Waiting, Retry} ==> item.attempts < item.maxAttempts)
  }

  /** A worker takes over an expired lease when every attempt granted has been
      made: the branch of a claim that looks at no limit. */
  predicate ExhaustedTakeover(item: Item, c: Change) {
    c.Claim? && item.status == Claimed && item.attempts == item.maxAttempts
  }

  /** One change passes the limit if and only if it is such a takeover. */
  lemma PassesLimitExactly(item: Item, c: Change)
    requires WithinLimit(item) && Legal(item, c)
    ensures Changed(item, c).attempts > Changed(item, c).maxAttempts <==> ExhaustedTakeover(item, c)
    ensures !ExhaustedTakeover(item, c) ==> WithinLimit(Changed(item, c))
  {
  }

  /** At every moment of a life no more attempts were made than granted. */
  ghost predicate StaysWithinLimit(item: Item, changes: seq<Change>)
    decreases |changes|
  {
    item.attempts <= item.maxAttempts && (changes != [] ==> StaysWithinLimit(Changed(item, changes[0]), changes[1..]))
  }

  ghost predicate HoldsExhaustedTakeover(item: Item, changes: seq<Change>)
    decreases |changes|
  {
    changes != [] &&
    (ExhaustedTakeover(item, changes[0]) || HoldsExhaustedTakeover(Changed(item, changes[0]), changes[1..]))
  }

  /** Over a whole life: attempts stay within the limit at every moment if and
      only if no exhausted item was taken over. */
  lemma {:induction false} LimitKeptExactly(item: Item, changes: seq<Change>, after: Item)
    requires WithinLimit(item) && Lives(item, changes, after)
    ensures StaysWithinLimit(item, changes) <==> !HoldsExhaustedTakeover(item, changes)
    decreases |changes|
  {
    if changes != [] {
      var next := Changed(item, changes[0]);
      PassesLimitExactly(item, changes[0]);
      if ExhaustedTakeover(item, changes[0]) {
        assert !StaysWithinLimit(next, changes[1..]);
      } else {
        LimitKeptExactly(next, changes[1..], after);
      }
    }
  }

  /** Such a takeover is legal whenever the lease has run out: one attempt
      granted, two made. */
  lemma AttemptsCanPassLimit()
    ensures var first := Item(Waiting, 0, 0, None, None, 0, 1);
            var changes := [Claim("w1", 0, 1), Claim("w2", 1, 1)];
            exists after :: Lives(first, changes, after) && after.attempts == 2 && after.maxAttempts == 1
  {
    var first := Item(Waiting, 0, 0, None, None, 0, 1);
    var one := Changed(first, Claim("w1", 0, 1));
    var two := Changed(one, Claim("w2", 1, 1));
    var changes := [Claim("w1", 0, 1), Claim("w2", 1, 1)];
    assert changes[1..] == [Claim("w2", 1, 1)];
    assert Lives(one, [Claim("w2", 1, 1)], two) by { assert [Claim("w2", 1, 1)][1..] == []; }
    assert Lives(first, changes, two);
  }

  /** A completed or cancelled item is never touched again. */
  lemma {:induction false} TerminalStays(item: Item, changes: seq<Change>, after: Item)
    requires Ended(item) && Lives(item, changes, after)
    ensures changes == [] && after == item
  {
  }

  predicate Ended(item: Item) {
    item.status in {Completed, ItemStatus.Cancelled}
  }

  /** An item is finished or cancelled at most once, by the last change of its
      life, and it has ended exactly when that happened. */
  lemma {:induction false} EndsOnce(item: Item, changes: seq<Change>, after: Item)
    requires !Ended(item) && Lives(item, changes, after)
    ensures forall i :: 0 <= i < |changes| && (changes[i].Finish? || changes[i].Cancel?) ==> i == |changes| - 1
    ensures Ended(after) <==> changes != [] && (changes[|changes| - 1].Finish? || changes[|changes| - 1].Cancel?)
    decreases |changes|
  {
    if changes != [] {
      var next := Changed(item, changes[0]);
      if Ended(next) {
        TerminalStays(next, changes[1..], after);
      } else {
        EndsOnce(next, changes[1..], after);
        assert forall i :: 0 < i < |changes| ==> changes[i] == changes[1..][i - 1];
      }
    }
  }
}
