/** The provider retry loop with its guard hooks, and the attempt telemetry an
    invocation accumulates over retries, resumptions and recoveries. */
module ProviderRuntime {
  import opened ReviewTypes

  datatype AttemptStatus = Succeeded | RetryableFailure | PermanentFailure | InvalidOutput | BudgetExceeded

  datatype ProviderAttempt = ProviderAttempt(number: nat, status: AttemptStatus, tokens: nat, cost: nat)

  datatype ErrorKind = Retryable | Permanent | OverBudget

  /** What one provider call does: answer, raise a provider error, or break. */
  datatype Response<O> =
    | Answered(parses: bool, output: O, tokens: nat, cost: nat)
    | Raised(kind: ErrorKind)
    | Broke

  /** GuardStopped: the guard refused, so no attempts are handed back. */
  datatype Execution<O> =
    | Executed(output: O, attempts: seq<ProviderAttempt>)
    | Exhausted(attempts: seq<ProviderAttempt>)
    | GuardStopped
    | FellThrough

  datatype GuardCall = Begin(number: nat) | End(number: nat, status: AttemptStatus)

  /** A guard that may refuse either hook and remembers every call. */
  class AttemptGuard {
    const refusesBefore: nat -> bool
    const refusesAfter: (nat, AttemptStatus) -> bool
    var calls: seq<GuardCall>

    constructor (refusesBefore: nat -> bool, refusesAfter: (nat, AttemptStatus) -> bool)
      ensures this.refusesBefore == refusesBefore && this.refusesAfter == refusesAfter && calls == []
    {
      this.refusesBefore, this.refusesAfter, calls := refusesBefore, refusesAfter, [];
    }

    method Before(number: nat) returns (ok: bool)
      modifies this
      ensures calls == old(calls) + [Begin(number)] && ok == !refusesBefore(number)
    {
      calls := calls + [Begin(number)];
      ok := !refusesBefore(number);
    }

    method After(a: ProviderAttempt) returns (ok: bool)
      modifies this
      ensures calls == old(calls) + [End(a.number, a.status)] && ok == !refusesAfter(a.number, a.status)
    {
      calls := calls + [End(a.number, a.status)];
      ok := !refusesAfter(a.number, a.status);
    }
  }

  ghost predicate Contiguous(attempts: seq<ProviderAttempt>, first: nat) {
    forall i :: 0 <= i < |attempts| ==> attempts[i].number == first + i
  }

  /** The attempts handed back: numbered from first, all but the last retryable
      failures, and a retryable last one only when no attempt was left. */
  ghost predicate WellRetried(attempts: seq<ProviderAttempt>, first: nat, maximum: nat) {
    && 1 <= |attempts| <= maximum && Contiguous(attempts, first)
    && (forall i :: 0 <= i < |attempts| - 1 ==> attempts[i].status == RetryableFailure)
    && (attempts[|attempts| - 1].status == RetryableFailure ==> |attempts| == maximum)
  }

  /** What a parsed answer is first reported as. */
  function FirstReport<O>(response: Response<O>, maxCost: nat): AttemptStatus
    requires response.Answered? && response.parses
  {
    if response.cost > maxCost then BudgetExceeded else Succeeded
  }

  /** The guard refuses the report of a parsed answer.  The loop catches that
      refusal and reports the attempt a second time, as invalid output. */
  predicate ReportRefused<O>(provider: nat -> Response<O>, guard: AttemptGuard, n: nat, maxCost: nat) {
    var response := provider(n);
    response.Answered? && response.parses && guard.refusesAfter(n, FirstReport(response, maxCost))
  }

  function StatusOf(kind: ErrorKind): AttemptStatus {
    match kind
    case Retryable => RetryableFailure
    case Permanent => PermanentFailure
    case OverBudget => BudgetExceeded
  }

  /** The status of an attempt whose guard calls went through. */
  function AttemptStatusOf<O>(provider: nat -> Response<O>, guard: AttemptGuard, n: nat, maxCost: nat): AttemptStatus {
    match provider(n)
    case Raised(kind) => StatusOf(kind)
    case Broke => InvalidOutput
    case Answered(parses, _, _, _) =>
      if !parses || ReportRefused(provider, guard, n, maxCost) then InvalidOutput else FirstReport(provider(n), maxCost)
  }

  /** The attempt as it is reported and handed back. */
  function AttemptOf<O>(provider: nat -> Response<O>, guard: AttemptGuard, n: nat, maxCost: nat): ProviderAttempt {
    var status := AttemptStatusOf(provider, guard, n, maxCost);
    match provider(n)
    case Answered(_, _, tokens, cost) => ProviderAttempt(n, status, tokens, cost)
    case _ => ProviderAttempt(n, status, 0, 0)
  }

  /** The guard ends the review at this attempt. */
  predicate Refused<O>(provider: nat -> Response<O>, guard: AttemptGuard, n: nat, maxCost: nat) {
    guard.refusesBefore(n) || guard.refusesAfter(n, AttemptStatusOf(provider, guard, n, maxCost))
  }

  /** What the guard sees of one attempt: nothing but its beginning when that
      is refused, and two ends when the report of a parsed answer is. */
  function CallsAt<O>(provider: nat -> Response<O>, guard: AttemptGuard, n: nat, maxCost: nat): seq<GuardCall> {
    if guard.refusesBefore(n) then [Begin(n)]
    else if ReportRefused(provider, guard, n, maxCost)
    then [Begin(n), End(n, FirstReport(provider(n), maxCost)), End(n, InvalidOutput)]
    else [Begin(n), End(n, AttemptStatusOf(provider, guard, n, maxCost))]
  }

  /** What the guard sees of count attempts in a row. */
  function CallLog<O>(provider: nat -> Response<O>, guard: AttemptGuard, first: nat, count: nat, maxCost: nat): seq<GuardCall> {
    if count == 0 then []
    else CallLog(provider, guard, first, count - 1, maxCost) + CallsAt(provider, guard, first + count - 1, maxCost)
  }

  /** How many attempts a review begins: it goes on after a retryable failure
      that the guard let through, while attempts are left. */
  function AttemptsBegun<O>(provider: nat -> Response<O>, guard: AttemptGuard, first: nat, maximum: nat, maxCost: nat): (k: nat)
    ensures k <= maximum && (maximum > 0 ==> k > 0)
    decreases maximum
  {
    if maximum == 0 then 0
    else if Refused(provider, guard, first, maxCost) || AttemptStatusOf(provider, guard, first, maxCost) != RetryableFailure then 1
    else 1 + AttemptsBegun(provider, guard, first + 1, maximum - 1, maxCost)
  }

  /** The body of the retry loop: one attempt between its guard hooks, or None
      when the guard stopped it. */
  method AttemptOnce<O>(provider: nat -> Response<O>, guard: AttemptGuard, n: nat, maxCost: nat) returns (attempt: Option<ProviderAttempt>)
    modifies guard
    ensures attempt == if Refused(provider, guard, n, maxCost) then None else Some(AttemptOf(provider, guard, n, maxCost))
    ensures guard.calls == old(guard.calls) + CallsAt(provider, guard, n, maxCost)
  {
    ghost var before := guard.calls;
    var ok := guard.Before(n);
    if !ok { return None; }
    var response := provider(n);
    if response.Answered? && response.parses {
      var a := ProviderAttempt(n, FirstReport(response, maxCost), response.tokens, response.cost);
      ok := guard.After(a);
      if ok {
        assert guard.calls == before + [Begin(n), End(n, a.status)];
        return Some(a);
      }
    }
    var failed := match response
      case Raised(kind) => ProviderAttempt(n, StatusOf(kind), 0, 0)
      case Broke => ProviderAttempt(n, InvalidOutput, 0, 0)
      case Answered(_, _, tokens, cost) => ProviderAttempt(n, InvalidOutput, tokens, cost);
    ok := guard.After(failed);
    assert guard.calls == before + CallsAt(provider, guard, n, maxCost);
    attempt := if ok then Some(failed) else None;
  }

  /** count attempts in a row, as they are handed back. */
  function AttemptsFrom<O>(provider: nat -> Response<O>, guard: AttemptGuard, first: nat, count: nat, maxCost: nat)
    : (attempts: seq<ProviderAttempt>)
    ensures |attempts| == count
  {
    if count == 0 then []
    else AttemptsFrom(provider, guard, first, count - 1, maxCost) + [AttemptOf(provider, guard, first + count - 1, maxCost)]
  }

  /** How a review ends: stopped exactly when the guard refuses its last
      attempt, and otherwise with every attempt it made, answered exactly when
      the last one succeeded. */
  ghost predicate Reviewed<O>(provider: nat -> Response<O>, guard: AttemptGuard, first: nat, maximum: nat, maxCost: nat, r: Execution<O>)
    requires maximum > 0
  {
    var begun := AttemptsBegun(provider, guard, first, maximum, maxCost);
    var last := first + begun - 1;
    && r != FellThrough
    && (r.GuardStopped? <==> Refused(provider, guard, last, maxCost))
    && (r.Executed? || r.Exhausted? ==> r.attempts == AttemptsFrom(provider, guard, first, begun, maxCost))
    && (r.Executed? <==> !r.GuardStopped? && AttemptStatusOf(provider, guard, last, maxCost) == Succeeded)
    && (r.Executed? ==> provider(last).Answered? && provider(last).parses && r.output == provider(last).output)
  }

  /** ProviderRegistryRuntime.review. */
  method Review<O>(provider: nat -> Response<O>, guard: AttemptGuard, first: nat, maximum: nat, maxCost: nat)
    returns (r: Execution<O>)
    requires maximum > 0
    modifies guard
    ensures Reviewed(provider, guard, first, maximum, maxCost, r)
    ensures guard.calls == old(guard.calls) +
                           CallLog(provider, guard, first, AttemptsBegun(provider, guard, first, maximum, maxCost), maxCost)
  {
    var attempts: seq<ProviderAttempt> := [];
    ghost var before := guard.calls;
    var n := first;
    Unbegun(provider, guard, first, maximum, maxCost, before);
    hide *;
    while n < first + maximum
      invariant first <= n < first + maximum
      invariant Underway(provider, guard, first, maximum, maxCost, n, attempts, before, guard.calls)
      decreases first + maximum - n
    {
      OneMore(provider, guard, first, maximum, maxCost, n, attempts, before, guard.calls);
      var attempt := AttemptOnce(provider, guard, n, maxCost);
      if attempt.None? { return GuardStopped; }
      attempts := attempts + [attempt.value];
      if attempt.value.status == Succeeded {
        return Executed(provider(n).output, attempts);
      }
      if attempt.value.status != RetryableFailure || n - first + 1 == maximum {
        return Exhausted(attempts);
      }
      n := n + 1;
    }
    r := FellThrough;
  }

  /** The loop at attempt n: those before it were retryable failures the guard
      let through. */
  ghost predicate Underway<O>(provider: nat -> Response<O>, guard: AttemptGuard, first: nat, maximum: nat, maxCost: nat, n: nat,
                              attempts: seq<ProviderAttempt>, before: seq<GuardCall>, calls: seq<GuardCall>)
    requires first <= n < first + maximum
  {
    && AttemptsBegun(provider, guard, first, maximum, maxCost) ==
       n - first + AttemptsBegun(provider, guard, n, first + maximum - n, maxCost)
    && attempts == AttemptsFrom(provider, guard, first, n - first, maxCost)
    && calls == before + CallLog(provider, guard, first, n - first, maxCost)
  }

  lemma Unbegun<O>(provider: nat -> Response<O>, guard: AttemptGuard, first: nat, maximum: nat, maxCost: nat, calls: seq<GuardCall>)
    requires maximum > 0
    ensures Underway(provider, guard, first, maximum, maxCost, first, [], calls, calls)
  {
  }

  /** One more attempt: either the review goes on at the next, or it is over
      and these are its result and its guard calls. */
  lemma OneMore<O>(provider: nat -> Response<O>, guard: AttemptGuard, first: nat, maximum: nat, maxCost: nat, n: nat,
                   attempts: seq<ProviderAttempt>, before: seq<GuardCall>, calls: seq<GuardCall>)
    requires first <= n < first + maximum
    requires Underway(provider, guard, first, maximum, maxCost, n, attempts, before, calls)
    ensures var a := AttemptOf(provider, guard, n, maxCost);
            var after := calls + CallsAt(provider, guard, n, maxCost);
            var log := CallLog(provider, guard, first, AttemptsBegun(provider, guard, first, maximum, maxCost), maxCost);
            if Refused(provider, guard, n, maxCost) then
              Reviewed(provider, guard, first, maximum, maxCost, GuardStopped) && after == before + log
            else if a.status == Succeeded then
              && provider(n).Answered? && after == before + log
              && Reviewed(provider, guard, first, maximum, maxCost, Executed(provider(n).output, attempts + [a]))
            else if a.status != RetryableFailure || n - first + 1 == maximum then
              Reviewed(provider, guard, first, maximum, maxCost, Exhausted(attempts + [a])) && after == before + log
            else
              n + 1 < first + maximum &&
              Underway(provider, guard, first, maximum, maxCost, n + 1, attempts + [a], before, after)
  {
    hide CallsAt, AttemptStatusOf, AttemptOf, Refused, CallLog, AttemptsFrom, AttemptsBegun;
    LastAttempt(provider, guard, n, maxCost);
    Grows(provider, guard, first, n - first, maxCost);
    BegunFrom(provider, guard, n, first + maximum - n, maxCost);
    var log := CallLog(provider, guard, first, n - first, maxCost);
    assert (before + log) + CallsAt(provider, guard, n, maxCost) == before + (log + CallsAt(provider, guard, n, maxCost));
  }

  lemma Grows<O>(provider: nat -> Response<O>, guard: AttemptGuard, first: nat, count: nat, maxCost: nat)
    ensures CallLog(provider, guard, first, count + 1, maxCost) ==
            CallLog(provider, guard, first, count, maxCost) + CallsAt(provider, guard, first + count, maxCost)
    ensures AttemptsFrom(provider, guard, first, count + 1, maxCost) ==
            AttemptsFrom(provider, guard, first, count, maxCost) + [AttemptOf(provider, guard, first + count, maxCost)]
  {
  }

  lemma BegunFrom<O>(provider: nat -> Response<O>, guard: AttemptGuard, n: nat, left: nat, maxCost: nat)
    requires left > 0
    ensures AttemptsBegun(provider, guard, n, left, maxCost) ==
            if Refused(provider, guard, n, maxCost) || AttemptStatusOf(provider, guard, n, maxCost) != RetryableFailure || left == 1 then 1
            else 1 + AttemptsBegun(provider, guard, n + 1, left - 1, maxCost)
  {
    hide Refused, AttemptStatusOf;
  }

  lemma LastAttempt<O>(provider: nat -> Response<O>, guard: AttemptGuard, n: nat, maxCost: nat)
    ensures var a := AttemptOf(provider, guard, n, maxCost);
            a.number == n && a.status == AttemptStatusOf(provider, guard, n, maxCost)
    ensures AttemptStatusOf(provider, guard, n, maxCost) == Succeeded ==>
              provider(n).Answered? && provider(n).parses && provider(n).cost <= maxCost
  {
  }

  lemma {:induction false} AttemptAt<O>(provider: nat -> Response<O>, guard: AttemptGuard, first: nat, count: nat, maxCost: nat, i: nat)
    requires i < count
    ensures AttemptsFrom(provider, guard, first, count, maxCost)[i] == AttemptOf(provider, guard, first + i, maxCost)
    decreases count
  {
    if i < count - 1 { AttemptAt(provider, guard, first, count - 1, maxCost, i); }
  }

  /** The attempts a review hands back are numbered from first, all but the
      last are retryable failures, and a retryable last one means that no
      attempt was left. */
  lemma HandedBackWellRetried<O>(provider: nat -> Response<O>, guard: AttemptGuard, first: nat, maximum: nat, maxCost: nat)
    requires maximum > 0
    ensures var begun := AttemptsBegun(provider, guard, first, maximum, maxCost);
            !Refused(provider, guard, first + begun - 1, maxCost) ==>
              WellRetried(AttemptsFrom(provider, guard, first, begun, maxCost), first, maximum)
  {
    hide AttemptsFrom, AttemptOf, AttemptStatusOf, Refused, CallLog;
    var begun := AttemptsBegun(provider, guard, first, maximum, maxCost);
    var attempts := AttemptsFrom(provider, guard, first, begun, maxCost);
    forall i: nat | i < begun
      ensures attempts[i].number == first + i
      ensures attempts[i].status == AttemptStatusOf(provider, guard, first + i, maxCost)
      ensures i < begun - 1 ==> attempts[i].status == RetryableFailure
    {
      AttemptAt(provider, guard, first, begun, maxCost, i);
      LastAttempt(provider, guard, first + i, maxCost);
      if i < begun - 1 { EarlierRetried(provider, guard, first, maximum, maxCost, first + i); }
    }
    if !Refused(provider, guard, first + begun - 1, maxCost) && attempts[begun - 1].status == RetryableFailure {
      RetriedToTheEnd(provider, guard, first, maximum, maxCost);
    }
  }

  lemma {:induction false} RetriedToTheEnd<O>(provider: nat -> Response<O>, guard: AttemptGuard, first: nat, maximum: nat, maxCost: nat)
    requires maximum > 0
    requires var last := first + AttemptsBegun(provider, guard, first, maximum, maxCost) - 1;
             !Refused(provider, guard, last, maxCost) && AttemptStatusOf(provider, guard, last, maxCost) == RetryableFailure
    ensures AttemptsBegun(provider, guard, first, maximum, maxCost) == maximum
    decreases maximum
  {
    hide AttemptStatusOf, Refused;
    if AttemptsBegun(provider, guard, first, maximum, maxCost) > 1 {
      RetriedToTheEnd(provider, guard, first + 1, maximum - 1, maxCost);
    }
  }

  // ----------------------------------------------------------------- pairing

  function Begins(calls: seq<GuardCall>, n: nat): nat {
    if calls == [] then 0
    else Begins(calls[..|calls| - 1], n) + (if calls[|calls| - 1] == Begin(n) then 1 else 0)
  }

  function Ends(calls: seq<GuardCall>, n: nat): nat {
    if calls == [] then 0
    else
      var last := calls[|calls| - 1];
      Ends(calls[..|calls| - 1], n) + (if last.End? && last.number == n then 1 else 0)
  }

  lemma {:induction false} CountsAdd(xs: seq<GuardCall>, ys: seq<GuardCall>, n: nat)
    ensures Begins(xs + ys, n) == Begins(xs, n) + Begins(ys, n)
    ensures Ends(xs + ys, n) == Ends(xs, n) + Ends(ys, n)
    decreases |ys|
  {
    if ys == [] {
      assert xs + ys == xs;
    } else {
      CountsAdd(xs, ys[..|ys| - 1], n);
      assert (xs + ys)[..|xs + ys| - 1] == xs + ys[..|ys| - 1];
    }
  }

  lemma CountsOne(c: GuardCall, k: nat)
    ensures Begins([c], k) == (if c == Begin(k) then 1 else 0)
    ensures Ends([c], k) == (if c.End? && c.number == k then 1 else 0)
  {
    assert [c][..0] == [];
  }

  /** How often one attempt's end is reported. */
  function EndsOf<O>(provider: nat -> Response<O>, guard: AttemptGuard, n: nat, maxCost: nat): nat {
    if guard.refusesBefore(n) then 0 else if ReportRefused(provider, guard, n, maxCost) then 2 else 1
  }

  lemma CountsAt<O>(provider: nat -> Response<O>, guard: AttemptGuard, n: nat, maxCost: nat, k: nat)
    ensures Begins(CallsAt(provider, guard, n, maxCost), k) == (if k == n then 1 else 0)
    ensures Ends(CallsAt(provider, guard, n, maxCost), k) == (if k == n then EndsOf(provider, guard, n, maxCost) else 0)
  {
    var calls := CallsAt(provider, guard, n, maxCost);
    CountsOne(calls[0], k);
    if |calls| > 1 {
      CountsOne(calls[1], k);
      CountsAdd([calls[0]], [calls[1]], k);
      assert calls[..2] == [calls[0]] + [calls[1]];
    }
    if |calls| == 3 {
      CountsOne(calls[2], k);
      CountsAdd(calls[..2], [calls[2]], k);
      assert calls == calls[..2] + [calls[2]];
    }
  }

  lemma {:induction false} LogCounts<O>(provider: nat -> Response<O>, guard: AttemptGuard, first: nat, count: nat, maxCost: nat, k: nat)
    ensures var log := CallLog(provider, guard, first, count, maxCost);
            && Begins(log, k) == (if first <= k < first + count then 1 else 0)
            && Ends(log, k) == (if first <= k < first + count then EndsOf(provider, guard, k, maxCost) else 0)
    decreases count
  {
    hide CallsAt, EndsOf;
    if count > 0 {
      var n := first + count - 1;
      LogCounts(provider, guard, first, count - 1, maxCost, k);
      CountsAt(provider, guard, n, maxCost, k);
      CountsAdd(CallLog(provider, guard, first, count - 1, maxCost), CallsAt(provider, guard, n, maxCost), k);
    }
  }

  /** The attempts before the last one begun were let through and failed
      retryably. */
  lemma {:induction false} EarlierRetried<O>(provider: nat -> Response<O>, guard: AttemptGuard, first: nat, maximum: nat, maxCost: nat, n: nat)
    requires first <= n < first + AttemptsBegun(provider, guard, first, maximum, maxCost) - 1
    ensures !Refused(provider, guard, n, maxCost) && AttemptStatusOf(provider, guard, n, maxCost) == RetryableFailure
    ensures EndsOf(provider, guard, n, maxCost) == 1
    decreases maximum
  {
    if n > first { EarlierRetried(provider, guard, first + 1, maximum - 1, maxCost, n); }
  }

  /** Each number ends as often as it begins. */
  ghost predicate Paired(calls: seq<GuardCall>) {
    forall n: nat :: Ends(calls, n) == Begins(calls, n)
  }

  /** How often one number begins and ends in a review. */
  lemma ReviewCounts<O>(provider: nat -> Response<O>, guard: AttemptGuard, first: nat, maximum: nat, maxCost: nat, n: nat)
    requires maximum > 0
    ensures var begun := AttemptsBegun(provider, guard, first, maximum, maxCost);
            var last: nat := first + begun - 1;
            var log := CallLog(provider, guard, first, begun, maxCost);
            && Begins(log, n) == (if first <= n <= last then 1 else 0)
            && Ends(log, n) == (if n == last then EndsOf(provider, guard, last, maxCost) else Begins(log, n))
  {
    var begun := AttemptsBegun(provider, guard, first, maximum, maxCost);
    LogCounts(provider, guard, first, begun, maxCost, n);
    if first <= n < first + begun - 1 { EarlierRetried(provider, guard, first, maximum, maxCost, n); }
    hide CallLog, Begins, Ends, EndsOf;
  }

  /** Over every review, handed back or stopped: each attempt is begun once,
      and each is ended exactly once if and only if the guard lets the last
      attempt begin and does not refuse the report of its parsed answer. */
  lemma PairedExactly<O>(provider: nat -> Response<O>, guard: AttemptGuard, first: nat, maximum: nat, maxCost: nat)
    requires maximum > 0
    ensures var begun := AttemptsBegun(provider, guard, first, maximum, maxCost);
            var last: nat := first + begun - 1;
            var log := CallLog(provider, guard, first, begun, maxCost);
            && (forall n: nat :: Begins(log, n) == if first <= n <= last then 1 else 0)
            && (Paired(log) <==> !guard.refusesBefore(last) && !ReportRefused(provider, guard, last, maxCost))
  {
    var begun := AttemptsBegun(provider, guard, first, maximum, maxCost);
    var last: nat := first + begun - 1;
    var log := CallLog(provider, guard, first, begun, maxCost);
    hide CallLog, AttemptsBegun, Begins, Ends, ReportRefused;
    forall n: nat ensures Begins(log, n) == (if first <= n <= last then 1 else 0) {
      ReviewCounts(provider, guard, first, maximum, maxCost, n);
    }
    ReviewCounts(provider, guard, first, maximum, maxCost, last);
    if EndsOf(provider, guard, last, maxCost) == 1 {
      forall n: nat ensures Ends(log, n) == Begins(log, n) { ReviewCounts(provider, guard, first, maximum, maxCost, n); }
      assert Paired(log);
    } else {
      assert Ends(log, last) != Begins(log, last);
      assert !Paired(log);
    }
  }

  /** A guard that refuses every report, as a revoked batch does: a good answer
      is begun once and ended twice, and the review is stopped. */
  method RefusedReportEndsTwice() returns (r: Execution<bool>, calls: seq<GuardCall>)
    ensures r == GuardStopped && calls == [Begin(1), End(1, Succeeded), End(1, InvalidOutput)]
  {
    var guard := new AttemptGuard((n: nat) => false, (n: nat, status: AttemptStatus) => true);
    var provider := (n: nat) => Answered(true, true, 10, 5);
    r := Review(provider, guard, 1, 2, 100);
    assert CallLog(provider, guard, 1, 1, 100) == CallLog(provider, guard, 1, 0, 100) + CallsAt(provider, guard, 1, 100);
    calls := guard.calls;
  }

  /** A guard that lets nothing begin: the attempt is begun and never ended. */
  method RefusedBeginningNeverEnds() returns (r: Execution<bool>, calls: seq<GuardCall>)
    ensures r == GuardStopped && calls == [Begin(1)]
  {
    var guard := new AttemptGuard((n: nat) => true, (n: nat, status: AttemptStatus) => false);
    var provider := (n: nat) => Answered(true, true, 10, 5);
    r := Review(provider, guard, 1, 2, 100);
    assert CallLog(provider, guard, 1, 1, 100) == CallLog(provider, guard, 1, 0, 100) + CallsAt(provider, guard, 1, 100);
    calls := guard.calls;
  }

  // --------------------------------------------------------------- telemetry

  type Rows = map<nat, ProviderAttempt>

  function TokensOf(a: ProviderAttempt): nat {
    a.tokens
  }

  function CostOf(a: ProviderAttempt): nat {
    a.cost
  }

  ghost function Total(rows: Rows, f: ProviderAttempt -> nat): nat
    decreases |rows|
  {
    if rows == map[] then 0
    else
      var k :| k in rows;
      f(rows[k]) + Total(rows - {k}, f)
  }

  lemma {:induction false} TotalSplit(rows: Rows, f: ProviderAttempt -> nat, k: nat)
    requires k in rows
    ensures Total(rows, f) == f(rows[k]) + Total(rows - {k}, f)
    decreases |rows|
  {
    var j :| j in rows && Total(rows, f) == f(rows[j]) + Total(rows - {j}, f);
    if j != k {
      TotalSplit(rows - {j}, f, k);
      TotalSplit(rows - {k}, f, j);
      assert rows - {j} - {k} == rows - {k} - {j};
    }
  }

  /** The figures kept beside the rows: their number and the sums over them. */
  method Summed(rows: Rows) returns (count: nat, tokens: nat, cost: nat)
    ensures count == |rows| && tokens == Total(rows, TokensOf) && cost == Total(rows, CostOf)
  {
    var rest := rows;
    count, tokens, cost := 0, 0, 0;
    while rest != map[]
      invariant count + |rest| == |rows|
      invariant tokens + Total(rest, TokensOf) == Total(rows, TokensOf)
      invariant cost + Total(rest, CostOf) == Total(rows, CostOf)
      decreases |rest|
    {
      var k :| k in rest;
      TotalSplit(rest, TokensOf, k);
      TotalSplit(rest, CostOf, k);
      assert |rest - {k}| == |rest| - 1;
      count, tokens, cost := count + 1, tokens + rest[k].tokens, cost + rest[k].cost;
      rest := rest - {k};
    }
  }

  /** The batch contradicts neither the rows on record nor itself. */
  ghost predicate Recordable(rows: Rows, attempts: seq<ProviderAttempt>) {
    && (forall a :: a in attempts && a.number in rows ==> rows[a.number] == a)
    && (forall a, b :: a in attempts && b in attempts && a.number == b.number ==> a == b)
  }

  /** after is rows and the batch, and nothing else. */
  ghost predicate Holds(after: Rows, rows: Rows, attempts: seq<ProviderAttempt>) {
    && (forall k :: k in rows ==> k in after && after[k] == rows[k])
    && (forall a :: a in attempts ==> a.number in after && after[a.number] == a)
    && (forall k :: k in after ==> k in rows || after[k] in attempts)
  }

  /** The attempts on record are exactly 1..n. */
  ghost predicate NumberedTo(rows: Rows, n: nat) {
    forall k :: k in rows <==> 1 <= k <= n
  }

  /** The telemetry rows of one invocation, and the totals kept beside them. */
  class InvocationTelemetry {
    var rows: Rows
    var attemptCount: nat
    var tokens: nat
    var cost: nat

    /** Each row has its number, and the totals are the sums over the rows. */
    ghost predicate Valid()
      reads this
    {
      && (forall k :: k in rows ==> rows[k].number == k)
      && attemptCount == |rows| && tokens == Total(rows, TokensOf) && cost == Total(rows, CostOf)
    }

    constructor ()
      ensures Valid() && rows == map[] && attemptCount == 0
    {
      rows, attemptCount, tokens, cost := map[], 0, 0, 0;
    }

    /** record_provider_attempts: all of them or, on a conflict, none.  Nothing
        is asked of their numbers. */
    method Record(attempts: seq<ProviderAttempt>) returns (ok: bool)
      requires Valid()
      modifies this
      ensures Valid()
      ensures ok <==> Recordable(old(rows), attempts)
      ensures !ok ==> rows == old(rows)
      ensures ok ==> Holds(rows, old(rows), attempts)
    {
      hide Total, Holds, Recordable;
      NothingHeld(rows);
      if attempts == [] { return true; }
      var updated: Rows := rows;
      var i := 0;
      while i < |attempts|
        invariant 0 <= i <= |attempts|
        invariant rows == old(rows) && attemptCount == old(attemptCount) && tokens == old(tokens) && cost == old(cost)
        invariant Recordable(rows, attempts[..i]) && Holds(updated, rows, attempts[..i])
        invariant forall k :: k in updated ==> updated[k].number == k
      {
        var a := attempts[i];
        if a.number in updated && updated[a.number] != a {
          Unrecordable(rows, updated, attempts[..i], a, attempts);
          return false;
        }
        HeldNext(rows, updated, attempts[..i], a);
        assert attempts[..i + 1] == attempts[..i] + [a];
        updated := updated[a.number := a];
        i := i + 1;
      }
      assert attempts[..i] == attempts;
      rows := updated;
      attemptCount, tokens, cost := Summed(updated);
      ok := true;
    }
  }

  lemma NothingHeld(rows: Rows)
    ensures Recordable(rows, []) && Holds(rows, rows, [])
  {
  }

  lemma HeldNext(rows: Rows, updated: Rows, before: seq<ProviderAttempt>, a: ProviderAttempt)
    requires Recordable(rows, before) && Holds(updated, rows, before)
    requires a.number !in updated || updated[a.number] == a
    ensures Recordable(rows, before + [a]) && Holds(updated[a.number := a], rows, before + [a])
  {
    assert forall b :: b in before + [a] <==> b in before || b == a;
  }

  lemma Unrecordable(rows: Rows, updated: Rows, before: seq<ProviderAttempt>, a: ProviderAttempt, attempts: seq<ProviderAttempt>)
    requires Holds(updated, rows, before) && a in attempts && forall b :: b in before ==> b in attempts
    requires (forall k :: k in updated ==> updated[k].number == k) && a.number in updated && updated[a.number] != a
    ensures !Recordable(rows, attempts)
  {
  }

  /** Exactly 1..n stays exactly 1..n under a batch that goes on from a number
      on record or the next one, and under no batch that leaves a gap. */
  lemma NumberingKeptExactly(rows: Rows, n: nat, attempts: seq<ProviderAttempt>, first: nat, after: Rows)
    requires NumberedTo(rows, n) && attempts != [] && Contiguous(attempts, first) && Holds(after, rows, attempts)
    requires forall k :: k in after ==> after[k].number == k
    ensures (exists m: nat :: NumberedTo(after, m)) <==> 1 <= first <= n + 1
    ensures 1 <= first <= n + 1 ==> NumberedTo(after, if n < first + |attempts| - 1 then first + |attempts| - 1 else n)
  {
    var last := first + |attempts| - 1;
    assert attempts[0] in attempts && attempts[|attempts| - 1] in attempts;
    if 1 <= first <= n + 1 {
      forall k ensures k in after <==> 1 <= k <= if n < last then last else n {
        if n < k <= last { assert attempts[k - first] in attempts; }
      }
      assert NumberedTo(after, if n < last then last else n);
    } else {
      assert first > n + 1 ==> n + 1 !in after;
      assert forall m: nat :: last in after && first in after && NumberedTo(after, m) ==> 1 <= first && n + 1 in after;
    }
  }

  lemma {:induction false} NumberedSize(rows: Rows, n: nat)
    requires NumberedTo(rows, n)
    ensures |rows| == n
    decreases n
  {
    if n == 0 {
      assert rows == map[];
    } else {
      assert (rows - {n}).Keys == rows.Keys - {n};
      NumberedSize(rows - {n}, n - 1);
    }
  }

  /** One invocation of a pending review: the orchestrator numbers its first
      attempt after those on record, so over any number of retries, resumptions
      and recoveries the attempts on record stay exactly 1..n. */
  method Invoke<O>(provider: nat -> Response<O>, guard: AttemptGuard, telemetry: InvocationTelemetry, maximum: nat, maxCost: nat)
    returns (r: Execution<O>)
    requires maximum > 0 && telemetry.Valid() && NumberedTo(telemetry.rows, telemetry.attemptCount)
    modifies guard, telemetry
    ensures telemetry.Valid() && NumberedTo(telemetry.rows, telemetry.attemptCount)
    ensures r.Executed? || r.Exhausted? ==>
              && telemetry.attemptCount == old(telemetry.attemptCount) + |r.attempts|
              && Holds(telemetry.rows, old(telemetry.rows), r.attempts)
    ensures r.GuardStopped? ==> telemetry.attemptCount == old(telemetry.attemptCount) && telemetry.rows == old(telemetry.rows)
  {
    hide CallLog, Total, WellRetried, AttemptsFrom, AttemptOf, Refused, AttemptStatusOf, Holds, Recordable;
    var first := telemetry.attemptCount + 1;
    r := Review(provider, guard, first, maximum, maxCost);
    if r.Executed? || r.Exhausted? {
      ghost var rows, count := telemetry.rows, telemetry.attemptCount;
      HandedBackWellRetried(provider, guard, first, maximum, maxCost);
      RetriedContiguously(r.attempts, first, maximum);
      NewNumbers(rows, count, r.attempts, first);
      var ok := telemetry.Record(r.attempts);
      assert ok;
      NumberingKeptExactly(rows, count, r.attempts, first, telemetry.rows);
      NumberedSize(telemetry.rows, first + |r.attempts| - 1);
    }
  }

  lemma NewNumbers(rows: Rows, n: nat, attempts: seq<ProviderAttempt>, first: nat)
    requires NumberedTo(rows, n) && first > n && Contiguous(attempts, first)
    ensures Recordable(rows, attempts)
  {
  }

  lemma RetriedContiguously(attempts: seq<ProviderAttempt>, first: nat, maximum: nat)
    requires WellRetried(attempts, first, maximum)
    ensures attempts != [] && Contiguous(attempts, first)
  {
  }
}
