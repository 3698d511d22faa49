/** What the final result of a batch tells about what happened, and how many dispatches its retry
    logic bought. */
module ProcessorOutcomes {
  import opened Types
  import opened ProcessorModel
  import opened ProcessorTrace
  import opened ProcessorInvariant

  ghost function Progress(h: History): seq<nat> { Confirmed(h.batch.subroutine, h.trace) }

  /** The functions 0, ..., n - 1 in this order, each once. */
  function FirstFunctions(n: nat): seq<nat> { seq(n, i => i) }

  /** How often the messages of a batch took effect. */
  function Applied(t: seq<Event>): nat {
    if t == [] then 0
    else Applied(t[..|t| - 1]) + (if t[|t| - 1].Ran? && t[|t| - 1].ok then 1 else 0)
  }

  /** A final result, and the history of the batch it is for. */
  ghost predicate Ended(h: History, r: ExecutionResult) {
    HistoryOk(h) && h.reports == [r]
  }

  lemma ProgressInOrder(h: History)
    requires HistoryOk(h)
    ensures Progress(h) == FirstFunctions(|Progress(h)|)
  {
    hide Confirmed, Runs, Streak, Count, CooledDown, WithinLimits, Exact;
  }

  // ----- Progress -----

  /** The results that count functions count exactly those that were confirmed. */
  lemma ProgressExact(h: History, r: ExecutionResult)
    requires Ended(h, r)
    ensures r.Success? && h.batch.subroutine.NonAtomic? ==> Progress(h) == FirstFunctions(|h.batch.msgs|)
    ensures r.PartiallyExecuted? ==> 0 < r.done < |h.batch.msgs| && Progress(h) == FirstFunctions(r.done)
    ensures r.Expired? ==> Progress(h) == FirstFunctions(r.done)
  {
    hide Confirmed, Runs, Streak, Count, CooledDown, WithinLimits, UsedUp, InOrder;
    ProgressInOrder(h);
  }

  predicate GaveUp(r: ExecutionResult) { r.Rejected? || r.PartiallyExecuted? }

  /** The documentation promises PartiallyExecuted when some functions succeeded before one used up
      its retries, and Rejected when none did. */
  ghost predicate AsDocumented(h: History, r: ExecutionResult) {
    if Progress(h) == [] then r.Rejected? else r.PartiallyExecuted? && r.done == |Progress(h)|
  }

  /** The promise is kept exactly when the function that failed has retry logic or is the first. */
  lemma AsDocumentedIff(h: History, r: ExecutionResult)
    requires Ended(h, r) && GaveUp(r)
    ensures AsDocumented(h, r) <==> Progress(h) == [] || h.batch.subroutine.RetryOf(|Progress(h)|).Some?
  {
    hide Confirmed, Runs, Streak, Count, CooledDown, WithinLimits, UsedUp, InOrder;
  }

  /** So it is kept for every batch whose functions all have retry logic. */
  lemma RejectedMeansNone(h: History, r: ExecutionResult)
    requires Ended(h, r) && r.Rejected?
    requires forall i: nat :: 0 < i < h.batch.Size() ==> h.batch.subroutine.RetryOf(i).Some?
    ensures Progress(h) == []
  {
    hide Confirmed, Runs, Streak, Count, CooledDown, WithinLimits, UsedUp, InOrder;
  }

  // ----- Effects of an atomic batch -----

  lemma {:induction false} AtomicApplied(s: Subroutine, t: seq<Event>)
    requires s.Atomic?
    ensures Applied(t) == |Confirmed(s, t)|
  {
    if t != [] {
      AtomicApplied(s, t[..|t| - 1]);
    }
  }

  /** An atomic batch took effect once if it succeeded, and not at all otherwise. */
  lemma AtomicOnce(h: History, r: ExecutionResult)
    requires Ended(h, r) && h.batch.subroutine.Atomic?
    ensures Applied(h.trace) == if r.Success? then 1 else 0
  {
    hide Confirmed, Runs, Streak, Count, CooledDown, WithinLimits, UsedUp, InOrder;
    AtomicApplied(h.batch.subroutine, h.trace);
  }

  // ----- The retry budget -----

  /** How often a function with `m` retries is dispatched when it starts from the count `carried`. */
  function Budget(m: nat, carried: nat): nat { if m <= carried then 1 else m + 1 - carried }

  /** When a function with `m` retries is given up, it was dispatched exactly as often as the count
      it started from left over. */
  lemma BudgetExact(h: History, r: ExecutionResult, m: nat, interval: Duration)
    requires Ended(h, r) && GaveUp(r)
    requires h.batch.subroutine.RetryOf(|Progress(h)|) == Some(RetryLogic(Amount(m), interval))
    ensures Runs(h.trace, |Progress(h)|) == Budget(m, Carried(h.batch.subroutine, h.trace))
  {
    hide Confirmed, Runs, Streak, Count, CooledDown, WithinLimits, InOrder, Carried;
    var s, t := h.batch.subroutine, h.trace;
    CountersAgree(s, t);
    FailedStreak(s, t);
  }

  lemma FailedStreak(s: Subroutine, t: seq<Event>)
    requires LastFailed(s, t)
    ensures Streak(s, t) > 0 && !Awaiting(s, t)
  {
  }

  /** It got all its `m + 1` dispatches exactly when nothing was carried over, or it had none to
      retry anyway. */
  lemma FullBudgetIff(h: History, r: ExecutionResult, m: nat, interval: Duration)
    requires Ended(h, r) && GaveUp(r)
    requires h.batch.subroutine.RetryOf(|Progress(h)|) == Some(RetryLogic(Amount(m), interval))
    ensures Runs(h.trace, |Progress(h)|) == m + 1 <==> Carried(h.batch.subroutine, h.trace) == 0 || m == 0
  {
    hide Ended, Runs, Carried, Progress;
    BudgetExact(h, r, m, interval);
  }

  /** Atomic batches and first functions always get all their dispatches. */
  lemma FirstFunctionFull(h: History, r: ExecutionResult, m: nat, interval: Duration)
    requires Ended(h, r) && r.Rejected? && Progress(h) == []
    requires h.batch.subroutine.RetryOf(0) == Some(RetryLogic(Amount(m), interval))
    ensures Runs(h.trace, 0) == m + 1
  {
    hide Ended, Runs, Carried, Confirmed;
    NothingCarried(h.batch.subroutine, h.trace);
    BudgetExact(h, r, m, interval);
  }

  /** In terms of the subroutine itself: an atomic batch with `m` retries is given up after exactly `m + 1`
      dispatches, and one without retry logic after the first. */
  lemma AtomicFull(h: History, r: ExecutionResult)
    requires Ended(h, r) && r.Rejected? && h.batch.subroutine.Atomic?
    ensures match h.batch.subroutine.retryLogic
            case None => Runs(h.trace, 0) == 1
            case Some(rl) => rl.times.Amount? && Runs(h.trace, 0) == rl.times.times + 1
  {
    hide Runs, Carried, Confirmed, Streak, Count, CooledDown, InOrder;
    NothingCarried(h.batch.subroutine, h.trace);
    FailedStreak(h.batch.subroutine, h.trace);
    assert Allowed(h.batch.subroutine, 0, Runs(h.trace, 0));
    match h.batch.subroutine.retryLogic
    case None =>
    case Some(rl) =>
      if rl.times.Amount? { FirstFunctionFull(h, r, rl.times.times, rl.interval); }
  }

  /** What can be checked before the call: no function loses more dispatches than an earlier one has
      retries, so it gets all of them when no earlier function is retried. */
  lemma BudgetAtLeast(h: History, r: ExecutionResult, m: nat, interval: Duration)
    requires Ended(h, r) && GaveUp(r)
    requires h.batch.subroutine.RetryOf(|Progress(h)|) == Some(RetryLogic(Amount(m), interval))
    requires Limited(h.batch.subroutine, |Progress(h)|)
    ensures Budget(m, MostRetries(h.batch.subroutine, |Progress(h)|)) <= Runs(h.trace, |Progress(h)|) <= m + 1
  {
    hide Confirmed, Runs, Streak, Count, CooledDown, WithinLimits, InOrder, Carried, Limited, MostRetries;
    FailedStreak(h.batch.subroutine, h.trace);
    BudgetExact(h, r, m, interval);
  }

  // ----- All dispatches of a batch -----

  function Dispatches(t: seq<Event>): nat {
    if t == [] then 0 else Dispatches(t[..|t| - 1]) + (if t[|t| - 1].Ran? then 1 else 0)
  }

  function RunsBelow(t: seq<Event>, n: nat): nat { if n == 0 then 0 else RunsBelow(t, n - 1) + Runs(t, n - 1) }

  /** One dispatch for each of the first `n` functions, and one more for each of their retries. */
  function Limit(s: Subroutine, n: nat): nat {
    if n == 0 then 0 else Limit(s, n - 1) + 1 + RetriesOf(s, n - 1)
  }

  lemma {:induction false} RunsBelowStep(t: seq<Event>, e: Event, n: nat)
    ensures RunsBelow(t + [e], n) == RunsBelow(t, n) + if e.Ran? && e.index < n then 1 else 0
  {
    hide Runs;
    if n > 0 {
      RunsBelowStep(t, e, n - 1);
      assert Runs(t + [e], n - 1) == Runs(t, n - 1) + (if e.Ran? && e.index == n - 1 then 1 else 0) by {
        Append(NonAtomic([], None), t, e);
      }
    }
  }

  /** When nothing at or above `n` was dispatched, the runs below `n` are all dispatches. */
  lemma {:induction false} AllBelow(t: seq<Event>, n: nat)
    requires forall i: nat :: i >= n ==> Runs(t, i) == 0
    ensures Dispatches(t) == RunsBelow(t, n)
    decreases |t|
  {
    if t == [] {
      NoRuns(n);
    } else {
      var e, before := t[|t| - 1], t[..|t| - 1];
      assert t == before + [e];
      RunsBelowStep(before, e, n);
      assert e.Ran? ==> Runs(t, e.index) > 0;
      forall i: nat | i >= n
        ensures Runs(before, i) == 0
      {
        assert Runs(t, i) == 0;
      }
      AllBelow(before, n);
    }
  }

  lemma {:induction false} NoRuns(n: nat)
    ensures RunsBelow([], n) == 0
  {
    if n > 0 { NoRuns(n - 1); }
  }

  lemma {:induction false} BelowLimit(s: Subroutine, t: seq<Event>, n: nat)
    requires WithinLimits(s, t) && Limited(s, n)
    ensures RunsBelow(t, n) <= Limit(s, n)
  {
    hide Runs;
    if n > 0 {
      BelowLimit(s, t, n - 1);
      assert Allowed(s, n - 1, Runs(t, n - 1));
      assert s.RetryOf(n - 1).Some? ==> s.RetryOf(n - 1).value.times.Amount?;
    }
  }

  /** A termination measure: however far a batch with limited retries gets, it is never dispatched more
      often than once per function and once per retry. */
  lemma DispatchesBounded(h: History)
    requires HistoryOk(h) && Limited(h.batch.subroutine, h.batch.Size())
    ensures Dispatches(h.trace) <= Limit(h.batch.subroutine, h.batch.Size())
  {
    hide Confirmed, Runs, Streak, Count, CooledDown, WithinLimits, Exact, Limited, InOrder;
    AllBelow(h.trace, h.batch.Size());
    BelowLimit(h.batch.subroutine, h.trace, h.batch.Size());
  }
}
