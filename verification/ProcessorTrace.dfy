/** What a trace of outside events says about a batch, read without looking at the processor:
    which functions were confirmed, how often each was dispatched, how long the current run of
    failures is, and whether every retry waited for its cooldown. */
module ProcessorTrace {
  import opened Types
  import opened ProcessorModel

  /** A run confirms its function unless a library callback must; a callback confirms when it is
      the declared message from the declared address. */
  predicate Confirms(s: Subroutine, e: Event) {
    match e
    case Ran(i, _, ok) => ok && s.CallbackOf(i).None?
    case CalledBack(i, _, sender, msg) => s.CallbackOf(i) == Some(FunctionCallback(sender, msg))
  }

  /** An event after which the function must be retried or given up. */
  predicate Fails(s: Subroutine, e: Event) {
    match e
    case Ran(_, _, ok) => !ok
    case CalledBack(_, _, _, _) => !Confirms(s, e)
  }

  /** The functions confirmed, in the order in which they were. */
  function Confirmed(s: Subroutine, t: seq<Event>): seq<nat> {
    if t == [] then []
    else
      var e := t[|t| - 1];
      Confirmed(s, t[..|t| - 1]) + (if Confirms(s, e) then [e.index] else [])
  }

  /** How often function `i` was dispatched. */
  function Runs(t: seq<Event>, i: nat): nat {
    if t == [] then 0
    else
      var e := t[|t| - 1];
      Runs(t[..|t| - 1], i) + (if e.Ran? && e.index == i then 1 else 0)
  }

  /** Failures since the last confirmation. */
  function Streak(s: Subroutine, t: seq<Event>): nat {
    if t == [] then 0
    else
      var e := t[|t| - 1];
      if Confirms(s, e) then 0 else Streak(s, t[..|t| - 1]) + (if Fails(s, e) then 1 else 0)
  }

  /** The last event is a run whose outcome only a library callback can tell. */
  predicate Awaiting(s: Subroutine, t: seq<Event>) {
    t != [] && var e := t[|t| - 1]; e.Ran? && e.ok && !Confirms(s, e)
  }

  predicate LastFailed(s: Subroutine, t: seq<Event>) {
    t != [] && Fails(s, t[|t| - 1])
  }

  /** The two retry counters the processor keeps for a batch, replayed from the trace: the one of
      the copy that travels through the queue and the one of the copy in the id map. A confirmation
      resets only the first. A failed run is counted from the second, a wrong callback from the
      first, and both end up equal. */
  datatype Counters = Counters(queued: nat, mapped: nat)

  function Count(s: Subroutine, t: seq<Event>): Counters {
    if t == [] then Counters(0, 0)
    else
      var e := t[|t| - 1];
      var c := Count(s, t[..|t| - 1]);
      if Confirms(s, e) then Counters(0, c.mapped)
      else if !Fails(s, e) then c
      else
        var used := if e.Ran? then c.mapped else c.queued;
        Counters(used + 1, used + 1)
  }

  /** A dispatch that follows a failure repeats the function that failed, and only after the
      interval of its retry logic has passed since the failure. */
  ghost predicate CooledDown(s: Subroutine, t: seq<Event>) {
    forall j :: 1 <= j < |t| && t[j].Ran? && Fails(s, t[j - 1]) ==>
      && t[j].index == t[j - 1].index
      && s.RetryOf(t[j].index).Some?
      && s.RetryOf(t[j].index).value.interval.After(t[j - 1].at).IsExpired(t[j].at)
  }

  /** Function `i` may be dispatched `runs` times: once, and once more for every retry it has. */
  predicate Allowed(s: Subroutine, i: nat, runs: nat) {
    match s.RetryOf(i)
    case None => runs <= 1
    case Some(rl) => rl.times.Amount? ==> runs <= rl.times.times + 1
  }

  /** No function is dispatched more often than its retry logic allows. */
  ghost predicate WithinLimits(s: Subroutine, t: seq<Event>) {
    forall i: nat :: Allowed(s, i, Runs(t, i))
  }

  /** The functions 0, 1, 2, ... were confirmed one after the other. */
  ghost predicate InOrder(c: seq<nat>) {
    forall j :: 0 <= j < |c| ==> c[j] == j
  }

  /** An address to dispatch function `i` to. */
  predicate HasAddress(s: Subroutine, i: nat) {
    s.NonAtomic? ==> i < |s.functions| && s.functions[i].call.address.Some?
  }

  /** Whatever was dispatched or confirmed has an address. */
  ghost predicate Resolved(s: Subroutine, t: seq<Event>) {
    forall i: nat :: i < |Confirmed(s, t)| || Runs(t, i) > 0 ==> HasAddress(s, i)
  }

  lemma Append(s: Subroutine, t: seq<Event>, e: Event)
    ensures Confirmed(s, t + [e]) == Confirmed(s, t) + (if Confirms(s, e) then [e.index] else [])
    ensures forall i: nat :: Runs(t + [e], i) == Runs(t, i) + (if e.Ran? && e.index == i then 1 else 0)
    ensures Streak(s, t + [e]) ==
            if Confirms(s, e) then 0 else Streak(s, t) + (if Fails(s, e) then 1 else 0)
    ensures Count(s, t + [e]) ==
            if Confirms(s, e) then Counters(0, Count(s, t).mapped)
            else if !Fails(s, e) then Count(s, t)
            else var used := if e.Ran? then Count(s, t).mapped else Count(s, t).queued;
                 Counters(used + 1, used + 1)
  {
    assert (t + [e])[..|t|] == t;
  }

  /** A failure counted as retry number `used` may be followed by another dispatch. */
  predicate Retriable(s: Subroutine, i: nat, used: int) {
    match s.RetryOf(i)
    case None => false
    case Some(rl) => rl.times.Amount? ==> used < rl.times.times
  }

  /** The count from which the current run of failures started. It should be zero, but the map copy
      still holds the retries of earlier functions. */
  function Carried(s: Subroutine, t: seq<Event>): nat {
    if t == [] then 0
    else
      var e, before := t[|t| - 1], t[..|t| - 1];
      if Confirms(s, e) then 0
      else if Fails(s, e) && Streak(s, before) == 0 then
        if e.Ran? then Count(s, before).mapped else Count(s, before).queued
      else Carried(s, before)
  }

  /** During a run of failures both counters are the number of failures on top of what was carried;
      the queued one is zero outside of it. */
  lemma {:induction false} CountersAgree(s: Subroutine, t: seq<Event>)
    ensures if Streak(s, t) == 0 then Count(s, t).queued == 0
            else Count(s, t) == Counters(Carried(s, t) + Streak(s, t), Carried(s, t) + Streak(s, t))
  {
    if t != [] {
      CountersAgree(s, t[..|t| - 1]);
    }
  }

  /** Nothing is carried to the first function. */
  lemma {:induction false} NothingCarried(s: Subroutine, t: seq<Event>)
    requires Confirmed(s, t) == []
    ensures Carried(s, t) == 0 && Count(s, t).mapped == Count(s, t).queued == Streak(s, t)
  {
    if t != [] {
      var e, before := t[|t| - 1], t[..|t| - 1];
      assert |Confirmed(s, t)| >= |Confirmed(s, before)|;
      assert !Confirms(s, e);
      NothingCarried(s, before);
    }
  }

  // ----- How much can be carried -----

  /** None of the first `n` functions is retried without limit. */
  ghost predicate Limited(s: Subroutine, n: nat) {
    forall i: nat :: i < n && s.RetryOf(i).Some? ==> s.RetryOf(i).value.times.Amount?
  }

  function RetriesOf(s: Subroutine, i: nat): nat {
    match s.RetryOf(i)
    case None => 0
    case Some(rl) => if rl.times.Amount? then rl.times.times else 0
  }

  /** The most retries that any of the first `n` functions has. */
  function MostRetries(s: Subroutine, n: nat): nat {
    if n == 0 then 0
    else if RetriesOf(s, n - 1) > MostRetries(s, n - 1) then RetriesOf(s, n - 1)
    else MostRetries(s, n - 1)
  }

  /** No more is carried over than an earlier function had retries. */
  ghost predicate CarriesLittle(s: Subroutine, t: seq<Event>) {
    var n := |Confirmed(s, t)|;
    Limited(s, n) ==> (if Streak(s, t) == 0 then Count(s, t).mapped else Carried(s, t)) <= MostRetries(s, n)
  }

  lemma CarriesLittleAppend(s: Subroutine, t: seq<Event>, e: Event)
    requires CarriesLittle(s, t)
    requires Streak(s, t) > 0 ==> Retriable(s, |Confirmed(s, t)|, Count(s, t).queued - 1)
    ensures CarriesLittle(s, t + [e])
  {
    hide Confirmed, Streak, Count, Confirms, Fails;
    var n := |Confirmed(s, t)|;
    assert (t + [e])[..|t|] == t && (t + [e])[|t|] == e;
    Append(s, t, e);
    CountersAgree(s, t);
    if Limited(s, |Confirmed(s, t + [e])|) {
      assert Limited(s, n);
      if Confirms(s, e) {
        assert n < n + 1 && s.RetryOf(n).Some? ==> s.RetryOf(n).value.times.Amount?;
      }
    }
  }
}
