/** Two promises of the documentation that some runs of the processor break, and what happens when a
    library calls back for a batch that is queued. */
module ProcessorExamples {
  import opened Types
  import opened ProcessorModel
  import opened ProcessorTrace
  import opened ProcessorOutcomes

  const NOW := Block(1, 1)
  const MAIN := Config(OnMain, false)
  const TWICE := Again(2)
  const FAILED := SubErr("failed")

  /** Up to `n` retries, without a pause. */
  function Again(n: nat): Option<RetryLogic> { Some(RetryLogic(Amount(n), Time(0))) }

  function Function(retry: Option<RetryLogic>): NonAtomicFunction {
    var details := MessageDetails(CosmwasmExecuteMsg, "step", None);
    NonAtomicFunction(FunctionCall(Main, details, Some("library")), retry, None)
  }

  /** A batch of two functions with this retry logic. */
  function TwoFunctions(first: Option<RetryLogic>, second: Option<RetryLogic>): AuthorizationMsg {
    var msg := ExecuteMsg(Binary([], Some(JNull)));
    EnqueueMsgs(0, [msg, msg], NonAtomic([Function(first), Function(second)], None), Medium, None)
  }

  /** A fresh processor right after the batch has arrived. */
  function Arrived(first: Option<RetryLogic>, second: Option<RetryLogic>): ProcStore {
    Served(Fresh(MAIN), Received(TwoFunctions(first, second)), NOW)
  }

  /** One more tick, whose message ends like this. */
  function Then(p: ProcStore, outcome: SubMsgResult): ProcStore { Served(p, Ticked(outcome), NOW) }

  /** `n` more ticks, whose messages fail. */
  function Failing(p: ProcStore, n: nat): ProcStore { if n == 0 then p else Then(Failing(p, n - 1), FAILED) }

  /** A processor that has only this batch: `queued` and `kept` are the retry fields of its copy in
      the queue and its copy in the map. */
  function Only(m: AuthorizationMsg, queued: Option<CurrentRetry>, kept: Option<CurrentRetry>,
                index: map<nat, nat>, t: seq<Event>): ProcStore
    requires m.CarriesBatch()
  {
    var b := m.Batch();
    ProcStore(MAIN, [], [b.(retry := queued)], map[0 := b.(retry := kept)], index, map[], map[],
              map[0 := History(b, t, [])])
  }

  function Attempts(n: nat): Option<CurrentRetry> {
    if n == 0 then None else Some(CurrentRetry(n, AtTime(1)))
  }

  lemma ArrivedIs(first: Option<RetryLogic>, second: Option<RetryLogic>)
    ensures Arrived(first, second) == Only(TwoFunctions(first, second), None, None, map[], [])
  {
  }

  /** The same while function `i` runs. */
  function Busy(m: AuthorizationMsg, kept: Option<CurrentRetry>, i: nat, t: seq<Event>): ProcStore
    requires m.CarriesBatch()
  {
    Only(m, None, kept, map[0 := i], t).(medium := [])
  }

  lemma TickRuns(first: Option<RetryLogic>, second: Option<RetryLogic>, queued: nat, kept: nat,
                 index: map<nat, nat>, i: nat, t: seq<Event>, outcome: SubMsgResult)
    requires i < 2 && (index == map[0 := i] || (i == 0 && index == map[]))
    ensures var m := TwoFunctions(first, second);
            Serve(Only(m, Attempts(queued), Attempts(kept), index, t), Ticked(outcome), NOW) ==
            Reply(Busy(m, Attempts(kept), i, t + [Ran(i, NOW, outcome.SubOk?)]), 0, outcome, NOW)
  {
    hide Reply, Process;
    var m := TwoFunctions(first, second);
    var b := m.Batch().(retry := Attempts(queued));
    var p := Only(m, Attempts(queued), Attempts(kept), index, t);
    assert p.medium[1..] == [];
    assert Tick(p, NOW, outcome) == Process(p.(medium := []), Medium, b, NOW, outcome);
    ProcessRuns(first, second, queued, kept, index, i, t, outcome);
  }

  lemma ProcessRuns(first: Option<RetryLogic>, second: Option<RetryLogic>, queued: nat, kept: nat,
                    index: map<nat, nat>, i: nat, t: seq<Event>, outcome: SubMsgResult)
    requires i < 2 && (index == map[0 := i] || (i == 0 && index == map[]))
    ensures var m := TwoFunctions(first, second);
            Process(Only(m, None, Attempts(kept), index, t).(medium := []), Medium,
                    m.Batch().(retry := Attempts(queued)), NOW, outcome) ==
            Reply(Busy(m, Attempts(kept), i, t + [Ran(i, NOW, outcome.SubOk?)]), 0, outcome, NOW)
  {
    hide Reply, Log;
    var m := TwoFunctions(first, second);
    var b := m.Batch().(retry := Attempts(queued));
    var p := Only(m, None, Attempts(kept), index, t).(medium := []);
    assert Dispatch(p, b, i) == Busy(m, Attempts(kept), i, t) by { assert index[0 := i] == map[0 := i]; }
    LogBusy(m, kept, i, t, Ran(i, NOW, outcome.SubOk?));
  }

  lemma LogBusy(m: AuthorizationMsg, kept: nat, i: nat, t: seq<Event>, e: Event)
    requires m.CarriesBatch()
    ensures Log(Busy(m, Attempts(kept), i, t), 0, e) == Busy(m, Attempts(kept), i, t + [e])
  {
    var b := m.Batch();
    assert map[0 := History(b, t, [])][0 := History(b, t + [e], [])] == map[0 := History(b, t + [e], [])];
  }

  lemma FirstSucceeds(first: Option<RetryLogic>, second: Option<RetryLogic>, n: nat, index: map<nat, nat>,
                      t: seq<Event>)
    requires index == map[] || index == map[0 := 0]
    ensures var m := TwoFunctions(first, second);
            Then(Only(m, Attempts(n), Attempts(n), index, t), SubOk) ==
            Only(m, None, Attempts(n), map[0 := 1], t + [Ran(0, NOW, true)])
  {
    hide Serve;
    TickRuns(first, second, n, n, index, 0, t, SubOk);
  }

  /** A function with retries left fails and is queued again. */
  lemma FailsOnce(first: Option<RetryLogic>, second: Option<RetryLogic>, queued: nat, kept: nat,
                  index: map<nat, nat>, i: nat, t: seq<Event>, most: nat)
    requires i < 2 && (index == map[0 := i] || (i == 0 && index == map[]))
    requires (if i == 0 then first else second) == Again(most) && kept < most
    ensures var m := TwoFunctions(first, second);
            Then(Only(m, Attempts(queued), Attempts(kept), index, t), FAILED) ==
            Only(m, Attempts(kept + 1), Attempts(kept + 1), map[0 := i], t + [Ran(i, NOW, false)])
  {
    hide Serve;
    TickRuns(first, second, queued, kept, index, i, t, FAILED);
  }

  lemma SecondGivesUp(first: Option<RetryLogic>, second: Option<RetryLogic>, queued: nat, kept: nat, t: seq<Event>)
    requires second.None? || (second.value.times.Amount? && second.value.times.times <= kept)
    ensures var m := TwoFunctions(first, second);
            var p := Then(Only(m, Attempts(queued), Attempts(kept), map[0 := 1], t), FAILED);
            && 0 in p.history
            && p.history[0] == History(m.Batch(), t + [Ran(1, NOW, false)],
                                       [if second.None? then Rejected("failed") else PartiallyExecuted(1, "failed")])
  {
    hide Serve;
    TickRuns(first, second, queued, kept, map[0 := 1], 1, t, FAILED);
  }

  /** A function without retry logic fails after another one succeeded: the batch is reported as
      rejected. */
  lemma RejectedAfterProgress()
    ensures var p := Then(Then(Arrived(TWICE, None), SubOk), FAILED);
            && 0 in p.history
            && var h := p.history[0];
               h.reports == [Rejected("failed")] && Progress(h) == [0] && !AsDocumented(h, h.reports[0])
  {
    hide Then, Only, Arrived;
    var s, e, f := TwoFunctions(TWICE, None).subroutine, Ran(0, NOW, true), Ran(1, NOW, false);
    ArrivedIs(TWICE, None);
    FirstSucceeds(TWICE, None, 0, map[], []);
    SecondGivesUp(TWICE, None, 0, 0, [] + [e]);
    Append(s, [], e);
    Append(s, [] + [e], f);
  }

  // ----- Retries counted against a later function -----

  function Repeated(e: Event, n: nat): seq<Event> { if n == 0 then [] else Repeated(e, n - 1) + [e] }

  /** The first function fails `n` times. */
  lemma {:induction false} FirstFails(k: nat, second: Option<RetryLogic>, n: nat)
    requires n <= k
    ensures Failing(Arrived(Again(k), second), n) ==
            Only(TwoFunctions(Again(k), second), Attempts(n), Attempts(n), if n == 0 then map[] else map[0 := 0],
                 Repeated(Ran(0, NOW, false), n))
  {
    hide Then, Only, Arrived;
    if n == 0 {
      ArrivedIs(Again(k), second);
    } else {
      FirstFails(k, second, n - 1);
      FailsOnce(Again(k), second, n - 1, n - 1, if n == 1 then map[] else map[0 := 0], 0,
                Repeated(Ran(0, NOW, false), n - 1), k);
    }
  }

  /** Then the second one fails `n` times, starting from the count `k`. */
  lemma {:induction false} SecondFails(k: nat, m: nat, t: seq<Event>, n: nat)
    requires k + n <= m || n == 0
    ensures var msg := TwoFunctions(Again(k), Again(m));
            Failing(Only(msg, None, Attempts(k), map[0 := 1], t), n) ==
            Only(msg, Attempts(if n == 0 then 0 else k + n), Attempts(k + n), map[0 := 1],
                 t + Repeated(Ran(1, NOW, false), n))
  {
    hide Then, Only;
    if n == 0 {
      assert t + [] == t;
    } else {
      var e := Ran(1, NOW, false);
      SecondFails(k, m, t, n - 1);
      FailsOnce(Again(k), Again(m), if n == 1 then 0 else k + n - 1, k + n - 1, map[0 := 1], 1,
                t + Repeated(e, n - 1), m);
      assert t + Repeated(e, n - 1) + [e] == t + Repeated(e, n);
    }
  }

  /** What `n` failures of function `i` add to a trace. */
  lemma {:induction false} FailuresAppend(s: Subroutine, t: seq<Event>, i: nat, n: nat, j: nat)
    ensures var u := t + Repeated(Ran(i, NOW, false), n);
            Confirmed(s, u) == Confirmed(s, t) && Runs(u, j) == Runs(t, j) + if i == j then n else 0
  {
    var e := Ran(i, NOW, false);
    if n == 0 {
      assert t + [] == t;
    } else {
      FailuresAppend(s, t, i, n - 1, j);
      Append(s, t + Repeated(e, n - 1), e);
      assert t + Repeated(e, n - 1) + [e] == t + Repeated(e, n);
    }
  }

  /** The first function uses up its `k` retries and succeeds with the last. They are counted against the
      second, which has `m` of its own and is given up after as few dispatches as possible. */
  lemma BudgetCutShort(k: nat, m: nat)
    ensures var p := Failing(Then(Failing(Arrived(Again(k), Again(m)), k), SubOk), Budget(m, k));
            && 0 in p.history
            && var h := p.history[0];
               && h.batch.subroutine.RetryOf(0) == Again(k) && h.batch.subroutine.RetryOf(1) == Again(m)
               && h.reports == [PartiallyExecuted(1, "failed")] && Progress(h) == [0]
               && Runs(h.trace, 1) == Budget(m, k)
  {
    hide Then, Only, Arrived, Confirmed, Runs, Repeated, Failing;
    var n, t := Budget(m, k) - 1, Repeated(Ran(0, NOW, false), k) + [Ran(0, NOW, true)];
    FirstFails(k, Again(m), k);
    FirstSucceeds(Again(k), Again(m), k, if k == 0 then map[] else map[0 := 0], Repeated(Ran(0, NOW, false), k));
    SecondFails(k, m, t, n);
    SecondGivesUp(Again(k), Again(m), if n == 0 then 0 else k + n, k + n, t + Repeated(Ran(1, NOW, false), n));
    OneMore(Then(Failing(Arrived(Again(k), Again(m)), k), SubOk), n);
    CutShortTrace(TwoFunctions(Again(k), Again(m)).subroutine, k, n);
  }

  lemma OneMore(p: ProcStore, n: nat)
    ensures Failing(p, n + 1) == Then(Failing(p, n), FAILED)
  {
  }

  lemma CutShortTrace(s: Subroutine, k: nat, n: nat)
    requires s.CallbackOf(0).None?
    ensures var u := Repeated(Ran(0, NOW, false), k) + [Ran(0, NOW, true)] + Repeated(Ran(1, NOW, false), n)
                     + [Ran(1, NOW, false)];
            Confirmed(s, u) == [0] && Runs(u, 1) == n + 1
  {
    hide Confirmed, Runs, Repeated;
    var t := Repeated(Ran(0, NOW, false), k);
    assert [] + t == t;
    FailuresAppend(s, [], 0, k, 1);
    Nothing(s);
    Append(s, t, Ran(0, NOW, true));
    FailuresAppend(s, t + [Ran(0, NOW, true)], 1, n, 1);
    Append(s, t + [Ran(0, NOW, true)] + Repeated(Ran(1, NOW, false), n), Ran(1, NOW, false));
  }

  lemma Nothing(s: Subroutine)
    ensures Confirmed(s, []) == [] && Runs([], 1) == 0
  {
  }

  // ----- A callback for a batch that is queued -----

  const DONE := Binary([], Some(JString("done")))

  /** A batch of one function with two retries, confirmed by a callback of its library. */
  function OneFunction(): MessageBatch {
    var call := Function(TWICE).(callback := Some(FunctionCallback("library", DONE)));
    MessageBatch(0, [ExecuteMsg(Binary([], Some(JNull)))], NonAtomic([call], None), Medium, None, None)
  }

  /** A processor that has only this batch, with the retry field of its copy in the queue. */
  function OnlyOne(queued: Option<CurrentRetry>, batches: map<nat, MessageBatch>, index: map<nat, nat>,
                   pending: map<nat, PendingCallback>, h: History): ProcStore {
    ProcStore(MAIN, [], [OneFunction().(retry := queued)], batches, index, pending, map[], map[0 := h])
  }

  /** The dispatch of the function fails, the batch is queued again, and its pending callback stays. */
  function Requeued(): ProcStore {
    var b := OneFunction();
    OnlyOne(Attempts(1), map[0 := b.(retry := Attempts(1))], map[0 := 0],
            map[0 := PendingCallback(FunctionCallback("library", DONE), b)], History(b, [Ran(0, NOW, false)], []))
  }

  /** What the callback leaves: a result, and a copy in the queue. */
  function Haunted(): ProcStore {
    var t := [Ran(0, NOW, false), CalledBack(0, NOW, "library", DONE)];
    OnlyOne(Attempts(1), map[], map[], map[], History(OneFunction(), t, [Success]))
  }

  lemma RequeuedIs()
    ensures var p := Enqueue(Fresh(MAIN), OneFunction(), NOW).store; Then(p, FAILED) == Requeued()
  {
    var b := OneFunction();
    var p := Enqueue(Fresh(MAIN), b, NOW).store;
    assert p == OnlyOne(None, map[0 := b], map[], map[], History(b, [], []));
    assert p.medium[1..] == [];
    var p1 := Log(Dispatch(p.(medium := []), b, 0), 0, Ran(0, NOW, false));
    assert p1 == Requeued().(medium := [], batches := map[0 := b]) by {
      assert [] + [Ran(0, NOW, false)] == [Ran(0, NOW, false)];
    }
    assert Serve(p, Ticked(FAILED), NOW) == Reply(p1, 0, FAILED, NOW);
    assert Reply(p1, 0, FAILED, NOW) == Done(PutBack(p1, b, TWICE.value, NOW), None);
  }

  lemma HauntedIs()
    ensures LibraryCallback(Requeued(), 0, "library", DONE, NOW) == Done(Haunted(), Some(Report(0, Success)))
  {
    hide Conclude;
    var b, e := OneFunction(), CalledBack(0, NOW, "library", DONE);
    var p := Requeued();
    var p1 := Log(p, 0, e);
    assert [Ran(0, NOW, false)] + [e] == [Ran(0, NOW, false), e];
    assert p1.history == map[0 := History(b, [Ran(0, NOW, false), e], [])];
    HauntedEnds(Forget(p1, 0), [Ran(0, NOW, false), e]);
  }

  lemma HauntedEnds(p: ProcStore, t: seq<Event>)
    requires p.config == MAIN && p.history == map[0 := History(OneFunction(), t, [])]
    ensures Conclude(p, 0, Success) ==
            Done(p.(history := map[0 := History(OneFunction(), t, [Success])]), Some(Report(0, Success)))
  {
    assert [] + [Success] == [Success];
  }

  /** Nothing can be dispatched from the copy any more: the reply does not find its batch. */
  lemma HauntedTick(block: Block, outcome: SubMsgResult)
    requires block.time >= 1
    ensures Tick(Haunted(), block, outcome) == Reverted(NotFound)
  {
    var b := OneFunction().(retry := Attempts(1));
    var p := Haunted().(medium := []);
    assert Haunted().medium[1..] == [];
    assert Tick(Haunted(), block, outcome) == Process(p, Medium, b, block, outcome);
    assert 0 !in Dispatch(p, b, 0).batches;
  }

  lemma HauntedEvict()
    ensures var o := Evict(Haunted(), 0, Medium);
            o.Done? && 0 in o.store.history && o.store.history[0].reports == [Success, RemovedByOwner]
  {
    assert [Success] + [RemovedByOwner] == [Success, RemovedByOwner];
  }

  /** What a user sees when a library calls back while its batch is queued again after a failed
      dispatch. The callback is accepted and Success is reported, but the copy stays in the queue: from
      that time on every tick that takes it fails, so nothing behind it is processed, and evicting it
      reports a second result for the same id. */
  lemma StaleCallback()
    ensures var p := Then(Enqueue(Fresh(MAIN), OneFunction(), NOW).store, FAILED);
            var o := LibraryCallback(p, 0, "library", DONE, NOW);
            && QueueHas(p, 0)
            && o.Done? && o.report == Some(Report(0, Success)) && QueueHas(o.store, 0)
            && (forall block: Block, outcome :: block.time >= 1 ==> Tick(o.store, block, outcome).Reverted?)
            && var e := Evict(o.store, 0, Medium);
               e.Done? && 0 in e.store.history && e.store.history[0].reports == [Success, RemovedByOwner]
  {
    hide Then, Tick, Evict, LibraryCallback, Enqueue;
    RequeuedIs();
    HauntedIs();
    assert Requeued().medium[0].id == 0 && Haunted().medium[0].id == 0;
    forall block: Block, outcome | block.time >= 1
      ensures Tick(Haunted(), block, outcome).Reverted?
    {
      HauntedTick(block, outcome);
    }
    HauntedEvict();
  }
}
