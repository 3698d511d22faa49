/** What an entry point of the processor does to the outside view of it: at most one batch gets
    its final result, and that is the one it reports. */
module ProcessorEffects {
  import opened Types
  import opened ProcessorModel
  import opened ProcessorTrace
  import opened ProcessorInvariant
  import opened ProcessorSteps

  /** Nothing a caller could notice: the same batches, results and reports. */
  ghost predicate Quiet(p: ProcStore, p': ProcStore) {
    && (p'.config.domain.OnExternal? <==> p.config.domain.OnExternal?)
    && p'.results == p.results
    && p'.history.Keys == p.history.Keys
    && forall o :: o in p.history ==>
         p'.history[o].batch == p.history[o].batch && p'.history[o].reports == p.history[o].reports
  }

  /** The result that is kept for sending it again. */
  function Kept(p: ProcStore, r: ExecutionResult): Option<ResultInfo> {
    if p.config.domain.OnMain? then None else Some(ResultInfo(r, Pending))
  }

  /** Like Quiet, but for the batch that is reported. */
  ghost predicate Reports(p: ProcStore, p': ProcStore, id: nat, r: ExecutionResult) {
    && (p'.config.domain.OnExternal? <==> p.config.domain.OnExternal?)
    && p'.history.Keys == p.history.Keys
    && id in p.history
    && p.history[id].reports == [] && p'.history[id].reports == [r]
    && p'.history[id].batch == p.history[id].batch
    && id !in p.results && Get(p'.results, id) == Kept(p, r)
    && (forall o :: o in p.history && o != id ==>
          p'.history[o].batch == p.history[o].batch && p'.history[o].reports == p.history[o].reports)
    && (forall o: nat :: o != id ==> Get(p'.results, o) == Get(p.results, o))
  }

  ghost predicate Summary(p: ProcStore, o: Outcome) {
    o.Done? ==>
      if o.report.None? then Quiet(p, o.store) else Reports(p, o.store, o.report.value.id, o.report.value.result)
  }

  /** The batch is known, has no result yet, and none is kept. */
  ghost predicate Unreported(p: ProcStore, id: nat) {
    id in p.history && p.history[id].reports == [] && id !in p.results
  }

  lemma QuietThen(p: ProcStore, q: ProcStore, o: Outcome)
    requires Quiet(p, q) && Summary(q, o)
    ensures Summary(p, o)
  {
  }

  /** The parts of the store that are visible outside, after a result was sent. */
  lemma ConcludeStore(p: ProcStore, id: nat, r: ExecutionResult)
    requires id in p.history && p.history[id].reports == []
    ensures var o := Conclude(p, id, r);
            && o.Done? && o.report == Some(Report(id, r))
            && o.store.config == p.config
            && o.store.history == p.history[id := p.history[id].(reports := [r])]
            && o.store.results ==
                 if p.config.domain.OnMain? then p.results else p.results[id := ResultInfo(r, Pending)]
  {
    assert [] + [r] == [r];
  }

  lemma ConcludeSummary(p: ProcStore, id: nat, r: ExecutionResult)
    requires Unreported(p, id)
    ensures Summary(p, Conclude(p, id, r))
  {
    hide Conclude;
    ConcludeStore(p, id, r);
  }

  lemma ForgetSummary(p: ProcStore, id: nat, r: ExecutionResult)
    requires Unreported(p, id)
    ensures Summary(p, Conclude(Forget(p, id), id, r))
  {
    hide Conclude, Reports;
    ConcludeSummary(Forget(p, id), id, r);
    QuietThen(p, Forget(p, id), Conclude(Forget(p, id), id, r));
  }

  lemma FailedSummary(p: ProcStore, id: nat, b: MessageBatch, error: string, block: Block, i: nat)
    requires Unreported(p, id)
    ensures Summary(p, BatchFailed(p, id, b, error, block, i))
  {
    hide Conclude, Forget, Reports;
    ForgetSummary(p, id, Rejected(error));
    ForgetSummary(p, id, PartiallyExecuted(i, error));
  }

  lemma SucceededSummary(p: ProcStore, i: nat, id: nat, b: MessageBatch)
    requires Unreported(p, id)
    ensures Summary(p, FunctionSucceeded(p, i, id, b))
  {
    hide Conclude, Forget, Reports;
    ForgetSummary(p, id, Success);
  }

  lemma ReplySummary(p: ProcStore, id: nat, outcome: SubMsgResult, block: Block)
    requires Unreported(p, id)
    ensures Summary(p, Reply(p, id, outcome, block))
  {
    hide Conclude, Reports, BatchFailed, FunctionSucceeded;
    ConcludeSummary(p, id, Success);
    if id in p.batches {
      var i := if id in p.index then p.index[id] else 0;
      SucceededSummary(p, i, id, p.batches[id]);
      if outcome.SubErr? {
        FailedSummary(p, id, p.batches[id], outcome.error, block, i);
      }
    }
  }

  lemma LogQuiet(p: ProcStore, id: nat, e: Event)
    ensures Quiet(p, Log(p, id, e))
    ensures Unreported(p, id) ==> Unreported(Log(p, id, e), id)
  {
  }

  /** A reply after the store was written to in ways that nobody outside notices. */
  lemma RunSummary(p: ProcStore, q: ProcStore, id: nat, e: Event, outcome: SubMsgResult, block: Block)
    requires Unreported(p, id) && Quiet(p, q)
    ensures Summary(p, Reply(Log(q, id, e), id, outcome, block))
  {
    hide Reply, Log, Summary;
    LogQuiet(q, id, e);
    ReplySummary(Log(q, id, e), id, outcome, block);
    QuietThen(q, Log(q, id, e), Reply(Log(q, id, e), id, outcome, block));
    QuietThen(p, q, Reply(Log(q, id, e), id, outcome, block));
  }

  lemma DispatchQuiet(p: ProcStore, b: MessageBatch, i: nat)
    ensures Quiet(p, Dispatch(p, b, i))
  {
  }

  lemma PushBackQuiet(p: ProcStore, priority: Priority, b: MessageBatch)
    ensures Summary(p, Done(PushBack(p, priority, b), None))
  {
  }

  lemma RevertedSummary(p: ProcStore, error: ProcError)
    ensures Summary(p, Reverted(error))
  {
  }

  lemma ProcessSummary(p: ProcStore, from: Priority, b: MessageBatch, block: Block, outcome: SubMsgResult)
    requires Unreported(p, b.id)
    ensures Summary(p, Process(p, from, b, block, outcome))
  {
    hide Conclude, Reply, Log, Summary, PushBack, Dispatch, BuildError, AtomicResult;
    var i := IndexOf(p, b.id);
    ForgetSummary(p, b.id, Expired(if b.subroutine.Atomic? then 0 else i));
    PushBackQuiet(p, from, b);
    if b.subroutine.Atomic? {
      var result := AtomicResult(b, outcome);
      RunSummary(p, p, b.id, Ran(0, block, result.SubOk?), result, block);
    } else if BuildError(b, i).None? {
      DispatchQuiet(p, b, i);
      RunSummary(p, Dispatch(p, b, i), b.id, Ran(i, block, outcome.SubOk?), outcome, block);
    } else {
      RevertedSummary(p, BuildError(b, i).value);
    }
  }

  lemma HeldUnreported(p: ProcStore, b: MessageBatch)
    requires Held(p, b)
    ensures Unreported(p, b.id)
  {
    hide HistoryOk, Count, Streak, Confirmed, Waiting, StalePending;
  }

  lemma TickSummary(p: ProcStore, block: Block, outcome: SubMsgResult)
    requires Inv(p)
    ensures Summary(p, Tick(p, block, outcome))
  {
    hide Inv, Held, Process, Summary, InvBut, Unreported;
    var from := NextQueue(p);
    var q := QueueOf(p, from);
    if q != [] {
      assert q[..0] + q[1..] == q[1..];
      Take(p, from, 0);
      var p1 := SetQueue(p, from, q[1..]);
      HeldUnreported(p1, q[0]);
      ProcessSummary(p1, from, q[0], block, outcome);
      QuietThen(p, p1, Process(p1, from, q[0], block, outcome));
    }
    RevertedSummary(p, ProcessorPaused);
    RevertedSummary(p, NoMessagesToProcess);
  }

  lemma EvictSummary(p: ProcStore, position: nat, priority: Priority)
    requires Inv(p)
    ensures Summary(p, Evict(p, position, priority))
  {
    hide Inv, Held, Conclude, Reports, Forget;
    var q := QueueOf(p, priority);
    if position < |q| {
      Take(p, priority, position);
      var id := q[position].id;
      var p1 := SetQueue(p, priority, q[..position] + q[position + 1..]);
      HeldUnreported(p1, q[position]);
      var p2 := Forget(p1, id).(pending := p.pending - {id});
      assert Quiet(p1, p2) && Quiet(p, p2) by { ForgetQuiet(p1, id); }
      ConcludeSummary(p2, id, RemovedByOwner);
      QuietThen(p, p2, Conclude(p2, id, RemovedByOwner));
    }
  }

  lemma ForgetQuiet(p: ProcStore, id: nat)
    ensures Quiet(p, Forget(p, id)) && Forget(p, id).results == p.results && Forget(p, id).history == p.history
  {
  }

  lemma CallbackSummary(p: ProcStore, id: nat, sender: Addr, msg: Binary, block: Block)
    requires Inv(p)
    ensures Summary(p, LibraryCallback(p, id, sender, msg, block))
  {
    hide Inv, BatchFailed, FunctionSucceeded, Reports, LibraryCallback, Underway;
    var o := LibraryCallback(p, id, sender, msg, block);
    if o.Done? {
      CallbackUnderway(p, id, sender, msg, block);
      UnderwayUnreported(p, id);
      CallbackResult(p, id, sender, msg, block);
      var i, b := p.index[id], p.pending[id].batch;
      var q := DropPending(Log(p, id, CalledBack(i, block, sender, msg)), id);
      assert Quiet(p, q) && Unreported(q, id);
      FailedSummary(q, id, b, "Invalid callback message received", block, i);
      SucceededSummary(q, i, id, b);
      QuietThen(p, q, o);
    }
  }

  lemma UnderwayUnreported(p: ProcStore, id: nat)
    requires id in p.history && Underway(ViewOf(p, id), p.history[id])
    ensures Unreported(p, id)
  {
    hide HistoryOk, Count, Streak, Confirmed;
  }

  /** A batch that is new to the processor is registered, and reported only when it is too late. */
  ghost predicate Admits(p: ProcStore, o: Outcome, b: MessageBatch) {
    o.Done? ==>
      && var p' := o.store;
      && (p'.config.domain.OnExternal? <==> p.config.domain.OnExternal?)
      && p'.history.Keys == p.history.Keys + {b.id}
      && p'.history[b.id].batch == b
      && (forall k :: k in p.history ==> p'.history[k] == p.history[k])
      && (forall k: nat :: k != b.id ==> Get(p'.results, k) == Get(p.results, k))
      && if o.report.None?
         then p'.history[b.id].reports == [] && p'.results == p.results
         else && o.report.value.id == b.id
              && p'.history[b.id].reports == [o.report.value.result]
              && Get(p'.results, b.id) ==
                 if p.config.domain.OnMain? then Get(p.results, b.id) else Kept(p, o.report.value.result)
  }

  lemma LateAdmits(p: ProcStore, b: MessageBatch)
    requires b.id !in p.history
    ensures Admits(p, Conclude(Register(p, b), b.id, Expired(0)), b)
  {
    hide Conclude;
    ConcludeStore(Register(p, b), b.id, Expired(0));
  }

  lemma PlacedAdmits(p: ProcStore, b: MessageBatch, q: seq<MessageBatch>)
    requires b.id !in p.history
    ensures Admits(p, Done(SetQueue(Register(p, b), b.priority, q).(batches := p.batches[b.id := b]), None), b)
  {
    hide Get;
  }

  lemma HandleAdmits(p: ProcStore, m: AuthorizationMsg, block: Block)
    requires m.CarriesBatch() && m.id !in p.history
    ensures Admits(p, Handle(p, m, block), m.Batch())
  {
    hide Conclude, Get, Admits, SetQueue, Register;
    var b := m.Batch();
    var q := QueueOf(p, b.priority);
    LateAdmits(p, b);
    RegisterQueue(p, b);
    PlacedAdmits(p, b, q + [b]);
    if m.InsertMsgs? && m.position <= |q| {
      PlacedAdmits(p, b, q[..m.position] + [b] + q[m.position..]);
    }
    RevertedAdmits(p, b);
  }

  lemma RegisterQueue(p: ProcStore, b: MessageBatch)
    ensures QueueOf(Register(p, b), b.priority) == QueueOf(p, b.priority)
  {
  }

  lemma RevertedAdmits(p: ProcStore, b: MessageBatch)
    ensures Admits(p, Reverted(OutOfBounds), b)
  {
  }

  /** The queue test of a library callback is the one of the invariant. */
  lemma {:induction false} SelectFinds(q: seq<MessageBatch>, id: nat)
    ensures Select(q, id) == [] <==> forall b :: b in q ==> b.id != id
  {
    if q != [] {
      SelectFinds(q[1..], id);
      assert forall b :: b in q <==> b == q[0] || b in q[1..];
    }
  }

  lemma QueueHasIff(p: ProcStore, id: nat)
    ensures QueueHas(p, id) <==> !InNoQueue(p, id)
  {
    hide Select;
    SelectFinds(p.high, id);
    SelectFinds(p.medium, id);
  }
}
