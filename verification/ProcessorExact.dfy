/** The processor against a reference that knows nothing of its queues and maps: what a tick or a library
    callback makes of the history of a batch, told from the outside events alone, and where orders put
    batches or take them from. */
module ProcessorExact {
  import opened Types
  import opened ProcessorModel
  import opened ProcessorTrace
  import opened ProcessorInvariant
  import opened ProcessorSteps
  import opened ProcessorEffects

  // ----- The reference -----

  /** The batch waits for the interval of the function that failed last. */
  predicate Cooling(s: Subroutine, t: seq<Event>, block: Block) {
    LastFailed(s, t) &&
    var retry := s.RetryOf(t[|t| - 1].index);
    retry.Some? && !retry.value.interval.After(t[|t| - 1].at).IsExpired(block)
  }

  /** A cooldown that starts at a block is over when the interval, in blocks or seconds, has passed. */
  lemma CooldownIff(interval: Duration, start: Block, now: Block)
    ensures interval.After(start).IsExpired(now) <==>
            match interval
            case Height(n) => now.height - start.height >= n
            case Time(s) => now.time - start.time >= s * NANOS
  {
  }

  /** Every message of an atomic batch can be built: it is one the processor dispatches, and its function
      has an address. */
  predicate CanApply(b: MessageBatch) {
    var calls := b.subroutine.Calls();
    forall i :: 0 <= i < |b.msgs| && i < |calls| ==> b.msgs[i].Dispatchable() && calls[i].address.Some?
  }

  /** The result that the events of a batch call for, if they do: success after the last confirmation, and
      giving up after a failure that must not be retried. */
  function Verdict(b: MessageBatch, t: seq<Event>, error: string): seq<ExecutionResult>
    requires t != []
  {
    var s, e, n := b.subroutine, t[|t| - 1], |Confirmed(b.subroutine, t)|;
    if Confirms(s, e) then (if n == b.Size() then [Success] else [])
    else if Fails(s, e) && !Retriable(s, n, Count(s, t).queued - 1) then
      [if n == 0 || s.RetryOf(n).None? then Rejected(error) else PartiallyExecuted(n, error)]
    else []
  }

  /** One more event. */
  function Happened(h: History, e: Event, error: string): History {
    var t := h.trace + [e];
    h.(trace := t, reports := Verdict(h.batch, t, error))
  }

  function ErrorOf(outcome: SubMsgResult): string {
    if outcome.SubErr? then outcome.error else "message cannot be built"
  }

  /** What a tick makes of the batch it takes, when its submessage ends with `outcome`. */
  function AfterTick(h: History, block: Block, outcome: SubMsgResult): History {
    var s, n := h.batch.subroutine, |Confirmed(h.batch.subroutine, h.trace)|;
    if h.batch.IsLate(block) then h.(reports := [Expired(n)])
    else if Cooling(s, h.trace, block) then h
    else Happened(h, Ran(n, block, outcome == SubOk && (s.Atomic? ==> CanApply(h.batch))), ErrorOf(outcome))
  }

  /** What the outcome reports for a batch whose history was `h` and becomes `h'`. */
  function Announced(h: History, h': History): Option<Report> {
    if h'.reports != h.reports && h'.reports != [] then Some(Report(h.batch.id, h'.reports[0])) else None
  }

  /** The call turns the history of `id` into `h'`, leaves all others, and reports the result if there is
      one. */
  ghost predicate Makes(p: ProcStore, o: Outcome, id: nat, h': History) {
    && id in p.history && p.history[id].batch.id == id
    && o.Done? && o.store.history == p.history[id := h'] && o.report == Announced(p.history[id], h')
  }

  // ----- Handlers -----

  lemma ConcludeMakes(p: ProcStore, id: nat, r: ExecutionResult)
    requires id in p.history && p.history[id].reports == [] && p.history[id].batch.id == id
    ensures Makes(p, Conclude(p, id, r), id, p.history[id].(reports := [r]))
  {
    hide Conclude;
    ConcludeStore(p, id, r);
  }

  /** A call after which the history of `id` is what it was before the event, extended. */
  lemma MakesAfter(p: ProcStore, q: ProcStore, o: Outcome, id: nat, e: Event, error: string)
    requires id in p.history && p.history[id].reports == []
    requires q.history == p.history[id := Extended(p.history[id], e)]
    requires Makes(q, o, id, Happened(p.history[id], e, error))
    ensures Makes(p, o, id, Happened(p.history[id], e, error))
  {
    hide Happened;
    var h := Happened(p.history[id], e, error);
    assert q.history[id := h] == p.history[id := h];
  }

  lemma VerdictFails(h: History, e: Event, error: string)
    requires Fails(h.batch.subroutine, e)
    ensures var s, n := h.batch.subroutine, |Confirmed(h.batch.subroutine, h.trace)|;
            Verdict(h.batch, h.trace + [e], error) ==
              if Retriable(s, n, FailureCount(h, e)) then []
              else [if n == 0 || s.RetryOf(n).None? then Rejected(error) else PartiallyExecuted(n, error)]
  {
    hide Confirmed, Count, Fails, Confirms;
    Append(h.batch.subroutine, h.trace, e);
    FailsNotConfirms(h.batch.subroutine, e);
  }

  lemma VerdictConfirms(h: History, e: Event, error: string)
    requires Confirms(h.batch.subroutine, e)
    ensures Verdict(h.batch, h.trace + [e], error) ==
            if |Confirmed(h.batch.subroutine, h.trace)| + 1 == h.batch.Size() then [Success] else []
  {
    hide Confirmed, Count, Confirms;
    Append(h.batch.subroutine, h.trace, e);
  }

  lemma PutBackKeepsHistory(p: ProcStore, b: MessageBatch, rl: RetryLogic, block: Block)
    ensures PutBack(p, b, rl, block).history == p.history
  {
  }

  lemma FailedMakes(p: ProcStore, h: History, e: Event, u: MessageBatch, error: string)
    requires u.id in p.history && p.history[u.id] == Extended(h, e) && h.reports == []
    requires Fails(h.batch.subroutine, e) && e.index == |Confirmed(h.batch.subroutine, h.trace)|
    requires u.SameJob(h.batch) && u.Retries() == FailureCount(h, e)
    ensures Makes(p, BatchFailed(p, u.id, u, error, e.at, e.index), u.id, Happened(h, e, error))
  {
    hide Conclude, Fails, Confirmed, Count, Verdict, FailureCount, PutBack;
    VerdictFails(h, e, error);
    if u.subroutine.RetryOf(e.index).Some? {
      PutBackKeepsHistory(p, u, u.subroutine.RetryOf(e.index).value, e.at);
    }
    var r := if e.index == 0 || u.subroutine.RetryOf(e.index).None? then Rejected(error)
             else PartiallyExecuted(e.index, error);
    ConcludeMakes(Forget(p, u.id), u.id, r);
    assert p.history[u.id := Extended(h, e)] == p.history;
  }

  lemma SucceededMakes(p: ProcStore, h: History, e: Event, u: MessageBatch, error: string)
    requires u.id in p.history && p.history[u.id] == Extended(h, e) && h.reports == []
    requires Confirms(h.batch.subroutine, e) && e.index == |Confirmed(h.batch.subroutine, h.trace)| < |h.batch.msgs|
    requires u.SameJob(h.batch) && h.batch.subroutine.NonAtomic?
    ensures Makes(p, FunctionSucceeded(p, e.index, u.id, u), u.id, Happened(h, e, error))
  {
    hide Conclude, Confirms, Confirmed, Verdict;
    VerdictConfirms(h, e, error);
    ConcludeMakes(Forget(p, u.id), u.id, Success);
    assert p.history[u.id := Extended(h, e)] == p.history;
  }

  lemma ReplyMakes(p: ProcStore, h: History, b: MessageBatch, e: Event, outcome: SubMsgResult)
    requires b.id in p.history && Dispatched(ViewOf(p, b.id), h, b, e) && e.ok == outcome.SubOk?
    ensures Makes(p, Reply(p, b.id, outcome, e.at), b.id, Happened(h, e, ErrorOf(outcome)))
  {
    hide Select, HistoryOk, Confirmed, Count, Streak, BatchFailed, FunctionSucceeded, Conclude, Happened, Makes, Ready;
    var id, s := b.id, h.batch.subroutine;
    DispatchedOpen(ViewOf(p, id), h, b, e);
    match outcome
    case SubErr(error) => FailedMakes(p, h, e, p.batches[id], error);
    case SubOk =>
      if id !in p.index {
        AtomicMakes(p, h, b, e);
      } else if id in p.pending {
        AwaitsMakes(p, h, b, e);
      } else {
        SucceededMakes(p, h, e, p.batches[id], ErrorOf(outcome));
      }
  }

  lemma DispatchedOpen(v: View, h: History, b: MessageBatch, e: Event)
    requires Dispatched(v, h, b, e)
    ensures h.reports == []
  {
  }

  lemma AtomicMakes(p: ProcStore, h: History, b: MessageBatch, e: Event)
    requires b.id in p.history && Dispatched(ViewOf(p, b.id), h, b, e) && e.ok && h.batch.subroutine.Atomic?
    ensures Makes(p, Conclude(p, b.id, Success), b.id, Happened(h, e, ErrorOf(SubOk)))
  {
    hide Select, HistoryOk, Confirmed, Count, Streak, Conclude, Ready, Verdict;
    DispatchedOpen(ViewOf(p, b.id), h, b, e);
    VerdictConfirms(h, e, ErrorOf(SubOk));
    ConcludeMakes(p, b.id, Success);
  }

  lemma AwaitsMakes(p: ProcStore, h: History, b: MessageBatch, e: Event)
    requires b.id in p.history && Dispatched(ViewOf(p, b.id), h, b, e) && e.ok && h.batch.subroutine.NonAtomic?
    requires b.id in p.pending
    ensures Makes(p, Done(p, None), b.id, Happened(h, e, ErrorOf(SubOk)))
  {
    hide Select, HistoryOk, Confirmed, Count, Streak, Ready;
    DispatchedOpen(ViewOf(p, b.id), h, b, e);
    assert p.history[b.id := Extended(h, e)] == p.history;
  }

  // ----- Ticks -----

  /** The batch a tick takes. */
  function InFront(p: ProcStore): Option<MessageBatch> {
    if p.high != [] then Some(p.high[0]) else if p.medium != [] then Some(p.medium[0]) else None
  }

  /** What a held copy says about the history of its batch. */
  lemma HeldSays(v: View, h: History, b: MessageBatch, block: Block)
    requires HeldView(v, h, b)
    ensures h.reports == [] && h.batch.id == v.id && b.SameJob(h.batch)
    ensures |Confirmed(h.batch.subroutine, h.trace)| ==
            if b.subroutine.Atomic? || v.index.None? then 0 else v.index.value
    ensures Cooling(h.batch.subroutine, h.trace, block) <==>
            b.retry.Some? && !b.retry.value.cooldown.IsExpired(block)
  {
    hide Count, Runs, Streak, HistoryOk, StalePending;
  }

  lemma AtomicRunMakes(p: ProcStore, b: MessageBatch, block: Block, result: SubMsgResult)
    requires Held(p, b) && b.subroutine.Atomic?
    requires b.retry.Some? ==> b.retry.value.cooldown.IsExpired(block)
    ensures var e := Ran(0, block, result.SubOk?);
            Makes(p, Reply(Log(p, b.id, e), b.id, result, block), b.id,
                  Happened(p.history[b.id], e, ErrorOf(result)))
  {
    hide IdOk, Select, HeldView, Dispatched, Reply, Happened, Makes;
    var h, v := p.history[b.id], ViewOf(p, b.id);
    var e := Ran(0, block, result.SubOk?);
    var p' := Log(p, b.id, e);
    HeldSays(v, h, b, block);
    HeldNoIndex(v, h, b);
    HeldDispatched(v, h, b, 0, block, result.SubOk?);
    assert ViewOf(p', b.id) == v.(history := Some(Extended(h, e)));
    ReplyMakes(p', h, b, e, result);
    MakesAfter(p, p', Reply(p', b.id, result, block), b.id, e, ErrorOf(result));
  }

  lemma FunctionRunMakes(p: ProcStore, b: MessageBatch, block: Block, outcome: SubMsgResult)
    requires Held(p, b) && b.subroutine.NonAtomic?
    requires b.retry.Some? ==> b.retry.value.cooldown.IsExpired(block)
    requires BuildError(b, IndexOf(p, b.id)).None?
    ensures var i := IndexOf(p, b.id);
            var e := Ran(i, block, outcome.SubOk?);
            Makes(p, Reply(Log(Dispatch(p, b, i), b.id, e), b.id, outcome, block), b.id,
                  Happened(p.history[b.id], e, ErrorOf(outcome)))
  {
    hide IdOk, Select, HeldView, Dispatched, Reply, Dispatch, Happened, Makes;
    var h, v, i := p.history[b.id], ViewOf(p, b.id), IndexOf(p, b.id);
    var e := Ran(i, block, outcome.SubOk?);
    var p1 := Dispatch(p, b, i);
    var p' := Log(p1, b.id, e);
    ViewDispatch(p, b, i);
    ViewLog(p1, b.id, e);
    HeldSays(v, h, b, block);
    HeldDispatched(v, h, b, i, block, outcome.SubOk?);
    ReplyMakes(p', h, b, e, outcome);
    MakesAfter(p, p', Reply(p', b.id, outcome, block), b.id, e, ErrorOf(outcome));
  }

  /** Nothing is dispatched: the batch is late, or it is too early for it. */
  lemma IdleMakes(p: ProcStore, b: MessageBatch, block: Block, outcome: SubMsgResult)
    requires Held(p, b)
    requires b.IsLate(block) || (b.retry.Some? && !b.retry.value.cooldown.IsExpired(block))
    ensures Makes(p, Process(p, b.priority, b, block, outcome), b.id, AfterTick(p.history[b.id], block, outcome))
  {
    hide HeldView, Conclude, Confirmed, Cooling, Reply;
    var h := p.history[b.id];
    HeldSays(ViewOf(p, b.id), h, b, block);
    ConcludeMakes(Forget(p, b.id), b.id, Expired(if b.subroutine.Atomic? then 0 else IndexOf(p, b.id)));
    assert p.history[b.id := h] == p.history;
  }

  lemma ProcessMakes(p: ProcStore, b: MessageBatch, block: Block, outcome: SubMsgResult)
    requires Held(p, b) && Process(p, b.priority, b, block, outcome).Done?
    ensures Makes(p, Process(p, b.priority, b, block, outcome), b.id, AfterTick(p.history[b.id], block, outcome))
  {
    hide HeldView, Reply, Conclude, Happened, Confirmed, Cooling, Makes, Log, Dispatch, Forget;
    HeldSays(ViewOf(p, b.id), p.history[b.id], b, block);
    if b.IsLate(block) || (b.retry.Some? && !b.retry.value.cooldown.IsExpired(block)) {
      IdleMakes(p, b, block, outcome);
    } else if b.subroutine.Atomic? {
      AtomicRunMakes(p, b, block, AtomicResult(b, outcome));
    } else {
      FunctionRunMakes(p, b, block, outcome);
    }
  }

  /** Every tick that succeeds does to the histories exactly what the reference does to the one of the batch
      in front, and reports what the reference reports. */
  lemma TickIs(p: ProcStore, block: Block, outcome: SubMsgResult)
    requires Inv(p) && Tick(p, block, outcome).Done?
    ensures InFront(p).Some? && InFront(p).value.id in p.history
    ensures Makes(p, Tick(p, block, outcome), InFront(p).value.id,
                  AfterTick(p.history[InFront(p).value.id], block, outcome))
  {
    hide InvBut, Held, Inv, Process, AfterTick;
    var from := NextQueue(p);
    var q := QueueOf(p, from);
    assert q[..0] + q[1..] == q[1..];
    Take(p, from, 0);
    ProcessMakes(SetQueue(p, from, q[1..]), q[0], block, outcome);
  }

  // ----- Library callbacks -----

  const WRONG_MESSAGE := "Invalid callback message received"

  /** What a callback of a library makes of the batch that waits for it. */
  function AfterCallback(h: History, sender: Addr, msg: Binary, block: Block): History {
    Happened(h, CalledBack(|Confirmed(h.batch.subroutine, h.trace)|, block, sender, msg), WRONG_MESSAGE)
  }

  /** A batch without a result that is in neither queue waits for a library, namely for this one. */
  predicate WaitsFor(h: History, sender: Addr) {
    h.reports == [] &&
    var callback := h.batch.subroutine.CallbackOf(|Confirmed(h.batch.subroutine, h.trace)|);
    callback.Some? && callback.value.address == sender
  }

  lemma ParkedSays(v: View, h: History)
    requires Underway(v, h) && IsParked(v, h)
    ensures h.batch.subroutine.NonAtomic? && v.index == Some(|Confirmed(h.batch.subroutine, h.trace)|)
    ensures v.pending.Some? && v.pending.value.batch.SameJob(h.batch) && h.batch.id == v.id
    ensures h.batch.subroutine.CallbackOf(v.index.value) == Some(v.pending.value.callback)
    ensures v.pending.value.batch.Retries() == Count(h.batch.subroutine, h.trace).queued
    ensures |Confirmed(h.batch.subroutine, h.trace)| < |h.batch.msgs|
  {
    hide HistoryOk, Confirmed, Count, Streak;
  }

  lemma NotQueuedSays(external: bool, v: View)
    requires IdOk(external, v) && v.high == [] && v.medium == []
    ensures match v.history
            case None => v.pending.None?
            case Some(h) => if h.reports == [] then Underway(v, h) && IsParked(v, h) else v.index.None?
  {
    hide HistoryOk, Underway, IsParked, Waiting, StalePending;
  }

  /** While its batch is in neither queue, a library is heard exactly when the batch waits for it, and then
      the histories change exactly as the reference says. */
  lemma CallbackIs(p: ProcStore, id: nat, sender: Addr, msg: Binary, block: Block)
    requires Inv(p) && InNoQueue(p, id)
    ensures LibraryCallback(p, id, sender, msg, block).Done? <==> id in p.history && WaitsFor(p.history[id], sender)
    ensures LibraryCallback(p, id, sender, msg, block).Done? ==>
              Makes(p, LibraryCallback(p, id, sender, msg, block), id, AfterCallback(p.history[id], sender, msg, block))
  {
    hide IdOk, Select, Underway, IsParked, LibraryCallback, Confirmed, Makes, AfterCallback, BatchFailed,
         FunctionSucceeded;
    var v := ViewOf(p, id);
    InvAt(p, id);
    NotQueuedSays(p.config.domain.OnExternal?, v);
    if id in p.history && p.history[id].reports == [] {
      ParkedSays(v, p.history[id]);
    }
    CallbackDone(p, id, sender, msg, block);
    if id in p.history && WaitsFor(p.history[id], sender) {
      HeardMakes(p, id, sender, msg, block);
    }
  }

  lemma CallbackDone(p: ProcStore, id: nat, sender: Addr, msg: Binary, block: Block)
    ensures LibraryCallback(p, id, sender, msg, block).Done? <==>
            id in p.pending && id in p.index && sender == p.pending[id].callback.address
  {
  }

  lemma HeardMakes(p: ProcStore, id: nat, sender: Addr, msg: Binary, block: Block)
    requires id in p.history && WaitsFor(p.history[id], sender)
    requires Underway(ViewOf(p, id), p.history[id]) && IsParked(ViewOf(p, id), p.history[id])
    ensures Makes(p, LibraryCallback(p, id, sender, msg, block), id, AfterCallback(p.history[id], sender, msg, block))
  {
    hide Select, Underway, IsParked, LibraryCallback, Confirmed, Count, Makes, Happened, BatchFailed, FunctionSucceeded;
    var h, v := p.history[id], ViewOf(p, id);
    ParkedSays(v, h);
    var pc := p.pending[id];
    var e := CalledBack(p.index[id], block, sender, msg);
    var p1 := DropPending(Log(p, id, e), id);
    CallbackResult(p, id, sender, msg, block);
    if msg != pc.callback.message {
      FailedMakes(p1, h, e, pc.batch, WRONG_MESSAGE);
    } else {
      SucceededMakes(p1, h, e, pc.batch, WRONG_MESSAGE);
    }
    MakesAfter(p, p1, LibraryCallback(p, id, sender, msg, block), id, e, WRONG_MESSAGE);
  }

  // ----- Orders -----

  /** `q` with `b` at position `k`: what was before it stays, what was behind it moves by one. */
  ghost predicate HasInserted(q: seq<MessageBatch>, q': seq<MessageBatch>, k: nat, b: MessageBatch) {
    && k <= |q| && |q'| == |q| + 1 && q'[k] == b
    && (forall i :: 0 <= i < k ==> q'[i] == q[i])
    && (forall i :: k <= i < |q| ==> q'[i + 1] == q[i])
  }

  function Other(priority: Priority): Priority { if priority.High? then Medium else High }

  /** An order with a batch: where in its queue it comes, if not at the end. */
  function Position(p: ProcStore, m: AuthorizationMsg): nat
    requires m.CarriesBatch()
  {
    if m.InsertMsgs? then m.position else |QueueOf(p, m.priority)|
  }

  /** The queue of the batch has it at position `k`, the other queue is as it was, and its history is new. */
  ghost predicate Queues(p: ProcStore, p': ProcStore, b: MessageBatch, k: nat) {
    && p'.history == p.history[b.id := History(b, [], [])]
    && HasInserted(QueueOf(p, b.priority), QueueOf(p', b.priority), k, b)
    && QueueOf(p', Other(b.priority)) == QueueOf(p, Other(b.priority))
  }

  lemma InsertedAt(q: seq<MessageBatch>, k: nat, b: MessageBatch)
    requires k <= |q|
    ensures HasInserted(q, q[..k] + [b] + q[k..], k, b)
  {
    var q' := q[..k] + [b] + q[k..];
    forall i | k <= i < |q|
      ensures q'[i + 1] == q[i]
    {
      assert q'[i + 1] == q[k..][i - k];
    }
  }

  /** The batch placed at position `k`. */
  lemma PlacedIs(p: ProcStore, b: MessageBatch, q': seq<MessageBatch>, k: nat)
    requires b.id !in p.history && HasInserted(QueueOf(p, b.priority), q', k, b)
    ensures Queues(p, SetQueue(Register(p, b), b.priority, q').(batches := p.batches[b.id := b]), b, k)
  {
    hide HasInserted;
  }

  lemma EnqueueIs(p: ProcStore, b: MessageBatch, block: Block)
    requires b.id !in p.history && !b.IsLate(block)
    ensures var o := Enqueue(p, b, block);
            o.Done? && o.report.None? && Queues(p, o.store, b, |QueueOf(p, b.priority)|)
  {
    hide HasInserted, Queues;
    var q := QueueOf(p, b.priority);
    InsertedAt(q, |q|, b);
    assert q[..|q|] + [b] + q[|q|..] == q + [b];
    PlacedIs(p, b, q + [b], |q|);
  }

  lemma InsertIs(p: ProcStore, k: nat, b: MessageBatch, block: Block)
    requires b.id !in p.history && !b.IsLate(block)
    ensures var o := Insert(p, k, b, block);
            && (o.Done? <==> k <= |QueueOf(p, b.priority)|)
            && (o.Done? ==> o.report.None? && Queues(p, o.store, b, k))
  {
    hide HasInserted, Queues;
    var q := QueueOf(p, b.priority);
    if k <= |q| {
      InsertedAt(q, k, b);
      PlacedIs(p, b, q[..k] + [b] + q[k..], k);
    }
  }

  lemma LateIs(p: ProcStore, b: MessageBatch)
    requires b.id !in p.history
    ensures var o := Conclude(Register(p, b), b.id, Expired(0));
            && o.Done? && o.report == Some(Report(b.id, Expired(0)))
            && o.store.history == p.history[b.id := History(b, [], [Expired(0)])]
            && o.store.high == p.high && o.store.medium == p.medium
  {
    hide Conclude;
    var q := Register(p, b);
    ConcludeStore(q, b.id, Expired(0));
    ConcludeKeepsQueues(q, b.id, Expired(0));
    assert q.history[b.id := History(b, [], [Expired(0)])] == p.history[b.id := History(b, [], [Expired(0)])];
  }

  /** A batch with a new id is reported at once if it is late. Otherwise it is queued, with its own
      priority, at the position asked for or at the end, unless there is no such position. */
  lemma OrderIs(p: ProcStore, m: AuthorizationMsg, block: Block)
    requires m.CarriesBatch() && m.id !in p.history
    ensures var o, b, k := Handle(p, m, block), m.Batch(), Position(p, m);
            if b.IsLate(block) then
              && o.Done? && o.report == Some(Report(m.id, Expired(0)))
              && o.store.history == p.history[m.id := History(b, [], [Expired(0)])]
              && o.store.high == p.high && o.store.medium == p.medium
            else
              && (o.Done? <==> k <= |QueueOf(p, m.priority)|)
              && (o.Done? ==> o.report.None? && Queues(p, o.store, b, k))
  {
    hide Conclude, Queues;
    var b := m.Batch();
    if b.IsLate(block) {
      LateIs(p, b);
    } else {
      hide Enqueue, Insert;
      EnqueueIs(p, b, block);
      InsertIs(p, Position(p, m), b, block);
    }
  }

  lemma ConcludeKeepsQueues(p: ProcStore, id: nat, r: ExecutionResult)
    ensures var o := Conclude(p, id, r); o.Done? && o.store.high == p.high && o.store.medium == p.medium
  {
  }

  /** Evicting position `k` takes exactly the batch there, leaves the others in their order, and reports it
      as removed; it fails exactly when there is no such position. */
  lemma EvictIs(p: ProcStore, k: nat, priority: Priority, block: Block)
    requires Inv(p)
    ensures var o, q := Handle(p, EvictMsgs(k, priority), block), QueueOf(p, priority);
            && (o.Done? <==> k < |q|)
            && (o.Done? ==>
                  && q[k].id in p.history
                  && Makes(p, o, q[k].id, p.history[q[k].id].(reports := [RemovedByOwner]))
                  && HasInserted(QueueOf(o.store, priority), q, k, q[k])
                  && QueueOf(o.store, Other(priority)) == QueueOf(p, Other(priority)))
  {
    hide Inv, Conclude, Held, InvBut, HasInserted;
    var q := QueueOf(p, priority);
    if k < |q| {
      Take(p, priority, k);
      var id := q[k].id;
      var p0 := SetQueue(p, priority, q[..k] + q[k + 1..]);
      HeldKnown(p0, q[k]);
      var p1 := Forget(p0, id).(pending := p.pending - {id});
      ConcludeMakes(p1, id, RemovedByOwner);
      ConcludeKeepsQueues(p1, id, RemovedByOwner);
      var rest := q[..k] + q[k + 1..];
      InsertedAt(rest, k, q[k]);
      assert rest[..k] + [q[k]] + rest[k..] == q;
    }
  }

  lemma HeldKnown(p: ProcStore, b: MessageBatch)
    requires Held(p, b)
    ensures b.id in p.history && p.history[b.id].reports == [] && p.history[b.id].batch.id == b.id
  {
    hide HistoryOk, Waiting, StalePending, Select;
  }
}
