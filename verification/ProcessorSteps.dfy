/** Every entry point of the processor keeps its invariant. */
module ProcessorSteps {
  import opened Types
  import opened ProcessorModel
  import opened ProcessorTrace
  import opened ProcessorInvariant

  ghost function External(p: ProcStore): bool { p.config.domain.OnExternal? }

  /** Pushing a copy that fits the rest of the view completes the invariant. */
  lemma RequeueKeeps(p: ProcStore, priority: Priority, b: MessageBatch)
    requires InvBut(p, b.id)
    requires ViewOf(p, b.id).Copies(priority) == []
    requires IdOk(External(p), ViewOf(p, b.id).WithCopies(priority, [b]))
    ensures Inv(PushBack(p, priority, b))
  {
    hide IdOk, ViewOf;
    ViewPushBack(p, priority, b);
    Patch(p, PushBack(p, priority, b), b.id);
  }

  // ----- Eviction, expiry and cooldown: the batch does not run -----

  lemma HeldRemovable(v: View, h: History, b: MessageBatch)
    requires HeldView(v, h, b)
    ensures var c := Confirmed(h.batch.subroutine, h.trace);
            && Exact(h.batch, h.trace, RemovedByOwner)
            && (h.batch.expirationTime.Some? ==> Exact(h.batch, h.trace, Expired(|c|)))
            && |c| == if b.subroutine.Atomic? || v.index.None? then 0 else v.index.value
  {
    hide Count, Runs, Streak, CooledDown, WithinLimits;
  }

  lemma EvictKeeps(p: ProcStore, position: nat, priority: Priority)
    requires Inv(p) && Evict(p, position, priority).Done?
    ensures Inv(Evict(p, position, priority).store)
  {
    hide IdOk, Select, HistoryOk, Exact, ViewOf, Conclude, Forget, Confirmed;
    Take(p, priority, position);
    var q := QueueOf(p, priority);
    var id := q[position].id;
    var p0 := SetQueue(p, priority, q[..position] + q[position + 1..]);
    var p1 := Forget(p0, id);
    var p2 := p1.(pending := p1.pending - {id});
    ViewForget(p0, id);
    ViewDropped(p1, id);
    FrameThen(p0, p1, p2, id);
    HeldRemovable(ViewOf(p0, id), p0.history[id], q[position]);
    InvButFrame(p0, p2, id);
    ForgetKeepsHistory(p0, id);
    ConcludeKeeps(p2, id, RemovedByOwner);
  }

  lemma ForgetKeepsHistory(p: ProcStore, id: nat)
    ensures Forget(p, id).history == p.history && Forget(p, id).pending == p.pending
  {
  }

  lemma LateHeldKeeps(p: ProcStore, b: MessageBatch)
    requires InvBut(p, b.id) && Held(p, b) && b.expirationTime.Some?
    ensures var n := if b.subroutine.Atomic? then 0 else IndexOf(p, b.id);
            Inv(Conclude(Forget(p, b.id), b.id, Expired(n)).store)
  {
    hide IdOk, Select, HistoryOk, Exact, Conclude, Forget, Confirmed;
    var p1 := Forget(p, b.id);
    ViewForget(p, b.id);
    HeldRemovable(ViewOf(p, b.id), p.history[b.id], b);
    InvButFrame(p, p1, b.id);
    ForgetKeepsHistory(p, b.id);
    ConcludeKeeps(p1, b.id, Expired(if b.subroutine.Atomic? then 0 else IndexOf(p, b.id)));
  }

  lemma HeldQueueable(external: bool, v: View, h: History, b: MessageBatch)
    requires HeldView(v, h, b)
    ensures IdOk(external, v.WithCopies(b.priority, [b]))
  {
    hide Count, Runs, Streak, CooledDown, WithinLimits, HistoryOk;
  }

  lemma CoolingKeeps(p: ProcStore, b: MessageBatch)
    requires InvBut(p, b.id) && Held(p, b)
    ensures Inv(PushBack(p, b.priority, b))
  {
    hide IdOk, HeldView, Select;
    HeldQueueable(External(p), ViewOf(p, b.id), p.history[b.id], b);
    assert ViewOf(p, b.id).Copies(b.priority) == [] by { HeldEmpty(ViewOf(p, b.id), p.history[b.id], b); }
    RequeueKeeps(p, b.priority, b);
  }

  lemma HeldEmpty(v: View, h: History, b: MessageBatch)
    requires HeldView(v, h, b)
    ensures v.high == [] && v.medium == []
  {
  }

  // ----- A dispatch and its reply -----

  /** The view of a batch whose current function has just been dispatched from the copy `b`:
      `h` is the history before the run `e`. */
  ghost predicate Dispatched(v: View, h: History, b: MessageBatch, e: Event) {
    var s, c := h.batch.subroutine, Confirmed(h.batch.subroutine, h.trace);
    && Ready(h) && HistoryOk(Extended(h, e)) && e.Ran? && e.index == |c|
    && v.history == Some(Extended(h, e)) && h.batch.id == v.id
    && v.high == [] && v.medium == [] && v.result.None?
    && v.batch.Some? && v.batch.value.SameJob(h.batch) && v.batch.value.Retries() == Count(s, h.trace).mapped
    && b.SameJob(h.batch) && b.Retries() == Count(s, h.trace).queued
    && (if s.Atomic? then v.index.None? && c == [] && v.pending.None?
        else && v.index == Some(|c|) && |c| < |h.batch.msgs| && |c| < |s.functions|
             && v.pending == (if s.CallbackOf(|c|).None? then None
                              else Some(PendingCallback(s.CallbackOf(|c|).value, b))))
  }

  /** The retry count a failure is judged by: a failed run by the map copy, a wrong callback by the
      copy that was dispatched. */
  function FailureCount(h: History, e: Event): nat {
    var c := Count(h.batch.subroutine, h.trace);
    if e.Ran? then c.mapped else c.queued
  }

  /** A batch that failed may be given up with the result the processor chooses. */
  lemma GivenUp(h: History, e: Event, r: ExecutionResult)
    requires h.reports == [] && HistoryOk(Extended(h, e)) && Fails(h.batch.subroutine, e)
    requires var c := Confirmed(h.batch.subroutine, h.trace);
             && |c| < h.batch.Size()
             && !Retriable(h.batch.subroutine, |c|, FailureCount(h, e))
             && (r.Rejected? ==> |c| == 0 || h.batch.subroutine.RetryOf(|c|).None?)
             && (r.PartiallyExecuted? ==> r.done == |c| > 0 && h.batch.subroutine.RetryOf(|c|).Some?)
             && (r.Rejected? || r.PartiallyExecuted?)
    ensures Exact(h.batch, Extended(h, e).trace, r)
  {
    hide Confirmed, Count, Runs, Streak, HistoryOk, Confirms;
    Append(h.batch.subroutine, h.trace, e);
    FailsNotConfirms(h.batch.subroutine, e);
    assert (h.trace + [e])[|h.trace|] == e;
  }

  lemma GiveUpKeeps(p: ProcStore, id: nat, h: History, e: Event, r: ExecutionResult)
    requires InvBut(p, id) && id in p.history && p.history[id] == Extended(h, e)
    requires h.reports == [] && HistoryOk(Extended(h, e))
    requires ViewOf(p, id).high == [] && ViewOf(p, id).medium == [] && ViewOf(p, id).result.None?
    requires Exact(h.batch, Extended(h, e).trace, r)
    ensures Inv(Conclude(Forget(p, id), id, r).store)
  {
    hide IdOk, Select, HistoryOk, Exact;
    var p1 := Forget(p, id);
    assert Frame(p, p1, id);
    InvButFrame(p, p1, id);
    ConcludeKeeps(p1, id, r);
  }

  /** After a failure the next copy waits for the interval of the failed function. */
  lemma PutBackOk(external: bool, v: View, h: History, e: Event, u: MessageBatch, rl: RetryLogic)
    requires Ready(h) || Awaiting(h.batch.subroutine, h.trace)
    requires h.reports == [] && HistoryOk(Extended(h, e)) && Fails(h.batch.subroutine, e)
    requires var s, c := h.batch.subroutine, Confirmed(h.batch.subroutine, h.trace);
             && e.index == |c| && s.RetryOf(|c|) == Some(rl) && u.SameJob(h.batch)
             && u.Retries() == FailureCount(h, e)
             && !Exhausted(rl, u.Retries())
             && (if s.Atomic? then v.index.None? && c == [] else v.index == Some(|c|) && |c| < |h.batch.msgs|)
             && StalePending(v, h)
    requires v.history == Some(Extended(h, e)) && h.batch.id == v.id && v.high == [] && v.medium == [] && v.result.None?
    ensures var u' := Retried(u, rl, e.at);
            IdOk(external, v.(batch := Some(u')).WithCopies(u.priority, [u']))
  {
    hide Confirmed, Count, Runs, Streak, HistoryOk, Confirms, Allowed;
    var s, t := h.batch.subroutine, h.trace;
    Append(s, t, e);
    assert (t + [e])[|t|] == e;
    assert !Confirms(s, e) by { FailsNotConfirms(s, e); }
  }

  lemma FailsNotConfirms(s: Subroutine, e: Event)
    requires Fails(s, e)
    ensures !Confirms(s, e)
  {
  }

  lemma PutBackKeeps(p: ProcStore, h: History, e: Event, u: MessageBatch, rl: RetryLogic)
    requires InvBut(p, u.id)
    requires ViewOf(p, u.id).high == [] && ViewOf(p, u.id).medium == []
    requires IdOk(External(p),
                  ViewOf(p, u.id).(batch := Some(Retried(u, rl, e.at))).WithCopies(u.priority, [Retried(u, rl, e.at)]))
    ensures Inv(PutBack(p, u, rl, e.at))
  {
    hide IdOk, Select;
    var u' := Retried(u, rl, e.at);
    var p1 := p.(batches := p.batches[u.id := u']);
    assert Frame(p, p1, u.id);
    InvButFrame(p, p1, u.id);
    RequeueKeeps(p1, u.priority, u');
    assert PutBack(p, u, rl, e.at) == PushBack(p1, u.priority, u');
  }

  /** Giving up or trying again, from the copy `u` whose count says how often it was retried. */
  lemma FailedKeeps(p: ProcStore, h: History, e: Event, u: MessageBatch, error: string)
    requires InvBut(p, u.id) && u.id in p.history && p.history[u.id] == Extended(h, e)
    requires Ready(h) || Awaiting(h.batch.subroutine, h.trace)
    requires h.reports == [] && HistoryOk(Extended(h, e)) && Fails(h.batch.subroutine, e)
    requires var s, c, v := h.batch.subroutine, Confirmed(h.batch.subroutine, h.trace), ViewOf(p, u.id);
             && e.index == |c| && u.SameJob(h.batch)
             && u.Retries() == FailureCount(h, e)
             && (if s.Atomic? then v.index.None? && c == [] else v.index == Some(|c|) && |c| < |h.batch.msgs|)
             && StalePending(v, h)
             && v.high == [] && v.medium == [] && v.result.None?
    ensures BatchFailed(p, u.id, u, error, e.at, e.index).Done?
    ensures Inv(BatchFailed(p, u.id, u, error, e.at, e.index).store)
  {
    hide IdOk, Select, HistoryOk, Exact, Confirmed, Count, Awaiting, Fails, Ready;
    var r := if e.index == 0 || u.subroutine.RetryOf(e.index).None? then Rejected(error)
             else PartiallyExecuted(e.index, error);
    match u.subroutine.RetryOf(e.index)
    case None =>
      GivenUp(h, e, r);
      GiveUpKeeps(p, u.id, h, e, r);
    case Some(rl) =>
      if Exhausted(rl, u.Retries()) {
        GivenUp(h, e, r);
        GiveUpKeeps(p, u.id, h, e, r);
      } else {
        PutBackOk(External(p), ViewOf(p, u.id), h, e, u, rl);
        PutBackKeeps(p, h, e, u, rl);
      }
  }

  /** The next function starts with a copy whose count is zero; the count in the map stays. */
  lemma NextOk(external: bool, v: View, h: History, e: Event, u: MessageBatch)
    requires h.reports == [] && HistoryOk(Extended(h, e)) && Confirms(h.batch.subroutine, e)
    requires h.batch.subroutine.NonAtomic? && u.SameJob(h.batch)
    requires var s, c := h.batch.subroutine, Confirmed(h.batch.subroutine, h.trace);
             && v.index == Some(|c| + 1) && |c| + 1 < |h.batch.msgs|
             && v.batch.Some? && v.batch.value.SameJob(h.batch) && v.batch.value.Retries() == Count(s, h.trace).mapped
    requires v.history == Some(Extended(h, e)) && h.batch.id == v.id && v.high == [] && v.medium == [] &&
             v.result.None? && v.pending.None?
    ensures IdOk(external, v.WithCopies(u.priority, [u.(retry := None)]))
  {
    hide Confirmed, Count, Runs, Streak, HistoryOk;
    var s, t := h.batch.subroutine, h.trace;
    Append(s, t, e);
    assert (t + [e])[|t|] == e;
    assert |Confirmed(s, t + [e])| == |Confirmed(s, t)| + 1;
  }

  lemma Completed(h: History, e: Event)
    requires Confirms(h.batch.subroutine, e) && |Confirmed(h.batch.subroutine, h.trace)| + 1 == h.batch.Size()
    ensures Exact(h.batch, Extended(h, e).trace, Success)
  {
    Append(h.batch.subroutine, h.trace, e);
  }

  lemma SucceededKeeps(p: ProcStore, h: History, e: Event, u: MessageBatch)
    requires InvBut(p, u.id) && u.id in p.history && p.history[u.id] == Extended(h, e)
    requires h.reports == [] && HistoryOk(Extended(h, e)) && Confirms(h.batch.subroutine, e)
    requires h.batch.subroutine.NonAtomic? && u.SameJob(h.batch)
    requires var s, c, v := h.batch.subroutine, Confirmed(h.batch.subroutine, h.trace), ViewOf(p, u.id);
             && e.index == |c| < |h.batch.msgs|
             && v.batch.Some? && v.batch.value.SameJob(h.batch) && v.batch.value.Retries() == Count(s, h.trace).mapped
             && v.high == [] && v.medium == [] && v.result.None? && v.pending.None?
    ensures FunctionSucceeded(p, e.index, u.id, u).Done?
    ensures Inv(FunctionSucceeded(p, e.index, u.id, u).store)
  {
    hide IdOk, Select, HistoryOk, Exact, Confirmed, Count, Confirms;
    var id := u.id;
    if e.index + 1 >= |u.msgs| {
      Completed(h, e);
      GiveUpKeeps(p, id, h, e, Success);
    } else {
      var p1 := p.(index := p.index[id := e.index + 1]);
      assert Frame(p, p1, id);
      InvButFrame(p, p1, id);
      NextOk(External(p1), ViewOf(p1, id), h, e, u);
      RequeueKeeps(p1, u.priority, u.(retry := None));
    }
  }

  lemma ParkedOk(external: bool, v: View, h: History, b: MessageBatch, e: Event)
    requires Dispatched(v, h, b, e) && e.ok && v.pending.Some?
    ensures IdOk(external, v)
  {
    hide Confirmed, Count, Runs, Streak, HistoryOk;
    var s, t := h.batch.subroutine, h.trace;
    Append(s, t, e);
    assert (t + [e])[|t|] == e;
  }

  lemma AtomicSuccess(h: History, b: MessageBatch, v: View, e: Event)
    requires Dispatched(v, h, b, e) && e.ok && h.batch.subroutine.Atomic?
    ensures Confirms(h.batch.subroutine, e)
    ensures Exact(h.batch, Extended(h, e).trace, Success)
  {
    hide HistoryOk, Ready, Count;
    Completed(h, e);
  }

  lemma ReplyOkKeeps(p: ProcStore, h: History, b: MessageBatch, e: Event)
    requires InvBut(p, b.id) && b.id in p.history
    requires Dispatched(ViewOf(p, b.id), h, b, e) && e.ok
    ensures Reply(p, b.id, SubOk, e.at).Done? && Inv(Reply(p, b.id, SubOk, e.at).store)
  {
    hide IdOk, Select, HistoryOk, Exact, Confirmed, Count, Streak;
    var id := b.id;
    var v := ViewOf(p, id);
    if id !in p.index {
      AtomicSuccess(h, b, v, e);
      ConcludeKeeps(p, id, Success);
    } else if id in p.pending {
      ParkedOk(External(p), v, h, b, e);
      Patch(p, p, id);
    } else {
      SucceededKeeps(p, h, e, p.batches[id]);
    }
  }

  lemma ReplyErrKeeps(p: ProcStore, h: History, b: MessageBatch, e: Event, error: string)
    requires InvBut(p, b.id) && b.id in p.history
    requires Dispatched(ViewOf(p, b.id), h, b, e) && !e.ok
    ensures Reply(p, b.id, SubErr(error), e.at).Done? && Inv(Reply(p, b.id, SubErr(error), e.at).store)
  {
    hide IdOk, Select, HistoryOk, Exact, Confirmed, Count, Streak;
    FailedKeeps(p, h, e, p.batches[b.id], error);
  }

  lemma ReplyKeeps(p: ProcStore, h: History, b: MessageBatch, e: Event, outcome: SubMsgResult)
    requires InvBut(p, b.id) && b.id in p.history
    requires Dispatched(ViewOf(p, b.id), h, b, e) && e.ok == outcome.SubOk?
    ensures Reply(p, b.id, outcome, e.at).Done? && Inv(Reply(p, b.id, outcome, e.at).store)
  {
    hide *;
    match outcome
    case SubOk => ReplyOkKeeps(p, h, b, e);
    case SubErr(error) => ReplyErrKeeps(p, h, b, e, error);
  }

  /** A held batch whose cooldown has passed is ready for function `i`. */
  lemma HeldReady(v: View, h: History, b: MessageBatch, i: nat, at: Block)
    requires HeldView(v, h, b)
    requires b.retry.Some? ==> b.retry.value.cooldown.IsExpired(at)
    requires i == if v.index.None? then 0 else v.index.value
    ensures Ready(h) && i == |Confirmed(h.batch.subroutine, h.trace)|
    ensures LastFailed(h.batch.subroutine, h.trace) ==>
              && i == h.trace[|h.trace| - 1].index
              && h.batch.subroutine.RetryOf(i).Some?
              && h.batch.subroutine.RetryOf(i).value.interval.After(h.trace[|h.trace| - 1].at).IsExpired(at)
  {
    hide HistoryOk, Runs, Count, Streak, Confirmed, LastFailed, Awaiting, StalePending, Allowed;
    NothingConfirmed(h.batch.subroutine);
  }

  lemma NothingConfirmed(s: Subroutine)
    ensures Confirmed(s, []) == []
  {
  }

  /** The view right after the dispatch of a held batch. */
  lemma HeldDispatched(v: View, h: History, b: MessageBatch, i: nat, at: Block, ok: bool)
    requires HeldView(v, h, b)
    requires b.retry.Some? ==> b.retry.value.cooldown.IsExpired(at)
    requires i == if v.index.None? then 0 else v.index.value
    requires HasAddress(b.subroutine, i) && (b.subroutine.NonAtomic? ==> i < |b.msgs|)
    ensures var cb := b.subroutine.CallbackOf(i);
            Dispatched(
              v.(history := Some(Extended(h, Ran(i, at, ok))),
                 index := if b.subroutine.Atomic? then None else Some(i),
                 pending := if cb.None? then v.pending else Some(PendingCallback(cb.value, b))),
              h, b, Ran(i, at, ok))
  {
    hide HistoryOk, Count, Streak, Confirmed, LastFailed, Awaiting, Ready, Allowed;
    HeldReady(v, h, b, i, at);
    RunExtends(h, Ran(i, at, ok));
  }

  lemma AtomicRunKeeps(p: ProcStore, b: MessageBatch, block: Block, result: SubMsgResult)
    requires InvBut(p, b.id) && Held(p, b) && b.subroutine.Atomic?
    requires b.retry.Some? ==> b.retry.value.cooldown.IsExpired(block)
    ensures var p' := Log(p, b.id, Ran(0, block, result.SubOk?));
            Reply(p', b.id, result, block).Done? && Inv(Reply(p', b.id, result, block).store)
  {
    hide IdOk, Select, HeldView, Dispatched, Reply;
    var h, v := p.history[b.id], ViewOf(p, b.id);
    var e := Ran(0, block, result.SubOk?);
    var p' := Log(p, b.id, e);
    assert Frame(p, p', b.id);
    InvButFrame(p, p', b.id);
    HeldNoIndex(v, h, b);
    HeldDispatched(v, h, b, 0, block, result.SubOk?);
    assert ViewOf(p', b.id) == v.(history := Some(Extended(h, e)));
    ReplyKeeps(p', h, b, e, result);
  }

  lemma HeldNoIndex(v: View, h: History, b: MessageBatch)
    requires HeldView(v, h, b) && b.subroutine.Atomic?
    ensures v.index.None?
  {
    hide HistoryOk, Count, Streak, Confirmed;
  }

  lemma FunctionRunKeeps(p: ProcStore, b: MessageBatch, block: Block, outcome: SubMsgResult)
    requires InvBut(p, b.id) && Held(p, b) && b.subroutine.NonAtomic?
    requires b.retry.Some? ==> b.retry.value.cooldown.IsExpired(block)
    requires BuildError(b, IndexOf(p, b.id)).None? && !b.IsLate(block)
    ensures Process(p, b.priority, b, block, outcome).Done? && Inv(Process(p, b.priority, b, block, outcome).store)
  {
    hide IdOk, Select, HeldView, Dispatched, Reply, Dispatch;
    var h, v, i := p.history[b.id], ViewOf(p, b.id), IndexOf(p, b.id);
    var e := Ran(i, block, outcome.SubOk?);
    var p1 := Dispatch(p, b, i);
    var p' := Log(p1, b.id, e);
    ViewDispatch(p, b, i);
    ViewLog(p1, b.id, e);
    FrameThen(p, p1, p', b.id);
    InvButFrame(p, p', b.id);
    HeldDispatched(v, h, b, i, block, outcome.SubOk?);
    ReplyKeeps(p', h, b, e, outcome);
  }

  lemma ProcessKeeps(p: ProcStore, b: MessageBatch, block: Block, outcome: SubMsgResult)
    requires InvBut(p, b.id) && Held(p, b)
    requires Process(p, b.priority, b, block, outcome).Done?
    ensures Inv(Process(p, b.priority, b, block, outcome).store)
  {
    hide InvBut, Held, Inv, Reply;
    if b.IsLate(block) {
      LateHeldKeeps(p, b);
    } else if b.retry.Some? && !b.retry.value.cooldown.IsExpired(block) {
      CoolingKeeps(p, b);
    } else if b.subroutine.Atomic? {
      AtomicRunKeeps(p, b, block, AtomicResult(b, outcome));
    } else {
      FunctionRunKeeps(p, b, block, outcome);
    }
  }

  lemma TickKeeps(p: ProcStore, block: Block, outcome: SubMsgResult)
    requires Inv(p) && Tick(p, block, outcome).Done?
    ensures Inv(Tick(p, block, outcome).store)
  {
    hide InvBut, Held, Inv, Process;
    var from := NextQueue(p);
    var q := QueueOf(p, from);
    assert q[..0] + q[1..] == q[1..];
    Take(p, from, 0);
    ProcessKeeps(SetQueue(p, from, q[1..]), q[0], block, outcome);
  }

  // ----- Library callbacks -----

  /** The batch is in neither queue. */
  ghost predicate InNoQueue(p: ProcStore, id: nat) {
    Select(p.high, id) == [] && Select(p.medium, id) == []
  }

  /** What the callback of a parked batch finds. */
  lemma ParkedFacts(v: View, h: History, e: Event)
    requires Underway(v, h) && IsParked(v, h)
    requires e.CalledBack? && e.index == v.index.value && e.sender == v.pending.value.callback.address
    ensures h.batch.subroutine.NonAtomic? && e.index == |Confirmed(h.batch.subroutine, h.trace)| < |h.batch.msgs|
    ensures HistoryOk(Extended(h, e))
    ensures if e.msg == v.pending.value.callback.message then Confirms(h.batch.subroutine, e)
            else Fails(h.batch.subroutine, e)
  {
    hide CooledDown, Runs, Count, WithinLimits, Streak, Confirmed;
    CallbackExtends(h, e);
  }

  lemma CallbackKeeps(p: ProcStore, id: nat, sender: Addr, msg: Binary, block: Block)
    requires Inv(p) && LibraryCallback(p, id, sender, msg, block).Done?
    requires id in p.history && p.history[id].reports == [] && Underway(ViewOf(p, id), p.history[id])
    requires IsParked(ViewOf(p, id), p.history[id])
    ensures Inv(LibraryCallback(p, id, sender, msg, block).store)
  {
    hide IdOk, Select, HistoryOk, Confirmed, Count, Streak, Confirms, Fails, Allowed, BatchFailed, FunctionSucceeded,
         LibraryCallback, Awaiting;
    CallbackUnderway(p, id, sender, msg, block);
    var h, pc := p.history[id], p.pending[id];
    var e := CalledBack(p.index[id], block, sender, msg);
    InvAt(p, id);
    ParkedFacts(ViewOf(p, id), h, e);
    var p1 := DropPending(Log(p, id, e), id);
    assert Frame(p, p1, id);
    InvButFrame(p, p1, id);
    if msg != pc.callback.message {
      FailedKeeps(p1, h, e, pc.batch, "Invalid callback message received");
    } else {
      SucceededKeeps(p1, h, e, pc.batch);
    }
    CallbackResult(p, id, sender, msg, block);
  }

  function DropPending(p: ProcStore, id: nat): ProcStore { p.(pending := p.pending - {id}) }

  lemma ConcludeDrop(p: ProcStore, id: nat, r: ExecutionResult)
    ensures RemovePending(Conclude(p, id, r), id) == Conclude(DropPending(p, id), id, r)
  {
  }

  lemma PushBackDrop(p: ProcStore, priority: Priority, b: MessageBatch, id: nat)
    ensures DropPending(PushBack(p, priority, b), id) == PushBack(DropPending(p, id), priority, b)
  {
  }

  lemma SucceededDrop(p: ProcStore, i: nat, id: nat, b: MessageBatch)
    ensures RemovePending(FunctionSucceeded(p, i, id, b), id) == FunctionSucceeded(DropPending(p, id), i, id, b)
  {
    hide Conclude, PushBack;
    ConcludeDrop(Forget(p, id), id, Success);
    PushBackDrop(p.(index := p.index[id := i + 1]), b.priority, b.(retry := None), id);
  }

  lemma FailedDrop(p: ProcStore, id: nat, b: MessageBatch, error: string, block: Block, i: nat)
    ensures RemovePending(BatchFailed(p, id, b, error, block, i), id) ==
            BatchFailed(DropPending(p, id), id, b, error, block, i)
  {
    hide Conclude, PushBack, Exhausted, Retried;
    ConcludeDrop(Forget(p, id), id, Rejected(error));
    ConcludeDrop(Forget(p, id), id, PartiallyExecuted(i, error));
    if b.subroutine.RetryOf(i).Some? {
      PushBackDrop(p, b.priority, Retried(b, b.subroutine.RetryOf(i).value, block), id);
    }
  }

  /** Dropping the pending entry last or first makes no difference. */
  lemma CallbackResult(p: ProcStore, id: nat, sender: Addr, msg: Binary, block: Block)
    requires id in p.pending && id in p.index && sender == p.pending[id].callback.address
    ensures var pc, i := p.pending[id], p.index[id];
            var p1 := DropPending(Log(p, id, CalledBack(i, block, sender, msg)), id);
            LibraryCallback(p, id, sender, msg, block) ==
              if msg != pc.callback.message
              then BatchFailed(p1, id, pc.batch, "Invalid callback message received", block, i)
              else FunctionSucceeded(p1, i, id, pc.batch)
  {
    hide BatchFailed, FunctionSucceeded, RemovePending, DropPending;
    var pc, i := p.pending[id], p.index[id];
    var p0 := Log(p, id, CalledBack(i, block, sender, msg));
    SucceededDrop(p0, i, id, pc.batch);
    FailedDrop(p0, id, pc.batch, "Invalid callback message received", block, i);
  }

  /** A batch is never in the queues twice, nor there once it is finished. */
  lemma CopiesBounded(external: bool, v: View)
    requires IdOk(external, v)
    ensures |v.high| + |v.medium| <= 1
    ensures v.history.Some? && v.history.value.reports != [] ==> |v.high| + |v.medium| == 0
  {
    hide HistoryOk, Underway, Waiting, StalePending, Awaiting, Count;
  }

  /** The batch `id` is unfinished and queued. */
  ghost predicate QueuedOnce(p: ProcStore, id: nat) {
    && id in p.history && p.history[id].reports == []
    && |Select(p.high, id)| + |Select(p.medium, id)| == 1
  }

  lemma PushBreaks(p: ProcStore, b: MessageBatch, p': ProcStore)
    requires QueuedOnce(p, b.id)
    requires var q := PushBack(p, b.priority, b); p'.high == q.high && p'.medium == q.medium
    ensures !Inv(p')
  {
    hide IdOk, Select;
    SelectConcat(QueueOf(p, b.priority), [b], b.id);
    SelectOne(b, b.id);
    if Inv(p') {
      CopiesBounded(External(p'), ViewOf(p', b.id));
    }
  }

  lemma ConcludeBreaks(p: ProcStore, id: nat, r: ExecutionResult)
    requires QueuedOnce(p, id)
    ensures !Inv(Conclude(p, id, r).store)
  {
    hide IdOk, Select;
    var p' := Conclude(p, id, r).store;
    if Inv(p') {
      CopiesBounded(External(p'), ViewOf(p', id));
    }
  }

  lemma SucceededBreaks(p: ProcStore, i: nat, b: MessageBatch)
    requires QueuedOnce(p, b.id)
    ensures !Inv(FunctionSucceeded(p, i, b.id, b).store)
  {
    hide Select, Inv, Conclude;
    if i + 1 >= |b.msgs| {
      ConcludeBreaks(Forget(p, b.id), b.id, Success);
    } else {
      PushBreaks(p, b.(retry := None), FunctionSucceeded(p, i, b.id, b).store);
    }
  }

  lemma FailedBreaks(p: ProcStore, b: MessageBatch, error: string, block: Block, i: nat)
    requires QueuedOnce(p, b.id)
    ensures !Inv(BatchFailed(p, b.id, b, error, block, i).store)
  {
    hide Select, Inv, Conclude, Retried;
    ConcludeBreaks(Forget(p, b.id), b.id, Rejected(error));
    ConcludeBreaks(Forget(p, b.id), b.id, PartiallyExecuted(i, error));
    match b.subroutine.RetryOf(i)
    case None =>
    case Some(rl) =>
      RetriedSame(b, rl, block);
      PushBreaks(p, Retried(b, rl, block), PutBack(p, b, rl, block));
  }

  lemma RetriedSame(b: MessageBatch, rl: RetryLogic, block: Block)
    ensures Retried(b, rl, block).SameJob(b)
  {
  }

  /** A pending entry left behind by a failed dispatch, used while the batch is queued again,
      finishes the batch or queues it once more while the first copy stays. */
  lemma CallbackBreaks(p: ProcStore, id: nat, sender: Addr, msg: Binary, block: Block)
    requires Inv(p) && LibraryCallback(p, id, sender, msg, block).Done?
    requires id in p.history && p.history[id].reports == [] && Underway(ViewOf(p, id), p.history[id])
    requires IsQueued(ViewOf(p, id), p.history[id])
    ensures !Inv(LibraryCallback(p, id, sender, msg, block).store)
  {
    hide HistoryOk, Confirmed, Count, Awaiting, LastFailed, Select, Inv, Waiting, Conclude, PushBack, Retried, Streak,
         LibraryCallback;
    CallbackUnderway(p, id, sender, msg, block);
    CallbackResult(p, id, sender, msg, block);
    var b, i := p.pending[id].batch, p.index[id];
    var p1 := DropPending(Log(p, id, CalledBack(i, block, sender, msg)), id);
    assert b.id == id;
    if msg == p.pending[id].callback.message {
      SucceededBreaks(p1, i, b);
    } else {
      FailedBreaks(p1, b, "Invalid callback message received", block, i);
    }
  }

  /** A library callback that is accepted keeps the invariant exactly when the batch is in neither
      queue. Otherwise the batch is finished while a copy stays in the queue: that copy makes every tick
      that reaches it fail, so ProtocolTicks.TickFailsIff is lost, and evicting it reports a second
      result, so ProtocolTheorems.OneResult is lost. ProcessorExamples.StaleCallback is such a run. */
  lemma CallbackKeepsIff(p: ProcStore, id: nat, sender: Addr, msg: Binary, block: Block)
    requires Inv(p) && LibraryCallback(p, id, sender, msg, block).Done?
    ensures Inv(LibraryCallback(p, id, sender, msg, block).store) <==> InNoQueue(p, id)
  {
    hide HistoryOk, Waiting, StalePending, Select, LibraryCallback, Inv, Underway;
    InvAt(p, id);
    CallbackUnderway(p, id, sender, msg, block);
    if InNoQueue(p, id) {
      CallbackKeeps(p, id, sender, msg, block);
    } else {
      CallbackBreaks(p, id, sender, msg, block);
    }
  }

  lemma CallbackUnderway(p: ProcStore, id: nat, sender: Addr, msg: Binary, block: Block)
    requires Inv(p) && LibraryCallback(p, id, sender, msg, block).Done?
    ensures id in p.pending && id in p.index && sender == p.pending[id].callback.address
    ensures id in p.history && p.history[id].reports == [] && Underway(ViewOf(p, id), p.history[id])
    ensures IsQueued(ViewOf(p, id), p.history[id]) || IsParked(ViewOf(p, id), p.history[id])
  {
    hide HistoryOk, Waiting, StalePending, Select, Count, Confirmed, Streak, BatchFailed, FunctionSucceeded;
    InvAt(p, id);
  }

  // ----- Results -----

  lemma RetryKeeps(p: ProcStore, id: nat)
    requires Inv(p) && RetryCallback(p, id).Done?
    ensures Inv(RetryCallback(p, id).store)
    ensures id in p.history && p.history[id].reports == [RetryCallback(p, id).report.value.result]
  {
    hide HistoryOk, Select, Count, Confirmed, Streak, IsQueued, IsParked;
    InvAt(p, id);
    var p' := RetryCallback(p, id).store;
    assert Frame(p, p', id);
    assert p.history[id].reports == [p.history[id].reports[0]];
    assert IdOk(External(p'), ViewOf(p', id));
    Patch(p, p', id);
  }

  lemma AckKeeps(p: ProcStore, id: nat, ack: Ack)
    requires Inv(p) && ResultAck(p, id, ack).Done?
    ensures Inv(ResultAck(p, id, ack).store)
  {
    hide HistoryOk, Select, Count, Confirmed, Streak, IsQueued, IsParked;
    InvAt(p, id);
    var p' := ResultAck(p, id, ack).store;
    assert Frame(p, p', id);
    assert IdOk(External(p'), ViewOf(p', id));
    Patch(p, p', id);
  }

  /** Pausing, resuming and everything about the proxy leave all views alone. */
  lemma ConfigKeeps(p: ProcStore, config: Config)
    requires Inv(p) && (config.domain.OnExternal? <==> p.config.domain.OnExternal?)
    ensures Inv(p.(config := config))
  {
    hide IdOk, Select;
    var p' := p.(config := config);
    assert forall o: nat :: ViewOf(p', o) == ViewOf(p, o);
  }

  lemma HandleKeeps(p: ProcStore, m: AuthorizationMsg, block: Block)
    requires Inv(p) && Handle(p, m, block).Done?
    requires m.CarriesBatch() ==> m.id !in p.history
    ensures Inv(Handle(p, m, block).store)
  {
    hide Inv, Enqueue, Insert, Evict;
    match m
    case EnqueueMsgs(_, _, _, _, _) => EnqueueKeeps(p, m.Batch(), block);
    case InsertMsgs(_, position, _, _, _, _) => InsertKeeps(p, position, m.Batch(), block);
    case EvictMsgs(position, priority) => EvictKeeps(p, position, priority);
    case Pause => ConfigKeeps(p, p.config.(paused := true));
    case Resume => ConfigKeeps(p, p.config.(paused := false));
  }

  lemma FreshKeeps(config: Config)
    ensures Inv(Fresh(config))
  {
    hide HistoryOk, Underway, IsQueued, IsParked, Finished;
    var p := Fresh(config);
    assert forall o: nat :: ViewOf(p, o) == Nothing(o);
  }

  // ----- A batch under an id that is known already -----

  /** An id without copies in the queues, an index or a second report: what a finished id looks like. */
  lemma FinishedShape(external: bool, v: View)
    requires IdOk(external, v) && v.history.Some? && v.history.value.reports != []
    ensures |v.history.value.reports| == 1 && v.high == [] && v.medium == [] && v.index.None?
  {
    hide HistoryOk;
  }

  lemma KnownLateBreaks(p: ProcStore, id: nat, r: ExecutionResult)
    requires Inv(p) && id in p.history
    ensures !Inv(Conclude(p, id, r).store)
  {
    hide IdOk, Select;
    var p' := Conclude(p, id, r).store;
    InvAt(p, id);
    var h := p.history[id];
    if Inv(p') {
      InvAt(p', id);
      FinishedShape(External(p'), ViewOf(p', id));
      UnfinishedShape(External(p), ViewOf(p, id));
    }
  }

  /** An unfinished id is queued, or has an index. */
  lemma UnfinishedShape(external: bool, v: View)
    requires IdOk(external, v)
    ensures v.history.Some? && v.history.value.reports == [] ==> |v.high| + |v.medium| == 1 || v.index.Some?
    ensures v.history.Some? && v.history.value.reports == [] && |v.high| + |v.medium| != 1 ==>
              Awaiting(v.history.value.batch.subroutine, v.history.value.trace)
  {
    hide HistoryOk, Underway, Waiting, StalePending, Awaiting, Count;
  }

  /** An id that waits for its library is in no queue. */
  lemma AwaitingShape(external: bool, v: View)
    requires IdOk(external, v) && v.history.Some? && v.history.value.reports == []
    requires Awaiting(v.history.value.batch.subroutine, v.history.value.trace)
    ensures v.high == [] && v.medium == []
  {
    hide HistoryOk, Underway, StalePending, Count;
  }

  lemma KnownPlacedBreaks(p: ProcStore, a: seq<MessageBatch>, b: MessageBatch, z: seq<MessageBatch>)
    requires Inv(p) && b.id in p.history && QueueOf(p, b.priority) == a + z
    ensures !Inv(SetQueue(p, b.priority, a + [b] + z).(batches := p.batches[b.id := b]))
  {
    hide IdOk, Select, Awaiting;
    var p' := SetQueue(p, b.priority, a + [b] + z).(batches := p.batches[b.id := b]);
    InvAt(p, b.id);
    SelectInside(a, b, z, b.id);
    var v, v' := ViewOf(p, b.id), ViewOf(p', b.id);
    assert |v'.high| + |v'.medium| == |v.high| + |v.medium| + 1;
    if Inv(p') {
      InvAt(p', b.id);
      CopiesBounded(External(p'), v');
      UnfinishedShape(External(p), v);
      if p.history[b.id].reports == [] {
        AwaitingShape(External(p'), v');
      }
    }
  }

  /** A batch that comes under a known id is accepted, and breaks the invariant. */
  lemma KnownBatchBreaks(p: ProcStore, order: AuthorizationMsg, block: Block)
    requires Inv(p) && order.CarriesBatch() && order.id in p.history && Handle(p, order, block).Done?
    ensures !Inv(Handle(p, order, block).store)
  {
    hide Inv, Conclude;
    var b := order.Batch();
    var q := QueueOf(p, b.priority);
    if b.IsLate(block) {
      KnownLateBreaks(p, b.id, Expired(0));
    } else if order.EnqueueMsgs? {
      assert q + [] == q && q + [b] + [] == q + [b];
      KnownPlacedBreaks(p, q, b, []);
    } else {
      assert q == q[..order.position] + q[order.position..];
      KnownPlacedBreaks(p, q[..order.position], b, q[order.position..]);
    }
  }

  // ----- Every call -----

  /** What the protocol around a processor has to guarantee: a batch comes under a new id, and a library
      calls back only for a batch in neither queue. */
  ghost predicate Welcome(p: ProcStore, input: Input) {
    && (input.Received? && input.order.CarriesBatch() ==> input.order.id !in p.history)
    && (input.LibraryCalled? ==> InNoQueue(p, input.id))
  }

  lemma WelcomeKeeps(p: ProcStore, input: Input, block: Block)
    requires Inv(p) && Welcome(p, input) && Serve(p, input, block).Done?
    ensures Inv(Serve(p, input, block).store)
  {
    hide Inv, Handle, Tick, LibraryCallback, RetryCallback, ResultAck, InNoQueue;
    match input
    case Received(order) => HandleKeeps(p, order, block);
    case Ticked(outcome) => TickKeeps(p, block, outcome);
    case LibraryCalled(id, sender, msg) => CallbackKeepsIff(p, id, sender, msg, block);
    case ResendAsked(id) => RetryKeeps(p, id);
    case ResultAcked(id, ack) => AckKeeps(p, id, ack);
    case ProxyAcked(ack) => ConfigKeeps(p, ProxyAck(p, ack).store.config);
    case ProxyRetried => ConfigKeeps(p, RetryBridgeCreation(p).store.config);
  }

  /** A call keeps the invariant exactly when it fails or is welcome. */
  lemma ServeKeepsIff(p: ProcStore, input: Input, block: Block)
    requires Inv(p)
    ensures Inv(Served(p, input, block)) <==> Serve(p, input, block).Reverted? || Welcome(p, input)
  {
    hide Inv, Handle, LibraryCallback, InNoQueue;
    if Serve(p, input, block).Done? {
      if Welcome(p, input) {
        WelcomeKeeps(p, input, block);
      } else if input.Received? {
        KnownBatchBreaks(p, input.order, block);
      } else {
        CallbackKeepsIff(p, input.id, input.sender, input.msg, block);
      }
    }
  }

  // ----- When a tick can fail -----

  /** The batch the next tick takes is due, but its message cannot be built. */
  ghost predicate Stuck(p: ProcStore, block: Block) {
    var q := QueueOf(p, NextQueue(p));
    && q != []
    && q[0].subroutine.NonAtomic?
    && !q[0].IsLate(block)
    && (q[0].retry.Some? ==> q[0].retry.value.cooldown.IsExpired(block))
    && BuildError(q[0], IndexOf(p, q[0].id)).Some?
  }

  lemma ProcessRevertsIff(p: ProcStore, b: MessageBatch, block: Block, outcome: SubMsgResult)
    requires InvBut(p, b.id) && Held(p, b)
    ensures Process(p, b.priority, b, block, outcome).Reverted? <==>
              && b.subroutine.NonAtomic? && !b.IsLate(block)
              && (b.retry.Some? ==> b.retry.value.cooldown.IsExpired(block))
              && BuildError(b, IndexOf(p, b.id)).Some?
  {
    hide InvBut, Held, Reply, BuildError;
    if !b.IsLate(block) && (b.retry.Some? ==> b.retry.value.cooldown.IsExpired(block)) {
      if b.subroutine.Atomic? {
        AtomicRunKeeps(p, b, block, AtomicResult(b, outcome));
      } else if BuildError(b, IndexOf(p, b.id)).None? {
        FunctionRunKeeps(p, b, block, outcome);
      }
    }
  }

  /** A tick fails only because the processor is paused, both queues are empty, or the message of
      the function that is due cannot be built. Loading the batch in the reply never fails. */
  lemma TickRevertsIff(p: ProcStore, block: Block, outcome: SubMsgResult)
    requires Inv(p)
    ensures Tick(p, block, outcome).Reverted? <==>
              p.config.paused || (p.high == [] && p.medium == []) || Stuck(p, block)
  {
    hide InvBut, Held, Inv, Process, BuildError;
    var from := NextQueue(p);
    var q := QueueOf(p, from);
    if q != [] {
      assert q[..0] + q[1..] == q[1..];
      Take(p, from, 0);
      ProcessRevertsIff(SetQueue(p, from, q[1..]), q[0], block, outcome);
    }
  }
}
