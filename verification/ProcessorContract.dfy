/** The processor as a contract that updates its storage in place. Every handler is proved against
    the step function of the model that describes it, and Execute says exactly when a call keeps the
    invariant of the store. Where a handler fails, the chain discards what it wrote, so only the error is
    promised then. */
module ProcessorContracts {
  import opened Types
  import opened QueueMaps
  import opened ProcessorModel
  import PI = ProcessorInvariant
  import PS = ProcessorSteps

  datatype Response = Sent(report: Option<Report>) | Refused(error: ProcError)

  /** What a tick leaves to do: nothing, or to run a submessage and reply to it. */
  datatype TickResponse =
    | Finished(report: Option<Report>)
    | Dispatched(batch: MessageBatch, index: nat)
    | TickFailed(error: ProcError)

  /** The handler did what the model says: it left the store `now`, or failed with the same error. */
  ghost predicate Does(o: Outcome, now: ProcStore, r: Response) {
    match r
    case Sent(report) => o == Done(now, report)
    case Refused(error) => o == Reverted(error)
  }

  /** How the submessage of a batch ends, if its messages would end like `outcome`. */
  function Submessage(b: MessageBatch, outcome: SubMsgResult): SubMsgResult {
    if b.subroutine.Atomic? then AtomicResult(b, outcome) else outcome
  }

  /** The first half of a tick left the store `now`, and whatever happens to the submessage it asks
      for, the reply to it completes the tick. */
  ghost predicate BeginsTick(was: ProcStore, block: Block, now: ProcStore, r: TickResponse) {
    forall outcome :: Completes(Tick(was, block, outcome), block, outcome, now, r)
  }

  ghost predicate BeginsBatch(was: ProcStore, from: Priority, b: MessageBatch, block: Block, now: ProcStore,
                              r: TickResponse) {
    forall outcome :: Completes(Process(was, from, b, block, outcome), block, outcome, now, r)
  }

  ghost predicate Completes(o: Outcome, block: Block, outcome: SubMsgResult, now: ProcStore, r: TickResponse) {
    match r
    case Finished(report) => o == Done(now, report)
    case Dispatched(b, i) =>
      var result := Submessage(b, outcome);
      o == Reply(Log(now, b.id, Ran(i, block, result.SubOk?)), b.id, result, block)
    case TickFailed(error) => o == Reverted(error)
  }

  lemma LateBatch(p: ProcStore, from: Priority, b: MessageBatch, block: Block, report: Report, now: ProcStore)
    requires b.IsLate(block)
    requires Conclude(Forget(p, b.id), b.id, Expired(if b.subroutine.Atomic? then 0 else IndexOf(p, b.id))) ==
             Done(now, Some(report))
    ensures BeginsBatch(p, from, b, block, now, Finished(Some(report)))
  {
    hide Conclude, Forget, Reply, Log;
  }

  lemma CoolingBatch(p: ProcStore, from: Priority, b: MessageBatch, block: Block)
    requires !b.IsLate(block) && b.retry.Some? && !b.retry.value.cooldown.IsExpired(block)
    ensures BeginsBatch(p, from, b, block, PushBack(p, from, b), Finished(None))
  {
    hide Conclude, Forget, Reply, Log, PushBack;
  }

  lemma AtomicBatch(p: ProcStore, from: Priority, b: MessageBatch, block: Block)
    requires !b.IsLate(block) && (b.retry.Some? ==> b.retry.value.cooldown.IsExpired(block)) && b.subroutine.Atomic?
    ensures BeginsBatch(p, from, b, block, p, Dispatched(b, 0))
  {
    hide Conclude, Forget, Reply, Log, PushBack, AtomicResult;
  }

  lemma FunctionBatch(p: ProcStore, from: Priority, b: MessageBatch, block: Block)
    requires !b.IsLate(block) && (b.retry.Some? ==> b.retry.value.cooldown.IsExpired(block)) && b.subroutine.NonAtomic?
    ensures var i := IndexOf(p, b.id);
            if BuildError(b, i).Some? then
              forall now :: BeginsBatch(p, from, b, block, now, TickFailed(BuildError(b, i).value))
            else BeginsBatch(p, from, b, block, Dispatch(p, b, i), Dispatched(b, i))
  {
    hide Conclude, Forget, Reply, Log, PushBack, Dispatch, BuildError;
  }

  lemma BuildsFunction(b: MessageBatch, i: nat)
    requires b.subroutine.NonAtomic? && BuildError(b, i).None?
    ensures i < |b.subroutine.functions|
  {
  }

  class Processor {
    var config: Config
    const high: QueueMap<MessageBatch>
    const medium: QueueMap<MessageBatch>
    var batches: map<nat, MessageBatch>
    var index: map<nat, nat>
    var pending: map<nat, PendingCallback>
    var results: map<nat, ResultInfo>
    ghost var history: map<nat, History>

    ghost predicate Valid()
      reads this, high, medium
    {
      high != medium && high.Valid() && medium.Valid()
    }

    ghost function Store(): ProcStore
      reads this, high, medium
      requires Valid()
    {
      ProcStore(config, high.Contents(), medium.Contents(), batches, index, pending, results, history)
    }

    /** An external processor starts by asking for its proxy on the main domain. */
    constructor (external: bool)
      ensures Valid() && fresh(high) && fresh(medium)
      ensures Store() == Fresh(Config(if external then OnExternal(ProxyPending) else OnMain, false))
    {
      config := Config(if external then OnExternal(ProxyPending) else OnMain, false);
      high := new QueueMap();
      medium := new QueueMap();
      batches, index, pending, results, history := map[], map[], map[], map[], map[];
    }

    method QueueFor(priority: Priority) returns (q: QueueMap<MessageBatch>)
      ensures q == if priority.High? then high else medium
    {
      q := if priority.High? then high else medium;
    }

    // ----- Results -----

    method CreateCallbackMessage(id: nat, result: ExecutionResult) returns (report: Report)
      requires Valid()
      modifies this
      ensures Valid() && Conclude(old(Store()), id, result) == Done(Store(), Some(report))
    {
      if config.domain.OnExternal? {
        results := results[id := ResultInfo(result, Pending)];
      }
      if id in history {
        history := history[id := history[id].(reports := history[id].reports + [result])];
      }
      report := Report(id, result);
    }

    method CleanUp(id: nat)
      requires Valid()
      modifies this
      ensures Valid() && Store() == Forget(old(Store()), id)
    {
      index := index - {id};
      batches := batches - {id};
    }

    method Finish(id: nat, result: ExecutionResult) returns (report: Report)
      requires Valid()
      modifies this
      ensures Valid() && Conclude(Forget(old(Store()), id), id, result) == Done(Store(), Some(report))
    {
      report := CreateCallbackMessage(id, result);
      CleanUp(id);
    }

    method PutBackIntoQueue(batch: MessageBatch, retry: RetryLogic, block: Block)
      requires Valid()
      modifies this, high, medium
      ensures Valid() && Store() == PutBack(old(Store()), batch, retry, block)
    {
      var again := batch.(retry := Some(CurrentRetry(batch.Retries() + 1, retry.interval.After(block))));
      var q := QueueFor(again.priority);
      q.PushBack(again);
      batches := batches[again.id := again];
    }

    method HandleSuccessfulNonAtomic(i: nat, id: nat, batch: MessageBatch) returns (report: Option<Report>)
      requires Valid()
      modifies this, high, medium
      ensures Valid() && FunctionSucceeded(old(Store()), i, id, batch) == Done(Store(), report)
    {
      hide Conclude, Forget;
      if i + 1 >= |batch.msgs| {
        var sent := Finish(id, Success);
        report := Some(sent);
      } else {
        index := index[id := i + 1];
        var q := QueueFor(batch.priority);
        q.PushBack(batch.(retry := None));
        report := None;
      }
    }

    method HandleUnsuccessful(id: nat, batch: MessageBatch, error: string, block: Block, i: nat)
      returns (report: Option<Report>)
      requires Valid()
      modifies this, high, medium
      ensures Valid() && BatchFailed(old(Store()), id, batch, error, block, i) == Done(Store(), report)
    {
      hide Conclude, Forget, PutBack;
      match batch.subroutine.RetryOf(i)
      case Some(retry) =>
        if retry.times.Amount? && batch.Retries() >= retry.times.times {
          var sent := Finish(id, if i == 0 then Rejected(error) else PartiallyExecuted(i, error));
          report := Some(sent);
        } else {
          PutBackIntoQueue(batch, retry, block);
          report := None;
        }
      case None =>
        var sent := Finish(id, Rejected(error));
        report := Some(sent);
    }

    // ----- Messages from the authorization contract -----

    /** Notes a batch in the history; nothing in the contract depends on it. */
    ghost method Note(batch: MessageBatch)
      requires Valid()
      modifies this`history
      ensures Valid() && Store() == Register(old(Store()), batch)
    {
      if batch.id !in history {
        history := history[batch.id := History(batch, [], [])];
      }
    }

    method EnqueueMessages(batch: MessageBatch, block: Block) returns (r: Response)
      requires Valid()
      modifies this, high, medium
      ensures Valid() && Does(Enqueue(old(Store()), batch, block), Store(), r)
    {
      Note(batch);
      if batch.expirationTime.Some? && batch.expirationTime.value < block.Seconds() {
        var sent := CreateCallbackMessage(batch.id, Expired(0));
        return Sent(Some(sent));
      }
      var q := QueueFor(batch.priority);
      q.PushBack(batch);
      batches := batches[batch.id := batch];
      r := Sent(None);
    }

    method InsertMessages(position: nat, batch: MessageBatch, block: Block) returns (r: Response)
      requires Valid()
      modifies this, high, medium
      ensures Valid() && Does(Insert(old(Store()), position, batch, block), Store(), r)
    {
      Note(batch);
      if batch.expirationTime.Some? && batch.expirationTime.value < block.Seconds() {
        var sent := CreateCallbackMessage(batch.id, Expired(0));
        return Sent(Some(sent));
      }
      var q := QueueFor(batch.priority);
      var ok := q.InsertAt(position, batch);
      if !ok {
        return Refused(OutOfBounds);
      }
      batches := batches[batch.id := batch];
      r := Sent(None);
    }

    method EvictMessages(position: nat, priority: Priority) returns (r: Response)
      requires Valid()
      modifies this, high, medium
      ensures Valid() && Does(Evict(old(Store()), position, priority), Store(), r)
    {
      hide Conclude;
      ghost var was := Store();
      var q := QueueFor(priority);
      var batch := q.RemoveAt(position);
      if batch.None? {
        return Refused(OutOfBounds);
      }
      assert Store() == SetQueue(was, priority, q.Contents());
      CleanUp(batch.value.id);
      pending := pending - {batch.value.id};
      var sent := CreateCallbackMessage(batch.value.id, RemovedByOwner);
      r := Sent(Some(sent));
    }

    method SetPaused(paused: bool)
      requires Valid()
      modifies this`config
      ensures Valid() && Store() == old(Store()).(config := old(config).(paused := paused))
    {
      config := config.(paused := paused);
    }

    // ----- A tick and the reply to its submessage -----

    method ProcessTick(block: Block) returns (r: TickResponse)
      requires Valid()
      modifies this, high, medium
      ensures Valid() && BeginsTick(old(Store()), block, Store(), r)
    {
      hide Process, Reply, Log;
      if config.paused {
        return TickFailed(ProcessorPaused);
      }
      var from, q := High, high;
      var n := q.Len();
      if n == 0 {
        from, q := Medium, medium;
      }
      var front := q.PopFront();
      if front.None? {
        return TickFailed(NoMessagesToProcess);
      }
      var batch := front.value;
      r := ProcessBatch(q, batch, block);
    }

    method ProcessBatch(q: QueueMap<MessageBatch>, batch: MessageBatch, block: Block) returns (r: TickResponse)
      requires Valid() && (q == high || q == medium)
      modifies this, high, medium
      ensures Valid() && BeginsBatch(old(Store()), if q == high then High else Medium, batch, block, Store(), r)
    {
      hide Process, Conclude, Forget, BeginsBatch, BuildError;
      ghost var was, from := Store(), if q == high then High else Medium;
      if batch.expirationTime.Some? && batch.expirationTime.value < block.Seconds() {
        var done := if batch.subroutine.NonAtomic? && batch.id in index then index[batch.id] else 0;
        CleanUp(batch.id);
        var sent := CreateCallbackMessage(batch.id, Expired(done));
        LateBatch(was, from, batch, block, sent, Store());
        return Finished(Some(sent));
      }
      if batch.retry.Some? && !batch.retry.value.cooldown.IsExpired(block) {
        q.PushBack(batch);
        CoolingBatch(was, from, batch, block);
        return Finished(None);
      }
      match batch.subroutine
      case Atomic(_, _, _) =>
        AtomicBatch(was, from, batch, block);
        return Dispatched(batch, 0);
      case NonAtomic(functions, _) =>
        FunctionBatch(was, from, batch, block);
        var i := 0;
        if batch.id in index {
          i := index[batch.id];
        } else {
          index := index[batch.id := 0];
        }
        var error := BuildError(batch, i);
        if error.Some? {
          return TickFailed(error.value);
        }
        BuildsFunction(batch, i);
        if functions[i].callback.Some? {
          pending := pending[batch.id := PendingCallback(functions[i].callback.value, batch)];
        }
        assert index == was.index[batch.id := i];
        return Dispatched(batch, i);
    }

    /** The reply to the submessage of the batch `id`. */
    method HandleReply(id: nat, outcome: SubMsgResult, block: Block) returns (r: Response)
      requires Valid()
      modifies this, high, medium
      ensures Valid() && Does(Reply(old(Store()), id, outcome, block), Store(), r)
    {
      hide Conclude, FunctionSucceeded, BatchFailed;
      if id !in batches {
        return Refused(NotFound);
      }
      var batch, report := batches[id], None;
      if id in index {
        match outcome
        case SubOk =>
          if id !in pending {
            report := HandleSuccessfulNonAtomic(index[id], id, batch);
          }
        case SubErr(error) =>
          report := HandleUnsuccessful(id, batch, error, block, index[id]);
      } else {
        match outcome
        case SubOk =>
          var sent := CreateCallbackMessage(id, Success);
          report := Some(sent);
        case SubErr(error) =>
          report := HandleUnsuccessful(id, batch, error, block, 0);
      }
      r := Sent(report);
    }

    /** Notes what a submessage did; nothing in the contract depends on it. */
    ghost method Witness(id: nat, e: Event)
      requires Valid()
      modifies this`history
      ensures Valid() && Store() == Log(old(Store()), id, e)
    {
      if id in history {
        history := history[id := history[id].(trace := history[id].trace + [e])];
      }
    }

    /** The whole transaction: the tick, the submessage, whose effects are kept only if it succeeds,
        and the reply. */
    method TickTransaction(block: Block, outcome: SubMsgResult) returns (r: Response)
      requires Valid()
      modifies this, high, medium
      ensures Valid() && Does(Tick(old(Store()), block, outcome), Store(), r)
    {
      hide Tick, Reply, Log;
      ghost var was := Store();
      var begun := ProcessTick(block);
      assert Completes(Tick(was, block, outcome), block, outcome, Store(), begun);
      match begun
      case Finished(report) => r := Sent(report);
      case TickFailed(error) => r := Refused(error);
      case Dispatched(batch, i) =>
        var result := Submessage(batch, outcome);
        Witness(batch.id, Ran(i, block, result.SubOk?));
        r := HandleReply(batch.id, result, block);
    }

    // ----- Callbacks -----

    method ProcessCallback(id: nat, sender: Addr, msg: Binary, block: Block) returns (r: Response)
      requires Valid()
      modifies this, high, medium
      ensures Valid() && Does(LibraryCallback(old(Store()), id, sender, msg, block), Store(), r)
    {
      hide FunctionSucceeded, BatchFailed;
      if id !in pending {
        return Refused(PendingCallbackNotFound);
      }
      var waiting := pending[id];
      if sender != waiting.callback.address {
        return Refused(InvalidCallbackSender);
      }
      if id !in index {
        return Refused(NotFound);
      }
      var i, report := index[id], None;
      Witness(id, CalledBack(i, block, sender, msg));
      if msg != waiting.callback.message {
        report := HandleUnsuccessful(id, waiting.batch, "Invalid callback message received", block, i);
      } else {
        report := HandleSuccessfulNonAtomic(i, id, waiting.batch);
      }
      pending := pending - {id};
      r := Sent(report);
    }

    method RetrySending(id: nat) returns (r: Response)
      requires Valid()
      modifies this`results
      ensures Valid() && Does(RetryCallback(old(Store()), id), Store(), r)
    {
      if id !in results {
        return Refused(ResultNotFound);
      }
      if !results[id].state.TimedOut? {
        return Refused(StillPending);
      }
      r := Sent(Some(Report(id, results[id].result)));
      if config.domain.OnExternal? {
        results := results[id := ResultInfo(results[id].result, Pending)];
      }
    }

    /** The bridge tells how the packet with the result of `id` ended. */
    method ResultCallback(id: nat, ack: Ack) returns (r: Response)
      requires Valid()
      modifies this`results
      ensures Valid() && Does(ResultAck(old(Store()), id, ack), Store(), r)
    {
      if config.domain.OnMain? {
        return Refused(NotExternalDomain);
      }
      match ack {
        case AckOk =>
          results := results - {id};
        case AckError(error) =>
          if id !in results {
            return Refused(ResultNotFound);
          }
          results := results[id := results[id].(state := if error == TIMEOUT then TimedOut else Failed(error))];
        case AckFatal(error) =>
          if id !in results {
            return Refused(ResultNotFound);
          }
          results := results[id := results[id].(state := Failed(error))];
      }
      r := Sent(None);
    }

    /** The bridge tells how the packet that creates the proxy ended. */
    method ProxyCallback(ack: Ack) returns (r: Response)
      requires Valid()
      modifies this`config
      ensures Valid() && Does(ProxyAck(old(Store()), ack), Store(), r)
    {
      if config.domain.OnMain? {
        return Refused(NotExternalDomain);
      }
      match ack {
        case AckOk =>
          config := config.(domain := OnExternal(ProxyCreated));
        case AckError(error) =>
          config := config.(domain := OnExternal(if error == TIMEOUT then ProxyTimedOut else ProxyCreated));
        case AckFatal(error) =>
          config := config.(domain := OnExternal(ProxyError(error)));
      }
      r := Sent(None);
    }

    method RetryProxy() returns (r: Response)
      requires Valid()
      modifies this`config
      ensures Valid() && Does(RetryBridgeCreation(old(Store())), Store(), r)
    {
      if config.domain.OnMain? {
        return Refused(NotExternalDomain);
      }
      if !config.domain.proxy.ProxyTimedOut? {
        return Refused(NotRetriable);
      }
      config := config.(domain := OnExternal(ProxyPending));
      r := Sent(None);
    }

    /** Any call, as the chain would make it. */
    method Execute(input: Input, block: Block) returns (r: Response)
      requires Valid()
      modifies this, high, medium
      ensures Valid() && Does(Serve(old(Store()), input, block), Store(), r)
      ensures PI.Inv(old(Store())) && r.Sent? ==> (PI.Inv(Store()) <==> PS.Welcome(old(Store()), input))
    {
      hide Tick, LibraryCallback, RetryCallback, ResultAck, ProxyAck, RetryBridgeCreation, Handle, PI.Inv, PS.Welcome;
      ghost var was := Store();
      match input {
        case Received(order) => r := ObeyOrder(order, block);
        case Ticked(outcome) => r := TickTransaction(block, outcome);
        case LibraryCalled(id, sender, msg) => r := ProcessCallback(id, sender, msg, block);
        case ResendAsked(id) => r := RetrySending(id);
        case ResultAcked(id, ack) => r := ResultCallback(id, ack);
        case ProxyAcked(ack) => r := ProxyCallback(ack);
        case ProxyRetried => r := RetryProxy();
      }
      if PI.Inv(was) {
        PS.ServeKeepsIff(was, input, block);
      }
    }

    method ObeyOrder(order: AuthorizationMsg, block: Block) returns (r: Response)
      requires Valid()
      modifies this, high, medium
      ensures Valid() && Does(Handle(old(Store()), order, block), Store(), r)
    {
      hide Enqueue, Insert, Evict;
      match order
      case EnqueueMsgs(_, _, _, _, _) => r := EnqueueMessages(order.Batch(), block);
      case InsertMsgs(_, position, _, _, _, _) => r := InsertMessages(position, order.Batch(), block);
      case EvictMsgs(position, priority) => r := EvictMessages(position, priority);
      case Pause => SetPaused(true); r := Sent(None);
      case Resume => SetPaused(false); r := Sent(None);
    }
  }
}
