/** The processor as a function of its store. Each entry point maps a store to the store it
    leaves and the result it reports, or reverts. A tick, the submessage it dispatches and the
    reply to that submessage are one transaction and so one step.

    The store carries one history variable, `history`: for every execution id ever handed to the
    processor, the batch as delivered, what the outside world did with it, and the final results
    the processor produced for it. No entry point reads it. */
module ProcessorModel {
  import opened Types

  datatype ProcessorDomain = OnMain | OnExternal(proxy: ProxyState)
  datatype Config = Config(domain: ProcessorDomain, paused: bool)

  datatype PendingCallback = PendingCallback(callback: FunctionCallback, batch: MessageBatch)

  datatype SendState = Pending | TimedOut | Failed(error: string)
  datatype ResultInfo = ResultInfo(result: ExecutionResult, state: SendState)

  /** What the world outside the processor did for one execution id. */
  datatype Event =
    | Ran(index: nat, at: Block, ok: bool)
    | CalledBack(index: nat, at: Block, sender: Addr, msg: Binary)

  datatype History = History(batch: MessageBatch, trace: seq<Event>, reports: seq<ExecutionResult>)

  datatype ProcStore = ProcStore(
    config: Config,
    high: seq<MessageBatch>,
    medium: seq<MessageBatch>,
    batches: map<nat, MessageBatch>,
    index: map<nat, nat>,
    pending: map<nat, PendingCallback>,
    results: map<nat, ResultInfo>,
    history: map<nat, History>)

  /** A result on its way to the authorization contract. */
  datatype Report = Report(id: nat, result: ExecutionResult)

  datatype ProcError =
    | ProcessorPaused | NoMessagesToProcess | OutOfBounds | NotFound | Panicked | NotSupported
    | PendingCallbackNotFound | InvalidCallbackSender | ResultNotFound | StillPending
    | NotExternalDomain | NotRetriable

  datatype Outcome = Done(store: ProcStore, report: Option<Report>) | Reverted(error: ProcError)

  datatype SubMsgResult = SubOk | SubErr(error: string)

  function Fresh(config: Config): ProcStore {
    ProcStore(config, [], [], map[], map[], map[], map[], map[])
  }

  function QueueOf(p: ProcStore, priority: Priority): seq<MessageBatch> {
    if priority.High? then p.high else p.medium
  }

  function SetQueue(p: ProcStore, priority: Priority, q: seq<MessageBatch>): ProcStore {
    if priority.High? then p.(high := q) else p.(medium := q)
  }

  function PushBack(p: ProcStore, priority: Priority, b: MessageBatch): ProcStore {
    SetQueue(p, priority, QueueOf(p, priority) + [b])
  }

  function Register(p: ProcStore, b: MessageBatch): ProcStore {
    if b.id in p.history then p else p.(history := p.history[b.id := History(b, [], [])])
  }

  function Log(p: ProcStore, id: nat, e: Event): ProcStore {
    if id !in p.history then p
    else p.(history := p.history[id := p.history[id].(trace := p.history[id].trace + [e])])
  }

  /** An external processor remembers the result it sent, so that it can be sent again. */
  function SendResult(p: ProcStore, id: nat, r: ExecutionResult): ProcStore {
    if p.config.domain.OnMain? then p else p.(results := p.results[id := ResultInfo(r, Pending)])
  }

  function Reported(p: ProcStore, id: nat, r: ExecutionResult): ProcStore {
    if id !in p.history then p
    else p.(history := p.history[id := p.history[id].(reports := p.history[id].reports + [r])])
  }

  function Conclude(p: ProcStore, id: nat, r: ExecutionResult): Outcome {
    Done(Reported(SendResult(p, id, r), id, r), Some(Report(id, r)))
  }

  function Forget(p: ProcStore, id: nat): ProcStore {
    p.(index := p.index - {id}, batches := p.batches - {id})
  }

  function Enqueue(p: ProcStore, b: MessageBatch, block: Block): Outcome {
    var p1 := Register(p, b);
    if b.IsLate(block) then Conclude(p1, b.id, Expired(0))
    else Done(PushBack(p1, b.priority, b).(batches := p.batches[b.id := b]), None)
  }

  function Insert(p: ProcStore, position: nat, b: MessageBatch, block: Block): Outcome {
    var p1 := Register(p, b);
    var q := QueueOf(p, b.priority);
    if b.IsLate(block) then Conclude(p1, b.id, Expired(0))
    else if position > |q| then Reverted(OutOfBounds)
    else Done(SetQueue(p1, b.priority, q[..position] + [b] + q[position..]).(batches := p.batches[b.id := b]), None)
  }

  function Evict(p: ProcStore, position: nat, priority: Priority): Outcome {
    var q := QueueOf(p, priority);
    if position >= |q| then Reverted(OutOfBounds)
    else
      var id := q[position].id;
      var p1 := Forget(SetQueue(p, priority, q[..position] + q[position + 1..]), id);
      Conclude(p1.(pending := p.pending - {id}), id, RemovedByOwner)
  }

  function Handle(p: ProcStore, m: AuthorizationMsg, block: Block): Outcome {
    match m
    case EnqueueMsgs(_, _, _, _, _) => Enqueue(p, m.Batch(), block)
    case InsertMsgs(_, position, _, _, _, _) => Insert(p, position, m.Batch(), block)
    case EvictMsgs(position, priority) => Evict(p, position, priority)
    case Pause => Done(p.(config := p.config.(paused := true)), None)
    case Resume => Done(p.(config := p.config.(paused := false)), None)
  }

  /** Where the retry count of `b` goes up by one and its cooldown starts now. */
  function Retried(b: MessageBatch, rl: RetryLogic, block: Block): MessageBatch {
    b.(retry := Some(CurrentRetry(b.Retries() + 1, rl.interval.After(block))))
  }

  function PutBack(p: ProcStore, b: MessageBatch, rl: RetryLogic, block: Block): ProcStore {
    var b' := Retried(b, rl, block);
    PushBack(p, b.priority, b').(batches := p.batches[b.id := b'])
  }

  function FunctionSucceeded(p: ProcStore, i: nat, id: nat, b: MessageBatch): Outcome {
    if i + 1 >= |b.msgs| then Conclude(Forget(p, id), id, Success)
    else Done(PushBack(p.(index := p.index[id := i + 1]), b.priority, b.(retry := None)), None)
  }

  predicate Exhausted(rl: RetryLogic, used: nat) {
    rl.times.Amount? && used >= rl.times.times
  }

  function BatchFailed(p: ProcStore, id: nat, b: MessageBatch, error: string, block: Block, i: nat): Outcome {
    match b.subroutine.RetryOf(i)
    case None => Conclude(Forget(p, id), id, Rejected(error))
    case Some(rl) =>
      if Exhausted(rl, b.Retries())
      then Conclude(Forget(p, id), id, if i == 0 then Rejected(error) else PartiallyExecuted(i, error))
      else Done(PutBack(p, b, rl, block), None)
  }

  /** The reply to the submessage a tick dispatched. An id without a function index is atomic. */
  function Reply(p: ProcStore, id: nat, outcome: SubMsgResult, block: Block): Outcome {
    if id !in p.batches then Reverted(NotFound)
    else
      var b := p.batches[id];
      match outcome
      case SubErr(error) => BatchFailed(p, id, b, error, block, if id in p.index then p.index[id] else 0)
      case SubOk =>
        if id !in p.index then Conclude(p, id, Success)
        else if id in p.pending then Done(p, None)
        else FunctionSucceeded(p, p.index[id], id, b)
  }

  /** Building the messages of an atomic batch happens inside the submessage, so it can only make
      the submessage fail. */
  predicate Buildable(b: MessageBatch) {
    var calls := b.subroutine.Calls();
    forall i :: 0 <= i < |b.msgs| && i < |calls| ==> b.msgs[i].Dispatchable() && calls[i].address.Some?
  }

  function AtomicResult(b: MessageBatch, outcome: SubMsgResult): SubMsgResult {
    if Buildable(b) || outcome.SubErr? then outcome else SubErr("message cannot be built")
  }

  /** Building the message of a function happens in the tick itself, so here a failure reverts.
      With a callback the message must be JSON, because the execution id is added to it. */
  function BuildError(b: MessageBatch, i: nat): Option<ProcError> {
    if b.subroutine.Atomic? || i >= |b.subroutine.functions| || i >= |b.msgs| then Some(Panicked)
    else if b.subroutine.functions[i].call.address.None? then Some(Panicked)
    else if b.subroutine.functions[i].callback.Some? && b.msgs[i].msg.json.None? then Some(NotSupported)
    else if !b.msgs[i].Dispatchable() then Some(NotSupported)
    else None
  }

  function IndexOf(p: ProcStore, id: nat): nat {
    if id in p.index then p.index[id] else 0
  }

  /** What is saved before function `i` is dispatched: its index and the callback it waits for. */
  function Dispatch(p: ProcStore, b: MessageBatch, i: nat): ProcStore {
    var p1 := p.(index := p.index[b.id := i]);
    match b.subroutine.CallbackOf(i)
    case None => p1
    case Some(callback) => p1.(pending := p.pending[b.id := PendingCallback(callback, b)])
  }

  /** What a tick does with the batch it took from the queue. */
  function Process(p: ProcStore, from: Priority, b: MessageBatch, block: Block, outcome: SubMsgResult): Outcome {
    var i := IndexOf(p, b.id);
    if b.IsLate(block) then
      Conclude(Forget(p, b.id), b.id, Expired(if b.subroutine.Atomic? then 0 else i))
    else if b.retry.Some? && !b.retry.value.cooldown.IsExpired(block) then
      Done(PushBack(p, from, b), None)
    else if b.subroutine.Atomic? then
      var result := AtomicResult(b, outcome);
      Reply(Log(p, b.id, Ran(0, block, result.SubOk?)), b.id, result, block)
    else if BuildError(b, i).Some? then
      Reverted(BuildError(b, i).value)
    else
      Reply(Log(Dispatch(p, b, i), b.id, Ran(i, block, outcome.SubOk?)), b.id, outcome, block)
  }

  /** The queue the next tick takes from. */
  function NextQueue(p: ProcStore): Priority {
    if p.high == [] then Medium else High
  }

  function Tick(p: ProcStore, block: Block, outcome: SubMsgResult): Outcome {
    var from := NextQueue(p);
    var q := QueueOf(p, from);
    if p.config.paused then Reverted(ProcessorPaused)
    else if q == [] then Reverted(NoMessagesToProcess)
    else Process(SetQueue(p, from, q[1..]), from, q[0], block, outcome)
  }

  /** Whether a copy of the batch is in one of the queues. */
  predicate QueueHas(p: ProcStore, id: nat) {
    (exists b :: b in p.high && b.id == id) || (exists b :: b in p.medium && b.id == id)
  }

  function RemovePending(o: Outcome, id: nat): Outcome {
    if o.Done? then Done(o.store.(pending := o.store.pending - {id}), o.report) else o
  }

  function LibraryCallback(p: ProcStore, id: nat, sender: Addr, msg: Binary, block: Block): Outcome {
    if id !in p.pending then Reverted(PendingCallbackNotFound)
    else if sender != p.pending[id].callback.address then Reverted(InvalidCallbackSender)
    else if id !in p.index then Reverted(NotFound)
    else
      var i := p.index[id];
      var pc := p.pending[id];
      var p1 := Log(p, id, CalledBack(i, block, sender, msg));
      RemovePending(
        if msg != pc.callback.message
        then BatchFailed(p1, id, pc.batch, "Invalid callback message received", block, i)
        else FunctionSucceeded(p1, i, id, pc.batch),
        id)
  }

  function RetryCallback(p: ProcStore, id: nat): Outcome {
    if id !in p.results then Reverted(ResultNotFound)
    else if !p.results[id].state.TimedOut? then Reverted(StillPending)
    else Done(SendResult(p, id, p.results[id].result), Some(Report(id, p.results[id].result)))
  }

  /** How the packet that carried the result of `id` ended. */
  function ResultAck(p: ProcStore, id: nat, ack: Ack): Outcome {
    if p.config.domain.OnMain? then Reverted(NotExternalDomain)
    else if ack.AckOk? then Done(p.(results := p.results - {id}), None)
    else if id !in p.results then Reverted(ResultNotFound)
    else
      var state := if ack == AckError(TIMEOUT) then TimedOut else Failed(ack.error);
      Done(p.(results := p.results[id := p.results[id].(state := state)]), None)
  }

  /** How the packet that creates the proxy on the main domain ended. */
  function ProxyAck(p: ProcStore, ack: Ack): Outcome {
    if p.config.domain.OnMain? then Reverted(NotExternalDomain)
    else
      var proxy := if ack == AckError(TIMEOUT) then ProxyTimedOut
                   else if ack.AckFatal? then ProxyError(ack.error)
                   else ProxyCreated;
      Done(p.(config := p.config.(domain := OnExternal(proxy))), None)
  }

  function RetryBridgeCreation(p: ProcStore): Outcome {
    if p.config.domain.OnMain? then Reverted(NotExternalDomain)
    else if !p.config.domain.proxy.ProxyTimedOut? then Reverted(NotRetriable)
    else Done(p.(config := p.config.(domain := OnExternal(ProxyPending))), None)
  }

  /** Everything that can be asked of a processor. */
  datatype Input =
    | Received(order: AuthorizationMsg)
    | Ticked(outcome: SubMsgResult)
    | LibraryCalled(id: nat, sender: Addr, msg: Binary)
    | ResendAsked(id: nat)
    | ResultAcked(id: nat, ack: Ack)
    | ProxyAcked(ack: Ack)
    | ProxyRetried

  function Serve(p: ProcStore, input: Input, block: Block): Outcome {
    match input
    case Received(order) => Handle(p, order, block)
    case Ticked(outcome) => Tick(p, block, outcome)
    case LibraryCalled(id, sender, msg) => LibraryCallback(p, id, sender, msg, block)
    case ResendAsked(id) => RetryCallback(p, id)
    case ResultAcked(id, ack) => ResultAck(p, id, ack)
    case ProxyAcked(ack) => ProxyAck(p, ack)
    case ProxyRetried => RetryBridgeCreation(p)
  }

  /** A call that fails changes nothing. */
  function Served(p: ProcStore, input: Input, block: Block): ProcStore {
    if Serve(p, input, block).Done? then Serve(p, input, block).store else p
  }

  function ServedAll(p: ProcStore, inputs: seq<(Input, Block)>): ProcStore
    decreases |inputs|
  {
    if inputs == [] then p else ServedAll(Served(p, inputs[0].0, inputs[0].1), inputs[1..])
  }
}
