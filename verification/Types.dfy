/** The vocabulary shared by the two contracts: clocks, JSON values, messages, subroutines,
    batches and execution results. */
module Types {

  datatype Option<+T> = None | Some(value: T)

  function Digit(d: nat): char
    requires d < 10
  {
    '0' + d as char
  }

  /** The number in decimal, without leading zeros. */
  function Written(n: nat): string {
    if n < 10 then [Digit(n)] else Written(n / 10) + [Digit(n % 10)]
  }

  type Addr = string
  type Label = string

  const U64_MAX: nat := 0xFFFF_FFFF_FFFF_FFFF
  const NANOS: nat := 1_000_000_000

  /** A block as a contract sees it; the time is in nanoseconds. */
  datatype Block = Block(height: nat, time: nat) {
    function Seconds(): nat { time / NANOS }
  }

  datatype Expiration = AtHeight(height: nat) | AtTime(time: nat) | Never {
    predicate IsExpired(block: Block) {
      match this
      case AtHeight(h) => block.height >= h
      case AtTime(t) => block.time >= t
      case Never => false
    }
  }

  datatype Duration = Height(blocks: nat) | Time(seconds: nat) {
    function After(block: Block): Expiration {
      match this
      case Height(n) => AtHeight(block.height + n)
      case Time(s) => AtTime(block.time + s * NANOS)
    }
  }

  datatype Json =
    | JNull
    | JBool(b: bool)
    | JNumber(repr: string)
    | JString(s: string)
    | JArray(elems: seq<Json>)
    | JObject(members: map<string, Json>)

  /** Raw bytes, together with what decoding them as JSON yields (None when they are not JSON). */
  datatype Binary = Binary(bytes: seq<bv8>, json: Option<Json>)

  datatype Domain = Main | External(name: string)

  datatype MessageType = CosmwasmExecuteMsg | CosmwasmMigrateMsg | EvmCall(library: string) | EvmRawCall

  datatype ParamRestriction =
    | MustBeIncluded(keys: seq<string>)
    | CannotBeIncluded(keys: seq<string>)
    | MustBeValue(keys: seq<string>, expected: Binary)
    | MustBeBytes(bytes: Binary)

  datatype MessageDetails =
    MessageDetails(messageType: MessageType, name: string, restrictions: Option<seq<ParamRestriction>>)

  datatype ProcessorMessage =
    | ExecuteMsg(msg: Binary)
    | MigrateMsg(codeId: nat, msg: Binary)
    | EvmCallMsg(msg: Binary)
    | EvmRawCallMsg(msg: Binary)
  {
    /** Only CosmWasm messages can be turned into a message the processor dispatches. */
    predicate Dispatchable() { ExecuteMsg? || MigrateMsg? }

    predicate HasType(t: MessageType) {
      match this
      case ExecuteMsg(_) => t.CosmwasmExecuteMsg?
      case MigrateMsg(_, _) => t.CosmwasmMigrateMsg?
      case EvmCallMsg(_) => t.EvmCall?
      case EvmRawCallMsg(_) => t.EvmRawCall?
    }
  }

  datatype RetryTimes = Indefinitely | Amount(times: nat)
  datatype RetryLogic = RetryLogic(times: RetryTimes, interval: Duration)

  datatype FunctionCallback = FunctionCallback(address: Addr, message: Binary)

  /** What both kinds of function have; an address that was never resolved is None. */
  datatype FunctionCall = FunctionCall(domain: Domain, details: MessageDetails, address: Option<Addr>)

  datatype NonAtomicFunction =
    NonAtomicFunction(call: FunctionCall, retryLogic: Option<RetryLogic>, callback: Option<FunctionCallback>)

  datatype Subroutine =
    | Atomic(calls: seq<FunctionCall>, retryLogic: Option<RetryLogic>, lifetime: Option<nat>)
    | NonAtomic(functions: seq<NonAtomicFunction>, lifetime: Option<nat>)
  {
    function Calls(): seq<FunctionCall> {
      match this
      case Atomic(calls, _, _) => calls
      case NonAtomic(fs, _) => seq(|fs|, i requires 0 <= i < |fs| => fs[i].call)
    }

    /** The retry logic that governs function `i`; an atomic subroutine counts as one function. */
    function RetryOf(i: nat): Option<RetryLogic> {
      match this
      case Atomic(_, retry, _) => retry
      case NonAtomic(fs, _) => if i < |fs| then fs[i].retryLogic else None
    }

    function CallbackOf(i: nat): Option<FunctionCallback> {
      if NonAtomic? && i < |functions| then functions[i].callback else None
    }
  }

  datatype Priority = Medium | High

  datatype CurrentRetry = CurrentRetry(amounts: nat, cooldown: Expiration)

  datatype MessageBatch = MessageBatch(
    id: nat, msgs: seq<ProcessorMessage>, subroutine: Subroutine, priority: Priority,
    expirationTime: Option<nat>, retry: Option<CurrentRetry>)
  {
    /** Equal up to the retry field. */
    predicate SameJob(that: MessageBatch) { this.(retry := None) == that.(retry := None) }

    function Retries(): nat { if retry.None? then 0 else retry.value.amounts }

    /** How many confirmations complete the batch. */
    function Size(): nat { if subroutine.Atomic? then 1 else |msgs| }

    predicate IsLate(block: Block) { expirationTime.Some? && expirationTime.value < block.Seconds() }
  }

  datatype ExecutionResult =
    | InProcess
    | Success
    | Rejected(error: string)
    | PartiallyExecuted(done: nat, error: string)
    | RemovedByOwner
    | Timeout(retriable: bool)
    | Expired(done: nat)
    | UnexpectedError(error: string)

  /** What the authorization contract sends to a processor. */
  datatype AuthorizationMsg =
    | EnqueueMsgs(id: nat, msgs: seq<ProcessorMessage>, subroutine: Subroutine, priority: Priority,
                  expirationTime: Option<nat>)
    | InsertMsgs(id: nat, position: nat, msgs: seq<ProcessorMessage>, subroutine: Subroutine,
                 priority: Priority, expirationTime: Option<nat>)
    | EvictMsgs(position: nat, priority: Priority)
    | Pause
    | Resume
  {
    predicate CarriesBatch() { EnqueueMsgs? || InsertMsgs? }

    function Batch(): MessageBatch
      requires CarriesBatch()
    {
      MessageBatch(id, msgs, subroutine, priority, expirationTime, None)
    }
  }

  /** How far a contract got with having its proxy created on the other side of a bridge. */
  datatype ProxyState = ProxyTimedOut | ProxyPending | ProxyCreated | ProxyError(error: string)

  /** How a Polytone packet ended, as told to the contract that sent it. */
  datatype Ack = AckOk | AckError(error: string) | AckFatal(error: string)

  const TIMEOUT := "timeout"
}
