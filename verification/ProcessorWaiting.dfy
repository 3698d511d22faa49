/** How long a batch waits in its queue: what comes later is always put behind it. */
module ProcessorWaiting {
  import opened Types
  import opened ProcessorModel

  /** The two orders that move batches inside a queue. */
  predicate Disturbs(input: Input, priority: Priority) {
    input.Received? && (input.order.InsertMsgs? || input.order.EvictMsgs?) && input.order.priority == priority
  }

  predicate SuccessfulTick(p: ProcStore, input: Input, block: Block) {
    input.Ticked? && Serve(p, input, block).Done?
  }

  /** A successful tick that takes from this queue. The medium queue has its turn when the high one
      is empty. */
  predicate Pops(p: ProcStore, input: Input, block: Block, priority: Priority) {
    SuccessfulTick(p, input, block) && NextQueue(p) == priority
  }

  function CountTicks(p: ProcStore, inputs: seq<(Input, Block)>): nat
    decreases |inputs|
  {
    if inputs == [] then 0
    else (if SuccessfulTick(p, inputs[0].0, inputs[0].1) then 1 else 0) +
         CountTicks(Served(p, inputs[0].0, inputs[0].1), inputs[1..])
  }

  function CountPops(p: ProcStore, inputs: seq<(Input, Block)>, priority: Priority): nat
    decreases |inputs|
  {
    if inputs == [] then 0
    else (if Pops(p, inputs[0].0, inputs[0].1, priority) then 1 else 0) +
         CountPops(Served(p, inputs[0].0, inputs[0].1), inputs[1..], priority)
  }

  ghost predicate Undisturbed(inputs: seq<(Input, Block)>, priority: Priority) {
    forall x :: x in inputs ==> !Disturbs(x.0, priority)
  }

  // ----- One step -----

  /** Both queues keep what they had, in front. */
  ghost predicate Appends(p: ProcStore, q: ProcStore) { p.high <= q.high && p.medium <= q.medium }

  ghost predicate OnlyAppends(p: ProcStore, o: Outcome) { o.Done? ==> Appends(p, o.store) }

  lemma ConcludeQueues(p: ProcStore, id: nat, r: ExecutionResult)
    ensures Conclude(p, id, r).Done?
    ensures Conclude(p, id, r).store.high == p.high && Conclude(p, id, r).store.medium == p.medium
  {
  }

  lemma ConcludeAppends(p: ProcStore, id: nat, r: ExecutionResult)
    ensures OnlyAppends(p, Conclude(p, id, r)) && OnlyAppends(p, Conclude(Forget(p, id), id, r))
  {
    hide Conclude;
    ConcludeQueues(p, id, r);
    ConcludeQueues(Forget(p, id), id, r);
  }

  lemma PushBackAppends(p: ProcStore, priority: Priority, b: MessageBatch)
    ensures Appends(p, PushBack(p, priority, b))
  {
  }

  lemma FailedAppends(p: ProcStore, id: nat, b: MessageBatch, error: string, block: Block, i: nat)
    ensures OnlyAppends(p, BatchFailed(p, id, b, error, block, i))
  {
    hide Conclude, Forget, OnlyAppends, PutBack, Exhausted;
    ConcludeAppends(p, id, Rejected(error));
    ConcludeAppends(p, id, PartiallyExecuted(i, error));
    if b.subroutine.RetryOf(i).Some? {
      PutBackAppends(p, b, b.subroutine.RetryOf(i).value, block);
    }
  }

  lemma PutBackAppends(p: ProcStore, b: MessageBatch, rl: RetryLogic, block: Block)
    ensures OnlyAppends(p, Done(PutBack(p, b, rl, block), None))
  {
    PushBackAppends(p, b.priority, Retried(b, rl, block));
  }

  lemma SucceededAppends(p: ProcStore, i: nat, id: nat, b: MessageBatch)
    ensures OnlyAppends(p, FunctionSucceeded(p, i, id, b))
  {
    hide Conclude, Forget;
    ConcludeAppends(p, id, Success);
  }

  lemma ReplyAppends(p: ProcStore, id: nat, outcome: SubMsgResult, block: Block)
    ensures OnlyAppends(p, Reply(p, id, outcome, block))
  {
    hide Conclude, BatchFailed, FunctionSucceeded;
    ConcludeAppends(p, id, Success);
    if id in p.batches {
      var i := if id in p.index then p.index[id] else 0;
      SucceededAppends(p, i, id, p.batches[id]);
      if outcome.SubErr? {
        FailedAppends(p, id, p.batches[id], outcome.error, block, i);
      }
    }
  }

  /** A reply after the store was written to elsewhere. */
  lemma RunAppends(p: ProcStore, q: ProcStore, id: nat, e: Event, outcome: SubMsgResult, block: Block)
    requires q.high == p.high && q.medium == p.medium
    ensures OnlyAppends(p, Reply(Log(q, id, e), id, outcome, block))
  {
    hide Reply;
    ReplyAppends(Log(q, id, e), id, outcome, block);
  }

  lemma ProcessAppends(p: ProcStore, from: Priority, b: MessageBatch, block: Block, outcome: SubMsgResult)
    ensures OnlyAppends(p, Process(p, from, b, block, outcome))
  {
    hide Conclude, Reply, Forget, Log, Appends, PushBack, AtomicResult;
    var i := IndexOf(p, b.id);
    ConcludeAppends(p, b.id, Expired(if b.subroutine.Atomic? then 0 else i));
    PushBackAppends(p, from, b);
    var result := AtomicResult(b, outcome);
    RunAppends(p, p, b.id, Ran(0, block, result.SubOk?), result, block);
    RunAppends(p, Dispatch(p, b, i), b.id, Ran(i, block, outcome.SubOk?), outcome, block);
  }

  lemma CallbackAppends(p: ProcStore, id: nat, sender: Addr, msg: Binary, block: Block)
    ensures OnlyAppends(p, LibraryCallback(p, id, sender, msg, block))
  {
    hide BatchFailed, FunctionSucceeded;
    if id in p.pending && id in p.index {
      var i, b := p.index[id], p.pending[id].batch;
      var p1 := Log(p, id, CalledBack(i, block, sender, msg));
      FailedAppends(p1, id, b, "Invalid callback message received", block, i);
      SucceededAppends(p1, i, id, b);
    }
  }

  lemma OrderStep(p: ProcStore, order: AuthorizationMsg, block: Block, priority: Priority)
    requires !Disturbs(Received(order), priority) && Handle(p, order, block).Done?
    ensures QueueOf(p, priority) <= QueueOf(Handle(p, order, block).store, priority)
  {
    hide Conclude, Evict;
    if order.CarriesBatch() { ConcludeQueues(Register(p, order.Batch()), order.id, Expired(0)); }
    if order.EvictMsgs? {
      EvictOther(p, order.position, order.priority, priority);
    }
  }

  lemma TickStep(p: ProcStore, block: Block, outcome: SubMsgResult, priority: Priority)
    requires Tick(p, block, outcome).Done?
    ensures var k := if NextQueue(p) == priority then 1 else 0;
            k <= |QueueOf(p, priority)| && QueueOf(p, priority)[k..] <= QueueOf(Tick(p, block, outcome).store, priority)
  {
    hide Process;
    var from := NextQueue(p);
    var q := QueueOf(p, from);
    ProcessAppends(SetQueue(p, from, q[1..]), from, q[0], block, outcome);
  }

  /** Whatever a call does, a queue loses at most its first batch, and only to a tick. */
  lemma QueueStep(p: ProcStore, input: Input, block: Block, priority: Priority)
    requires !Disturbs(input, priority)
    ensures var k := if Pops(p, input, block, priority) then 1 else 0;
            k <= |QueueOf(p, priority)| && QueueOf(p, priority)[k..] <= QueueOf(Served(p, input, block), priority)
  {
    hide Handle, Tick, LibraryCallback, NextQueue;
    if Serve(p, input, block).Done? {
      match input
      case Received(order) => OrderStep(p, order, block, priority);
      case Ticked(outcome) => TickStep(p, block, outcome, priority);
      case LibraryCalled(id, sender, msg) => CallbackAppends(p, id, sender, msg, block);
      case _ =>
    }
  }

  lemma EvictOther(p: ProcStore, position: nat, priority: Priority, other: Priority)
    requires other != priority && Evict(p, position, priority).Done?
    ensures QueueOf(Evict(p, position, priority).store, other) == QueueOf(p, other)
  {
  }

  // ----- Any number of steps -----

  /** A batch moves forward by one for every batch taken from its queue, and by no more. */
  lemma {:induction false} MovesForward(p: ProcStore, inputs: seq<(Input, Block)>, priority: Priority, k: nat)
    requires k < |QueueOf(p, priority)| && Undisturbed(inputs, priority)
    requires CountPops(p, inputs, priority) <= k
    ensures var q, n := QueueOf(ServedAll(p, inputs), priority), CountPops(p, inputs, priority);
            k - n < |q| && q[k - n] == QueueOf(p, priority)[k]
    decreases |inputs|
  {
    hide Served, Pops;
    if inputs != [] {
      var (input, block) := inputs[0];
      QueueStep(p, input, block, priority);
      var p1 := Served(p, input, block);
      var k1 := k - if Pops(p, input, block, priority) then 1 else 0;
      assert QueueOf(p1, priority)[k1] == QueueOf(p, priority)[k];
      MovesForward(p1, inputs[1..], priority, k1);
    }
  }

  /** The tick that takes the batch found at position `k`: it comes after exactly `k` others. */
  ghost predicate TakenAt(p: ProcStore, inputs: seq<(Input, Block)>, priority: Priority, k: nat, j: nat)
    requires k < |QueueOf(p, priority)| && j < |inputs|
  {
    var before := ServedAll(p, inputs[..j]);
    && CountPops(p, inputs[..j], priority) == k
    && Pops(before, inputs[j].0, inputs[j].1, priority)
    && QueueOf(before, priority) != [] && QueueOf(before, priority)[0] == QueueOf(p, priority)[k]
  }

  lemma {:induction false} PopExists(p: ProcStore, inputs: seq<(Input, Block)>, priority: Priority, k: nat)
    returns (j: nat)
    requires CountPops(p, inputs, priority) > k
    ensures j < |inputs| && CountPops(p, inputs[..j], priority) == k
    ensures Pops(ServedAll(p, inputs[..j]), inputs[j].0, inputs[j].1, priority)
    decreases |inputs|
  {
    hide Served, Pops;
    var (input, block) := inputs[0];
    var p1 := Served(p, input, block);
    var one := if Pops(p, input, block, priority) then 1 else 0;
    if one == 1 && k == 0 {
      j := 0;
      assert inputs[..0] == [];
    } else {
      var i := PopExists(p1, inputs[1..], priority, k - one);
      j := i + 1;
      assert inputs[..j][0] == inputs[0] && inputs[..j][1..] == inputs[1..][..i];
    }
  }

  /** Bounded waiting: if more than `k` batches are taken from the queue of a batch at position `k`,
      and nothing is inserted or evicted there, the batch is the one taken after the first `k`. */
  lemma TakenInTurn(p: ProcStore, inputs: seq<(Input, Block)>, priority: Priority, k: nat)
    requires k < |QueueOf(p, priority)| && Undisturbed(inputs, priority)
    requires CountPops(p, inputs, priority) > k
    ensures exists j: nat :: j < |inputs| && TakenAt(p, inputs, priority, k, j)
  {
    hide Served, Pops, Disturbs;
    var j := PopExists(p, inputs, priority, k);
    assert forall x :: x in inputs[..j] ==> x in inputs;
    MovesForward(p, inputs[..j], priority, k);
    assert TakenAt(p, inputs, priority, k, j);
  }

  /** While a batch waits in the high queue, every successful tick takes from that queue. */
  lemma {:induction false} HighComesFirst(p: ProcStore, inputs: seq<(Input, Block)>, k: nat)
    requires k < |p.high| && Undisturbed(inputs, High) && CountTicks(p, inputs) <= k + 1
    ensures CountPops(p, inputs, High) == CountTicks(p, inputs)
    decreases |inputs|
  {
    hide Served, Serve;
    if inputs != [] {
      var (input, block) := inputs[0];
      QueueStep(p, input, block, High);
      var p1 := Served(p, input, block);
      if Pops(p, input, block, High) && k == 0 {
        NoTicksNoPops(p1, inputs[1..]);
      } else {
        HighComesFirst(p1, inputs[1..], k - if Pops(p, input, block, High) then 1 else 0);
      }
    }
  }

  lemma {:induction false} NoTicksNoPops(p: ProcStore, inputs: seq<(Input, Block)>)
    requires CountTicks(p, inputs) == 0
    ensures CountPops(p, inputs, High) == 0
    decreases |inputs|
  {
    hide Served, Serve;
    if inputs != [] {
      NoTicksNoPops(Served(p, inputs[0].0, inputs[0].1), inputs[1..]);
    }
  }

  /** A high batch at position `k` is taken by the successful tick number `k + 1`. */
  lemma HighTakenInTurn(p: ProcStore, inputs: seq<(Input, Block)>, k: nat)
    requires k < |p.high| && Undisturbed(inputs, High) && CountTicks(p, inputs) == k + 1
    ensures exists j: nat :: j < |inputs| && TakenAt(p, inputs, High, k, j)
  {
    hide Served, Pops, Disturbs, CountTicks, CountPops, TakenAt;
    HighComesFirst(p, inputs, k);
    TakenInTurn(p, inputs, High, k);
  }
}
