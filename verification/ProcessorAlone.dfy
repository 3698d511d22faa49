/** A processor that has one batch: how the batch gets from function to function, and the ways it ends. */
module ProcessorAlone {
  import opened Types
  import opened ProcessorModel

  /** Only this batch, after the events `t`. */
  function Alone(c: Config, b: MessageBatch, index: map<nat, nat>, t: seq<Event>): ProcStore {
    ProcStore(c, [], [b], map[b.id := b], index, map[], map[], map[b.id := History(b, t, [])])
  }

  /** The same while function `i` runs, or waits for its library. */
  function InHand(c: Config, b: MessageBatch, i: nat, t: seq<Event>): ProcStore {
    var cb := b.subroutine.CallbackOf(i);
    Alone(c, b, map[b.id := i], t).(medium := [],
                                    pending := if cb.None? then map[] else map[b.id := PendingCallback(cb.value, b)])
  }

  /** An index that says that function `i` is due. */
  predicate IsNext(index: map<nat, nat>, id: nat, i: nat) { index == map[id := i] || (i == 0 && index == map[]) }

  predicate Unretried(b: MessageBatch) { b.priority.Medium? && b.retry.None? }

  lemma ArrivesAlone(c: Config, b: MessageBatch, block: Block)
    requires Unretried(b) && !b.IsLate(block)
    ensures Enqueue(Fresh(c), b, block) == Done(Alone(c, b, map[], []), None)
  {
    assert [] + [b] == [b];
  }

  lemma TickDispatches(c: Config, b: MessageBatch, index: map<nat, nat>, i: nat, t: seq<Event>, block: Block,
                       outcome: SubMsgResult)
    requires Unretried(b) && !b.IsLate(block) && !c.paused && IsNext(index, b.id, i)
    requires b.subroutine.NonAtomic? && BuildError(b, i).None?
    ensures Tick(Alone(c, b, index, t), block, outcome) ==
            Reply(InHand(c, b, i, t + [Ran(i, block, outcome.SubOk?)]), b.id, outcome, block)
  {
    hide Reply, BuildError;
    var p, e := Alone(c, b, index, t), Ran(i, block, outcome.SubOk?);
    assert p.medium[1..] == [] && index[b.id := i] == map[b.id := i];
    var p1 := Dispatch(p.(medium := []), b, i);
    assert p1 == InHand(c, b, i, t);
    assert map[b.id := History(b, t, [])][b.id := History(b, t + [e], [])] == map[b.id := History(b, t + [e], [])];
    assert Log(p1, b.id, e) == InHand(c, b, i, t + [e]);
  }

  /** A function without a callback is confirmed by its run. */
  lemma TickConfirms(c: Config, b: MessageBatch, index: map<nat, nat>, i: nat, t: seq<Event>, block: Block)
    requires Unretried(b) && !b.IsLate(block) && !c.paused && IsNext(index, b.id, i)
    requires b.subroutine.NonAtomic? && BuildError(b, i).None? && i + 1 < |b.msgs| && b.subroutine.CallbackOf(i).None?
    ensures Tick(Alone(c, b, index, t), block, SubOk) ==
            Done(Alone(c, b, map[b.id := i + 1], t + [Ran(i, block, true)]), None)
  {
    hide Tick, BuildError;
    TickDispatches(c, b, index, i, t, block, SubOk);
    assert map[b.id := i][b.id := i + 1] == map[b.id := i + 1];
    assert b.(retry := None) == b && [] + [b] == [b];
  }

  /** A function with a callback waits for its library. */
  lemma TickParks(c: Config, b: MessageBatch, index: map<nat, nat>, i: nat, t: seq<Event>, block: Block)
    requires Unretried(b) && !b.IsLate(block) && !c.paused && IsNext(index, b.id, i)
    requires b.subroutine.NonAtomic? && BuildError(b, i).None? && b.subroutine.CallbackOf(i).Some?
    ensures Tick(Alone(c, b, index, t), block, SubOk) == Done(InHand(c, b, i, t + [Ran(i, block, true)]), None)
  {
    hide Tick, BuildError;
    TickDispatches(c, b, index, i, t, block, SubOk);
  }

  lemma LibraryConfirms(c: Config, b: MessageBatch, i: nat, t: seq<Event>, block: Block)
    requires Unretried(b) && i + 1 < |b.msgs| && b.subroutine.CallbackOf(i).Some?
    ensures var cb := b.subroutine.CallbackOf(i).value;
            LibraryCallback(InHand(c, b, i, t), b.id, cb.address, cb.message, block) ==
            Done(Alone(c, b, map[b.id := i + 1], t + [CalledBack(i, block, cb.address, cb.message)]), None)
  {
    var cb := b.subroutine.CallbackOf(i).value;
    var p, e := InHand(c, b, i, t), CalledBack(i, block, cb.address, cb.message);
    var u := t + [e];
    assert map[b.id := History(b, t, [])][b.id := History(b, u, [])] == map[b.id := History(b, u, [])];
    assert map[b.id := i][b.id := i + 1] == map[b.id := i + 1];
    assert b.(retry := None) == b && [] + [b] == [b];
    assert p.pending - {b.id} == map[];
  }

  /** The outcome is this report, and the history says so. */
  predicate EndsWith(o: Outcome, b: MessageBatch, r: ExecutionResult, t: seq<Event>) {
    o.Done? && o.report == Some(Report(b.id, r)) && o.store.history == map[b.id := History(b, t, [r])]
  }

  lemma ConcludeEnds(p: ProcStore, b: MessageBatch, r: ExecutionResult, t: seq<Event>)
    requires p.history == map[b.id := History(b, t, [])]
    ensures EndsWith(Conclude(p, b.id, r), b, r, t)
  {
    assert [] + [r] == [r];
    assert p.history[b.id := History(b, t, [r])] == map[b.id := History(b, t, [r])];
  }

  lemma LateEnds(c: Config, b: MessageBatch, index: map<nat, nat>, i: nat, t: seq<Event>, block: Block)
    requires Unretried(b) && b.IsLate(block) && !c.paused && IsNext(index, b.id, i) && b.subroutine.NonAtomic?
    ensures EndsWith(Tick(Alone(c, b, index, t), block, SubOk), b, Expired(i), t)
  {
    hide Conclude, EndsWith;
    var p := Alone(c, b, index, t).(medium := []);
    assert Alone(c, b, index, t).medium[1..] == [];
    ConcludeEnds(Forget(p, b.id), b, Expired(i), t);
  }

  lemma FailureEnds(c: Config, b: MessageBatch, index: map<nat, nat>, i: nat, t: seq<Event>, block: Block,
                    error: string)
    requires Unretried(b) && !b.IsLate(block) && !c.paused && IsNext(index, b.id, i)
    requires b.subroutine.NonAtomic? && BuildError(b, i).None? && b.subroutine.RetryOf(i).None?
    ensures EndsWith(Tick(Alone(c, b, index, t), block, SubErr(error)), b, Rejected(error), t + [Ran(i, block, false)])
  {
    hide Conclude, EndsWith, Tick, BuildError;
    var u := t + [Ran(i, block, false)];
    TickDispatches(c, b, index, i, t, block, SubErr(error));
    ConcludeEnds(Forget(InHand(c, b, i, u), b.id), b, Rejected(error), u);
  }

  lemma EvictionEnds(c: Config, b: MessageBatch, index: map<nat, nat>, t: seq<Event>)
    requires Unretried(b)
    ensures EndsWith(Evict(Alone(c, b, index, t), 0, Medium), b, RemovedByOwner, t)
  {
    hide Conclude, EndsWith;
    var p := Alone(c, b, index, t);
    var p1 := Forget(SetQueue(p, Medium, p.medium[..0] + p.medium[1..]), b.id);
    ConcludeEnds(p1.(pending := p.pending - {b.id}), b, RemovedByOwner, t);
  }
}
