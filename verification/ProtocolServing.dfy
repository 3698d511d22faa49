/** What the processors do in every run: a tick, a library callback and an eviction change exactly what the
    reference says, and the trace of a batch logs exactly what the steps of the run did with it. */
module ProtocolServing {
  import opened Types
  import opened Protocol
  import opened ProtocolInvariant
  import opened ProtocolSteps
  import opened ProtocolTable
  import opened ProtocolLifeCycle
  import opened ProtocolProcessors
  import opened ProtocolTheorems
  import opened ProtocolSettling
  import opened ProtocolWaiting
  import opened ProcessorOutcomes
  import P = ProcessorModel
  import PI = ProcessorInvariant
  import PS = ProcessorSteps
  import PE = ProcessorEffects
  import PT = ProcessorTrace
  import PX = ProcessorExact
  import PC = ProxyCreation

  /** Only the processor of `d` changes: the history of `id` becomes `h`, and a result it now has leaves the
      processor. */
  ghost predicate Turns(w: World, v: World, d: Domain, id: nat, h: P.History, block: Block) {
    && d in w.procs && d in v.procs && id in w.procs[d].history
    && v.procs == w.procs[d := v.procs[d]]
    && v.procs[d].history == w.procs[d].history[id := h]
    && ReportLeaves(w, v, d, PX.Announced(w.procs[d].history[id], h), block)
  }

  lemma MakesTurns(w: World, d: Domain, o: P.Outcome, id: nat, h: P.History, block: Block, v: World)
    requires Inv(w) && d in w.procs && o.Done? && ProcOk(d, o.store) && PE.Summary(w.procs[d], o)
    requires PX.Makes(w.procs[d], o, id, h) && After(w, d, o, block) == Some(v)
    ensures Turns(w, v, d, id, h, block)
  {
    hide Inv, ProcOk, PE.Summary, After, ReportLeaves, PX.Announced;
    AfterLeaves(w, d, o, block, v);
  }

  // ----- Ticks -----

  /** A tick that gets through does to the batch in front what the reference does with this outcome of the
      submessage. */
  lemma TickTurns(w: World, d: Domain, block: Block, outcome: P.SubMsgResult, v: World)
    requires Reachable(w) && TryStep(w, Step(block, AtProcessor(d, P.Ticked(outcome)))) == Some(v)
    ensures && d in w.procs && PX.InFront(w.procs[d]).Some?
            && var id := PX.InFront(w.procs[d]).value.id;
               && id in w.procs[d].history
               && Turns(w, v, d, id, PX.AfterTick(w.procs[d].history[id], block, outcome), block)
  {
    hide Reachable, Inv, PI.Inv, P.Tick, Emit, ProcOk, PE.Summary, PX.AfterTick, Turns, PX.Makes;
    ReachableOk(w);
    TickTurnsIn(w, d, block, outcome, v);
  }

  lemma TickTurnsIn(w: World, d: Domain, block: Block, outcome: P.SubMsgResult, v: World)
    requires Inv(w) && d in w.procs && P.Tick(w.procs[d], block, outcome).Done?
    requires After(w, d, P.Tick(w.procs[d], block, outcome), block) == Some(v)
    ensures && PX.InFront(w.procs[d]).Some?
            && var id := PX.InFront(w.procs[d]).value.id;
               && id in w.procs[d].history
               && Turns(w, v, d, id, PX.AfterTick(w.procs[d].history[id], block, outcome), block)
  {
    hide Inv, PI.Inv, P.Tick, After, PE.Summary, PX.AfterTick, Turns, PX.Makes;
    ProcAt(w, d);
    TickOk(w, d, block, outcome);
    PX.TickIs(w.procs[d], block, outcome);
    var id := PX.InFront(w.procs[d]).value.id;
    MakesTurns(w, d, P.Tick(w.procs[d], block, outcome), id,
               PX.AfterTick(w.procs[d].history[id], block, outcome), block, v);
  }

  // ----- Library callbacks -----

  /** A library is heard exactly when its batch, in neither queue, waits for it, and then the reference says
      what happens. */
  lemma CallbackTurns(w: World, d: Domain, id: nat, sender: Addr, msg: Binary, block: Block)
    requires Reachable(w) && d in w.procs && !P.QueueHas(w.procs[d], id)
    ensures var o := TryStep(w, Step(block, AtProcessor(d, P.LibraryCalled(id, sender, msg))));
            && (o.Some? <==> id in w.procs[d].history && PX.WaitsFor(w.procs[d].history[id], sender))
            && (o.Some? ==>
                Turns(w, o.value, d, id, PX.AfterCallback(w.procs[d].history[id], sender, msg, block), block))
  {
    hide Reachable, Inv, PI.Inv, P.LibraryCallback, Emit, ProcOk, PE.Summary, PX.AfterCallback, Turns, PX.Makes,
         P.QueueHas, PS.InNoQueue, PX.WaitsFor;
    ReachableOk(w);
    var p, o := w.procs[d], P.LibraryCallback(w.procs[d], id, sender, msg, block);
    PE.QueueHasIff(p, id);
    ProcInv(w, d);
    PX.CallbackIs(p, id, sender, msg, block);
    if o.Done? {
      CallbackKeeps(w, d, id, sender, msg, block);
      CallbackOk(w, d, id, sender, msg, block);
      MakesTurns(w, d, o, id, PX.AfterCallback(p.history[id], sender, msg, block), block, After(w, d, o, block).value);
    }
  }

  lemma ProcInv(w: World, d: Domain)
    requires Inv(w) && d in w.procs
    ensures PI.Inv(w.procs[d])
  {
    hide Inv, PI.Inv;
    ProcAt(w, d);
  }

  // ----- Evictions -----

  /** An eviction takes exactly the batch at its position, leaves the others in their order, and ends the call
      as removed by the owner. */
  lemma EvictionTurns(w: World, d: Domain, k: nat, priority: Priority, block: Block)
    requires Reachable(w) && d in w.procs
    ensures var o, q := TryStep(w, Step(block, AtProcessor(d, P.Received(EvictMsgs(k, priority))))),
                        P.QueueOf(w.procs[d], priority);
            && (o.Some? <==> k < |q|)
            && (o.Some? ==>
                  && q[k].id in w.procs[d].history
                  && Turns(w, o.value, d, q[k].id, w.procs[d].history[q[k].id].(reports := [RemovedByOwner]), block)
                  && PX.HasInserted(P.QueueOf(o.value.procs[d], priority), q, k, q[k])
                  && P.QueueOf(o.value.procs[d], PX.Other(priority)) == P.QueueOf(w.procs[d], PX.Other(priority)))
  {
    hide Reachable, Inv, PI.Inv, P.Handle, Emit, ProcOk, PE.Summary, PX.Makes, PX.HasInserted, PX.Announced,
         ReportLeaves;
    ReachableOk(w);
    var p, m := w.procs[d], EvictMsgs(k, priority);
    var o := P.Handle(p, m, block);
    ProcInv(w, d);
    PX.EvictIs(p, k, priority, block);
    if o.Done? {
      ControlKeeps(w, d, m, block);
      ControlOk(w, d, m, block);
      var id, v := P.QueueOf(p, priority)[k].id, After(w, d, o, block).value;
      MakesTurns(w, d, o, id, p.history[id].(reports := [RemovedByOwner]), block, v);
      AfterLeaves(w, d, o, block, v);
    }
  }

  // ----- Traces are logs -----

  /** What the step does with the batch `id` at the processor of `d`, seen from outside: a tick whose
      submessage ends somehow, when it is the turn of the batch and neither too late nor too early for it, or
      a callback of its library. */
  ghost function EventsOf(w: World, s: Step, d: Domain, id: nat): seq<P.Event> {
    if !s.action.AtProcessor? || s.action.domain != d || TryStep(w, s).None? || d !in w.procs ||
       id !in w.procs[d].history then []
    else
      var h := w.procs[d].history[id];
      var n := |PT.Confirmed(h.batch.subroutine, h.trace)|;
      match s.action.input
      case Ticked(outcome) =>
        if PX.InFront(w.procs[d]).None? || PX.InFront(w.procs[d]).value.id != id || h.batch.IsLate(s.block) ||
           PX.Cooling(h.batch.subroutine, h.trace, s.block) then []
        else [P.Ran(n, s.block, outcome == P.SubOk && (h.batch.subroutine.Atomic? ==> PX.CanApply(h.batch)))]
      case LibraryCalled(i, sender, msg) => if i == id then [P.CalledBack(n, s.block, sender, msg)] else []
      case _ => []
  }

  ghost function TraceIn(p: P.ProcStore, id: nat): seq<P.Event> {
    if id in p.history then p.history[id].trace else []
  }

  lemma MakesTrace(p: P.ProcStore, o: P.Outcome, id: nat, h: P.History, k: nat)
    requires PX.Makes(p, o, id, h)
    ensures TraceIn(o.store, k) == if k == id then h.trace else TraceIn(p, k)
  {
  }

  lemma OrderTrace(p: P.ProcStore, m: AuthorizationMsg, block: Block, id: nat)
    requires PI.Inv(p) && P.Handle(p, m, block).Done? && (m.CarriesBatch() ==> m.id !in p.history)
    ensures TraceIn(P.Handle(p, m, block).store, id) == TraceIn(p, id)
  {
    hide PI.Inv, PX.Makes, PX.HasInserted;
    var o := P.Handle(p, m, block);
    if m.CarriesBatch() {
      hide P.Handle;
      PX.OrderIs(p, m, block);
    } else if m.EvictMsgs? {
      hide P.Handle;
      PX.EvictIs(p, m.position, m.priority, block);
      var i := P.QueueOf(p, m.priority)[m.position].id;
      MakesTrace(p, o, i, p.history[i].(reports := [RemovedByOwner]), id);
    }
  }

  lemma TickTrace(p: P.ProcStore, block: Block, outcome: P.SubMsgResult, id: nat)
    requires PI.Inv(p) && P.Tick(p, block, outcome).Done?
    ensures PX.InFront(p).Some? && PX.InFront(p).value.id in p.history
    ensures TraceIn(P.Tick(p, block, outcome).store, id) ==
            if id == PX.InFront(p).value.id then PX.AfterTick(p.history[id], block, outcome).trace else TraceIn(p, id)
  {
    hide PI.Inv, P.Tick, PX.Makes, PX.AfterTick;
    PX.TickIs(p, block, outcome);
    var i := PX.InFront(p).value.id;
    MakesTrace(p, P.Tick(p, block, outcome), i, PX.AfterTick(p.history[i], block, outcome), id);
  }

  lemma CallbackTrace(p: P.ProcStore, i: nat, sender: Addr, msg: Binary, block: Block, id: nat)
    requires PI.Inv(p) && PS.InNoQueue(p, i) && P.LibraryCallback(p, i, sender, msg, block).Done?
    ensures i in p.history
    ensures TraceIn(P.LibraryCallback(p, i, sender, msg, block).store, id) ==
            if id == i then PX.AfterCallback(p.history[i], sender, msg, block).trace else TraceIn(p, id)
  {
    hide PI.Inv, P.LibraryCallback, PX.Makes, PX.AfterCallback, PS.InNoQueue, PX.WaitsFor;
    PX.CallbackIs(p, i, sender, msg, block);
    MakesTrace(p, P.LibraryCallback(p, i, sender, msg, block), i,
               PX.AfterCallback(p.history[i], sender, msg, block), id);
  }

  /** The same for the other calls. */
  lemma QuietTrace(p: P.ProcStore, input: P.Input, block: Block, id: nat)
    requires input.ResendAsked? || input.ResultAcked? || input.ProxyAcked? || input.ProxyRetried?
    requires P.Serve(p, input, block).Done?
    ensures TraceIn(P.Serve(p, input, block).store, id) == TraceIn(p, id)
  {
  }

  /** A step that is an event for the batch is a call that its processor serves. */
  lemma EventIsServed(w: World, s: Step, d: Domain, id: nat)
    requires EventsOf(w, s, d, id) != []
    ensures d in w.procs && ServedCall(w, s, d) == Some(s.action.input)
  {
    hide P.Serve, Emit, MayReach, PX.InFront, PX.Cooling, PT.Confirmed;
  }

  lemma ServedIsEvent(w: World, s: Step, d: Domain)
    requires d in w.procs && ServedCall(w, s, d).Some?
    ensures TryStep(w, s).Some? && P.Serve(w.procs[d], ServedCall(w, s, d).value, s.block).Done?
    ensures var input := ServedCall(w, s, d).value;
            if s.action.AtProcessor? then s.action.domain == d && s.action.input == input
            else input.Received? || input.ResultAcked?
  {
    hide P.Serve, TryStep;
  }

  lemma AppendNothing<T>(t: seq<T>)
    ensures t + [] == t
  {
  }

  lemma ServedTrace(w: World, s: Step, d: Domain, input: P.Input, id: nat)
    requires Inv(w) && d in w.procs && ServedCall(w, s, d) == Some(input) && PS.Welcome(w.procs[d], input)
    ensures P.Serve(w.procs[d], input, s.block).Done?
    ensures TraceIn(P.Serve(w.procs[d], input, s.block).store, id) ==
            TraceIn(w.procs[d], id) + EventsOf(w, s, d, id)
  {
    hide Inv, PI.Inv, TryStep, ServedCall, P.Tick, P.LibraryCallback, P.Handle, PX.InFront, PT.Confirmed, PX.Cooling,
         PX.Verdict, TraceIn, PS.InNoQueue, P.RetryCallback, P.ResultAck, P.ProxyAck, P.RetryBridgeCreation;
    var p := w.procs[d];
    ServedIsEvent(w, s, d);
    ProcInv(w, d);
    AppendNothing(TraceIn(p, id));
    TraceInIs(p, id);
    match input
    case Received(m) => OrderTrace(p, m, s.block, id);
    case Ticked(outcome) => TickTrace(p, s.block, outcome, id);
    case LibraryCalled(i, sender, msg) => CallbackTrace(p, i, sender, msg, s.block, id);
    case _ => QuietTrace(p, input, s.block, id);
  }

  lemma TraceInIs(p: P.ProcStore, id: nat)
    ensures TraceIn(p, id) == if id in p.history then p.history[id].trace else []
  {
  }

  /** In every run, every step adds to the trace of a batch exactly the event that it is for the batch. */
  lemma TracesAreLogs(w: World, s: Step, v: World, d: Domain, id: nat)
    requires Reachable(w) && v == Next(w, s) && d in w.procs
    ensures TraceAt(v, d, id) == TraceAt(w, d, id) + EventsOf(w, s, d, id)
  {
    hide Reachable, Inv, Next, TryStep, P.Serve, PS.Welcome, Acknowledges, Genuine, EventsOf, ServedCall;
    ReachableOk(w);
    StepServes(w, s, v, d);
    if ServedCall(w, s, d).None? {
      if EventsOf(w, s, d, id) != [] { EventIsServed(w, s, d, id); }
    } else {
      ServedTrace(w, s, d, ServedCall(w, s, d).value, id);
    }
  }

  /** So a submessage that fails never counts as an effect: what a batch did grows by one exactly when the
      submessage of its turn ends well. */
  lemma EffectsAreReal(w: World, s: Step, v: World, d: Domain, id: nat)
    requires Reachable(w) && v == Next(w, s) && d in w.procs
    ensures Applied(TraceAt(v, d, id)) ==
            Applied(TraceAt(w, d, id)) +
            if EventsOf(w, s, d, id) != [] && EventsOf(w, s, d, id)[0].Ran? && EventsOf(w, s, d, id)[0].ok then 1 else 0
    ensures s.action.AtProcessor? && s.action.input.Ticked? && s.action.input.outcome.SubErr? ==>
              Applied(TraceAt(v, d, id)) == Applied(TraceAt(w, d, id))
  {
    hide Reachable, Next, TraceAt, TryStep, PX.InFront, PT.Confirmed, PX.Cooling;
    TracesAreLogs(w, s, v, d, id);
    var t, e := TraceAt(w, d, id), EventsOf(w, s, d, id);
    if e == [] {
      AppendNothing(t);
    } else {
      assert (t + e)[..|t|] == t && (t + e)[|t|] == e[0];
    }
  }

  // ----- An insert in front -----

  /** What is inserted at position 0 of the high queue is what the next successful tick takes, as long as
      nothing else is inserted or evicted there. */
  lemma InsertedIsNext(w: World, s: Step, v: World, more: seq<Step>, d: Domain, m: AuthorizationMsg)
    requires Reachable(w) && v == Next(w, s) && d in w.procs
    requires ServedCall(w, s, d) == Some(P.Received(m)) && m.InsertMsgs? && m.position == 0 && m.priority.High?
    requires !m.Batch().IsLate(s.block)
    requires Calm(v, more, d, High) && Ticks(v, more, d) > 0
    ensures Reachable(v) && d in v.procs && PX.InFront(v.procs[d]) == Some(m.Batch())
    ensures v.procs[d].high != [] &&
            exists j: nat :: j < |more| && TakenBy(v, more, d, High, 0, j) && Ticks(v, more[..j], d) == 0
  {
    hide Reachable, Inv, Next, TryStep, P.Handle, Acknowledges, Genuine, Calm, Ticks, TakenBy, CallOn;
    ReachableOk(w);
    ReachableNext(w, s);
    StepServes(w, s, v, d);
    PX.OrderIs(w.procs[d], m, s.block);
    HighWaitsInTurn(v, more, d, 0);
  }

  // ----- Pauses -----

  /** In every run, a step leaves a processor paused exactly if it pauses it, or finds it paused and does not
      resume it; and a paused processor does not tick. */
  lemma PausesHold(w: World, s: Step, v: World, d: Domain)
    requires Reachable(w) && v == Next(w, s) && d in w.procs
    ensures d in v.procs
    ensures var call := ServedCall(w, s, d);
            && (v.procs[d].config.paused <==>
                  if call == Some(P.Received(Pause)) then true
                  else if call == Some(P.Received(Resume)) then false
                  else w.procs[d].config.paused)
            && (w.procs[d].config.paused ==> !TicksAt(w, s, d))
  {
    hide Reachable, Inv, Next, TryStep, P.Serve, Proper, CallOn;
    ReachableOk(w);
    StepServes(w, s, v, d);
    var call := ServedCall(w, s, d);
    if call.Some? {
      PC.PausedIff(w.procs[d], call.value, s.block);
    }
  }
}
