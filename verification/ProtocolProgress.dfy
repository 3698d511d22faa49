/** Which executions can still end. A result whose packet failed for another reason than a timeout is
    never sent again, so its id stays in process for ever; every other id in process can be ended. */
module ProtocolProgress {
  import opened Types
  import opened AuthorizationModel
  import opened Protocol
  import opened ProtocolTokens
  import opened ProtocolInvariant
  import opened ProtocolSteps
  import opened ProtocolPackets
  import opened ProtocolTable
  import opened ProtocolLifeCycle
  import opened ProtocolPlaces
  import opened ProtocolProcessors
  import P = ProcessorModel
  import AI = AuthorizationInvariant
  import PI = ProcessorInvariant
  import PS = ProcessorSteps
  import PE = ProcessorEffects

  // ----- Packets with results -----

  ghost predicate Grows(w: World, o: Option<World>) { o.Some? ==> w.ins <= o.value.ins }

  lemma ApplyIns(w: World, id: nat, o: AuthOutcome)
    ensures Apply(w, id, o).Some? ==> Apply(w, id, o).value.ins == w.ins
  {
    hide RunTokens;
  }

  lemma AfterGrows(w: World, d: Domain, o: P.Outcome, block: Block)
    ensures Grows(w, After(w, d, o, block))
  {
    hide Apply;
    if o.Done? && o.report.Some? {
      ApplyIns(w.(procs := w.procs[d := o.store]), o.report.value.id,
               ProcessorCallback(w.auth, block, o.report.value.id, o.report.value.result));
    }
  }

  lemma OpenedGrows(w: World, o: AuthOutcome, block: Block)
    ensures Grows(w, Opened(w, o, block))
  {
    hide After, P.Handle;
    if o.Accepted? && o.call.Some? && Main in w.procs {
      AfterGrows(w.(auth := o.store), Main, P.Handle(w.procs[Main], o.call.value.msg, block), block);
    }
  }

  lemma CallGrows(w: World, s: Step)
    requires s.action.Send? || s.action.Insert? || s.action.Prove?
    ensures Grows(w, TryStep(w, s))
  {
    hide Opened, SendMsgs, InsertMessages, ExecuteZk, Pay, ReachesProcessor;
    if TryStep(w, s).Some? {
      match s.action
      case Send(sender, t, ttl, msgs, paid) =>
        var bank := Pay(w.bank, t, sender, paid, w.auth.authorizations[t].mode.WithCallLimit?).value;
        OpenedGrows(w.(bank := bank),
                    SendMsgs(w.auth, s.block, sender, t, ttl, msgs, paid, Balance(bank, t, sender)), s.block);
      case Insert(t, position, priority, msgs) =>
        OpenedGrows(w, InsertMessages(w.auth, s.block, t, position, priority, msgs), s.block);
      case Prove(sender, t, zk, paid) =>
        var backed := w.auth.zkAuthorizations[t].mode.WithCallLimit? && zk.msg.CarriesBatch();
        var bank := Pay(w.bank, t, sender, paid, backed).value;
        OpenedGrows(w.(bank := bank),
                    ExecuteZk(w.auth, s.block, sender, t, zk, paid, Balance(bank, t, sender)), s.block);
    }
  }

  lemma OtherGrows(w: World, s: Step)
    requires s.action.Retry? || s.action.DeliverOut? || s.action.AckOut? || s.action.AtProcessor?
    ensures Grows(w, TryStep(w, s))
  {
    hide Opened, RetryMsgs, BridgeCallback, Apply, After, P.Handle, P.Serve;
    if TryStep(w, s).Some? {
      match s.action
      case Retry(id) =>
        OpenedGrows(w, RetryMsgs(w.auth, s.block, id), s.block);
        ApplyIns(w, id, RetryMsgs(w.auth, s.block, id));
      case DeliverOut(n, _) =>
        AfterGrows(LandOut(w, n, AckOk), w.outs[n].domain,
                   P.Handle(w.procs[w.outs[n].domain], w.outs[n].body, s.block), s.block);
      case AckOut(n) =>
        ApplyIns(w.(outs := w.outs[..n] + w.outs[n + 1..]), w.outs[n].id,
                 BridgeCallback(w.auth, s.block, w.outs[n].id, w.outs[n].flight.ack));
      case AtProcessor(d, input) => AfterGrows(w, d, P.Serve(w.procs[d], input, s.block), s.block);
    }
  }

  /** A packet that has landed stays until the processor is told. */
  lemma LandedStays(w: World, s: Step, v: World, n: nat)
    requires v == Next(w, s) && n < |w.ins| && w.ins[n].flight.Landed? && s.action != AckIn(n)
    ensures w.ins[n] in v.ins
  {
    hide DoSend, DoInsert, DoProve, DoRetry, DoDeliverOut, DoAckOut, DoAtProcessor, Apply, P.ResultAck,
         ChangeTable, RunTokens;
    match s.action
    case Send(_, _, _, _, _) => CallGrows(w, s); Kept(w, v, n);
    case Insert(_, _, _, _) => CallGrows(w, s); Kept(w, v, n);
    case Prove(_, _, _, _) => CallGrows(w, s); Kept(w, v, n);
    case DeliverIn(m, _) => DeliverInKeepsLanded(w, s, v, n);
    case AckIn(m) =>
      if DoAckIn(w, m).Some? {
        assert v.ins == w.ins[..m] + w.ins[m + 1..];
        assert if n < m then v.ins[n] == w.ins[n] else v.ins[n - 1] == w.ins[n];
      }
    case Administer(_) =>
    case Transfer(_, _, _, _) =>
    case _ => OtherGrows(w, s); Kept(w, v, n);
  }

  lemma Kept(w: World, v: World, n: nat)
    requires n < |w.ins| && w.ins <= v.ins
    ensures w.ins[n] in v.ins
  {
    assert v.ins[n] == w.ins[n];
  }

  lemma DeliverInKeepsLanded(w: World, s: Step, v: World, n: nat)
    requires v == Next(w, s) && s.action.DeliverIn? && n < |w.ins| && w.ins[n].flight.Landed?
    ensures w.ins[n] in v.ins
  {
    hide Apply;
    var m := s.action.n;
    if m < |w.ins| && w.ins[m].flight.InFlight? {
      ApplyIns(LandIn(w, m, AckOk), w.ins[m].id, ProcessorCallback(w.auth, s.block, w.ins[m].id, w.ins[m].body));
      assert v.ins[n] == w.ins[n];
    }
  }

  // ----- Executions that cannot end -----

  /** The processor of `d` keeps the result of `id`, and will not send it again. */
  ghost predicate GivenUpSending(w: World, d: Domain, id: nat) {
    d in w.procs && id in w.procs[d].results && w.procs[d].results[id].state.Failed?
  }

  /** A packet with the result of `id` failed for another reason than a timeout; its processor has not
      been told yet. */
  ghost predicate FailedPacket(w: World, n: nat, id: nat) {
    && n < |w.ins| && w.ins[n].id == id && w.ins[n].flight.Landed?
    && !w.ins[n].flight.ack.AckOk? && w.ins[n].flight.ack != AckError(TIMEOUT)
  }

  ghost predicate Doomed(w: World, id: nat) {
    (exists d :: GivenUpSending(w, d, id)) || (exists n: nat :: FailedPacket(w, n, id))
  }

  /** Doomed ids are in process, and their token stays with the contract. */
  lemma DoomedRuns(w: World, id: nat)
    requires Inv(w) && Doomed(w, id)
    ensures IsRunning(w, id) && id in AI.InProcessIds(w.auth, w.auth.records[id].tag)
    ensures w.refunded[id] == 0 && w.burnt[id] == 0
  {
    hide Core, Of, Faithful, OutFits, PI.Inv;
    InvAt(w, id);
    if d :| GivenUpSending(w, d, id) {
      KeptRuns(w, d, id);
    } else {
      var n: nat :| FailedPacket(w, n, id);
      InAt(w, n);
    }
    SettledAtInv(w, id);
  }

  lemma KeptRuns(w: World, d: Domain, id: nat)
    requires Inv(w) && GivenUpSending(w, d, id)
    ensures IsRunning(w, id) && w.auth.records[id].domain == d && Of(w.ins, id) == []
  {
    hide Core, Of, Faithful, OutFits, PI.Inv;
    InvAt(w, id);
  }

  lemma SettledAtInv(w: World, id: nat)
    requires Inv(w)
    ensures SettledAt(w.auth, id, w.refunded, w.burnt)
  {
    hide StageOk, AI.Inv, ProcsOk, BankOk, SettledAt;
  }

  /** No call changes a result that was given up. */
  lemma FailedKept(p: P.ProcStore, input: P.Input, block: Block, q: P.ProcStore, id: nat)
    requires PI.Inv(p) && PS.Welcome(p, input) && P.Serve(p, input, block).Done? && P.Serve(p, input, block).store == q
    requires id in p.results && p.results[id].state.Failed? && id in p.history && p.history[id].reports != []
    requires input.ResultAcked? ==> input.id != id
    ensures PI.Get(q.results, id) == Some(p.results[id])
  {
    hide PI.Inv, P.Handle, P.Tick, P.LibraryCallback, PE.Summary, PS.InNoQueue;
    match input
    case Received(order) =>
      if order.CarriesBatch() {
        AdmitsKeepsResult(p, order, block, id);
      } else {
        ControlSummary(p, order, block);
        SummaryKeepsResult(p, P.Handle(p, order, block), id);
      }
    case Ticked(outcome) =>
      PE.TickSummary(p, block, outcome);
      SummaryKeepsResult(p, P.Tick(p, block, outcome), id);
    case LibraryCalled(k, sender, msg) =>
      PE.CallbackSummary(p, k, sender, msg, block);
      SummaryKeepsResult(p, P.LibraryCallback(p, k, sender, msg, block), id);
    case _ =>
  }

  lemma SummaryKeepsResult(p: P.ProcStore, o: P.Outcome, id: nat)
    requires o.Done? && PE.Summary(p, o) && id in p.history && p.history[id].reports != []
    ensures PI.Get(o.store.results, id) == PI.Get(p.results, id)
  {
  }

  lemma AdmitsKeepsResult(p: P.ProcStore, order: AuthorizationMsg, block: Block, id: nat)
    requires order.CarriesBatch() && order.id !in p.history && P.Handle(p, order, block).Done? && id in p.history
    ensures PI.Get(P.Handle(p, order, block).store.results, id) == PI.Get(p.results, id)
  {
    hide P.Handle;
    PE.HandleAdmits(p, order, block);
  }

  lemma GivenUpStays(w: World, s: Step, v: World, d: Domain, id: nat)
    requires Inv(w) && v == Next(w, s) && GivenUpSending(w, d, id)
    ensures GivenUpSending(v, d, id)
  {
    hide Inv, Next, P.Serve, PI.Inv, PS.Welcome;
    var input := ServedCall(w, s, d);
    StepServes(w, s, v, d);
    if input.Some? {
      ProcAt(w, d);
      KeptRuns(w, d, id);
      KeptReported(w, d, id);
      if input.value.ResultAcked? && input.value.id == id {
        var n :| 0 <= n < |w.ins| && w.ins[n].id == id && w.ins[n].flight.Landed?;
        NoPacket(w.ins, id);
        assert false;
      }
      FailedKept(w.procs[d], input.value, s.block, v.procs[d], id);
    }
  }

  lemma KeptReported(w: World, d: Domain, id: nat)
    requires Inv(w) && GivenUpSending(w, d, id)
    ensures id in w.procs[d].history && w.procs[d].history[id].reports != []
  {
    hide Core, Of, Faithful, OutFits, PI.Inv;
    InvAt(w, id);
  }

  /** Telling the processor of the failed packet makes it give up. */
  lemma FailedPacketGivenUp(w: World, s: Step, v: World, n: nat, id: nat)
    requires Inv(w) && v == Next(w, s) && FailedPacket(w, n, id) && s.action == AckIn(n)
    ensures GivenUpSending(v, w.ins[n].domain, id)
  {
    hide Inv, P.ResultAck;
    FailedPacketAt(w, n, id);
    KeptAt(w, n);
    ResultAckDone(w.procs[w.ins[n].domain], id, w.ins[n].flight.ack);
  }

  lemma FailedPacketAt(w: World, n: nat, id: nat)
    requires Inv(w) && FailedPacket(w, n, id)
    ensures w.ins[n].domain in w.procs
  {
    hide Core, Of, Faithful, OutFits;
    InvAt(w, id);
    InAt(w, n);
  }

  lemma DoomedStays(w: World, s: Step, v: World, id: nat)
    requires Inv(w) && v == Next(w, s) && Doomed(w, id)
    ensures Doomed(v, id)
  {
    hide Inv, Next, GivenUpSending;
    if d :| GivenUpSending(w, d, id) {
      GivenUpStays(w, s, v, d, id);
    } else {
      var n: nat :| FailedPacket(w, n, id);
      if s.action == AckIn(n) {
        FailedPacketGivenUp(w, s, v, n, id);
      } else {
        LandedStays(w, s, v, n);
        var m :| 0 <= m < |v.ins| && v.ins[m] == w.ins[n];
        assert FailedPacket(v, m, id);
      }
    }
  }

  /** Any error but a timeout, also a fatal one, dooms the id whose result is on its way. */
  lemma ErrorDooms(w: World, n: nat, delivery: Delivery, block: Block, v: World)
    requires n < |w.ins| && w.ins[n].flight.InFlight?
    requires !delivery.Arrives? && NotDelivered(delivery) != AckError(TIMEOUT)
    requires v == Next(w, Step(block, DeliverIn(n, delivery)))
    ensures Doomed(v, w.ins[n].id)
  {
    assert v == LandIn(w, n, NotDelivered(delivery));
    assert v.ins[n] == w.ins[n].(flight := Landed(NotDelivered(delivery)));
    assert FailedPacket(v, n, w.ins[n].id);
  }

  /** Whatever happens later, a doomed id stays in process: it is counted against its label, and its token
      is neither burned nor sent back. */
  lemma {:induction false} DoomedForever(w: World, more: seq<Step>, v: World, id: nat)
    requires Reachable(w) && v == RunFrom(w, more) && Doomed(w, id)
    ensures Doomed(v, id) && IsRunning(v, id) && id in AI.InProcessIds(v.auth, v.auth.records[id].tag)
    ensures v.refunded[id] == 0 && v.burnt[id] == 0
    decreases |more|
  {
    hide Reachable, Next, Inv, Doomed;
    ReachableOk(w);
    if more == [] {
      DoomedRuns(w, id);
    } else {
      var most := more[..|more| - 1];
      var u := RunFrom(w, most);
      DoomedForever(w, most, u, id);
      RunFromKeeps(w, most);
      DoomedStays(u, more[|more| - 1], v, id);
      RunFromKeeps(w, more);
      DoomedRuns(v, id);
    }
  }

  // ----- Executions that can end -----

  ghost predicate IsOver(w: World, id: nat) { id in w.auth.records && !w.auth.records[id].result.InProcess? }

  ghost predicate AllAt(steps: seq<Step>, now: Block) { forall i :: 0 <= i < |steps| ==> steps[i].block == now }

  /** Some continuation of the run, all at this block, ends the execution. */
  ghost predicate CanEnd(w: World, id: nat, now: Block) {
    exists more :: AllAt(more, now) && IsOver(RunFrom(w, more), id)
  }

  lemma {:induction false} RunFromFirst(w: World, s: Step, more: seq<Step>)
    ensures RunFrom(w, [s] + more) == RunFrom(Next(w, s), more)
    decreases |more|
  {
    hide Next;
    var all := [s] + more;
    if more == [] {
      assert all == [s];
      assert RunFrom(w, all[..0]) == w;
    } else {
      var most := more[..|more| - 1];
      RunFromFirst(w, s, most);
      assert all[..|all| - 1] == [s] + most && all[|all| - 1] == more[|more| - 1];
    }
  }

  lemma OverEnds(w: World, id: nat, now: Block)
    requires IsOver(w, id)
    ensures CanEnd(w, id, now)
  {
    assert RunFrom(w, []) == w && AllAt([], now);
  }

  lemma StepEnds(w: World, s: Step, v: World, id: nat)
    requires v == Next(w, s) && CanEnd(v, id, s.block)
    ensures CanEnd(w, id, s.block)
  {
    hide RunFrom, Next, IsOver;
    var more :| AllAt(more, s.block) && IsOver(RunFrom(v, more), id);
    RunFromFirst(w, s, more);
    assert AllAt([s] + more, s.block);
  }

  lemma AppliedOver(w: World, id: nat, o: AuthOutcome, block: Block, res: ExecutionResult)
    requires id in w.auth.records && !res.InProcess?
    requires o.Accepted? ==> o.store == Close(w.auth, block, id, res)
    ensures Apply(w, id, o).Some? ==> IsOver(Apply(w, id, o).value, id)
  {
    hide RunTokens;
  }

  /** A result that is on its way can arrive. */
  lemma InFlightEnds(w: World, n: nat, now: Block)
    requires Inv(w) && n < |w.ins| && w.ins[n].flight.InFlight?
    ensures CanEnd(w, w.ins[n].id, now)
  {
    hide Inv, Apply, ProcessorCallback, LandIn, AI.Inv, IsFinal, CanEnd;
    var k := w.ins[n];
    ResultArrives(w, now, n);
    InFlightFits(w, n);
    AuthAt(w);
    ProcessorCallbackIs(w.auth, now, k.id, k.body);
    FinalIsClosed(k.body);
    LandInAuth(w, n, AckOk);
    AppliedOver(LandIn(w, n, AckOk), k.id, ProcessorCallback(w.auth, now, k.id, k.body), now, k.body);
    var s := Step(now, DeliverIn(n, Arrives));
    OverEnds(Next(w, s), k.id, now);
    StepEnds(w, s, Next(w, s), k.id);
  }

  /** A packet to a processor that failed can be told of. */
  lemma BouncedEnds(w: World, n: nat, now: Block)
    requires Inv(w) && n < |w.outs| && w.outs[n].flight.Landed? && !w.outs[n].flight.ack.AckOk?
    ensures CanEnd(w, w.outs[n].id, now)
  {
    hide Inv, Apply, BridgeCallback, AI.Inv, CanEnd;
    var id, ack := w.outs[n].id, w.outs[n].flight.ack;
    var w1 := w.(outs := w.outs[..n] + w.outs[n + 1..]);
    BouncedOpen(w, n);
    AuthAt(w);
    AckOutBounced(w, now, n);
    BridgeCallbackIs(w.auth, now, id, ack);
    AppliedOver(w1, id, BridgeCallback(w.auth, now, id, ack), now, Bounced(w.auth.records[id], now, ack));
    var s := Step(now, AckOut(n));
    OverEnds(Next(w, s), id, now);
    StepEnds(w, s, Next(w, s), id);
  }

  /** A packet to a processor can time out. */
  lemma InTransitEnds(w: World, n: nat, now: Block)
    requires Inv(w) && n < |w.outs| && w.outs[n].flight.InFlight? && w.outs[n].domain in w.procs
    ensures CanEnd(w, w.outs[n].id, now)
  {
    hide Inv, CanEnd;
    var s := Step(now, DeliverOut(n, TimesOut));
    var v := LandOut(w, n, AckError(TIMEOUT));
    assert Next(w, s) == v;
    StepKeeps(w, s);
    assert v.outs[n] == w.outs[n].(flight := Landed(AckError(TIMEOUT)));
    BouncedEnds(v, n, now);
    StepEnds(w, s, v, w.outs[n].id);
  }

  /** A report of a processor ends the execution at once, or is on its way. */
  lemma ReportEnds(w: World, d: Domain, input: P.Input, id: nat, res: ExecutionResult, now: Block)
    requires Inv(w) && IsRunning(w, id) && d in w.procs && MayReach(w.procs[d], input) && !res.InProcess?
    requires P.Serve(w.procs[d], input, now).Done? && P.Serve(w.procs[d], input, now).report == Some(P.Report(id, res))
    requires After(w, d, P.Serve(w.procs[d], input, now), now).Some?
    ensures CanEnd(w, id, now)
  {
    hide Inv, P.Serve, MayReach, Apply, CanEnd;
    var o := P.Serve(w.procs[d], input, now);
    var s := Step(now, AtProcessor(d, input));
    var w1 := w.(procs := w.procs[d := o.store]);
    var v := After(w, d, o, now).value;
    assert Next(w, s) == v;
    StepKeeps(w, s);
    if d.Main? {
      CallbackCloses(w1.auth, id, res, now);
      AppliedOver(w1, id, ProcessorCallback(w.auth, now, id, res), now, res);
      OverEnds(v, id, now);
    } else {
      assert v.ins[|w.ins|] == Packet(id, d, res, InFlight);
      InFlightEnds(v, |w.ins|, now);
    }
    StepEnds(w, s, v, id);
  }

  lemma CallbackCloses(a: AuthStore, id: nat, res: ExecutionResult, now: Block)
    ensures var o := ProcessorCallback(a, now, id, res);
            o.Accepted? ==> id in a.records && o.store == Close(a, now, id, res)
  {
  }

  /** A queued batch can be evicted. */
  lemma QueuedEnds(w: World, d: Domain, priority: Priority, k: nat, id: nat, now: Block)
    requires Inv(w) && IsRunning(w, id) && d in w.procs && QueuedAt(w.procs[d], id, priority, k)
    ensures CanEnd(w, id, now)
  {
    hide Inv, After, P.Evict, CanEnd;
    var order := EvictMsgs(k, priority);
    EvictReports(w.procs[d], k, priority);
    ControlKeeps(w, d, order, now);
    ReportEnds(w, d, P.Received(order), id, RemovedByOwner, now);
  }

  lemma EvictReports(p: P.ProcStore, k: nat, priority: Priority)
    requires k < |P.QueueOf(p, priority)|
    ensures var o := P.Evict(p, k, priority);
            o.Done? && o.report == Some(P.Report(P.QueueOf(p, priority)[k].id, RemovedByOwner))
  {
  }

  /** A library can call back; then the execution ends or the batch is queued. */
  lemma ParkedEnds(w: World, d: Domain, id: nat, now: Block)
    requires Inv(w) && IsRunning(w, id) && w.auth.records[id].domain == d && d in w.procs && ParkedAt(w.procs[d], id)
    requires id in w.procs[d].history && w.procs[d].history[id].reports == []
    ensures CanEnd(w, id, now)
  {
    hide Inv, P.LibraryCallback, After, CanEnd, P.QueueHas, PI.Inv;
    var p := w.procs[d];
    var cb := p.pending[id].callback;
    var o := P.LibraryCallback(p, id, cb.address, cb.message, now);
    CallbackAnswers(p, id, now);
    ProtocolSteps.CallbackKeeps(w, d, id, cb.address, cb.message, now);
    var input := P.LibraryCalled(id, cb.address, cb.message);
    if o.report.Some? {
      ReportEnds(w, d, input, id, o.report.value.result, now);
    } else {
      var s := Step(now, AtProcessor(d, input));
      var v := After(w, d, o, now).value;
      assert Next(w, s) == v;
      StepKeeps(w, s);
      AfterQuiet(w, d, o, now);
      ProcAt(w, d);
      PE.CallbackSummary(p, id, cb.address, cb.message, now);
      QuietHistory(p, o, id);
      ProcAt(v, d);
      var place := WaitsAt(v.procs[d], d, id);
      QueuedEnds(v, d, place.priority, place.position, id, now);
      StepEnds(w, s, v, id);
    }
  }

  lemma AfterQuiet(w: World, d: Domain, o: P.Outcome, block: Block)
    requires o.Done? && o.report.None?
    ensures After(w, d, o, block) == Some(w.(procs := w.procs[d := o.store]))
  {
  }

  lemma QuietHistory(p: P.ProcStore, o: P.Outcome, id: nat)
    requires o.Done? && o.report.None? && PE.Summary(p, o) && id in p.history
    ensures id in o.store.history && o.store.history[id].reports == p.history[id].reports
  {
  }

  /** The callback a parked batch waits for is accepted, and the batch waits no more. */
  lemma CallbackAnswers(p: P.ProcStore, id: nat, now: Block)
    requires id in p.pending && id in p.index
    ensures var cb := p.pending[id].callback;
            var o := P.LibraryCallback(p, id, cb.address, cb.message, now);
            && o.Done? && id !in o.store.pending
            && (o.report.Some? ==> o.report.value == P.Report(id, Success))
  {
  }

  /** A result whose packet timed out can be sent again. */
  lemma TimedOutEnds(w: World, d: Domain, id: nat, now: Block)
    requires Inv(w) && IsRunning(w, id) && d in w.procs && id in w.procs[d].results &&
             w.procs[d].results[id].state.TimedOut?
    ensures CanEnd(w, id, now)
  {
    hide Inv, After, CanEnd;
    ResendKeeps(w, d, id, now);
    ResentIsFinal(w, d, id);
    ReportEnds(w, d, P.ResendAsked(id), id, w.procs[d].results[id].result, now);
  }

  lemma ResentIsFinal(w: World, d: Domain, id: nat)
    requires Inv(w) && d in w.procs && id in w.procs[d].results
    ensures !w.procs[d].results[id].result.InProcess?
  {
    hide Core, Of, Faithful, OutFits;
    InvAt(w, id);
  }

  /** The processor is told that its packet timed out. */
  lemma LandedTimeoutEnds(w: World, n: nat, now: Block)
    requires Inv(w) && n < |w.ins| && w.ins[n].flight == Landed(AckError(TIMEOUT)) && IsRunning(w, w.ins[n].id)
    requires w.ins[n].domain in w.procs
    ensures CanEnd(w, w.ins[n].id, now)
  {
    hide Inv, CanEnd, P.ResultAck;
    var k := w.ins[n];
    var s := Step(now, AckIn(n));
    KeptAt(w, n);
    ResultAckDone(w.procs[k.domain], k.id, AckError(TIMEOUT));
    StepKeeps(w, s);
    TimedOutEnds(Next(w, s), k.domain, k.id, now);
    StepEnds(w, s, Next(w, s), k.id);
  }

  lemma UnseenEnds(w: World, id: nat, now: Block)
    requires Inv(w) && IsRunning(w, id) && SeenBy(w, id).None?
    ensures CanEnd(w, id, now)
  {
    hide Core, Of, ReportFits, Faithful, CanEnd;
    InvAt(w, id);
    var n := PacketOnce(w.outs, id);
    if w.outs[n].flight.InFlight? {
      InTransitEnds(w, n, now);
    } else {
      BouncedEnds(w, n, now);
    }
  }

  lemma UnreportedEnds(w: World, id: nat, now: Block)
    requires Inv(w) && IsRunning(w, id) && SeenBy(w, id).Some? && SeenBy(w, id).value.reports == []
    ensures CanEnd(w, id, now)
  {
    hide Inv, CanEnd, PI.Inv, P.QueueHas;
    var d := w.auth.records[id].domain;
    ProcAt(w, d);
    var place := WaitsAt(w.procs[d], d, id);
    if place.InQueue? {
      QueuedEnds(w, d, place.priority, place.position, id, now);
    } else {
      ParkedEnds(w, d, id, now);
    }
  }

  lemma ReportedEnds(w: World, id: nat, now: Block)
    requires Inv(w) && IsRunning(w, id) && SeenBy(w, id).Some? && SeenBy(w, id).value.reports != [] && !Doomed(w, id)
    ensures CanEnd(w, id, now)
  {
    hide Core, Of, OutFits, Faithful, CanEnd;
    InvAt(w, id);
    var d := w.auth.records[id].domain;
    if Of(w.ins, id) == [] {
      assert !GivenUpSending(w, d, id);
      TimedOutEnds(w, d, id, now);
    } else {
      var n := PacketOnce(w.ins, id);
      assert !FailedPacket(w, n, id);
      if w.ins[n].flight.InFlight? {
        InFlightEnds(w, n, now);
      } else {
        LandedTimeoutEnds(w, n, now);
      }
    }
  }

  /** An execution in process can be ended, at any block, exactly when no packet with its result has
      failed for another reason than a timeout. */
  lemma CanEndIff(w: World, id: nat, now: Block)
    requires Reachable(w) && IsRunning(w, id)
    ensures CanEnd(w, id, now) <==> !Doomed(w, id)
  {
    hide Reachable, Inv, Doomed, RunFrom;
    ReachableOk(w);
    if Doomed(w, id) {
      forall more: seq<Step>
        ensures !IsOver(RunFrom(w, more), id)
      {
        DoomedForever(w, more, RunFrom(w, more), id);
      }
    } else if SeenBy(w, id).None? {
      UnseenEnds(w, id, now);
    } else if SeenBy(w, id).value.reports == [] {
      UnreportedEnds(w, id, now);
    } else {
      ReportedEnds(w, id, now);
    }
  }
}
