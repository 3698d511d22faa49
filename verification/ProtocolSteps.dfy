/** The parts of a transaction keep the invariant of the whole system. */
module ProtocolSteps {
  import opened Types
  import opened Validation
  import opened AuthorizationModel
  import opened Protocol
  import opened ProtocolTokens
  import opened ProtocolInvariant
  import P = ProcessorModel
  import AI = AuthorizationInvariant
  import PI = ProcessorInvariant
  import PS = ProcessorSteps
  import PE = ProcessorEffects

  /** The record is open, but nobody has its batch yet. */
  ghost predicate Unplaced(w: World, id: nat) {
    && id in w.auth.records && w.auth.records[id].result.InProcess?
    && w.auth.records[id].domain in w.procs
    && Of(w.outs, id) == [] && Of(w.ins, id) == [] && Unseen(w, id)
  }

  /** The processor has its batch or is about to get it, so a packet that brought it was applied. */
  ghost predicate Brought(w: World, id: nat)
    requires id in w.auth.records
  {
    var r, outs := w.auth.records[id], Of(w.outs, id);
    && |outs| <= 1
    && (outs != [] ==> OutFits(w.auth, r, outs[0], true))
    && (r.domain.Main? ==> outs == [])
    && Of(w.ins, id) == []
  }

  /** The processor has its result, but has not sent it yet. */
  ghost predicate Announced(w: World, id: nat, res: ExecutionResult) {
    && id in w.auth.records && w.auth.records[id].result.InProcess?
    && var r := w.auth.records[id];
       && OnlyAt(w, id, r.domain) && Brought(w, id) && IsFinal(res)
       && var p := w.procs[r.domain];
          && id in p.history && Faithful(w.auth, r, p.history[id].batch) && p.history[id].reports == [res]
          && PI.Get(p.results, id) == PE.Kept(p, res)
  }

  // ----- The authorization contract closes an id -----

  lemma ProcessorCallbackIs(a: AuthStore, block: Block, id: nat, res: ExecutionResult)
    requires AI.Inv(a) && id in a.records && a.records[id].result.InProcess? && IsFinal(res)
    ensures ProcessorCallback(a, block, id, res) ==
            Accepted(Close(a, block, id, res), None, Settlement(a, a.records[id], res))
  {
    hide ValidateMessages, DomainOf, AI.TableOk;
    AI.CountPositive(a, id);
    assert AI.RecordOk(a, a.records[id]);
  }

  /** The result that a bridge callback gives to an id in process. */
  function Bounced(r: Record, block: Block, ack: Ack): ExecutionResult
    requires !ack.AckOk?
  {
    if ack == AckError(TIMEOUT) then Timeout(r.ttl.Some? && !r.ttl.value.IsExpired(block))
    else UnexpectedError(ack.error)
  }

  lemma BridgeCallbackIs(a: AuthStore, block: Block, id: nat, ack: Ack)
    requires AI.Inv(a) && id in a.records && a.records[id].result.InProcess? && !a.records[id].domain.Main?
    requires !ack.AckOk?
    ensures BridgeCallback(a, block, id, ack) ==
            Accepted(Close(a, block, id, Bounced(a.records[id], block, ack)), None,
                     Settlement(a, a.records[id], Bounced(a.records[id], block, ack)))
  {
    hide ValidateMessages, DomainOf, AI.TableOk;
    AI.CountPositive(a, id);
    assert AI.RecordOk(a, a.records[id]);
  }

  lemma CloseSameModes(a: AuthStore, block: Block, id: nat, res: ExecutionResult)
    requires id in a.records
    ensures SameModes(a, Close(a, block, id, res))
  {
  }

  /** Closing an id in process never fails, and everything but its place is in order again. */
  lemma CloseCore(w: World, block: Block, id: nat, res: ExecutionResult)
    requires Core(w) && id in w.auth.records && w.auth.records[id].result.InProcess?
    requires !res.InProcess?
    requires res == Timeout(true) ==> w.auth.records[id].ttl.Some?
    requires res.Timeout? || res.UnexpectedError? ==> !w.auth.records[id].domain.Main?
    ensures var o := Settle(w.(auth := Close(w.auth, block, id, res)), id, Settlement(w.auth, w.auth.records[id], res));
            && o.Some? && Core(o.value)
            && o.value == w.(auth := Close(w.auth, block, id, res), bank := o.value.bank,
                             refunded := o.value.refunded, burnt := o.value.burnt)
  {
    hide AI.Inv, TokensOk, Settle, Settlement;
    var a := w.auth;
    var b := Close(a, block, id, res);
    AI.CloseKeeps(a, block, id, res);
    CloseSameModes(a, block, id, res);
    SettleKeeps(w, b, id, b.records[id]);
  }

  lemma CloseSame(w: World, v: World, id: nat, block: Block, res: ExecutionResult, o: nat)
    requires id in w.auth.records && o != id
    requires v.auth == Close(w.auth, block, id, res) && v.procs == w.procs
    requires Of(v.outs, o) == Of(w.outs, o) && Of(v.ins, o) == Of(w.ins, o)
    ensures Same(w, v, o)
  {
    hide Of;
  }

  /** Packets do not matter to the core. */
  lemma CoreSame(w: World, v: World)
    requires Core(w)
    requires v.auth == w.auth && v.bank == w.bank && v.procs == w.procs && v.refunded == w.refunded &&
             v.burnt == w.burnt
    ensures Core(v)
  {
    hide AI.Inv, PI.Inv, BankOk, SettledOk, UsersOk;
  }

  // ----- A result leaves the processor -----

  lemma EmitExternal(w: World, id: nat, res: ExecutionResult, block: Block)
    requires InvBut(w, id) && Announced(w, id, res) && !w.auth.records[id].domain.Main?
    ensures var o := Emit(w, w.auth.records[id].domain, Some(P.Report(id, res)), block);
            o.Some? && Inv(o.value)
  {
    hide AI.Inv, TokensOk, PI.Inv, Faithful, Of;
    var d := w.auth.records[id].domain;
    var k := Packet(id, d, res, InFlight);
    var v := w.(ins := w.ins + [k]);
    CoreSame(w, v);
    forall o: nat
      ensures Of(v.ins, o) == Of(w.ins, o) + (if o == id then [k] else [])
    {
      OfConcat(w.ins, [k], o);
      OfOne(k, o);
    }
    assert forall o: nat :: o != id ==> Same(w, v, o);
    OthersKeep(w, v, id);
    assert ProcOk(d, w.procs[d]);
    assert StageOk(v, id);
    Complete(v, id);
  }

  lemma EmitMain(w: World, id: nat, res: ExecutionResult, block: Block)
    requires InvBut(w, id) && Announced(w, id, res) && w.auth.records[id].domain.Main?
    ensures var o := Emit(w, Main, Some(P.Report(id, res)), block);
            o.Some? && Inv(o.value)
  {
    hide AI.Inv, TokensOk, PI.Inv, Of, Settle, Settlement;
    ProcessorCallbackIs(w.auth, block, id, res);
    CloseCore(w, block, id, res);
    var v := Emit(w, Main, Some(P.Report(id, res)), block).value;
    forall o: nat | o != id
      ensures Same(w, v, o)
    {
      CloseSame(w, v, id, block, res, o);
    }
    OthersKeep(w, v, id);
    assert ProcOk(Main, w.procs[Main]);
    assert StageOk(v, id);
    Complete(v, id);
  }

  lemma EmitKeeps(w: World, d: Domain, id: nat, res: ExecutionResult, block: Block)
    requires InvBut(w, id) && Announced(w, id, res) && d == w.auth.records[id].domain
    ensures var o := Emit(w, d, Some(P.Report(id, res)), block); o.Some? && Inv(o.value)
  {
    hide InvBut, Announced, Inv, Emit;
    if d.Main? {
      EmitMain(w, id, res, block);
    } else {
      EmitExternal(w, id, res, block);
    }
  }

  // ----- A processor runs -----

  lemma ReportIsFinal(p: P.ProcStore, id: nat, res: ExecutionResult)
    requires PI.Inv(p) && id in p.history && p.history[id].reports == [res]
    ensures IsFinal(res)
  {
    hide PI.Underway, PI.IsQueued, PI.IsParked, PI.Select;
    PI.InvAt(p, id);
    assert PI.ViewOf(p, id).history == Some(p.history[id]);
    assert PI.HistoryOk(p.history[id]);
  }

  ghost function WithProc(w: World, d: Domain, p: P.ProcStore): World {
    w.(procs := w.procs[d := p])
  }

  lemma ProcCore(w: World, d: Domain, p: P.ProcStore)
    requires Core(w) && d in w.procs && ProcOk(d, p)
    ensures Core(WithProc(w, d, p))
  {
    hide AI.Inv, PI.Inv, BankOk, SettledOk, UsersOk;
  }

  lemma ProcSame(w: World, d: Domain, p: P.ProcStore, o: nat)
    requires d in w.procs && SameAt(w.procs[d], p, o)
    ensures Same(w, WithProc(w, d, p), o)
  {
    hide Of;
  }

  /** A processor that reports nothing moves nothing. */
  lemma QuietKeeps(w: World, d: Domain, p: P.ProcStore)
    requires Inv(w) && d in w.procs && ProcOk(d, p) && PE.Quiet(w.procs[d], p)
    ensures Inv(WithProc(w, d, p))
  {
    hide Core, StageOk, ProcOk, Same, SameAt;
    var v := WithProc(w, d, p);
    assert Core(w);
    ProcCore(w, d, p);
    forall o: nat
      ensures StageOk(v, o)
    {
      QuietSameAt(w.procs[d], p, o);
      ProcSame(w, d, p, o);
      if o in w.auth.records { CoreLabels(w, o); }
      StageSame(w, v, o);
    }
  }

  lemma CoreLabels(w: World, id: nat)
    requires Core(w) && id in w.auth.records
    ensures LabelKnown(w.auth, w.auth.records[id].tag)
  {
    hide TokensOk, ProcsOk, AI.Inv;
    LabelsKnown(w, id);
  }

  lemma QuietSameAt(p: P.ProcStore, q: P.ProcStore, o: nat)
    requires PE.Quiet(p, q)
    ensures SameAt(p, q, o)
  {
  }

  lemma ReportsSameAt(p: P.ProcStore, q: P.ProcStore, id: nat, res: ExecutionResult, o: nat)
    requires PE.Reports(p, q, id, res) && o != id
    ensures SameAt(p, q, o)
  {
  }

  /** A report is about an id in process whose batch this processor has. */
  lemma ReportsAnnounced(w: World, d: Domain, p: P.ProcStore, id: nat, res: ExecutionResult)
    requires Inv(w) && d in w.procs && ProcOk(d, p) && PE.Reports(w.procs[d], p, id, res)
    ensures var v := WithProc(w, d, p);
            InvBut(v, id) && Announced(v, id, res) && v.auth.records[id].domain == d
  {
    hide Core, SameAt, Same, Of, PI.Inv;
    var v := WithProc(w, d, p);
    InvAt(w, id);
    ProcCore(w, d, p);
    forall o: nat | o != id
      ensures Same(w, v, o)
    {
      ReportsSameAt(w.procs[d], p, id, res, o);
      ProcSame(w, d, p, o);
    }
    OthersKeep(w, v, id);
    ReportIsFinal(p, id, res);
    assert id in w.procs[d].history;
    assert id in w.auth.records && w.auth.records[id].domain == d;
  }

  lemma SummaryKeeps(w: World, d: Domain, o: P.Outcome, block: Block)
    requires Inv(w) && d in w.procs && o.Done? && ProcOk(d, o.store) && PE.Summary(w.procs[d], o)
    ensures After(w, d, o, block).Some? && Inv(After(w, d, o, block).value)
  {
    hide Inv, ProcOk, PE.Quiet, PE.Reports, InvBut, Announced;
    if o.report.None? {
      QuietKeeps(w, d, o.store);
    } else {
      ReportsAnnounced(w, d, o.store, o.report.value.id, o.report.value.result);
      EmitKeeps(WithProc(w, d, o.store), d, o.report.value.id, o.report.value.result, block);
    }
  }

  lemma ProcAt(w: World, d: Domain)
    requires Inv(w) && d in w.procs
    ensures ProcOk(d, w.procs[d])
  {
    hide StageOk, AI.Inv, TokensOk, PI.Inv;
  }

  lemma TickKeeps(w: World, d: Domain, block: Block, outcome: P.SubMsgResult)
    requires Inv(w) && d in w.procs && P.Tick(w.procs[d], block, outcome).Done?
    ensures var o := After(w, d, P.Tick(w.procs[d], block, outcome), block); o.Some? && Inv(o.value)
  {
    hide Inv, PI.Inv, P.Tick, After;
    ProcAt(w, d);
    PS.TickKeeps(w.procs[d], block, outcome);
    PE.TickSummary(w.procs[d], block, outcome);
    SummaryKind(w.procs[d], P.Tick(w.procs[d], block, outcome));
    SummaryKeeps(w, d, P.Tick(w.procs[d], block, outcome), block);
  }

  lemma SummaryKind(p: P.ProcStore, o: P.Outcome)
    requires o.Done? && PE.Summary(p, o)
    ensures o.store.config.domain.OnMain? == p.config.domain.OnMain?
  {
  }

  lemma CallbackKeeps(w: World, d: Domain, id: nat, sender: Addr, msg: Binary, block: Block)
    requires Inv(w) && d in w.procs && !P.QueueHas(w.procs[d], id)
    requires P.LibraryCallback(w.procs[d], id, sender, msg, block).Done?
    ensures var o := After(w, d, P.LibraryCallback(w.procs[d], id, sender, msg, block), block); o.Some? && Inv(o.value)
  {
    hide Inv, PI.Inv, P.LibraryCallback, After, P.QueueHas, PS.InNoQueue;
    ProcAt(w, d);
    PE.QueueHasIff(w.procs[d], id);
    PS.CallbackKeepsIff(w.procs[d], id, sender, msg, block);
    PE.CallbackSummary(w.procs[d], id, sender, msg, block);
    SummaryKind(w.procs[d], P.LibraryCallback(w.procs[d], id, sender, msg, block));
    SummaryKeeps(w, d, P.LibraryCallback(w.procs[d], id, sender, msg, block), block);
  }

  lemma ControlSummary(p: P.ProcStore, m: AuthorizationMsg, block: Block)
    requires PI.Inv(p) && !m.CarriesBatch()
    ensures PE.Summary(p, P.Handle(p, m, block))
  {
    hide PI.Inv, P.Evict;
    if m.EvictMsgs? {
      PE.EvictSummary(p, m.position, m.priority);
    }
  }

  lemma ControlKeeps(w: World, d: Domain, m: AuthorizationMsg, block: Block)
    requires Inv(w) && d in w.procs && !m.CarriesBatch() && P.Handle(w.procs[d], m, block).Done?
    ensures var o := After(w, d, P.Handle(w.procs[d], m, block), block); o.Some? && Inv(o.value)
  {
    hide Inv, PI.Inv, P.Handle, After;
    ProcAt(w, d);
    PS.HandleKeeps(w.procs[d], m, block);
    ControlSummary(w.procs[d], m, block);
    SummaryKind(w.procs[d], P.Handle(w.procs[d], m, block));
    SummaryKeeps(w, d, P.Handle(w.procs[d], m, block), block);
  }

  /** A result sent again is the one that was reported; its last packet is gone and was not applied. */
  lemma ResendKeeps(w: World, d: Domain, id: nat, block: Block)
    requires Inv(w) && d in w.procs && P.RetryCallback(w.procs[d], id).Done?
    ensures var o := After(w, d, P.RetryCallback(w.procs[d], id), block); o.Some? && Inv(o.value)
  {
    hide Core, Same, Of, PI.Inv;
    ProcAt(w, d);
    InvAt(w, id);
    var p := w.procs[d];
    var q := P.RetryCallback(p, id).store;
    var res := p.results[id].result;
    PS.RetryKeeps(p, id);
    assert id in w.auth.records && w.auth.records[id].domain == d;
    assert !d.Main? && w.auth.records[id].result.InProcess? && Of(w.ins, id) == [];
    var v := WithProc(w, d, q);
    ProcCore(w, d, q);
    forall o: nat | o != id
      ensures Same(w, v, o)
    {
      ProcSame(w, d, q, o);
    }
    OthersKeep(w, v, id);
    assert Announced(v, id, res);
    EmitKeeps(v, d, id, res, block);
  }

  /** The state of the proxy matters to nobody but the processor. */
  lemma ProxyKeeps(w: World, d: Domain, input: P.Input, block: Block)
    requires Inv(w) && d in w.procs && (input.ProxyAcked? || input.ProxyRetried?)
    requires P.Serve(w.procs[d], input, block).Done?
    ensures var o := After(w, d, P.Serve(w.procs[d], input, block), block); o.Some? && Inv(o.value)
  {
    hide Inv, PI.Inv, Emit;
    ProcAt(w, d);
    var p, o := w.procs[d], P.Serve(w.procs[d], input, block);
    PS.ConfigKeeps(p, o.store.config);
    assert o.store == p.(config := o.store.config);
    SummaryKeeps(w, d, o, block);
  }

  lemma AtProcessorKeeps(w: World, d: Domain, input: P.Input, block: Block)
    requires Inv(w)
    ensures Inv(Or(DoAtProcessor(w, block, d, input), w))
  {
    hide Inv, P.Tick, P.LibraryCallback, P.RetryCallback, P.Handle, P.QueueHas, Emit, P.ProxyAck, P.RetryBridgeCreation;
    if d in w.procs && MayReach(w.procs[d], input) && P.Serve(w.procs[d], input, block).Done? {
      match input
      case Received(order) => ControlKeeps(w, d, order, block);
      case Ticked(outcome) => TickKeeps(w, d, block, outcome);
      case LibraryCalled(id, sender, msg) => CallbackKeeps(w, d, id, sender, msg, block);
      case ResendAsked(id) => ResendKeeps(w, d, id, block);
      case ProxyAcked(_) => ProxyKeeps(w, d, input, block);
      case ProxyRetried => ProxyKeeps(w, d, input, block);
    }
  }
}
