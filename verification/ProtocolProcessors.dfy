/** A step of the whole system as one processor sees it: the processor serves the call that the step makes
    on it, or none, and what it serves is welcome. */
module ProtocolProcessors {
  import opened Types
  import opened AuthorizationModel
  import opened Protocol
  import opened ProtocolTokens
  import opened ProtocolInvariant
  import opened ProtocolSteps
  import opened ProtocolCalls
  import opened ProtocolPackets
  import opened ProtocolLifeCycle
  import P = ProcessorModel
  import AI = AuthorizationInvariant
  import PS = ProcessorSteps
  import PE = ProcessorEffects

  /** The processor of `d` served `input`, or nothing. */
  ghost predicate Serves(w: World, v: World, d: Domain, input: Option<P.Input>, block: Block) {
    && d in w.procs && d in v.procs
    && match input
       case None => v.procs[d] == w.procs[d]
       case Some(i) => P.Serve(w.procs[d], i, block).Done? && P.Serve(w.procs[d], i, block).store == v.procs[d]
  }

  /** The call that a step makes on the processor of `d`. */
  function CallOn(w: World, s: Step, d: Domain): Option<P.Input> {
    match s.action
    case Send(_, tag, _, msgs, _) =>
      if !d.Main? || tag !in w.auth.authorizations then None
      else
        var auth := w.auth.authorizations[tag];
        if DomainOf(auth.subroutine) != Some(Main) then None
        else Some(P.Received(EnqueueMsgs(w.auth.nextId, msgs, auth.subroutine, auth.priority,
                                         Deadline(auth.subroutine, s.block))))
    case Insert(tag, position, priority, msgs) =>
      if !d.Main? || tag !in w.auth.authorizations then None
      else
        var auth := w.auth.authorizations[tag];
        if DomainOf(auth.subroutine) != Some(Main) then None
        else Some(P.Received(InsertMsgs(w.auth.nextId, position, msgs, auth.subroutine, priority,
                                        Deadline(auth.subroutine, s.block))))
    case Prove(_, _, zk, _) =>
      if d.Main? && zk.domain.Main? then Some(P.Received(AssignId(zk.msg, w.auth.nextId))) else None
    case DeliverOut(n, delivery) =>
      if n < |w.outs| && w.outs[n].domain == d && delivery.Arrives? then Some(P.Received(w.outs[n].body)) else None
    case AckIn(n) =>
      if n < |w.ins| && w.ins[n].domain == d && w.ins[n].flight.Landed?
      then Some(P.ResultAcked(w.ins[n].id, w.ins[n].flight.ack)) else None
    case AtProcessor(e, input) => if e == d then Some(input) else None
    case _ => None
  }

  /** The call is served when the step succeeds and the call does. */
  function ServedCall(w: World, s: Step, d: Domain): Option<P.Input>
    requires d in w.procs
  {
    var call := CallOn(w, s, d);
    if TryStep(w, s).Some? && call.Some? && P.Serve(w.procs[d], call.value, s.block).Done? then call else None
  }

  lemma SettleProcs(w: World, id: nat, o: AuthOutcome)
    ensures Apply(w, id, o).Some? ==> Apply(w, id, o).value.procs == w.procs
  {
    hide RunTokens;
  }

  lemma AfterProcs(w: World, d: Domain, o: P.Outcome, block: Block)
    ensures After(w, d, o, block).Some? ==> o.Done? && After(w, d, o, block).value.procs == w.procs[d := o.store]
  {
    hide Apply;
    if o.Done? && o.report.Some? {
      SettleProcs(w.(procs := w.procs[d := o.store]), o.report.value.id,
                  ProcessorCallback(w.auth, block, o.report.value.id, o.report.value.result));
    }
  }

  lemma DispatchServes(w: World, call: Call, block: Block, v: World, d: Domain)
    requires Dispatch(w, call, block) == Some(v) && d in w.procs
    ensures Serves(w, v, d, if d.Main? && call.domain.Main? then Some(P.Received(call.msg)) else None, block)
  {
    hide After, P.Handle;
    if call.domain.Main? {
      AfterProcs(w, Main, P.Handle(w.procs[Main], call.msg, block), block);
    }
  }

  /** A batch for an id that has a record is the batch of that record, which is in process. */
  ghost predicate Genuine(w: World, input: P.Input) {
    input.Received? && input.order.CarriesBatch() && input.order.id in w.auth.records ==>
      var r := w.auth.records[input.order.id];
      r.result.InProcess? && Faithful(w.auth, r, input.order.Batch())
  }

  /** A result is only acknowledged while there is a packet with it. */
  ghost predicate Acknowledges(w: World, input: P.Input) {
    input.ResultAcked? ==> exists n :: 0 <= n < |w.ins| && w.ins[n].id == input.id && w.ins[n].flight.Landed?
  }

  /** A call that fits the state of the system. */
  ghost predicate Proper(w: World, input: P.Input, d: Domain)
    requires d in w.procs
  {
    PS.Welcome(w.procs[d], input) && Acknowledges(w, input) && Genuine(w, input)
  }

  /** The next id is unknown to every processor. */
  lemma NextUnseen(w: World, d: Domain)
    requires Inv(w) && d in w.procs
    ensures w.auth.nextId !in w.procs[d].history && w.auth.nextId !in w.auth.records
  {
    hide TokensOk, ProcsOk, AI.TableOk, AI.RecordsOk, AI.CountsOk, Fits;
    InvAt(w, w.auth.nextId);
  }

  lemma CallServes(w: World, s: Step, v: World, d: Domain)
    requires Inv(w) && TryStep(w, s) == Some(v) && d in w.procs && (s.action.Send? || s.action.Insert?)
    ensures Serves(w, v, d, CallOn(w, s, d), s.block)
    ensures CallOn(w, s, d).Some? ==> Proper(w, CallOn(w, s, d).value, d)
  {
    hide Inv, SendMsgs, InsertMessages, Dispatch, Pay, ReachesProcessor, P.Serve, Faithful;
    NextUnseen(w, d);
    match s.action
    case Send(sender, tag, ttl, msgs, paid) =>
      var bank := Pay(w.bank, tag, sender, paid, w.auth.authorizations[tag].mode.WithCallLimit?).value;
      var balance := Balance(bank, tag, sender);
      var o := SendMsgs(w.auth, s.block, sender, tag, ttl, msgs, paid, balance);
      SendAccepted(w.auth, s.block, sender, tag, ttl, msgs, paid, balance);
      DispatchServes(w.(auth := o.store, bank := bank), o.call.value, s.block, v, d);
    case Insert(tag, position, priority, msgs) =>
      var o := InsertMessages(w.auth, s.block, tag, position, priority, msgs);
      InsertAccepted(w.auth, s.block, tag, position, priority, msgs);
      DispatchServes(w.(auth := o.store), o.call.value, s.block, v, d);
  }

  lemma ProveServes(w: World, s: Step, v: World, d: Domain)
    requires Inv(w) && TryStep(w, s) == Some(v) && d in w.procs && s.action.Prove?
    ensures Serves(w, v, d, CallOn(w, s, d), s.block)
    ensures CallOn(w, s, d).Some? ==> Proper(w, CallOn(w, s, d).value, d)
  {
    hide Inv, ExecuteZk, Dispatch, Pay, P.Serve, Faithful;
    NextUnseen(w, d);
    var a := s.action;
    var backed := w.auth.zkAuthorizations[a.tag].mode.WithCallLimit? && a.zk.msg.CarriesBatch();
    var bank := Pay(w.bank, a.tag, a.sender, a.paid, backed).value;
    var balance := Balance(bank, a.tag, a.sender);
    var o := ExecuteZk(w.auth, s.block, a.sender, a.tag, a.zk, a.paid, balance);
    var c := ProveAccepted(w.auth, s.block, a.sender, a.tag, a.zk, a.paid, balance);
    DispatchServes(w.(auth := o.store, bank := bank), o.call.value, s.block, v, d);
  }

  lemma RetryServes(w: World, s: Step, v: World, d: Domain)
    requires Inv(w) && TryStep(w, s) == Some(v) && d in w.procs && s.action.Retry?
    ensures Serves(w, v, d, None, s.block)
  {
    hide Inv, RetryMsgs, Dispatch, Apply;
    var id := s.action.id;
    var o := RetryMsgs(w.auth, s.block, id);
    RetryCases(w.auth, s.block, id);
    if o.call.Some? {
      TimedOutExternal(w, id);
      DispatchServes(w.(auth := o.store), o.call.value, s.block, v, d);
    } else {
      SettleProcs(w, id, o);
    }
  }

  lemma DeliverOutServes(w: World, s: Step, v: World, d: Domain)
    requires Inv(w) && TryStep(w, s) == Some(v) && d in w.procs && s.action.DeliverOut?
    ensures Serves(w, v, d, ServedCall(w, s, d), s.block)
    ensures ServedCall(w, s, d).Some? ==> Proper(w, ServedCall(w, s, d).value, d)
  {
    hide Inv, After, P.Handle, Arriving, LandOut, Faithful;
    var n := s.action.n;
    var k := w.outs[n];
    LandOutProcs(w, n);
    if s.action.delivery.Arrives? && P.Handle(w.procs[k.domain], k.body, s.block).Done? {
      AfterProcs(LandOut(w, n, AckOk), k.domain, P.Handle(w.procs[k.domain], k.body, s.block), s.block);
      if d == k.domain {
        ArrivesFits(w, n);
        ArrivingUnseen(LandOut(w, n, AckOk), k.body, d);
      }
    } else {
      var delivery := s.action.delivery;
      LandOutKeepsProcs(w, n, if delivery.Arrives? then AckError("execution failed") else NotDelivered(delivery));
    }
  }

  lemma LandOutKeepsProcs(w: World, n: nat, ack: Ack)
    requires n < |w.outs|
    ensures LandOut(w, n, ack).procs == w.procs
  {
  }

  lemma ArrivingUnseen(w: World, m: AuthorizationMsg, d: Domain)
    requires Arriving(w, m) && d in w.procs
    ensures m.id !in w.procs[d].history && Genuine(w, P.Received(m))
  {
    hide Brought, Faithful;
  }

  lemma AckInServes(w: World, s: Step, v: World, d: Domain)
    requires TryStep(w, s) == Some(v) && d in w.procs && s.action.AckIn?
    ensures Serves(w, v, d, ServedCall(w, s, d), s.block)
    ensures ServedCall(w, s, d).Some? ==> Proper(w, ServedCall(w, s, d).value, d)
  {
    hide P.ResultAck;
  }

  lemma AtProcessorServes(w: World, s: Step, v: World, d: Domain)
    requires TryStep(w, s) == Some(v) && d in w.procs && s.action.AtProcessor?
    ensures Serves(w, v, d, CallOn(w, s, d), s.block)
    ensures CallOn(w, s, d).Some? ==> Proper(w, CallOn(w, s, d).value, d)
  {
    hide P.Serve, After, P.QueueHas, PS.InNoQueue;
    var e, i := s.action.domain, s.action.input;
    AfterProcs(w, e, P.Serve(w.procs[e], i, s.block), s.block);
    if d == e && i.LibraryCalled? { PE.QueueHasIff(w.procs[d], i.id); }
  }

  lemma OtherServes(w: World, s: Step, v: World, d: Domain)
    requires Inv(w) && TryStep(w, s) == Some(v) && d in w.procs
    requires s.action.AckOut? || s.action.DeliverIn? || s.action.Administer? || s.action.Transfer?
    ensures Serves(w, v, d, None, s.block)
  {
    hide Inv, Apply, ChangeTable, RunTokens;
    match s.action
    case AckOut(n) =>
      var w1, id := w.(outs := w.outs[..n] + w.outs[n + 1..]), w.outs[n].id;
      SettleProcs(w1, id, BridgeCallback(w.auth, s.block, id, w.outs[n].flight.ack));
    case DeliverIn(n, _) =>
      SettleProcs(LandIn(w, n, AckOk), w.ins[n].id, ProcessorCallback(w.auth, s.block, w.ins[n].id, w.ins[n].body));
    case Administer(c) =>
      if c.NewDomain? { NewIsNew(w, s.block, c); }
    case Transfer(_, _, _, _) =>
  }

  lemma NewIsNew(w: World, block: Block, c: TableChange)
    requires Inv(w) && c.NewDomain? && ChangeTable(w.auth, block, c).Accepted?
    ensures External(c.name) !in w.procs
  {
    hide AI.Inv, TokensOk, StageOk, ProcOk;
    assert ProcsOk(w);
  }

  /** Every step, seen from any processor. */
  lemma StepServes(w: World, s: Step, v: World, d: Domain)
    requires Inv(w) && v == Next(w, s) && d in w.procs
    ensures Serves(w, v, d, ServedCall(w, s, d), s.block)
    ensures ServedCall(w, s, d).Some? ==> Proper(w, ServedCall(w, s, d).value, d)
  {
    hide Inv, TryStep, P.Serve, Proper;
    if TryStep(w, s).Some? {
      match s.action
      case Send(_, _, _, _, _) => CallServes(w, s, v, d);
      case Insert(_, _, _, _) => CallServes(w, s, v, d);
      case Prove(_, _, _, _) => ProveServes(w, s, v, d);
      case Retry(_) => RetryServes(w, s, v, d);
      case DeliverOut(_, _) => DeliverOutServes(w, s, v, d);
      case AckIn(_) => AckInServes(w, s, v, d);
      case AtProcessor(_, _) => AtProcessorServes(w, s, v, d);
      case _ => OtherServes(w, s, v, d);
    }
  }
}
