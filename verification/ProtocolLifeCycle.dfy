/** How the records change. A step opens at most one record or reopens one that timed out; apart
    from that it only closes records that are in process. */
module ProtocolLifeCycle {
  import opened Types
  import opened Validation
  import opened AuthorizationModel
  import opened Protocol
  import opened ProtocolTokens
  import opened ProtocolInvariant
  import opened ProtocolSteps
  import opened ProtocolCalls
  import opened ProtocolPackets
  import P = ProcessorModel
  import AI = AuthorizationInvariant
  import PI = ProcessorInvariant
  import PS = ProcessorSteps
  import PE = ProcessorEffects

  /** The record gets a result, and nothing else about it changes. */
  ghost predicate Closed(r: Record, s: Record) {
    r.result.InProcess? && !s.result.InProcess? && s == r.(result := s.result, updatedAt := s.updatedAt)
  }

  ghost predicate OnlyCloses(a: map<nat, Record>, b: map<nat, Record>) {
    a.Keys == b.Keys && forall id :: id in a ==> b[id] == a[id] || Closed(a[id], b[id])
  }

  ghost predicate SameEntries(a: AuthStore, b: AuthStore) {
    && b.authorizations == a.authorizations && b.zkAuthorizations == a.zkAuthorizations
    && b.domains == a.domains
  }

  ghost predicate Closes(a: AuthStore, b: AuthStore) {
    OnlyCloses(a.records, b.records) && SameEntries(a, b) && b.nextId == a.nextId && b.lastBlocks == a.lastBlocks
  }

  ghost predicate ClosesIn(a: AuthStore, o: Option<World>) { o.Some? ==> Closes(a, o.value.auth) }

  // ----- The parts of a transaction -----

  lemma ApplyCloses(w: World, id: nat, o: AuthOutcome, block: Block, res: ExecutionResult)
    requires id in w.auth.records && w.auth.records[id].result.InProcess? && !res.InProcess?
    requires o.Accepted? ==> o.store == Close(w.auth, block, id, res) || o.store == w.auth
    ensures ClosesIn(w.auth, Apply(w, id, o))
  {
    hide RunTokens;
  }

  lemma EmitCloses(w: World, d: Domain, id: nat, res: ExecutionResult, block: Block)
    requires id in w.auth.records && w.auth.records[id].result.InProcess? && !res.InProcess?
    ensures ClosesIn(w.auth, Emit(w, d, Some(P.Report(id, res)), block))
  {
    hide Apply;
    ApplyCloses(w, id, ProcessorCallback(w.auth, block, id, res), block, res);
  }

  lemma SummaryCloses(w: World, d: Domain, o: P.Outcome, block: Block)
    requires Inv(w) && d in w.procs && o.Done? && ProcOk(d, o.store) && PE.Summary(w.procs[d], o)
    ensures ClosesIn(w.auth, After(w, d, o, block))
  {
    hide Inv, ProcOk, PE.Quiet, PE.Reports, Emit, InvBut, OnlyAt, Brought, Faithful;
    if o.report.None? {
      EmitNothing(WithProc(w, d, o.store), d, block);
    } else {
      var id, res := o.report.value.id, o.report.value.result;
      ReportsAnnounced(w, d, o.store, id, res);
      EmitCloses(WithProc(w, d, o.store), d, id, res, block);
    }
  }

  /** A batch is reported on arrival only when it is too late. */
  lemma ArrivalReport(p: P.ProcStore, m: AuthorizationMsg, block: Block)
    requires m.CarriesBatch() && P.Handle(p, m, block).Done? && P.Handle(p, m, block).report.Some?
    ensures P.Handle(p, m, block).report == Some(P.Report(m.id, Expired(0)))
  {
  }

  lemma ArrivalCloses(w: World, d: Domain, m: AuthorizationMsg, block: Block)
    requires d in w.procs && m.CarriesBatch() && m.id in w.auth.records && w.auth.records[m.id].result.InProcess?
    ensures ClosesIn(w.auth, After(w, d, P.Handle(w.procs[d], m, block), block))
  {
    hide P.Handle, Emit;
    var o := P.Handle(w.procs[d], m, block);
    if o.Done? {
      var v := w.(procs := w.procs[d := o.store]);
      if o.report.None? {
        EmitNothing(v, d, block);
      } else {
        ArrivalReport(w.procs[d], m, block);
        EmitCloses(v, d, m.id, Expired(0), block);
      }
    }
  }

  lemma DispatchCloses(w: World, call: Call, block: Block)
    requires call.msg.CarriesBatch() && call.msg.id in w.auth.records && w.auth.records[call.msg.id].result.InProcess?
    ensures ClosesIn(w.auth, Dispatch(w, call, block))
  {
    hide After;
    if call.domain.Main? && Main in w.procs {
      ArrivalCloses(w, Main, call.msg, block);
    }
  }

  // ----- What a step begins with -----

  /** A new record under the next id. */
  ghost predicate Opens(a: AuthStore, b: AuthStore, tag: Label) {
    && a.nextId in b.records && b.records == a.records[a.nextId := b.records[a.nextId]]
    && b.records[a.nextId].result.InProcess? && b.records[a.nextId].tag == tag
    && b.nextId == NextId(a.nextId)
  }

  ghost predicate TimedOutRecord(a: AuthStore, id: nat) {
    id in a.records && a.records[id].result == Timeout(true)
  }

  /** A retry before the time to live is over. */
  ghost predicate Reopens(a: AuthStore, b: AuthStore, id: nat, block: Block) {
    && TimedOutRecord(a, id)
    && var r := a.records[id];
       && r.ttl.Some? && !r.ttl.value.IsExpired(block)
       && b.records == a.records[id := r.(result := InProcess, updatedAt := block.Seconds())]
       && b.nextId == a.nextId
       && r.tag in a.authorizations && Running(a, r.tag) < a.authorizations[r.tag].maxConcurrent
  }

  /** A retry that comes too late. */
  ghost predicate Abandons(a: AuthStore, b: AuthStore, id: nat, block: Block) {
    && TimedOutRecord(a, id)
    && (a.records[id].ttl.Some? ==> a.records[id].ttl.value.IsExpired(block))
    && b.records == a.records[id := a.records[id].(result := Timeout(false), updatedAt := block.Seconds())]
    && b.nextId == a.nextId
  }

  ghost predicate SameRecords(a: AuthStore, b: AuthStore) { b.records == a.records && b.nextId == a.nextId }

  /** The blocks of executed proofs are only replaced by later ones. */
  ghost predicate BlocksGrow(a: AuthStore, b: AuthStore) {
    forall registry: nat :: LastBlock(a, registry) <= LastBlock(b, registry)
  }

  ghost predicate Begins(a: AuthStore, b: AuthStore, s: Step) {
    SameRecords(a, b) ||
    match s.action
    case Send(_, tag, _, _, _) =>
      Opens(a, b, tag) && tag in a.authorizations && Running(a, tag) < a.authorizations[tag].maxConcurrent
    case Insert(tag, _, _, _) => Opens(a, b, tag)
    case Prove(_, tag, _, _) => Opens(a, b, tag) && tag in a.zkAuthorizations
    case Retry(id) => Reopens(a, b, id, s.block) || Abandons(a, b, id, s.block)
    case _ => false
  }

  /** `b` is what a step begins with, and the rest of the step only closes records. */
  ghost predicate Shape(w: World, s: Step, b: AuthStore) {
    && Begins(w.auth, b, s) && BlocksGrow(w.auth, b)
    && (if s.action.Administer? then SameRecords(b, Next(w, s).auth) && Next(w, s).auth.lastBlocks == b.lastBlocks
        else SameEntries(w.auth, b) && Closes(b, Next(w, s).auth))
    && (s.action.Retry? ==> Next(w, s).auth == b)
  }

  lemma StaysShape(w: World, s: Step)
    requires TryStep(w, s).None? ||
             (!s.action.Administer? && !s.action.Retry? && Closes(w.auth, TryStep(w, s).value.auth))
    ensures Shape(w, s, w.auth)
  {
    hide TryStep;
  }

  // ----- Step by step -----

  lemma OpenedCloses(w: World, b: AuthStore, call: Call, block: Block)
    requires call.msg.CarriesBatch() && call.msg.id in b.records && b.records[call.msg.id].result.InProcess?
    ensures ClosesIn(b, Opened(w, Accepted(b, Some(call), []), block))
  {
    hide Dispatch;
    DispatchCloses(w.(auth := b), call, block);
  }

  lemma StartOpens(a: AuthStore, block: Block, initiator: Initiator, domain: Domain, tag: Label,
                   ttl: Option<Expiration>, msgs: seq<ProcessorMessage>)
    ensures Opens(a, Start(a, block, initiator, domain, tag, ttl, msgs), tag)
    ensures SameEntries(a, Start(a, block, initiator, domain, tag, ttl, msgs))
    ensures Start(a, block, initiator, domain, tag, ttl, msgs).lastBlocks == a.lastBlocks
  {
  }

  lemma SendRoom(a: AuthStore, block: Block, sender: Addr, tag: Label, ttl: Option<Expiration>,
                 msgs: seq<ProcessorMessage>, paid: Option<nat>, balance: nat)
    requires SendMsgs(a, block, sender, tag, ttl, msgs, paid, balance).Accepted?
    ensures tag in a.authorizations && Running(a, tag) < a.authorizations[tag].maxConcurrent
    ensures SendMsgs(a, block, sender, tag, ttl, msgs, paid, balance).tokens == []
  {
    hide ValidateMessages;
  }

  lemma SendShape(w: World, s: Step) returns (b: AuthStore)
    requires s.action.Send?
    ensures Shape(w, s, b)
  {
    hide SendMsgs, Start, ValidateMessages, DomainOf, Pay, Opened, Deadline, Opens, Closes;
    b := w.auth;
    var a := s.action;
    if TryStep(w, s).Some? {
      var bank := Pay(w.bank, a.tag, a.sender, a.paid, w.auth.authorizations[a.tag].mode.WithCallLimit?).value;
      var balance := Balance(bank, a.tag, a.sender);
      var o := SendMsgs(w.auth, s.block, a.sender, a.tag, a.ttl, a.msgs, a.paid, balance);
      OpenedAccepted(w.(bank := bank), o, s.block);
      SendAccepted(w.auth, s.block, a.sender, a.tag, a.ttl, a.msgs, a.paid, balance);
      SendRoom(w.auth, s.block, a.sender, a.tag, a.ttl, a.msgs, a.paid, balance);
      var domain := DomainOf(w.auth.authorizations[a.tag].subroutine).value;
      StartOpens(w.auth, s.block, User(a.sender), domain, a.tag, a.ttl, a.msgs);
      b := o.store;
      StartRecord(w.auth, b, a.tag);
      OpenedCloses(w.(bank := bank), b, o.call.value, s.block);
    } else {
      StaysShape(w, s);
    }
  }

  lemma StartRecord(a: AuthStore, b: AuthStore, tag: Label)
    requires Opens(a, b, tag)
    ensures a.nextId in b.records && b.records[a.nextId].result.InProcess?
  {
  }

  lemma OpenedAccepted(w: World, o: AuthOutcome, block: Block)
    requires Opened(w, o, block).Some?
    ensures o.Accepted? && o.call.Some?
  {
    hide Dispatch;
  }

  lemma InsertShape(w: World, s: Step) returns (b: AuthStore)
    requires s.action.Insert?
    ensures Shape(w, s, b)
  {
    hide InsertMessages, Start, ValidateMessages, DomainOf, Opened, Deadline, Opens, Closes;
    b := w.auth;
    var a := s.action;
    if TryStep(w, s).Some? {
      var o := InsertMessages(w.auth, s.block, a.tag, a.position, a.priority, a.msgs);
      OpenedAccepted(w, o, s.block);
      InsertAccepted(w.auth, s.block, a.tag, a.position, a.priority, a.msgs);
      InsertTokens(w.auth, s.block, a.tag, a.position, a.priority, a.msgs);
      var domain := DomainOf(w.auth.authorizations[a.tag].subroutine).value;
      StartOpens(w.auth, s.block, Initiator.Owner, domain, a.tag, None, a.msgs);
      b := o.store;
      StartRecord(w.auth, b, a.tag);
      OpenedCloses(w, b, o.call.value, s.block);
    } else {
      StaysShape(w, s);
    }
  }

  lemma InsertTokens(a: AuthStore, block: Block, tag: Label, position: nat, priority: Priority,
                     msgs: seq<ProcessorMessage>)
    requires InsertMessages(a, block, tag, position, priority, msgs).Accepted?
    ensures InsertMessages(a, block, tag, position, priority, msgs).tokens == []
  {
    hide ValidateMessages;
  }

  lemma ProveTokens(a: AuthStore, block: Block, sender: Addr, tag: Label, zk: ZkMessage, paid: Option<nat>,
                    balance: nat)
    requires ExecuteZk(a, block, sender, tag, zk, paid, balance).Accepted?
    ensures ExecuteZk(a, block, sender, tag, zk, paid, balance).tokens == []
  {
  }

  /** A proof that must be newer than the last one is, and is noted. */
  lemma ProveBlocks(a: AuthStore, block: Block, sender: Addr, tag: Label, zk: ZkMessage, paid: Option<nat>,
                    balance: nat)
    requires ExecuteZk(a, block, sender, tag, zk, paid, balance).Accepted?
    ensures var b, auth := ExecuteZk(a, block, sender, tag, zk, paid, balance).store, a.zkAuthorizations[tag];
            && BlocksGrow(a, b)
            && (auth.validateLastBlock ==> LastBlock(a, auth.registry) < zk.blockNumber == LastBlock(b, auth.registry))
  {
  }

  lemma BlocksOpens(a: AuthStore, blocks: map<nat, nat>, b: AuthStore, tag: Label)
    requires Opens(a.(lastBlocks := blocks), b, tag) && SameEntries(a.(lastBlocks := blocks), b)
    ensures Opens(a, b, tag) && SameEntries(a, b)
  {
  }

  /** A proof may also order an eviction on the main domain. */
  lemma ControlCloses(w: World, d: Domain, m: AuthorizationMsg, block: Block)
    requires Inv(w) && !m.CarriesBatch()
    ensures ClosesIn(w.auth, Dispatch(w, Call(d, m, None), block))
  {
    hide Inv, P.Handle, After, PI.Inv, ProcOk;
    if d.Main? && Main in w.procs {
      var o := P.Handle(w.procs[Main], m, block);
      if o.Done? {
        ControlOk(w, Main, m, block);
        SummaryCloses(w, Main, o, block);
      } else {
        AfterReverted(w, Main, o, block);
      }
    }
  }

  lemma ControlOk(w: World, d: Domain, m: AuthorizationMsg, block: Block)
    requires Inv(w) && d in w.procs && !m.CarriesBatch() && P.Handle(w.procs[d], m, block).Done?
    ensures ProcOk(d, P.Handle(w.procs[d], m, block).store) && PE.Summary(w.procs[d], P.Handle(w.procs[d], m, block))
  {
    hide Inv, PI.Inv, P.Handle;
    ProcAt(w, d);
    PS.HandleKeeps(w.procs[d], m, block);
    ControlSummary(w.procs[d], m, block);
    SummaryKind(w.procs[d], P.Handle(w.procs[d], m, block));
  }

  lemma ProveShape(w: World, s: Step) returns (b: AuthStore)
    requires Inv(w) && s.action.Prove?
    ensures Shape(w, s, b)
    ensures TryStep(w, s).Some? && s.action.tag in w.auth.zkAuthorizations &&
            w.auth.zkAuthorizations[s.action.tag].validateLastBlock ==>
              LastBlock(b, w.auth.zkAuthorizations[s.action.tag].registry) == s.action.zk.blockNumber
  {
    hide ExecuteZk, Start, Pay, Dispatch, Opens, Closes, AssignId, Registered, RunsCosmwasm, Inv;
    b := w.auth;
    var a := s.action;
    if TryStep(w, s).Some? {
      var backed := w.auth.zkAuthorizations[a.tag].mode.WithCallLimit? && a.zk.msg.CarriesBatch();
      var bank := Pay(w.bank, a.tag, a.sender, a.paid, backed).value;
      var balance := Balance(bank, a.tag, a.sender);
      var o := ExecuteZk(w.auth, s.block, a.sender, a.tag, a.zk, a.paid, balance);
      ProveTokens(w.auth, s.block, a.sender, a.tag, a.zk, a.paid, balance);
      var c := ProveAccepted(w.auth, s.block, a.sender, a.tag, a.zk, a.paid, balance);
      var blocks :| c == w.auth.(lastBlocks := blocks);
      ProveBlocks(w.auth, s.block, a.sender, a.tag, a.zk, a.paid, balance);
      b := o.store;
      if a.zk.msg.CarriesBatch() {
        StartOpens(c, s.block, User(a.sender), a.zk.domain, a.tag, None, a.zk.msg.msgs);
        BlocksOpens(w.auth, blocks, b, a.tag);
        StartRecord(w.auth, b, a.tag);
        AssignedId(a.zk.msg, w.auth.nextId);
        DispatchCloses(w.(auth := b, bank := bank), o.call.value, s.block);
      } else {
        BlocksKeep(w, blocks);
        StrandedKeeps(w.(auth := b), a.tag, a.sender, a.paid, bank);
        ControlCloses(w.(auth := b, bank := bank), a.zk.domain, a.zk.msg, s.block);
      }
    } else {
      StaysShape(w, s);
    }
  }

  /** The id a proof came with is replaced by the one of its record. */
  lemma AssignedId(m: AuthorizationMsg, id: nat)
    requires m.CarriesBatch()
    ensures AssignId(m, id).CarriesBatch() && AssignId(m, id).id == id
    ensures AssignId(m, id).Batch() == m.Batch().(id := id)
  {
  }

  lemma RetryShape(w: World, s: Step) returns (b: AuthStore)
    requires Inv(w) && s.action.Retry?
    ensures Shape(w, s, b)
  {
    hide RetryMsgs, Dispatch, Settle, Closes, Inv, Settlement;
    b := w.auth;
    var id := s.action.id;
    var o := RetryMsgs(w.auth, s.block, id);
    if TryStep(w, s).Some? {
      b := o.store;
      RetryCases(w.auth, s.block, id);
      RetryBegins(w.auth, s.block, id);
      if o.call.Some? {
        TimedOutExternal(w, id);
        DispatchExternal(w.(auth := b), o.call.value, s.block);
        ClosesReflexive(b);
      } else {
        SettleAuth(w.(auth := b), id, o.tokens);
        ClosesReflexive(b);
      }
    } else {
      StaysShape(w, s);
    }
  }

  lemma TimedOutExternal(w: World, id: nat)
    requires Inv(w) && TimedOutRecord(w.auth, id)
    ensures !w.auth.records[id].domain.Main?
  {
    hide StageOk, TokensOk, ProcsOk, ValidateMessages, DomainOf;
    assert AI.RecordOk(w.auth, w.auth.records[id]);
  }

  lemma DispatchExternal(w: World, call: Call, block: Block)
    requires !call.domain.Main?
    ensures Dispatch(w, call, block).Some? ==> Dispatch(w, call, block).value.auth == w.auth
  {
  }

  lemma RetryBegins(a: AuthStore, block: Block, id: nat)
    requires RetryMsgs(a, block, id).Accepted?
    ensures var b := RetryMsgs(a, block, id).store;
            && SameEntries(a, b)
            && (SameRecords(a, b) || Reopens(a, b, id, block) || Abandons(a, b, id, block))
  {
  }

  lemma SettleAuth(w: World, id: nat, tokens: seq<TokenMsg>)
    ensures Settle(w, id, tokens).Some? ==> Settle(w, id, tokens).value.auth == w.auth
  {
    hide RunTokens;
  }

  lemma ClosesReflexive(a: AuthStore)
    ensures Closes(a, a)
  {
  }

  lemma DeliverOutCloses(w: World, block: Block, n: nat, delivery: Delivery)
    requires Inv(w)
    ensures ClosesIn(w.auth, DoDeliverOut(w, block, n, delivery))
  {
    hide Inv, P.Handle, After, LandOut, Closes;
    ClosesReflexive(w.auth);
    if n < |w.outs| && w.outs[n].flight.InFlight? && w.outs[n].domain in w.procs {
      LandOutAuth(w, n, AckError("execution failed"));
      if !delivery.Arrives? { LandOutAuth(w, n, NotDelivered(delivery)); }
      LandOutProcs(w, n);
      ArrivesFits(w, n);
      ArrivingOpen(LandOut(w, n, AckOk), w.outs[n].body);
      ArrivalCloses(LandOut(w, n, AckOk), w.outs[n].domain, w.outs[n].body, block);
    }
  }

  lemma ArrivingOpen(w: World, m: AuthorizationMsg)
    requires Arriving(w, m)
    ensures m.CarriesBatch() && m.id in w.auth.records && w.auth.records[m.id].result.InProcess?
  {
    hide Brought, Unseen, Faithful;
  }

  lemma LandOutAuth(w: World, n: nat, ack: Ack)
    requires n < |w.outs|
    ensures LandOut(w, n, ack).auth == w.auth
  {
  }

  /** A packet that bounced is about an id in process. */
  lemma BouncedOpen(w: World, n: nat)
    requires Inv(w) && n < |w.outs| && w.outs[n].flight.Landed? && !w.outs[n].flight.ack.AckOk?
    ensures var id := w.outs[n].id;
            id in w.auth.records && w.auth.records[id].result.InProcess? && !w.auth.records[id].domain.Main?
  {
    hide Core, Of, Faithful, ReportFits;
    OutAt(w, n);
    InvAt(w, w.outs[n].id);
  }

  lemma AckOutCloses(w: World, block: Block, n: nat)
    requires Inv(w)
    ensures ClosesIn(w.auth, DoAckOut(w, block, n))
  {
    hide Inv, Closes, Apply, BridgeCallback, AI.Inv;
    ClosesReflexive(w.auth);
    if n < |w.outs| && w.outs[n].flight.Landed? {
      var v, id, ack := w.(outs := w.outs[..n] + w.outs[n + 1..]), w.outs[n].id, w.outs[n].flight.ack;
      if ack.AckOk? {
        OutAt(w, n);
        AckOkCloses(v, block, id);
      } else {
        BouncedOpen(w, n);
        AuthAt(w);
        BridgeCallbackIs(w.auth, block, id, ack);
        ApplyCloses(v, id, BridgeCallback(w.auth, block, id, ack), block, Bounced(w.auth.records[id], block, ack));
      }
    }
  }

  lemma AckOkCloses(w: World, block: Block, id: nat)
    ensures ClosesIn(w.auth, Apply(w, id, BridgeCallback(w.auth, block, id, AckOk)))
  {
    hide Settle;
    SettleAuth(w, id, []);
  }

  lemma AuthAt(w: World)
    requires Inv(w)
    ensures AI.Inv(w.auth)
  {
    hide StageOk, TokensOk, ProcsOk, AI.Inv;
  }

  lemma DeliverInCloses(w: World, block: Block, n: nat, delivery: Delivery)
    requires Inv(w)
    ensures ClosesIn(w.auth, DoDeliverIn(w, block, n, delivery))
  {
    hide Inv, Closes, Apply, ProcessorCallback, LandIn, AI.Inv, IsFinal;
    ClosesReflexive(w.auth);
    if n < |w.ins| && w.ins[n].flight.InFlight? {
      var k := w.ins[n];
      LandInAuth(w, n, AckOk);
      LandInAuth(w, n, AckError("callback refused"));
      if !delivery.Arrives? { LandInAuth(w, n, NotDelivered(delivery)); }
      InFlightFits(w, n);
      AuthAt(w);
      ProcessorCallbackIs(w.auth, block, k.id, k.body);
      FinalIsClosed(k.body);
      ApplyCloses(LandIn(w, n, AckOk), k.id, ProcessorCallback(w.auth, block, k.id, k.body), block, k.body);
    }
  }

  lemma FinalIsClosed(r: ExecutionResult)
    requires IsFinal(r)
    ensures !r.InProcess?
  {
  }

  lemma LandInAuth(w: World, n: nat, ack: Ack)
    requires n < |w.ins|
    ensures LandIn(w, n, ack).auth == w.auth
  {
  }

  /** A result is only sent again while its id is in process, and never on the main domain. */
  lemma ResendOpen(w: World, d: Domain, id: nat)
    requires Inv(w) && d in w.procs && P.RetryCallback(w.procs[d], id).Done?
    ensures id in w.auth.records && w.auth.records[id].result.InProcess? && !d.Main?
    ensures P.RetryCallback(w.procs[d], id).report.Some? && P.RetryCallback(w.procs[d], id).report.value.id == id
  {
    hide Core, Of, PI.Inv, Faithful, OutFits;
    ProcAt(w, d);
    InvAt(w, id);
    PS.RetryKeeps(w.procs[d], id);
  }

  lemma AtProcessorCloses(w: World, block: Block, d: Domain, input: P.Input)
    requires Inv(w)
    ensures ClosesIn(w.auth, DoAtProcessor(w, block, d, input))
  {
    hide Inv, Closes, P.Tick, P.LibraryCallback, P.RetryCallback, P.Handle, P.QueueHas, After, ProcOk,
         PI.Inv, PE.Summary, P.ProxyAck, P.RetryBridgeCreation;
    ClosesReflexive(w.auth);
    if d in w.procs && MayReach(w.procs[d], input) {
      var o := P.Serve(w.procs[d], input, block);
      if o.Reverted? {
        AfterReverted(w, d, o, block);
      } else {
        match input
        case ResendAsked(id) =>
          ResendOpen(w, d, id);
          ExternalCloses(w, d, o, block);
        case Received(order) =>
          ControlOk(w, d, order, block);
          SummaryCloses(w, d, o, block);
        case Ticked(outcome) =>
          TickOk(w, d, block, outcome);
          SummaryCloses(w, d, o, block);
        case LibraryCalled(id, sender, msg) =>
          CallbackOk(w, d, id, sender, msg, block);
          SummaryCloses(w, d, o, block);
        case ProxyAcked(ack) =>
          ProxyQuiet(w.procs[d], ack);
          ProxyCloses(w, d, o, block);
        case ProxyRetried =>
          ProxyQuiet(w.procs[d], AckOk);
          ProxyCloses(w, d, o, block);
      }
    }
  }

  lemma ExternalCloses(w: World, d: Domain, o: P.Outcome, block: Block)
    requires !d.Main? && o.Done?
    ensures ClosesIn(w.auth, After(w, d, o, block))
  {
  }

  lemma ProxyQuiet(p: P.ProcStore, ack: Ack)
    ensures P.ProxyAck(p, ack).Done? ==> P.ProxyAck(p, ack).report.None?
    ensures P.RetryBridgeCreation(p).Done? ==> P.RetryBridgeCreation(p).report.None?
  {
  }

  lemma ProxyCloses(w: World, d: Domain, o: P.Outcome, block: Block)
    requires o.Done? && o.report.None?
    ensures ClosesIn(w.auth, After(w, d, o, block))
  {
  }

  lemma TickOk(w: World, d: Domain, block: Block, outcome: P.SubMsgResult)
    requires Inv(w) && d in w.procs && P.Tick(w.procs[d], block, outcome).Done?
    ensures ProcOk(d, P.Tick(w.procs[d], block, outcome).store) &&
            PE.Summary(w.procs[d], P.Tick(w.procs[d], block, outcome))
  {
    hide Inv, PI.Inv, P.Tick, PE.Summary;
    ProcAt(w, d);
    PS.TickKeeps(w.procs[d], block, outcome);
    PE.TickSummary(w.procs[d], block, outcome);
    SummaryKind(w.procs[d], P.Tick(w.procs[d], block, outcome));
  }

  lemma CallbackOk(w: World, d: Domain, id: nat, sender: Addr, msg: Binary, block: Block)
    requires Inv(w) && d in w.procs && !P.QueueHas(w.procs[d], id)
    requires P.LibraryCallback(w.procs[d], id, sender, msg, block).Done?
    ensures ProcOk(d, P.LibraryCallback(w.procs[d], id, sender, msg, block).store)
    ensures PE.Summary(w.procs[d], P.LibraryCallback(w.procs[d], id, sender, msg, block))
  {
    hide Inv, PI.Inv, P.LibraryCallback, P.QueueHas, PS.InNoQueue, PE.Summary;
    ProcAt(w, d);
    PE.QueueHasIff(w.procs[d], id);
    PS.CallbackKeepsIff(w.procs[d], id, sender, msg, block);
    PE.CallbackSummary(w.procs[d], id, sender, msg, block);
    SummaryKind(w.procs[d], P.LibraryCallback(w.procs[d], id, sender, msg, block));
  }

  lemma {:induction false} CreateRecords(a: AuthStore, block: Block, infos: seq<AuthorizationInfo>,
                                         libraries: set<string>)
    requires CreateAuthorizations(a, block, infos, libraries).Accepted?
    ensures var b := CreateAuthorizations(a, block, infos, libraries).store;
            && SameRecords(a, b) && b.lastBlocks == a.lastBlocks
            && forall t :: t in a.authorizations ==> t in b.authorizations && b.authorizations[t] == a.authorizations[t]
    decreases |infos|
  {
    hide Validate;
    if infos != [] {
      CreateRecords(CreateOne(a, block, infos[0], libraries).store, block, infos[1..], libraries);
    }
  }

  lemma {:induction false} CreateZkRecords(a: AuthStore, auths: seq<ZkAuthorization>)
    requires CreateZkAuthorizations(a, auths).Accepted?
    ensures var b := CreateZkAuthorizations(a, auths).store;
            SameRecords(a, b) && b.lastBlocks == a.lastBlocks && b.authorizations == a.authorizations
    decreases |auths|
  {
    if auths != [] {
      CreateZkRecords(CreateZkOne(a, auths[0]).store, auths[1..]);
    }
  }

  /** The owner's table has no effect on records. */
  lemma TableRecords(a: AuthStore, block: Block, c: TableChange)
    requires ChangeTable(a, block, c).Accepted?
    ensures SameRecords(a, ChangeTable(a, block, c).store) && ChangeTable(a, block, c).store.lastBlocks == a.lastBlocks
  {
    hide CreateAuthorizations, CreateZkAuthorizations, Validate;
    match c
    case Create(infos, libraries) => CreateRecords(a, block, infos, libraries);
    case CreateZk(auths) => CreateZkRecords(a, auths);
    case _ =>
  }

  /** What every step does to the records. */
  lemma StepShape(w: World, s: Step) returns (b: AuthStore)
    requires Inv(w)
    ensures Shape(w, s, b)
  {
    hide Inv, Shape, DoDeliverOut, DoAckOut, DoDeliverIn, DoAckIn, DoAtProcessor, DoSend, DoInsert, DoProve,
         DoRetry, Closes;
    ClosesReflexive(w.auth);
    match s.action
    case Send(_, _, _, _, _) => b := SendShape(w, s);
    case Insert(_, _, _, _) => b := InsertShape(w, s);
    case Prove(_, _, _, _) => b := ProveShape(w, s);
    case Retry(_) => b := RetryShape(w, s);
    case DeliverOut(n, delivery) => DeliverOutCloses(w, s.block, n, delivery); b := w.auth; StaysShape(w, s);
    case AckOut(n) => AckOutCloses(w, s.block, n); b := w.auth; StaysShape(w, s);
    case DeliverIn(n, delivery) => DeliverInCloses(w, s.block, n, delivery); b := w.auth; StaysShape(w, s);
    case AckIn(n) => AckInAuth(w, n); b := w.auth; StaysShape(w, s);
    case AtProcessor(d, input) => AtProcessorCloses(w, s.block, d, input); b := w.auth; StaysShape(w, s);
    case Transfer(_, _, _, _) => b := w.auth; StaysShape(w, s);
    case Administer(c) => b := w.auth; AdministerShape(w, s);
  }

  lemma AckInAuth(w: World, n: nat)
    ensures DoAckIn(w, n).Some? ==> DoAckIn(w, n).value.auth == w.auth
  {
  }

  lemma AdministerShape(w: World, s: Step)
    requires s.action.Administer?
    ensures Shape(w, s, w.auth)
  {
    hide ChangeTable, RunTokens;
    if ChangeTable(w.auth, s.block, s.action.change).Accepted? {
      TableRecords(w.auth, s.block, s.action.change);
    }
  }

  /** Only the owner changes the table. */
  lemma EntriesStay(w: World, s: Step)
    requires Inv(w) && !s.action.Administer?
    ensures SameEntries(w.auth, Next(w, s).auth)
  {
    hide Inv, Next;
    var b := StepShape(w, s);
  }
}
