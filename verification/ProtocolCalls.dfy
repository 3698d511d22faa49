/** Batches on their way to a processor, and the calls that open a record. */
module ProtocolCalls {
  import opened Types
  import opened Validation
  import opened AuthorizationModel
  import opened Protocol
  import opened ProtocolTokens
  import opened ProtocolInvariant
  import opened ProtocolSteps
  import P = ProcessorModel
  import AI = AuthorizationInvariant
  import PI = ProcessorInvariant
  import PS = ProcessorSteps
  import PE = ProcessorEffects

  // ----- A processor receives a batch -----

  /** The record is open and the batch `m` of it arrives for the first time. */
  ghost predicate Arriving(w: World, m: AuthorizationMsg) {
    && m.CarriesBatch() && m.id in w.auth.records && w.auth.records[m.id].result.InProcess?
    && var r := w.auth.records[m.id];
       r.domain in w.procs && Unseen(w, m.id) && Brought(w, m.id) && Faithful(w.auth, r, m.Batch())
  }

  lemma AdmitsSameAt(p: P.ProcStore, o: P.Outcome, b: MessageBatch, k: nat)
    requires o.Done? && PE.Admits(p, o, b) && k != b.id
    ensures SameAt(p, o.store, k)
  {
  }

  /** The processor registers the batch, and the rest of the world is in order. */
  lemma ArrivalFrame(w: World, m: AuthorizationMsg, block: Block)
    requires Arriving(w, m) && InvBut(w, m.id)
    requires P.Handle(w.procs[w.auth.records[m.id].domain], m, block).Done?
    ensures var d := w.auth.records[m.id].domain;
            var o := P.Handle(w.procs[d], m, block);
            InvBut(WithProc(w, d, o.store), m.id) && ProcOk(d, o.store) && PE.Admits(w.procs[d], o, m.Batch())
  {
    hide Core, Same, SameAt, Of, PI.Inv, P.Handle, Faithful, Brought, StageOk;
    var id, d := m.id, w.auth.records[m.id].domain;
    var p := w.procs[d];
    var o := P.Handle(p, m, block);
    assert ProcOk(d, p) by { CoreProc(w, d); }
    PS.HandleKeeps(p, m, block);
    PE.HandleAdmits(p, m, block);
    var v := WithProc(w, d, o.store);
    ProcCore(w, d, o.store);
    forall k: nat | k != id
      ensures Same(w, v, k)
    {
      AdmitsSameAt(p, o, m.Batch(), k);
      ProcSame(w, d, o.store, k);
    }
    OthersKeep(w, v, id);
  }

  lemma CoreProc(w: World, d: Domain)
    requires Core(w) && d in w.procs
    ensures ProcOk(d, w.procs[d])
  {
    hide AI.Inv, TokensOk, PI.Inv;
  }

  lemma ArrivalQueued(w: World, m: AuthorizationMsg, o: P.Outcome)
    requires Arriving(w, m)
    requires var d := w.auth.records[m.id].domain; o.Done? && PE.Admits(w.procs[d], o, m.Batch()) && o.report.None?
    ensures StageOk(WithProc(w, w.auth.records[m.id].domain, o.store), m.id)
  {
    hide Of, Faithful;
  }

  lemma ArrivalLate(w: World, m: AuthorizationMsg, o: P.Outcome)
    requires Arriving(w, m)
    requires var d := w.auth.records[m.id].domain;
             o.Done? && PE.Admits(w.procs[d], o, m.Batch()) && o.report.Some? && ProcOk(d, o.store)
    ensures Announced(WithProc(w, w.auth.records[m.id].domain, o.store), m.id, o.report.value.result)
  {
    hide Of, Faithful, PI.Inv;
    var d := w.auth.records[m.id].domain;
    ReportIsFinal(o.store, m.id, o.report.value.result);
  }

  lemma ArrivalKeeps(w: World, m: AuthorizationMsg, block: Block)
    requires Arriving(w, m) && InvBut(w, m.id)
    requires P.Handle(w.procs[w.auth.records[m.id].domain], m, block).Done?
    ensures var d := w.auth.records[m.id].domain;
            var o := After(w, d, P.Handle(w.procs[d], m, block), block);
            o.Some? && Inv(o.value)
  {
    hide InvBut, Inv, P.Handle, PI.Inv, StageOk, Announced, Emit, Faithful, Brought, Unseen, ProcOk;
    var d := w.auth.records[m.id].domain;
    var o := P.Handle(w.procs[d], m, block);
    ArrivalFrame(w, m, block);
    var v := WithProc(w, d, o.store);
    if o.report.None? {
      ArrivalQueued(w, m, o);
      Complete(v, m.id);
      assert Emit(v, d, o.report, block) == Some(v) by { EmitNothing(v, d, block); }
    } else {
      ArrivalLate(w, m, o);
      assert o.report.value == P.Report(m.id, o.report.value.result);
      EmitKeeps(v, d, m.id, o.report.value.result, block);
    }
  }

  lemma EmitNothing(w: World, d: Domain, block: Block)
    ensures Emit(w, d, None, block) == Some(w)
  {
  }

  // ----- A batch leaves for its processor -----

  lemma DispatchKeeps(w: World, id: nat, m: AuthorizationMsg, block: Block)
    requires InvBut(w, id) && Unplaced(w, id)
    requires m.CarriesBatch() && m.id == id && Faithful(w.auth, w.auth.records[id], m.Batch())
    ensures var o := Dispatch(w, Call(w.auth.records[id].domain, m, Some(id)), block);
            o.Some? ==> Inv(o.value)
    ensures w.auth.records[id].domain.External? || P.Handle(w.procs[Main], m, block).Done? ==>
              Dispatch(w, Call(w.auth.records[id].domain, m, Some(id)), block).Some?
  {
    hide Core, Inv, P.Handle, Same, Faithful, Of, After;
    var d := w.auth.records[id].domain;
    if d.Main? {
      assert Arriving(w, m);
      if P.Handle(w.procs[Main], m, block).Done? {
        ArrivalKeeps(w, m, block);
      } else {
        AfterReverted(w, Main, P.Handle(w.procs[Main], m, block), block);
      }
    } else {
      PacketLeaves(w, id, m);
    }
  }

  lemma AfterReverted(w: World, d: Domain, o: P.Outcome, block: Block)
    requires o.Reverted?
    ensures After(w, d, o, block).None?
  {
  }

  lemma PacketLeaves(w: World, id: nat, m: AuthorizationMsg)
    requires InvBut(w, id) && Unplaced(w, id) && !w.auth.records[id].domain.Main?
    requires m.CarriesBatch() && m.id == id && Faithful(w.auth, w.auth.records[id], m.Batch())
    ensures Inv(w.(outs := w.outs + [Packet(id, w.auth.records[id].domain, m, InFlight)]))
  {
    hide Core, Of, Faithful;
    var k := Packet(id, w.auth.records[id].domain, m, InFlight);
    var v := w.(outs := w.outs + [k]);
    CoreSame(w, v);
    forall o: nat
      ensures Of(v.outs, o) == Of(w.outs, o) + (if o == id then [k] else [])
    {
      OfConcat(w.outs, [k], o);
      OfOne(k, o);
    }
    assert forall o: nat :: o != id ==> Same(w, v, o);
    OthersKeep(w, v, id);
    assert StageOk(v, id);
    Complete(v, id);
  }

  // ----- A call opens a record -----

  lemma OpenedSame(w: World, v: World, r: Record, o: nat)
    requires o != w.auth.nextId
    requires v.auth.records == w.auth.records[w.auth.nextId := r]
    requires v.procs == w.procs && v.outs == w.outs && v.ins == w.ins
    ensures Same(w, v, o)
  {
    hide Of;
  }

  /** A record opened under a new id, with its payment, is in order but for its place. */
  lemma OpenWorld(w: World, block: Block, initiator: Initiator, domain: Domain, tag: Label, ttl: Option<Expiration>,
                  msgs: seq<ProcessorMessage>, from: Addr, paid: Option<nat>, bank: Bank)
    requires Inv(w) && IdsLeft(w) && LabelKnown(w.auth, tag) && domain in w.procs
    requires ttl.Some? ==> initiator.User? && tag in w.auth.authorizations
    requires tag in w.auth.authorizations ==>
               && DomainOf(w.auth.authorizations[tag].subroutine) == Some(domain)
               && ValidateMessages(w.auth.authorizations[tag].subroutine, msgs).None?
    requires from != SELF && (initiator.User? ==> initiator.addr == from)
    requires var backed := IsLimited(w.auth, tag) && initiator.User?;
             Pay(w.bank, tag, from, paid, backed) == Some(bank) && (backed ==> paid == Some(1))
    ensures var v := w.(auth := Start(w.auth, block, initiator, domain, tag, ttl, msgs), bank := bank);
            InvBut(v, w.auth.nextId) && Unplaced(v, w.auth.nextId)
  {
    hide AI.Inv, TokensOk, Same, Of, ValidateMessages, DomainOf, PI.Inv;
    var a, id := w.auth, w.auth.nextId;
    var b := Start(a, block, initiator, domain, tag, ttl, msgs);
    var v := w.(auth := b, bank := bank);
    InvAt(w, id);
    DomainKnown(w, domain);
    AI.StartKeeps(a, block, initiator, domain, tag, ttl, msgs);
    StartModes(a, block, initiator, domain, tag, ttl, msgs);
    ProtocolTokens.OpenKeeps(w, b, b.records[id], paid, IsLimited(a, tag) && initiator.User?, from, bank);
    assert Core(v);
    forall o: nat | o != id
      ensures Same(w, v, o)
    {
      OpenedSame(w, v, b.records[id], o);
    }
    OthersKeep(w, v, id);
  }

  lemma DomainKnown(w: World, d: Domain)
    requires ProcsOk(w) && d in w.procs
    ensures Registered(d, w.auth.domains)
  {
    hide ProcOk;
  }

  lemma StartModes(a: AuthStore, block: Block, initiator: Initiator, domain: Domain, tag: Label,
                   ttl: Option<Expiration>, msgs: seq<ProcessorMessage>)
    ensures SameModes(a, Start(a, block, initiator, domain, tag, ttl, msgs))
  {
  }

  /** What an accepted call has passed. */
  lemma SendAccepted(a: AuthStore, block: Block, sender: Addr, tag: Label, ttl: Option<Expiration>,
                     msgs: seq<ProcessorMessage>, paid: Option<nat>, balance: nat)
    requires SendMsgs(a, block, sender, tag, ttl, msgs, paid, balance).Accepted?
    ensures var o := SendMsgs(a, block, sender, tag, ttl, msgs, paid, balance);
            && tag in a.authorizations
            && var auth := a.authorizations[tag];
               var m := EnqueueMsgs(a.nextId, msgs, auth.subroutine, auth.priority, Deadline(auth.subroutine, block));
               && DomainOf(auth.subroutine).Some?
               && ValidateMessages(auth.subroutine, msgs).None?
               && (auth.mode.WithCallLimit? ==> paid == Some(1))
               && o.store == Start(a, block, User(sender), DomainOf(auth.subroutine).value, tag, ttl, msgs)
               && o.call == Some(Call(DomainOf(auth.subroutine).value, m, Some(a.nextId)))
  {
    hide ValidateMessages;
  }

  lemma SendKeeps(w: World, block: Block, a: Action)
    requires Inv(w) && a.Send?
    ensures Inv(Or(DoSend(w, block, a), w))
  {
    hide Inv, SendMsgs, Start, Dispatch, ValidateMessages, DomainOf, Pay, InvBut, Unplaced, DeadlineAt;
    if DoSend(w, block, a).Some? {
      var auth := w.auth.authorizations[a.tag];
      var bank := Pay(w.bank, a.tag, a.sender, a.paid, auth.mode.WithCallLimit?).value;
      var balance := Balance(bank, a.tag, a.sender);
      SendAccepted(w.auth, block, a.sender, a.tag, a.ttl, a.msgs, a.paid, balance);
      var domain := DomainOf(auth.subroutine).value;
      OpenWorld(w, block, User(a.sender), domain, a.tag, a.ttl, a.msgs, a.sender, a.paid, bank);
      var v := w.(auth := Start(w.auth, block, User(a.sender), domain, a.tag, a.ttl, a.msgs), bank := bank);
      StartedRecord(w.auth, block, User(a.sender), domain, a.tag, a.ttl, a.msgs);
      var m := EnqueueMsgs(w.auth.nextId, a.msgs, auth.subroutine, auth.priority, Deadline(auth.subroutine, block));
      DispatchKeeps(v, w.auth.nextId, m, block);
    }
  }

  lemma StartedRecord(a: AuthStore, block: Block, initiator: Initiator, domain: Domain, tag: Label,
                      ttl: Option<Expiration>, msgs: seq<ProcessorMessage>)
    ensures var b := Start(a, block, initiator, domain, tag, ttl, msgs);
            && a.nextId in b.records && b.authorizations == a.authorizations
            && b.records[a.nextId].domain == domain && b.records[a.nextId].tag == tag
            && b.records[a.nextId].messages == msgs
            && b.records[a.nextId].result.InProcess? && b.records[a.nextId].updatedAt == block.Seconds()
  {
  }

  lemma InsertAccepted(a: AuthStore, block: Block, tag: Label, position: nat, priority: Priority,
                       msgs: seq<ProcessorMessage>)
    requires InsertMessages(a, block, tag, position, priority, msgs).Accepted?
    ensures var o := InsertMessages(a, block, tag, position, priority, msgs);
            && tag in a.authorizations
            && var auth := a.authorizations[tag];
               var m := InsertMsgs(a.nextId, position, msgs, auth.subroutine, priority,
                                   Deadline(auth.subroutine, block));
               && DomainOf(auth.subroutine).Some?
               && ValidateMessages(auth.subroutine, msgs).None?
               && o.store == Start(a, block, Initiator.Owner, DomainOf(auth.subroutine).value, tag, None, msgs)
               && o.call == Some(Call(DomainOf(auth.subroutine).value, m, Some(a.nextId)))
  {
    hide ValidateMessages;
  }

  lemma InsertKeeps(w: World, block: Block, a: Action)
    requires Inv(w) && a.Insert?
    ensures Inv(Or(DoInsert(w, block, a), w))
  {
    hide Inv, InsertMessages, Start, Dispatch, ValidateMessages, DomainOf, InvBut, Unplaced, DeadlineAt;
    if DoInsert(w, block, a).Some? {
      var auth := w.auth.authorizations[a.tag];
      InsertAccepted(w.auth, block, a.tag, a.position, a.priority, a.msgs);
      var domain := DomainOf(auth.subroutine).value;
      OpenWorld(w, block, Initiator.Owner, domain, a.tag, None, a.msgs, "", None, w.bank);
      var v := w.(auth := Start(w.auth, block, Initiator.Owner, domain, a.tag, None, a.msgs));
      StartedRecord(w.auth, block, Initiator.Owner, domain, a.tag, None, a.msgs);
      var m := InsertMsgs(w.auth.nextId, a.position, a.msgs, auth.subroutine, a.priority,
                          Deadline(auth.subroutine, block));
      DispatchKeeps(v, w.auth.nextId, m, block);
    }
  }

  /** A change that moves no id. */
  lemma UnmovedKeeps(w: World, v: World)
    requires Inv(w) && Core(v) && SameTable(w.auth, v.auth)
    requires forall o: nat :: Same(w, v, o)
    ensures Inv(v)
  {
    hide Core, StageOk, Same, SameTable;
    InvAt(w, 0);
    forall o: nat
      ensures StageOk(v, o)
    {
      InvAt(w, o);
      if o in w.auth.records { CoreLabels(w, o); }
      StageSame(w, v, o);
    }
  }

  // ----- A proof -----

  /** The last block of a registry matters to nothing else. */
  lemma BlocksKeep(w: World, blocks: map<nat, nat>)
    requires Inv(w)
    ensures Inv(w.(auth := w.auth.(lastBlocks := blocks)))
  {
    hide Of, StageOk, AI.Inv, BankOk, SettledOk, ProcOk;
    var v := w.(auth := w.auth.(lastBlocks := blocks));
    InvAt(w, 0);
    AI.BlocksKeep(w.auth, blocks);
    assert SameModes(w.auth, v.auth);
    SameModesBank(w.auth, v.auth, w.bank);
    SettledFollow(w.auth, v.auth, w.refunded, w.burnt);
    forall o: nat
      ensures Same(w, v, o)
    {
    }
    UnmovedKeeps(w, v);
  }

  /** A payment for a call that opens no record is stranded. */
  lemma StrandedKeeps(w: World, tag: Label, from: Addr, paid: Option<nat>, bank: Bank)
    requires Inv(w) && from != SELF && Pay(w.bank, tag, from, paid, false) == Some(bank)
    ensures Inv(w.(bank := bank))
  {
    hide Of, StageOk, AI.Inv, BankOk, SettledOk, ProcOk, Pay;
    var v := w.(bank := bank);
    InvAt(w, 0);
    StrandedBank(w.auth, w.bank, tag, from, paid, bank);
    forall o: nat
      ensures Same(w, v, o)
    {
    }
    UnmovedKeeps(w, v);
  }

  lemma StrandedBank(a: AuthStore, was: Bank, tag: Label, from: Addr, paid: Option<nat>, bank: Bank)
    requires BankOk(a, was) && from != SELF && Pay(was, tag, from, paid, false) == Some(bank)
    ensures BankOk(a, bank)
  {
    hide DenomOk, Owed;
    if paid.Some? {
      PaidOk(was[tag], from, paid.value, false, Owed(a, tag));
      BankSame(a, a, was, tag, bank[tag]);
    }
  }

  /** What an accepted proof has passed; `b` is the store with the block number noted. */
  lemma ProveAccepted(a: AuthStore, block: Block, sender: Addr, tag: Label, zk: ZkMessage, paid: Option<nat>,
                      balance: nat)
    returns (b: AuthStore)
    requires ExecuteZk(a, block, sender, tag, zk, paid, balance).Accepted?
    ensures exists blocks :: b == a.(lastBlocks := blocks)
    ensures var o := ExecuteZk(a, block, sender, tag, zk, paid, balance);
            && tag in a.zkAuthorizations && Registered(zk.domain, a.domains) && RunsCosmwasm(zk.domain, a.domains)
            && (a.zkAuthorizations[tag].mode.WithCallLimit? ==> paid == Some(1))
            && if zk.msg.CarriesBatch()
               then && o.store == Start(b, block, User(sender), zk.domain, tag, None, zk.msg.msgs)
                    && o.call == Some(Call(zk.domain, AssignId(zk.msg, a.nextId), Some(a.nextId)))
               else o.store == b && o.call == Some(Call(zk.domain, zk.msg, None))
  {
    var auth := a.zkAuthorizations[tag];
    b := if auth.validateLastBlock then a.(lastBlocks := a.lastBlocks[auth.registry := zk.blockNumber]) else a;
    assert b == a.(lastBlocks := b.lastBlocks);
  }

  lemma ZkLabel(w: World, tag: Label)
    requires Inv(w) && tag in w.auth.zkAuthorizations
    ensures tag !in w.auth.authorizations && ModeOf(w.auth, tag) == Some(w.auth.zkAuthorizations[tag].mode)
  {
    hide StageOk, TokensOk, ProcsOk, AI.RecordsOk, AI.CountsOk, AI.IdsOk, WellFormed;
  }

  lemma DomainHasProc(w: World, d: Domain)
    requires Inv(w) && Registered(d, w.auth.domains) && RunsCosmwasm(d, w.auth.domains)
    ensures d in w.procs
  {
    hide StageOk, TokensOk, AI.Inv, ProcOk;
  }

  lemma ProveBatchKeeps(w: World, block: Block, sender: Addr, tag: Label, zk: ZkMessage, paid: Option<nat>, bank: Bank)
    requires Inv(w) && IdsLeft(w) && sender != SELF && zk.msg.CarriesBatch()
    requires tag in w.auth.zkAuthorizations && zk.domain in w.procs
    requires w.auth.zkAuthorizations[tag].mode.WithCallLimit? ==> paid == Some(1)
    requires Pay(w.bank, tag, sender, paid, w.auth.zkAuthorizations[tag].mode.WithCallLimit?) == Some(bank)
    ensures var v := w.(auth := Start(w.auth, block, User(sender), zk.domain, tag, None, zk.msg.msgs), bank := bank);
            var o := Dispatch(v, Call(zk.domain, AssignId(zk.msg, w.auth.nextId), Some(w.auth.nextId)), block);
            o.Some? ==> Inv(o.value)
  {
    hide Inv, Start, Dispatch, ValidateMessages, DomainOf, Pay, InvBut, Unplaced;
    ZkLabel(w, tag);
    OpenWorld(w, block, User(sender), zk.domain, tag, None, zk.msg.msgs, sender, paid, bank);
    StartedRecord(w.auth, block, User(sender), zk.domain, tag, None, zk.msg.msgs);
    var v := w.(auth := Start(w.auth, block, User(sender), zk.domain, tag, None, zk.msg.msgs), bank := bank);
    DispatchKeeps(v, w.auth.nextId, AssignId(zk.msg, w.auth.nextId), block);
  }

  lemma ProveControlKeeps(w: World, block: Block, d: Domain, m: AuthorizationMsg)
    requires Inv(w) && !m.CarriesBatch()
    ensures var o := Dispatch(w, Call(d, m, None), block); o.Some? ==> Inv(o.value)
  {
    hide Inv, After, P.Handle;
    if d.Main? && Main in w.procs {
      if P.Handle(w.procs[Main], m, block).Done? {
        ControlKeeps(w, Main, m, block);
      } else {
        AfterReverted(w, Main, P.Handle(w.procs[Main], m, block), block);
      }
    }
  }

  lemma ProveKeeps(w: World, block: Block, a: Action)
    requires Inv(w) && a.Prove?
    ensures Inv(Or(DoProve(w, block, a), w))
  {
    hide Inv, ExecuteZk, Start, Dispatch, Pay, AssignId, Registered, RunsCosmwasm;
    if DoProve(w, block, a).Some? {
      var mode := w.auth.zkAuthorizations[a.tag].mode;
      var bank := Pay(w.bank, a.tag, a.sender, a.paid, mode.WithCallLimit? && a.zk.msg.CarriesBatch()).value;
      var b := ProveAccepted(w.auth, block, a.sender, a.tag, a.zk, a.paid, Balance(bank, a.tag, a.sender));
      var blocks :| b == w.auth.(lastBlocks := blocks);
      DomainHasProc(w, a.zk.domain);
      BlocksKeep(w, blocks);
      var w1 := w.(auth := b);
      if a.zk.msg.CarriesBatch() {
        ProveBatchKeeps(w1, block, a.sender, a.tag, a.zk, a.paid, bank);
      } else {
        StrandedKeeps(w1, a.tag, a.sender, a.paid, bank);
        ProveControlKeeps(w1.(bank := bank), block, a.zk.domain, a.zk.msg);
      }
    }
  }
}
