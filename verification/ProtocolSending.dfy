/** Which calls get through in every run, and where their batches and tokens go. */
module ProtocolSending {
  import opened Types
  import opened Validation
  import opened AuthorizationModel
  import opened AuthorizationExact
  import opened Protocol
  import opened ProtocolTokens
  import opened ProtocolInvariant
  import opened ProtocolPackets
  import opened ProtocolTable
  import opened ProtocolLifeCycle
  import opened ProtocolProcessors
  import opened ProtocolSettling
  import P = ProcessorModel
  import AI = AuthorizationInvariant
  import PX = ProcessorExact

  /** The batch is on its way: on the main domain it is in its queue at position `k`, to any other domain it
      leaves in a packet. */
  ghost predicate Leaves(w: World, v: World, id: nat, d: Domain, m: AuthorizationMsg, k: nat)
    requires m.CarriesBatch()
  {
    && v.ins == w.ins && v.refunded == w.refunded && v.burnt == w.burnt
    && if d.Main? then
         && Main in w.procs && Main in v.procs && v.outs == w.outs && v.procs == w.procs[Main := v.procs[Main]]
         && PX.Queues(w.procs[Main], v.procs[Main], m.Batch(), k)
       else v.procs == w.procs && v.outs == w.outs + [Packet(id, d, m, InFlight)]
  }

  lemma DispatchLeaves(w: World, u: World, call: Call, block: Block)
    requires u.procs == w.procs && u.outs == w.outs && u.ins == w.ins && u.refunded == w.refunded && u.burnt == w.burnt
    requires call.msg.CarriesBatch() && call.domain in w.procs && call.callback.Some?
    requires !call.msg.Batch().IsLate(block) && call.msg.id !in w.procs[call.domain].history
    ensures var o, k := Dispatch(u, call, block), PX.Position(w.procs[call.domain], call.msg);
            && (o.Some? <==> call.domain.Main? ==> k <= |P.QueueOf(w.procs[Main], call.msg.priority)|)
            && (o.Some? ==> o.value.auth == u.auth && o.value.bank == u.bank
                            && Leaves(w, o.value, call.callback.value, call.domain, call.msg, k))
  {
    hide P.Handle, PX.Queues;
    if call.domain.Main? {
      PX.OrderIs(w.procs[Main], call.msg, block);
    }
  }

  lemma Punctual(s: Subroutine, block: Block, b: MessageBatch)
    requires b.expirationTime == DeadlineAt(s, block.Seconds())
    ensures !b.IsLate(block)
  {
  }

  lemma HasProcessor(w: World, tag: Label)
    requires Inv(w) && tag in w.auth.authorizations
    ensures var s := w.auth.authorizations[tag].subroutine;
            && s.Calls() != [] && Registered(s.Calls()[0].domain, w.auth.domains)
            && (ReachesProcessor(w, s) <==> RunsCosmwasm(s.Calls()[0].domain, w.auth.domains))
  {
    hide StageOk, TokensOk, AI.RecordsOk, AI.CountsOk, AI.IdsOk, ProcOk, LegalRestrictions;
    var auth := w.auth.authorizations[tag];
    HasDomain(auth, w.auth.domains);
    assert ProcsOk(w);
  }

  // ----- Payments -----

  function Attached(paid: Option<nat>): nat { if paid.None? then 0 else paid.value }

  lemma PayIs(bank: Bank, tag: Label, from: Addr, paid: Option<nat>, backed: bool)
    requires from != SELF
    ensures var o := Pay(bank, tag, from, paid, backed);
            && (o.Some? <==> paid.None? || (tag in bank && paid.value <= Balance(bank, tag, from)))
            && (o.Some? ==> Pays(bank, o.value, tag, from, Some(SELF), Attached(paid)))
  {
  }

  lemma PayLeaves(bank: Bank, now: Bank, tag: Label, from: Addr, n: nat)
    requires Pays(bank, now, tag, from, Some(SELF), n) && from != SELF
    ensures Balance(now, tag, from) == Balance(bank, tag, from) - n
  {
  }

  // ----- Calls of users -----

  /** The call can be made: the sender has what is attached, the label is stored, in force and not at its cap,
      the sender may call it, its messages match, and its domain has a processor. */
  ghost predicate CanCall(w: World, block: Block, sender: Addr, tag: Label, msgs: seq<ProcessorMessage>,
                          paid: Option<nat>) {
    && tag in w.auth.authorizations
    && var auth, left := w.auth.authorizations[tag], Balance(w.bank, tag, sender) - Attached(paid);
       && InForce(auth, block) && left >= 0 && (paid.Some? ==> tag in w.bank)
       && MayCall(auth.mode, paid, left) && Fit(auth.subroutine, msgs)
       && |AI.InProcessIds(w.auth, tag)| < auth.maxConcurrent
       && auth.subroutine.Calls() != [] && Registered(auth.subroutine.Calls()[0].domain, w.auth.domains)
       && RunsCosmwasm(auth.subroutine.Calls()[0].domain, w.auth.domains)
  }

  /** What a call does: it is recorded for its sender under the next id, what is attached goes to the contract,
      and the batch of the stored subroutine leaves, to the end of the queue of its priority. */
  ghost predicate IsCalled(w: World, v: World, block: Block, sender: Addr, tag: Label, ttl: Option<Expiration>,
                           msgs: seq<ProcessorMessage>, paid: Option<nat>) {
    && tag in w.auth.authorizations && w.auth.authorizations[tag].subroutine.Calls() != []
    && var auth, id, now := w.auth.authorizations[tag], w.auth.nextId, block.Seconds();
       var s := auth.subroutine;
       var d := s.Calls()[0].domain;
       && d in w.procs
       && v.auth.records == w.auth.records[id := Record(User(sender), d, tag, msgs, ttl, InProcess, now, now)]
       && Pays(w.bank, v.bank, tag, sender, Some(SELF), Attached(paid))
       && Leaves(w, v, id, d, EnqueueMsgs(id, msgs, s, auth.priority, DeadlineAt(s, now)),
                 |P.QueueOf(w.procs[d], auth.priority)|)
  }

  /** In every run, exactly the calls that can be made get through, and they do exactly this. The contract
      does not call itself, and ids do not wrap around. */
  lemma CallsGetThrough(w: World, block: Block, sender: Addr, tag: Label, ttl: Option<Expiration>,
                        msgs: seq<ProcessorMessage>, paid: Option<nat>)
    requires Reachable(w) && sender != SELF && w.auth.nextId < U64_MAX
    ensures var o := TryStep(w, Step(block, Send(sender, tag, ttl, msgs, paid)));
            && (o.Some? <==> CanCall(w, block, sender, tag, msgs, paid))
            && (o.Some? ==> IsCalled(w, o.value, block, sender, tag, ttl, msgs, paid))
  {
    hide Reachable, Inv, SendMsgs, Dispatch, Pay, ReachesProcessor, InForce, MayCall, Fit, AI.InProcessIds, Registered,
         AI.Inv, Pays, Leaves, DeadlineAt;
    ReachableOk(w);
    if tag in w.auth.authorizations {
      HasProcessor(w, tag);
      AuthAt(w);
      PayIs(w.bank, tag, sender, paid, w.auth.authorizations[tag].mode.WithCallLimit?);
      var p := Pay(w.bank, tag, sender, paid, w.auth.authorizations[tag].mode.WithCallLimit?);
      if p.Some? {
        PayLeaves(w.bank, p.value, tag, sender, Attached(paid));
        SendIff(w.auth, block, sender, tag, ttl, msgs, paid, Balance(p.value, tag, sender));
        if ReachesProcessor(w, w.auth.authorizations[tag].subroutine) {
          SentLeaves(w, block, sender, tag, ttl, msgs, paid, p.value);
        }
      }
    }
  }

  lemma SentLeaves(w: World, block: Block, sender: Addr, tag: Label, ttl: Option<Expiration>,
                   msgs: seq<ProcessorMessage>, paid: Option<nat>, bank: Bank)
    requires Inv(w) && tag in w.auth.authorizations && ReachesProcessor(w, w.auth.authorizations[tag].subroutine)
    requires Pays(w.bank, bank, tag, sender, Some(SELF), Attached(paid))
    ensures var o := SendMsgs(w.auth, block, sender, tag, ttl, msgs, paid, Balance(bank, tag, sender));
            var v := Opened(w.(bank := bank), o, block);
            && (v.Some? <==> o.Accepted?)
            && (v.Some? ==> IsCalled(w, v.value, block, sender, tag, ttl, msgs, paid))
  {
    hide Inv, SendMsgs, Dispatch, Pays, Leaves, DeadlineAt;
    var balance := Balance(bank, tag, sender);
    var o := SendMsgs(w.auth, block, sender, tag, ttl, msgs, paid, balance);
    if o.Accepted? {
      SendDoes(w.auth, block, sender, tag, ttl, msgs, paid, balance);
      var call := o.call.value;
      Punctual(w.auth.authorizations[tag].subroutine, block, call.msg.Batch());
      NextUnseen(w, call.domain);
      DispatchLeaves(w, w.(bank := bank, auth := o.store), call, block);
    }
  }

  // ----- Inserts of the owner -----

  /** In every run, an insert of the owner gets through exactly when the label is stored, its domain has a
      processor, the messages match, and, on the main domain, there is such a position; the batch then comes
      exactly there. No tokens move. */
  lemma InsertsGetThrough(w: World, block: Block, tag: Label, position: nat, priority: Priority,
                          msgs: seq<ProcessorMessage>)
    requires Reachable(w) && w.auth.nextId < U64_MAX
    ensures var o := TryStep(w, Step(block, Insert(tag, position, priority, msgs)));
            && (o.Some? <==>
                  && tag in w.auth.authorizations && Fit(w.auth.authorizations[tag].subroutine, msgs)
                  && ReachesProcessor(w, w.auth.authorizations[tag].subroutine)
                  && (DomainOf(w.auth.authorizations[tag].subroutine) == Some(Main) ==>
                        position <= |P.QueueOf(w.procs[Main], priority)|))
            && (o.Some? ==> IsInserted(w, o.value, block, tag, position, priority, msgs))
  {
    hide Reachable, Inv, InsertMessages, Dispatch, Fit, AI.Inv, Leaves, DeadlineAt, ReachesProcessor;
    ReachableOk(w);
    if tag in w.auth.authorizations {
      HasProcessor(w, tag);
      AuthAt(w);
      InsertIff(w.auth, block, tag, position, priority, msgs);
      if ReachesProcessor(w, w.auth.authorizations[tag].subroutine) {
        InsertLeaves(w, block, tag, position, priority, msgs);
      }
    }
  }

  ghost predicate IsInserted(w: World, v: World, block: Block, tag: Label, position: nat, priority: Priority,
                             msgs: seq<ProcessorMessage>) {
    && tag in w.auth.authorizations && w.auth.authorizations[tag].subroutine.Calls() != []
    && var s, id, now := w.auth.authorizations[tag].subroutine, w.auth.nextId, block.Seconds();
       var d := s.Calls()[0].domain;
       && v.auth.records == w.auth.records[id := Record(Initiator.Owner, d, tag, msgs, None, InProcess, now, now)]
       && v.bank == w.bank
       && Leaves(w, v, id, d, InsertMsgs(id, position, msgs, s, priority, DeadlineAt(s, now)), position)
  }

  lemma InsertLeaves(w: World, block: Block, tag: Label, position: nat, priority: Priority,
                     msgs: seq<ProcessorMessage>)
    requires Inv(w) && tag in w.auth.authorizations && ReachesProcessor(w, w.auth.authorizations[tag].subroutine)
    ensures var o := InsertMessages(w.auth, block, tag, position, priority, msgs);
            var v := Opened(w, o, block);
            && Main in w.procs
            && (v.Some? <==>
                  && o.Accepted?
                  && (DomainOf(w.auth.authorizations[tag].subroutine) == Some(Main) ==>
                        position <= |P.QueueOf(w.procs[Main], priority)|))
            && (v.Some? ==> IsInserted(w, v.value, block, tag, position, priority, msgs))
  {
    hide Inv, InsertMessages, Dispatch, Leaves, DeadlineAt;
    MainHere(w);
    var o := InsertMessages(w.auth, block, tag, position, priority, msgs);
    if o.Accepted? {
      InsertDoes(w.auth, block, tag, position, priority, msgs);
      var call := o.call.value;
      Punctual(w.auth.authorizations[tag].subroutine, block, call.msg.Batch());
      NextUnseen(w, call.domain);
      DispatchLeaves(w, w.(auth := o.store), call, block);
    }
  }

  lemma MainHere(w: World)
    requires Inv(w)
    ensures Main in w.procs
  {
    hide StageOk, AI.Inv, TokensOk, ProcOk;
  }

  // ----- Proofs -----

  /** In every run, a proof that is executed is of the registry of its label, for this contract, and newer
      than the last one if the label looks at the blocks. */
  lemma ProofsFit(w: World, block: Block, sender: Addr, tag: Label, zk: ZkMessage, paid: Option<nat>)
    requires TryStep(w, Step(block, Prove(sender, tag, zk, paid))).Some?
    ensures && tag in w.auth.zkAuthorizations
            && var auth := w.auth.zkAuthorizations[tag];
               && auth.enabled && zk.registry == auth.registry && zk.forUs
               && (auth.validateLastBlock && auth.registry in w.auth.lastBlocks ==>
                     w.auth.lastBlocks[auth.registry] < zk.blockNumber)
  {
    hide ExecuteZk, Dispatch, Pay;
    var backed := w.auth.zkAuthorizations[tag].mode.WithCallLimit? && zk.msg.CarriesBatch();
    var bank := Pay(w.bank, tag, sender, paid, backed).value;
    ProofIff(w.auth, block, sender, tag, zk, paid, Balance(bank, tag, sender));
  }

  // ----- Packets arrive -----

  lemma InTransit(w: World, n: nat)
    requires Inv(w) && n < |w.outs| && w.outs[n].flight.InFlight?
    ensures var k := w.outs[n];
            && !k.domain.Main? && k.domain in w.procs && k.body.CarriesBatch() && k.body.id == k.id
            && k.id !in w.procs[k.domain].history
  {
    hide Core, ReportFits, Faithful, Of;
    OutAt(w, n);
    InvAt(w, w.outs[n].id);
  }

  /** A packet that arrives brings its batch to its processor: the batch is queued at its position, reported as
      expired if it is late, or answered by an error if there is no such position. */
  lemma PacketsArrive(w: World, n: nat, block: Block, v: World)
    requires Reachable(w) && n < |w.outs| && w.outs[n].flight.InFlight?
    requires v == Next(w, Step(block, DeliverOut(n, Arrives)))
    ensures NothingEnds(w, v) && |v.outs| == |w.outs|
    ensures var k := w.outs[n];
            && k.domain in w.procs && k.domain in v.procs && k.body.CarriesBatch()
            && v.procs == w.procs[k.domain := v.procs[k.domain]]
            && var p, q, b := w.procs[k.domain], v.procs[k.domain], k.body.Batch();
               if b.IsLate(block) then
                 && q.history == p.history[k.id := P.History(b, [], [Expired(0)])]
                 && q.high == p.high && q.medium == p.medium
                 && v.ins == w.ins + [Packet(k.id, k.domain, Expired(0), InFlight)]
                 && v.outs[n].flight == Landed(AckOk)
               else if PX.Position(p, k.body) <= |P.QueueOf(p, b.priority)| then
                 && PX.Queues(p, q, b, PX.Position(p, k.body))
                 && v.ins == w.ins && v.outs[n].flight == Landed(AckOk)
               else q == p && v.ins == w.ins && v.outs[n].flight == Landed(AckError("execution failed"))
  {
    hide Reachable, Inv, P.Handle, PX.Queues, PX.Position;
    ReachableOk(w);
    InTransit(w, n);
    var k := w.outs[n];
    PX.OrderIs(w.procs[k.domain], k.body, block);
  }

  // ----- Labels that are switched off -----

  ghost predicate IsOff(a: AuthStore, tag: Label) { tag in a.authorizations && !a.authorizations[tag].enabled }

  lemma TableKeepsOff(a: AuthStore, block: Block, c: TableChange, tag: Label)
    requires ChangeTable(a, block, c).Accepted? && IsOff(a, tag) && c != Enable(tag, true)
    ensures IsOff(ChangeTable(a, block, c).store, tag)
  {
    hide CreateAuthorizations, CreateZkAuthorizations, Validate;
    match c
    case Create(infos, libraries) => CreateRecords(a, block, infos, libraries);
    case CreateZk(auths) => CreateZkRecords(a, auths);
    case _ =>
  }

  lemma StepKeepsOff(w: World, s: Step, tag: Label)
    requires Inv(w) && IsOff(w.auth, tag) && s.action != Administer(Enable(tag, true))
    ensures IsOff(Next(w, s).auth, tag)
  {
    hide Inv, ChangeTable, RunTokens;
    if s.action.Administer? {
      if ChangeTable(w.auth, s.block, s.action.change).Accepted? {
        TableKeepsOff(w.auth, s.block, s.action.change, tag);
      }
    } else {
      EntriesStay(w, s);
    }
  }

  /** Once a label is switched off, no call of it gets through before it is switched on again. */
  lemma {:induction false} OffStaysOff(w: World, more: seq<Step>, v: World, tag: Label, block: Block, sender: Addr,
                                       ttl: Option<Expiration>, msgs: seq<ProcessorMessage>, paid: Option<nat>)
    requires Reachable(w) && v == RunFrom(w, more) && IsOff(w.auth, tag)
    requires forall i :: 0 <= i < |more| ==> more[i].action != Administer(Enable(tag, true))
    ensures Reachable(v) && IsOff(v.auth, tag) && TryStep(v, Step(block, Send(sender, tag, ttl, msgs, paid))).None?
    decreases |more|
  {
    hide Reachable, Next, Inv, CanCall, IsCalled, RunFrom;
    if more == [] {
      assert RunFrom(w, []) == w by { NoSteps(w); }
    } else {
      var most, s := more[..|more| - 1], more[|more| - 1];
      var u := RunFrom(w, most);
      OffStaysOff(w, most, u, tag, block, sender, ttl, msgs, paid);
      LastOf(w, more);
      ReachableNext(u, s);
      ReachableOk(u);
      StepKeepsOff(u, s, tag);
    }
    OffRefuses(v, tag, block, sender, ttl, msgs, paid);
  }

  lemma NoSteps(w: World)
    ensures RunFrom(w, []) == w
  {
  }

  lemma LastOf(w: World, more: seq<Step>)
    requires more != []
    ensures RunFrom(w, more) == Next(RunFrom(w, more[..|more| - 1]), more[|more| - 1])
  {
  }

  lemma OffRefuses(w: World, tag: Label, block: Block, sender: Addr, ttl: Option<Expiration>,
                   msgs: seq<ProcessorMessage>, paid: Option<nat>)
    requires Reachable(w) && IsOff(w.auth, tag)
    ensures TryStep(w, Step(block, Send(sender, tag, ttl, msgs, paid))).None?
  {
    hide Reachable, SendMsgs, Dispatch, Pay, MayCall, Fit, AI.InProcessIds, Registered, Pays, Leaves,
         DeadlineAt, IsCalled;
    if sender != SELF && w.auth.nextId < U64_MAX {
      CallsGetThrough(w, block, sender, tag, ttl, msgs, paid);
    }
  }
}
