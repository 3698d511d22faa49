/** How calls end, in every run: what a result, the answer to a packet and a retry do to the record, and where
    the token of the call goes. */
module ProtocolSettling {
  import opened Types
  import opened Validation
  import opened AuthorizationModel
  import opened Protocol
  import opened ProtocolTokens
  import opened ProtocolInvariant
  import opened ProtocolSteps
  import opened ProtocolPackets
  import opened ProtocolTable
  import opened ProtocolLifeCycle
  import P = ProcessorModel
  import AI = AuthorizationInvariant
  import PE = ProcessorEffects

  // ----- Tokens change hands -----

  /** `n` tokens of the label leave `from`, and come to `to` if there is one; nobody else is touched. */
  ghost predicate Pays(was: Bank, now: Bank, tag: Label, from: Addr, to: Option<Addr>, n: nat) {
    forall t: Label, x: Addr ::
      Balance(now, t, x) == Balance(was, t, x) - (if t == tag && x == from then n else 0)
                            + (if t == tag && to == Some(x) then n else 0)
  }

  ghost predicate SameBalances(was: Bank, now: Bank) {
    forall t: Label, x: Addr :: Balance(now, t, x) == Balance(was, t, x)
  }

  /** How the token of a call is settled when the call gets this result: burned for what was executed or
      removed by the owner, given back to the caller otherwise; not at all if the call did not pay, can be
      retried, or failed unexpectedly. */
  ghost predicate SettledBy(w: World, v: World, id: nat, result: ExecutionResult)
    requires id in w.auth.records
  {
    var r := w.auth.records[id];
    if !r.initiator.User? || !IsLimited(w.auth, r.tag) || result == Timeout(true) || result.UnexpectedError? then
      SameBalances(w.bank, v.bank) && v.refunded == w.refunded && v.burnt == w.burnt
    else if result.Success? || result.PartiallyExecuted? || result.RemovedByOwner? then
      && Pays(w.bank, v.bank, r.tag, SELF, None, 1)
      && v.refunded == w.refunded && v.burnt == w.burnt + multiset{id}
    else
      && Pays(w.bank, v.bank, r.tag, SELF, Some(r.initiator.addr), 1)
      && v.refunded == w.refunded + multiset{id} && v.burnt == w.burnt
  }

  /** The record of `id` gets this result now, no other record changes, and the token is settled. */
  ghost predicate EndsAs(w: World, v: World, id: nat, result: ExecutionResult, block: Block) {
    && id in w.auth.records
    && v.auth.records == w.auth.records[id := w.auth.records[id].(result := result, updatedAt := block.Seconds())]
    && SettledBy(w, v, id, result)
  }

  /** Nobody's record and nobody's tokens change. */
  ghost predicate NothingEnds(w: World, v: World) {
    && v.auth.records == w.auth.records && SameBalances(w.bank, v.bank)
    && v.refunded == w.refunded && v.burnt == w.burnt
  }

  lemma RefundPays(bank: Bank, tag: Label, to: Addr)
    requires RunToken(bank, Refund(tag, to)).Some? && to != SELF
    ensures Pays(bank, RunToken(bank, Refund(tag, to)).value, tag, SELF, Some(to), 1)
  {
  }

  lemma BurnPays(bank: Bank, tag: Label)
    requires RunToken(bank, Burn(tag)).Some?
    ensures Pays(bank, RunToken(bank, Burn(tag)).value, tag, SELF, None, 1)
  {
  }

  lemma NothingPays(w: World, u: World, id: nat)
    requires u.bank == w.bank
    ensures Settle(u, id, []) == Some(u) && SameBalances(w.bank, u.bank)
  {
    NothingSettled(u, id);
  }

  lemma OneSettled(u: World, id: nat, m: TokenMsg, v: World)
    requires Settle(u, id, [m]) == Some(v)
    ensures RunToken(u.bank, m) == Some(v.bank) && v == u.(bank := v.bank, refunded := v.refunded, burnt := v.burnt)
    ensures v.refunded == (if m.Refund? then u.refunded + multiset{id} else u.refunded)
    ensures v.burnt == (if m.Burn? then u.burnt + multiset{id} else u.burnt)
  {
    hide RunTokens, RunToken;
    OneToken(u.bank, m);
    assert u.refunded + multiset{} == u.refunded && u.burnt + multiset{} == u.burnt;
  }

  lemma SettleIs(w: World, u: World, id: nat, result: ExecutionResult, v: World)
    requires UsersOk(w.auth) && id in w.auth.records && !result.InProcess?
    requires u.bank == w.bank && u.refunded == w.refunded && u.burnt == w.burnt
    requires Settle(u, id, Settlement(w.auth, w.auth.records[id], result)) == Some(v)
    ensures SettledBy(w, v, id, result) && v.auth == u.auth && v.procs == u.procs && v.outs == u.outs && v.ins == u.ins
  {
    hide Settle, RunToken, Pays, SameBalances;
    var r := w.auth.records[id];
    var ms := Settlement(w.auth, r, result);
    if ms == [] {
      NothingPays(w, u, id);
    } else {
      OneSettled(u, id, ms[0], v);
      if ms[0].Burn? {
        BurnPays(w.bank, r.tag);
      } else {
        RefundPays(w.bank, r.tag, r.initiator.addr);
      }
    }
  }

  lemma UsersAt(w: World)
    requires Inv(w)
    ensures UsersOk(w.auth)
  {
    hide StageOk, AI.Inv, ProcsOk, BankOk, SettledOk;
  }

  /** Applying a result or an answer that closes the record. */
  lemma ApplyEnds(w: World, u: World, id: nat, o: AuthOutcome, result: ExecutionResult, block: Block, v: World)
    requires Inv(w) && id in w.auth.records && !result.InProcess?
    requires u.auth == w.auth && u.bank == w.bank && u.refunded == w.refunded && u.burnt == w.burnt
    requires o == Accepted(Close(w.auth, block, id, result), None, Settlement(w.auth, w.auth.records[id], result))
    requires Apply(u, id, o) == Some(v)
    ensures EndsAs(w, v, id, result, block) && v.procs == u.procs && v.outs == u.outs && v.ins == u.ins
  {
    hide Inv, Settle, SettledBy, Settlement;
    UsersAt(w);
    SettleIs(w, u.(auth := o.store), id, result, v);
  }

  // ----- A result arrives -----

  /** A result that arrives ends its call, as what the processor sent. */
  lemma ResultEnds(w: World, n: nat, block: Block, v: World)
    requires Reachable(w) && n < |w.ins| && w.ins[n].flight.InFlight?
    requires v == Next(w, Step(block, DeliverIn(n, Arrives)))
    ensures EndsAs(w, v, w.ins[n].id, w.ins[n].body, block)
    ensures v.procs == w.procs && v.outs == w.outs && |v.ins| == |w.ins| && v.ins[n].flight == Landed(AckOk)
  {
    hide Reachable, Inv, Apply, ProcessorCallback, AI.Inv, EndsAs, Settlement, Close;
    ReachableOk(w);
    var k := w.ins[n];
    ResultArrives(w, block, n);
    InFlightFits(w, n);
    AuthAt(w);
    ProcessorCallbackIs(w.auth, block, k.id, k.body);
    ApplyEnds(w, LandIn(w, n, AckOk), k.id, ProcessorCallback(w.auth, block, k.id, k.body), k.body, block, v);
  }

  /** What a processor reports on the main domain ends the call in the same step; from another domain it
      leaves in a packet. */
  ghost predicate ReportLeaves(w: World, v: World, d: Domain, report: Option<P.Report>, block: Block) {
    && v.outs == w.outs
    && match report
       case None => NothingEnds(w, v) && v.ins == w.ins
       case Some(k) =>
         if d.Main? then EndsAs(w, v, k.id, k.result, block) && v.ins == w.ins
         else NothingEnds(w, v) && v.ins == w.ins + [Packet(k.id, d, k.result, InFlight)]
  }

  lemma AfterLeaves(w: World, d: Domain, o: P.Outcome, block: Block, v: World)
    requires Inv(w) && d in w.procs && o.Done? && ProcOk(d, o.store) && PE.Summary(w.procs[d], o)
    requires After(w, d, o, block) == Some(v)
    ensures ReportLeaves(w, v, d, o.report, block) && v.procs == w.procs[d := o.store]
  {
    hide Inv, ProcOk, PE.Quiet, PE.Reports, Apply, EndsAs, InvBut, OnlyAt, Brought, Faithful, AI.Inv, ProcessorCallback;
    if o.report.Some? && d.Main? {
      var id, result := o.report.value.id, o.report.value.result;
      ReportsAnnounced(w, d, o.store, id, result);
      AuthAt(w);
      ProcessorCallbackIs(w.auth, block, id, result);
      ApplyEnds(w, WithProc(w, d, o.store), id, ProcessorCallback(w.auth, block, id, result), result, block, v);
    }
  }

  // ----- A packet to a processor is answered -----

  /** The result of a call whose packet was not delivered. */
  function Undelivered(r: Record, ack: Ack, block: Block): ExecutionResult
    requires !ack.AckOk?
  {
    if ack != AckError(TIMEOUT) then UnexpectedError(ack.error)
    else
      match r.ttl
      case None => Timeout(false)
      case Some(ttl) => Timeout(!ttl.IsExpired(block))
  }

  /** The answer that a packet was applied changes nothing; any other ends the call. */
  lemma AnswerEnds(w: World, n: nat, block: Block, v: World)
    requires Reachable(w) && n < |w.outs| && w.outs[n].flight.Landed?
    requires v == Next(w, Step(block, AckOut(n)))
    ensures v.procs == w.procs && v.ins == w.ins && v.outs == w.outs[..n] + w.outs[n + 1..]
    ensures var k := w.outs[n];
            if k.flight.ack.AckOk? then NothingEnds(w, v)
            else && k.id in w.auth.records
                 && EndsAs(w, v, k.id, Undelivered(w.auth.records[k.id], k.flight.ack, block), block)
  {
    hide Reachable, Inv, Apply, BridgeCallback, AI.Inv, EndsAs, Settlement, Close;
    ReachableOk(w);
    var k := w.outs[n];
    var u := w.(outs := w.outs[..n] + w.outs[n + 1..]);
    if k.flight.ack.AckOk? {
      AppliedQuietly(w, u, k.id, block);
    } else {
      BouncedOpen(w, n);
      AckOutBounced(w, block, n);
      AuthAt(w);
      BridgeCallbackIs(w.auth, block, k.id, k.flight.ack);
      ApplyEnds(w, u, k.id, BridgeCallback(w.auth, block, k.id, k.flight.ack),
                Undelivered(w.auth.records[k.id], k.flight.ack, block), block, v);
    }
  }

  lemma AppliedQuietly(w: World, u: World, id: nat, block: Block)
    requires u.auth == w.auth && u.bank == w.bank && u.refunded == w.refunded && u.burnt == w.burnt
    ensures var v := Or(Apply(u, id, BridgeCallback(w.auth, block, id, AckOk)), u);
            NothingEnds(w, v) && v.procs == u.procs && v.ins == u.ins && v.outs == u.outs
  {
    NothingSettled(u, id);
  }

  // ----- A retry -----

  ghost predicate CanRetry(w: World, id: nat) { id in w.auth.records && w.auth.records[id].result == Timeout(true) }

  /** The batch of the record, as it is sent again at this block. */
  function Resent(a: AuthStore, id: nat, block: Block): AuthorizationMsg
    requires id in a.records && a.records[id].tag in a.authorizations
  {
    var r := a.records[id];
    var auth := a.authorizations[r.tag];
    EnqueueMsgs(id, r.messages, auth.subroutine, auth.priority, DeadlineAt(auth.subroutine, block.Seconds()))
  }

  lemma RetryFacts(w: World, id: nat)
    requires Inv(w) && CanRetry(w, id)
    ensures var r := w.auth.records[id];
            && r.ttl.Some? && r.initiator.User? && r.tag in w.auth.authorizations && r.tag in w.auth.running
            && Registered(r.domain, w.auth.domains) && !r.domain.Main? && r.domain in w.procs
            && w.auth.running[r.tag] == |AI.InProcessIds(w.auth, r.tag)|
  {
    hide TokensOk, ProcsOk, ValidateMessages, DomainOf, AI.InProcessIds, AI.TableOk, AI.IdsOk, StageOk, Of;
    var r := w.auth.records[id];
    assert AI.RecordOk(w.auth, r);
    InvAt(w, id);
    TimedOutPlace(w, id);
    assert Running(w.auth, r.tag) == |AI.InProcessIds(w.auth, r.tag)|;
  }

  /** In time and below the cap, a retry puts the call back in process and sends its batch again, under the
      same id. At the cap it changes nothing. Too late, it ends the call and gives the token back. */
  lemma RetryDoes(w: World, id: nat, block: Block, v: World)
    requires Reachable(w) && CanRetry(w, id) && v == Next(w, Step(block, Retry(id)))
    ensures w.auth.records[id].ttl.Some? && w.auth.records[id].tag in w.auth.authorizations
    ensures var r := w.auth.records[id];
            if !r.ttl.value.IsExpired(block) then
              if |AI.InProcessIds(w.auth, r.tag)| < w.auth.authorizations[r.tag].maxConcurrent then
                && v.auth.records == w.auth.records[id := r.(result := InProcess, updatedAt := block.Seconds())]
                && v.outs == w.outs + [Packet(id, r.domain, Resent(w.auth, id, block), InFlight)]
                && v.procs == w.procs && v.ins == w.ins && v.bank == w.bank
                && v.refunded == w.refunded && v.burnt == w.burnt
              else v == w
            else if IsLimited(w.auth, r.tag) then
              EndsAs(w, v, id, Timeout(false), block) && v.outs == w.outs && v.procs == w.procs && v.ins == w.ins
            else v == w
  {
    hide Reachable, Inv, EndsAs, Settle, AI.InProcessIds;
    ReachableOk(w);
    RetryFacts(w, id);
    var r := w.auth.records[id];
    if r.ttl.value.IsExpired(block) {
      if PaysToken(w.auth, r) {
        AbandonEnds(w, id, block, v);
      } else {
        NothingSettled(w, id);
      }
    }
  }

  lemma AbandonEnds(w: World, id: nat, block: Block, v: World)
    requires Inv(w) && CanRetry(w, id) && w.auth.records[id].tag in w.auth.authorizations
    requires PaysToken(w.auth, w.auth.records[id])
    requires w.auth.records[id].ttl.Some? && w.auth.records[id].ttl.value.IsExpired(block)
    requires v == Next(w, Step(block, Retry(id)))
    ensures EndsAs(w, v, id, Timeout(false), block) && v.outs == w.outs && v.procs == w.procs && v.ins == w.ins
  {
    hide Inv, Settle, SettledBy;
    var r := w.auth.records[id];
    var u := w.(auth := w.auth.(records := w.auth.records[id := r.(result := Timeout(false),
                                                                   updatedAt := block.Seconds())]));
    UsersAt(w);
    AbandonKeeps(w, block, id);
    assert Settle(u, id, Settlement(w.auth, r, Timeout(false))) == Some(v);
    SettleIs(w, u, id, Timeout(false), v);
  }
}
