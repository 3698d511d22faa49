/** What the stores of a processor look like in every run, and what can make a tick fail. */
module ProtocolTicks {
  import opened Types
  import opened Validation
  import opened AuthorizationModel
  import opened Protocol
  import opened ProtocolInvariant
  import opened ProtocolSteps
  import opened ProtocolTable
  import P = ProcessorModel
  import AI = AuthorizationInvariant
  import PI = ProcessorInvariant
  import PS = ProcessorSteps
  import PX = ProcessorExact

  /** The store has, for the batch `b`, the entry and the index it needs. */
  ghost predicate Backed(p: P.ProcStore, b: MessageBatch) {
    && b.id in p.history && p.history[b.id].reports == []
    && b.SameJob(p.history[b.id].batch)
    && b.id in p.batches && p.batches[b.id].SameJob(b)
    && (b.id in p.index ==> b.subroutine.NonAtomic? && p.index[b.id] < |b.msgs|)
  }

  lemma HeldBacked(p: P.ProcStore, b: MessageBatch)
    requires PI.Held(p, b)
    ensures Backed(p, b)
  {
    hide PI.HistoryOk, PI.StalePending, PI.Select;
  }

  lemma QueuedBacked(p: P.ProcStore, priority: Priority, k: nat)
    requires PI.Inv(p) && k < |P.QueueOf(p, priority)|
    ensures var b := P.QueueOf(p, priority)[k]; b.priority == priority && Backed(p, b)
  {
    hide PI.Inv, PI.Held, PI.InvBut;
    var q := P.QueueOf(p, priority);
    PI.Take(p, priority, k);
    HeldBacked(P.SetQueue(p, priority, q[..k] + q[k + 1..]), q[k]);
  }

  lemma ParkedBacked(p: P.ProcStore, id: nat)
    requires PI.Inv(p) && id in p.history && p.history[id].reports == [] && PS.InNoQueue(p, id)
    ensures id in p.pending && id in p.index && p.pending[id].batch.id == id && Backed(p, p.pending[id].batch)
  {
    hide PI.HistoryOk, PI.StalePending, PI.Select, PI.Waiting;
    PI.InvAt(p, id);
  }

  /** Every batch without a result is queued with its own priority or parked, and in both cases its
      entries are there. */
  lemma Structure(w: World, d: Domain)
    requires Reachable(w)
    requires d in w.procs
    ensures var p := w.procs[d];
            && (forall priority, k :: 0 <= k < |P.QueueOf(p, priority)| ==>
                  P.QueueOf(p, priority)[k].priority == priority && Backed(p, P.QueueOf(p, priority)[k]))
            && (forall id :: id in p.history && p.history[id].reports == [] && PS.InNoQueue(p, id) ==>
                  id in p.pending && id in p.index && p.pending[id].batch.id == id && Backed(p, p.pending[id].batch))
  {
    hide Reachable, Inv, PI.Inv, Backed, PS.InNoQueue;
    ReachableOk(w);
    var p := w.procs[d];
    ProcAt(w, d);
    forall priority, k | 0 <= k < |P.QueueOf(p, priority)|
      ensures P.QueueOf(p, priority)[k].priority == priority && Backed(p, P.QueueOf(p, priority)[k])
    {
      QueuedBacked(p, priority, k);
    }
    forall id | id in p.history && p.history[id].reports == [] && PS.InNoQueue(p, id)
      ensures id in p.pending && id in p.index && p.pending[id].batch.id == id && Backed(p, p.pending[id].batch)
    {
      ParkedBacked(p, id);
    }
  }

  // ----- Messages that were checked can be built -----

  lemma {:induction false} Checked(ms: seq<ProcessorMessage>, calls: seq<FunctionCall>, i: nat)
    requires |ms| == |calls| && CheckMessages(ms, calls).None? && i < |ms|
    ensures ms[i].HasType(calls[i].details.messageType) && (ms[i].EvmRawCallMsg? || ms[i].msg.json.Some?)
  {
    hide CheckAll;
    if i > 0 {
      Checked(ms[1..], calls[1..], i - 1);
    }
  }

  /** One message for every function, each of a kind that the processor can dispatch. */
  ghost predicate Sendable(b: MessageBatch) {
    b.subroutine.NonAtomic? ==>
      && b.msgs != [] && |b.msgs| == |b.subroutine.functions|
      && forall i :: 0 <= i < |b.msgs| ==>
           b.msgs[i].Dispatchable() && (b.subroutine.functions[i].callback.Some? ==> b.msgs[i].msg.json.Some?)
  }

  /** On a CosmWasm domain messages that were checked are sendable. */
  lemma CheckedSendable(auth: Authorization, domains: map<string, Environment>, b: MessageBatch)
    requires WellFormed(auth, domains) && b.subroutine == auth.subroutine
    requires ValidateMessages(b.subroutine, b.msgs).None? && DomainOf(b.subroutine).Some?
    requires var d := DomainOf(b.subroutine).value; Registered(d, domains) && RunsCosmwasm(d, domains)
    ensures Sendable(b)
  {
    hide CheckMessages, LegalRestrictions;
    if b.subroutine.NonAtomic? {
      var calls := b.subroutine.Calls();
      forall i | 0 <= i < |b.msgs|
        ensures b.msgs[i].Dispatchable() && (b.subroutine.functions[i].callback.Some? ==> b.msgs[i].msg.json.Some?)
      {
        Checked(b.msgs, calls, i);
        assert WellFormedCall(calls[i], domains);
      }
    }
  }

  /** The function that is due next has no address. */
  ghost predicate Unresolved(p: P.ProcStore, b: MessageBatch, block: Block) {
    var i := P.IndexOf(p, b.id);
    && b.subroutine.NonAtomic? && i < |b.subroutine.functions| && b.subroutine.functions[i].call.address.None?
    && !b.IsLate(block) && (b.retry.Some? ==> b.retry.value.cooldown.IsExpired(block))
  }

  lemma FrontChecked(w: World, d: Domain, b: MessageBatch)
    requires Inv(w) && d in w.procs && PX.InFront(w.procs[d]) == Some(b)
    ensures b.id in w.auth.records && w.auth.records[b.id].domain == d && Backed(w.procs[d], b)
    ensures Faithful(w.auth, w.auth.records[b.id], b)
    ensures var r := w.auth.records[b.id];
            r.tag in w.auth.authorizations ==>
              && WellFormed(w.auth.authorizations[r.tag], w.auth.domains)
              && b.subroutine == w.auth.authorizations[r.tag].subroutine
              && ValidateMessages(b.subroutine, b.msgs).None? && DomainOf(b.subroutine) == Some(d)
              && Registered(d, w.auth.domains) && RunsCosmwasm(d, w.auth.domains)
  {
    hide Of, ReportFits, OutFits, PI.Inv, ValidateMessages, DomainOf, WellFormed;
    var p := w.procs[d];
    ProcAt(w, d);
    QueuedBacked(p, P.NextQueue(p), 0);
    InvAt(w, b.id);
    assert AI.RecordOk(w.auth, w.auth.records[b.id]);
    assert ProcsOk(w);
  }

  /** With a call of a stored authorization in front, or any batch whose messages can be dispatched, a tick
      fails only when the processor is paused or the function due next has no address. Neither the load
      of the batch in the reply nor the look-up of the function ever fails. */
  lemma TickFailsIff(w: World, d: Domain, block: Block, outcome: P.SubMsgResult, b: MessageBatch)
    requires Reachable(w)
    requires d in w.procs && PX.InFront(w.procs[d]) == Some(b)
    requires b.id in w.auth.records && w.auth.records[b.id].tag !in w.auth.authorizations ==> Sendable(b)
    ensures var p := w.procs[d];
            P.Tick(p, block, outcome).Reverted? <==> p.config.paused || Unresolved(p, b, block)
  {
    hide Reachable, Inv, PI.Inv, P.Tick, ValidateMessages, DomainOf, WellFormed, Registered, RunsCosmwasm;
    var p := w.procs[d];
    ReachableOk(w);
    ProcAt(w, d);
    FrontChecked(w, d, b);
    PS.TickRevertsIff(p, block, outcome);
    if w.auth.records[b.id].tag in w.auth.authorizations {
      CheckedSendable(w.auth.authorizations[w.auth.records[b.id].tag], w.auth.domains, b);
    }
  }
}
