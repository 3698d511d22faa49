/** Retries after a timeout, and the packets in both directions. */
module ProtocolPackets {
  import opened Types
  import opened AuthorizationModel
  import opened Protocol
  import opened ProtocolTokens
  import opened ProtocolInvariant
  import opened ProtocolSteps
  import opened ProtocolCalls
  import P = ProcessorModel
  import AI = AuthorizationInvariant
  import PI = ProcessorInvariant
  import PS = ProcessorSteps

  // ----- Retrying after a timeout -----

  /** No one has the batch of an id that timed out. */
  lemma TimedOutPlace(w: World, id: nat)
    requires StageOk(w, id) && id in w.auth.records && w.auth.records[id].result.Timeout?
    ensures Of(w.outs, id) == [] && Of(w.ins, id) == [] && Unseen(w, id) && w.auth.records[id].domain in w.procs
  {
    hide Of, Faithful;
  }

  lemma RecordSame(w: World, v: World, id: nat, r: Record, o: nat)
    requires o != id && v.auth.records == w.auth.records[id := r]
    requires v.procs == w.procs && v.outs == w.outs && v.ins == w.ins
    ensures Same(w, v, o)
  {
    hide Of;
  }

  ghost function Reopened(w: World, block: Block, id: nat): World
    requires id in w.auth.records && w.auth.records[id].tag in w.auth.running
  {
    var r := w.auth.records[id];
    w.(auth := w.auth.(running := w.auth.running[r.tag := w.auth.running[r.tag] + 1],
                       records := w.auth.records[id := r.(result := InProcess, updatedAt := block.Seconds())]))
  }

  lemma NothingSettled(w: World, id: nat)
    ensures Settle(w, id, []) == Some(w)
  {
    EmptyTokens(w.bank);
    assert w.refunded + multiset{} == w.refunded && w.burnt + multiset{} == w.burnt;
  }

  lemma ReopenWorld(w: World, block: Block, id: nat)
    requires Inv(w) && id in w.auth.records && w.auth.records[id].result == Timeout(true)
    requires w.auth.records[id].tag in w.auth.running
    ensures InvBut(Reopened(w, block, id), id) && Unplaced(Reopened(w, block, id), id)
  {
    hide AI.Inv, TokensOk, Same, Of, PI.Inv, Settle;
    var v := Reopened(w, block, id);
    InvAt(w, id);
    TimedOutPlace(w, id);
    AI.ReopenKeeps(w.auth, block, id);
    assert SameModes(w.auth, v.auth);
    SettleKeeps(w, v.auth, id, v.auth.records[id]);
    assert Settlement(w.auth, w.auth.records[id], InProcess) == [];
    NothingSettled(v, id);
    assert Core(v);
    forall o: nat | o != id
      ensures Same(w, v, o)
    {
      RecordSame(w, v, id, v.auth.records[id], o);
    }
    OthersKeep(w, v, id);
  }

  /** A timed-out id that nobody may retry any more. */
  lemma AbandonKeeps(w: World, block: Block, id: nat)
    requires Inv(w) && id in w.auth.records && w.auth.records[id].result == Timeout(true)
    ensures var r := w.auth.records[id].(result := Timeout(false), updatedAt := block.Seconds());
            var o := Settle(w.(auth := w.auth.(records := w.auth.records[id := r])), id,
                            Settlement(w.auth, w.auth.records[id], Timeout(false)));
            o.Some? && Inv(o.value)
  {
    hide AI.Inv, TokensOk, Same, Of, PI.Inv, Settle, Settlement;
    var r := w.auth.records[id].(result := Timeout(false), updatedAt := block.Seconds());
    var b := w.auth.(records := w.auth.records[id := r]);
    InvAt(w, id);
    TimedOutPlace(w, id);
    AI.RewriteKeeps(w.auth, id, r);
    assert SameModes(w.auth, b);
    SettleKeeps(w, b, id, r);
    var v := Settle(w.(auth := b), id, Settlement(w.auth, w.auth.records[id], Timeout(false))).value;
    assert Core(v);
    forall o: nat | o != id
      ensures Same(w, v, o)
    {
      RecordSame(w, v, id, r, o);
    }
    OthersKeep(w, v, id);
    assert StageOk(v, id);
    Complete(v, id);
  }

  /** The three things a retry can do. */
  lemma RetryCases(a: AuthStore, block: Block, id: nat)
    requires RetryMsgs(a, block, id).Accepted?
    ensures id in a.records && a.records[id].result == Timeout(true)
    ensures var o, r := RetryMsgs(a, block, id), a.records[id];
            if o.call.Some? then
              && r.tag in a.running && r.tag in a.authorizations
              && o.store == a.(running := a.running[r.tag := a.running[r.tag] + 1],
                               records := a.records[id := r.(result := InProcess, updatedAt := block.Seconds())])
              && o.call.value.domain == r.domain && o.call.value.callback == Some(id)
              && o.call.value.msg.EnqueueMsgs? && o.call.value.msg.id == id && o.call.value.msg.msgs == r.messages
              && o.call.value.msg.subroutine == a.authorizations[r.tag].subroutine
              && o.call.value.msg.expirationTime == Deadline(a.authorizations[r.tag].subroutine, block)
            else if o.tokens == [] then o.store == a
            else && o.store ==
                    a.(records := a.records[id := r.(result := Timeout(false), updatedAt := block.Seconds())])
                 && o.tokens == Settlement(a, r, Timeout(false))
  {
  }

  lemma RetryKeeps(w: World, block: Block, id: nat)
    requires Inv(w)
    ensures Inv(Or(DoRetry(w, block, id), w))
  {
    hide Inv, RetryMsgs, Dispatch, Settle, InvBut, Unplaced, Settlement;
    var o := RetryMsgs(w.auth, block, id);
    if o.Accepted? {
      RetryCases(w.auth, block, id);
      if o.call.Some? {
        ReopenWorld(w, block, id);
        DispatchKeeps(Reopened(w, block, id), id, o.call.value.msg, block);
      } else if o.tokens == [] {
        NothingSettled(w, id);
      } else {
        AbandonKeeps(w, block, id);
      }
    }
  }

  // ----- Packets to a processor -----

  /** The packet at position `n` is the only one of its id, and there is a record for it. */
  lemma OutAt(w: World, n: nat)
    requires Inv(w) && n < |w.outs|
    ensures var k := w.outs[n];
            && k.id in w.auth.records && Of(w.outs, k.id) == [k]
            && Of(w.outs[..n], k.id) == [] && Of(w.outs[n + 1..], k.id) == []
  {
    hide Core, OutFits, ReportFits, Faithful, Of;
    var k := w.outs[n];
    InvAt(w, k.id);
    OfInside(w.outs[..n], k, w.outs[n + 1..], k.id);
    assert w.outs[..n] + [k] + w.outs[n + 1..] == w.outs;
  }

  lemma InAt(w: World, n: nat)
    requires Inv(w) && n < |w.ins|
    ensures var k := w.ins[n];
            && k.id in w.auth.records && Of(w.ins, k.id) == [k]
            && Of(w.ins[..n], k.id) == [] && Of(w.ins[n + 1..], k.id) == []
  {
    hide Core, OutFits, ReportFits, Faithful, Of;
    var k := w.ins[n];
    InvAt(w, k.id);
    OfInside(w.ins[..n], k, w.ins[n + 1..], k.id);
    assert w.ins[..n] + [k] + w.ins[n + 1..] == w.ins;
  }

  /** Replacing or removing the packet at `n` concerns its id only. */
  lemma Replaced<T>(q: seq<Packet<T>>, n: nat, k: Packet<T>, o: nat)
    requires n < |q| && k.id == q[n].id && o != k.id
    ensures Of(q[..n] + [k] + q[n + 1..], o) == Of(q, o)
    ensures Of(q[..n] + q[n + 1..], o) == Of(q, o)
  {
    hide Of;
    OfInside(q[..n], k, q[n + 1..], o);
    OfInside(q[..n], q[n], q[n + 1..], o);
    assert q[..n] + [q[n]] + q[n + 1..] == q;
  }

  lemma LandOutFrame(w: World, n: nat, ack: Ack)
    requires Inv(w) && n < |w.outs|
    ensures var v, k := LandOut(w, n, ack), w.outs[n];
            InvBut(v, k.id) && Of(v.outs, k.id) == [k.(flight := Landed(ack))] && Core(v)
  {
    hide Core, Of;
    var k := w.outs[n];
    var k' := k.(flight := Landed(ack));
    var v := LandOut(w, n, ack);
    InvAt(w, k.id);
    OutAt(w, n);
    CoreSame(w, v);
    forall o: nat | o != k.id
      ensures Same(w, v, o)
    {
      Replaced(w.outs, n, k', o);
    }
    OfInside(w.outs[..n], k', w.outs[n + 1..], k.id);
    OthersKeep(w, v, k.id);
  }

  /** A packet that was not applied waits to be told of. */
  lemma LandOutKeeps(w: World, n: nat, ack: Ack)
    requires Inv(w) && n < |w.outs| && w.outs[n].flight.InFlight? && !ack.AckOk?
    ensures Inv(LandOut(w, n, ack))
  {
    hide Core, Of, Faithful;
    var v, k := LandOut(w, n, ack), w.outs[n];
    LandOutFrame(w, n, ack);
    InvAt(w, k.id);
    OutAt(w, n);
    assert StageOk(v, k.id);
    Complete(v, k.id);
  }

  lemma DeliverOutKeeps(w: World, block: Block, n: nat, delivery: Delivery)
    requires Inv(w)
    ensures Inv(Or(DoDeliverOut(w, block, n, delivery), w))
  {
    hide Inv, P.Handle, After, LandOut;
    if n < |w.outs| && w.outs[n].flight.InFlight? && w.outs[n].domain in w.procs {
      var d, m := w.outs[n].domain, w.outs[n].body;
      if !delivery.Arrives? {
        LandOutKeeps(w, n, NotDelivered(delivery));
      } else if P.Handle(w.procs[d], m, block).Reverted? {
        LandOutKeeps(w, n, AckError("execution failed"));
      } else {
        LandOutProcs(w, n);
        ArrivesFits(w, n);
        ArrivalKeeps(LandOut(w, n, AckOk), m, block);
      }
    }
  }

  lemma LandOutProcs(w: World, n: nat)
    requires n < |w.outs|
    ensures LandOut(w, n, AckOk).procs == w.procs && LandOut(w, n, AckOk).auth == w.auth
  {
  }

  /** A packet that arrives brings the batch of an open record, for the first time. */
  lemma ArrivesFits(w: World, n: nat)
    requires Inv(w) && n < |w.outs| && w.outs[n].flight.InFlight?
    ensures var v, k := LandOut(w, n, AckOk), w.outs[n];
            Arriving(v, k.body) && InvBut(v, k.body.id) && v.auth.records[k.body.id].domain == k.domain
  {
    hide Core, Of, Faithful;
    var k := w.outs[n];
    LandOutFrame(w, n, AckOk);
    InvAt(w, k.id);
    OutAt(w, n);
  }

  lemma DropOutFrame(w: World, n: nat)
    requires Inv(w) && n < |w.outs|
    ensures var v, k := w.(outs := w.outs[..n] + w.outs[n + 1..]), w.outs[n];
            InvBut(v, k.id) && Of(v.outs, k.id) == [] && Core(v)
  {
    hide Core, Of;
    var k := w.outs[n];
    var v := w.(outs := w.outs[..n] + w.outs[n + 1..]);
    InvAt(w, k.id);
    OutAt(w, n);
    CoreSame(w, v);
    forall o: nat | o != k.id
      ensures Same(w, v, o)
    {
      Replaced(w.outs, n, k, o);
    }
    OfInside(w.outs[..n], k, w.outs[n + 1..], k.id);
    OthersKeep(w, v, k.id);
  }

  /** The acknowledgement of a packet that was applied changes nothing. */
  lemma AckOutOk(w: World, block: Block, n: nat)
    requires Inv(w) && n < |w.outs| && w.outs[n].flight == Landed(AckOk)
    ensures var v, id := w.(outs := w.outs[..n] + w.outs[n + 1..]), w.outs[n].id;
            Inv(Or(Apply(v, id, BridgeCallback(w.auth, block, id, AckOk)), v))
  {
    hide Core, Of, Faithful, ReportFits, Settle;
    var v, k := w.(outs := w.outs[..n] + w.outs[n + 1..]), w.outs[n];
    DropOutFrame(w, n);
    InvAt(w, k.id);
    OutAt(w, n);
    assert StageOk(v, k.id);
    Complete(v, k.id);
    NothingSettled(v, k.id);
  }

  /** A bounced packet closes its id. */
  lemma AckOutBounced(w: World, block: Block, n: nat)
    requires Inv(w) && n < |w.outs| && w.outs[n].flight.Landed? && !w.outs[n].flight.ack.AckOk?
    ensures var v, id := w.(outs := w.outs[..n] + w.outs[n + 1..]), w.outs[n].id;
            var o := Apply(v, id, BridgeCallback(w.auth, block, id, w.outs[n].flight.ack));
            o.Some? && Inv(o.value)
  {
    hide TokensOk, AI.Inv, PI.Inv, Of, Faithful, ReportFits, Settle, Settlement, BridgeCallback, ProcOk;
    var v, k := w.(outs := w.outs[..n] + w.outs[n + 1..]), w.outs[n];
    var ack := k.flight.ack;
    DropOutFrame(w, n);
    InvAt(w, k.id);
    OutAt(w, n);
    var r := w.auth.records[k.id];
    assert r.result.InProcess? && !r.domain.Main?;
    BridgeCallbackIs(w.auth, block, k.id, ack);
    CloseCore(v, block, k.id, Bounced(r, block, ack));
    var u := Apply(v, k.id, BridgeCallback(w.auth, block, k.id, ack)).value;
    forall o: nat | o != k.id
      ensures Same(v, u, o)
    {
      CloseSame(v, u, k.id, block, Bounced(r, block, ack), o);
    }
    OthersKeep(v, u, k.id);
    assert StageOk(u, k.id);
    Complete(u, k.id);
  }

  lemma AckOutKeeps(w: World, block: Block, n: nat)
    requires Inv(w)
    ensures Inv(Or(DoAckOut(w, block, n), w))
  {
    hide Inv, Apply, BridgeCallback;
    if n < |w.outs| && w.outs[n].flight.Landed? {
      if w.outs[n].flight.ack.AckOk? {
        AckOutOk(w, block, n);
      } else {
        AckOutBounced(w, block, n);
      }
    }
  }

  // ----- Packets from a processor -----

  lemma LandInFrame(w: World, n: nat, ack: Ack)
    requires Inv(w) && n < |w.ins|
    ensures var v, k := LandIn(w, n, ack), w.ins[n];
            InvBut(v, k.id) && Of(v.ins, k.id) == [k.(flight := Landed(ack))] && Core(v)
  {
    hide Core, Of;
    var k := w.ins[n];
    var k' := k.(flight := Landed(ack));
    var v := LandIn(w, n, ack);
    InvAt(w, k.id);
    InAt(w, n);
    CoreSame(w, v);
    forall o: nat | o != k.id
      ensures Same(w, v, o)
    {
      Replaced(w.ins, n, k', o);
    }
    OfInside(w.ins[..n], k', w.ins[n + 1..], k.id);
    OthersKeep(w, v, k.id);
  }

  lemma LandInKeeps(w: World, n: nat, ack: Ack)
    requires Inv(w) && n < |w.ins| && w.ins[n].flight.InFlight? && !ack.AckOk?
    ensures Inv(LandIn(w, n, ack))
  {
    hide Core, Of, Faithful, OutFits;
    var v, k := LandIn(w, n, ack), w.ins[n];
    LandInFrame(w, n, ack);
    InvAt(w, k.id);
    InAt(w, n);
    assert StageOk(v, k.id);
    Complete(v, k.id);
  }

  /** A packet in flight is about an id in process, and brings its result. */
  lemma InFlightFits(w: World, n: nat)
    requires Inv(w) && n < |w.ins| && w.ins[n].flight.InFlight?
    ensures var k := w.ins[n];
            && k.id in w.auth.records && w.auth.records[k.id].result.InProcess? && IsFinal(k.body)
            && !w.auth.records[k.id].domain.Main?
  {
    hide Core, Of, Faithful, OutFits;
    InvAt(w, w.ins[n].id);
    InAt(w, n);
  }

  /** A result that arrives is never refused, and it is recorded. */
  lemma ResultArrives(w: World, block: Block, n: nat)
    requires Inv(w) && n < |w.ins| && w.ins[n].flight.InFlight?
    ensures var k := w.ins[n];
            var o := Apply(LandIn(w, n, AckOk), k.id, ProcessorCallback(w.auth, block, k.id, k.body));
            o.Some? && Inv(o.value)
  {
    hide TokensOk, AI.Inv, PI.Inv, Of, Faithful, OutFits, Settle, Settlement, ProcessorCallback, ProcOk;
    var v, k := LandIn(w, n, AckOk), w.ins[n];
    LandInFrame(w, n, AckOk);
    InvAt(w, k.id);
    InAt(w, n);
    InFlightFits(w, n);
    ProcessorCallbackIs(w.auth, block, k.id, k.body);
    CloseCore(v, block, k.id, k.body);
    var u := Apply(v, k.id, ProcessorCallback(w.auth, block, k.id, k.body)).value;
    forall o: nat | o != k.id
      ensures Same(v, u, o)
    {
      CloseSame(v, u, k.id, block, k.body, o);
    }
    OthersKeep(v, u, k.id);
    ClosedStage(w, v, u, block, n);
    Complete(u, k.id);
  }

  lemma ClosedStage(w: World, v: World, u: World, block: Block, n: nat)
    requires n < |w.ins| && w.ins[n].flight.InFlight? && StageOk(w, w.ins[n].id)
    requires w.ins[n].id in w.auth.records && Of(w.ins, w.ins[n].id) == [w.ins[n]]
    requires v == LandIn(w, n, AckOk) && Of(v.ins, w.ins[n].id) == [w.ins[n].(flight := Landed(AckOk))]
    requires u == v.(auth := Close(w.auth, block, w.ins[n].id, w.ins[n].body), bank := u.bank, refunded := u.refunded,
                     burnt := u.burnt)
    ensures StageOk(u, w.ins[n].id)
  {
    hide Of;
  }

  lemma DeliverInKeeps(w: World, block: Block, n: nat, delivery: Delivery)
    requires Inv(w)
    ensures Inv(Or(DoDeliverIn(w, block, n, delivery), w))
  {
    hide Inv, Apply, ProcessorCallback, LandIn;
    if n < |w.ins| && w.ins[n].flight.InFlight? {
      if delivery.Arrives? {
        ResultArrives(w, block, n);
      } else {
        LandInKeeps(w, n, NotDelivered(delivery));
      }
    }
  }

  lemma DropInFrame(w: World, n: nat)
    requires Inv(w) && n < |w.ins|
    ensures var v, k := w.(ins := w.ins[..n] + w.ins[n + 1..]), w.ins[n];
            InvBut(v, k.id) && Of(v.ins, k.id) == [] && Core(v)
  {
    hide Core, Of;
    var k := w.ins[n];
    var v := w.(ins := w.ins[..n] + w.ins[n + 1..]);
    InvAt(w, k.id);
    InAt(w, n);
    CoreSame(w, v);
    forall o: nat | o != k.id
      ensures Same(w, v, o)
    {
      Replaced(w.ins, n, k, o);
    }
    OfInside(w.ins[..n], k, w.ins[n + 1..], k.id);
    OthersKeep(w, v, k.id);
  }

  /** The processor keeps a result for sending it again, until it was applied. */
  lemma ResultAckDone(p: P.ProcStore, id: nat, ack: Ack)
    requires !p.config.domain.OnMain? && id in p.results
    ensures var o := P.ResultAck(p, id, ack);
            && o.Done? && o.store.config == p.config && o.store.history == p.history
            && (forall k: nat :: k != id ==> PI.Get(o.store.results, k) == PI.Get(p.results, k))
            && (if ack.AckOk? then id !in o.store.results
                else PI.Get(o.store.results, id) ==
                       Some(p.results[id].(state :=
                              if ack == AckError(TIMEOUT) then P.TimedOut else P.Failed(ack.error))))
  {
  }

  lemma AckInStage(w: World, v: World, n: nat, q: P.ProcStore)
    requires Inv(w) && n < |w.ins| && w.ins[n].flight.Landed?
    requires w.ins[n].domain in w.procs
    requires v == w.(ins := w.ins[..n] + w.ins[n + 1..]) && Of(v.ins, w.ins[n].id) == []
    requires P.ResultAck(w.procs[w.ins[n].domain], w.ins[n].id, w.ins[n].flight.ack) == P.Done(q, None)
    ensures StageOk(WithProc(v, w.ins[n].domain, q), w.ins[n].id)
    ensures w.ins[n].id in w.procs[w.ins[n].domain].results && !w.procs[w.ins[n].domain].config.domain.OnMain?
  {
    hide Core, Of, Faithful, OutFits, PI.Inv;
    var k := w.ins[n];
    InvAt(w, k.id);
    InAt(w, n);
    ProcAt(w, k.domain);
    ResultAckDone(w.procs[k.domain], k.id, k.flight.ack);
  }

  lemma AckInKeeps(w: World, n: nat)
    requires Inv(w)
    ensures Inv(Or(DoAckIn(w, n), w))
  {
    hide Core, Of, Faithful, OutFits, PI.Inv, StageOk, Same, P.ResultAck;
    if n < |w.ins| && w.ins[n].flight.Landed? && w.ins[n].domain in w.procs {
      var k := w.ins[n];
      var v := w.(ins := w.ins[..n] + w.ins[n + 1..]);
      var p := w.procs[k.domain];
      var o := P.ResultAck(p, k.id, k.flight.ack);
      KeptAt(w, n);
      ResultAckDone(p, k.id, k.flight.ack);
      assert o == P.Done(o.store, None) by { AckReportsNothing(p, k.id, k.flight.ack); }
      DropInFrame(w, n);
      AckInStage(w, v, n, o.store);
      ProcAt(w, k.domain);
      PS.AckKeeps(p, k.id, k.flight.ack);
      var u := WithProc(v, k.domain, o.store);
      ProcCore(v, k.domain, o.store);
      forall i: nat | i != k.id
        ensures Same(v, u, i)
      {
        ProcSame(v, k.domain, o.store, i);
      }
      OthersKeep(v, u, k.id);
      Complete(u, k.id);
    }
  }

  lemma AckReportsNothing(p: P.ProcStore, id: nat, ack: Ack)
    requires P.ResultAck(p, id, ack).Done?
    ensures P.ResultAck(p, id, ack).report.None?
  {
  }

  /** While a result packet exists, its processor keeps the result. */
  lemma KeptAt(w: World, n: nat)
    requires Inv(w) && n < |w.ins| && w.ins[n].domain in w.procs
    ensures var p := w.procs[w.ins[n].domain]; w.ins[n].id in p.results && !p.config.domain.OnMain?
  {
    hide Core, Of, Faithful, OutFits, PI.Inv;
    var k := w.ins[n];
    InvAt(w, k.id);
    InAt(w, n);
    ProcAt(w, k.domain);
  }
}
