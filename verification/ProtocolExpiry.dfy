/** When a batch is reported as expired: only when it is late, and for a stored authorization that is
    when more than the lifetime has passed since the call was sent. */
module ProtocolExpiry {
  import opened Types
  import opened AuthorizationModel
  import opened Protocol
  import opened ProtocolInvariant
  import opened ProtocolSteps
  import opened ProtocolTable
  import opened ProtocolTicks
  import opened ProtocolProcessors
  import P = ProcessorModel
  import AI = AuthorizationInvariant
  import PI = ProcessorInvariant
  import PS = ProcessorSteps
  import PE = ProcessorEffects

  predicate ReportsExpiry(o: P.Outcome) { o.Done? && o.report.Some? && o.report.value.result.Expired? }

  // ----- One processor -----

  lemma HandlersDoNot(p: P.ProcStore, id: nat, b: MessageBatch, error: string, block: Block, i: nat)
    ensures !ReportsExpiry(P.BatchFailed(p, id, b, error, block, i)) && !ReportsExpiry(P.FunctionSucceeded(p, i, id, b))
  {
  }

  lemma ReplyDoesNot(p: P.ProcStore, id: nat, outcome: P.SubMsgResult, block: Block)
    ensures !ReportsExpiry(P.Reply(p, id, outcome, block))
  {
    hide P.BatchFailed, P.FunctionSucceeded;
    if id in p.batches {
      HandlersDoNot(p, id, p.batches[id], if outcome.SubErr? then outcome.error else "", block,
                    if id in p.index then p.index[id] else 0);
    }
  }

  lemma ProcessExpires(p: P.ProcStore, from: Priority, b: MessageBatch, block: Block, outcome: P.SubMsgResult)
    requires ReportsExpiry(P.Process(p, from, b, block, outcome))
    ensures b.IsLate(block) && P.Process(p, from, b, block, outcome).report.value.id == b.id
  {
    hide P.Reply, P.Log, P.Dispatch, P.BuildError, P.AtomicResult;
    var i, result := P.IndexOf(p, b.id), P.AtomicResult(b, outcome);
    ReplyDoesNot(P.Log(p, b.id, P.Ran(0, block, result.SubOk?)), b.id, result, block);
    ReplyDoesNot(P.Log(P.Dispatch(p, b, i), b.id, P.Ran(i, block, outcome.SubOk?)), b.id, outcome, block);
  }

  /** A tick reports an expiry only for the batch it takes, and only if that one is late. */
  lemma TickExpires(p: P.ProcStore, block: Block, outcome: P.SubMsgResult)
    requires PI.Inv(p) && ReportsExpiry(P.Tick(p, block, outcome))
    ensures var id := P.Tick(p, block, outcome).report.value.id;
            id in p.history && p.history[id].batch.IsLate(block)
  {
    hide PI.Inv, P.Process;
    var from := P.NextQueue(p);
    var q := P.QueueOf(p, from);
    ProcessExpires(P.SetQueue(p, from, q[1..]), from, q[0], block, outcome);
    QueuedBacked(p, from, 0);
  }

  lemma CallbackDoesNot(p: P.ProcStore, id: nat, sender: Addr, msg: Binary, block: Block)
    ensures !ReportsExpiry(P.LibraryCallback(p, id, sender, msg, block))
  {
    hide P.BatchFailed, P.FunctionSucceeded;
    if id in p.pending && id in p.index {
      HandlersDoNot(P.Log(p, id, P.CalledBack(p.index[id], block, sender, msg)), id, p.pending[id].batch,
                    "Invalid callback message received", block, p.index[id]);
    }
  }

  /** The batch gets its result, an expiry, between the two stores. */
  ghost predicate BecomesExpired(p: P.ProcStore, q: P.ProcStore, id: nat) {
    && id in q.history && q.history[id].reports != [] && q.history[id].reports[0].Expired?
    && (id in p.history ==> p.history[id].reports == [])
  }

  lemma SummaryExpires(p: P.ProcStore, o: P.Outcome, id: nat)
    requires o.Done? && PE.Summary(p, o) && BecomesExpired(p, o.store, id)
    ensures ReportsExpiry(o) && o.report.value.id == id && id in p.history
    ensures o.store.history[id].batch == p.history[id].batch
  {
  }

  lemma ArrivalExpires(p: P.ProcStore, order: AuthorizationMsg, block: Block, id: nat)
    requires order.CarriesBatch() && order.id !in p.history && P.Handle(p, order, block).Done?
    requires BecomesExpired(p, P.Handle(p, order, block).store, id)
    ensures id == order.id && id !in p.history
    ensures P.Handle(p, order, block).store.history[id].batch == order.Batch() && order.Batch().IsLate(block)
  {
    hide P.Handle;
    PE.HandleAdmits(p, order, block);
    if P.Handle(p, order, block).report.Some? {
      ArrivalIsLate(p, order, block);
    }
  }

  lemma ArrivalIsLate(p: P.ProcStore, order: AuthorizationMsg, block: Block)
    requires order.CarriesBatch() && P.Handle(p, order, block).Done? && P.Handle(p, order, block).report.Some?
    ensures order.Batch().IsLate(block)
  {
  }

  lemma EvictDoesNot(p: P.ProcStore, order: AuthorizationMsg, block: Block)
    requires !order.CarriesBatch()
    ensures !ReportsExpiry(P.Handle(p, order, block))
  {
  }

  lemma SameHistory(p: P.ProcStore, input: P.Input, block: Block)
    requires input.ResendAsked? || input.ResultAcked? || input.ProxyAcked? || input.ProxyRetried?
    ensures var o := P.Serve(p, input, block); o.Done? ==> o.store.history == p.history
  {
  }

  /** A call makes a batch expire only if the batch is late; it brought the batch or found it there. */
  lemma ServeExpires(p: P.ProcStore, input: P.Input, block: Block, q: P.ProcStore, id: nat)
    requires PI.Inv(p) && PS.Welcome(p, input) && P.Serve(p, input, block).Done? && P.Serve(p, input, block).store == q
    requires BecomesExpired(p, q, id)
    ensures q.history[id].batch.IsLate(block)
    ensures if id in p.history then q.history[id].batch == p.history[id].batch
            else input.Received? && input.order.CarriesBatch() && input.order.id == id &&
                 q.history[id].batch == input.order.Batch()
  {
    hide PI.Inv, P.Handle, P.Tick, P.LibraryCallback, P.RetryCallback, P.ResultAck, PE.Summary, PS.InNoQueue;
    match input
    case Received(order) =>
      if order.CarriesBatch() {
        ArrivalExpires(p, order, block, id);
      } else {
        ControlSummary(p, order, block);
        SummaryExpires(p, P.Handle(p, order, block), id);
        EvictDoesNot(p, order, block);
      }
    case Ticked(outcome) =>
      PE.TickSummary(p, block, outcome);
      SummaryExpires(p, P.Tick(p, block, outcome), id);
      TickExpires(p, block, outcome);
    case LibraryCalled(k, sender, msg) =>
      PE.CallbackSummary(p, k, sender, msg, block);
      SummaryExpires(p, P.LibraryCallback(p, k, sender, msg, block), id);
      CallbackDoesNot(p, k, sender, msg, block);
    case _ => SameHistory(p, input, block);
  }

  // ----- The whole system -----

  /** The batch of an id in process is counted from when its record was last sent. */
  lemma BatchFaithful(w: World, d: Domain, id: nat)
    requires Inv(w) && d in w.procs && id in w.procs[d].history && w.procs[d].history[id].reports == []
    ensures id in w.auth.records && w.auth.records[id].result.InProcess?
    ensures Faithful(w.auth, w.auth.records[id], w.procs[d].history[id].batch)
  {
    hide Core, Of, Faithful, ReportFits, OutFits;
    InvAt(w, id);
  }

  /** In every run, a step by which a batch gets the result Expired finds the batch late. If the call is
      one of a stored authorization, made earlier, then more than the lifetime of its subroutine has
      passed since it was last sent. */
  lemma ExpiredIsLate(w: World, s: Step, v: World, d: Domain, id: nat)
    requires Reachable(w) && v == Next(w, s) && d in w.procs && d in v.procs
    requires BecomesExpired(w.procs[d], v.procs[d], id)
    ensures v.procs[d].history[id].batch.IsLate(s.block)
    ensures id in w.auth.records && w.auth.records[id].tag in w.auth.authorizations ==>
              var r, lifetime := w.auth.records[id], w.auth.authorizations[w.auth.records[id].tag].subroutine.lifetime;
              lifetime.Some? && s.block.Seconds() - r.updatedAt > lifetime.value
  {
    hide Reachable, Inv, Next, P.Serve, PI.Inv, PS.Welcome, DeadlineAt;
    ReachableOk(w);
    var input := ServedCall(w, s, d);
    StepServes(w, s, v, d);
    ProcAt(w, d);
    ServeExpires(w.procs[d], input.value, s.block, v.procs[d], id);
    var b := v.procs[d].history[id].batch;
    if id in w.procs[d].history {
      BatchFaithful(w, d, id);
    }
    if id in w.auth.records && w.auth.records[id].tag in w.auth.authorizations {
      AI.LateIff(b, w.auth.records[id].updatedAt, s.block);
    }
  }
}
