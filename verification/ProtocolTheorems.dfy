/** What is true in every run of the whole system. */
module ProtocolTheorems {
  import opened Types
  import opened Validation
  import opened AuthorizationModel
  import opened Protocol
  import opened ProtocolTokens
  import opened ProtocolInvariant
  import opened ProtocolSteps
  import opened ProtocolPackets
  import opened ProtocolTable
  import opened ProtocolLifeCycle
  import opened ProcessorOutcomes
  import P = ProcessorModel
  import AI = AuthorizationInvariant
  import PI = ProcessorInvariant
  import PS = ProcessorSteps
  import PT = ProcessorTrace

  // ----- The life of a record -----

  /** Everything but the result and the time of the last change. */
  ghost predicate SameCall(r: Record, s: Record) { s == r.(result := s.result, updatedAt := s.updatedAt) }

  /** A result that is never replaced. */
  predicate IsTerminal(r: ExecutionResult) { !r.InProcess? && r != Timeout(true) }

  /** How a record may change in one step at `block`. */
  ghost predicate Moves(r: Record, s: Record, block: Block) {
    SameCall(r, s) &&
    if r.result.InProcess? then s == r || !s.result.InProcess?
    else if r.result == Timeout(true) then
      s == r || (r.ttl.Some? && s.result == if r.ttl.value.IsExpired(block) then Timeout(false) else InProcess)
    else s == r
  }

  lemma RecordMoves(w: World, s: Step, v: World, id: nat)
    requires Inv(w) && v == Next(w, s) && id in w.auth.records
    ensures id in v.auth.records && Moves(w.auth.records[id], v.auth.records[id], s.block)
  {
    hide Inv, Next, SameEntries, BlocksGrow;
    var b := StepShape(w, s);
    NextIdNew(w);
    if w.auth.records[id].result == Timeout(true) {
      TimeoutHasTtl(w, id);
    }
  }

  lemma TimeoutHasTtl(w: World, id: nat)
    requires Inv(w) && id in w.auth.records && w.auth.records[id].result == Timeout(true)
    ensures w.auth.records[id].ttl.Some?
  {
    hide StageOk, TokensOk, ProcsOk, ValidateMessages, DomainOf;
    assert AI.RecordOk(w.auth, w.auth.records[id]);
  }

  lemma NextIdNew(w: World)
    requires Inv(w)
    ensures w.auth.nextId !in w.auth.records
  {
    hide StageOk, TokensOk, ProcsOk, AI.TableOk, AI.RecordsOk, AI.CountsOk;
  }

  /** In every run, every step moves a record only along its life cycle. */
  lemma LifeCycle(w: World, s: Step, v: World, id: nat)
    requires Reachable(w) && v == Next(w, s) && id in w.auth.records
    ensures id in v.auth.records && Moves(w.auth.records[id], v.auth.records[id], s.block)
  {
    hide Reachable, Inv, Next, Moves;
    ReachableOk(w);
    RecordMoves(w, s, v, id);
  }

  /** Whatever happens later, a record keeps its call, and a terminal result is kept for good. */
  lemma {:induction false} RecordsLast(w: World, more: seq<Step>, v: World, id: nat)
    requires Reachable(w) && v == RunFrom(w, more) && id in w.auth.records
    ensures id in v.auth.records && SameCall(w.auth.records[id], v.auth.records[id])
    ensures IsTerminal(w.auth.records[id].result) ==> v.auth.records[id] == w.auth.records[id]
    decreases |more|
  {
    hide Reachable, Next, Inv;
    if more != [] {
      var most := more[..|more| - 1];
      var u := RunFrom(w, most);
      RecordsLast(w, most, u, id);
      ReachableOk(w);
      RunFromKeeps(w, most);
      RecordMoves(u, more[|more| - 1], v, id);
    }
  }

  /** A call that timed out can always be retried: at worst the contract has to wait for others. */
  lemma RetryIsPossible(w: World, id: nat, block: Block)
    requires Reachable(w)
    requires var a := w.auth; id in a.records && a.records[id].result == Timeout(true)
    ensures var a := w.auth;
            var r := a.records[id];
            && r.ttl.Some? && r.initiator.User? && r.tag in a.authorizations
            && (RetryMsgs(a, block, id).Accepted? || RetryMsgs(a, block, id) == Refused(MaxConcurrentReached))
  {
    hide Reachable, StageOk, TokensOk, ProcsOk, ValidateMessages, DomainOf;
    ReachableOk(w);
    assert AI.RecordOk(w.auth, w.auth.records[id]);
  }

  // ----- Ids -----

  /** Records exist for exactly the ids handed out, so the next one is always new. */
  lemma IdsAreFresh(w: World)
    requires Reachable(w)
    ensures var a := w.auth; (forall id: nat :: id in a.records <==> id < a.nextId) && a.nextId !in a.records
  {
    hide Reachable, StageOk, TokensOk, ProcsOk, AI.TableOk, AI.RecordsOk, AI.CountsOk;
    ReachableOk(w);
  }

  /** The counter has 64 bits. After opening a record the next id is unused exactly when the counter has
      not wrapped around. */
  lemma FreshIff(a: AuthStore, block: Block, initiator: Initiator, domain: Domain, tag: Label,
                 ttl: Option<Expiration>, msgs: seq<ProcessorMessage>)
    requires AI.IdsOk(a) && a.nextId <= U64_MAX
    ensures var b := Start(a, block, initiator, domain, tag, ttl, msgs);
            b.nextId !in b.records <==> a.nextId < U64_MAX
  {
    var b := Start(a, block, initiator, domain, tag, ttl, msgs);
    if a.nextId == U64_MAX {
      assert b.nextId == 0;
      assert 0 in a.records;
    }
  }

  /** A packet to a processor carries the messages of a record, under the id of that record. */
  lemma PacketsAreFaithful(w: World, n: nat)
    requires Reachable(w)
    requires n < |w.outs|
    ensures var k := w.outs[n];
            && k.id in w.auth.records && k.domain == w.auth.records[k.id].domain
            && k.body.CarriesBatch() && k.body.id == k.id && Faithful(w.auth, w.auth.records[k.id], k.body.Batch())
  {
    hide Reachable, Core, Of, Faithful, ReportFits;
    ReachableOk(w);
    OutAt(w, n);
    InvAt(w, w.outs[n].id);
  }

  /** A batch at a processor is the one of its record. */
  lemma BatchesAreFaithful(w: World, d: Domain, id: nat)
    requires Reachable(w)
    requires d in w.procs && id in w.procs[d].history
    ensures && id in w.auth.records && w.auth.records[id].domain == d
            && Faithful(w.auth, w.auth.records[id], w.procs[d].history[id].batch)
  {
    hide Reachable, Core, Of, Faithful, ReportFits, OutFits;
    ReachableOk(w);
    InvAt(w, id);
  }

  // ----- Proofs -----

  lemma StepBlocks(w: World, s: Step, v: World)
    requires Inv(w) && v == Next(w, s)
    ensures BlocksGrow(w.auth, v.auth)
  {
    hide Inv, Next, Begins, OnlyCloses;
    var b := StepShape(w, s);
  }

  lemma {:induction false} RunBlocks(w: World, more: seq<Step>, v: World)
    requires Inv(w) && v == RunFrom(w, more)
    ensures BlocksGrow(w.auth, v.auth)
    decreases |more|
  {
    hide Next, Inv, LastBlock;
    if more != [] {
      var most := more[..|more| - 1];
      var u := RunFrom(w, most);
      RunBlocks(w, most, u);
      RunFromKeeps(w, most);
      StepBlocks(u, more[|more| - 1], v);
    }
  }

  /** No replay: once a proof for a block was executed under a label that validates blocks, no proof for
      that block or an earlier one is executed under such a label of the same registry, whatever
      happens in between. */
  lemma NoReplay(w: World, s: Step, v: World, more: seq<Step>, u: World,
                 block: Block, sender: Addr, tag: Label, zk: ZkMessage, paid: Option<nat>, balance: nat)
    requires Reachable(w) && s.action.Prove? && TryStep(w, s) == Some(v) && u == RunFrom(v, more)
    requires s.action.tag in w.auth.zkAuthorizations && w.auth.zkAuthorizations[s.action.tag].validateLastBlock
    requires tag in u.auth.zkAuthorizations && u.auth.zkAuthorizations[tag].validateLastBlock
    requires u.auth.zkAuthorizations[tag].registry == w.auth.zkAuthorizations[s.action.tag].registry
    requires zk.blockNumber <= s.action.zk.blockNumber
    ensures ExecuteZk(u.auth, block, sender, tag, zk, paid, balance).Refused?
  {
    hide Reachable, Inv, RunFrom, TryStep, BlocksGrow;
    ReachableOk(w);
    StepKeeps(w, s);
    ProofNoted(w, s, v);
    RunBlocks(v, more, u);
    GrowAt(v.auth, u.auth, w.auth.zkAuthorizations[s.action.tag].registry);
  }

  lemma GrowAt(a: AuthStore, b: AuthStore, registry: nat)
    requires BlocksGrow(a, b)
    ensures LastBlock(a, registry) <= LastBlock(b, registry)
  {
  }

  /** An executed proof leaves its block as the last one. */
  lemma ProofNoted(w: World, s: Step, v: World)
    requires Inv(w) && s.action.Prove? && TryStep(w, s) == Some(v)
    requires s.action.tag in w.auth.zkAuthorizations && w.auth.zkAuthorizations[s.action.tag].validateLastBlock
    ensures LastBlock(v.auth, w.auth.zkAuthorizations[s.action.tag].registry) == s.action.zk.blockNumber
  {
    hide Inv, TryStep, Begins, OnlyCloses, BlocksGrow;
    var b := ProveShape(w, s);
  }

  // ----- Results -----

  lemma HistoryAt(w: World, d: Domain, id: nat)
    requires Inv(w) && d in w.procs && id in w.procs[d].history
    ensures PI.HistoryOk(w.procs[d].history[id])
  {
    hide Inv, PI.HistoryOk, PI.Select, PI.IsQueued, PI.IsParked;
    ProcAt(w, d);
    PI.InvAt(w.procs[d], id);
  }

  /** A final result in a record is the one its processor reported. */
  lemma EndedAt(w: World, id: nat)
    requires Inv(w) && id in w.auth.records && IsFinal(w.auth.records[id].result)
    ensures var r := w.auth.records[id];
            && r.domain in w.procs && id in w.procs[r.domain].history
            && Ended(w.procs[r.domain].history[id], r.result)
            && Faithful(w.auth, r, w.procs[r.domain].history[id].batch)
  {
    hide Core, Of, Faithful, OutFits, PI.HistoryOk, PI.Inv;
    InvAt(w, id);
    var r := w.auth.records[id];
    var h := w.procs[r.domain].history[id];
    HistoryAt(w, r.domain, id);
    assert |h.reports| <= 1 by { HistoryReports(h); }
    assert h.reports == [h.reports[0]];
  }

  lemma HistoryReports(h: P.History)
    requires PI.HistoryOk(h)
    ensures |h.reports| <= 1
  {
  }

  /** One result: a processor reports at most once, and whatever is kept, sent or recorded for the id
      is what it reported. */
  lemma OneResult(w: World, d: Domain, id: nat)
    requires Reachable(w)
    requires d in w.procs && id in w.procs[d].history
    ensures var p, reports := w.procs[d], w.procs[d].history[id].reports;
            && |reports| <= 1
            && (id in p.results ==> reports == [p.results[id].result])
            && (forall n :: 0 <= n < |w.ins| && w.ins[n].id == id ==> reports == [w.ins[n].body])
            && id in w.auth.records
            && (w.auth.records[id].result.InProcess? || reports == [w.auth.records[id].result])
  {
    hide Reachable, Core, Of, Faithful, OutFits, PI.Inv, PI.HistoryOk;
    ReachableOk(w);
    InvAt(w, id);
    var h := w.procs[d].history[id];
    HistoryAt(w, d, id);
    HistoryReports(h);
    assert h.reports != [] ==> h.reports == [h.reports[0]];
    forall n | 0 <= n < |w.ins| && w.ins[n].id == id
      ensures h.reports == [w.ins[n].body]
    {
      InAt(w, n);
    }
  }

  /** Every result that is sent again is the one reported. */
  lemma ResendsTheSame(w: World, d: Domain, id: nat)
    requires Reachable(w)
    requires d in w.procs && P.RetryCallback(w.procs[d], id).Done?
    ensures var p := w.procs[d];
            var o := P.RetryCallback(p, id);
            id in p.history && o.report.Some? && o.report.value.id == id &&
            p.history[id].reports == [o.report.value.result]
  {
    hide Reachable, PI.Inv;
    ReachableOk(w);
    ProcAt(w, d);
    PS.RetryKeeps(w.procs[d], id);
  }

  // ----- What happened at the processor -----

  ghost function TraceAt(w: World, d: Domain, id: nat): seq<P.Event> {
    if d in w.procs && id in w.procs[d].history then w.procs[d].history[id].trace else []
  }

  /** The processor that has the batch of `id`, if one does, runs it as this subroutine. */
  ghost predicate RunsAs(w: World, id: nat, s: Subroutine) {
    && id in w.auth.records
    && forall d :: d in w.procs && id in w.procs[d].history ==> w.procs[d].history[id].batch.subroutine == s
  }

  /** The subroutine of the stored authorization a record was opened for. */
  ghost predicate IsCallOf(w: World, id: nat, s: Subroutine) {
    id in w.auth.records && w.auth.records[id].tag in w.auth.authorizations &&
    w.auth.authorizations[w.auth.records[id].tag].subroutine == s
  }

  /** A call of a stored authorization runs as its subroutine, with one message for every function. */
  lemma StoredCall(w: World, id: nat, s: Subroutine)
    requires Reachable(w) && IsCallOf(w, id, s)
    ensures RunsAs(w, id, s) && |w.auth.records[id].messages| == |s.Calls()|
  {
    hide Reachable, Inv, CheckMessages;
    ReachableOk(w);
    SameSize(w, id);
    forall d | d in w.procs && id in w.procs[d].history
      ensures w.procs[d].history[id].batch.subroutine == s
    {
      BatchesAreFaithful(w, d, id);
    }
  }

  lemma OnlyHere(w: World, id: nat)
    requires Inv(w) && id in w.auth.records
    ensures forall d :: d != w.auth.records[id].domain ==> TraceAt(w, d, id) == []
  {
    hide Core, Of, Fits;
    InvAt(w, id);
  }

  /** An atomic batch has taken effect exactly when its processor has reported Success. */
  lemma AppliedAt(w: World, d: Domain, id: nat)
    requires Inv(w) && d in w.procs && id in w.procs[d].history && w.procs[d].history[id].batch.subroutine.Atomic?
    ensures var h := w.procs[d].history[id]; Applied(h.trace) == if h.reports == [Success] then 1 else 0
  {
    hide Inv, PI.Inv, PI.Select, PI.HistoryOk, PI.IsQueued, PI.IsParked, Applied, PT.Confirmed;
    var h := w.procs[d].history[id];
    ProcAt(w, d);
    PI.InvAt(w.procs[d], id);
    if h.reports == [] {
      AtomicApplied(h.batch.subroutine, h.trace);
    } else {
      assert h.reports == [h.reports[0]];
      AtomicOnce(h, h.reports[0]);
    }
  }

  /** Atomic, end to end: a batch takes effect at most once, and only on its own domain. Success is
      recorded only if it did, its token goes back only if it did not, and is burned only if it did or
      the owner removed it. */
  lemma AtomicEndToEnd(w: World, id: nat, s: Subroutine)
    requires Reachable(w) && RunsAs(w, id, s) && s.Atomic?
    ensures var r := w.auth.records[id];
            var applied := Applied(TraceAt(w, r.domain, id));
            && applied <= 1
            && (r.result.Success? ==> applied == 1)
            && (id in w.refunded ==> applied == 0)
            && (id in w.burnt ==> applied == 1 || r.result.RemovedByOwner?)
            && (forall d :: d != r.domain ==> TraceAt(w, d, id) == [])
  {
    hide Reachable, Core, Of, OutFits, Applied, Ended;
    var r := w.auth.records[id];
    ReachableOk(w);
    OnlyHere(w, id);
    InvAt(w, id);
    NothingApplied();
    if r.domain in w.procs && id in w.procs[r.domain].history {
      AppliedAt(w, r.domain, id);
    }
    if IsFinal(r.result) {
      EndedAt(w, id);
      AtomicOnce(w.procs[r.domain].history[id], r.result);
      AtomicNotPartial(w.procs[r.domain].history[id], r.result);
    }
    SettledResult(w, id);
  }

  lemma AtomicNotPartial(h: P.History, r: ExecutionResult)
    requires Ended(h, r) && h.batch.subroutine.Atomic?
    ensures !r.PartiallyExecuted?
  {
    hide PT.Confirmed, PT.Runs, PT.Streak, PT.Count, PT.CooledDown, PT.WithinLimits, PI.UsedUp, PT.InOrder;
  }

  lemma NothingApplied()
    ensures Applied([]) == 0
  {
  }

  /** The results a token was settled for. */
  lemma SettledResult(w: World, id: nat)
    requires Inv(w) && id in w.auth.records
    ensures var r := w.auth.records[id].result;
            && (id in w.refunded ==> r.Rejected? || r.Expired? || r.Timeout?)
            && (id in w.burnt ==> r.Success? || r.PartiallyExecuted? || r.RemovedByOwner?)
  {
    hide StageOk, AI.Inv, ProcsOk, BankOk;
    assert SettledAt(w.auth, id, w.refunded, w.burnt);
  }

  /** Progress reports count exactly the functions that were confirmed, once each and in order. */
  lemma ProgressReports(w: World, id: nat, s: Subroutine)
    requires Reachable(w) && RunsAs(w, id, s) && s.NonAtomic?
    ensures var r := w.auth.records[id];
            var confirmed := PT.Confirmed(s, TraceAt(w, r.domain, id));
            && (r.result.Success? ==> confirmed == FirstFunctions(|r.messages|))
            && (r.result.PartiallyExecuted? ==>
                0 < r.result.done < |r.messages| && confirmed == FirstFunctions(r.result.done))
            && (r.result.Expired? ==> confirmed == FirstFunctions(r.result.done))
            && (r.result.Rejected? && (forall i: nat :: 0 < i < |r.messages| ==> s.RetryOf(i).Some?) ==>
                confirmed == [])
  {
    hide Reachable, Core, Of, Ended, FirstFunctions, PT.Confirmed;
    var r := w.auth.records[id];
    ReachableOk(w);
    if IsFinal(r.result) {
      EndedAt(w, id);
      var h := w.procs[r.domain].history[id];
      ProgressExact(h, r.result);
      if r.result.Rejected? && (forall i: nat :: 0 < i < |r.messages| ==> s.RetryOf(i).Some?) {
        RejectedMeansNone(h, r.result);
      }
    }
  }

  /** The documented choice between Rejected and PartiallyExecuted is made exactly when the function
      that failed is the first one or has retry logic. */
  lemma DocumentedIff(w: World, id: nat, s: Subroutine)
    requires Reachable(w) && RunsAs(w, id, s) && GaveUp(w.auth.records[id].result)
    ensures var r := w.auth.records[id];
            var n := |PT.Confirmed(s, TraceAt(w, r.domain, id))|;
            (if n == 0 then r.result.Rejected? else r.result.PartiallyExecuted? && r.result.done == n) <==>
              n == 0 || s.RetryOf(n).Some?
  {
    hide Reachable, Core, Of, Ended, PT.Confirmed;
    var r := w.auth.records[id];
    ReachableOk(w);
    EndedAt(w, id);
    AsDocumentedIff(w.procs[r.domain].history[id], r.result);
  }

  // ----- Refunds after progress -----

  /** How many functions of the call were confirmed. */
  ghost function ConfirmedCount(w: World, id: nat, s: Subroutine): nat
    requires id in w.auth.records
  {
    |PT.Confirmed(s, TraceAt(w, w.auth.records[id].domain, id))|
  }

  /** Without a processor that has seen the batch, nothing was confirmed. */
  lemma BouncedNothing(w: World, id: nat, s: Subroutine)
    requires Inv(w) && id in w.auth.records &&
             (w.auth.records[id].result.Timeout? || w.auth.records[id].result.UnexpectedError?)
    ensures ConfirmedCount(w, id, s) == 0
  {
    hide Core, Of, OutFits, Faithful;
    InvAt(w, id);
  }

  /** What the number of confirmed functions can be, given the result. */
  lemma CountAtEnd(w: World, id: nat, s: Subroutine)
    requires Inv(w) && RunsAs(w, id, s)
    ensures var r, n := w.auth.records[id].result, ConfirmedCount(w, id, s);
            && (r.Success? || r.PartiallyExecuted? ==> n > 0)
            && (r.Timeout? || r.UnexpectedError? ==> n == 0)
            && (r.Rejected? && n > 0 ==> s.RetryOf(n).None?)
  {
    hide Inv, Ended, PT.Confirmed, TraceAt;
    var r := w.auth.records[id];
    if IsFinal(r.result) {
      EndedAt(w, id);
      EndedCount(w.procs[r.domain].history[id], r.result);
      assert TraceAt(w, r.domain, id) == w.procs[r.domain].history[id].trace by { TraceIs(w, r.domain, id); }
    } else if r.result.Timeout? || r.result.UnexpectedError? {
      BouncedNothing(w, id, s);
    }
  }

  lemma TraceIs(w: World, d: Domain, id: nat)
    requires d in w.procs && id in w.procs[d].history
    ensures TraceAt(w, d, id) == w.procs[d].history[id].trace
  {
  }

  lemma EndedCount(h: P.History, r: ExecutionResult)
    requires Ended(h, r)
    ensures var n := |PT.Confirmed(h.batch.subroutine, h.trace)|;
            && (r.Success? || r.PartiallyExecuted? ==> n > 0)
            && (r.Rejected? && n > 0 ==> h.batch.subroutine.RetryOf(n).None?)
            && (r.PartiallyExecuted? ==> h.batch.subroutine.RetryOf(n).Some?)
            && (r.Rejected? || r.Expired? ==> n == 0 || n < h.batch.Size())
  {
    hide PT.Confirmed, PT.Runs, PT.Streak, PT.Count, PT.CooledDown, PT.WithinLimits, PI.UsedUp, PT.InOrder;
  }

  /** A token goes back although functions were executed exactly when the call paid, some functions were
      confirmed, and it expired, or a function without retry logic failed. */
  lemma RefundAfterProgressIff(w: World, id: nat, s: Subroutine)
    requires Reachable(w) && RunsAs(w, id, s)
    ensures var r, n := w.auth.records[id], ConfirmedCount(w, id, s);
            id in w.refunded && n > 0 <==>
              PaysToken(w.auth, r) && n > 0 && (r.result.Expired? || (r.result.Rejected? && s.RetryOf(n).None?))
  {
    hide Reachable, Inv, ConfirmedCount, PaysToken;
    ReachableOk(w);
    SettledOnce(w, id);
    SettledResult(w, id);
    CountAtEnd(w, id, s);
  }

  /** The source promises that the token is burned if the call executes, also partially, and goes back if
      it does not. For a call that paid and has ended, this is kept exactly when it did not expire or get
      rejected after progress, and before any was not removed by the owner and did not fail
      unexpectedly. */
  lemma SettledAsPromisedIff(w: World, id: nat, s: Subroutine)
    requires Reachable(w) && RunsAs(w, id, s)
    requires PaysToken(w.auth, w.auth.records[id]) && IsTerminal(w.auth.records[id].result)
    ensures var r, n := w.auth.records[id].result, ConfirmedCount(w, id, s);
            (if n > 0 then id in w.burnt else id in w.refunded) <==>
              if n > 0 then !r.Expired? && !r.Rejected? else !r.RemovedByOwner? && !r.UnexpectedError?
  {
    hide Reachable, Inv, ConfirmedCount, PaysToken;
    ReachableOk(w);
    SettledOnce(w, id);
    SettledResult(w, id);
    CountAtEnd(w, id, s);
  }

  /** The functions up to `i` have addresses, and that one has no retry logic. */
  ghost predicate MayReject(s: Subroutine, i: nat) {
    i < |s.Calls()| && s.RetryOf(i).None? && forall j: nat :: j <= i ==> PT.HasAddress(s, j)
  }

  /** Where a call can stop after some functions and still be refunded: at the end of a lifetime, or at a
      function without retry logic. */
  ghost predicate MayStopHalfway(s: Subroutine) {
    s.NonAtomic? && |s.functions| > 1 && PT.HasAddress(s, 0) &&
    (s.lifetime.Some? || exists i: nat :: i > 0 && MayReject(s, i))
  }

  /** What a caller can check before the call: unless the subroutine may stop halfway, a token only goes
      back when no function was executed. */
  lemma RefundMeansNothingDone(w: World, id: nat, s: Subroutine)
    requires Reachable(w) && IsCallOf(w, id, s) && !MayStopHalfway(s)
    ensures id in w.refunded ==> ConfirmedCount(w, id, s) == 0
  {
    hide Reachable, Inv, ConfirmedCount, RunsAs, PaysToken, Ended, MayReject, PT.HasAddress;
    ReachableOk(w);
    StoredCall(w, id, s);
    RefundAfterProgressIff(w, id, s);
    var r, n := w.auth.records[id], ConfirmedCount(w, id, s);
    if id in w.refunded && n > 0 {
      EndedAt(w, id);
      var h := w.procs[r.domain].history[id];
      BatchesAreFaithful(w, r.domain, id);
      EndedCount(h, r.result);
      CountIs(w, id, s);
      TraceIs(w, r.domain, id);
      EndedAddresses(h, r.result);
      if r.result.Expired? {
        ExpiredHasDeadline(h, r.result);
      }
    }
  }

  /** Rejected and PartiallyExecuted as the documentation has them. */
  ghost predicate Documented(w: World, id: nat, s: Subroutine)
    requires id in w.auth.records
  {
    var r, n := w.auth.records[id].result, ConfirmedCount(w, id, s);
    if n == 0 then r.Rejected? else r.PartiallyExecuted? && r.done == n
  }

  /** The documented results are given, unless a function after the first has an address to be dispatched
      to, and no retry logic. */
  lemma DocumentedWhenRetried(w: World, id: nat, s: Subroutine)
    requires Reachable(w) && IsCallOf(w, id, s) && GaveUp(w.auth.records[id].result)
    requires s.NonAtomic? ==> forall i: nat :: i > 0 ==> !MayReject(s, i)
    ensures Documented(w, id, s)
  {
    hide Reachable, Inv, RunsAs, Ended, MayReject, PT.HasAddress, PT.Confirmed, TraceAt;
    ReachableOk(w);
    StoredCall(w, id, s);
    DocumentedIff(w, id, s);
    var r := w.auth.records[id];
    EndedAt(w, id);
    var h := w.procs[r.domain].history[id];
    BatchesAreFaithful(w, r.domain, id);
    EndedCount(h, r.result);
    TraceIs(w, r.domain, id);
    EndedAddresses(h, r.result);
  }

  lemma EndedAddresses(h: P.History, r: ExecutionResult)
    requires Ended(h, r)
    ensures var s, n := h.batch.subroutine, |PT.Confirmed(h.batch.subroutine, h.trace)|;
            && (n > 0 ==> PT.HasAddress(s, 0))
            && (r.Rejected? && s.RetryOf(n).None? && n < |s.Calls()| ==> MayReject(s, n))
  {
    hide PT.Confirmed, PT.Runs, PT.Streak, PT.Count, PT.CooledDown, PT.WithinLimits, PT.InOrder, PT.HasAddress,
         PT.CarriesLittle, PT.Awaiting;
    var s, t := h.batch.subroutine, h.trace;
    var n := |PT.Confirmed(s, t)|;
    if r.Rejected? {
      FailedStreak(s, t);
      assert PT.Runs(t, n) > 0;
    }
  }

  lemma CountIs(w: World, id: nat, s: Subroutine)
    requires id in w.auth.records
    ensures ConfirmedCount(w, id, s) == |PT.Confirmed(s, TraceAt(w, w.auth.records[id].domain, id))|
  {
  }

  lemma ExpiredHasDeadline(h: P.History, r: ExecutionResult)
    requires Ended(h, r) && r.Expired?
    ensures h.batch.expirationTime.Some?
  {
    hide PT.Confirmed, PT.Runs, PT.Streak, PT.Count, PT.CooledDown, PT.WithinLimits, PI.UsedUp, PT.InOrder;
  }

  /** There is one message for every function. */
  lemma SameSize(w: World, id: nat)
    requires Inv(w) && id in w.auth.records && w.auth.records[id].tag in w.auth.authorizations
    ensures |w.auth.records[id].messages| == |w.auth.authorizations[w.auth.records[id].tag].subroutine.Calls()|
  {
    hide StageOk, TokensOk, ProcsOk, DomainOf, CheckMessages;
    assert AI.RecordOk(w.auth, w.auth.records[id]);
  }

  /** No function is dispatched more often than its retries allow, or before its cooldown is over; and
      with limited retries the dispatches of the whole batch are bounded. */
  lemma RetriesAreBounded(w: World, d: Domain, id: nat)
    requires Reachable(w)
    requires d in w.procs && id in w.procs[d].history
    ensures var h := w.procs[d].history[id];
            && PT.WithinLimits(h.batch.subroutine, h.trace) && PT.CooledDown(h.batch.subroutine, h.trace)
            && (PT.Limited(h.batch.subroutine, h.batch.Size()) ==>
                  Dispatches(h.trace) <= Limit(h.batch.subroutine, h.batch.Size()))
  {
    hide Reachable, Inv, PT.WithinLimits, PT.CooledDown, PT.Limited, Limit, Dispatches;
    ReachableOk(w);
    HistoryAt(w, d, id);
    var h := w.procs[d].history[id];
    if PT.Limited(h.batch.subroutine, h.batch.Size()) {
      DispatchesBounded(h);
    }
  }

  /** A function that is given up was dispatched exactly as often as the count it started from left
      over: all its retries, unless earlier functions of the batch used some of them. */
  lemma GivenUpExactly(w: World, d: Domain, id: nat, r: ExecutionResult, m: nat, interval: Duration)
    requires Reachable(w)
    requires d in w.procs && id in w.procs[d].history
    requires var h := w.procs[d].history[id];
             && h.reports == [r] && GaveUp(r)
             && h.batch.subroutine.RetryOf(|Progress(h)|) == Some(RetryLogic(Amount(m), interval))
    ensures var h := w.procs[d].history[id];
            PT.Runs(h.trace, |Progress(h)|) == Budget(m, PT.Carried(h.batch.subroutine, h.trace))
  {
    hide Reachable, Inv, Progress, PT.Runs, PT.Carried, PI.HistoryOk;
    ReachableOk(w);
    HistoryAt(w, d, id);
    BudgetExact(w.procs[d].history[id], r, m, interval);
  }

  /** In terms that can be checked before the call: it got all its dispatches, up to as many as an earlier
      function of the batch has retries. */
  lemma GivenUpAtLeast(w: World, d: Domain, id: nat, r: ExecutionResult, m: nat, interval: Duration)
    requires Reachable(w)
    requires d in w.procs && id in w.procs[d].history
    requires var h := w.procs[d].history[id];
             && h.reports == [r] && GaveUp(r)
             && h.batch.subroutine.RetryOf(|Progress(h)|) == Some(RetryLogic(Amount(m), interval))
             && PT.Limited(h.batch.subroutine, |Progress(h)|)
    ensures var h := w.procs[d].history[id];
            Budget(m, PT.MostRetries(h.batch.subroutine, |Progress(h)|)) <= PT.Runs(h.trace, |Progress(h)|) <= m + 1
  {
    hide Reachable, Inv, Progress, PT.Runs, PT.MostRetries, PT.Limited, PI.HistoryOk;
    ReachableOk(w);
    HistoryAt(w, d, id);
    BudgetAtLeast(w.procs[d].history[id], r, m, interval);
  }

  // ----- The table -----

  /** Every stored authorization is well formed, so its domain is found and messages are never checked
      against a restriction of the other kind; and no label is in both tables. */
  lemma StoredAuthorizations(w: World, tag: Label, msgs: seq<ProcessorMessage>)
    requires Reachable(w)
    requires tag in w.auth.authorizations
    ensures var a := w.auth;
            && a.authorizations[tag].tag == tag && WellFormed(a.authorizations[tag], a.domains)
            && tag !in a.zkAuthorizations && DomainOf(a.authorizations[tag].subroutine).Some?
            && ValidateMessages(a.authorizations[tag].subroutine, msgs) !in
               {Some(BytesRestrictionOnJson), Some(JsonRestrictionOnBytes)}
  {
    hide Reachable, StageOk, TokensOk, ProcsOk, AI.RecordsOk, AI.CountsOk, AI.IdsOk, ValidateMessages;
    ReachableOk(w);
    var a := w.auth;
    NeverGetHere(a.authorizations[tag], a.domains, msgs);
  }

  // ----- Tokens -----

  /** No token is lost, and the contract holds one for every open call that paid one, next to those
      that were given to it for nothing. */
  lemma TokensAreConserved(w: World, tag: Label)
    requires Reachable(w)
    requires IsLimited(w.auth, tag)
    ensures && tag in w.bank
            && w.bank[tag].minted == |w.bank[tag].holders| + w.bank[tag].burned
            && w.bank[tag].holders[SELF] == |OpenIds(w.auth.records, tag)| + w.bank[tag].stranded
  {
    hide Reachable, StageOk, AI.Inv, ProcsOk, SettledOk, OpenIds;
    ReachableOk(w);
    assert HasToken(w.auth, tag);
    assert DenomOk(w.bank[tag], Owed(w.auth, tag));
  }

  /** A call that paid is settled once, when it ends with a result that leaves nothing open; a call that
      is in process, can be retried or failed unexpectedly is not, nor is one that did not pay. */
  lemma SettledOnce(w: World, id: nat)
    requires Reachable(w)
    ensures w.refunded[id] + w.burnt[id] ==
              if && id in w.auth.records && PaysToken(w.auth, w.auth.records[id])
                 && !IsOpen(w.auth.records[id].result)
              then 1 else 0
  {
    hide Reachable, StageOk, AI.Inv, ProcsOk, BankOk, IsOpen, Burns;
    ReachableOk(w);
    assert SettledAt(w.auth, id, w.refunded, w.burnt);
  }

  /** A call that failed unexpectedly is never settled: its token stays with the contract. */
  lemma UnexpectedErrorKeepsToken(w: World, more: seq<Step>, v: World, id: nat)
    requires Reachable(w) && v == RunFrom(w, more)
    requires id in w.auth.records && w.auth.records[id].result.UnexpectedError?
    ensures v.refunded[id] == 0 && v.burnt[id] == 0
  {
    hide Reachable, RunFrom, Inv, Burns;
    RecordsLast(w, more, v, id);
    ReachableOk(w);
    RunFromKeeps(w, more);
    SettledAtWorld(v, id);
  }

  lemma SettledAtWorld(w: World, id: nat)
    requires Inv(w)
    ensures SettledAt(w.auth, id, w.refunded, w.burnt)
  {
    hide StageOk, AI.Inv, ProcsOk, BankOk, SettledAt;
  }

  // ----- Counts -----

  /** The count of a label is the number of its records in process. */
  lemma CountsAreExact(w: World, tag: Label)
    requires Reachable(w)
    ensures AuthorizationModel.Running(w.auth, tag) == |AI.InProcessIds(w.auth, tag)|
  {
    hide Reachable, StageOk, TokensOk, ProcsOk, AI.TableOk, AI.RecordsOk, AI.IdsOk, AI.InProcessIds;
    ReachableOk(w);
  }

  /** Results and bridge callbacks are never refused: neither is a count ever zero, nor a token
      missing. */
  lemma NothingIsRefused(w: World, block: Block)
    requires Reachable(w)
    ensures && (forall n :: 0 <= n < |w.ins| && w.ins[n].flight.InFlight? ==>
                  Apply(LandIn(w, n, AckOk), w.ins[n].id,
                        ProcessorCallback(w.auth, block, w.ins[n].id, w.ins[n].body)).Some?)
            && (forall n :: 0 <= n < |w.outs| && w.outs[n].flight.Landed? ==>
                  Apply(w.(outs := w.outs[..n] + w.outs[n + 1..]), w.outs[n].id,
                        BridgeCallback(w.auth, block, w.outs[n].id, w.outs[n].flight.ack)).Some?)
            && (forall d, input ::
                  d in w.procs && MayReach(w.procs[d], input) && P.Serve(w.procs[d], input, block).Done? ==>
                  After(w, d, P.Serve(w.procs[d], input, block), block).Some?)
  {
    hide Reachable, Inv, Apply, LandIn, ProcessorCallback, BridgeCallback, After, MayReach, P.Serve;
    ReachableOk(w);
    forall n | 0 <= n < |w.ins| && w.ins[n].flight.InFlight?
      ensures Apply(LandIn(w, n, AckOk), w.ins[n].id,
                    ProcessorCallback(w.auth, block, w.ins[n].id, w.ins[n].body)).Some?
    {
      ResultArrives(w, block, n);
    }
    forall n | 0 <= n < |w.outs| && w.outs[n].flight.Landed?
      ensures Apply(w.(outs := w.outs[..n] + w.outs[n + 1..]), w.outs[n].id,
                    BridgeCallback(w.auth, block, w.outs[n].id, w.outs[n].flight.ack)).Some?
    {
      if w.outs[n].flight.ack.AckOk? { AckOkAccepted(w, block, n); } else { AckOutBounced(w, block, n); }
    }
    forall d, input | d in w.procs && MayReach(w.procs[d], input) && P.Serve(w.procs[d], input, block).Done?
      ensures After(w, d, P.Serve(w.procs[d], input, block), block).Some?
    {
      ServeAccepted(w, d, input, block);
    }
  }

  lemma AckOkAccepted(w: World, block: Block, n: nat)
    requires Inv(w) && n < |w.outs| && w.outs[n].flight == Landed(AckOk)
    ensures Apply(w.(outs := w.outs[..n] + w.outs[n + 1..]), w.outs[n].id,
                  BridgeCallback(w.auth, block, w.outs[n].id, AckOk)).Some?
  {
    hide Core, Of, Faithful, ReportFits, Settle;
    OutAt(w, n);
    InvAt(w, w.outs[n].id);
    NothingSettled(w.(outs := w.outs[..n] + w.outs[n + 1..]), w.outs[n].id);
  }

  lemma ServeAccepted(w: World, d: Domain, input: P.Input, block: Block)
    requires Inv(w) && d in w.procs && MayReach(w.procs[d], input) && P.Serve(w.procs[d], input, block).Done?
    ensures After(w, d, P.Serve(w.procs[d], input, block), block).Some?
  {
    hide Inv, P.Tick, P.LibraryCallback, P.RetryCallback, P.Handle, P.QueueHas, Emit, P.ProxyAck, P.RetryBridgeCreation;
    match input
    case Received(order) => ControlKeeps(w, d, order, block);
    case Ticked(outcome) => ProtocolSteps.TickKeeps(w, d, block, outcome);
    case LibraryCalled(id, sender, msg) => ProtocolSteps.CallbackKeeps(w, d, id, sender, msg, block);
    case ResendAsked(id) => ResendKeeps(w, d, id, block);
    case ProxyAcked(_) => ProtocolSteps.ProxyKeeps(w, d, input, block);
    case ProxyRetried => ProtocolSteps.ProxyKeeps(w, d, input, block);
  }
}
