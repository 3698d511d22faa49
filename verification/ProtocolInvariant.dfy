/** Where every execution is. For each id this relates the record of the authorization contract,
    the packets in transit and the processor of the domain. */
module ProtocolInvariant {
  import opened Types
  import opened Validation
  import opened AuthorizationModel
  import opened Protocol
  import opened ProtocolTokens
  import P = ProcessorModel
  import AI = AuthorizationInvariant
  import PI = ProcessorInvariant

  // ----- Packets of one id -----

  function Of<T>(q: seq<Packet<T>>, id: nat): seq<Packet<T>> {
    if q == [] then [] else (if q[0].id == id then [q[0]] else []) + Of(q[1..], id)
  }

  lemma {:induction false} OfConcat<T>(a: seq<Packet<T>>, b: seq<Packet<T>>, id: nat)
    ensures Of(a + b, id) == Of(a, id) + Of(b, id)
  {
    if a == [] {
      assert a + b == b;
    } else {
      var rest, first := a[1..], if a[0].id == id then [a[0]] else [];
      assert (a + b)[1..] == rest + b && (a + b)[0] == a[0];
      OfConcat(rest, b, id);
      assert first + (Of(rest, id) + Of(b, id)) == first + Of(rest, id) + Of(b, id);
    }
  }

  lemma OfOne<T>(k: Packet<T>, id: nat)
    ensures Of([k], id) == if k.id == id then [k] else []
  {
    assert [k][1..] == [];
  }

  lemma OfInside<T>(a: seq<Packet<T>>, k: Packet<T>, z: seq<Packet<T>>, id: nat)
    ensures Of(a + z, id) == Of(a, id) + Of(z, id)
    ensures Of(a + [k] + z, id) == Of(a, id) + (if k.id == id then [k] else []) + Of(z, id)
  {
    hide Of;
    OfConcat(a, z, id);
    OfConcat(a + [k], z, id);
    OfConcat(a, [k], id);
    OfOne(k, id);
  }

  // ----- One id -----

  /** Results that only a processor can report. */
  predicate IsFinal(r: ExecutionResult) {
    r.Success? || r.Rejected? || r.PartiallyExecuted? || r.RemovedByOwner? || r.Expired?
  }

  /** The batch is the one the record was opened for. For a stored authorization it has the subroutine of
      the authorization, and a deadline counted from when it was last sent. */
  ghost predicate Faithful(a: AuthStore, r: Record, b: MessageBatch) {
    && b.msgs == r.messages
    && (r.tag in a.authorizations ==>
          && b.subroutine == a.authorizations[r.tag].subroutine
          && (if r.result.InProcess? then b.expirationTime == DeadlineAt(b.subroutine, r.updatedAt)
              else b.expirationTime.Some? ==> b.subroutine.lifetime.Some?))
  }

  /** A packet to the processor carries the batch of its record, under the id of its record. Unless
      it was applied, the id is still in process and the processor has never seen it. */
  ghost predicate OutFits(a: AuthStore, r: Record, k: Packet<AuthorizationMsg>, seen: bool) {
    && k.domain == r.domain
    && k.body.CarriesBatch() && k.body.id == k.id && Faithful(a, r, k.body.Batch())
    && if k.flight == Landed(AckOk) then seen else !seen && r.result.InProcess?
  }

  /** A processor has reported `res`. Until the report is recorded the id stays in process and the
      processor keeps the result; a packet is on its way exactly while the result is pending. */
  ghost predicate ReportFits(r: Record, res: ExecutionResult, ins: seq<Packet<ExecutionResult>>,
                             kept: Option<P.ResultInfo>) {
    && IsFinal(res)
    && (kept.Some? ==> kept.value.result == res && (kept.value.state.Pending? <==> ins != []))
    && (ins != [] ==> kept.Some? && ins[0].domain == r.domain && ins[0].body == res)
    && if r.result.InProcess?
       then kept.Some? && (ins != [] ==> ins[0].flight != Landed(AckOk))
       else r.result == res && (kept.Some? ==> ins != []) && (ins != [] ==> ins[0].flight == Landed(AckOk))
  }

  ghost predicate Fits(a: AuthStore, r: Record, outs: seq<Packet<AuthorizationMsg>>, ins: seq<Packet<ExecutionResult>>,
                       h: Option<P.History>, kept: Option<P.ResultInfo>) {
    && |outs| <= 1 && |ins| <= 1
    && (outs != [] ==> OutFits(a, r, outs[0], h.Some?))
    && (r.domain.Main? ==> outs == [] && ins == [] && kept.None?)
    && match h
       case None =>
         && ins == [] && kept.None?
         && (if r.result.InProcess? then outs != [] else outs == [] && (r.result.Timeout? || r.result.UnexpectedError?))
       case Some(h) =>
         && Faithful(a, r, h.batch)
         && (if h.reports == [] then r.result.InProcess? && ins == [] && kept.None?
             else if r.domain.Main? then r.result == h.reports[0] && IsFinal(h.reports[0])
             else ReportFits(r, h.reports[0], ins, kept))
  }

  ghost predicate Unseen(w: World, id: nat) {
    forall d :: d in w.procs ==> id !in w.procs[d].history && id !in w.procs[d].results
  }

  /** Only the processor of domain `d` may know the id. */
  ghost predicate OnlyAt(w: World, id: nat, d: Domain) {
    d in w.procs && forall e :: e in w.procs && e != d ==> id !in w.procs[e].history && id !in w.procs[e].results
  }

  ghost predicate StageOk(w: World, id: nat) {
    if id !in w.auth.records then Of(w.outs, id) == [] && Of(w.ins, id) == [] && Unseen(w, id)
    else
      var r := w.auth.records[id];
      OnlyAt(w, id, r.domain) &&
      Fits(w.auth, r, Of(w.outs, id), Of(w.ins, id),
           PI.Get(w.procs[r.domain].history, id), PI.Get(w.procs[r.domain].results, id))
  }

  ghost predicate ProcOk(d: Domain, p: P.ProcStore) {
    PI.Inv(p) && (p.config.domain.OnMain? <==> d.Main?)
  }

  ghost predicate ProcsOk(w: World) {
    && Main in w.procs
    && (forall d :: d in w.procs ==> ProcOk(d, w.procs[d]))
    && (forall n :: External(n) in w.procs <==> n in w.auth.domains && w.auth.domains[n].Cosmwasm?)
  }

  /** Everything that is not about where an id is. */
  ghost predicate Core(w: World) {
    AI.Inv(w.auth) && TokensOk(w) && ProcsOk(w)
  }

  ghost predicate Inv(w: World) {
    Core(w) && forall id: nat :: StageOk(w, id)
  }

  ghost predicate InvBut(w: World, id: nat) {
    Core(w) && forall o: nat :: o != id ==> StageOk(w, o)
  }

  // ----- Framing -----

  /** What the outside can tell about `id` at a processor. */
  ghost predicate SameAt(p: P.ProcStore, q: P.ProcStore, id: nat) {
    && (id in q.history <==> id in p.history)
    && (id in p.history ==>
        q.history[id].batch == p.history[id].batch && q.history[id].reports == p.history[id].reports)
    && PI.Get(q.results, id) == PI.Get(p.results, id)
  }

  ghost predicate SameTable(a: AuthStore, b: AuthStore) {
    && (forall t :: t in a.authorizations ==>
        t in b.authorizations && b.authorizations[t].subroutine == a.authorizations[t].subroutine)
    && (forall t :: t in a.zkAuthorizations && t !in a.authorizations ==> t !in b.authorizations)
  }

  /** Nothing about `id` differs between the two worlds. */
  ghost predicate Same(w: World, v: World, id: nat) {
    && PI.Get(v.auth.records, id) == PI.Get(w.auth.records, id)
    && Of(v.outs, id) == Of(w.outs, id) && Of(v.ins, id) == Of(w.ins, id)
    && (forall d :: d in w.procs ==> d in v.procs && SameAt(w.procs[d], v.procs[d], id))
    && (forall d :: d in v.procs && d !in w.procs ==> id !in v.procs[d].history && id !in v.procs[d].results)
  }

  lemma FaithfulSame(a: AuthStore, b: AuthStore, r: Record, m: MessageBatch)
    requires SameTable(a, b) && LabelKnown(a, r.tag) && Faithful(a, r, m)
    ensures Faithful(b, r, m)
  {
  }

  lemma FitsSame(a: AuthStore, b: AuthStore, r: Record, outs: seq<Packet<AuthorizationMsg>>,
                 ins: seq<Packet<ExecutionResult>>, h: Option<P.History>, g: Option<P.History>,
                 kept: Option<P.ResultInfo>)
    requires SameTable(a, b) && LabelKnown(a, r.tag)
    requires Fits(a, r, outs, ins, h, kept)
    requires h.Some? == g.Some? && (h.Some? ==> g.value.batch == h.value.batch && g.value.reports == h.value.reports)
    ensures Fits(b, r, outs, ins, g, kept)
  {
    hide ReportFits, Faithful;
    if outs != [] {
      FaithfulSame(a, b, r, outs[0].body.Batch());
    }
    if h.Some? {
      FaithfulSame(a, b, r, h.value.batch);
    }
  }

  lemma StageSame(w: World, v: World, id: nat)
    requires StageOk(w, id) && Same(w, v, id) && SameTable(w.auth, v.auth)
    requires id in w.auth.records ==> LabelKnown(w.auth, w.auth.records[id].tag)
    ensures StageOk(v, id)
  {
    hide Fits, SameTable, LabelKnown;
    if id in w.auth.records {
      var r := w.auth.records[id];
      var d := r.domain;
      assert d in v.procs && SameAt(w.procs[d], v.procs[d], id);
      FitsSame(w.auth, v.auth, r, Of(w.outs, id), Of(w.ins, id), PI.Get(w.procs[d].history, id),
               PI.Get(v.procs[d].history, id), PI.Get(w.procs[d].results, id));
    }
  }

  lemma LabelsKnown(w: World, id: nat)
    requires AI.Inv(w.auth) && id in w.auth.records
    ensures LabelKnown(w.auth, w.auth.records[id].tag)
  {
    hide ValidateMessages, DomainOf;
    assert AI.RecordOk(w.auth, w.auth.records[id]);
  }

  /** Every other id keeps its place when only `id` is touched. */
  lemma OthersKeep(w: World, v: World, id: nat)
    requires InvBut(w, id) && Core(v) && SameTable(w.auth, v.auth)
    requires forall o: nat :: o != id ==> Same(w, v, o)
    ensures InvBut(v, id)
  {
    hide StageOk, Same, SameTable, LabelKnown, AI.Inv, TokensOk, ProcsOk;
    forall o: nat | o != id
      ensures StageOk(v, o)
    {
      if o in w.auth.records { LabelsKnown(w, o); }
      StageSame(w, v, o);
    }
  }

  lemma Complete(w: World, id: nat)
    requires InvBut(w, id) && StageOk(w, id)
    ensures Inv(w)
  {
    hide StageOk, Core;
  }

  lemma InvAt(w: World, id: nat)
    requires Inv(w)
    ensures StageOk(w, id) && InvBut(w, id) && Core(w)
  {
    hide StageOk, Core;
  }
}
