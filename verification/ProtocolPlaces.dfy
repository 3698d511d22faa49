/** Where an execution is. In every run an id in process is in exactly one place, and every other
    id is in none. */
module ProtocolPlaces {
  import opened Types
  import opened Protocol
  import opened ProtocolInvariant
  import opened ProtocolSteps
  import opened ProtocolTable
  import P = ProcessorModel
  import PI = ProcessorInvariant
  import PE = ProcessorEffects

  datatype Place =
    | InTransit(n: nat)                                          // packet to a processor, not delivered yet
    | NotApplied(n: nat)                                         // packet that failed, sender not told yet
    | InQueue(domain: Domain, priority: Priority, position: nat)
    | WithLibrary(domain: Domain)                                // out of the queues, waits for a callback
    | ResultKept(domain: Domain)                                 // result that has not been recorded yet

  ghost predicate At(w: World, id: nat, place: Place) {
    match place
    case InTransit(n) => n < |w.outs| && w.outs[n].id == id && w.outs[n].flight.InFlight?
    case NotApplied(n) => n < |w.outs| && w.outs[n].id == id && w.outs[n].flight.Landed? && !w.outs[n].flight.ack.AckOk?
    case InQueue(d, priority, k) => d in w.procs && QueuedAt(w.procs[d], id, priority, k)
    case WithLibrary(d) => d in w.procs && ParkedAt(w.procs[d], id)
    case ResultKept(d) =>
      && d in w.procs && id in w.procs[d].results
      && forall n :: 0 <= n < |w.ins| && w.ins[n].id == id ==> w.ins[n].flight != Landed(AckOk)
  }

  ghost predicate QueuedAt(p: P.ProcStore, id: nat, priority: Priority, k: nat) {
    k < |P.QueueOf(p, priority)| && P.QueueOf(p, priority)[k].id == id
  }

  ghost predicate ParkedAt(p: P.ProcStore, id: nat) {
    id in p.pending && id in p.index && !P.QueueHas(p, id)
  }

  ghost predicate IsRunning(w: World, id: nat) { id in w.auth.records && w.auth.records[id].result.InProcess? }

  // ----- Positions -----

  lemma {:induction false} NotSelected(q: seq<MessageBatch>, id: nat)
    requires PI.Select(q, id) == []
    ensures forall k :: 0 <= k < |q| ==> q[k].id != id
  {
    if q != [] {
      NotSelected(q[1..], id);
      assert forall k :: 1 <= k < |q| ==> q[k] == q[1..][k - 1];
    }
  }

  lemma {:induction false} SelectedOnce(q: seq<MessageBatch>, id: nat) returns (k: nat)
    requires |PI.Select(q, id)| == 1
    ensures k < |q| && q[k].id == id && forall j :: 0 <= j < |q| && q[j].id == id ==> j == k
  {
    assert forall j :: 1 <= j < |q| ==> q[j] == q[1..][j - 1];
    if q[0].id == id {
      k := 0;
      NotSelected(q[1..], id);
    } else {
      k := SelectedOnce(q[1..], id);
      k := k + 1;
    }
  }

  lemma {:induction false} NoPacket<T>(q: seq<Packet<T>>, id: nat)
    requires Of(q, id) == []
    ensures forall n :: 0 <= n < |q| ==> q[n].id != id
  {
    if q != [] {
      NoPacket(q[1..], id);
      assert forall n :: 1 <= n < |q| ==> q[n] == q[1..][n - 1];
    }
  }

  lemma {:induction false} PacketOnce<T>(q: seq<Packet<T>>, id: nat) returns (n: nat)
    requires |Of(q, id)| == 1
    ensures n < |q| && q[n] == Of(q, id)[0] && q[n].id == id
    ensures forall m :: 0 <= m < |q| && q[m].id == id ==> m == n
  {
    assert forall j :: 1 <= j < |q| ==> q[j] == q[1..][j - 1];
    if q[0].id == id {
      n := 0;
      NoPacket(q[1..], id);
    } else {
      n := PacketOnce(q[1..], id);
      n := n + 1;
    }
  }

  // ----- At a processor -----

  /** Nothing of `id` is waiting at this processor. */
  ghost predicate Idle(p: P.ProcStore, id: nat) {
    !ParkedAt(p, id) && forall priority, k :: !QueuedAt(p, id, priority, k)
  }

  lemma IdleAt(p: P.ProcStore, id: nat)
    requires PI.Inv(p) && (id !in p.history || p.history[id].reports != [])
    ensures Idle(p, id)
  {
    hide PI.Select, PI.HistoryOk, PI.Underway;
    PI.InvAt(p, id);
    NotSelected(p.high, id);
    NotSelected(p.medium, id);
  }

  /** A batch without a result is queued once, or waits for its library. */
  lemma WaitsAt(p: P.ProcStore, d: Domain, id: nat) returns (place: Place)
    requires PI.Inv(p) && id in p.history && p.history[id].reports == []
    ensures place == WithLibrary(d) || (place.InQueue? && place.domain == d)
    ensures ParkedAt(p, id) <==> place == WithLibrary(d)
    ensures forall priority, k :: QueuedAt(p, id, priority, k) <==> place == InQueue(d, priority, k)
  {
    hide PI.Select, PI.HistoryOk, PI.Underway, PI.Waiting, PI.StalePending, P.QueueHas;
    PI.InvAt(p, id);
    var v, h := PI.ViewOf(p, id), p.history[id];
    PE.QueueHasIff(p, id);
    if v.high == [] && v.medium == [] {
      NotSelected(p.high, id);
      NotSelected(p.medium, id);
      place := WithLibrary(d);
    } else {
      var k := SelectedOnce(P.QueueOf(p, h.batch.priority), id);
      NotSelected(P.QueueOf(p, if h.batch.priority.High? then Medium else High), id);
      place := InQueue(d, h.batch.priority, k);
    }
  }

  // ----- Anywhere -----

  /** Only the processor of its domain can have anything of an id. */
  lemma OthersIdle(w: World, id: nat, d: Domain)
    requires Inv(w) && d in w.procs
    requires id in w.auth.records ==> w.auth.records[id].domain != d
    ensures Idle(w.procs[d], id) && id !in w.procs[d].results
  {
    hide Core, Of, Fits, PI.Inv, Idle;
    InvAt(w, id);
    ProcAt(w, d);
    IdleAt(w.procs[d], id);
  }

  /** What `id` has waiting at the processors, when its own one is idle. */
  ghost predicate AllIdle(w: World, id: nat) {
    forall d :: d in w.procs ==> Idle(w.procs[d], id)
  }

  lemma AllIdleAt(w: World, id: nat)
    requires Inv(w)
    requires id in w.auth.records && w.auth.records[id].domain in w.procs ==>
               var p := w.procs[w.auth.records[id].domain]; id !in p.history || p.history[id].reports != []
    ensures AllIdle(w, id)
  {
    hide Inv, Idle, PI.Inv;
    forall d | d in w.procs
      ensures Idle(w.procs[d], id)
    {
      if id in w.auth.records && w.auth.records[id].domain == d {
        ProcAt(w, d);
        IdleAt(w.procs[d], id);
      } else {
        OthersIdle(w, id, d);
      }
    }
  }

  ghost predicate NoResults(w: World, id: nat) {
    forall d :: d in w.procs ==> id !in w.procs[d].results
  }

  lemma NoResultsAt(w: World, id: nat)
    requires Inv(w)
    requires id in w.auth.records && w.auth.records[id].domain in w.procs ==>
               id !in w.procs[w.auth.records[id].domain].results
    ensures NoResults(w, id)
  {
    hide Inv, Idle;
    forall d | d in w.procs
      ensures id !in w.procs[d].results
    {
      if !(id in w.auth.records && w.auth.records[id].domain == d) {
        OthersIdle(w, id, d);
      }
    }
  }

  ghost function SeenBy(w: World, id: nat): Option<P.History>
    requires id in w.auth.records
  {
    var d := w.auth.records[id].domain;
    if d in w.procs then PI.Get(w.procs[d].history, id) else None
  }

  /** The processor has not got the batch: the packet with it has not been applied yet. */
  lemma PlacedInPacket(w: World, id: nat) returns (place: Place)
    requires Inv(w) && IsRunning(w, id) && SeenBy(w, id).None?
    ensures At(w, id, place) && forall q :: At(w, id, q) ==> q == place
  {
    hide Core, Of, Idle, ReportFits, Faithful;
    InvAt(w, id);
    AllIdleAt(w, id);
    NoResultsAt(w, id);
    var n := PacketOnce(w.outs, id);
    place := if w.outs[n].flight.InFlight? then InTransit(n) else NotApplied(n);
    NotElsewhere(w, id);
  }

  /** Idle processors without results leave only packets. */
  lemma NotElsewhere(w: World, id: nat)
    requires AllIdle(w, id) && NoResults(w, id)
    ensures forall q :: At(w, id, q) ==> q.InTransit? || q.NotApplied?
  {
  }

  /** Packets that are still there were applied. */
  ghost predicate OutsApplied(w: World, id: nat) {
    forall n :: 0 <= n < |w.outs| && w.outs[n].id == id ==> w.outs[n].flight == Landed(AckOk)
  }

  lemma OutsAppliedAt(w: World, id: nat)
    requires StageOk(w, id)
    requires id in w.auth.records ==> SeenBy(w, id).Some? || !IsRunning(w, id)
    ensures OutsApplied(w, id)
  {
    hide Of, ReportFits, Faithful;
    if Of(w.outs, id) == [] {
      NoPacket(w.outs, id);
    } else {
      var n := PacketOnce(w.outs, id);
    }
  }

  lemma PlacedAtProcessor(w: World, id: nat) returns (place: Place)
    requires Inv(w) && IsRunning(w, id) && SeenBy(w, id).Some? && SeenBy(w, id).value.reports == []
    ensures At(w, id, place) && forall q :: At(w, id, q) ==> q == place
  {
    hide Core, Of, ReportFits, Faithful, OutFits, PI.Inv, P.QueueHas;
    InvAt(w, id);
    OutsAppliedAt(w, id);
    NoResultsAt(w, id);
    var d := w.auth.records[id].domain;
    ProcAt(w, d);
    place := WaitsAt(w.procs[d], d, id);
    forall e | e in w.procs && e != d
      ensures Idle(w.procs[e], id)
    {
      OthersIdle(w, id, e);
    }
  }

  lemma PlacedAsResult(w: World, id: nat) returns (place: Place)
    requires Inv(w) && IsRunning(w, id) && SeenBy(w, id).Some? && SeenBy(w, id).value.reports != []
    ensures At(w, id, place) && forall q :: At(w, id, q) ==> q == place
  {
    hide Core, Of, Faithful, OutFits, PI.Inv, P.QueueHas;
    InvAt(w, id);
    OutsAppliedAt(w, id);
    AllIdleAt(w, id);
    var d := w.auth.records[id].domain;
    if Of(w.ins, id) == [] {
      NoPacket(w.ins, id);
    } else {
      var n := PacketOnce(w.ins, id);
    }
    place := ResultKept(d);
    forall e | e in w.procs && e != d
      ensures id !in w.procs[e].results
    {
      OthersIdle(w, id, e);
    }
  }

  lemma PlacedNowhere(w: World, id: nat)
    requires Inv(w) && !IsRunning(w, id)
    ensures forall q :: !At(w, id, q)
  {
    hide Core, Of, Faithful, OutFits, PI.Inv, P.QueueHas;
    InvAt(w, id);
    OutsAppliedAt(w, id);
    AllIdleAt(w, id);
    NotKept(w, id);
  }

  /** A result that is still kept was recorded. */
  lemma NotKept(w: World, id: nat)
    requires Inv(w) && !IsRunning(w, id)
    ensures forall d :: !At(w, id, ResultKept(d))
  {
    hide Core, Of, Faithful, OutFits, PI.Inv, P.QueueHas, Idle;
    InvAt(w, id);
    forall d
      ensures !At(w, id, ResultKept(d))
    {
      if d in w.procs && id in w.procs[d].results {
        if id !in w.auth.records || w.auth.records[id].domain != d {
          OthersIdle(w, id, d);
        } else {
          var n := PacketOnce(w.ins, id);
        }
      }
    }
  }

  /** In every run, an id is in process exactly when it is somewhere, and it is never in two places. */
  lemma OnePlace(w: World, id: nat)
    requires Reachable(w)
    ensures IsRunning(w, id) <==> exists place :: At(w, id, place)
    ensures forall a, b :: At(w, id, a) && At(w, id, b) ==> a == b
  {
    hide Reachable, Inv, At;
    ReachableOk(w);
    if !IsRunning(w, id) {
      PlacedNowhere(w, id);
    } else if SeenBy(w, id).None? {
      var place := PlacedInPacket(w, id);
    } else if SeenBy(w, id).value.reports == [] {
      var place := PlacedAtProcessor(w, id);
    } else {
      var place := PlacedAsResult(w, id);
    }
  }
}
