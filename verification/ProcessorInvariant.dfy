/** The invariant of the processor. It is a statement about one execution id at a time: about the
    view of that id, which collects everything the store holds for it. */
module ProcessorInvariant {
  import opened Types
  import opened ProcessorModel
  import opened ProcessorTrace

  /** The copies of `id` in a queue. */
  function Select(q: seq<MessageBatch>, id: nat): seq<MessageBatch> {
    if q == [] then [] else (if q[0].id == id then [q[0]] else []) + Select(q[1..], id)
  }

  lemma {:induction false} SelectConcat(a: seq<MessageBatch>, b: seq<MessageBatch>, id: nat)
    ensures Select(a + b, id) == Select(a, id) + Select(b, id)
  {
    if a == [] {
      assert a + b == b;
    } else {
      var rest, first := a[1..], if a[0].id == id then [a[0]] else [];
      assert (a + b)[1..] == rest + b && (a + b)[0] == a[0];
      SelectConcat(rest, b, id);
      assert first + (Select(rest, id) + Select(b, id)) == first + Select(rest, id) + Select(b, id);
    }
  }

  function Get<V>(m: map<nat, V>, k: nat): Option<V> {
    if k in m then Some(m[k]) else None
  }

  datatype View = View(
    id: nat, history: Option<History>, batch: Option<MessageBatch>, index: Option<nat>,
    pending: Option<PendingCallback>, result: Option<ResultInfo>,
    high: seq<MessageBatch>, medium: seq<MessageBatch>)
  {
    function Copies(priority: Priority): seq<MessageBatch> { if priority.High? then high else medium }

    function WithCopies(priority: Priority, q: seq<MessageBatch>): View {
      if priority.High? then this.(high := q) else this.(medium := q)
    }
  }

  function ViewOf(p: ProcStore, id: nat): View {
    View(id, Get(p.history, id), Get(p.batches, id), Get(p.index, id), Get(p.pending, id),
         Get(p.results, id), Select(p.high, id), Select(p.medium, id))
  }

  function Nothing(id: nat): View { View(id, None, None, None, None, None, [], []) }

  ghost function Extended(h: History, e: Event): History {
    h.(trace := h.trace + [e])
  }

  /** The last event is a failure of function `i`, and its retry logic is used up or missing. */
  ghost predicate UsedUp(s: Subroutine, t: seq<Event>, i: nat) {
    LastFailed(s, t) && !Retriable(s, i, Count(s, t).queued - 1)
  }

  /** What a final result tells about the functions confirmed. */
  ghost predicate Exact(b: MessageBatch, t: seq<Event>, r: ExecutionResult) {
    var s, n := b.subroutine, |Confirmed(b.subroutine, t)|;
    match r
    case Success => n == b.Size() && (s.NonAtomic? ==> n > 0)
    case Rejected(_) => n < b.Size() && UsedUp(s, t, n) && (n == 0 || s.RetryOf(n).None?)
    case PartiallyExecuted(m, _) => m == n && 0 < n < b.Size() && UsedUp(s, t, n) && s.RetryOf(n).Some?
    case Expired(m) => m == n && (n == 0 || n < b.Size()) && b.expirationTime.Some?
    case RemovedByOwner => n == 0 || n < b.Size()
    case _ => false
  }

  ghost predicate HistoryOk(h: History) {
    var s, t := h.batch.subroutine, h.trace;
    var c := Confirmed(s, t);
    && InOrder(c)
    && CooledDown(s, t)
    && WithinLimits(s, t)
    && Runs(t, |c|) == Streak(s, t) + (if Awaiting(s, t) then 1 else 0)
    && (forall i: nat :: i > |c| ==> Runs(t, i) == 0)
    && (Streak(s, t) > 1 ==> Retriable(s, |c|, Count(s, t).queued - 2))
    && CarriesLittle(s, t)
    && Resolved(s, t)
    && (|c| < h.batch.Size() || (|c| == h.batch.Size() && Runs(t, |c|) == 0))
    && |h.reports| <= 1
    && (h.reports != [] ==> Exact(h.batch, t, h.reports[0]))
  }

  /** The part of a live batch that does not depend on where it is. */
  ghost predicate Underway(v: View, h: History) {
    var s, t := h.batch.subroutine, h.trace;
    var c := Confirmed(s, t);
    && h.reports == []
    && HistoryOk(h)
    && v.history == Some(h) && h.batch.id == v.id
    && v.result.None?
    && v.batch.Some? && v.batch.value.SameJob(h.batch)
    && v.batch.value.Retries() == Count(s, t).mapped
    && (s.Atomic? ==> v.index.None? && c == [])
    && (s.NonAtomic? ==> if v.index.None? then t == [] else v.index == Some(|c|) && |c| < |h.batch.msgs|)
    && (Streak(s, t) > 0 ==> Retriable(s, |c|, Count(s, t).queued - 1))
  }

  /** The copy `b` may be dispatched or wait in the queue. */
  ghost predicate Waiting(h: History, b: MessageBatch) {
    var s, t := h.batch.subroutine, h.trace;
    && b.SameJob(h.batch)
    && b.Retries() == Count(s, t).queued
    && !Awaiting(s, t)
    && (!LastFailed(s, t) ==> b.retry.None?)
    && (LastFailed(s, t) ==>
          s.RetryOf(|Confirmed(s, t)|).Some? && b.retry.Some? &&
          b.retry.value.cooldown == s.RetryOf(|Confirmed(s, t)|).value.interval.After(t[|t| - 1].at) &&
          t[|t| - 1].index == |Confirmed(s, t)|)
  }

  /** A pending callback may be left over from a dispatch that failed, but then the function to
      dispatch next is the one it was for. */
  ghost predicate StalePending(v: View, h: History) {
    v.pending.Some? ==>
      && v.index.Some? && h.batch.subroutine.CallbackOf(v.index.value).Some?
      && v.pending.value.batch.SameJob(h.batch)
  }

  /** In the queue of its own priority, exactly once. */
  ghost predicate IsQueued(v: View, h: History) {
    && |v.Copies(h.batch.priority)| == 1
    && v.WithCopies(h.batch.priority, []).high == [] && v.WithCopies(h.batch.priority, []).medium == []
    && Waiting(h, v.Copies(h.batch.priority)[0])
    && StalePending(v, h)
  }

  /** Out of the queues, waiting for its library. */
  ghost predicate IsParked(v: View, h: History) {
    var s, t := h.batch.subroutine, h.trace;
    && v.high == [] && v.medium == []
    && Awaiting(s, t)
    && v.index.Some?
    && v.pending.Some?
    && v.pending.value.batch.SameJob(h.batch)
    && v.pending.value.batch.Retries() == Count(s, t).queued
    && s.CallbackOf(v.index.value) == Some(v.pending.value.callback)
  }

  /** Nothing is left of a finished batch but the record of its result, if the processor is on an
      external domain, and the map entry of an atomic batch that succeeded. */
  ghost predicate Finished(external: bool, v: View, h: History) {
    && |h.reports| == 1
    && HistoryOk(h)
    && v.high == [] && v.medium == []
    && v.index.None?
    && (v.batch.Some? ==> h.batch.subroutine.Atomic? && h.reports[0].Success?)
    && (v.result.Some? ==> external && v.result.value.result == h.reports[0])
  }

  ghost predicate IdOk(external: bool, v: View) {
    match v.history
    case None => v == Nothing(v.id)
    case Some(h) =>
      if h.reports == [] then Underway(v, h) && (IsQueued(v, h) || IsParked(v, h))
      else Finished(external, v, h)
  }

  ghost predicate Inv(p: ProcStore) {
    forall id: nat :: IdOk(p.config.domain.OnExternal?, ViewOf(p, id))
  }

  /** Between two stores only the view of `id` may differ. */
  ghost predicate Frame(p: ProcStore, p': ProcStore, id: nat) {
    && (p.config.domain.OnExternal? <==> p'.config.domain.OnExternal?)
    && forall o: nat :: o != id ==> ViewOf(p', o) == ViewOf(p, o)
  }

  /** A batch taken from its queue, before anything else is done with it. */
  ghost predicate HeldView(v: View, h: History, b: MessageBatch) {
    v.high == [] && v.medium == [] && Underway(v, h) && Waiting(h, b) && StalePending(v, h)
  }

  ghost predicate Held(p: ProcStore, b: MessageBatch) {
    b.id in p.history && HeldView(ViewOf(p, b.id), p.history[b.id], b)
  }

  /** The rest of the store is as the invariant wants it. */
  ghost predicate InvBut(p: ProcStore, id: nat) {
    forall o: nat :: o != id ==> IdOk(p.config.domain.OnExternal?, ViewOf(p, o))
  }

  // ----- Views under the elementary updates -----

  lemma Patch(p: ProcStore, p': ProcStore, id: nat)
    requires InvBut(p, id) && Frame(p, p', id)
    requires IdOk(p'.config.domain.OnExternal?, ViewOf(p', id))
    ensures Inv(p')
  {
    hide IdOk, ViewOf;
  }

  lemma InvAt(p: ProcStore, id: nat)
    requires Inv(p)
    ensures IdOk(p.config.domain.OnExternal?, ViewOf(p, id)) && InvBut(p, id)
    ensures id !in p.history ==> ViewOf(p, id) == Nothing(id)
  {
    hide HistoryOk, Underway, IsQueued, IsParked, Finished;
  }

  lemma ViewBatches(p: ProcStore, id: nat, b: MessageBatch)
    ensures var p' := p.(batches := p.batches[id := b]);
            Frame(p, p', id) && ViewOf(p', id) == ViewOf(p, id).(batch := Some(b))
  {
    hide Select;
  }

  lemma ViewDispatch(p: ProcStore, b: MessageBatch, i: nat)
    ensures var p' := Dispatch(p, b, i);
            var cb := b.subroutine.CallbackOf(i);
            && Frame(p, p', b.id) && p'.history == p.history
            && ViewOf(p', b.id) ==
                 ViewOf(p, b.id).(index := Some(i),
                                  pending := if cb.None? then Get(p.pending, b.id)
                                             else Some(PendingCallback(cb.value, b)))
  {
    hide Select;
  }

  lemma ViewDropped(p: ProcStore, id: nat)
    ensures var p' := p.(pending := p.pending - {id});
            Frame(p, p', id) && ViewOf(p', id) == ViewOf(p, id).(pending := None)
  {
    hide Select;
  }

  lemma ViewForget(p: ProcStore, id: nat)
    ensures Frame(p, Forget(p, id), id)
    ensures ViewOf(Forget(p, id), id) == ViewOf(p, id).(index := None, batch := None)
  {
    hide Select;
  }

  lemma ViewRegister(p: ProcStore, b: MessageBatch)
    requires b.id !in p.history
    ensures Frame(p, Register(p, b), b.id)
    ensures ViewOf(Register(p, b), b.id) == ViewOf(p, b.id).(history := Some(History(b, [], [])))
  {
    hide Select;
  }

  lemma ViewLog(p: ProcStore, id: nat, e: Event)
    requires id in p.history
    ensures Frame(p, Log(p, id, e), id)
    ensures ViewOf(Log(p, id, e), id) == ViewOf(p, id).(history := Some(Extended(p.history[id], e)))
  {
    hide Select;
  }

  lemma ViewSendResult(p: ProcStore, id: nat, r: ExecutionResult)
    ensures var p' := SendResult(p, id, r);
            && Frame(p, p', id) && p'.history == p.history
            && ViewOf(p', id) ==
                 ViewOf(p, id).(result :=
                   if p.config.domain.OnMain? then Get(p.results, id) else Some(ResultInfo(r, Pending)))
  {
    hide Select;
  }

  lemma ViewReported(p: ProcStore, id: nat, r: ExecutionResult)
    requires id in p.history && p.history[id].reports == []
    ensures var p' := Reported(p, id, r);
            && Frame(p, p', id)
            && ViewOf(p', id) == ViewOf(p, id).(history := Some(p.history[id].(reports := [r])))
  {
    hide Select;
    assert p.history[id].reports + [r] == [r];
  }

  lemma ViewConclude(p: ProcStore, id: nat, r: ExecutionResult)
    requires id in p.history && p.history[id].reports == []
    ensures Conclude(p, id, r).Done?
    ensures var p' := Conclude(p, id, r).store;
            && Frame(p, p', id)
            && ViewOf(p', id) ==
                 ViewOf(p, id).(history := Some(p.history[id].(reports := [r])),
                                result := if p.config.domain.OnMain? then Get(p.results, id)
                                          else Some(ResultInfo(r, Pending)))
  {
    hide Frame, ViewOf, SendResult, Reported;
    var p1 := SendResult(p, id, r);
    ViewSendResult(p, id, r);
    ViewReported(p1, id, r);
    FrameThen(p, p1, Reported(p1, id, r), id);
  }

  lemma FrameThen(p: ProcStore, q: ProcStore, r: ProcStore, id: nat)
    requires Frame(p, q, id) && Frame(q, r, id)
    ensures Frame(p, r, id)
  {
    hide ViewOf;
  }

  lemma InvButFrame(p: ProcStore, p': ProcStore, id: nat)
    requires InvBut(p, id) && Frame(p, p', id)
    ensures InvBut(p', id)
  {
    hide IdOk, ViewOf;
  }

  lemma SelectOne(b: MessageBatch, id: nat)
    ensures Select([b], id) == if b.id == id then [b] else []
  {
  }

  lemma SelectInside(a: seq<MessageBatch>, b: MessageBatch, z: seq<MessageBatch>, id: nat)
    ensures Select(a + z, id) == Select(a, id) + Select(z, id)
    ensures Select(a + [b] + z, id) == Select(a, id) + (if b.id == id then [b] else []) + Select(z, id)
  {
    hide Select;
    SelectConcat(a, z, id);
    SelectConcat(a + [b], z, id);
    SelectConcat(a, [b], id);
    SelectOne(b, id);
  }

  /** Putting `b` between two parts of a queue. */
  lemma ViewInside(p: ProcStore, priority: Priority, a: seq<MessageBatch>, b: MessageBatch, z: seq<MessageBatch>)
    requires QueueOf(p, priority) == a + z
    ensures var p' := SetQueue(p, priority, a + [b] + z);
            && Frame(p, p', b.id)
            && ViewOf(p, b.id).Copies(priority) == Select(a, b.id) + Select(z, b.id)
            && ViewOf(p', b.id) ==
                 ViewOf(p, b.id).WithCopies(priority, Select(a, b.id) + [b] + Select(z, b.id))
  {
    hide Select;
    var p' := SetQueue(p, priority, a + [b] + z);
    forall o: nat
      ensures o != b.id ==> ViewOf(p', o) == ViewOf(p, o)
    {
      SelectInside(a, b, z, o);
    }
    SelectInside(a, b, z, b.id);
  }

  lemma ViewPushBack(p: ProcStore, priority: Priority, b: MessageBatch)
    ensures Frame(p, PushBack(p, priority, b), b.id)
    ensures ViewOf(p, b.id).Copies(priority) == [] ==>
              ViewOf(PushBack(p, priority, b), b.id) == ViewOf(p, b.id).WithCopies(priority, [b])
  {
    hide ViewOf;
    var q := QueueOf(p, priority);
    assert q + [] == q && q + [b] + [] == q + [b];
    ViewInside(p, priority, q, b, []);
    assert Select([], b.id) == [];
  }

  /** A copy found in a queue is the only one. */
  lemma OnlyCopy(external: bool, v: View, priority: Priority, a: seq<MessageBatch>, b: MessageBatch,
                 z: seq<MessageBatch>)
    requires IdOk(external, v)
    requires v.Copies(priority) == a + [b] + z
    ensures a == [] && z == [] && b.priority == priority
    ensures v.history.Some? && HeldView(v.WithCopies(priority, []), v.history.value, b)
  {
    hide HistoryOk, Count, Streak, Confirmed, Allowed, Awaiting, LastFailed;
    assert |v.Copies(priority)| == |a| + 1 + |z|;
    assert (a + [b] + z)[|a|] == b;
  }

  /** Taking any batch out of a queue leaves it held, and the rest untouched. */
  lemma Take(p: ProcStore, priority: Priority, i: nat)
    requires Inv(p)
    requires i < |QueueOf(p, priority)|
    ensures var q := QueueOf(p, priority);
            var p' := SetQueue(p, priority, q[..i] + q[i + 1..]);
            Held(p', q[i]) && InvBut(p', q[i].id) && q[i].priority == priority
  {
    hide IdOk, HeldView, Select;
    var q := QueueOf(p, priority);
    var b := q[i];
    var p' := SetQueue(p, priority, q[..i] + q[i + 1..]);
    assert q[..i] + [b] + q[i + 1..] == q;
    ViewInside(p', priority, q[..i], b, q[i + 1..]);
    InvAt(p, b.id);
    OnlyCopy(p.config.domain.OnExternal?, ViewOf(p, b.id), priority, Select(q[..i], b.id), b, Select(q[i + 1..], b.id));
  }

  // ----- Steps -----

  lemma NewBatchOk(external: bool, b: MessageBatch)
    requires b.retry.None?
    ensures var h := History(b, [], []);
            IdOk(external, View(b.id, Some(h), Some(b), None, None, None, [], []).WithCopies(b.priority, [b]))
  {
  }

  lemma LateBatchOk(b: MessageBatch)
    requires b.expirationTime.Some?
    ensures HistoryOk(History(b, [], [])) && Exact(b, [], Expired(0))
  {
  }

  lemma LateKeeps(p: ProcStore, b: MessageBatch)
    requires Inv(p) && b.id !in p.history && b.expirationTime.Some?
    ensures Inv(Conclude(Register(p, b), b.id, Expired(0)).store)
  {
    hide IdOk, ViewOf, HistoryOk, Exact, Conclude;
    InvAt(p, b.id);
    ViewRegister(p, b);
    InvButFrame(p, Register(p, b), b.id);
    LateBatchOk(b);
    ConcludeKeeps(Register(p, b), b.id, Expired(0));
  }

  /** A fresh batch placed anywhere in the queue of its priority. */
  lemma PlacedKeeps(p: ProcStore, a: seq<MessageBatch>, b: MessageBatch, z: seq<MessageBatch>)
    requires Inv(p) && b.id !in p.history && b.retry.None?
    requires QueueOf(p, b.priority) == a + z
    ensures Inv(SetQueue(Register(p, b), b.priority, a + [b] + z).(batches := p.batches[b.id := b]))
  {
    hide IdOk, Select, ViewOf;
    InvAt(p, b.id);
    var p1 := Register(p, b);
    var p2 := SetQueue(p1, b.priority, a + [b] + z);
    var p' := p2.(batches := p2.batches[b.id := b]);
    ViewRegister(p, b);
    ViewInside(p1, b.priority, a, b, z);
    ViewBatches(p2, b.id, b);
    FrameThen(p, p1, p2, b.id);
    FrameThen(p, p2, p', b.id);
    NewBatchOk(p.config.domain.OnExternal?, b);
    var before, after := Select(a, b.id), Select(z, b.id);
    assert |before + after| == 0;
    assert before + [b] + after == [b];
    Patch(p, p', b.id);
  }

  lemma EnqueueKeeps(p: ProcStore, b: MessageBatch, block: Block)
    requires Inv(p) && b.id !in p.history && b.retry.None?
    ensures Enqueue(p, b, block).Done? && Inv(Enqueue(p, b, block).store)
  {
    hide Inv;
    if b.IsLate(block) {
      LateKeeps(p, b);
    } else {
      var q := QueueOf(p, b.priority);
      assert q + [] == q && q + [b] + [] == q + [b];
      PlacedKeeps(p, q, b, []);
    }
  }

  lemma InsertKeeps(p: ProcStore, position: nat, b: MessageBatch, block: Block)
    requires Inv(p) && b.id !in p.history && b.retry.None?
    requires Insert(p, position, b, block).Done?
    ensures Inv(Insert(p, position, b, block).store)
  {
    hide Inv;
    if b.IsLate(block) {
      LateKeeps(p, b);
    } else {
      var q := QueueOf(p, b.priority);
      assert q == q[..position] + q[position..];
      PlacedKeeps(p, q[..position], b, q[position..]);
    }
  }

  /** Reporting an exact result finishes a batch that is out of the queues. */
  lemma ConcludeKeeps(p: ProcStore, id: nat, r: ExecutionResult)
    requires InvBut(p, id) && id in p.history
    requires HistoryOk(p.history[id]) && p.history[id].reports == []
    requires Exact(p.history[id].batch, p.history[id].trace, r)
    requires var v := ViewOf(p, id);
             && v.high == [] && v.medium == [] && v.index.None? && v.result.None?
             && (v.batch.Some? ==> p.history[id].batch.subroutine.Atomic? && r.Success?)
    ensures Inv(Conclude(p, id, r).store)
  {
    hide IdOk, Select, HistoryOk, Exact, Conclude, Confirmed;
    ViewConclude(p, id, r);
    ConcludedOk(p.config.domain.OnExternal?, ViewOf(p, id), p.history[id], r);
    Patch(p, Conclude(p, id, r).store, id);
  }

  lemma ConcludedOk(external: bool, v: View, h: History, r: ExecutionResult)
    requires HistoryOk(h) && h.reports == []
    requires v.high == [] && v.medium == [] && v.index.None?
    requires v.batch.Some? ==> h.batch.subroutine.Atomic? && r.Success?
    requires Exact(h.batch, h.trace, r)
    ensures IdOk(external, v.(history := Some(h.(reports := [r])),
                              result := if !external then None else Some(ResultInfo(r, Pending))))
  {
    hide Exact, Confirmed, Runs, Streak, CooledDown, WithinLimits, InOrder, Awaiting;
  }

  // ----- One more event -----

  /** When the batch may be dispatched. */
  ghost predicate Ready(h: History) {
    var s, t := h.batch.subroutine, h.trace;
    && h.reports == [] && HistoryOk(h) && !Awaiting(s, t)
    && (Streak(s, t) > 0 ==> Retriable(s, |Confirmed(s, t)|, Count(s, t).queued - 1))
  }

  lemma CooledDownAppend(s: Subroutine, t: seq<Event>, e: Event)
    requires CooledDown(s, t)
    requires e.Ran? && LastFailed(s, t) ==>
               && e.index == t[|t| - 1].index
               && s.RetryOf(e.index).Some?
               && s.RetryOf(e.index).value.interval.After(t[|t| - 1].at).IsExpired(e.at)
    ensures CooledDown(s, t + [e])
  {
    var u := t + [e];
    forall j | 1 <= j < |u| && u[j].Ran? && Fails(s, u[j - 1])
      ensures u[j].index == u[j - 1].index && s.RetryOf(u[j].index).Some?
      ensures s.RetryOf(u[j].index).value.interval.After(u[j - 1].at).IsExpired(u[j].at)
    {
      if j < |t| {
        assert u[j] == t[j] && u[j - 1] == t[j - 1];
      }
    }
  }

  lemma ResolvedAppend(s: Subroutine, t: seq<Event>, e: Event)
    requires Resolved(s, t) && HasAddress(s, e.index) && e.index == |Confirmed(s, t)|
    ensures Resolved(s, t + [e])
  {
    hide Confirmed, Runs, Confirms, HasAddress;
    Append(s, t, e);
  }

  lemma RunExtends(h: History, e: Event)
    requires Ready(h) && e.Ran? && e.index == |Confirmed(h.batch.subroutine, h.trace)| < h.batch.Size()
    requires HasAddress(h.batch.subroutine, e.index)
    requires LastFailed(h.batch.subroutine, h.trace) ==>
               && e.index == h.trace[|h.trace| - 1].index
               && h.batch.subroutine.RetryOf(e.index).Some?
               && h.batch.subroutine.RetryOf(e.index).value.interval.After(h.trace[|h.trace| - 1].at).IsExpired(e.at)
    ensures HistoryOk(Extended(h, e))
  {
    hide CooledDown, Confirmed, Runs, Streak, Count, Confirms, CarriesLittle, HasAddress;
    var s, t := h.batch.subroutine, h.trace;
    Append(s, t, e);
    CountersAgree(s, t);
    CooledDownAppend(s, t, e);
    CarriesLittleAppend(s, t, e);
    ResolvedAppend(s, t, e);
    assert (t + [e])[|t|] == e;
    assert Runs(t, |Confirmed(s, t)| + 1) == 0;
  }

  lemma CallbackExtends(h: History, e: Event)
    requires h.reports == [] && HistoryOk(h) && Awaiting(h.batch.subroutine, h.trace)
    requires var s, t := h.batch.subroutine, h.trace;
             Streak(s, t) > 0 ==> Retriable(s, |Confirmed(s, t)|, Count(s, t).queued - 1)
    requires e.CalledBack? && e.index == |Confirmed(h.batch.subroutine, h.trace)|
    ensures HistoryOk(Extended(h, e))
  {
    hide CooledDown, Confirmed, Runs, Streak, Count, Confirms, CarriesLittle, HasAddress;
    var s, t := h.batch.subroutine, h.trace;
    Append(s, t, e);
    CountersAgree(s, t);
    CooledDownAppend(s, t, e);
    CarriesLittleAppend(s, t, e);
    ResolvedAppend(s, t, e);
    assert (t + [e])[|t|] == e;
    assert Runs(t, |Confirmed(s, t)| + 1) == 0;
  }
}
