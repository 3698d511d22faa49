/** What can happen to a call of any subroutine: it stops halfway and its token goes back all the same, it is
    removed by the owner, it fails unexpectedly, or its result is lost. Every lemma leads to a world that
    some run reaches. */
module ProtocolExamples {
  import opened Types
  import opened Validation
  import opened AuthorizationModel
  import opened Protocol
  import opened ProtocolInvariant
  import opened ProtocolPackets
  import opened ProtocolTable
  import opened ProtocolTicks
  import opened ProtocolTheorems
  import opened ProtocolProgress
  import opened ProtocolLimits
  import opened ProtocolOpening
  import opened ProcessorAlone
  import opened ProcessorOutcomes
  import P = ProcessorModel
  import PT = ProcessorTrace

  /** The call is in process, and its processor has only its batch, after the events `t`. */
  ghost predicate Stands(w: World, d: Domain, s: Subroutine, msgs: seq<ProcessorMessage>, index: map<nat, nat>,
                         t: seq<P.Event>) {
    && Reachable(w) && w.auth == Called(d, s, msgs) && w.ins == []
    && d in w.procs && w.procs[d] == Alone(ConfigOf(d), Order(s, msgs).Batch(), index, t)
  }

  lemma Begins(d: Domain, s: Subroutine, msgs: seq<ProcessorMessage>)
    requires Callable(s, msgs) && DomainOf(s) == Some(d)
    ensures Stands(Arrived(d, s, msgs), d, s, msgs, map[], [])
  {
    hide Reachable, Callable, DomainOf, Alone, Called;
    ArrivedReached(d, s, msgs);
  }

  /** A call to the processor that reports nothing. */
  lemma Silent(w: World, d: Domain, input: P.Input, block: Block, store: P.ProcStore)
    requires Reachable(w) && d in w.procs && MayReach(w.procs[d], input)
    requires P.Serve(w.procs[d], input, block) == P.Done(store, None)
    ensures Reachable(w.(procs := w.procs[d := store]))
  {
    hide Reachable, P.Serve, MayReach;
    var step := Step(block, AtProcessor(d, input));
    assert Next(w, step) == w.(procs := w.procs[d := store]);
    ReachableNext(w, step);
  }

  lemma StandsAfter(w: World, d: Domain, s: Subroutine, msgs: seq<ProcessorMessage>, index: map<nat, nat>,
                    t: seq<P.Event>, input: P.Input, index': map<nat, nat>, t': seq<P.Event>) returns (v: World)
    requires Stands(w, d, s, msgs, index, t) && MayReach(w.procs[d], input)
    requires P.Serve(w.procs[d], input, NOW) == P.Done(Alone(ConfigOf(d), Order(s, msgs).Batch(), index', t'), None)
    ensures Stands(v, d, s, msgs, index', t')
  {
    hide Reachable, P.Serve, MayReach, Alone, Called;
    var store := Alone(ConfigOf(d), Order(s, msgs).Batch(), index', t');
    Silent(w, d, input, NOW, store);
    v := w.(procs := w.procs[d := store]);
  }

  lemma CanBuild(d: Domain, s: Subroutine, msgs: seq<ProcessorMessage>, i: nat)
    requires Callable(s, msgs) && DomainOf(s) == Some(d) && s.NonAtomic? && i < |msgs| && PT.HasAddress(s, i)
    ensures P.BuildError(Order(s, msgs).Batch(), i).None?
  {
    hide WellFormed, ValidateMessages, DomainOf;
    CheckedSendable(Info(s).ToAuthorization(NOW), DomainsWith(d), Order(s, msgs).Batch());
  }

  /** Function `i` is confirmed, by its run or by its library. */
  lemma Advances(w: World, d: Domain, s: Subroutine, msgs: seq<ProcessorMessage>, index: map<nat, nat>, i: nat,
                 t: seq<P.Event>) returns (v: World, u: seq<P.Event>)
    requires Callable(s, msgs) && DomainOf(s) == Some(d) && Stands(w, d, s, msgs, index, t) && IsNext(index, 0, i)
    requires s.NonAtomic? && i + 1 < |msgs| && PT.HasAddress(s, i)
    ensures Stands(v, d, s, msgs, map[0 := i + 1], u)
    ensures |PT.Confirmed(s, u)| == |PT.Confirmed(s, t)| + 1
  {
    hide Callable, DomainOf, P.BuildError, P.Tick, P.LibraryCallback, PT.Confirmed, Reachable, Called, InHand;
    var c, b, e := ConfigOf(d), Order(s, msgs).Batch(), P.Ran(i, NOW, true);
    CanBuild(d, s, msgs, i);
    PT.Append(s, t, e);
    if s.CallbackOf(i).None? {
      TickConfirms(c, b, index, i, t, NOW);
      u := t + [e];
      v := StandsAfter(w, d, s, msgs, index, t, P.Ticked(P.SubOk), map[0 := i + 1], u);
    } else {
      var cb := s.CallbackOf(i).value;
      var e' := P.CalledBack(i, NOW, cb.address, cb.message);
      u := t + [e] + [e'];
      TickParks(c, b, index, i, t, NOW);
      LibraryConfirms(c, b, i, t + [e], NOW);
      PT.Append(s, t + [e], e');
      v := ViaLibrary(w, d, s, msgs, index, i, t, cb, u);
    }
  }

  lemma ViaLibrary(w: World, d: Domain, s: Subroutine, msgs: seq<ProcessorMessage>, index: map<nat, nat>, i: nat,
                   t: seq<P.Event>, cb: FunctionCallback, u: seq<P.Event>) returns (v: World)
    requires Stands(w, d, s, msgs, index, t)
    requires var c, b, t' := ConfigOf(d), Order(s, msgs).Batch(), t + [P.Ran(i, NOW, true)];
             && P.Tick(w.procs[d], NOW, P.SubOk) == P.Done(InHand(c, b, i, t'), None)
             && P.LibraryCallback(InHand(c, b, i, t'), 0, cb.address, cb.message, NOW) ==
                P.Done(Alone(c, b, map[0 := i + 1], u), None)
    ensures Stands(v, d, s, msgs, map[0 := i + 1], u)
  {
    hide P.Tick, P.LibraryCallback, Reachable, Called;
    var c, b := ConfigOf(d), Order(s, msgs).Batch();
    var parked, store := InHand(c, b, i, t + [P.Ran(i, NOW, true)]), Alone(c, b, map[0 := i + 1], u);
    Silent(w, d, P.Ticked(P.SubOk), NOW, parked);
    var w1 := w.(procs := w.procs[d := parked]);
    assert !P.QueueHas(parked, 0);
    Silent(w1, d, P.LibraryCalled(0, cb.address, cb.message), NOW, store);
    v := w1.(procs := w1.procs[d := store]);
  }

  /** The first `i` functions can be confirmed one after the other. */
  lemma {:induction false} Reaches(d: Domain, s: Subroutine, msgs: seq<ProcessorMessage>, i: nat)
    returns (w: World, index: map<nat, nat>, t: seq<P.Event>)
    requires Callable(s, msgs) && DomainOf(s) == Some(d) && s.NonAtomic? && i < |msgs|
    requires forall j: nat :: j < i ==> PT.HasAddress(s, j)
    ensures Stands(w, d, s, msgs, index, t) && IsNext(index, 0, i) && |PT.Confirmed(s, t)| == i
    decreases i
  {
    hide Callable, DomainOf, Stands, PT.HasAddress;
    if i == 0 {
      w, index, t := Arrived(d, s, msgs), map[], [];
      Begins(d, s, msgs);
    } else {
      w, index, t := Reaches(d, s, msgs, i - 1);
      w, t := Advances(w, d, s, msgs, index, i - 1, t);
      index := map[0 := i];
    }
  }

  // ----- The end -----

  /** The call has ended with this result, after the events `t`. */
  ghost predicate EndedAs(w: World, d: Domain, s: Subroutine, r: ExecutionResult, t: seq<P.Event>) {
    && Reachable(w) && IsCallOf(w, 0, s) && PaysToken(w.auth, w.auth.records[0])
    && w.auth.records[0].result == r && w.auth.records[0].domain == d && TraceAt(w, d, 0) == t
  }

  lemma AppliedAuth(w: World, block: Block, r: ExecutionResult)
    requires 0 in w.auth.records
    ensures var v := Apply(w, 0, ProcessorCallback(w.auth, block, 0, r));
            v.Some? ==> v.value.auth == Close(w.auth, block, 0, r) && v.value.procs == w.procs
  {
    hide RunTokens;
  }

  lemma CallIs(d: Domain, s: Subroutine, msgs: seq<ProcessorMessage>, block: Block, r: ExecutionResult)
    ensures var a := Called(d, s, msgs);
            && 0 in a.records && a.records[0].result.InProcess? && a.records[0].domain == d
            && var b := Close(a, block, 0, r);
               && 0 in b.records && b.records[0].result == r && b.records[0].domain == d && b.records[0].tag == TAG
               && b.records[0].initiator == User(USER)
               && TAG in b.authorizations && b.authorizations[TAG] == Info(s).ToAuthorization(NOW)
  {
  }

  lemma IsEndedAs(v: World, d: Domain, s: Subroutine, msgs: seq<ProcessorMessage>, block: Block, r: ExecutionResult,
                  t: seq<P.Event>)
    requires Reachable(v) && v.auth == Close(Called(d, s, msgs), block, 0, r)
    requires TraceAt(v, d, 0) == t
    ensures EndedAs(v, d, s, r, t)
  {
    hide Reachable, Called, Close;
    CallIs(d, s, msgs, block, r);
  }

  /** What the processor reports is in the packet to the authorization contract. */
  lemma Travels(w: World, d: Domain, s: Subroutine, msgs: seq<ProcessorMessage>, index: map<nat, nat>,
                t: seq<P.Event>, input: P.Input, block: Block, r: ExecutionResult, u: seq<P.Event>) returns (v: World)
    requires !d.Main? && Stands(w, d, s, msgs, index, t) && MayReach(w.procs[d], input)
    requires EndsWith(P.Serve(w.procs[d], input, block), Order(s, msgs).Batch(), r, u)
    ensures Reachable(v) && v.auth == Called(d, s, msgs) && v.ins == [Packet(0, d, r, InFlight)]
    ensures TraceAt(v, d, 0) == u
  {
    hide Reachable, P.Serve, MayReach, Alone, Called;
    var step := Step(block, AtProcessor(d, input));
    v := Next(w, step);
    assert [] + [Packet(0, d, r, InFlight)] == [Packet(0, d, r, InFlight)];
    ReachableNext(w, step);
  }

  /** On the main domain the result is recorded at once. */
  lemma ReportsHere(w: World, s: Subroutine, msgs: seq<ProcessorMessage>, index: map<nat, nat>,
                    t: seq<P.Event>, input: P.Input, block: Block, r: ExecutionResult, u: seq<P.Event>)
    returns (v: World)
    requires Stands(w, Main, s, msgs, index, t) && MayReach(w.procs[Main], input)
    requires EndsWith(P.Serve(w.procs[Main], input, block), Order(s, msgs).Batch(), r, u)
    ensures EndedAs(v, Main, s, r, u)
  {
    hide Reachable, P.Serve, MayReach, Alone, Called, EndedAs, Inv, Apply, Close, ProcessorCallback;
    CallIs(Main, s, msgs, block, r);
    var step, o := Step(block, AtProcessor(Main, input)), P.Serve(w.procs[Main], input, block);
    ReachableOk(w);
    ServeAccepted(w, Main, input, block);
    AppliedAuth(w.(procs := w.procs[Main := o.store]), block, r);
    v := Next(w, step);
    ReachableNext(w, step);
    IsEndedAs(v, Main, s, msgs, block, r, u);
  }

  /** A packet with a result that arrives is recorded. */
  lemma ReportArrives(w: World, d: Domain, s: Subroutine, msgs: seq<ProcessorMessage>, block: Block,
                      r: ExecutionResult, u: seq<P.Event>) returns (v: World)
    requires Reachable(w) && w.auth == Called(d, s, msgs) && w.ins == [Packet(0, d, r, InFlight)]
    requires TraceAt(w, d, 0) == u
    ensures EndedAs(v, d, s, r, u)
  {
    hide Reachable, Called, EndedAs, Inv, Apply, Close, ProcessorCallback;
    var step := Step(block, DeliverIn(0, Arrives));
    CallIs(d, s, msgs, block, r);
    ReachableOk(w);
    ResultArrives(w, block, 0);
    AppliedAuth(LandIn(w, 0, AckOk), block, r);
    v := Next(w, step);
    ReachableNext(w, step);
    IsEndedAs(v, d, s, msgs, block, r, u);
  }

  /** The result is recorded: on the main domain at once, from another domain when the packet arrives. */
  lemma Reports(w: World, d: Domain, s: Subroutine, msgs: seq<ProcessorMessage>, index: map<nat, nat>,
                t: seq<P.Event>, input: P.Input, block: Block, r: ExecutionResult, u: seq<P.Event>) returns (v: World)
    requires Stands(w, d, s, msgs, index, t) && MayReach(w.procs[d], input)
    requires EndsWith(P.Serve(w.procs[d], input, block), Order(s, msgs).Batch(), r, u)
    ensures EndedAs(v, d, s, r, u)
  {
    hide Stands, P.Serve, MayReach, EndsWith, EndedAs, Reachable, Called, TraceAt;
    if d.Main? {
      v := ReportsHere(w, s, msgs, index, t, input, block, r, u);
    } else {
      var w1 := Travels(w, d, s, msgs, index, t, input, block, r, u);
      v := ReportArrives(w1, d, s, msgs, block, r, u);
    }
  }

  // ----- Tokens that go back after progress -----

  /** The first second after a lifetime that began at second 0. */
  function Overdue(lifetime: nat): Block { Block(2, (lifetime + 1) * NANOS) }

  lemma GoesBack(w: World, d: Domain, s: Subroutine, r: ExecutionResult, t: seq<P.Event>)
    requires EndedAs(w, d, s, r, t) && (r.Expired? || r.Rejected?)
    ensures 0 in w.refunded && ConfirmedCount(w, 0, s) == |PT.Confirmed(s, t)|
  {
    hide Reachable, Inv, PaysToken;
    SettledOnce(w, 0);
    ReachableOk(w);
    SettledResult(w, 0);
  }

  /** The lifetime is over after the first function: it was executed, and the token goes back. */
  lemma RefundAfterExpiry(s: Subroutine, msgs: seq<ProcessorMessage>) returns (w: World)
    requires Callable(s, msgs) && s.NonAtomic? && |s.functions| > 1 && PT.HasAddress(s, 0)
    requires s.lifetime.Some? && s.lifetime.value <= U64_MAX
    ensures Reachable(w) && IsCallOf(w, 0, s) && w.auth.records[0].result == Expired(1)
    ensures 0 in w.refunded && ConfirmedCount(w, 0, s) == 1
  {
    hide Callable, DomainOf, Reachable, Alone, P.Tick, PT.Confirmed, TraceAt, EndsWith, ConfirmedCount, Called;
    OneEach(s, msgs);
    var d, b, last := DomainOf(s).value, Order(s, msgs).Batch(), Overdue(s.lifetime.value);
    var w0, index, t := Reaches(d, s, msgs, 1);
    assert last.Seconds() == s.lifetime.value + 1;
    LateEnds(ConfigOf(d), b, index, 1, t, last);
    w := Reports(w0, d, s, msgs, index, t, P.Ticked(P.SubOk), last, Expired(1), t);
    GoesBack(w, d, s, Expired(1), t);
  }

  /** Function `i` has no retry logic and fails: those before it were executed, and the token goes back. */
  lemma RefundAfterRejection(s: Subroutine, msgs: seq<ProcessorMessage>, i: nat) returns (w: World)
    requires Callable(s, msgs) && s.NonAtomic? && MayReject(s, i)
    ensures Reachable(w) && IsCallOf(w, 0, s) && w.auth.records[0].result == Rejected("failed")
    ensures 0 in w.refunded && ConfirmedCount(w, 0, s) == i
  {
    hide Callable, DomainOf, Reachable, Alone, P.Tick, PT.Confirmed, TraceAt, EndsWith, ConfirmedCount, Called,
         P.BuildError, PT.HasAddress;
    OneEach(s, msgs);
    var d, b := DomainOf(s).value, Order(s, msgs).Batch();
    var w0, index, t := Reaches(d, s, msgs, i);
    var e := P.Ran(i, NOW, false);
    CanBuild(d, s, msgs, i);
    FailureEnds(ConfigOf(d), b, index, i, t, NOW, "failed");
    w := Reports(w0, d, s, msgs, index, t, P.Ticked(P.SubErr("failed")), NOW, Rejected("failed"), t + [e]);
    GoesBack(w, d, s, Rejected("failed"), t + [e]);
    PT.Append(s, t, e);
  }

  lemma OneEach(s: Subroutine, msgs: seq<ProcessorMessage>)
    requires Callable(s, msgs)
    ensures DomainOf(s).Some? && |msgs| == |s.Calls()|
  {
    hide WellFormed, CheckMessages;
  }

  /** Whatever the run, a token that goes back means that nothing was executed. */
  ghost predicate RefundsAreEarned(s: Subroutine) {
    forall w, id: nat :: Reachable(w) && IsCallOf(w, id, s) && id in w.refunded ==> ConfirmedCount(w, id, s) == 0
  }

  /** For every subroutine that can be called, the condition a caller can check before the call is exact.
      Lifetimes are 64 bits wide. */
  lemma RefundsAreEarnedIff(s: Subroutine, msgs: seq<ProcessorMessage>)
    requires Callable(s, msgs) && (s.lifetime.Some? ==> s.lifetime.value <= U64_MAX)
    ensures RefundsAreEarned(s) <==> !MayStopHalfway(s)
  {
    hide Reachable, ConfirmedCount, Callable, MayReject, PT.HasAddress;
    if !MayStopHalfway(s) {
      forall w, id: nat | Reachable(w) && IsCallOf(w, id, s)
        ensures id in w.refunded ==> ConfirmedCount(w, id, s) == 0
      {
        RefundMeansNothingDone(w, id, s);
      }
    } else if s.lifetime.Some? {
      var w := RefundAfterExpiry(s, msgs);
    } else {
      var i: nat :| i > 0 && MayReject(s, i);
      var w := RefundAfterRejection(s, msgs, i);
    }
  }

  /** For every subroutine that can be called: all its calls are given up with the documented result exactly
      when no function after the first can be dispatched without retry logic. */
  lemma AlwaysDocumentedIff(s: Subroutine, msgs: seq<ProcessorMessage>)
    requires Callable(s, msgs)
    ensures (forall w, id: nat :: Reachable(w) && IsCallOf(w, id, s) && GaveUp(w.auth.records[id].result) ==>
               Documented(w, id, s))
            <==> (s.NonAtomic? ==> forall i: nat :: i > 0 ==> !MayReject(s, i))
  {
    hide Reachable, ConfirmedCount, Callable, MayReject;
    if s.NonAtomic? && exists i: nat :: i > 0 && MayReject(s, i) {
      var i: nat :| i > 0 && MayReject(s, i);
      var w := RefundAfterRejection(s, msgs, i);
      assert !Documented(w, 0, s);
    } else {
      forall w, id: nat | Reachable(w) && IsCallOf(w, id, s) && GaveUp(w.auth.records[id].result)
        ensures Documented(w, id, s)
      {
        DocumentedWhenRetried(w, id, s);
      }
    }
  }

  // ----- Tokens that do not go back although nothing was executed -----

  /** The owner removes the batch before it was executed, and the token is burned. */
  lemma BurntUnexecuted(s: Subroutine, msgs: seq<ProcessorMessage>) returns (w: World)
    requires Callable(s, msgs)
    ensures Reachable(w) && IsCallOf(w, 0, s) && w.auth.records[0].result == RemovedByOwner
    ensures 0 in w.burnt && ConfirmedCount(w, 0, s) == 0
  {
    hide Callable, DomainOf, Reachable, Alone, P.Evict, TraceAt, EndsWith, Called, Inv;
    OneEach(s, msgs);
    var d, b := DomainOf(s).value, Order(s, msgs).Batch();
    var w0 := Arrived(d, s, msgs);
    Begins(d, s, msgs);
    EvictionEnds(ConfigOf(d), b, map[], []);
    w := Reports(w0, d, s, msgs, map[], [], P.Received(EvictMsgs(0, Medium)), NOW, RemovedByOwner, []);
    SettledOnce(w, 0);
    ReachableOk(w);
    SettledResult(w, 0);
  }

  /** The packet to another domain fails with a fatal error: nothing was executed, and the token neither
      goes back nor is burned. */
  lemma KeptUnexecuted(s: Subroutine, msgs: seq<ProcessorMessage>, error: string) returns (w: World)
    requires Callable(s, msgs) && DomainOf(s) != Some(Main)
    ensures Reachable(w) && IsCallOf(w, 0, s) && w.auth.records[0].result == UnexpectedError(error)
    ensures PaysToken(w.auth, w.auth.records[0]) && ConfirmedCount(w, 0, s) == 0
    ensures 0 !in w.refunded && 0 !in w.burnt
  {
    hide Callable, DomainOf, Reachable, Called, Inv, Apply, BridgeCallback, Close;
    OneEach(s, msgs);
    var d := DomainOf(s).value;
    SentReached(d, s, msgs);
    var w0 := Sent(d, s, msgs);
    var lands, told := Step(NOW, DeliverOut(0, Collapses(error))), Step(NOW, AckOut(0));
    var w1 := Next(w0, lands);
    ReachableNext(w0, lands);
    LandsFatally(w0, d, Order(s, msgs), error);
    CallIs(d, s, msgs, NOW, UnexpectedError(error));
    w := Next(w1, told);
    ReachableNext(w1, told);
    ReachableOk(w1);
    AckOutBounced(w1, NOW, 0);
    FatalAuth(w1, error);
    ReachableOk(w);
    BouncedNothing(w, 0, s);
    SettledOnce(w, 0);
  }

  lemma LandsFatally(w: World, d: Domain, m: AuthorizationMsg, error: string)
    requires w.outs == [Packet(0, d, m, InFlight)] && d in w.procs
    ensures Next(w, Step(NOW, DeliverOut(0, Collapses(error)))) ==
            w.(outs := [Packet(0, d, m, Landed(AckFatal(error)))])
  {
    var k := Packet(0, d, m, Landed(AckFatal(error)));
    assert w.outs[..0] == [] && w.outs[1..] == [] && [] + [k] + [] == [k];
  }

  lemma FatalAuth(w: World, error: string)
    requires w.outs != [] && w.outs[0].id == 0 && w.outs[0].flight == Landed(AckFatal(error))
    requires 0 in w.auth.records && !w.auth.records[0].domain.Main?
    requires Apply(w.(outs := w.outs[..0] + w.outs[1..]), 0, BridgeCallback(w.auth, NOW, 0, AckFatal(error))).Some?
    ensures Next(w, Step(NOW, AckOut(0))).auth == Close(w.auth, NOW, 0, UnexpectedError(error))
  {
    hide RunTokens;
  }

  // ----- A result that is lost -----

  /** The batch has a result, but the packet with it fails for another reason than a timeout. */
  lemma LostResult(s: Subroutine, msgs: seq<ProcessorMessage>, delivery: Delivery) returns (w: World)
    requires Callable(s, msgs) && DomainOf(s) != Some(Main)
    requires !delivery.Arrives? && NotDelivered(delivery) != AckError(TIMEOUT)
    ensures Reachable(w) && IsCallOf(w, 0, s) && PaysToken(w.auth, w.auth.records[0]) && Doomed(w, 0)
  {
    hide Callable, DomainOf, Reachable, Alone, P.Evict, TraceAt, EndsWith, Called, Doomed, Next, Arrived;
    OneEach(s, msgs);
    var d, b := DomainOf(s).value, Order(s, msgs).Batch();
    Begins(d, s, msgs);
    EvictionEnds(ConfigOf(d), b, map[], []);
    var w0 := Travels(Arrived(d, s, msgs), d, s, msgs, map[], [], P.Received(EvictMsgs(0, Medium)), NOW,
                      RemovedByOwner, []);
    var step := Step(NOW, DeliverIn(0, delivery));
    w := Next(w0, step);
    ReachableNext(w0, step);
    ErrorDooms(w0, 0, delivery, NOW, w);
    FailsToArrive(w0, 0, delivery);
    CalledIs(d, s, msgs);
  }

  lemma FailsToArrive(w: World, n: nat, delivery: Delivery)
    requires n < |w.ins| && w.ins[n].flight.InFlight? && !delivery.Arrives?
    ensures Next(w, Step(NOW, DeliverIn(n, delivery))).auth == w.auth
  {
  }

  lemma CalledIs(d: Domain, s: Subroutine, msgs: seq<ProcessorMessage>)
    ensures var a := Called(d, s, msgs);
            && 0 in a.records && a.records[0].tag == TAG && a.records[0].initiator == User(USER)
            && TAG in a.authorizations && a.authorizations[TAG] == Info(s).ToAuthorization(NOW)
  {
  }

  // ----- More executions than the cap -----

  /** The call and another one that the owner inserted. */
  function Doubled(d: Domain, s: Subroutine, msgs: seq<ProcessorMessage>): AuthStore {
    Start(Called(d, s, msgs), NOW, Initiator.Owner, d, TAG, None, msgs)
  }

  lemma IsInserted(d: Domain, s: Subroutine, msgs: seq<ProcessorMessage>)
    requires Callable(s, msgs) && DomainOf(s) == Some(d)
    ensures InsertMessages(Called(d, s, msgs), NOW, TAG, 0, Medium, msgs) ==
            Accepted(Doubled(d, s, msgs),
                     Some(Call(d, InsertMsgs(1, 0, msgs, s, Medium, DeadlineAt(s, 0)), Some(1))), [])
    ensures !UnderCap(Doubled(d, s, msgs), TAG)
  {
    hide ValidateMessages, WellFormed, DomainOf;
  }

  lemma DispatchKeepsAuth(w: World, call: Call, block: Block)
    requires call.domain in w.procs && call.callback.Some?
    requires var o := P.Handle(w.procs[call.domain], call.msg, block); o.Done? && o.report.None?
    ensures Dispatch(w, call, block).Some? && Dispatch(w, call, block).value.auth == w.auth
  {
    hide P.Handle;
  }

  /** While the call runs the owner inserts another, and two executions run although one may. */
  lemma InsertedOverCap(s: Subroutine, msgs: seq<ProcessorMessage>) returns (w: World)
    requires Callable(s, msgs)
    ensures Reachable(w) && !UnderCap(w.auth, TAG)
  {
    hide Reachable, Callable, DomainOf, P.Handle, Alone, InsertMessages, Dispatch, Doubled, UnderCap;
    OneEach(s, msgs);
    var d := DomainOf(s).value;
    var w0, step := Arrived(d, s, msgs), Step(NOW, Insert(TAG, 0, Medium, msgs));
    var m := InsertMsgs(1, 0, msgs, s, Medium, DeadlineAt(s, 0));
    ArrivedReached(d, s, msgs);
    ReachableNext(w0, step);
    w := Next(w0, step);
    IsInserted(d, s, msgs);
    InsertsInFront(d, s, msgs, m);
    DispatchKeepsAuth(w0.(auth := Doubled(d, s, msgs)), Call(d, m, Some(1)), NOW);
  }

  lemma InsertsInFront(d: Domain, s: Subroutine, msgs: seq<ProcessorMessage>, m: AuthorizationMsg)
    requires m.InsertMsgs? && m.position == 0 && m.expirationTime == DeadlineAt(s, 0)
    ensures var o := P.Handle(Alone(ConfigOf(d), Order(s, msgs).Batch(), map[], []), m, NOW);
            o.Done? && o.report.None?
  {
    assert !m.Batch().IsLate(NOW);
  }

  /** While the call runs the owner lowers the cap below one. */
  lemma LoweredUnderRunning(s: Subroutine, msgs: seq<ProcessorMessage>) returns (w: World)
    requires Callable(s, msgs)
    ensures Reachable(w) && !UnderCap(w.auth, TAG)
  {
    hide Reachable, ValidateMessages, DomainOf, Validate, WellFormed;
    OneEach(s, msgs);
    var d := DomainOf(s).value;
    var lowered := Changes(None, None, Some(0), None);
    var w0, step := Arrived(d, s, msgs), Step(NOW, Administer(Modify(TAG, lowered, {})));
    ArrivedReached(d, s, msgs);
    ReachableNext(w0, step);
    w := Next(w0, step);
    StaysValid(d, s, Changed(Info(s).ToAuthorization(NOW), lowered));
  }

  lemma StaysValid(d: Domain, s: Subroutine, a: Authorization)
    requires DomainOf(s) == Some(d) && WellFormed(Info(s).ToAuthorization(NOW), DomainsWith(d))
    requires a == Info(s).ToAuthorization(NOW).(maxConcurrent := a.maxConcurrent)
    ensures Validate(a, DomainsWith(d), {}).None?
  {
    hide WellFormedCall, Validate, DomainOf;
    CosmwasmCalls(Info(s).ToAuthorization(NOW), d);
    ValidateIff(a, DomainsWith(d), {});
  }

  // ----- A routine that can be called -----

  const MSG := ExecuteMsg(Binary([], Some(JObject(map["step" := JNull]))))

  function StepOn(d: Domain, retry: Option<RetryLogic>): NonAtomicFunction {
    var details := MessageDetails(CosmwasmExecuteMsg, "step", None);
    NonAtomicFunction(FunctionCall(d, details, Some("library")), retry, None)
  }

  function Routine(d: Domain, lifetime: Option<nat>, second: Option<RetryLogic>): Subroutine {
    NonAtomic([StepOn(d, None), StepOn(d, second)], lifetime)
  }

  lemma RoutineIsCallable(d: Domain, lifetime: Option<nat>, second: Option<RetryLogic>)
    ensures Callable(Routine(d, lifetime, second), [MSG, MSG]) && DomainOf(Routine(d, lifetime, second)) == Some(d)
  {
    var s := Routine(d, lifetime, second);
    var ms, calls := [MSG, MSG], s.Calls();
    assert calls == [StepOn(d, None).call, StepOn(d, second).call];
    assert CheckMessage(MSG, calls[0].details).None? && CheckMessage(MSG, calls[1].details).None?;
    assert ms[1..] == [MSG] && calls[1..] == [calls[1]];
    assert CheckMessages([MSG], [calls[1]]).None? by { assert [MSG][1..] == []; }
  }

  /** So two functions, on any domain, are only refunded unexecuted exactly when they have no lifetime and
      the second has retry logic. */
  lemma RoutineIff(d: Domain, lifetime: Option<nat>, second: Option<RetryLogic>)
    requires lifetime.Some? ==> lifetime.value <= U64_MAX
    ensures RefundsAreEarned(Routine(d, lifetime, second)) <==> lifetime.None? && second.Some?
  {
    hide RefundsAreEarned, Callable;
    var s := Routine(d, lifetime, second);
    RoutineIsCallable(d, lifetime, second);
    RefundsAreEarnedIff(s, [MSG, MSG]);
    if second.None? {
      assert MayReject(s, 1);
    }
  }
}
