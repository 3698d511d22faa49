/** How long a batch waits in the whole system: what is proved for the calls of one processor, for the steps
    of every run. */
module ProtocolWaiting {
  import opened Types
  import opened Protocol
  import opened ProtocolInvariant
  import opened ProtocolTable
  import opened ProtocolProcessors
  import P = ProcessorModel
  import PW = ProcessorWaiting

  /** The step inserts into this queue of the processor of `d`, or evicts from it. */
  ghost predicate Disturbed(w: World, s: Step, d: Domain, priority: Priority) {
    d in w.procs && var call := ServedCall(w, s, d); call.Some? && PW.Disturbs(call.value, priority)
  }

  /** The step is a successful tick of the processor of `d`. */
  ghost predicate TicksAt(w: World, s: Step, d: Domain) {
    d in w.procs && var call := ServedCall(w, s, d); call.Some? && call.value.Ticked?
  }

  /** It takes a batch from this queue. */
  ghost predicate TakesFrom(w: World, s: Step, d: Domain, priority: Priority) {
    TicksAt(w, s, d) && P.NextQueue(w.procs[d]) == priority
  }

  ghost predicate Calm(w: World, more: seq<Step>, d: Domain, priority: Priority) {
    forall i :: 0 <= i < |more| ==> !Disturbed(RunFrom(w, more[..i]), more[i], d, priority)
  }

  ghost function Taken(w: World, more: seq<Step>, d: Domain, priority: Priority): nat {
    if more == [] then 0
    else
      var most := more[..|more| - 1];
      Taken(w, most, d, priority) + if TakesFrom(RunFrom(w, most), more[|more| - 1], d, priority) then 1 else 0
  }

  ghost function Ticks(w: World, more: seq<Step>, d: Domain): nat {
    if more == [] then 0
    else
      var most := more[..|more| - 1];
      Ticks(w, most, d) + if TicksAt(RunFrom(w, most), more[|more| - 1], d) then 1 else 0
  }

  // ----- One step -----

  lemma QueueSteps(w: World, s: Step, v: World, d: Domain, priority: Priority)
    requires Inv(w) && v == Next(w, s) && d in w.procs && !Disturbed(w, s, d, priority)
    ensures d in v.procs
    ensures var k := if TakesFrom(w, s, d, priority) then 1 else 0;
            var q := P.QueueOf(w.procs[d], priority);
            k <= |q| && q[k..] <= P.QueueOf(v.procs[d], priority)
  {
    hide Inv, Next, P.Serve, TryStep, CallOn, Proper, P.NextQueue, PW.Disturbs;
    StepServes(w, s, v, d);
    var call := ServedCall(w, s, d);
    if call.Some? {
      PW.QueueStep(w.procs[d], call.value, s.block, priority);
    }
  }

  lemma CalmBefore(w: World, more: seq<Step>, d: Domain, priority: Priority)
    requires more != [] && Calm(w, more, d, priority)
    ensures var n := |more| - 1;
            Calm(w, more[..n], d, priority) && !Disturbed(RunFrom(w, more[..n]), more[n], d, priority)
  {
    hide Disturbed, RunFrom;
    var most := more[..|more| - 1];
    forall i | 0 <= i < |most|
      ensures !Disturbed(RunFrom(w, most[..i]), most[i], d, priority)
    {
      assert most[..i] == more[..i] && most[i] == more[i];
    }
  }

  // ----- Runs -----

  lemma {:induction false} Forward(w: World, more: seq<Step>, d: Domain, priority: Priority, k: nat)
    requires Inv(w) && d in w.procs && k < |P.QueueOf(w.procs[d], priority)| && Calm(w, more, d, priority)
    ensures Inv(RunFrom(w, more)) && d in RunFrom(w, more).procs
    ensures var n, q := Taken(w, more, d, priority), P.QueueOf(RunFrom(w, more).procs[d], priority);
            n <= k ==> k - n < |q| && q[k - n] == P.QueueOf(w.procs[d], priority)[k]
    decreases |more|
  {
    hide Inv, Next, Disturbed, TakesFrom, Calm;
    if more != [] {
      var most, s := more[..|more| - 1], more[|more| - 1];
      CalmBefore(w, more, d, priority);
      Forward(w, most, d, priority, k);
      var u := RunFrom(w, most);
      StepKeeps(u, s);
      QueueSteps(u, s, Next(u, s), d, priority);
    }
  }

  /** The step that takes the batch found at position `k`: it comes after exactly `k` others. */
  ghost predicate TakenBy(w: World, more: seq<Step>, d: Domain, priority: Priority, k: nat, j: nat)
    requires d in w.procs && k < |P.QueueOf(w.procs[d], priority)| && j < |more|
  {
    var u := RunFrom(w, more[..j]);
    && Taken(w, more[..j], d, priority) == k
    && TakesFrom(u, more[j], d, priority)
    && P.QueueOf(u.procs[d], priority) != [] && P.QueueOf(u.procs[d], priority)[0] == P.QueueOf(w.procs[d], priority)[k]
  }

  lemma {:induction false} TakenEventually(w: World, more: seq<Step>, d: Domain, priority: Priority, k: nat)
    returns (j: nat)
    requires Inv(w) && d in w.procs && k < |P.QueueOf(w.procs[d], priority)| && Calm(w, more, d, priority)
    requires Taken(w, more, d, priority) > k
    ensures j < |more| && TakenBy(w, more, d, priority, k, j)
    decreases |more|
  {
    hide Inv, RunFrom, TakesFrom, Calm;
    var most := more[..|more| - 1];
    CalmBefore(w, more, d, priority);
    if Taken(w, most, d, priority) > k {
      j := TakenEventually(w, most, d, priority, k);
      assert most[..j] == more[..j];
    } else {
      j := |more| - 1;
      Forward(w, most, d, priority, k);
    }
  }

  /** Bounded waiting in every run: while nothing is inserted into the queue of a batch or evicted from
      it, a batch at position `k` moves forward by one for every batch taken there, and is itself the one
      taken after the first `k`. */
  lemma WaitsInTurn(w: World, more: seq<Step>, v: World, d: Domain, priority: Priority, k: nat)
    requires Reachable(w) && v == RunFrom(w, more) && d in w.procs && k < |P.QueueOf(w.procs[d], priority)|
    requires Calm(w, more, d, priority)
    ensures d in v.procs
    ensures var n, q := Taken(w, more, d, priority), P.QueueOf(v.procs[d], priority);
            if n <= k then k - n < |q| && q[k - n] == P.QueueOf(w.procs[d], priority)[k]
            else exists j: nat :: j < |more| && TakenBy(w, more, d, priority, k, j)
  {
    hide Reachable, Inv, TakenBy, Taken, RunFrom, Calm;
    ReachableOk(w);
    Forward(w, more, d, priority, k);
    if Taken(w, more, d, priority) > k {
      var j := TakenEventually(w, more, d, priority, k);
    }
  }

  // ----- The high queue -----

  /** As long as fewer batches than are before it were taken, every tick takes from the high queue. */
  lemma {:induction false} HighFirst(w: World, more: seq<Step>, d: Domain, k: nat)
    requires Inv(w) && d in w.procs && k < |w.procs[d].high| && Calm(w, more, d, High)
    ensures Taken(w, more, d, High) <= Ticks(w, more, d)
    ensures Taken(w, more, d, High) <= k ==> Taken(w, more, d, High) == Ticks(w, more, d)
    decreases |more|
  {
    hide Inv, RunFrom, TicksAt, Calm;
    if more != [] {
      var most := more[..|more| - 1];
      CalmBefore(w, more, d, High);
      HighFirst(w, most, d, k);
      Forward(w, most, d, High, k);
    }
  }

  /** A high batch at position `k` is taken by the successful tick number `k + 1`, whatever else happens. */
  lemma HighWaitsInTurn(w: World, more: seq<Step>, d: Domain, k: nat)
    requires Reachable(w) && d in w.procs && k < |w.procs[d].high| && Calm(w, more, d, High)
    requires Ticks(w, more, d) > k
    ensures exists j: nat :: j < |more| && TakenBy(w, more, d, High, k, j) && Ticks(w, more[..j], d) == k
  {
    hide Reachable, Inv, Taken, RunFrom, Calm, Ticks, TakesFrom;
    ReachableOk(w);
    HighFirst(w, more, d, k);
    var j := TakenEventually(w, more, d, High, k);
    CalmPrefix(w, more, d, High, j);
    HighFirst(w, more[..j], d, k);
  }

  lemma CalmPrefix(w: World, more: seq<Step>, d: Domain, priority: Priority, j: nat)
    requires Calm(w, more, d, priority) && j <= |more|
    ensures Calm(w, more[..j], d, priority)
  {
    hide Disturbed, RunFrom;
    forall i | 0 <= i < j
      ensures !Disturbed(RunFrom(w, more[..j][..i]), more[..j][i], d, priority)
    {
      assert more[..j][..i] == more[..i] && more[..j][i] == more[i];
    }
  }
}
