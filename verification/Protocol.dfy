/** The whole system: the authorization contract, one processor per domain, the tokens, and the
    packets between them. A step is one transaction on one chain. Whatever the outside decides
    (what a dispatched message does, how a packet ends, what the time is) is part of the step, so
    a run is just a list of steps. A transaction that fails changes nothing.

    Domains are the main one and those reached through Polytone. On the main domain a message to
    the processor and the result it reports are executed in the same transaction. On the others
    they travel in packets; each packet has exactly one outcome, and only the outcome AckOk means
    that it was applied. */
module Protocol {
  import opened Types
  import opened AuthorizationModel
  import P = ProcessorModel

  /** The address of the authorization contract. */
  const SELF: Addr := "authorization"

  /** The token of one label. `stranded` counts the tokens the contract holds that no call paid:
      donations, and payments for calls that open no record. */
  datatype Denom = Denom(holders: multiset<Addr>, minted: nat, burned: nat, stranded: nat)

  type Bank = map<Label, Denom>

  function Balance(bank: Bank, tag: Label, who: Addr): nat {
    if tag in bank then bank[tag].holders[who] else 0
  }

  function MintTo(d: Denom, to: Addr, amount: nat): Denom {
    d.(holders := d.holders[to := d.holders[to] + amount],
       minted := d.minted + amount,
       stranded := d.stranded + if to == SELF then amount else 0)
  }

  /** What the token factory and the bank do with a message; None when they refuse it. */
  function RunToken(bank: Bank, m: TokenMsg): Option<Bank> {
    match m
    case CreateDenom(tag) => if tag in bank then None else Some(bank[tag := Denom(multiset{}, 0, 0, 0)])
    case Mint(tag, to, amount) => if tag !in bank then None else Some(bank[tag := MintTo(bank[tag], to, amount)])
    case Burn(tag) =>
      if Balance(bank, tag, SELF) == 0 then None
      else Some(bank[tag := bank[tag].(holders := bank[tag].holders - multiset{SELF}, burned := bank[tag].burned + 1)])
    case Refund(tag, to) =>
      if Balance(bank, tag, SELF) == 0 then None
      else Some(bank[tag := bank[tag].(holders := bank[tag].holders - multiset{SELF} + multiset{to})])
  }

  function RunTokens(bank: Bank, ms: seq<TokenMsg>): Option<Bank>
    decreases |ms|
  {
    if ms == [] then Some(bank)
    else match RunToken(bank, ms[0])
         case None => None
         case Some(b) => RunTokens(b, ms[1..])
  }

  function Moved(d: Denom, from: Addr, to: Addr, amount: nat): multiset<Addr>
    requires amount <= d.holders[from]
  {
    var less := d.holders[from := d.holders[from] - amount];
    less[to := less[to] + amount]
  }

  /** Tokens attached to a call. They are stranded unless the call they pay for opens a record. */
  function Pay(bank: Bank, tag: Label, from: Addr, paid: Option<nat>, backed: bool): Option<Bank> {
    if paid.None? then Some(bank)
    else if Balance(bank, tag, from) < paid.value || tag !in bank then None
    else
      var d := bank[tag];
      Some(bank[tag := d.(holders := Moved(d, from, SELF, paid.value),
                          stranded := d.stranded + if backed then 0 else paid.value)])
  }

  datatype Flight = InFlight | Landed(ack: Ack)

  /** A packet about the execution `id`, between the main domain and `domain`. */
  datatype Packet<T> = Packet(id: nat, domain: Domain, body: T, flight: Flight)

  /** `refunded` and `burnt` are history variables: the ids whose token was sent back or burned. */
  datatype World = World(
    auth: AuthStore,
    bank: Bank,
    procs: map<Domain, P.ProcStore>,
    outs: seq<Packet<AuthorizationMsg>>,
    ins: seq<Packet<ExecutionResult>>,
    refunded: multiset<nat>,
    burnt: multiset<nat>)

  /** How the channel ends a packet. Only a packet that arrives is executed. */
  datatype Delivery = Arrives | Breaks(error: string) | Collapses(error: string) | TimesOut

  function NotDelivered(d: Delivery): Ack
    requires !d.Arrives?
  {
    match d
    case Breaks(error) => AckError(error)
    case Collapses(error) => AckFatal(error)
    case TimesOut => AckError(TIMEOUT)
  }

  datatype Action =
    | Send(sender: Addr, tag: Label, ttl: Option<Expiration>, msgs: seq<ProcessorMessage>, paid: Option<nat>)
    | Insert(tag: Label, position: nat, priority: Priority, msgs: seq<ProcessorMessage>)
    | Prove(sender: Addr, tag: Label, zk: ZkMessage, paid: Option<nat>)
    | Retry(id: nat)
    | DeliverOut(n: nat, delivery: Delivery)
    | AckOut(n: nat)
    | DeliverIn(n: nat, delivery: Delivery)
    | AckIn(n: nat)
    | AtProcessor(domain: Domain, input: P.Input)
    | Administer(change: TableChange)
    | Transfer(tag: Label, from: Addr, to: Addr, amount: nat)

  datatype Step = Step(block: Block, action: Action)

  function Or(w: Option<World>, otherwise: World): World { if w.Some? then w.value else otherwise }

  // ----- Inside a transaction -----

  function RefundsOf(id: nat, tokens: seq<TokenMsg>): multiset<nat> {
    if tokens != [] && tokens[0].Refund? then multiset{id} else multiset{}
  }

  function BurnsOf(id: nat, tokens: seq<TokenMsg>): multiset<nat> {
    if tokens != [] && tokens[0].Burn? then multiset{id} else multiset{}
  }

  /** Token messages that settle the call `id`. */
  function Settle(w: World, id: nat, tokens: seq<TokenMsg>): Option<World> {
    match RunTokens(w.bank, tokens)
    case None => None
    case Some(bank) =>
      Some(w.(bank := bank,
              refunded := w.refunded + RefundsOf(id, tokens),
              burnt := w.burnt + BurnsOf(id, tokens)))
  }

  /** The authorization contract handles a result or a bridge callback for `id`. */
  function Apply(w: World, id: nat, o: AuthOutcome): Option<World> {
    if o.Refused? then None else Settle(w.(auth := o.store), id, o.tokens)
  }

  /** The result a processor reported leaves it: in a packet, or at once on the main domain. */
  function Emit(w: World, d: Domain, report: Option<P.Report>, block: Block): Option<World> {
    if report.None? then Some(w)
    else if d.Main? then
      Apply(w, report.value.id, ProcessorCallback(w.auth, block, report.value.id, report.value.result))
    else Some(w.(ins := w.ins + [Packet(report.value.id, d, report.value.result, InFlight)]))
  }

  /** A processor has run an entry point. */
  function After(w: World, d: Domain, o: P.Outcome, block: Block): Option<World> {
    if o.Reverted? then None else Emit(w.(procs := w.procs[d := o.store]), d, o.report, block)
  }

  /** A message leaves for a processor. Messages that carry no batch are not tracked by anyone;
      their arrival on another domain is an AtProcessor step at any later time. */
  function Dispatch(w: World, call: Call, block: Block): Option<World> {
    if call.domain !in w.procs then None
    else if call.domain.Main? then After(w, Main, P.Handle(w.procs[Main], call.msg, block), block)
    else if call.callback.None? then Some(w)
    else Some(w.(outs := w.outs + [Packet(call.callback.value, call.domain, call.msg, InFlight)]))
  }

  function Opened(w: World, o: AuthOutcome, block: Block): Option<World> {
    if o.Refused? || o.call.None? then None
    else Dispatch(w.(auth := o.store), o.call.value, block)
  }

  // ----- Transactions -----

  /** Ids are allocated below the largest 64-bit number, so the counter never wraps. */
  predicate IdsLeft(w: World) { w.auth.nextId < U64_MAX }

  predicate ReachesProcessor(w: World, s: Subroutine) {
    DomainOf(s).Some? && DomainOf(s).value in w.procs
  }

  function DoSend(w: World, block: Block, a: Action): Option<World>
    requires a.Send?
  {
    if a.tag !in w.auth.authorizations || a.sender == SELF || !IdsLeft(w) ||
       !ReachesProcessor(w, w.auth.authorizations[a.tag].subroutine) then None
    else
      match Pay(w.bank, a.tag, a.sender, a.paid, w.auth.authorizations[a.tag].mode.WithCallLimit?)
      case None => None
      case Some(bank) =>
        Opened(w.(bank := bank),
               SendMsgs(w.auth, block, a.sender, a.tag, a.ttl, a.msgs, a.paid, Balance(bank, a.tag, a.sender)),
               block)
  }

  function DoInsert(w: World, block: Block, a: Action): Option<World>
    requires a.Insert?
  {
    if a.tag !in w.auth.authorizations || !IdsLeft(w) ||
       !ReachesProcessor(w, w.auth.authorizations[a.tag].subroutine) then None
    else Opened(w, InsertMessages(w.auth, block, a.tag, a.position, a.priority, a.msgs), block)
  }

  function DoProve(w: World, block: Block, a: Action): Option<World>
    requires a.Prove?
  {
    if a.tag !in w.auth.zkAuthorizations || a.sender == SELF || !IdsLeft(w) then None
    else
      match Pay(w.bank, a.tag, a.sender, a.paid,
                w.auth.zkAuthorizations[a.tag].mode.WithCallLimit? && a.zk.msg.CarriesBatch())
      case None => None
      case Some(bank) =>
        Opened(w.(bank := bank),
               ExecuteZk(w.auth, block, a.sender, a.tag, a.zk, a.paid, Balance(bank, a.tag, a.sender)),
               block)
  }

  function DoRetry(w: World, block: Block, id: nat): Option<World> {
    var o := RetryMsgs(w.auth, block, id);
    if o.Refused? then None
    else if o.call.Some? then Opened(w, o, block)
    else Apply(w, id, o)
  }

  function LandOut(w: World, n: nat, ack: Ack): World
    requires n < |w.outs|
  {
    w.(outs := w.outs[..n] + [w.outs[n].(flight := Landed(ack))] + w.outs[n + 1..])
  }

  function DoDeliverOut(w: World, block: Block, n: nat, delivery: Delivery): Option<World> {
    if n >= |w.outs| || !w.outs[n].flight.InFlight? || w.outs[n].domain !in w.procs then None
    else if !delivery.Arrives? then Some(LandOut(w, n, NotDelivered(delivery)))
    else
      var o := P.Handle(w.procs[w.outs[n].domain], w.outs[n].body, block);
      if o.Reverted? then Some(LandOut(w, n, AckError("execution failed")))
      else After(LandOut(w, n, AckOk), w.outs[n].domain, o, block)
  }

  /** A callback that the contract refuses is dropped. */
  function DoAckOut(w: World, block: Block, n: nat): Option<World> {
    if n >= |w.outs| || !w.outs[n].flight.Landed? then None
    else
      var w1 := w.(outs := w.outs[..n] + w.outs[n + 1..]);
      var id := w.outs[n].id;
      Some(Or(Apply(w1, id, BridgeCallback(w.auth, block, id, w.outs[n].flight.ack)), w1))
  }

  function LandIn(w: World, n: nat, ack: Ack): World
    requires n < |w.ins|
  {
    w.(ins := w.ins[..n] + [w.ins[n].(flight := Landed(ack))] + w.ins[n + 1..])
  }

  function DoDeliverIn(w: World, block: Block, n: nat, delivery: Delivery): Option<World> {
    if n >= |w.ins| || !w.ins[n].flight.InFlight? then None
    else if !delivery.Arrives? then Some(LandIn(w, n, NotDelivered(delivery)))
    else
      var k := w.ins[n];
      var w1 := Apply(LandIn(w, n, AckOk), k.id, ProcessorCallback(w.auth, block, k.id, k.body));
      Some(Or(w1, LandIn(w, n, AckError("callback refused"))))
  }

  function DoAckIn(w: World, n: nat): Option<World> {
    if n >= |w.ins| || !w.ins[n].flight.Landed? || w.ins[n].domain !in w.procs then None
    else
      var k := w.ins[n];
      var w1 := w.(ins := w.ins[..n] + w.ins[n + 1..]);
      var o := P.ResultAck(w.procs[k.domain], k.id, k.flight.ack);
      Some(if o.Done? then w1.(procs := w1.procs[k.domain := o.store]) else w1)
  }

  /** What may reach a processor on its own. Batches and acknowledgements travel in packets, and a
      library calls back only for a batch that waits for it, that is, one in neither queue. */
  predicate MayReach(p: P.ProcStore, input: P.Input) {
    match input
    case Received(order) => !order.CarriesBatch()
    case LibraryCalled(id, _, _) => !P.QueueHas(p, id)
    case ResultAcked(_, _) => false
    case _ => true
  }

  function DoAtProcessor(w: World, block: Block, d: Domain, input: P.Input): Option<World> {
    if d !in w.procs || !MayReach(w.procs[d], input) then None
    else After(w, d, P.Serve(w.procs[d], input, block), block)
  }

  /** A new CosmWasm domain comes with its processor. */
  function DoAdminister(w: World, block: Block, c: TableChange): Option<World> {
    var o := ChangeTable(w.auth, block, c);
    if o.Refused? then None
    else
      match RunTokens(w.bank, o.tokens)
      case None => None
      case Some(bank) =>
        Some(w.(auth := o.store, bank := bank,
                procs := if c.NewDomain? && !c.evm
                         then w.procs[External(c.name) := P.Fresh(P.Config(P.OnExternal(ProxyPending), false))]
                         else w.procs))
  }

  /** Tokens change hands; those sent to the contract are stranded. */
  function DoTransfer(w: World, tag: Label, from: Addr, to: Addr, amount: nat): Option<World> {
    if tag !in w.bank || from == SELF || amount > w.bank[tag].holders[from] then None
    else
      var d := w.bank[tag];
      Some(w.(bank := w.bank[tag := d.(holders := Moved(d, from, to, amount),
                                       stranded := d.stranded + if to == SELF then amount else 0)]))
  }

  function TryStep(w: World, s: Step): Option<World> {
    match s.action
    case Send(_, _, _, _, _) => DoSend(w, s.block, s.action)
    case Insert(_, _, _, _) => DoInsert(w, s.block, s.action)
    case Prove(_, _, _, _) => DoProve(w, s.block, s.action)
    case Retry(id) => DoRetry(w, s.block, id)
    case DeliverOut(n, delivery) => DoDeliverOut(w, s.block, n, delivery)
    case AckOut(n) => DoAckOut(w, s.block, n)
    case DeliverIn(n, delivery) => DoDeliverIn(w, s.block, n, delivery)
    case AckIn(n) => DoAckIn(w, n)
    case AtProcessor(d, input) => DoAtProcessor(w, s.block, d, input)
    case Administer(change) => DoAdminister(w, s.block, change)
    case Transfer(tag, from, to, amount) => DoTransfer(w, tag, from, to, amount)
  }

  function Next(w: World, s: Step): World { Or(TryStep(w, s), w) }

  function Genesis(): World {
    World(Initial(), map[], map[Main := P.Fresh(P.Config(P.OnMain, false))], [], [], multiset{}, multiset{})
  }

  function RunFrom(w: World, steps: seq<Step>): World {
    if steps == [] then w else Next(RunFrom(w, steps[..|steps| - 1]), steps[|steps| - 1])
  }

  function Run(steps: seq<Step>): World { RunFrom(Genesis(), steps) }

  /** A world that some run leads to. */
  ghost predicate Reachable(w: World) { exists steps :: w == Run(steps) }
}
