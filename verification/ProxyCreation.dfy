/** Creating the proxies on the far side of a bridge. A contract is waiting for an answer exactly
    while one packet that asks for the proxy is on its way, so two never are. */
module ProxyCreation {
  import opened Types
  import opened Validation
  import opened AuthorizationModel
  import P = ProcessorModel

  // ----- The processor asks for its proxy on the main domain -----

  /** A processor and the number of its create-proxy packets whose outcome is not known yet. */
  datatype Link = Link(processor: P.ProcStore, outstanding: nat)

  /** Instantiating an external processor sends the first packet. */
  function Instantiate(external: bool): Link {
    Link(P.Fresh(P.Config(if external then P.OnExternal(ProxyPending) else P.OnMain, false)), if external then 1 else 0)
  }

  /** A packet has one outcome, so an acknowledgement needs a packet. A retry that succeeds sends
      another one. Nothing else does. */
  function Follow(k: Link, input: P.Input, block: Block): Link {
    if input.ProxyAcked? && k.outstanding == 0 then k
    else
      var o := P.Serve(k.processor, input, block);
      if o.Reverted? then k
      else Link(o.store,
                if input.ProxyAcked? then k.outstanding - 1
                else if input.ProxyRetried? then k.outstanding + 1
                else k.outstanding)
  }

  function Happens(external: bool, inputs: seq<(P.Input, Block)>): Link {
    if inputs == [] then Instantiate(external)
    else
      var last := inputs[|inputs| - 1];
      Follow(Happens(external, inputs[..|inputs| - 1]), last.0, last.1)
  }

  predicate AwaitsProxy(p: P.ProcStore) { p.config.domain.OnExternal? && p.config.domain.proxy.ProxyPending? }

  ghost predicate KeepsConfig(p: P.ProcStore, o: P.Outcome) { o.Done? ==> o.store.config == p.config }

  lemma ConcludeKeeps(p: P.ProcStore, id: nat, r: ExecutionResult)
    ensures KeepsConfig(p, P.Conclude(p, id, r)) && KeepsConfig(p, P.Conclude(P.Forget(p, id), id, r))
  {
  }

  lemma HandlersKeep(p: P.ProcStore, id: nat, b: MessageBatch, error: string, block: Block, i: nat)
    ensures KeepsConfig(p, P.BatchFailed(p, id, b, error, block, i)) && KeepsConfig(p, P.FunctionSucceeded(p, i, id, b))
  {
    hide P.Conclude, P.Forget;
    ConcludeKeeps(p, id, Rejected(error));
    ConcludeKeeps(p, id, PartiallyExecuted(i, error));
    ConcludeKeeps(p, id, Success);
  }

  lemma ReplyKeeps(p: P.ProcStore, id: nat, outcome: P.SubMsgResult, block: Block)
    ensures KeepsConfig(p, P.Reply(p, id, outcome, block))
  {
    hide P.Conclude, P.BatchFailed, P.FunctionSucceeded;
    ConcludeKeeps(p, id, Success);
    if id in p.batches {
      var error := if outcome.SubErr? then outcome.error else "";
      HandlersKeep(p, id, p.batches[id], error, block, if id in p.index then p.index[id] else 0);
    }
  }

  /** A reply after the store was written to elsewhere. */
  lemma RunKeeps(p: P.ProcStore, q: P.ProcStore, id: nat, e: P.Event, outcome: P.SubMsgResult, block: Block)
    requires q.config == p.config
    ensures KeepsConfig(p, P.Reply(P.Log(q, id, e), id, outcome, block))
  {
    hide P.Reply;
    ReplyKeeps(P.Log(q, id, e), id, outcome, block);
  }

  lemma ProcessKeeps(p: P.ProcStore, from: Priority, b: MessageBatch, block: Block, outcome: P.SubMsgResult)
    ensures KeepsConfig(p, P.Process(p, from, b, block, outcome))
  {
    hide P.Conclude, P.Forget, P.Reply, P.Log, P.AtomicResult, P.BuildError;
    var i, result := P.IndexOf(p, b.id), P.AtomicResult(b, outcome);
    ConcludeKeeps(p, b.id, Expired(if b.subroutine.Atomic? then 0 else i));
    RunKeeps(p, p, b.id, P.Ran(0, block, result.SubOk?), result, block);
    RunKeeps(p, P.Dispatch(p, b, i), b.id, P.Ran(i, block, outcome.SubOk?), outcome, block);
  }

  lemma TickKeeps(p: P.ProcStore, block: Block, outcome: P.SubMsgResult)
    ensures KeepsConfig(p, P.Tick(p, block, outcome))
  {
    hide P.Process;
    var from := P.NextQueue(p);
    var q := P.QueueOf(p, from);
    if q != [] {
      ProcessKeeps(P.SetQueue(p, from, q[1..]), from, q[0], block, outcome);
    }
  }

  lemma CallbackKeeps(p: P.ProcStore, id: nat, sender: Addr, msg: Binary, block: Block)
    ensures KeepsConfig(p, P.LibraryCallback(p, id, sender, msg, block))
  {
    hide P.BatchFailed, P.FunctionSucceeded;
    if id in p.pending && id in p.index {
      HandlersKeep(P.Log(p, id, P.CalledBack(p.index[id], block, sender, msg)), id, p.pending[id].batch,
                   "Invalid callback message received", block, p.index[id]);
    }
  }

  predicate PausesOrResumes(input: P.Input) { input.Received? && (input.order.Pause? || input.order.Resume?) }

  /** Only the two calls about the proxy and the two about pausing touch the configuration. */
  lemma OthersKeep(p: P.ProcStore, input: P.Input, block: Block)
    requires !input.ProxyAcked? && !input.ProxyRetried? && !PausesOrResumes(input)
    ensures KeepsConfig(p, P.Serve(p, input, block))
  {
    hide P.Tick, P.LibraryCallback, P.Handle;
    match input
    case Ticked(outcome) => TickKeeps(p, block, outcome);
    case LibraryCalled(id, sender, msg) => CallbackKeeps(p, id, sender, msg, block);
    case Received(order) => OrderKeeps(p, order, block);
    case _ =>
  }

  lemma OrderKeeps(p: P.ProcStore, order: AuthorizationMsg, block: Block)
    requires !order.Pause? && !order.Resume?
    ensures KeepsConfig(p, P.Handle(p, order, block))
  {
    hide P.Conclude, P.Evict;
    if order.CarriesBatch() {
      ConcludeKeeps(P.Register(p, order.Batch()), order.id, Expired(0));
    }
    if order.EvictMsgs? {
      EvictKeeps(p, order.position, order.priority);
    }
  }

  lemma EvictKeeps(p: P.ProcStore, position: nat, priority: Priority)
    ensures KeepsConfig(p, P.Evict(p, position, priority))
  {
  }

  /** In every run the state is pending exactly when one packet awaits its outcome, and otherwise
      none does. */
  lemma {:induction false} OneProxyPacket(external: bool, inputs: seq<(P.Input, Block)>)
    ensures var k := Happens(external, inputs); k.outstanding == if AwaitsProxy(k.processor) then 1 else 0
    decreases |inputs|
  {
    if inputs != [] {
      var last := inputs[|inputs| - 1];
      var before := Happens(external, inputs[..|inputs| - 1]);
      OneProxyPacket(external, inputs[..|inputs| - 1]);
      OneMore(before, last.0, last.1);
    }
  }

  lemma OneMore(k: Link, input: P.Input, block: Block)
    requires k.outstanding == if AwaitsProxy(k.processor) then 1 else 0
    ensures var l := Follow(k, input, block); l.outstanding == if AwaitsProxy(l.processor) then 1 else 0
  {
    hide P.Tick, P.LibraryCallback, P.RetryCallback, P.ResultAck, P.Enqueue, P.Insert, P.Evict;
    if !input.ProxyAcked? && !input.ProxyRetried? && !PausesOrResumes(input) {
      OthersKeep(k.processor, input, block);
    }
  }

  /** What the answer to the last create-proxy packet means. Any error but a timeout and a fatal one counts as
      created, and without an answer the packet is pending. */
  function StateAfter(answer: Option<Ack>): ProxyState {
    match answer
    case None => ProxyPending
    case Some(AckOk) => ProxyCreated
    case Some(AckError(error)) => if error == TIMEOUT then ProxyTimedOut else ProxyCreated
    case Some(AckFatal(error)) => ProxyError(error)
  }

  /** The answer to the last create-proxy packet, read from the calls; asking again is only possible after a
      timeout. */
  function LastAnswer(external: bool, inputs: seq<(P.Input, Block)>): Option<Ack> {
    if inputs == [] then None
    else
      var most, input := inputs[..|inputs| - 1], inputs[|inputs| - 1].0;
      var before := LastAnswer(external, most);
      if input.ProxyAcked? && Happens(external, most).outstanding > 0 then Some(input.ack)
      else if input.ProxyRetried? && before == Some(AckError(TIMEOUT)) then None
      else before
  }

  /** In every run an external processor knows of its proxy exactly what the last answer said. */
  lemma {:induction false} ProxyIsKnown(inputs: seq<(P.Input, Block)>)
    ensures Happens(true, inputs).processor.config.domain == P.OnExternal(StateAfter(LastAnswer(true, inputs)))
    decreases |inputs|
  {
    hide P.Handle, P.Tick, P.LibraryCallback, P.RetryCallback, P.ResultAck;
    if inputs != [] {
      var most, last := inputs[..|inputs| - 1], inputs[|inputs| - 1];
      ProxyIsKnown(most);
      OneProxyPacket(true, most);
      var p := Happens(true, most).processor;
      if !last.0.ProxyAcked? && !last.0.ProxyRetried? {
        DomainKept(p, last.0, last.1);
      }
    }
  }

  lemma DomainKept(p: P.ProcStore, input: P.Input, block: Block)
    requires !input.ProxyAcked? && !input.ProxyRetried?
    ensures P.Serve(p, input, block).Done? ==> P.Serve(p, input, block).store.config.domain == p.config.domain
  {
    hide P.Tick, P.LibraryCallback, P.RetryCallback, P.ResultAck, P.Enqueue, P.Insert, P.Evict;
    if !PausesOrResumes(input) {
      OthersKeep(p, input, block);
    } else {
      assert P.Serve(p, input, block) == P.Handle(p, input.order, block);
    }
  }

  /** A processor is paused exactly from a Pause to the next Resume, and while it is, every tick fails. */
  lemma PausedIff(p: P.ProcStore, input: P.Input, block: Block)
    ensures P.Served(p, input, block).config.paused <==>
            if input == P.Received(Pause) then true
            else if input == P.Received(Resume) then false
            else p.config.paused
    ensures p.config.paused && input.Ticked? ==> P.Serve(p, input, block).Reverted?
  {
    hide P.LibraryCallback, P.RetryCallback, P.ResultAck, P.Enqueue, P.Insert, P.Evict, P.Process;
    if !input.ProxyAcked? && !input.ProxyRetried? && !PausesOrResumes(input) {
      OthersKeep(p, input, block);
    }
  }

  // ----- The authorization contract asks for a proxy on every domain it adds -----

  /** The contract and, for every domain, the number of create-proxy packets whose outcome is not
      known yet. */
  datatype Bridges = Bridges(auth: AuthStore, outstanding: map<string, nat>)

  function Outstanding(b: Bridges, name: string): nat { if name in b.outstanding then b.outstanding[name] else 0 }

  predicate Awaited(b: Bridges, name: string) {
    name in b.auth.domains && b.auth.domains[name].Cosmwasm? && b.auth.domains[name].proxy.ProxyPending?
  }

  function Administer(b: Bridges, c: TableChange, block: Block): Bridges {
    if c.BridgeAck? && Outstanding(b, c.name) == 0 then b
    else
      var o := ChangeTable(b.auth, block, c);
      if o.Refused? then b
      else Bridges(o.store,
                   match c
                   case NewDomain(name, evm) =>
                     if evm then b.outstanding else b.outstanding[name := Outstanding(b, name) + 1]
                   case RetryBridge(name) => b.outstanding[name := Outstanding(b, name) + 1]
                   case BridgeAck(name, _) => b.outstanding[name := Outstanding(b, name) - 1]
                   case _ => b.outstanding)
  }

  function Administered(changes: seq<(TableChange, Block)>): Bridges {
    if changes == [] then Bridges(Initial(), map[])
    else
      var last := changes[|changes| - 1];
      Administer(Administered(changes[..|changes| - 1]), last.0, last.1)
  }

  ghost predicate OneEach(b: Bridges) {
    forall name :: Outstanding(b, name) == if Awaited(b, name) then 1 else 0
  }

  lemma {:induction false} CreateDomains(a: AuthStore, block: Block, infos: seq<AuthorizationInfo>,
                                         libraries: set<string>)
    requires CreateAuthorizations(a, block, infos, libraries).Accepted?
    ensures CreateAuthorizations(a, block, infos, libraries).store.domains == a.domains
    decreases |infos|
  {
    hide Validate;
    if infos != [] {
      CreateDomains(CreateOne(a, block, infos[0], libraries).store, block, infos[1..], libraries);
    }
  }

  lemma {:induction false} CreateZkDomains(a: AuthStore, auths: seq<ZkAuthorization>)
    requires CreateZkAuthorizations(a, auths).Accepted?
    ensures CreateZkAuthorizations(a, auths).store.domains == a.domains
    decreases |auths|
  {
    if auths != [] {
      CreateZkDomains(CreateZkOne(a, auths[0]).store, auths[1..]);
    }
  }

  lemma AdministerKeeps(b: Bridges, c: TableChange, block: Block)
    requires OneEach(b)
    ensures OneEach(Administer(b, c, block))
  {
    hide CreateAuthorizations, CreateZkAuthorizations, Validate;
    if ChangeTable(b.auth, block, c).Accepted? {
      match c
      case Create(infos, libraries) => CreateDomains(b.auth, block, infos, libraries);
      case CreateZk(auths) => CreateZkDomains(b.auth, auths);
      case _ =>
    }
    forall name
      ensures var d := Administer(b, c, block); Outstanding(d, name) == if Awaited(d, name) then 1 else 0
    {
      assert Outstanding(b, name) == if Awaited(b, name) then 1 else 0;
    }
  }

  /** The same for every domain of the authorization contract. */
  lemma {:induction false} OneProxyPacketEach(changes: seq<(TableChange, Block)>)
    ensures OneEach(Administered(changes))
    decreases |changes|
  {
    hide Administer;
    if changes != [] {
      var last := changes[|changes| - 1];
      OneProxyPacketEach(changes[..|changes| - 1]);
      AdministerKeeps(Administered(changes[..|changes| - 1]), last.0, last.1);
    }
  }

  /** The answer to the last create-proxy packet for a domain. */
  function LastAnswerFor(changes: seq<(TableChange, Block)>, name: string): Option<Ack> {
    if changes == [] then None
    else
      var most, c := changes[..|changes| - 1], changes[|changes| - 1].0;
      var before := LastAnswerFor(most, name);
      if c.BridgeAck? && c.name == name && Outstanding(Administered(most), name) > 0 then Some(c.ack)
      else if c == RetryBridge(name) && before == Some(AckError(TIMEOUT)) then None
      else before
  }

  /** In every run the authorization contract knows of each proxy exactly what the last answer said, and nobody
      answers for a domain that is not there. */
  lemma {:induction false} ProxiesAreKnown(changes: seq<(TableChange, Block)>, name: string)
    ensures var a := Administered(changes).auth;
            if name in a.domains && a.domains[name].Cosmwasm?
            then a.domains[name].proxy == StateAfter(LastAnswerFor(changes, name))
            else LastAnswerFor(changes, name).None?
    decreases |changes|
  {
    hide ChangeTable;
    if changes != [] {
      var most, last := changes[..|changes| - 1], changes[|changes| - 1];
      ProxiesAreKnown(most, name);
      OneProxyPacketEach(most);
      var b := Administered(most);
      assert Outstanding(b, name) == if Awaited(b, name) then 1 else 0;
      ChangeOfDomain(b.auth, last.1, last.0, name);
    }
  }

  /** What a change does to one domain. */
  lemma ChangeOfDomain(a: AuthStore, block: Block, c: TableChange, name: string)
    ensures var o := ChangeTable(a, block, c);
            match c
            case NewDomain(n, evm) =>
              && (o.Accepted? <==> n !in a.domains)
              && (o.Accepted? ==>
                    o.store.domains == a.domains[n := if evm then Evm else Cosmwasm(ProxyPending)])
            case BridgeAck(n, ack) =>
              && (o.Accepted? <==> n in a.domains && a.domains[n].Cosmwasm?)
              && (o.Accepted? ==> n in o.store.domains && o.store.domains == a.domains[n := o.store.domains[n]])
              && (o.Accepted? && a.domains[n].proxy.ProxyPending? ==>
                    o.store.domains[n] == Cosmwasm(StateAfter(Some(ack))))
            case RetryBridge(n) =>
              && (o.Accepted? <==> n in a.domains && a.domains[n].Cosmwasm? && a.domains[n].proxy.ProxyTimedOut?)
              && (o.Accepted? ==> o.store.domains == a.domains[n := Cosmwasm(ProxyPending)])
            case _ => o.Accepted? ==> o.store.domains == a.domains
  {
    hide CreateAuthorizations, CreateZkAuthorizations, Validate;
    if ChangeTable(a, block, c).Accepted? {
      match c
      case Create(infos, libraries) => CreateDomains(a, block, infos, libraries);
      case CreateZk(auths) => CreateZkDomains(a, auths);
      case _ =>
    }
  }
}
