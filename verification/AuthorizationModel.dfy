/** The authorization contract as a function of its store. Each entry point maps a store to the
    store it leaves together with the messages it sends, or refuses. */
module AuthorizationModel {
  import opened Types
  import opened Validation

  datatype ZkAuthorization = ZkAuthorization(tag: Label, mode: Mode, registry: nat, validateLastBlock: bool,
                                             enabled: bool)

  datatype Initiator = Owner | User(addr: Addr)

  /** What the contract knows about one execution id. */
  datatype Record = Record(
    initiator: Initiator, domain: Domain, tag: Label, messages: seq<ProcessorMessage>,
    ttl: Option<Expiration>, result: ExecutionResult, createdAt: nat, updatedAt: nat)

  datatype AuthStore = AuthStore(
    authorizations: map<Label, Authorization>,
    zkAuthorizations: map<Label, ZkAuthorization>,
    domains: map<string, Environment>,
    nextId: nat,
    running: map<Label, nat>,
    records: map<nat, Record>,
    lastBlocks: map<nat, nat>)

  /** A message to the processor of a domain; `callback` is the id a bridge reports back. */
  datatype Call = Call(domain: Domain, msg: AuthorizationMsg, callback: Option<nat>)

  /** Messages to the token factory and the bank, about the token of a label. */
  datatype TokenMsg =
    | CreateDenom(tag: Label)
    | Mint(tag: Label, to: Addr, amount: nat)
    | Burn(tag: Label)
    | Refund(tag: Label, to: Addr)

  datatype AuthOutcome =
    | Accepted(store: AuthStore, call: Option<Call>, tokens: seq<TokenMsg>)
    | Refused(error: AuthError)

  function Initial(): AuthStore {
    AuthStore(map[], map[], map[], 0, map[], map[], map[])
  }

  predicate LabelKnown(a: AuthStore, tag: Label) { tag in a.authorizations || tag in a.zkAuthorizations }

  function ModeOf(a: AuthStore, tag: Label): Option<Mode> {
    if tag in a.authorizations then Some(a.authorizations[tag].mode)
    else if tag in a.zkAuthorizations then Some(a.zkAuthorizations[tag].mode)
    else None
  }

  function Running(a: AuthStore, tag: Label): nat {
    if tag in a.running then a.running[tag] else 0
  }

  /** The counter is 64 bits wide and wraps around. */
  function NextId(id: nat): nat { (id + 1) % (U64_MAX + 1) }

  function DomainOf(s: Subroutine): Option<Domain> {
    if s.Calls() == [] then None else Some(s.Calls()[0].domain)
  }

  /** The deadline of a batch sent at this second. A lifetime that would overflow 64 bits is no lifetime
      at all. */
  function DeadlineAt(s: Subroutine, second: nat): Option<nat> {
    if s.lifetime.None? || s.lifetime.value + second > U64_MAX then None else Some(s.lifetime.value + second)
  }

  function Deadline(s: Subroutine, block: Block): Option<nat> { DeadlineAt(s, block.Seconds()) }

  /** Counts one more running execution and records it under a new id. */
  function Start(a: AuthStore, block: Block, initiator: Initiator, domain: Domain, tag: Label,
                 ttl: Option<Expiration>, msgs: seq<ProcessorMessage>): AuthStore {
    var r := Record(initiator, domain, tag, msgs, ttl, InProcess, block.Seconds(), block.Seconds());
    a.(running := a.running[tag := Running(a, tag) + 1],
       nextId := NextId(a.nextId),
       records := a.records[a.nextId := r])
  }

  function SendMsgs(a: AuthStore, block: Block, sender: Addr, tag: Label, ttl: Option<Expiration>,
                    msgs: seq<ProcessorMessage>, paid: Option<nat>, balance: nat): AuthOutcome {
    if tag !in a.authorizations then Refused(LabelMissing)
    else
      var auth := a.authorizations[tag];
      var error := ExecutionError(auth, block, paid, balance, msgs);
      var domain := DomainOf(auth.subroutine);
      if error.Some? then Refused(error.value)
      else if Running(a, tag) >= auth.maxConcurrent then Refused(MaxConcurrentReached)
      else if domain.None? then Refused(NoFunctions)
      else if !Registered(domain.value, a.domains) then Refused(NotFound)
      else
        var msg := EnqueueMsgs(a.nextId, msgs, auth.subroutine, auth.priority, Deadline(auth.subroutine, block));
        Accepted(Start(a, block, User(sender), domain.value, tag, ttl, msgs),
                 Some(Call(domain.value, msg, Some(a.nextId))), [])
  }

  function InsertMessages(a: AuthStore, block: Block, tag: Label, position: nat, priority: Priority,
                          msgs: seq<ProcessorMessage>): AuthOutcome {
    if tag !in a.authorizations then Refused(LabelMissing)
    else
      var auth := a.authorizations[tag];
      var error := ValidateMessages(auth.subroutine, msgs);
      var domain := DomainOf(auth.subroutine);
      if error.Some? then Refused(BadMessage(error.value))
      else if domain.None? then Refused(NoFunctions)
      else if !Registered(domain.value, a.domains) then Refused(NotFound)
      else
        var msg := InsertMsgs(a.nextId, position, msgs, auth.subroutine, priority, Deadline(auth.subroutine, block));
        Accepted(Start(a, block, Owner, domain.value, tag, None, msgs),
                 Some(Call(domain.value, msg, Some(a.nextId))), [])
  }

  /** The message of a proof, with the id it came with replaced. */
  function AssignId(m: AuthorizationMsg, id: nat): AuthorizationMsg {
    if m.CarriesBatch() then m.(id := id) else m
  }

  datatype ZkMessage = ZkMessage(registry: nat, blockNumber: nat, domain: Domain, forUs: bool, msg: AuthorizationMsg)

  function LastBlock(a: AuthStore, registry: nat): nat {
    if registry in a.lastBlocks then a.lastBlocks[registry] else 0
  }

  /** What happens once the proof of `zk` has been accepted. */
  function ExecuteZk(a: AuthStore, block: Block, sender: Addr, tag: Label, zk: ZkMessage,
                     paid: Option<nat>, balance: nat): AuthOutcome {
    if tag !in a.zkAuthorizations then Refused(LabelMissing)
    else
      var auth := a.zkAuthorizations[tag];
      var error := PermissionError(auth.mode, paid, balance);
      if !auth.enabled then Refused(NotEnabled)
      else if error.Some? then Refused(error.value)
      else if zk.registry != auth.registry || !zk.forUs then Refused(ZkRefused)
      else if !Registered(zk.domain, a.domains) then Refused(NotFound)
      else if !RunsCosmwasm(zk.domain, a.domains) then Refused(ZkRefused)
      else if auth.validateLastBlock && LastBlock(a, auth.registry) >= zk.blockNumber then Refused(ZkRefused)
      else
        var a1 := if auth.validateLastBlock
                  then a.(lastBlocks := a.lastBlocks[auth.registry := zk.blockNumber]) else a;
        if zk.msg.CarriesBatch() then
          Accepted(Start(a1, block, User(sender), zk.domain, tag, None, zk.msg.msgs),
                   Some(Call(zk.domain, AssignId(zk.msg, a.nextId), Some(a.nextId))), [])
        else Accepted(a1, Some(Call(zk.domain, zk.msg, None)), [])
  }

  /** Whether a user paid a token for this call. */
  predicate PaysToken(a: AuthStore, r: Record) {
    r.initiator.User? && ModeOf(a, r.tag).Some? && ModeOf(a, r.tag).value.WithCallLimit?
  }

  function RetryMsgs(a: AuthStore, block: Block, id: nat): AuthOutcome {
    if id !in a.records then Refused(IdMissing)
    else
      var r := a.records[id];
      if r.result != Timeout(true) then Refused(NotRetriable)
      else if r.ttl.Some? && !r.ttl.value.IsExpired(block) then
        if r.tag !in a.running || r.tag !in a.authorizations then Refused(NotFound)
        else
          var auth := a.authorizations[r.tag];
          if a.running[r.tag] >= auth.maxConcurrent then Refused(MaxConcurrentReached)
          else if !Registered(r.domain, a.domains) then Refused(NotFound)
          else
            var msg := EnqueueMsgs(id, r.messages, auth.subroutine, auth.priority, Deadline(auth.subroutine, block));
            var r' := r.(result := InProcess, updatedAt := block.Seconds());
            Accepted(a.(running := a.running[r.tag := a.running[r.tag] + 1], records := a.records[id := r']),
                     Some(Call(r.domain, msg, Some(id))), [])
      else if r.tag !in a.authorizations then Refused(NotFound)
      else if PaysToken(a, r) then
        var r' := r.(result := Timeout(false), updatedAt := block.Seconds());
        Accepted(a.(records := a.records[id := r']), None, [Refund(r.tag, r.initiator.addr)])
      else Accepted(a, None, [])
  }

  /** Records how an execution ended and counts it as no longer running. */
  function Close(a: AuthStore, block: Block, id: nat, result: ExecutionResult): AuthStore
    requires id in a.records
  {
    var r := a.records[id];
    a.(records := a.records[id := r.(result := result, updatedAt := block.Seconds())],
       running := a.running[r.tag := if Running(a, r.tag) == 0 then 0 else Running(a, r.tag) - 1])
  }

  /** Results for which the token is burned; for all others it goes back. */
  predicate Burns(result: ExecutionResult) {
    result.Success? || result.PartiallyExecuted? || result.RemovedByOwner?
  }

  function ProcessorCallback(a: AuthStore, block: Block, id: nat, result: ExecutionResult): AuthOutcome {
    if id !in a.records then Refused(NotFound)
    else
      var r := a.records[id];
      if Running(a, r.tag) == 0 then Refused(CountIsZero)
      else if ModeOf(a, r.tag).None? then Refused(LabelMissing)
      else
        Accepted(Close(a, block, id, result), None,
                 if !PaysToken(a, r) then []
                 else if Burns(result) then [Burn(r.tag)]
                 else [Refund(r.tag, r.initiator.addr)])
  }

  /** What the bridge tells about the packet of `id`. An error is only looked at while the id is in
      process; a fatal error always is. */
  function BridgeCallback(a: AuthStore, block: Block, id: nat, ack: Ack): AuthOutcome {
    if id !in a.records then Refused(NotFound)
    else
      var r := a.records[id];
      if r.domain.Main? then Refused(WrongSender)
      else match ack
      case AckOk => Accepted(a, None, [])
      case AckFatal(error) =>
        if Running(a, r.tag) == 0 then Refused(CountIsZero)
        else Accepted(Close(a, block, id, UnexpectedError(error)), None, [])
      case AckError(error) =>
        if !r.result.InProcess? then Accepted(a, None, [])
        else if error != TIMEOUT then
          if Running(a, r.tag) == 0 then Refused(CountIsZero)
          else Accepted(Close(a, block, id, UnexpectedError(error)), None, [])
        else
          var expired := r.ttl.None? || r.ttl.value.IsExpired(block);
          if expired && ModeOf(a, r.tag).None? then Refused(LabelMissing)
          else if Running(a, r.tag) == 0 then Refused(CountIsZero)
          else
            Accepted(Close(a, block, id, Timeout(!expired)), None,
                     if expired && PaysToken(a, r) then [Refund(r.tag, r.initiator.addr)] else [])
  }

  // ----- The owner's table -----

  datatype Lifespan = Forever | Seconds(n: nat) | Blocks(n: nat)

  datatype AuthorizationInfo = AuthorizationInfo(
    tag: Label, mode: Mode, notBefore: Expiration, lifespan: Lifespan, maxConcurrent: Option<nat>,
    subroutine: Subroutine, priority: Option<Priority>)
  {
    function ToAuthorization(block: Block): Authorization {
      var expiration := match lifespan
                        case Forever => Never
                        case Seconds(n) => AtTime(block.time + n * NANOS)
                        case Blocks(n) => AtHeight(block.height + n);
      Authorization(tag, mode, notBefore, expiration,
                    if maxConcurrent.None? then 1 else maxConcurrent.value,
                    subroutine, if priority.None? then Medium else priority.value, true)
    }
  }

  /** The tokens that come with a label: `limit` each for a limited call, one each otherwise. */
  function Issue(tag: Label, mode: Mode): seq<TokenMsg> {
    match mode
    case Permissionless => []
    case WithCallLimit(limits) =>
      [CreateDenom(tag)] + seq(|limits|, i requires 0 <= i < |limits| => Mint(tag, limits[i].0, limits[i].1))
    case WithoutCallLimit(addrs) =>
      [CreateDenom(tag)] + seq(|addrs|, i requires 0 <= i < |addrs| => Mint(tag, addrs[i], 1))
  }

  function CreateOne(a: AuthStore, block: Block, info: AuthorizationInfo, libraries: set<string>): AuthOutcome {
    var auth := info.ToAuthorization(block);
    var error := Validate(auth, a.domains, libraries);
    if LabelKnown(a, info.tag) then Refused(LabelExists)
    else if error.Some? then Refused(error.value)
    else Accepted(a.(authorizations := a.authorizations[info.tag := auth]), None, Issue(info.tag, info.mode))
  }

  function CreateAuthorizations(a: AuthStore, block: Block, infos: seq<AuthorizationInfo>,
                                libraries: set<string>): AuthOutcome
    decreases |infos|
  {
    if infos == [] then Accepted(a, None, [])
    else
      match CreateOne(a, block, infos[0], libraries)
      case Refused(e) => Refused(e)
      case Accepted(a1, _, tokens) =>
        match CreateAuthorizations(a1, block, infos[1..], libraries)
        case Refused(e) => Refused(e)
        case Accepted(a2, _, more) => Accepted(a2, None, tokens + more)
  }

  function CreateZkOne(a: AuthStore, auth: ZkAuthorization): AuthOutcome {
    if LabelKnown(a, auth.tag) then Refused(LabelExists)
    else if auth.tag == "" then Refused(EmptyLabel)
    else
      Accepted(a.(zkAuthorizations := a.zkAuthorizations[auth.tag := auth.(enabled := true)]), None,
               Issue(auth.tag, auth.mode))
  }

  function CreateZkAuthorizations(a: AuthStore, auths: seq<ZkAuthorization>): AuthOutcome
    decreases |auths|
  {
    if auths == [] then Accepted(a, None, [])
    else
      match CreateZkOne(a, auths[0])
      case Refused(e) => Refused(e)
      case Accepted(a1, _, tokens) =>
        match CreateZkAuthorizations(a1, auths[1..])
        case Refused(e) => Refused(e)
        case Accepted(a2, _, more) => Accepted(a2, None, tokens + more)
  }

  datatype Changes = Changes(notBefore: Option<Expiration>, expiration: Option<Expiration>,
                             maxConcurrent: Option<nat>, priority: Option<Priority>)

  function Changed(auth: Authorization, c: Changes): Authorization {
    auth.(notBefore := if c.notBefore.Some? then c.notBefore.value else auth.notBefore,
          expiration := if c.expiration.Some? then c.expiration.value else auth.expiration,
          maxConcurrent := if c.maxConcurrent.Some? then c.maxConcurrent.value else auth.maxConcurrent,
          priority := if c.priority.Some? then c.priority.value else auth.priority)
  }

  function ModifyAuthorization(a: AuthStore, tag: Label, c: Changes, libraries: set<string>): AuthOutcome {
    if tag !in a.authorizations then Refused(LabelMissing)
    else
      var auth := Changed(a.authorizations[tag], c);
      var error := Validate(auth, a.domains, libraries);
      if error.Some? then Refused(error.value)
      else Accepted(a.(authorizations := a.authorizations[tag := auth]), None, [])
  }

  function SetEnabled(a: AuthStore, tag: Label, enabled: bool): AuthOutcome {
    if tag in a.authorizations then
      Accepted(a.(authorizations := a.authorizations[tag := a.authorizations[tag].(enabled := enabled)]), None, [])
    else if tag in a.zkAuthorizations then
      Accepted(a.(zkAuthorizations :=
                  a.zkAuthorizations[tag := a.zkAuthorizations[tag].(enabled := enabled)]), None, [])
    else Refused(LabelMissing)
  }

  function MintAuthorizations(a: AuthStore, tag: Label, mints: seq<(Addr, nat)>): AuthOutcome {
    if ModeOf(a, tag).None? then Refused(LabelMissing)
    else if ModeOf(a, tag).value.Permissionless? then Refused(CannotMint)
    else Accepted(a, None, seq(|mints|, i requires 0 <= i < |mints| => Mint(tag, mints[i].0, mints[i].1)))
  }

  // ----- External domains -----

  function AddDomain(a: AuthStore, name: string, evm: bool): AuthOutcome {
    if name in a.domains then Refused(DomainExists)
    else Accepted(a.(domains := a.domains[name := if evm then Evm else Cosmwasm(ProxyPending)]), None, [])
  }

  /** How the packet that creates the proxy of the domain ended. */
  function ProxyCallback(a: AuthStore, name: string, ack: Ack): AuthOutcome {
    if name !in a.domains then Refused(NotFound)
    else if a.domains[name].Evm? then Refused(WrongSender)
    else
      var proxy := if ack == AckError(TIMEOUT) && a.domains[name].proxy.ProxyPending? then ProxyTimedOut
                   else if ack.AckFatal? then ProxyError(ack.error)
                   else ProxyCreated;
      Accepted(a.(domains := a.domains[name := Cosmwasm(proxy)]), None, [])
  }

  function RetryBridgeCreation(a: AuthStore, name: string): AuthOutcome {
    if name !in a.domains then Refused(NotFound)
    else if a.domains[name].Evm? then Refused(BridgeNotRequired)
    else if !a.domains[name].proxy.ProxyTimedOut? then Refused(BridgeNotTimedOut)
    else Accepted(a.(domains := a.domains[name := Cosmwasm(ProxyPending)]), None, [])
  }

  // ----- All entry points -----

  /** What the owner can change, and how bridges answer. */
  datatype TableChange =
    | Create(infos: seq<AuthorizationInfo>, libraries: set<string>)
    | CreateZk(auths: seq<ZkAuthorization>)
    | Modify(tag: Label, changes: Changes, libraries: set<string>)
    | Enable(tag: Label, enabled: bool)
    | Grant(tag: Label, mints: seq<(Addr, nat)>)
    | NewDomain(name: string, evm: bool)
    | BridgeAck(name: string, ack: Ack)
    | RetryBridge(name: string)

  function ChangeTable(a: AuthStore, block: Block, c: TableChange): AuthOutcome {
    match c
    case Create(infos, libraries) => CreateAuthorizations(a, block, infos, libraries)
    case CreateZk(auths) => CreateZkAuthorizations(a, auths)
    case Modify(tag, changes, libraries) => ModifyAuthorization(a, tag, changes, libraries)
    case Enable(tag, enabled) => SetEnabled(a, tag, enabled)
    case Grant(tag, mints) => MintAuthorizations(a, tag, mints)
    case NewDomain(name, evm) => AddDomain(a, name, evm)
    case BridgeAck(name, ack) => ProxyCallback(a, name, ack)
    case RetryBridge(name) => RetryBridgeCreation(a, name)
  }

  /** Everything that can be asked of the contract. */
  datatype Request =
    | SendRequest(sender: Addr, tag: Label, ttl: Option<Expiration>, msgs: seq<ProcessorMessage>, paid: Option<nat>,
                  balance: nat)
    | InsertRequest(tag: Label, position: nat, priority: Priority, msgs: seq<ProcessorMessage>)
    | ProofRequest(sender: Addr, tag: Label, zk: ZkMessage, paid: Option<nat>, balance: nat)
    | RetryRequest(id: nat)
    | ResultRequest(id: nat, result: ExecutionResult)
    | BridgeRequest(id: nat, ack: Ack)
    | TableRequest(change: TableChange)

  function Answer(a: AuthStore, request: Request, block: Block): AuthOutcome {
    match request
    case SendRequest(sender, tag, ttl, msgs, paid, balance) => SendMsgs(a, block, sender, tag, ttl, msgs, paid, balance)
    case InsertRequest(tag, position, priority, msgs) => InsertMessages(a, block, tag, position, priority, msgs)
    case ProofRequest(sender, tag, zk, paid, balance) => ExecuteZk(a, block, sender, tag, zk, paid, balance)
    case RetryRequest(id) => RetryMsgs(a, block, id)
    case ResultRequest(id, result) => ProcessorCallback(a, block, id, result)
    case BridgeRequest(id, ack) => BridgeCallback(a, block, id, ack)
    case TableRequest(change) => ChangeTable(a, block, change)
  }
}
