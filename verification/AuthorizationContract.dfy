/** The authorization contract as an object that updates its storage in place. Every handler is
    proved against the function of the model that describes it, and Execute says exactly when a request
    keeps the invariant of the store. Where a handler refuses, the chain discards what it wrote, so only
    the error is promised then. */
module AuthorizationContracts {
  import opened Types
  import opened Validation
  import opened AuthorizationModel
  import AI = AuthorizationInvariant

  datatype Response = Sends(call: Option<Call>, tokens: seq<TokenMsg>) | Refuses(error: AuthError)

  ghost predicate Does(o: AuthOutcome, now: AuthStore, r: Response) {
    match r
    case Sends(call, tokens) => o == Accepted(now, call, tokens)
    case Refuses(error) => o == Refused(error)
  }

  /** What a loop has left to do: the outcome of the rest, after the tokens issued so far. */
  function Following(tokens: seq<TokenMsg>, o: AuthOutcome): AuthOutcome {
    match o
    case Refused(e) => Refused(e)
    case Accepted(a, call, more) => Accepted(a, call, tokens + more)
  }

  lemma CreateFirst(a: AuthStore, block: Block, infos: seq<AuthorizationInfo>, libraries: set<string>,
                    tokens: seq<TokenMsg>)
    requires infos != []
    ensures var o := CreateOne(a, block, infos[0], libraries);
            Following(tokens, CreateAuthorizations(a, block, infos, libraries)) ==
              if o.Refused? then Refused(o.error)
              else Following(tokens + o.tokens, CreateAuthorizations(o.store, block, infos[1..], libraries))
  {
    hide CreateOne;
    var o := CreateOne(a, block, infos[0], libraries);
    if o.Accepted? {
      var rest := CreateAuthorizations(o.store, block, infos[1..], libraries);
      if rest.Accepted? {
        CreateCallsNothing(o.store, block, infos[1..], libraries);
        assert tokens + (o.tokens + rest.tokens) == tokens + o.tokens + rest.tokens;
      }
    }
  }

  lemma CreateCallsNothing(a: AuthStore, block: Block, infos: seq<AuthorizationInfo>, libraries: set<string>)
    requires CreateAuthorizations(a, block, infos, libraries).Accepted?
    ensures CreateAuthorizations(a, block, infos, libraries).call.None?
  {
    hide CreateOne;
  }

  lemma CreateZkFirst(a: AuthStore, auths: seq<ZkAuthorization>, tokens: seq<TokenMsg>)
    requires auths != []
    ensures var o := CreateZkOne(a, auths[0]);
            Following(tokens, CreateZkAuthorizations(a, auths)) ==
              if o.Refused? then Refused(o.error)
              else Following(tokens + o.tokens, CreateZkAuthorizations(o.store, auths[1..]))
  {
    hide CreateZkOne;
    var o := CreateZkOne(a, auths[0]);
    if o.Accepted? {
      var rest := CreateZkAuthorizations(o.store, auths[1..]);
      if rest.Accepted? {
        CreateZkCallsNothing(o.store, auths[1..]);
        assert tokens + (o.tokens + rest.tokens) == tokens + o.tokens + rest.tokens;
      }
    }
  }

  lemma CreateZkCallsNothing(a: AuthStore, auths: seq<ZkAuthorization>)
    requires CreateZkAuthorizations(a, auths).Accepted?
    ensures CreateZkAuthorizations(a, auths).call.None?
  {
    hide CreateZkOne;
  }

  lemma NothingBefore(o: AuthOutcome)
    ensures Following([], o) == o
  {
    if o.Accepted? {
      assert [] + o.tokens == o.tokens;
    }
  }

  lemma CreatesNothing(a: AuthStore, block: Block, libraries: set<string>)
    ensures CreateAuthorizations(a, block, [], libraries) == Accepted(a, None, [])
  {
  }

  lemma CreatesNoZk(a: AuthStore)
    ensures CreateZkAuthorizations(a, []) == Accepted(a, None, [])
  {
  }

  class Contract {
    var authorizations: map<Label, Authorization>
    var zkAuthorizations: map<Label, ZkAuthorization>
    var domains: map<string, Environment>
    var nextId: nat
    var running: map<Label, nat>
    var records: map<nat, Record>
    var lastBlocks: map<nat, nat>

    ghost function Store(): AuthStore
      reads this
    {
      AuthStore(authorizations, zkAuthorizations, domains, nextId, running, records, lastBlocks)
    }

    constructor ()
      ensures Store() == Initial()
    {
      authorizations, zkAuthorizations, domains := map[], map[], map[];
      nextId, running, records, lastBlocks := 0, map[], map[], map[];
    }

    // ----- Ids, counts and records -----

    method GetAndIncreaseExecutionId() returns (id: nat)
      modifies this`nextId
      ensures id == old(nextId) && nextId == NextId(id)
    {
      id := nextId;
      nextId := NextId(nextId);
    }

    method IncreaseCount(tag: Label)
      modifies this`running
      ensures running == old(running)[tag := Running(old(Store()), tag) + 1]
    {
      running := running[tag := (if tag in running then running[tag] else 0) + 1];
    }

    /** Refused, with nothing changed, when the count is zero. */
    method DecreaseCount(tag: Label) returns (ok: bool)
      modifies this`running
      ensures ok == (Running(old(Store()), tag) > 0)
      ensures ok ==> running == old(running)[tag := Running(old(Store()), tag) - 1]
      ensures !ok ==> running == old(running)
    {
      var count := if tag in running then running[tag] else 0;
      if count == 0 {
        return false;
      }
      running := running[tag := count - 1];
      ok := true;
    }

    method StoreInprocessCallback(block: Block, id: nat, initiator: Initiator, domain: Domain, tag: Label,
                                  ttl: Option<Expiration>, msgs: seq<ProcessorMessage>)
      modifies this`records
      ensures records ==
              old(records)[id := Record(initiator, domain, tag, msgs, ttl, InProcess, block.Seconds(), block.Seconds())]
    {
      records := records[id := Record(initiator, domain, tag, msgs, ttl, InProcess, block.Seconds(), block.Seconds())];
    }

    // ----- Calls -----

    method ExecuteSend(block: Block, sender: Addr, tag: Label, ttl: Option<Expiration>,
                       msgs: seq<ProcessorMessage>, paid: Option<nat>, balance: nat) returns (r: Response)
      modifies this
      ensures Does(SendMsgs(old(Store()), block, sender, tag, ttl, msgs, paid, balance), Store(), r)
    {
      hide ExecutionError;
      if tag !in authorizations {
        return Refuses(LabelMissing);
      }
      var auth := authorizations[tag];
      var error := ExecutionError(auth, block, paid, balance, msgs);
      if error.Some? {
        return Refuses(error.value);
      }
      var count := if tag in running then running[tag] else 0;
      if count >= auth.maxConcurrent {
        return Refuses(MaxConcurrentReached);
      }
      IncreaseCount(tag);
      var domain := DomainOf(auth.subroutine);
      if domain.None? {
        return Refuses(NoFunctions);
      }
      var id := GetAndIncreaseExecutionId();
      if !Registered(domain.value, domains) {
        return Refuses(NotFound);
      }
      var msg := EnqueueMsgs(id, msgs, auth.subroutine, auth.priority, Deadline(auth.subroutine, block));
      StoreInprocessCallback(block, id, User(sender), domain.value, tag, ttl, msgs);
      r := Sends(Some(Call(domain.value, msg, Some(id))), []);
    }

    method ExecuteInsert(block: Block, tag: Label, position: nat, priority: Priority, msgs: seq<ProcessorMessage>)
      returns (r: Response)
      modifies this
      ensures Does(InsertMessages(old(Store()), block, tag, position, priority, msgs), Store(), r)
    {
      hide ValidateMessages;
      if tag !in authorizations {
        return Refuses(LabelMissing);
      }
      var auth := authorizations[tag];
      var error := ValidateMessages(auth.subroutine, msgs);
      if error.Some? {
        return Refuses(BadMessage(error.value));
      }
      IncreaseCount(tag);
      var domain := DomainOf(auth.subroutine);
      if domain.None? {
        return Refuses(NoFunctions);
      }
      var id := GetAndIncreaseExecutionId();
      if !Registered(domain.value, domains) {
        return Refuses(NotFound);
      }
      var msg := InsertMsgs(id, position, msgs, auth.subroutine, priority, Deadline(auth.subroutine, block));
      StoreInprocessCallback(block, id, Initiator.Owner, domain.value, tag, None, msgs);
      r := Sends(Some(Call(domain.value, msg, Some(id))), []);
    }

    /** After the proof has been accepted. */
    method ExecuteProof(block: Block, sender: Addr, tag: Label, zk: ZkMessage, paid: Option<nat>, balance: nat)
      returns (r: Response)
      modifies this
      ensures Does(ExecuteZk(old(Store()), block, sender, tag, zk, paid, balance), Store(), r)
    {
      if tag !in zkAuthorizations {
        return Refuses(LabelMissing);
      }
      var auth := zkAuthorizations[tag];
      if !auth.enabled {
        return Refuses(NotEnabled);
      }
      var error := PermissionError(auth.mode, paid, balance);
      if error.Some? {
        return Refuses(error.value);
      }
      if zk.registry != auth.registry || !zk.forUs {
        return Refuses(ZkRefused);
      }
      if !Registered(zk.domain, domains) {
        return Refuses(NotFound);
      }
      if !RunsCosmwasm(zk.domain, domains) {
        return Refuses(ZkRefused);
      }
      if auth.validateLastBlock {
        var last := if auth.registry in lastBlocks then lastBlocks[auth.registry] else 0;
        if last >= zk.blockNumber {
          return Refuses(ZkRefused);
        }
        lastBlocks := lastBlocks[auth.registry := zk.blockNumber];
      }
      if zk.msg.EnqueueMsgs? || zk.msg.InsertMsgs? {
        IncreaseCount(tag);
        var id := GetAndIncreaseExecutionId();
        StoreInprocessCallback(block, id, User(sender), zk.domain, tag, None, zk.msg.msgs);
        r := Sends(Some(Call(zk.domain, AssignId(zk.msg, id), Some(id))), []);
      } else {
        r := Sends(Some(Call(zk.domain, zk.msg, None)), []);
      }
    }

    method ExecuteRetry(block: Block, id: nat) returns (r: Response)
      modifies this
      ensures Does(RetryMsgs(old(Store()), block, id), Store(), r)
    {
      if id !in records {
        return Refuses(IdMissing);
      }
      var rec := records[id];
      if rec.result != Timeout(true) {
        return Refuses(NotRetriable);
      }
      if rec.ttl.Some? && !rec.ttl.value.IsExpired(block) {
        if rec.tag !in running || rec.tag !in authorizations {
          return Refuses(NotFound);
        }
        var auth := authorizations[rec.tag];
        if running[rec.tag] >= auth.maxConcurrent {
          return Refuses(MaxConcurrentReached);
        }
        running := running[rec.tag := running[rec.tag] + 1];
        if !Registered(rec.domain, domains) {
          return Refuses(NotFound);
        }
        var msg := EnqueueMsgs(id, rec.messages, auth.subroutine, auth.priority, Deadline(auth.subroutine, block));
        records := records[id := rec.(result := InProcess, updatedAt := block.Seconds())];
        r := Sends(Some(Call(rec.domain, msg, Some(id))), []);
      } else {
        if rec.tag !in authorizations {
          return Refuses(NotFound);
        }
        if rec.initiator.User? && authorizations[rec.tag].mode.WithCallLimit? {
          records := records[id := rec.(result := Timeout(false), updatedAt := block.Seconds())];
          r := Sends(None, [Refund(rec.tag, rec.initiator.addr)]);
        } else {
          r := Sends(None, []);
        }
      }
    }

    // ----- Results -----

    method ProcessProcessorCallback(block: Block, id: nat, result: ExecutionResult) returns (r: Response)
      modifies this
      ensures Does(ProcessorCallback(old(Store()), block, id, result), Store(), r)
    {
      if id !in records {
        return Refuses(NotFound);
      }
      var rec := records[id].(result := result, updatedAt := block.Seconds());
      records := records[id := rec];
      var ok := DecreaseCount(rec.tag);
      if !ok {
        return Refuses(CountIsZero);
      }
      var mode := ModeOf(AuthStore(authorizations, zkAuthorizations, domains, nextId, running, records,
                                   lastBlocks), rec.tag);
      if mode.None? {
        return Refuses(LabelMissing);
      }
      var tokens := [];
      if rec.initiator.User? && mode.value.WithCallLimit? {
        tokens := if Burns(result) then [Burn(rec.tag)] else [Refund(rec.tag, rec.initiator.addr)];
      }
      r := Sends(None, tokens);
    }

    method ProcessPolytoneCallback(block: Block, id: nat, ack: Ack) returns (r: Response)
      modifies this
      ensures Does(BridgeCallback(old(Store()), block, id, ack), Store(), r)
    {
      if id !in records {
        return Refuses(NotFound);
      }
      var rec := records[id];
      if rec.domain.Main? {
        return Refuses(WrongSender);
      }
      var tokens, result := [], rec.result;
      match ack {
        case AckOk =>
          return Sends(None, []);
        case AckError(error) =>
          if !rec.result.InProcess? {
            return Sends(None, []);
          }
          var expired := rec.ttl.None? || rec.ttl.value.IsExpired(block);
          if error == TIMEOUT {
            if expired {
              var mode := ModeOf(AuthStore(authorizations, zkAuthorizations, domains, nextId, running, records,
                                           lastBlocks), rec.tag);
              if mode.None? {
                return Refuses(LabelMissing);
              }
              if rec.initiator.User? && mode.value.WithCallLimit? {
                tokens := [Refund(rec.tag, rec.initiator.addr)];
              }
            }
            result := Timeout(!expired);
          } else {
            result := UnexpectedError(error);
          }
        case AckFatal(error) =>
          result := UnexpectedError(error);
      }
      records := records[id := rec.(result := result, updatedAt := block.Seconds())];
      var ok := DecreaseCount(rec.tag);
      if !ok {
        return Refuses(CountIsZero);
      }
      r := Sends(None, tokens);
    }

    // ----- The owner's table -----

    method IssueTokens(tag: Label, mode: Mode) returns (ms: seq<TokenMsg>)
      ensures ms == Issue(tag, mode)
    {
      ms := [];
      match mode
      case Permissionless =>
      case WithCallLimit(limits) =>
        ms := [CreateDenom(tag)];
        for i := 0 to |limits|
          invariant ms == [CreateDenom(tag)] + seq(i, j requires 0 <= j < i => Mint(tag, limits[j].0, limits[j].1))
        {
          ms := ms + [Mint(tag, limits[i].0, limits[i].1)];
        }
      case WithoutCallLimit(addrs) =>
        ms := [CreateDenom(tag)];
        for i := 0 to |addrs|
          invariant ms == [CreateDenom(tag)] + seq(i, j requires 0 <= j < i => Mint(tag, addrs[j], 1))
        {
          ms := ms + [Mint(tag, addrs[i], 1)];
        }
    }

    method Create(block: Block, infos: seq<AuthorizationInfo>, libraries: set<string>) returns (r: Response)
      modifies this
      ensures Does(CreateAuthorizations(old(Store()), block, infos, libraries), Store(), r)
    {
      hide CreateAuthorizations, Validate, Issue;
      ghost var was := Store();
      var tokens := [];
      NothingBefore(CreateAuthorizations(was, block, infos, libraries));
      assert infos[0..] == infos;
      for i := 0 to |infos|
        invariant CreateAuthorizations(was, block, infos, libraries) ==
                  Following(tokens, CreateAuthorizations(Store(), block, infos[i..], libraries))
      {
        CreateFirst(Store(), block, infos[i..], libraries, tokens);
        assert infos[i..][1..] == infos[i + 1..];
        var auth := infos[i].ToAuthorization(block);
        if auth.tag in authorizations || auth.tag in zkAuthorizations {
          return Refuses(LabelExists);
        }
        var error := Validate(auth, domains, libraries);
        if error.Some? {
          return Refuses(error.value);
        }
        var issued := IssueTokens(auth.tag, auth.mode);
        tokens := tokens + issued;
        authorizations := authorizations[auth.tag := auth];
      }
      CreatesNothing(Store(), block, libraries);
      r := Sends(None, tokens);
    }

    method CreateZk(auths: seq<ZkAuthorization>) returns (r: Response)
      modifies this
      ensures Does(CreateZkAuthorizations(old(Store()), auths), Store(), r)
    {
      hide CreateZkAuthorizations, Issue;
      ghost var was := Store();
      var tokens := [];
      NothingBefore(CreateZkAuthorizations(was, auths));
      assert auths[0..] == auths;
      for i := 0 to |auths|
        invariant CreateZkAuthorizations(was, auths) == Following(tokens, CreateZkAuthorizations(Store(), auths[i..]))
      {
        CreateZkFirst(Store(), auths[i..], tokens);
        assert auths[i..][1..] == auths[i + 1..];
        var auth := auths[i].(enabled := true);
        if auth.tag in authorizations || auth.tag in zkAuthorizations {
          return Refuses(LabelExists);
        }
        if auth.tag == "" {
          return Refuses(EmptyLabel);
        }
        var issued := IssueTokens(auth.tag, auth.mode);
        tokens := tokens + issued;
        zkAuthorizations := zkAuthorizations[auth.tag := auth];
      }
      CreatesNoZk(Store());
      r := Sends(None, tokens);
    }

    method Modify(tag: Label, c: Changes, libraries: set<string>) returns (r: Response)
      modifies this`authorizations
      ensures Does(ModifyAuthorization(old(Store()), tag, c, libraries), Store(), r)
    {
      hide Validate;
      if tag !in authorizations {
        return Refuses(LabelMissing);
      }
      var auth := authorizations[tag];
      if c.notBefore.Some? {
        auth := auth.(notBefore := c.notBefore.value);
      }
      if c.expiration.Some? {
        auth := auth.(expiration := c.expiration.value);
      }
      if c.maxConcurrent.Some? {
        auth := auth.(maxConcurrent := c.maxConcurrent.value);
      }
      if c.priority.Some? {
        auth := auth.(priority := c.priority.value);
      }
      var error := Validate(auth, domains, libraries);
      if error.Some? {
        return Refuses(error.value);
      }
      authorizations := authorizations[tag := auth];
      r := Sends(None, []);
    }

    method Switch(tag: Label, enabled: bool) returns (r: Response)
      modifies this`authorizations, this`zkAuthorizations
      ensures Does(SetEnabled(old(Store()), tag, enabled), Store(), r)
    {
      if tag in authorizations {
        authorizations := authorizations[tag := authorizations[tag].(enabled := enabled)];
      } else if tag in zkAuthorizations {
        zkAuthorizations := zkAuthorizations[tag := zkAuthorizations[tag].(enabled := enabled)];
      } else {
        return Refuses(LabelMissing);
      }
      r := Sends(None, []);
    }

    method Grant(tag: Label, mints: seq<(Addr, nat)>) returns (r: Response)
      ensures Does(MintAuthorizations(Store(), tag, mints), Store(), r)
    {
      var mode := ModeOf(AuthStore(authorizations, zkAuthorizations, domains, nextId, running, records,
                                   lastBlocks), tag);
      if mode.None? {
        return Refuses(LabelMissing);
      }
      if mode.value.Permissionless? {
        return Refuses(CannotMint);
      }
      var tokens := [];
      for i := 0 to |mints|
        invariant tokens == seq(i, j requires 0 <= j < i => Mint(tag, mints[j].0, mints[j].1))
      {
        tokens := tokens + [Mint(tag, mints[i].0, mints[i].1)];
      }
      r := Sends(None, tokens);
    }

    // ----- External domains -----

    method AddExternalDomain(name: string, evm: bool) returns (r: Response)
      modifies this`domains
      ensures Does(AddDomain(old(Store()), name, evm), Store(), r)
    {
      if name in domains {
        return Refuses(DomainExists);
      }
      domains := domains[name := if evm then Evm else Cosmwasm(ProxyPending)];
      r := Sends(None, []);
    }

    method ProcessProxyCallback(name: string, ack: Ack) returns (r: Response)
      modifies this`domains
      ensures Does(ProxyCallback(old(Store()), name, ack), Store(), r)
    {
      if name !in domains {
        return Refuses(NotFound);
      }
      if domains[name].Evm? {
        return Refuses(WrongSender);
      }
      if ack == AckError(TIMEOUT) && domains[name].proxy.ProxyPending? {
        domains := domains[name := Cosmwasm(ProxyTimedOut)];
      } else if ack.AckFatal? {
        domains := domains[name := Cosmwasm(ProxyError(ack.error))];
      } else {
        domains := domains[name := Cosmwasm(ProxyCreated)];
      }
      r := Sends(None, []);
    }

    method RetryProxy(name: string) returns (r: Response)
      modifies this`domains
      ensures Does(RetryBridgeCreation(old(Store()), name), Store(), r)
    {
      if name !in domains {
        return Refuses(NotFound);
      }
      if domains[name].Evm? {
        return Refuses(BridgeNotRequired);
      }
      if !domains[name].proxy.ProxyTimedOut? {
        return Refuses(BridgeNotTimedOut);
      }
      domains := domains[name := Cosmwasm(ProxyPending)];
      r := Sends(None, []);
    }

    // ----- All entry points -----

    method ChangeTables(block: Block, c: TableChange) returns (r: Response)
      modifies this
      ensures Does(ChangeTable(old(Store()), block, c), Store(), r)
    {
      hide CreateAuthorizations, CreateZkAuthorizations, ModifyAuthorization, SetEnabled, MintAuthorizations, AddDomain,
           ProxyCallback, RetryBridgeCreation;
      match c
      case Create(infos, libraries) => r := this.Create(block, infos, libraries);
      case CreateZk(auths) => r := this.CreateZk(auths);
      case Modify(tag, changes, libraries) => r := this.Modify(tag, changes, libraries);
      case Enable(tag, enabled) => r := Switch(tag, enabled);
      case Grant(tag, mints) => r := this.Grant(tag, mints);
      case NewDomain(name, evm) => r := AddExternalDomain(name, evm);
      case BridgeAck(name, ack) => r := ProcessProxyCallback(name, ack);
      case RetryBridge(name) => r := RetryProxy(name);
    }

    /** Any request. The invariant of the store is kept exactly by the requests that fit. */
    method Execute(request: Request, block: Block) returns (r: Response)
      modifies this
      ensures Does(Answer(old(Store()), request, block), Store(), r)
      ensures AI.Inv(old(Store())) && r.Sends? ==> (AI.Inv(Store()) <==> AI.Fitting(old(Store()), request))
    {
      hide SendMsgs, InsertMessages, ExecuteZk, RetryMsgs, ProcessorCallback, BridgeCallback, ChangeTable,
           AI.Inv, AI.Fitting;
      ghost var was := Store();
      match request {
        case SendRequest(sender, tag, ttl, msgs, paid, balance) =>
          r := ExecuteSend(block, sender, tag, ttl, msgs, paid, balance);
        case InsertRequest(tag, position, priority, msgs) => r := ExecuteInsert(block, tag, position, priority, msgs);
        case ProofRequest(sender, tag, zk, paid, balance) => r := ExecuteProof(block, sender, tag, zk, paid, balance);
        case RetryRequest(id) => r := ExecuteRetry(block, id);
        case ResultRequest(id, result) => r := ProcessProcessorCallback(block, id, result);
        case BridgeRequest(id, ack) => r := ProcessPolytoneCallback(block, id, ack);
        case TableRequest(change) => r := ChangeTables(block, change);
      }
      if AI.Inv(was) && r.Sends? {
        AI.AnswerKeepsIff(was, request, block);
      }
    }
  }
}
