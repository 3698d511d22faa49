/** The invariant of the authorization store: its table, its ids, its records and its counts. */
module AuthorizationInvariant {
  import opened Types
  import opened Validation
  import opened AuthorizationModel

  // ----- The table -----

  ghost predicate TableOk(a: AuthStore) {
    && (forall t :: t in a.authorizations ==>
        a.authorizations[t].tag == t && WellFormed(a.authorizations[t], a.domains))
    && (forall t :: t in a.zkAuthorizations ==> a.zkAuthorizations[t].tag == t && t != "")
    && a.authorizations.Keys !! a.zkAuthorizations.Keys
  }

  // ----- Records and counts -----

  function RunningIds(records: map<nat, Record>, tag: Label): set<nat> {
    set id | id in records && records[id].tag == tag && records[id].result.InProcess?
  }

  /** The ids of a label that are still in process. */
  ghost function InProcessIds(a: AuthStore, tag: Label): set<nat> { RunningIds(a.records, tag) }

  ghost predicate CountsOk(a: AuthStore) {
    forall t: Label :: Running(a, t) == |InProcessIds(a, t)|
  }

  ghost predicate IdsOk(a: AuthStore) {
    forall id: nat :: id in a.records <==> id < a.nextId
  }

  /** What is true of every record at all times. */
  ghost predicate RecordOk(a: AuthStore, r: Record) {
    && LabelKnown(a, r.tag) && r.tag in a.running
    && Registered(r.domain, a.domains)
    && (r.ttl.Some? ==> r.initiator.User? && r.tag in a.authorizations)
    && (r.result == Timeout(true) ==> r.ttl.Some?)
    && (r.result.Timeout? || r.result.UnexpectedError? ==> !r.domain.Main?)
    && (r.tag in a.authorizations ==>
          && DomainOf(a.authorizations[r.tag].subroutine) == Some(r.domain)
          && ValidateMessages(a.authorizations[r.tag].subroutine, r.messages).None?)
  }

  ghost predicate RecordsOk(a: AuthStore) {
    forall id :: id in a.records ==> RecordOk(a, a.records[id])
  }

  ghost predicate Inv(a: AuthStore) {
    TableOk(a) && IdsOk(a) && RecordsOk(a) && CountsOk(a)
  }

  lemma InitialOk()
    ensures Inv(Initial())
  {
    assert forall t: Label :: InProcessIds(Initial(), t) == {};
  }

  /** A batch sent at one second is late at a block exactly when more than the lifetime of its subroutine
      has passed; a lifetime that overflows never does. */
  lemma LateIff(b: MessageBatch, sent: nat, now: Block)
    requires b.expirationTime == DeadlineAt(b.subroutine, sent)
    ensures b.IsLate(now) <==>
              && b.subroutine.lifetime.Some?
              && sent + b.subroutine.lifetime.value <= U64_MAX
              && now.Seconds() - sent > b.subroutine.lifetime.value
  {
  }

  // ----- One record changes -----

  lemma RunningIdsUpdate(records: map<nat, Record>, id: nat, r: Record, tag: Label)
    ensures RunningIds(records[id := r], tag) ==
            (RunningIds(records, tag) - {id}) + (if r.tag == tag && r.result.InProcess? then {id} else {})
  {
  }

  /** How the counts must follow when the record of `id` becomes `r`. */
  lemma CountsFollow(a: AuthStore, id: nat, r: Record, running: map<Label, nat>)
    requires CountsOk(a)
    requires id in a.records ==> a.records[id].tag == r.tag
    requires var was := id in a.records && a.records[id].result.InProcess?;
             && (forall t: Label :: t != r.tag ==>
                 (t in running <==> t in a.running) && (t in running ==> running[t] == a.running[t]))
             && (if r.tag in running then running[r.tag] else 0) ==
                  Running(a, r.tag) - (if was then 1 else 0) + (if r.result.InProcess? then 1 else 0)
    ensures CountsOk(a.(records := a.records[id := r], running := running))
  {
    hide RunningIds;
    var a' := a.(records := a.records[id := r], running := running);
    forall t: Label
      ensures Running(a', t) == |InProcessIds(a', t)|
    {
      RunningIdsUpdate(a.records, id, r, t);
      RunningIdsHas(a.records, id, t);
      assert Running(a, t) == |InProcessIds(a, t)|;
    }
  }

  lemma RunningIdsHas(records: map<nat, Record>, id: nat, tag: Label)
    ensures id in RunningIds(records, tag) <==> id in records && records[id].tag == tag && records[id].result.InProcess?
  {
  }

  /** The count of a label with a record in process is not zero. */
  lemma CountPositive(a: AuthStore, id: nat)
    requires CountsOk(a) && id in a.records && a.records[id].result.InProcess?
    ensures Running(a, a.records[id].tag) > 0
  {
    assert Running(a, a.records[id].tag) == |InProcessIds(a, a.records[id].tag)|;
    assert id in InProcessIds(a, a.records[id].tag);
  }

  // ----- Start, close, reopen -----

  lemma StartKeeps(a: AuthStore, block: Block, initiator: Initiator, domain: Domain, tag: Label,
                   ttl: Option<Expiration>, msgs: seq<ProcessorMessage>)
    requires Inv(a) && a.nextId < U64_MAX
    requires LabelKnown(a, tag) && Registered(domain, a.domains)
    requires ttl.Some? ==> initiator.User? && tag in a.authorizations
    requires tag in a.authorizations ==>
               && DomainOf(a.authorizations[tag].subroutine) == Some(domain)
               && ValidateMessages(a.authorizations[tag].subroutine, msgs).None?
    ensures Inv(Start(a, block, initiator, domain, tag, ttl, msgs))
    ensures Start(a, block, initiator, domain, tag, ttl, msgs).nextId == a.nextId + 1
    ensures a.nextId !in a.records
  {
    hide WellFormed, RunningIds, ValidateMessages, DomainOf;
    var a' := Start(a, block, initiator, domain, tag, ttl, msgs);
    CountsFollow(a, a.nextId, a'.records[a.nextId], a'.running);
    CountsSame(a.(records := a'.records, running := a'.running), a');
    forall id | id in a'.records
      ensures RecordOk(a', a'.records[id])
    {
      if id != a.nextId {
        assert RecordOk(a, a.records[id]);
      }
    }
  }

  lemma CountsSame(a: AuthStore, b: AuthStore)
    requires CountsOk(a) && a.records == b.records && a.running == b.running
    ensures CountsOk(b)
  {
    forall t: Label
      ensures Running(b, t) == |InProcessIds(b, t)|
    {
      assert Running(a, t) == |InProcessIds(a, t)|;
    }
  }

  /** Closing an id that is in process. */
  lemma CloseKeeps(a: AuthStore, block: Block, id: nat, result: ExecutionResult)
    requires Inv(a) && id in a.records && a.records[id].result.InProcess?
    requires !result.InProcess?
    requires result == Timeout(true) ==> a.records[id].ttl.Some?
    requires result.Timeout? || result.UnexpectedError? ==> !a.records[id].domain.Main?
    ensures Inv(Close(a, block, id, result))
    ensures Running(a, a.records[id].tag) > 0
  {
    hide WellFormed, RunningIds, ValidateMessages, DomainOf;
    var a' := Close(a, block, id, result);
    CountPositive(a, id);
    CountsFollow(a, id, a'.records[id], a'.running);
    assert RecordOk(a, a.records[id]);
    forall k | k in a'.records
      ensures RecordOk(a', a'.records[k])
    {
      assert RecordOk(a, a.records[k]);
    }
  }

  /** Changing the result of a record that is not in process, without opening it. */
  lemma RewriteKeeps(a: AuthStore, id: nat, r: Record)
    requires Inv(a) && id in a.records && !a.records[id].result.InProcess?
    requires r == a.records[id].(result := r.result, updatedAt := r.updatedAt)
    requires r.result == Timeout(false) && a.records[id].result == Timeout(true)
    ensures Inv(a.(records := a.records[id := r]))
  {
    hide WellFormed, RunningIds, ValidateMessages, DomainOf;
    var a' := a.(records := a.records[id := r]);
    CountsFollow(a, id, r, a.running);
    forall k | k in a'.records
      ensures RecordOk(a', a'.records[k])
    {
      assert RecordOk(a, a.records[k]);
    }
  }

  /** A timed-out id goes back into process. */
  lemma ReopenKeeps(a: AuthStore, block: Block, id: nat)
    requires Inv(a) && id in a.records && a.records[id].result == Timeout(true)
    requires a.records[id].tag in a.running
    ensures var r := a.records[id];
            Inv(a.(running := a.running[r.tag := a.running[r.tag] + 1],
                   records := a.records[id := r.(result := InProcess, updatedAt := block.Seconds())]))
  {
    hide WellFormed, RunningIds, ValidateMessages, DomainOf;
    var r := a.records[id];
    var r' := r.(result := InProcess, updatedAt := block.Seconds());
    var a' := a.(running := a.running[r.tag := a.running[r.tag] + 1], records := a.records[id := r']);
    CountsFollow(a, id, r', a'.running);
    forall k | k in a'.records
      ensures RecordOk(a', a'.records[k])
    {
      assert RecordOk(a, a.records[k]);
    }
  }

  // ----- The table changes -----

  /** The table and the domains may grow; what a stored entry means to its records stays. */
  ghost predicate Grows(a: AuthStore, b: AuthStore) {
    && b.records == a.records && b.nextId == a.nextId && b.running == a.running
    && (forall t :: t in a.authorizations ==>
          && t in b.authorizations
          && b.authorizations[t].subroutine == a.authorizations[t].subroutine
          && b.authorizations[t].mode == a.authorizations[t].mode)
    && (forall t :: t in a.zkAuthorizations ==>
          t in b.zkAuthorizations && b.zkAuthorizations[t].mode == a.zkAuthorizations[t].mode)
    && (forall n :: n in a.domains ==> n in b.domains && b.domains[n].Cosmwasm? == a.domains[n].Cosmwasm?)
    && b.authorizations.Keys !! b.zkAuthorizations.Keys
  }

  lemma GrowsKeeps(a: AuthStore, b: AuthStore)
    requires Inv(a) && Grows(a, b) && TableOk(b)
    ensures Inv(b)
  {
    hide WellFormed, RunningIds, ValidateMessages, DomainOf;
    CountsSame(a, b);
    forall k | k in b.records
      ensures RecordOk(b, b.records[k])
    {
      assert RecordOk(a, a.records[k]);
    }
  }

  lemma GrowsTransitive(a: AuthStore, b: AuthStore, c: AuthStore)
    requires Grows(a, b) && Grows(b, c)
    ensures Grows(a, c)
  {
  }

  lemma CreateOneKeeps(a: AuthStore, block: Block, info: AuthorizationInfo, libraries: set<string>)
    requires TableOk(a) && CreateOne(a, block, info, libraries).Accepted?
    ensures var b := CreateOne(a, block, info, libraries).store; TableOk(b) && Grows(a, b) && b.domains == a.domains
  {
    hide WellFormed, Validate;
    ValidateIff(info.ToAuthorization(block), a.domains, libraries);
  }

  lemma {:induction false} CreateKeeps(a: AuthStore, block: Block, infos: seq<AuthorizationInfo>,
                                       libraries: set<string>)
    requires TableOk(a) && CreateAuthorizations(a, block, infos, libraries).Accepted?
    ensures var b := CreateAuthorizations(a, block, infos, libraries).store;
            TableOk(b) && Grows(a, b) && b.domains == a.domains
    decreases |infos|
  {
    hide WellFormed, CreateOne, Grows;
    if infos == [] {
      GrowsReflexive(a);
    } else {
      CreateOneKeeps(a, block, infos[0], libraries);
      var a1 := CreateOne(a, block, infos[0], libraries).store;
      CreateKeeps(a1, block, infos[1..], libraries);
      GrowsTransitive(a, a1, CreateAuthorizations(a1, block, infos[1..], libraries).store);
    }
  }

  lemma GrowsReflexive(a: AuthStore)
    requires TableOk(a)
    ensures Grows(a, a)
  {
  }

  lemma {:induction false} CreateZkKeeps(a: AuthStore, auths: seq<ZkAuthorization>)
    requires TableOk(a) && CreateZkAuthorizations(a, auths).Accepted?
    ensures var b := CreateZkAuthorizations(a, auths).store; TableOk(b) && Grows(a, b) && b.domains == a.domains
    decreases |auths|
  {
    hide WellFormed;
    if auths != [] {
      var a1 := CreateZkOne(a, auths[0]).store;
      assert TableOk(a1) && Grows(a, a1);
      CreateZkKeeps(a1, auths[1..]);
      GrowsTransitive(a, a1, CreateZkAuthorizations(a1, auths[1..]).store);
    }
  }

  lemma ReplaceKeeps(a: AuthStore, tag: Label, auth: Authorization)
    requires TableOk(a) && tag in a.authorizations
    requires auth.tag == tag && WellFormed(auth, a.domains)
    requires auth.subroutine == a.authorizations[tag].subroutine && auth.mode == a.authorizations[tag].mode
    ensures var b := a.(authorizations := a.authorizations[tag := auth]); TableOk(b) && Grows(a, b)
  {
    hide WellFormed;
  }

  lemma ModifyKeeps(a: AuthStore, tag: Label, c: Changes, libraries: set<string>)
    requires TableOk(a) && ModifyAuthorization(a, tag, c, libraries).Accepted?
    ensures var b := ModifyAuthorization(a, tag, c, libraries).store; TableOk(b) && Grows(a, b)
  {
    hide WellFormed, Validate, Grows;
    ValidateIff(Changed(a.authorizations[tag], c), a.domains, libraries);
    ReplaceKeeps(a, tag, Changed(a.authorizations[tag], c));
  }

  lemma EnabledWellFormed(auth: Authorization, domains: map<string, Environment>, enabled: bool)
    requires WellFormed(auth, domains)
    ensures WellFormed(auth.(enabled := enabled), domains)
  {
    hide WellFormedCall;
  }

  lemma EnableKeeps(a: AuthStore, tag: Label, enabled: bool)
    requires TableOk(a) && SetEnabled(a, tag, enabled).Accepted?
    ensures var b := SetEnabled(a, tag, enabled).store; TableOk(b) && Grows(a, b)
  {
    hide WellFormed;
    if tag in a.authorizations {
      EnabledWellFormed(a.authorizations[tag], a.domains, enabled);
      ReplaceKeeps(a, tag, a.authorizations[tag].(enabled := enabled));
    }
  }

  /** New domains and new proxy states leave every stored authorization well formed. */
  lemma DomainsKeep(a: AuthStore, domains: map<string, Environment>)
    requires TableOk(a)
    requires forall n :: n in a.domains ==> n in domains && domains[n].Cosmwasm? == a.domains[n].Cosmwasm?
    ensures TableOk(a.(domains := domains)) && Grows(a, a.(domains := domains))
  {
    hide LegalRestrictions;
    var b := a.(domains := domains);
    forall t | t in b.authorizations
      ensures WellFormed(b.authorizations[t], domains)
    {
      var calls := b.authorizations[t].subroutine.Calls();
      assert WellFormed(a.authorizations[t], a.domains);
      forall i | 0 <= i < |calls|
        ensures calls[i].domain == calls[0].domain && WellFormedCall(calls[i], domains)
      {
        assert WellFormedCall(calls[i], a.domains);
      }
    }
  }

  // ----- Entry points -----

  /** Opening a record keeps the invariant exactly when the id counter does not wrap around. */
  lemma StartKeepsIff(a: AuthStore, block: Block, initiator: Initiator, domain: Domain, tag: Label,
                      ttl: Option<Expiration>, msgs: seq<ProcessorMessage>)
    requires Inv(a) && LabelKnown(a, tag) && Registered(domain, a.domains)
    requires ttl.Some? ==> initiator.User? && tag in a.authorizations
    requires tag in a.authorizations ==>
               && DomainOf(a.authorizations[tag].subroutine) == Some(domain)
               && ValidateMessages(a.authorizations[tag].subroutine, msgs).None?
    ensures Inv(Start(a, block, initiator, domain, tag, ttl, msgs)) <==> a.nextId < U64_MAX
  {
    hide TableOk, RecordsOk, CountsOk, ValidateMessages, DomainOf;
    if a.nextId < U64_MAX {
      StartKeeps(a, block, initiator, domain, tag, ttl, msgs);
    } else {
      var b := Start(a, block, initiator, domain, tag, ttl, msgs);
      assert a.nextId in b.records && b.nextId <= U64_MAX;
    }
  }

  lemma SendKeepsIff(a: AuthStore, block: Block, sender: Addr, tag: Label, ttl: Option<Expiration>,
                     msgs: seq<ProcessorMessage>, paid: Option<nat>, balance: nat)
    requires Inv(a) && SendMsgs(a, block, sender, tag, ttl, msgs, paid, balance).Accepted?
    ensures Inv(SendMsgs(a, block, sender, tag, ttl, msgs, paid, balance).store) <==> a.nextId < U64_MAX
  {
    hide Inv, Start, ValidateMessages, DomainOf;
    StartKeepsIff(a, block, User(sender), DomainOf(a.authorizations[tag].subroutine).value, tag, ttl, msgs);
  }

  lemma InsertKeepsIff(a: AuthStore, block: Block, tag: Label, position: nat, priority: Priority,
                       msgs: seq<ProcessorMessage>)
    requires Inv(a) && InsertMessages(a, block, tag, position, priority, msgs).Accepted?
    ensures Inv(InsertMessages(a, block, tag, position, priority, msgs).store) <==> a.nextId < U64_MAX
  {
    hide Inv, Start, ValidateMessages, DomainOf;
    StartKeepsIff(a, block, Initiator.Owner, DomainOf(a.authorizations[tag].subroutine).value, tag, None, msgs);
  }

  lemma BlocksKeep(a: AuthStore, blocks: map<nat, nat>)
    requires Inv(a)
    ensures Inv(a.(lastBlocks := blocks))
  {
    hide WellFormed, ValidateMessages, DomainOf;
    var b := a.(lastBlocks := blocks);
    GrowsReflexive(a);
    assert Grows(a, b) && TableOk(b);
    GrowsKeeps(a, b);
  }

  lemma ProofKeepsIff(a: AuthStore, block: Block, sender: Addr, tag: Label, zk: ZkMessage, paid: Option<nat>,
                      balance: nat)
    requires Inv(a) && ExecuteZk(a, block, sender, tag, zk, paid, balance).Accepted?
    ensures Inv(ExecuteZk(a, block, sender, tag, zk, paid, balance).store) <==>
            a.nextId < U64_MAX || !zk.msg.CarriesBatch()
  {
    hide Inv, Start, ValidateMessages, DomainOf;
    var auth := a.zkAuthorizations[tag];
    var blocks := if auth.validateLastBlock then a.lastBlocks[auth.registry := zk.blockNumber] else a.lastBlocks;
    var a1 := a.(lastBlocks := blocks);
    BlocksKeep(a, blocks);
    ZkApart(a, tag);
    if zk.msg.CarriesBatch() {
      StartKeepsIff(a1, block, User(sender), zk.domain, tag, None, zk.msg.msgs);
    }
  }

  lemma ZkApart(a: AuthStore, tag: Label)
    requires Inv(a) && tag in a.zkAuthorizations
    ensures tag !in a.authorizations
  {
    hide WellFormed, RecordsOk, CountsOk;
  }

  lemma RetryKeeps(a: AuthStore, block: Block, id: nat)
    requires Inv(a) && RetryMsgs(a, block, id).Accepted?
    ensures Inv(RetryMsgs(a, block, id).store)
  {
    hide Inv;
    var r := a.records[id];
    if RetryMsgs(a, block, id).call.Some? {
      ReopenKeeps(a, block, id);
    } else if PaysToken(a, r) {
      RewriteKeeps(a, id, r.(result := Timeout(false), updatedAt := block.Seconds()));
    }
  }

  /** A result that a record may get: the record is in process, and timeouts and bridge errors are for
      calls to other domains. */
  predicate MayClose(r: Record, result: ExecutionResult) {
    && r.result.InProcess? && !result.InProcess?
    && (result == Timeout(true) ==> r.ttl.Some?)
    && (result.Timeout? || result.UnexpectedError? ==> !r.domain.Main?)
  }

  /** Closing an id that is not in process, or leaving one in process, spoils the count. */
  lemma CountBreaks(a: AuthStore, block: Block, id: nat, result: ExecutionResult)
    requires Inv(a) && id in a.records && Running(a, a.records[id].tag) > 0
    requires !a.records[id].result.InProcess? || result.InProcess?
    ensures !CountsOk(Close(a, block, id, result))
  {
    hide WellFormed, RecordsOk, IdsOk, RunningIds;
    var b, tag := Close(a, block, id, result), a.records[id].tag;
    RunningIdsUpdate(a.records, id, b.records[id], tag);
    RunningIdsHas(a.records, id, tag);
    assert Running(a, tag) == |InProcessIds(a, tag)|;
    assert Running(b, tag) != |InProcessIds(b, tag)|;
  }

  lemma CloseKeepsIff(a: AuthStore, block: Block, id: nat, result: ExecutionResult)
    requires Inv(a) && id in a.records && Running(a, a.records[id].tag) > 0
    ensures Inv(Close(a, block, id, result)) <==> MayClose(a.records[id], result)
  {
    hide TableOk, CountsOk, IdsOk, ValidateMessages, DomainOf;
    if MayClose(a.records[id], result) {
      CloseKeeps(a, block, id, result);
    } else if !a.records[id].result.InProcess? || result.InProcess? {
      CountBreaks(a, block, id, result);
    } else {
      var b := Close(a, block, id, result);
      assert !RecordOk(b, b.records[id]);
    }
  }

  /** The bridge callback looks at the record, except when the error is fatal. */
  lemma BridgeKeepsIff(a: AuthStore, block: Block, id: nat, ack: Ack)
    requires Inv(a) && BridgeCallback(a, block, id, ack).Accepted?
    ensures Inv(BridgeCallback(a, block, id, ack).store) <==> (ack.AckFatal? ==> a.records[id].result.InProcess?)
  {
    hide Inv, Close;
    var r := a.records[id];
    if ack.AckFatal? || (ack.AckError? && r.result.InProcess?) {
      var expired := r.ttl.None? || r.ttl.value.IsExpired(block);
      CloseKeepsIff(a, block, id, if ack == AckError(TIMEOUT) then Timeout(!expired) else UnexpectedError(ack.error));
    }
  }

  lemma CreationKeeps(a: AuthStore, block: Block, infos: seq<AuthorizationInfo>, libraries: set<string>)
    requires Inv(a)
    ensures var o := CreateAuthorizations(a, block, infos, libraries); o.Accepted? ==> Inv(o.store)
  {
    hide TableOk, RecordsOk, CountsOk, IdsOk, CreateAuthorizations, Grows;
    if CreateAuthorizations(a, block, infos, libraries).Accepted? {
      CreateKeeps(a, block, infos, libraries);
      GrowsKeeps(a, CreateAuthorizations(a, block, infos, libraries).store);
    }
  }

  lemma ZkCreationKeeps(a: AuthStore, auths: seq<ZkAuthorization>)
    requires Inv(a)
    ensures var o := CreateZkAuthorizations(a, auths); o.Accepted? ==> Inv(o.store)
  {
    hide TableOk, RecordsOk, CountsOk, IdsOk, CreateZkAuthorizations, Grows;
    if CreateZkAuthorizations(a, auths).Accepted? {
      CreateZkKeeps(a, auths);
      GrowsKeeps(a, CreateZkAuthorizations(a, auths).store);
    }
  }

  lemma ModificationKeeps(a: AuthStore, tag: Label, c: Changes, libraries: set<string>)
    requires Inv(a)
    ensures var o := ModifyAuthorization(a, tag, c, libraries); o.Accepted? ==> Inv(o.store)
  {
    hide TableOk, RecordsOk, CountsOk, IdsOk, ModifyAuthorization, Grows;
    if ModifyAuthorization(a, tag, c, libraries).Accepted? {
      ModifyKeeps(a, tag, c, libraries);
      GrowsKeeps(a, ModifyAuthorization(a, tag, c, libraries).store);
    }
  }

  lemma SwitchKeeps(a: AuthStore, tag: Label, enabled: bool)
    requires Inv(a)
    ensures var o := SetEnabled(a, tag, enabled); o.Accepted? ==> Inv(o.store)
  {
    hide TableOk, RecordsOk, CountsOk, IdsOk, SetEnabled, Grows;
    if SetEnabled(a, tag, enabled).Accepted? {
      EnableKeeps(a, tag, enabled);
      GrowsKeeps(a, SetEnabled(a, tag, enabled).store);
    }
  }

  lemma BridgesKeep(a: AuthStore, name: string, evm: bool, ack: Ack)
    requires Inv(a)
    ensures var o := AddDomain(a, name, evm); o.Accepted? ==> Inv(o.store)
    ensures var o := ProxyCallback(a, name, ack); o.Accepted? ==> Inv(o.store)
    ensures var o := RetryBridgeCreation(a, name); o.Accepted? ==> Inv(o.store)
  {
    hide TableOk, RecordsOk, CountsOk, IdsOk, Grows;
    if AddDomain(a, name, evm).Accepted? {
      EnvironmentKeeps(a, name, if evm then Evm else Cosmwasm(ProxyPending));
    }
    if ProxyCallback(a, name, ack).Accepted? {
      EnvironmentKeeps(a, name, ProxyCallback(a, name, ack).store.domains[name]);
    }
    if RetryBridgeCreation(a, name).Accepted? {
      EnvironmentKeeps(a, name, Cosmwasm(ProxyPending));
    }
  }

  lemma EnvironmentKeeps(a: AuthStore, name: string, env: Environment)
    requires Inv(a) && (name in a.domains ==> a.domains[name].Cosmwasm? == env.Cosmwasm?)
    ensures Inv(a.(domains := a.domains[name := env]))
  {
    hide TableOk, RecordsOk, CountsOk, IdsOk, Grows;
    DomainsKeep(a, a.domains[name := env]);
    GrowsKeeps(a, a.(domains := a.domains[name := env]));
  }

  lemma TableRequestKeeps(a: AuthStore, block: Block, c: TableChange)
    requires Inv(a) && ChangeTable(a, block, c).Accepted?
    ensures Inv(ChangeTable(a, block, c).store)
  {
    hide Inv, CreateAuthorizations, CreateZkAuthorizations, ModifyAuthorization, SetEnabled, AddDomain, ProxyCallback,
         RetryBridgeCreation;
    match c
    case Create(infos, libraries) => CreationKeeps(a, block, infos, libraries);
    case CreateZk(auths) => ZkCreationKeeps(a, auths);
    case Modify(tag, changes, libraries) => ModificationKeeps(a, tag, changes, libraries);
    case Enable(tag, enabled) => SwitchKeeps(a, tag, enabled);
    case Grant(_, _) =>
    case NewDomain(name, evm) => BridgesKeep(a, name, evm, AckOk);
    case BridgeAck(name, ack) => BridgesKeep(a, name, false, ack);
    case RetryBridge(name) => BridgesKeep(a, name, false, AckOk);
  }

  /** What the rest of the system has to guarantee: the id counter does not wrap around, and results and
      fatal errors come only for ids in process. The contract does not check any of it. */
  predicate Fitting(a: AuthStore, request: Request) {
    match request
    case SendRequest(_, _, _, _, _, _) => a.nextId < U64_MAX
    case InsertRequest(_, _, _, _) => a.nextId < U64_MAX
    case ProofRequest(_, _, zk, _, _) => a.nextId < U64_MAX || !zk.msg.CarriesBatch()
    case ResultRequest(id, result) => id in a.records && MayClose(a.records[id], result)
    case BridgeRequest(id, ack) => ack.AckFatal? ==> id in a.records && a.records[id].result.InProcess?
    case _ => true
  }

  /** Every request that is accepted keeps the invariant exactly when it is fitting. */
  lemma AnswerKeepsIff(a: AuthStore, request: Request, block: Block)
    requires Inv(a) && Answer(a, request, block).Accepted?
    ensures Inv(Answer(a, request, block).store) <==> Fitting(a, request)
  {
    hide Inv, SendMsgs, InsertMessages, ExecuteZk, RetryMsgs, ChangeTable, Close;
    match request
    case SendRequest(sender, tag, ttl, msgs, paid, balance) =>
      SendKeepsIff(a, block, sender, tag, ttl, msgs, paid, balance);
    case InsertRequest(tag, position, priority, msgs) => InsertKeepsIff(a, block, tag, position, priority, msgs);
    case ProofRequest(sender, tag, zk, paid, balance) => ProofKeepsIff(a, block, sender, tag, zk, paid, balance);
    case RetryRequest(id) => RetryKeeps(a, block, id);
    case ResultRequest(id, result) => CloseKeepsIff(a, block, id, result);
    case BridgeRequest(id, ack) => BridgeKeepsIff(a, block, id, ack);
    case TableRequest(change) => TableRequestKeeps(a, block, change);
  }
}
