/** The owner's table. With it every transaction is covered, so every run keeps the invariant. */
module ProtocolTable {
  import opened Types
  import opened Validation
  import opened AuthorizationModel
  import opened Protocol
  import opened ProtocolTokens
  import opened ProtocolInvariant
  import opened ProtocolSteps
  import opened ProtocolCalls
  import opened ProtocolPackets
  import P = ProcessorModel
  import AI = AuthorizationInvariant
  import PI = ProcessorInvariant
  import PS = ProcessorSteps

  // ----- The owner's table -----

  lemma GrowsSameTable(a: AuthStore, b: AuthStore)
    requires AI.Grows(a, b)
    ensures SameTable(a, b)
  {
  }

  /** A larger table, with the processors its domains need. */
  lemma TableKeeps(w: World, v: World)
    requires Inv(w) && AI.Grows(w.auth, v.auth) && AI.TableOk(v.auth)
    requires v == w.(auth := v.auth, bank := v.bank, procs := v.procs)
    requires BankOk(v.auth, v.bank) && ProcsOk(v)
    requires forall d :: d in w.procs ==> d in v.procs && v.procs[d] == w.procs[d]
    requires forall d :: d in v.procs && d !in w.procs ==> v.procs[d].history == map[] && v.procs[d].results == map[]
    ensures Inv(v)
  {
    hide StageOk, Of, AI.TableOk, SettledOk, UsersOk, BankOk, ProcsOk, AI.IdsOk, AI.RecordsOk, AI.CountsOk, SameTable,
         AI.Grows, Same;
    InvAt(w, 0);
    AI.GrowsKeeps(w.auth, v.auth);
    GrowsSettled(w.auth, v.auth, w.refunded, w.burnt);
    GrowsSameTable(w.auth, v.auth);
    forall o: nat
      ensures Same(w, v, o)
    {
      TableSame(w, v, o);
    }
    UnmovedKeeps(w, v);
  }

  lemma TableSame(w: World, v: World, o: nat)
    requires AI.Grows(w.auth, v.auth)
    requires v == w.(auth := v.auth, bank := v.bank, procs := v.procs)
    requires forall d :: d in w.procs ==> d in v.procs && v.procs[d] == w.procs[d]
    requires forall d :: d in v.procs && d !in w.procs ==> v.procs[d].history == map[] && v.procs[d].results == map[]
    ensures Same(w, v, o)
  {
    hide Of;
  }

  lemma SameDomains(w: World, v: World)
    requires ProcsOk(w) && v.procs == w.procs
    requires forall n :: (n in v.auth.domains && v.auth.domains[n].Cosmwasm?) ==
                         (n in w.auth.domains && w.auth.domains[n].Cosmwasm?)
    ensures ProcsOk(v)
  {
    hide ProcOk;
  }

  lemma CreateKeeps(w: World, block: Block, infos: seq<AuthorizationInfo>, libraries: set<string>)
    requires Inv(w) && CreateAuthorizations(w.auth, block, infos, libraries).Accepted?
    ensures var o := CreateAuthorizations(w.auth, block, infos, libraries);
            RunTokens(w.bank, o.tokens).Some? && Inv(w.(auth := o.store, bank := RunTokens(w.bank, o.tokens).value))
  {
    hide StageOk, CreateAuthorizations, RunTokens, BankOk, AI.TableOk, AI.RecordsOk, AI.CountsOk, SettledOk, ProcOk;
    InvAt(w, 0);
    var o := CreateAuthorizations(w.auth, block, infos, libraries);
    AI.CreateKeeps(w.auth, block, infos, libraries);
    CreateBank(w.auth, block, infos, libraries, w.bank);
    var v := w.(auth := o.store, bank := RunTokens(w.bank, o.tokens).value);
    SameDomains(w, v);
    TableKeeps(w, v);
  }

  lemma CreateZkKeeps(w: World, auths: seq<ZkAuthorization>)
    requires Inv(w) && CreateZkAuthorizations(w.auth, auths).Accepted?
    ensures var o := CreateZkAuthorizations(w.auth, auths);
            RunTokens(w.bank, o.tokens).Some? && Inv(w.(auth := o.store, bank := RunTokens(w.bank, o.tokens).value))
  {
    hide StageOk, CreateZkAuthorizations, RunTokens, BankOk, AI.TableOk, AI.RecordsOk, AI.CountsOk, SettledOk, ProcOk;
    InvAt(w, 0);
    var o := CreateZkAuthorizations(w.auth, auths);
    AI.CreateZkKeeps(w.auth, auths);
    CreateZkBank(w.auth, auths, w.bank);
    var v := w.(auth := o.store, bank := RunTokens(w.bank, o.tokens).value);
    SameDomains(w, v);
    TableKeeps(w, v);
  }

  lemma GrantKeeps(w: World, tag: Label, mints: seq<(Addr, nat)>)
    requires Inv(w) && MintAuthorizations(w.auth, tag, mints).Accepted?
    ensures var o := MintAuthorizations(w.auth, tag, mints);
            o.store == w.auth && RunTokens(w.bank, o.tokens).Some? && Inv(w.(bank := RunTokens(w.bank, o.tokens).value))
  {
    hide StageOk, RunTokens, BankOk, AI.TableOk, AI.RecordsOk, AI.CountsOk, SettledOk, ProcOk;
    InvAt(w, 0);
    GrantBank(w.auth, w.bank, tag, mints);
    AI.GrowsReflexive(w.auth);
    var v := w.(bank := RunTokens(w.bank, MintAuthorizations(w.auth, tag, mints).tokens).value);
    SameDomains(w, v);
    TableKeeps(w, v);
  }

  /** Changes to the table that issue no tokens. */
  lemma TokenlessKeeps(w: World, b: AuthStore)
    requires Inv(w) && AI.Grows(w.auth, b) && AI.TableOk(b) && SameModes(w.auth, b)
    requires forall n :: (n in b.domains && b.domains[n].Cosmwasm?) ==
                         (n in w.auth.domains && w.auth.domains[n].Cosmwasm?)
    ensures Inv(w.(auth := b))
  {
    hide StageOk, BankOk, AI.TableOk, AI.RecordsOk, AI.CountsOk, SettledOk, ProcOk, SameModes;
    InvAt(w, 0);
    SameModesBank(w.auth, b, w.bank);
    SameDomains(w, w.(auth := b));
    TableKeeps(w, w.(auth := b));
  }

  lemma ModifyKeeps(w: World, tag: Label, changes: Changes, libraries: set<string>)
    requires Inv(w) && ModifyAuthorization(w.auth, tag, changes, libraries).Accepted?
    ensures Inv(w.(auth := ModifyAuthorization(w.auth, tag, changes, libraries).store))
  {
    hide Inv, AI.TableOk, AI.Grows, Validate;
    TableAt(w);
    AI.ModifyKeeps(w.auth, tag, changes, libraries);
    TokenlessKeeps(w, ModifyAuthorization(w.auth, tag, changes, libraries).store);
  }

  lemma TableAt(w: World)
    requires Inv(w)
    ensures AI.TableOk(w.auth) && ProcsOk(w)
  {
    hide StageOk, AI.TableOk, TokensOk, AI.RecordsOk, AI.CountsOk, ProcOk;
  }

  lemma EnableKeeps(w: World, tag: Label, enabled: bool)
    requires Inv(w) && SetEnabled(w.auth, tag, enabled).Accepted?
    ensures Inv(w.(auth := SetEnabled(w.auth, tag, enabled).store))
  {
    hide Inv, AI.TableOk, AI.Grows;
    TableAt(w);
    AI.EnableKeeps(w.auth, tag, enabled);
    TokenlessKeeps(w, SetEnabled(w.auth, tag, enabled).store);
  }

  lemma ProxyKeeps(w: World, name: string, proxy: ProxyState)
    requires Inv(w) && name in w.auth.domains && w.auth.domains[name].Cosmwasm?
    ensures Inv(w.(auth := w.auth.(domains := w.auth.domains[name := Cosmwasm(proxy)])))
  {
    hide Inv, AI.TableOk, AI.Grows;
    TableAt(w);
    AI.DomainsKeep(w.auth, w.auth.domains[name := Cosmwasm(proxy)]);
    TokenlessKeeps(w, w.auth.(domains := w.auth.domains[name := Cosmwasm(proxy)]));
  }

  lemma NewDomainKeeps(w: World, name: string, evm: bool)
    requires Inv(w) && name !in w.auth.domains
    ensures Inv(w.(auth := w.auth.(domains := w.auth.domains[name := if evm then Evm else Cosmwasm(ProxyPending)]),
                   procs := if evm then w.procs
                            else w.procs[External(name) := P.Fresh(P.Config(P.OnExternal(ProxyPending), false))]))
  {
    hide Inv, AI.TableOk, AI.Grows, PI.Inv, BankOk, SettledOk;
    TableAt(w);
    var env := if evm then Evm else Cosmwasm(ProxyPending);
    var config := P.Config(P.OnExternal(ProxyPending), false);
    var b := w.auth.(domains := w.auth.domains[name := env]);
    var v := w.(auth := b, procs := if evm then w.procs else w.procs[External(name) := P.Fresh(config)]);
    AI.DomainsKeep(w.auth, w.auth.domains[name := env]);
    PS.FreshKeeps(config);
    assert BankOk(b, w.bank) by { BankAt(w); SameModesBank(w.auth, b, w.bank); }
    TableKeeps(w, v);
  }

  lemma BankAt(w: World)
    requires Inv(w)
    ensures BankOk(w.auth, w.bank)
  {
    hide StageOk, AI.Inv, ProcsOk;
  }

  lemma AdministerKeeps(w: World, block: Block, c: TableChange)
    requires Inv(w)
    ensures Inv(Or(DoAdminister(w, block, c), w))
  {
    hide Inv, CreateAuthorizations, CreateZkAuthorizations, ModifyAuthorization, SetEnabled, RunTokens;
    if ChangeTable(w.auth, block, c).Accepted? {
      EmptyTokens(w.bank);
      match c
      case Create(infos, libraries) => CreateKeeps(w, block, infos, libraries);
      case CreateZk(auths) => CreateZkKeeps(w, auths);
      case Modify(tag, changes, libraries) =>
        ModifyKeeps(w, tag, changes, libraries);
        NoTokens(w.auth, tag, changes, libraries, true);
      case Enable(tag, enabled) =>
        EnableKeeps(w, tag, enabled);
        NoTokens(w.auth, tag, Changes(None, None, None, None), {}, enabled);
      case Grant(tag, mints) => GrantKeeps(w, tag, mints);
      case NewDomain(name, evm) => NewDomainKeeps(w, name, evm);
      case BridgeAck(name, ack) =>
        ProxyKeeps(w, name, ProxyCallback(w.auth, name, ack).store.domains[name].proxy);
      case RetryBridge(name) => ProxyKeeps(w, name, ProxyPending);
    }
  }

  lemma NoTokens(a: AuthStore, tag: Label, changes: Changes, libraries: set<string>, enabled: bool)
    ensures ModifyAuthorization(a, tag, changes, libraries).Accepted? ==>
            ModifyAuthorization(a, tag, changes, libraries).tokens == []
    ensures SetEnabled(a, tag, enabled).Accepted? ==> SetEnabled(a, tag, enabled).tokens == []
  {
  }

  lemma TransferWorld(w: World, tag: Label, from: Addr, to: Addr, amount: nat)
    requires Inv(w)
    ensures Inv(Or(DoTransfer(w, tag, from, to, amount), w))
  {
    hide StageOk, AI.Inv, TokensOk, ProcsOk, Of, Moved;
    var o := DoTransfer(w, tag, from, to, amount);
    if o.Some? {
      InvAt(w, 0);
      TransferKeeps(w, tag, from, to, amount);
      assert ProcsOk(o.value) by { TableAt(w); SameDomains(w, o.value); }
      UnmovedKeeps(w, o.value);
    }
  }

  // ----- Steps and runs -----

  lemma StepKeeps(w: World, s: Step)
    requires Inv(w)
    ensures Inv(Next(w, s))
  {
    hide Inv, DoSend, DoInsert, DoProve, DoRetry, DoDeliverOut, DoAckOut, DoDeliverIn, DoAckIn, DoAtProcessor,
         DoAdminister, DoTransfer;
    match s.action
    case Send(_, _, _, _, _) => SendKeeps(w, s.block, s.action);
    case Insert(_, _, _, _) => InsertKeeps(w, s.block, s.action);
    case Prove(_, _, _, _) => ProveKeeps(w, s.block, s.action);
    case Retry(id) => ProtocolPackets.RetryKeeps(w, s.block, id);
    case DeliverOut(n, delivery) => DeliverOutKeeps(w, s.block, n, delivery);
    case AckOut(n) => AckOutKeeps(w, s.block, n);
    case DeliverIn(n, delivery) => DeliverInKeeps(w, s.block, n, delivery);
    case AckIn(n) => AckInKeeps(w, n);
    case AtProcessor(d, input) => AtProcessorKeeps(w, d, input, s.block);
    case Administer(change) => AdministerKeeps(w, s.block, change);
    case Transfer(tag, from, to, amount) => TransferWorld(w, tag, from, to, amount);
  }

  lemma GenesisOk()
    ensures Inv(Genesis())
  {
    hide PI.Inv;
    var w := Genesis();
    AI.InitialOk();
    PS.FreshKeeps(P.Config(P.OnMain, false));
    assert BankOk(w.auth, w.bank) && UsersOk(w.auth) && SettledOk(w.auth, w.refunded, w.burnt);
    assert forall id: nat :: StageOk(w, id);
  }

  lemma {:induction false} RunFromKeeps(w: World, steps: seq<Step>)
    requires Inv(w)
    ensures Inv(RunFrom(w, steps))
    decreases |steps|
  {
    hide Inv, Next;
    if steps != [] {
      RunFromKeeps(w, steps[..|steps| - 1]);
      StepKeeps(RunFrom(w, steps[..|steps| - 1]), steps[|steps| - 1]);
    }
  }

  /** The invariant holds after every run. */
  lemma RunKeeps(steps: seq<Step>, w: World)
    requires w == Run(steps)
    ensures Inv(w)
  {
    hide Inv, Genesis;
    GenesisOk();
    RunFromKeeps(Genesis(), steps);
  }

  lemma ReachableOk(w: World)
    requires Reachable(w)
    ensures Inv(w)
  {
    hide Inv, Run;
    var steps :| w == Run(steps);
    RunKeeps(steps, w);
  }

  lemma ReachableNext(w: World, s: Step)
    requires Reachable(w)
    ensures Reachable(Next(w, s))
  {
    hide Next, Genesis;
    var steps :| w == Run(steps);
    var all := steps + [s];
    assert all[..|all| - 1] == steps && all[|all| - 1] == s;
    assert Next(w, s) == Run(all);
  }
}
