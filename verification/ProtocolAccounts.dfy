/** The tokens of every single user. What a user has left and what the user's calls have used up always add
    up: nobody pays for the calls of others, and what comes back comes back to the caller. */
module ProtocolAccounts {
  import opened Types
  import opened Validation
  import opened AuthorizationModel
  import opened Protocol
  import opened ProtocolTokens
  import opened ProtocolInvariant
  import opened ProtocolCalls
  import opened ProtocolTable
  import opened ProtocolLifeCycle
  import opened ProtocolSettling
  import P = ProcessorModel
  import AI = AuthorizationInvariant

  /** The calls of a user that have used up a token: all but those it went back for. */
  ghost function Used(records: map<nat, Record>, refunded: multiset<nat>, tag: Label, user: Addr): set<nat> {
    set id | id in records && records[id].tag == tag && records[id].initiator == User(user) && id !in refunded
  }

  /** What the user has and what the user's calls have used up. */
  ghost function Account(w: World, tag: Label, user: Addr): nat {
    Balance(w.bank, tag, user) + |Used(w.auth.records, w.refunded, tag, user)|
  }

  ghost predicate SameAccounts(w: World, v: World, tag: Label, user: Addr) {
    Account(v, tag, user) == Account(w, tag, user)
  }

  /** The same calls by the same users. */
  ghost predicate SameCalls(a: AuthStore, b: AuthStore) {
    && (forall id :: id in a.records <==> id in b.records)
    && forall id :: id in a.records ==>
         b.records[id].tag == a.records[id].tag && b.records[id].initiator == a.records[id].initiator
  }

  lemma SameUsed(a: AuthStore, b: AuthStore, refunded: multiset<nat>, tag: Label, user: Addr)
    requires SameCalls(a, b)
    ensures Used(b.records, refunded, tag, user) == Used(a.records, refunded, tag, user)
  {
  }

  // ----- A call is settled -----

  /** The tokens that go with a result: none, a burned one, or one back to the caller. */
  ghost predicate Fair(a: AuthStore, id: nat, o: AuthOutcome) {
    o.Accepted? ==>
      && SameCalls(a, o.store)
      && (o.tokens == [] ||
          (id in a.records &&
           (o.tokens == [Burn(a.records[id].tag)] ||
            (a.records[id].initiator.User? && o.tokens == [Refund(a.records[id].tag, a.records[id].initiator.addr)]))))
  }

  lemma ClosesFairly(a: AuthStore, block: Block, id: nat, result: ExecutionResult)
    requires id in a.records
    ensures SameCalls(a, Close(a, block, id, result)) && SameCalls(a, a)
  {
  }

  lemma ResultIsFair(a: AuthStore, block: Block, id: nat, result: ExecutionResult)
    ensures Fair(a, id, ProcessorCallback(a, block, id, result))
  {
    hide Close, SameCalls;
    if id in a.records { ClosesFairly(a, block, id, result); }
  }

  lemma AnswerIsFair(a: AuthStore, block: Block, id: nat, ack: Ack)
    ensures Fair(a, id, BridgeCallback(a, block, id, ack))
  {
    hide Close, SameCalls;
    if id in a.records {
      ClosesFairly(a, block, id, Timeout(true));
      ClosesFairly(a, block, id, Timeout(false));
      if !ack.AckOk? { ClosesFairly(a, block, id, UnexpectedError(ack.error)); }
    }
  }

  lemma RetryIsFair(a: AuthStore, block: Block, id: nat)
    ensures Fair(a, id, RetryMsgs(a, block, id))
  {
  }

  /** No call is refunded twice, and none is the contract's own. */
  ghost predicate OnceOnly(v: World) { UsersOk(v.auth) && forall id: nat :: v.refunded[id] <= 1 }

  lemma OnceAt(w: World)
    requires Inv(w)
    ensures OnceOnly(w)
  {
    hide StageOk, AI.Inv, ProcsOk, BankOk;
    forall id: nat
      ensures w.refunded[id] <= 1
    {
      assert SettledAt(w.auth, id, w.refunded, w.burnt);
    }
  }

  lemma RefundUses(records: map<nat, Record>, refunded: multiset<nat>, id: nat, tag: Label, user: Addr)
    requires id in records && id !in refunded
    ensures var was, now := Used(records, refunded, tag, user), Used(records, refunded + multiset{id}, tag, user);
            |now| == |was| - if records[id].tag == tag && records[id].initiator == User(user) then 1 else 0
  {
    var was, now := Used(records, refunded, tag, user), Used(records, refunded + multiset{id}, tag, user);
    assert now == was - {id};
  }

  lemma ApplyFair(w: World, id: nat, o: AuthOutcome, v: World, tag: Label, user: Addr)
    requires Fair(w.auth, id, o) && Apply(w, id, o) == Some(v) && OnceOnly(v) && user != SELF
    ensures SameAccounts(w, v, tag, user)
  {
    hide Settle, RunToken, Used;
    SameUsed(w.auth, o.store, w.refunded, tag, user);
    var u := w.(auth := o.store);
    if o.tokens == [] {
      NothingPays(w, u, id);
    } else {
      OneSettled(u, id, o.tokens[0], v);
      var r := w.auth.records[id];
      if o.tokens[0].Burn? {
        BurnPays(w.bank, r.tag);
      } else {
        assert v.auth.records[id].initiator == r.initiator && v.auth.records[id].initiator.addr != SELF;
        RefundPays(w.bank, r.tag, r.initiator.addr);
        assert v.refunded[id] <= 1;
        RefundUses(o.store.records, w.refunded, id, tag, user);
      }
    }
  }

  /** Whatever a processor did, what it reports is settled with the caller. */
  lemma AfterFair(w: World, d: Domain, o: P.Outcome, block: Block, v: World, tag: Label, user: Addr)
    requires After(w, d, o, block) == Some(v) && OnceOnly(v) && user != SELF
    ensures SameAccounts(w, v, tag, user)
  {
    hide Apply, ProcessorCallback, OnceOnly, Used, Fair;
    if o.report.Some? && d.Main? {
      var id, result := o.report.value.id, o.report.value.result;
      ResultIsFair(w.auth, block, id, result);
      ApplyFair(w.(procs := w.procs[d := o.store]), id, ProcessorCallback(w.auth, block, id, result), v, tag, user);
    }
  }

  lemma DispatchFair(w: World, call: Call, block: Block, v: World, tag: Label, user: Addr)
    requires Dispatch(w, call, block) == Some(v) && OnceOnly(v) && user != SELF
    ensures SameAccounts(w, v, tag, user)
  {
    hide After, P.Handle, OnceOnly, Used;
    if call.domain.Main? {
      AfterFair(w, Main, P.Handle(w.procs[Main], call.msg, block), block, v, tag, user);
    }
  }

  // ----- A call is made -----

  lemma OpenUses(records: map<nat, Record>, refunded: multiset<nat>, id: nat, r: Record, tag: Label, user: Addr)
    requires id !in records && id !in refunded
    ensures |Used(records[id := r], refunded, tag, user)| ==
            |Used(records, refunded, tag, user)| + if r.tag == tag && r.initiator == User(user) then 1 else 0
  {
    var one := if r.tag == tag && r.initiator == User(user) then {id} else {};
    assert Used(records[id := r], refunded, tag, user) == Used(records, refunded, tag, user) + one;
  }

  lemma NextIsNew(w: World)
    requires Inv(w)
    ensures w.auth.nextId !in w.auth.records && w.auth.nextId !in w.refunded
  {
    hide StageOk, ProcsOk, BankOk, AI.TableOk, AI.RecordsOk, AI.CountsOk;
    assert SettledAt(w.auth, w.auth.nextId, w.refunded, w.burnt);
  }

  lemma PaySpends(bank: Bank, t: Label, from: Addr, paid: Option<nat>, backed: bool, tag: Label, user: Addr)
    requires Pay(bank, t, from, paid, backed).Some? && user != SELF
    ensures Balance(Pay(bank, t, from, paid, backed).value, tag, user) ==
            Balance(bank, tag, user) - if t == tag && from == user && paid.Some? then paid.value else 0
  {
  }

  /** A payment of one token together with the record of the call, or neither. */
  lemma OpenedFair(w: World, b: AuthStore, r: Record, paid: Option<nat>, backed: bool, from: Addr, bank: Bank,
                   tag: Label, user: Addr)
    requires Inv(w) && user != SELF && b.records == w.auth.records[w.auth.nextId := r]
    requires Pay(w.bank, r.tag, from, paid, backed) == Some(bank)
    requires r.tag == tag ==> if r.initiator.User? then r.initiator.addr == from && paid == Some(1) else paid.None?
    ensures SameAccounts(w, w.(auth := b, bank := bank), tag, user)
  {
    hide Inv, Used, Pay;
    NextIsNew(w);
    PaySpends(w.bank, r.tag, from, paid, backed, tag, user);
    OpenUses(w.auth.records, w.refunded, w.auth.nextId, r, tag, user);
  }

  lemma SendFair(w: World, s: Step, v: World, tag: Label, user: Addr)
    requires Inv(w) && s.action.Send? && TryStep(w, s) == Some(v) && OnceOnly(v) && user != SELF
    requires IsLimited(w.auth, tag)
    ensures SameAccounts(w, v, tag, user)
  {
    hide Inv, SendMsgs, Dispatch, Pay, ReachesProcessor, OnceOnly, Account, DomainOf, ValidateMessages;
    var a := s.action;
    var backed := w.auth.authorizations[a.tag].mode.WithCallLimit?;
    var bank := Pay(w.bank, a.tag, a.sender, a.paid, backed).value;
    var balance := Balance(bank, a.tag, a.sender);
    var o := SendMsgs(w.auth, s.block, a.sender, a.tag, a.ttl, a.msgs, a.paid, balance);
    SendAccepted(w.auth, s.block, a.sender, a.tag, a.ttl, a.msgs, a.paid, balance);
    OpenedFair(w, o.store, o.store.records[w.auth.nextId], a.paid, backed, a.sender, bank, tag, user);
    DispatchFair(w.(auth := o.store, bank := bank), o.call.value, s.block, v, tag, user);
  }

  lemma InsertFair(w: World, s: Step, v: World, tag: Label, user: Addr)
    requires Inv(w) && s.action.Insert? && TryStep(w, s) == Some(v) && OnceOnly(v) && user != SELF
    ensures SameAccounts(w, v, tag, user)
  {
    hide Inv, InsertMessages, Dispatch, ReachesProcessor, OnceOnly, Account, DomainOf, ValidateMessages;
    var a := s.action;
    var o := InsertMessages(w.auth, s.block, a.tag, a.position, a.priority, a.msgs);
    InsertAccepted(w.auth, s.block, a.tag, a.position, a.priority, a.msgs);
    OpenedFair(w, o.store, o.store.records[w.auth.nextId], None, false, "", w.bank, tag, user);
    DispatchFair(w.(auth := o.store), o.call.value, s.block, v, tag, user);
  }

  lemma ProveFair(w: World, s: Step, v: World, tag: Label, user: Addr)
    requires Inv(w) && s.action.Prove? && TryStep(w, s) == Some(v) && OnceOnly(v) && user != SELF
    requires IsLimited(w.auth, tag) && !Hands(s, tag)
    ensures SameAccounts(w, v, tag, user)
  {
    hide Inv, ExecuteZk, Dispatch, Pay, OnceOnly, Account, Registered, RunsCosmwasm;
    var a := s.action;
    var backed := w.auth.zkAuthorizations[a.tag].mode.WithCallLimit? && a.zk.msg.CarriesBatch();
    var bank := Pay(w.bank, a.tag, a.sender, a.paid, backed).value;
    var balance := Balance(bank, a.tag, a.sender);
    var o := ExecuteZk(w.auth, s.block, a.sender, a.tag, a.zk, a.paid, balance);
    var b := ProveAccepted(w.auth, s.block, a.sender, a.tag, a.zk, a.paid, balance);
    ZkLabel(w, a.tag);
    if a.zk.msg.CarriesBatch() {
      OpenedFair(w, o.store, o.store.records[w.auth.nextId], a.paid, backed, a.sender, bank, tag, user);
    } else {
      ControlFair(w, o.store, a.tag, a.sender, a.paid, backed, bank, tag, user);
    }
    DispatchFair(w.(auth := o.store, bank := bank), o.call.value, s.block, v, tag, user);
  }

  lemma ControlFair(w: World, b: AuthStore, t: Label, from: Addr, paid: Option<nat>, backed: bool, bank: Bank,
                    tag: Label, user: Addr)
    requires user != SELF && b.records == w.auth.records && t != tag
    requires Pay(w.bank, t, from, paid, backed) == Some(bank)
    ensures SameAccounts(w, w.(auth := b, bank := bank), tag, user)
  {
    hide Pay, Used;
    PaySpends(w.bank, t, from, paid, backed, tag, user);
  }

  // ----- Every step -----

  /** Steps by which tokens of the label change hands otherwise: a grant of the owner, a transfer, or a proof
      that pays for no record. */
  predicate Hands(s: Step, tag: Label) {
    match s.action
    case Administer(c) => c.Grant? && c.tag == tag
    case Transfer(t, _, _, _) => t == tag
    case Prove(_, t, zk, _) => t == tag && !zk.msg.CarriesBatch()
    case _ => false
  }

  lemma RetryFair(w: World, s: Step, v: World, tag: Label, user: Addr)
    requires s.action.Retry? && TryStep(w, s) == Some(v) && OnceOnly(v) && user != SELF
    ensures SameAccounts(w, v, tag, user)
  {
    hide RetryMsgs, Dispatch, Apply, OnceOnly, Used;
    var id := s.action.id;
    var o := RetryMsgs(w.auth, s.block, id);
    RetryIsFair(w.auth, s.block, id);
    if o.call.Some? {
      SameUsed(w.auth, o.store, w.refunded, tag, user);
      DispatchFair(w.(auth := o.store), o.call.value, s.block, v, tag, user);
    } else {
      ApplyFair(w, id, o, v, tag, user);
    }
  }

  lemma PacketFair(w: World, s: Step, v: World, tag: Label, user: Addr)
    requires TryStep(w, s) == Some(v) && OnceOnly(v) && user != SELF
    requires s.action.DeliverOut? || s.action.AckOut? || s.action.DeliverIn? || s.action.AckIn? || s.action.AtProcessor?
    ensures SameAccounts(w, v, tag, user)
  {
    hide ProcessorCallback, BridgeCallback, Apply, After, P.Handle, P.Serve, P.ResultAck, OnceOnly, Used,
         Fair, MayReach;
    match s.action
    case DeliverOut(n, delivery) =>
      var d := w.outs[n].domain;
      var o := P.Handle(w.procs[d], w.outs[n].body, s.block);
      if delivery.Arrives? && o.Done? { AfterFair(LandOut(w, n, AckOk), d, o, s.block, v, tag, user); }
    case AckOut(n) =>
      var id, ack, u := w.outs[n].id, w.outs[n].flight.ack, w.(outs := w.outs[..n] + w.outs[n + 1..]);
      AnswerIsFair(w.auth, s.block, id, ack);
      if Apply(u, id, BridgeCallback(w.auth, s.block, id, ack)).Some? {
        ApplyFair(u, id, BridgeCallback(w.auth, s.block, id, ack), v, tag, user);
      }
    case DeliverIn(n, delivery) =>
      var k, u := w.ins[n], LandIn(w, n, AckOk);
      ResultIsFair(w.auth, s.block, k.id, k.body);
      if delivery.Arrives? && Apply(u, k.id, ProcessorCallback(w.auth, s.block, k.id, k.body)).Some? {
        ApplyFair(u, k.id, ProcessorCallback(w.auth, s.block, k.id, k.body), v, tag, user);
      }
    case AckIn(_) =>
    case AtProcessor(d, input) => AfterFair(w, d, P.Serve(w.procs[d], input, s.block), s.block, v, tag, user);
  }

  // ----- The owner creates labels and grants tokens -----

  /** How much an address gets of these amounts. */
  function SumFor(amounts: seq<(Addr, nat)>, user: Addr): nat {
    if amounts == [] then 0
    else (if amounts[0].0 == user then amounts[0].1 else 0) + SumFor(amounts[1..], user)
  }

  function CountOf(addrs: seq<Addr>, user: Addr): nat {
    if addrs == [] then 0 else (if addrs[0] == user then 1 else 0) + CountOf(addrs[1..], user)
  }

  /** How many tokens of a new label an address gets. */
  function Share(mode: Mode, user: Addr): nat {
    match mode
    case Permissionless => 0
    case WithCallLimit(limits) => SumFor(limits, user)
    case WithoutCallLimit(addrs) => CountOf(addrs, user)
  }

  lemma {:induction false} MintsAdd(bank: Bank, t: Label, amounts: seq<(Addr, nat)>, tag: Label, user: Addr)
    requires t in bank
    ensures var ms := seq(|amounts|, i requires 0 <= i < |amounts| => Mint(t, amounts[i].0, amounts[i].1));
            var o := RunTokens(bank, ms);
            o.Some? &&
              Balance(o.value, tag, user) == Balance(bank, tag, user) + if t == tag then SumFor(amounts, user) else 0
    decreases |amounts|
  {
    hide RunTokens;
    var ms := seq(|amounts|, i requires 0 <= i < |amounts| => Mint(t, amounts[i].0, amounts[i].1));
    if amounts == [] {
      EmptyTokens(bank);
    } else {
      var rest := amounts[1..];
      FirstToken(bank, ms);
      assert ms[1..] == seq(|rest|, i requires 0 <= i < |rest| => Mint(t, rest[i].0, rest[i].1));
      MintsAdd(bank[t := MintTo(bank[t], amounts[0].0, amounts[0].1)], t, rest, tag, user);
    }
  }

  /** One token for each address, as amounts. */
  function Ones(addrs: seq<Addr>): seq<(Addr, nat)> {
    seq(|addrs|, i requires 0 <= i < |addrs| => (addrs[i], 1))
  }

  lemma {:induction false} OnesCount(addrs: seq<Addr>, user: Addr)
    ensures SumFor(Ones(addrs), user) == CountOf(addrs, user)
  {
    if addrs != [] {
      OnesCount(addrs[1..], user);
      assert Ones(addrs)[1..] == Ones(addrs[1..]);
    }
  }

  lemma IssueShares(bank: Bank, t: Label, mode: Mode, tag: Label, user: Addr)
    requires t !in bank
    ensures var o := RunTokens(bank, Issue(t, mode));
            o.Some? && Balance(o.value, tag, user) == if t == tag then Share(mode, user) else Balance(bank, tag, user)
  {
    hide RunTokens, SumFor;
    var ms, bank1 := Issue(t, mode), bank[t := Denom(multiset{}, 0, 0, 0)];
    if mode.Permissionless? {
      EmptyTokens(bank);
    } else {
      FirstToken(bank, ms);
      var amounts := if mode.WithCallLimit? then mode.limits else Ones(mode.addrs);
      assert ms[1..] == seq(|amounts|, i requires 0 <= i < |amounts| => Mint(t, amounts[i].0, amounts[i].1));
      MintsAdd(bank1, t, amounts, tag, user);
      if mode.WithoutCallLimit? { OnesCount(mode.addrs, user); }
    }
  }

  lemma {:induction false} CreateShares(a: AuthStore, block: Block, infos: seq<AuthorizationInfo>,
                                        libraries: set<string>, bank: Bank, tag: Label, user: Addr)
    requires BankOk(a, bank) && AI.RecordsOk(a) && AI.TableOk(a)
    requires CreateAuthorizations(a, block, infos, libraries).Accepted?
    ensures var o := RunTokens(bank, CreateAuthorizations(a, block, infos, libraries).tokens);
            && o.Some?
            && (LabelKnown(a, tag) ==> Balance(o.value, tag, user) == Balance(bank, tag, user))
            && (forall i :: 0 <= i < |infos| && infos[i].tag == tag ==>
                  !LabelKnown(a, tag) && Balance(o.value, tag, user) == Share(infos[i].mode, user))
    decreases |infos|
  {
    hide AI.RecordsOk, AI.TableOk, RunTokens, Validate, Issue, DenomOk, Owed, Share;
    if infos == [] {
      EmptyTokens(bank);
    } else {
      var first, rest := infos[0], infos[1..];
      var o := CreateOne(a, block, first, libraries);
      assert AddsLabel(a, o.store, first.tag, first.mode);
      IssueKeeps(a, o.store, bank, first.tag, first.mode);
      AI.CreateOneKeeps(a, block, first, libraries);
      GrowsRecords(a, o.store);
      IssueShares(bank, first.tag, first.mode, tag, user);
      var bank1 := RunTokens(bank, o.tokens).value;
      CreateShares(o.store, block, rest, libraries, bank1, tag, user);
      TokensInTurn(bank, o.tokens, CreateAuthorizations(o.store, block, rest, libraries).tokens);
      forall i | 0 <= i < |infos| && infos[i].tag == tag
        ensures i > 0 ==> rest[i - 1] == infos[i]
      {
      }
    }
  }

  lemma {:induction false} CreateZkShares(a: AuthStore, auths: seq<ZkAuthorization>, bank: Bank, tag: Label, user: Addr)
    requires BankOk(a, bank) && AI.RecordsOk(a) && AI.TableOk(a)
    requires CreateZkAuthorizations(a, auths).Accepted?
    ensures var o := RunTokens(bank, CreateZkAuthorizations(a, auths).tokens);
            && o.Some?
            && (LabelKnown(a, tag) ==> Balance(o.value, tag, user) == Balance(bank, tag, user))
            && (forall i :: 0 <= i < |auths| && auths[i].tag == tag ==>
                  !LabelKnown(a, tag) && Balance(o.value, tag, user) == Share(auths[i].mode, user))
    decreases |auths|
  {
    hide AI.RecordsOk, RunTokens, Issue, DenomOk, Owed, Share, WellFormed;
    if auths == [] {
      EmptyTokens(bank);
    } else {
      var first, rest := auths[0], auths[1..];
      var o := CreateZkOne(a, first);
      assert AddsLabel(a, o.store, first.tag, first.mode);
      IssueKeeps(a, o.store, bank, first.tag, first.mode);
      assert AI.TableOk(o.store) && AI.Grows(a, o.store);
      GrowsRecords(a, o.store);
      IssueShares(bank, first.tag, first.mode, tag, user);
      var bank1 := RunTokens(bank, o.tokens).value;
      CreateZkShares(o.store, rest, bank1, tag, user);
      TokensInTurn(bank, o.tokens, CreateZkAuthorizations(o.store, rest).tokens);
      forall i | 0 <= i < |auths| && auths[i].tag == tag
        ensures i > 0 ==> rest[i - 1] == auths[i]
      {
      }
    }
  }

  lemma GrantAdds(a: AuthStore, t: Label, mints: seq<(Addr, nat)>, bank: Bank, tag: Label, user: Addr)
    requires BankOk(a, bank) && MintAuthorizations(a, t, mints).Accepted?
    ensures var o := RunTokens(bank, MintAuthorizations(a, t, mints).tokens);
            o.Some? &&
              Balance(o.value, tag, user) == Balance(bank, tag, user) + if t == tag then SumFor(mints, user) else 0
  {
    hide RunTokens, DenomOk, Owed, SumFor;
    assert HasToken(a, t);
    MintsAdd(bank, t, mints, tag, user);
  }

  lemma LedgersAt(w: World)
    requires Inv(w)
    ensures BankOk(w.auth, w.bank) && AI.RecordsOk(w.auth) && AI.TableOk(w.auth)
  {
    hide StageOk, SettledOk, ProcsOk, UsersOk, BankOk, AI.RecordsOk, AI.TableOk;
  }

  lemma AdministerFair(w: World, s: Step, v: World, tag: Label, user: Addr)
    requires Inv(w) && s.action.Administer? && TryStep(w, s) == Some(v)
    requires LabelKnown(w.auth, tag) && !Hands(s, tag)
    ensures SameAccounts(w, v, tag, user)
  {
    hide Inv, Used, RunTokens, CreateAuthorizations, CreateZkAuthorizations, MintAuthorizations, BankOk, AI.RecordsOk,
         AI.TableOk, Validate;
    var c := s.action.change;
    LedgersAt(w);
    TableRecords(w.auth, s.block, c);
    match c
    case Create(infos, libraries) => CreateShares(w.auth, s.block, infos, libraries, w.bank, tag, user);
    case CreateZk(auths) => CreateZkShares(w.auth, auths, w.bank, tag, user);
    case Grant(t, mints) => GrantAdds(w.auth, t, mints, w.bank, tag, user);
    case _ => EmptyTokens(w.bank);
  }

  /** In every run, a step that hands over no tokens of a limited label leaves every account as it was. */
  lemma AccountsAreKept(w: World, s: Step, v: World, tag: Label, user: Addr)
    requires Reachable(w) && v == Next(w, s) && IsLimited(w.auth, tag) && user != SELF && !Hands(s, tag)
    ensures SameAccounts(w, v, tag, user)
  {
    hide Reachable, Inv, TryStep, Account, OnceOnly, IsLimited;
    ReachableOk(w);
    StepKeeps(w, s);
    OnceAt(v);
    if TryStep(w, s).Some? {
      LimitedKnown(w.auth, tag);
      match s.action
      case Send(_, _, _, _, _) => SendFair(w, s, v, tag, user);
      case Insert(_, _, _, _) => InsertFair(w, s, v, tag, user);
      case Prove(_, _, _, _) => ProveFair(w, s, v, tag, user);
      case Retry(_) => RetryFair(w, s, v, tag, user);
      case Administer(_) => AdministerFair(w, s, v, tag, user);
      case Transfer(_, _, _, _) => TransferFair(w, s, v, tag, user);
      case _ => PacketFair(w, s, v, tag, user);
    }
  }

  lemma LimitedKnown(a: AuthStore, tag: Label)
    requires IsLimited(a, tag)
    ensures LabelKnown(a, tag)
  {
  }

  lemma TransferFair(w: World, s: Step, v: World, tag: Label, user: Addr)
    requires s.action.Transfer? && TryStep(w, s) == Some(v) && !Hands(s, tag)
    ensures SameAccounts(w, v, tag, user)
  {
    hide Used;
  }

  lemma ModeStays(a: AuthStore, block: Block, c: TableChange, tag: Label)
    requires AI.TableOk(a) && ChangeTable(a, block, c).Accepted? && LabelKnown(a, tag)
    ensures ModeOf(ChangeTable(a, block, c).store, tag) == ModeOf(a, tag)
  {
    hide CreateAuthorizations, CreateZkAuthorizations, Validate, WellFormed;
    match c
    case Create(infos, libraries) => AI.CreateKeeps(a, block, infos, libraries);
    case CreateZk(auths) => AI.CreateZkKeeps(a, auths);
    case _ =>
  }

  lemma LimitStays(w: World, s: Step, tag: Label)
    requires Inv(w) && IsLimited(w.auth, tag)
    ensures IsLimited(Next(w, s).auth, tag)
  {
    hide Inv, ChangeTable, RunTokens, AI.TableOk;
    if s.action.Administer? {
      LedgersAt(w);
      if ChangeTable(w.auth, s.block, s.action.change).Accepted? {
        ModeStays(w.auth, s.block, s.action.change, tag);
      }
    } else {
      EntriesStay(w, s);
    }
  }

  /** So over any part of a run in which tokens of the label are not handed over, what a user has left is what
      the user had, less one for every call since, and plus one for every call refunded since. */
  lemma {:induction false} AccountsLast(w: World, more: seq<Step>, v: World, tag: Label, user: Addr)
    requires Reachable(w) && v == RunFrom(w, more) && IsLimited(w.auth, tag) && user != SELF
    requires forall i :: 0 <= i < |more| ==> !Hands(more[i], tag)
    ensures Reachable(v) && IsLimited(v.auth, tag) && SameAccounts(w, v, tag, user)
    decreases |more|
  {
    hide Reachable, Next, Account, IsLimited, Inv, Hands;
    if more != [] {
      var most, s := more[..|more| - 1], more[|more| - 1];
      var u := RunFrom(w, most);
      AccountsLast(w, most, u, tag, user);
      AccountsAreKept(u, s, v, tag, user);
      ReachableNext(u, s);
      ReachableOk(u);
      LimitStays(u, s, tag);
    }
  }

  /** A new label gives every address exactly its share: the sum of its limits, or one for each mention. */
  lemma NewLabelsAreShared(w: World, block: Block, infos: seq<AuthorizationInfo>, libraries: set<string>, v: World,
                           i: nat, user: Addr)
    requires Reachable(w) && TryStep(w, Step(block, Administer(Create(infos, libraries)))) == Some(v) && i < |infos|
    ensures Balance(v.bank, infos[i].tag, user) == Share(infos[i].mode, user)
  {
    hide Reachable, Inv, RunTokens, CreateAuthorizations, BankOk, AI.RecordsOk, AI.TableOk, Share;
    ReachableOk(w);
    LedgersAt(w);
    CreateShares(w.auth, block, infos, libraries, w.bank, infos[i].tag, user);
  }

  /** A grant of the owner adds exactly the amounts granted. */
  lemma GrantsAreAdded(w: World, block: Block, tag: Label, mints: seq<(Addr, nat)>, v: World, t: Label, user: Addr)
    requires Reachable(w) && TryStep(w, Step(block, Administer(Grant(tag, mints)))) == Some(v)
    ensures Balance(v.bank, t, user) == Balance(w.bank, t, user) + if t == tag then SumFor(mints, user) else 0
  {
    hide Reachable, Inv, RunTokens, MintAuthorizations, BankOk, AI.RecordsOk, AI.TableOk, SumFor;
    ReachableOk(w);
    LedgersAt(w);
    GrantAdds(w.auth, tag, mints, w.bank, t, user);
  }

  /** A transfer gets through exactly when the sender, which is not the contract, has the tokens, and moves
      exactly those. */
  lemma TransfersMove(w: World, block: Block, tag: Label, from: Addr, to: Addr, amount: nat)
    ensures var o := TryStep(w, Step(block, Transfer(tag, from, to, amount)));
            && (o.Some? <==> tag in w.bank && from != SELF && amount <= Balance(w.bank, tag, from))
            && (o.Some? ==> Pays(w.bank, o.value.bank, tag, from, Some(to), amount) && o.value.auth == w.auth)
  {
  }
}
