/** The tokens: none is lost, the contract always holds one for every open call that paid, and
    each call is settled once. */
module ProtocolTokens {
  import opened Types
  import opened Validation
  import opened AuthorizationModel
  import opened AuthorizationInvariant
  import opened Protocol

  /** Results that leave the token of the call with the contract. */
  predicate IsOpen(r: ExecutionResult) {
    r.InProcess? || r == Timeout(true) || r.UnexpectedError?
  }

  ghost function OpenIds(records: map<nat, Record>, tag: Label): set<nat> {
    set id | id in records && records[id].tag == tag && records[id].initiator.User? && IsOpen(records[id].result)
  }

  predicate IsLimited(a: AuthStore, tag: Label) {
    ModeOf(a, tag).Some? && ModeOf(a, tag).value.WithCallLimit?
  }

  /** How many tokens of the label the open calls have paid. */
  ghost function Owed(a: AuthStore, tag: Label): nat {
    if IsLimited(a, tag) then |OpenIds(a.records, tag)| else 0
  }

  ghost predicate DenomOk(d: Denom, owed: nat) {
    d.minted == |d.holders| + d.burned && d.holders[SELF] == owed + d.stranded
  }

  ghost predicate HasToken(a: AuthStore, tag: Label) {
    ModeOf(a, tag).Some? && !ModeOf(a, tag).value.Permissionless?
  }

  ghost predicate BankOk(a: AuthStore, bank: Bank) {
    && (forall t: Label :: t in bank <==> HasToken(a, t))
    && (forall t :: t in bank ==> DenomOk(bank[t], Owed(a, t)))
  }

  ghost predicate UsersOk(a: AuthStore) {
    forall id :: id in a.records && a.records[id].initiator.User? ==> a.records[id].initiator.addr != SELF
  }

  /** The call of `id` paid a token, and its result leaves nothing open. */
  ghost predicate Due(a: AuthStore, id: nat) {
    id in a.records && PaysToken(a, a.records[id]) && !IsOpen(a.records[id].result)
  }

  ghost predicate SettledAt(a: AuthStore, id: nat, refunded: multiset<nat>, burnt: multiset<nat>) {
    && refunded[id] == (if Due(a, id) && !Burns(a.records[id].result) then 1 else 0)
    && burnt[id] == (if Due(a, id) && Burns(a.records[id].result) then 1 else 0)
  }

  ghost predicate SettledOk(a: AuthStore, refunded: multiset<nat>, burnt: multiset<nat>) {
    forall id: nat :: SettledAt(a, id, refunded, burnt)
  }

  ghost predicate TokensOk(w: World) {
    BankOk(w.auth, w.bank) && UsersOk(w.auth) && SettledOk(w.auth, w.refunded, w.burnt)
  }

  /** The labels mean the same to the tokens. */
  ghost predicate SameModes(a: AuthStore, b: AuthStore) {
    forall t: Label :: ModeOf(b, t) == ModeOf(a, t)
  }

  // ----- One record changes -----

  lemma OpenIdsUpdate(records: map<nat, Record>, id: nat, r: Record, tag: Label)
    ensures OpenIds(records[id := r], tag) ==
            (OpenIds(records, tag) - {id})
            + (if r.tag == tag && r.initiator.User? && IsOpen(r.result) then {id} else {})
    ensures id in OpenIds(records, tag) <==>
              id in records && records[id].tag == tag && records[id].initiator.User? && IsOpen(records[id].result)
  {
  }

  /** The change in what is owed when the record of `id` becomes `r`. */
  lemma OwedUpdate(a: AuthStore, b: AuthStore, id: nat, r: Record, t: Label)
    requires SameModes(a, b) && b.records == a.records[id := r]
    requires id in a.records ==> a.records[id].tag == r.tag && a.records[id].initiator == r.initiator
    ensures var was := id in a.records && IsOpen(a.records[id].result);
            Owed(b, t) == Owed(a, t) +
              (if t == r.tag && IsLimited(a, t) && r.initiator.User?
               then (if IsOpen(r.result) then 1 else 0) - (if was then 1 else 0) else 0)
  {
    hide OpenIds;
    OpenIdsUpdate(a.records, id, r, t);
  }

  lemma BankSame(a: AuthStore, b: AuthStore, bank: Bank, tag: Label, d: Denom)
    requires BankOk(a, bank) && SameModes(a, b)
    requires forall t: Label :: t != tag ==> Owed(b, t) == Owed(a, t)
    requires tag in bank && DenomOk(d, Owed(b, tag))
    ensures BankOk(b, bank[tag := d])
  {
    hide Owed, DenomOk;
  }

  lemma BankUntouched(a: AuthStore, b: AuthStore, bank: Bank)
    requires BankOk(a, bank) && SameModes(a, b)
    requires forall t: Label :: Owed(b, t) == Owed(a, t)
    ensures BankOk(b, bank)
  {
    hide Owed, DenomOk;
  }

  // ----- A call opens -----

  /** A new record, with the token its user attached. */
  lemma OpenKeeps(w: World, b: AuthStore, r: Record, paid: Option<nat>, backed: bool, from: Addr, bank: Bank)
    requires TokensOk(w) && SameModes(w.auth, b)
    requires w.auth.nextId !in w.auth.records && b.records == w.auth.records[w.auth.nextId := r]
    requires r.result.InProcess? && from != SELF
    requires r.initiator.User? ==> r.initiator.addr != SELF
    requires Pay(w.bank, r.tag, from, paid, backed) == Some(bank)
    requires backed == (IsLimited(w.auth, r.tag) && r.initiator.User?)
    requires backed ==> paid == Some(1)
    ensures TokensOk(w.(auth := b, bank := bank))
  {
    hide OpenIds, DenomOk, Owed;
    var a, id, tag := w.auth, w.auth.nextId, r.tag;
    forall t: Label
      ensures Owed(b, t) == Owed(a, t) + if t == tag && backed then 1 else 0
    {
      OwedUpdate(a, b, id, r, t);
    }
    if paid.None? {
      BankUntouched(a, b, w.bank);
    } else {
      PaidOk(w.bank[tag], from, paid.value, backed, Owed(a, tag));
      BankSame(a, b, w.bank, tag, bank[tag]);
    }
    SettledSame(a, b, id, r, w.refunded, w.burnt);
  }

  lemma PaidOk(d: Denom, from: Addr, amount: nat, backed: bool, owed: nat)
    requires DenomOk(d, owed) && from != SELF && amount <= d.holders[from]
    requires backed ==> amount == 1
    ensures DenomOk(d.(holders := Moved(d, from, SELF, amount), stranded := d.stranded + if backed then 0 else amount),
                    owed + if backed then 1 else 0)
  {
  }

  ghost predicate SameDue(a: AuthStore, b: AuthStore, id: nat) {
    Due(b, id) == Due(a, id) && (Due(a, id) ==> Burns(b.records[id].result) == Burns(a.records[id].result))
  }

  /** As long as the same calls are due, the same calls are settled. */
  lemma SettledFollow(a: AuthStore, b: AuthStore, refunded: multiset<nat>, burnt: multiset<nat>)
    requires SettledOk(a, refunded, burnt) && forall id: nat :: SameDue(a, b, id)
    ensures SettledOk(b, refunded, burnt)
  {
    hide Due, Burns;
    forall id: nat
      ensures SettledAt(b, id, refunded, burnt)
    {
      assert SettledAt(a, id, refunded, burnt) && SameDue(a, b, id);
    }
  }

  /** Opening a record settles nothing. */
  lemma SettledSame(a: AuthStore, b: AuthStore, id: nat, r: Record, refunded: multiset<nat>, burnt: multiset<nat>)
    requires SettledOk(a, refunded, burnt) && SameModes(a, b) && b.records == a.records[id := r]
    requires IsOpen(r.result) && (id in a.records ==> IsOpen(a.records[id].result))
    ensures SettledOk(b, refunded, burnt)
  {
    hide IsOpen, SettledOk, Burns;
    assert forall k: nat :: SameDue(a, b, k);
    SettledFollow(a, b, refunded, burnt);
  }

  // ----- A call is settled -----

  /** The token messages for a call whose result becomes `result`. */
  function Settlement(a: AuthStore, r: Record, result: ExecutionResult): seq<TokenMsg> {
    if !PaysToken(a, r) || IsOpen(result) then []
    else if Burns(result) then [Burn(r.tag)]
    else [Refund(r.tag, r.initiator.addr)]
  }

  lemma OpenCounts(a: AuthStore, id: nat)
    requires id in a.records && IsOpen(a.records[id].result) && PaysToken(a, a.records[id])
    ensures Owed(a, a.records[id].tag) > 0
  {
    assert id in OpenIds(a.records, a.records[id].tag);
  }

  lemma BurnedOk(d: Denom, owed: nat)
    requires DenomOk(d, owed) && owed > 0
    ensures d.holders[SELF] > 0
    ensures DenomOk(d.(holders := d.holders - multiset{SELF}, burned := d.burned + 1), owed - 1)
  {
  }

  lemma RefundedOk(d: Denom, owed: nat, to: Addr)
    requires DenomOk(d, owed) && owed > 0 && to != SELF
    ensures d.holders[SELF] > 0
    ensures DenomOk(d.(holders := d.holders - multiset{SELF} + multiset{to}), owed - 1)
  {
  }

  lemma OneToken(bank: Bank, m: TokenMsg)
    ensures RunTokens(bank, [m]) == RunToken(bank, m)
  {
    assert [m][1..] == [];
  }

  /** The bank after a settlement. The contract always has the token it needs. */
  lemma SettleBank(a: AuthStore, b: AuthStore, bank: Bank, id: nat, r: Record)
    requires BankOk(a, bank) && UsersOk(a) && SameModes(a, b)
    requires id in a.records && IsOpen(a.records[id].result) && b.records == a.records[id := r]
    requires r.tag == a.records[id].tag && r.initiator == a.records[id].initiator
    ensures RunTokens(bank, Settlement(a, a.records[id], r.result)).Some?
    ensures BankOk(b, RunTokens(bank, Settlement(a, a.records[id], r.result)).value)
  {
    hide OpenIds, DenomOk, Owed, IsOpen, Burns, RunTokens;
    var tag, ms := r.tag, Settlement(a, a.records[id], r.result);
    forall t: Label
      ensures Owed(b, t) == Owed(a, t) -
                if t == tag && IsLimited(a, t) && r.initiator.User? && !IsOpen(r.result) then 1 else 0
    {
      OwedUpdate(a, b, id, r, t);
    }
    if ms == [] {
      EmptyTokens(bank);
      BankUntouched(a, b, bank);
    } else {
      OpenCounts(a, id);
      var d := bank[tag];
      OneToken(bank, ms[0]);
      if ms[0].Burn? {
        BurnedOk(d, Owed(a, tag));
        BankSame(a, b, bank, tag, d.(holders := d.holders - multiset{SELF}, burned := d.burned + 1));
      } else {
        RefundedOk(d, Owed(a, tag), r.initiator.addr);
        BankSame(a, b, bank, tag, d.(holders := d.holders - multiset{SELF} + multiset{r.initiator.addr}));
      }
    }
  }

  lemma EmptyTokens(bank: Bank)
    ensures RunTokens(bank, []) == Some(bank)
  {
  }

  lemma SettleHistory(a: AuthStore, b: AuthStore, id: nat, r: Record, refunded: multiset<nat>, burnt: multiset<nat>)
    requires SettledOk(a, refunded, burnt) && SameModes(a, b)
    requires id in a.records && IsOpen(a.records[id].result) && b.records == a.records[id := r]
    requires r.tag == a.records[id].tag && r.initiator == a.records[id].initiator
    ensures var ms := Settlement(a, a.records[id], r.result);
            SettledOk(b, refunded + RefundsOf(id, ms), burnt + BurnsOf(id, ms))
  {
    hide IsOpen, Burns, SettledOk, SameModes;
    var ms := Settlement(a, a.records[id], r.result);
    forall k: nat
      ensures SettledAt(b, k, refunded + RefundsOf(id, ms), burnt + BurnsOf(id, ms))
    {
      SettledIs(a, refunded, burnt, k);
      ModeSame(a, b, if k in a.records then a.records[k].tag else r.tag);
    }
    SettledAll(b, refunded + RefundsOf(id, ms), burnt + BurnsOf(id, ms));
  }

  lemma SettledIs(a: AuthStore, refunded: multiset<nat>, burnt: multiset<nat>, id: nat)
    requires SettledOk(a, refunded, burnt)
    ensures SettledAt(a, id, refunded, burnt)
  {
    hide SettledAt;
  }

  lemma SettledAll(a: AuthStore, refunded: multiset<nat>, burnt: multiset<nat>)
    requires forall id: nat :: SettledAt(a, id, refunded, burnt)
    ensures SettledOk(a, refunded, burnt)
  {
    hide SettledAt;
  }

  lemma ModeSame(a: AuthStore, b: AuthStore, t: Label)
    requires SameModes(a, b)
    ensures ModeOf(b, t) == ModeOf(a, t)
  {
  }

  lemma SettleKeeps(w: World, b: AuthStore, id: nat, r: Record)
    requires TokensOk(w) && SameModes(w.auth, b)
    requires id in w.auth.records && IsOpen(w.auth.records[id].result)
    requires b.records == w.auth.records[id := r]
    requires r.tag == w.auth.records[id].tag && r.initiator == w.auth.records[id].initiator
    ensures var o := Settle(w.(auth := b), id, Settlement(w.auth, w.auth.records[id], r.result));
            && o.Some? && TokensOk(o.value)
            && o.value == w.(auth := b, bank := o.value.bank, refunded := o.value.refunded, burnt := o.value.burnt)
  {
    hide BankOk, SettledOk, Settlement, RunTokens;
    SettleBank(w.auth, b, w.bank, id, r);
    SettleHistory(w.auth, b, id, r, w.refunded, w.burnt);
  }

  // ----- The owner creates labels and grants tokens -----

  lemma MintedOk(d: Denom, owed: nat, to: Addr, amount: nat)
    requires DenomOk(d, owed)
    ensures DenomOk(MintTo(d, to, amount), owed)
  {
  }

  /** Minting concerns one denom and keeps it in order. */
  lemma {:induction false} MintAll(bank: Bank, ms: seq<TokenMsg>, tag: Label, owed: nat)
    requires tag in bank && DenomOk(bank[tag], owed)
    requires forall i :: 0 <= i < |ms| ==> ms[i].Mint? && ms[i].tag == tag
    ensures RunTokens(bank, ms).Some?
    ensures var b := RunTokens(bank, ms).value; tag in b && b == bank[tag := b[tag]] && DenomOk(b[tag], owed)
    decreases |ms|
  {
    hide DenomOk;
    if ms != [] {
      MintedOk(bank[tag], owed, ms[0].to, ms[0].amount);
      MintAll(bank[tag := MintTo(bank[tag], ms[0].to, ms[0].amount)], ms[1..], tag, owed);
    }
  }

  lemma NoOpenCalls(a: AuthStore, tag: Label)
    requires RecordsOk(a) && !LabelKnown(a, tag)
    ensures OpenIds(a.records, tag) == {}
  {
    hide ValidateMessages, DomainOf;
    assert forall id :: id in a.records ==> RecordOk(a, a.records[id]) && a.records[id].tag != tag;
  }

  /** A new label and nothing else. */
  ghost predicate AddsLabel(a: AuthStore, b: AuthStore, tag: Label, mode: Mode) {
    && !LabelKnown(a, tag) && ModeOf(b, tag) == Some(mode)
    && b.records == a.records
    && forall t: Label :: t != tag ==> ModeOf(b, t) == ModeOf(a, t)
  }

  lemma IssueKeeps(a: AuthStore, b: AuthStore, bank: Bank, tag: Label, mode: Mode)
    requires BankOk(a, bank) && RecordsOk(a) && AddsLabel(a, b, tag, mode)
    ensures RunTokens(bank, Issue(tag, mode)).Some?
    ensures BankOk(b, RunTokens(bank, Issue(tag, mode)).value)
  {
    hide RecordsOk, RunTokens, DenomOk, OpenIds;
    NoOpenCalls(a, tag);
    assert forall t: Label :: t != tag ==> Owed(b, t) == Owed(a, t);
    assert Owed(b, tag) == 0;
    var ms := Issue(tag, mode);
    if mode.Permissionless? {
      EmptyTokens(bank);
    } else {
      assert tag !in bank;
      var bank1 := bank[tag := Denom(multiset{}, 0, 0, 0)];
      assert DenomOk(bank1[tag], 0) by { FreshDenom(); }
      MintAll(bank1, ms[1..], tag, 0);
      FirstToken(bank, ms);
    }
  }

  lemma FreshDenom()
    ensures DenomOk(Denom(multiset{}, 0, 0, 0), 0)
  {
  }

  lemma FirstToken(bank: Bank, ms: seq<TokenMsg>)
    requires ms != []
    ensures RunTokens(bank, ms) ==
            match RunToken(bank, ms[0]) case None => None case Some(b) => RunTokens(b, ms[1..])
  {
  }

  lemma {:induction false} TokensInTurn(bank: Bank, xs: seq<TokenMsg>, ys: seq<TokenMsg>)
    ensures RunTokens(bank, xs + ys) ==
            match RunTokens(bank, xs) case None => None case Some(b) => RunTokens(b, ys)
    decreases |xs|
  {
    if xs == [] {
      assert xs + ys == ys;
    } else {
      assert (xs + ys)[1..] == xs[1..] + ys && (xs + ys)[0] == xs[0];
      if RunToken(bank, xs[0]).Some? {
        TokensInTurn(RunToken(bank, xs[0]).value, xs[1..], ys);
      }
    }
  }

  lemma {:induction false} CreateBank(a: AuthStore, block: Block, infos: seq<AuthorizationInfo>,
                                      libraries: set<string>, bank: Bank)
    requires BankOk(a, bank) && RecordsOk(a) && TableOk(a)
    requires CreateAuthorizations(a, block, infos, libraries).Accepted?
    ensures var o := CreateAuthorizations(a, block, infos, libraries);
            RunTokens(bank, o.tokens).Some? && BankOk(o.store, RunTokens(bank, o.tokens).value)
    decreases |infos|
  {
    hide RecordsOk, TableOk, BankOk, RunTokens, Validate, Issue;
    if infos == [] {
      EmptyTokens(bank);
    } else {
      var o := CreateOne(a, block, infos[0], libraries);
      assert AddsLabel(a, o.store, infos[0].tag, infos[0].mode);
      IssueKeeps(a, o.store, bank, infos[0].tag, infos[0].mode);
      CreateOneKeeps(a, block, infos[0], libraries);
      GrowsRecords(a, o.store);
      var bank1 := RunTokens(bank, o.tokens).value;
      CreateBank(o.store, block, infos[1..], libraries, bank1);
      TokensInTurn(bank, o.tokens, CreateAuthorizations(o.store, block, infos[1..], libraries).tokens);
    }
  }

  lemma GrowsRecords(a: AuthStore, b: AuthStore)
    requires RecordsOk(a) && Grows(a, b)
    ensures RecordsOk(b)
  {
    hide ValidateMessages, DomainOf;
    forall id | id in b.records
      ensures RecordOk(b, b.records[id])
    {
      assert RecordOk(a, a.records[id]);
    }
  }

  lemma {:induction false} CreateZkBank(a: AuthStore, auths: seq<ZkAuthorization>, bank: Bank)
    requires BankOk(a, bank) && RecordsOk(a) && TableOk(a)
    requires CreateZkAuthorizations(a, auths).Accepted?
    ensures var o := CreateZkAuthorizations(a, auths);
            RunTokens(bank, o.tokens).Some? && BankOk(o.store, RunTokens(bank, o.tokens).value)
    decreases |auths|
  {
    hide RecordsOk, BankOk, RunTokens, Issue, WellFormed;
    if auths == [] {
      EmptyTokens(bank);
    } else {
      var o := CreateZkOne(a, auths[0]);
      assert AddsLabel(a, o.store, auths[0].tag, auths[0].mode);
      IssueKeeps(a, o.store, bank, auths[0].tag, auths[0].mode);
      assert TableOk(o.store) && Grows(a, o.store);
      GrowsRecords(a, o.store);
      var bank1 := RunTokens(bank, o.tokens).value;
      CreateZkBank(o.store, auths[1..], bank1);
      TokensInTurn(bank, o.tokens, CreateZkAuthorizations(o.store, auths[1..]).tokens);
    }
  }

  lemma GrantBank(a: AuthStore, bank: Bank, tag: Label, mints: seq<(Addr, nat)>)
    requires BankOk(a, bank) && MintAuthorizations(a, tag, mints).Accepted?
    ensures var o := MintAuthorizations(a, tag, mints);
            RunTokens(bank, o.tokens).Some? && BankOk(a, RunTokens(bank, o.tokens).value)
  {
    hide RunTokens, DenomOk, Owed;
    MintAll(bank, MintAuthorizations(a, tag, mints).tokens, tag, Owed(a, tag));
  }

  /** A larger table changes nothing for the calls already made. */
  lemma GrowsSettled(a: AuthStore, b: AuthStore, refunded: multiset<nat>, burnt: multiset<nat>)
    requires SettledOk(a, refunded, burnt) && UsersOk(a) && RecordsOk(a) && Grows(a, b)
    ensures SettledOk(b, refunded, burnt) && UsersOk(b)
  {
    hide ValidateMessages, DomainOf, IsOpen, Burns, SettledOk;
    forall id: nat
      ensures SameDue(a, b, id)
    {
      if id in a.records {
        assert RecordOk(a, a.records[id]);
      }
    }
    SettledFollow(a, b, refunded, burnt);
  }

  lemma SameModesBank(a: AuthStore, b: AuthStore, bank: Bank)
    requires BankOk(a, bank) && SameModes(a, b) && b.records == a.records
    ensures BankOk(b, bank)
  {
    hide DenomOk, OpenIds;
    BankUntouched(a, b, bank);
  }

  // ----- Tokens change hands -----

  lemma MovedOk(d: Denom, from: Addr, to: Addr, amount: nat, owed: nat)
    requires DenomOk(d, owed) && from != SELF && amount <= d.holders[from]
    ensures DenomOk(d.(holders := Moved(d, from, to, amount),
                       stranded := d.stranded + if to == SELF then amount else 0), owed)
  {
  }

  lemma TransferKeeps(w: World, tag: Label, from: Addr, to: Addr, amount: nat)
    requires TokensOk(w) && DoTransfer(w, tag, from, to, amount).Some?
    ensures TokensOk(DoTransfer(w, tag, from, to, amount).value)
  {
    hide DenomOk, Owed, SettledOk;
    MovedOk(w.bank[tag], from, to, amount, Owed(w.auth, tag));
  }
}
