/** The tokens the contract holds. Unless somebody gives it tokens for nothing, it holds exactly one
    for every open call that paid one. */
module ProtocolEscrow {
  import opened Types
  import opened AuthorizationModel
  import opened Protocol
  import opened ProtocolTokens
  import opened ProtocolTheorems
  import P = ProcessorModel

  function Stranded(bank: Bank, tag: Label): nat { if tag in bank then bank[tag].stranded else 0 }

  ghost predicate NoGift(ms: seq<TokenMsg>, tag: Label) {
    forall i :: 0 <= i < |ms| && ms[i].Mint? && ms[i].tag == tag ==> ms[i].to != SELF
  }

  /** A step by which the contract gets tokens of the label without owing a call: a payment the call
      does not need, a donation, or a grant to the contract itself. */
  ghost predicate Gives(w: World, s: Step, tag: Label) {
    match s.action
    case Send(_, t, _, _, paid) =>
      t == tag && paid.Some? && t in w.auth.authorizations && !w.auth.authorizations[t].mode.WithCallLimit?
    case Prove(_, t, zk, paid) =>
      t == tag && paid.Some? && t in w.auth.zkAuthorizations &&
      !(w.auth.zkAuthorizations[t].mode.WithCallLimit? && zk.msg.CarriesBatch())
    case Transfer(t, _, to, _) => t == tag && to == SELF
    case Administer(c) =>
      var o := ChangeTable(w.auth, s.block, c);
      o.Accepted? && !NoGift(o.tokens, tag)
    case _ => false
  }

  ghost predicate Keeps(bank: Bank, o: Option<World>, tag: Label) {
    o.Some? ==> Stranded(o.value.bank, tag) == Stranded(bank, tag)
  }

  lemma {:induction false} TokensKeep(bank: Bank, ms: seq<TokenMsg>, tag: Label)
    requires NoGift(ms, tag) && RunTokens(bank, ms).Some?
    ensures Stranded(RunTokens(bank, ms).value, tag) == Stranded(bank, tag)
    decreases |ms|
  {
    if ms != [] {
      TokensKeep(RunToken(bank, ms[0]).value, ms[1..], tag);
    }
  }

  lemma ApplyKeeps(w: World, id: nat, o: AuthOutcome, tag: Label)
    requires o.Accepted? ==> NoGift(o.tokens, tag)
    ensures Keeps(w.bank, Apply(w, id, o), tag)
  {
    hide RunTokens, NoGift;
    if o.Accepted? && RunTokens(w.bank, o.tokens).Some? {
      TokensKeep(w.bank, o.tokens, tag);
    }
  }

  /** Settling a call mints nothing. */
  lemma NoMints(a: AuthStore, block: Block, id: nat, result: ExecutionResult, ack: Ack, tag: Label)
    ensures var o := ProcessorCallback(a, block, id, result); o.Accepted? ==> NoGift(o.tokens, tag)
    ensures var o := BridgeCallback(a, block, id, ack); o.Accepted? ==> NoGift(o.tokens, tag)
    ensures var o := RetryMsgs(a, block, id); o.Accepted? ==> NoGift(o.tokens, tag)
  {
  }

  lemma AfterKeeps(w: World, d: Domain, o: P.Outcome, block: Block, tag: Label)
    ensures Keeps(w.bank, After(w, d, o, block), tag)
  {
    hide ProcessorCallback, BridgeCallback, RetryMsgs, Apply, NoGift;
    if o.Done? && o.report.Some? {
      var v := w.(procs := w.procs[d := o.store]);
      NoMints(w.auth, block, o.report.value.id, o.report.value.result, AckOk, tag);
      ApplyKeeps(v, o.report.value.id, ProcessorCallback(w.auth, block, o.report.value.id, o.report.value.result), tag);
    }
  }

  lemma OpenedKeeps(w: World, o: AuthOutcome, block: Block, tag: Label)
    ensures Keeps(w.bank, Opened(w, o, block), tag)
  {
    hide After, P.Handle;
    if o.Accepted? && o.call.Some? && Main in w.procs {
      AfterKeeps(w.(auth := o.store), Main, P.Handle(w.procs[Main], o.call.value.msg, block), block, tag);
    }
  }

  lemma PayKeeps(bank: Bank, t: Label, from: Addr, paid: Option<nat>, backed: bool, tag: Label)
    requires Pay(bank, t, from, paid, backed).Some? && (t == tag && paid.Some? ==> backed)
    ensures Stranded(Pay(bank, t, from, paid, backed).value, tag) == Stranded(bank, tag)
  {
  }

  lemma CallKeeps(w: World, s: Step, tag: Label)
    requires !Gives(w, s, tag) && (s.action.Send? || s.action.Insert? || s.action.Prove?)
    ensures Keeps(w.bank, TryStep(w, s), tag)
  {
    hide Opened, SendMsgs, InsertMessages, ExecuteZk, Pay, ReachesProcessor;
    if TryStep(w, s).Some? {
      match s.action
      case Send(sender, t, ttl, msgs, paid) =>
        var backed := w.auth.authorizations[t].mode.WithCallLimit?;
        PayKeeps(w.bank, t, sender, paid, backed, tag);
        var bank := Pay(w.bank, t, sender, paid, backed).value;
        OpenedKeeps(w.(bank := bank), SendMsgs(w.auth, s.block, sender, t, ttl, msgs, paid, Balance(bank, t, sender)),
                    s.block, tag);
      case Insert(t, position, priority, msgs) =>
        OpenedKeeps(w, InsertMessages(w.auth, s.block, t, position, priority, msgs), s.block, tag);
      case Prove(sender, t, zk, paid) =>
        var backed := w.auth.zkAuthorizations[t].mode.WithCallLimit? && zk.msg.CarriesBatch();
        PayKeeps(w.bank, t, sender, paid, backed, tag);
        var bank := Pay(w.bank, t, sender, paid, backed).value;
        OpenedKeeps(w.(bank := bank), ExecuteZk(w.auth, s.block, sender, t, zk, paid, Balance(bank, t, sender)),
                    s.block, tag);
    }
  }

  lemma OtherKeeps(w: World, s: Step, tag: Label)
    requires s.action.Retry? || s.action.DeliverOut? || s.action.AckOut? || s.action.DeliverIn? || s.action.AckIn? ||
             s.action.AtProcessor?
    ensures Keeps(w.bank, TryStep(w, s), tag)
  {
    hide Opened, RetryMsgs, ProcessorCallback, BridgeCallback, Apply, After, P.Handle, P.Serve, P.ResultAck, NoGift;
    if TryStep(w, s).Some? {
      match s.action
      case Retry(id) =>
        NoMints(w.auth, s.block, id, Success, AckOk, tag);
        OpenedKeeps(w, RetryMsgs(w.auth, s.block, id), s.block, tag);
        ApplyKeeps(w, id, RetryMsgs(w.auth, s.block, id), tag);
      case DeliverOut(n, _) =>
        var d := w.outs[n].domain;
        AfterKeeps(LandOut(w, n, AckOk), d, P.Handle(w.procs[d], w.outs[n].body, s.block), s.block, tag);
      case AckOut(n) =>
        var id, ack := w.outs[n].id, w.outs[n].flight.ack;
        NoMints(w.auth, s.block, id, Success, ack, tag);
        ApplyKeeps(w.(outs := w.outs[..n] + w.outs[n + 1..]), id, BridgeCallback(w.auth, s.block, id, ack), tag);
      case DeliverIn(n, _) =>
        var k := w.ins[n];
        NoMints(w.auth, s.block, k.id, k.body, AckOk, tag);
        ApplyKeeps(LandIn(w, n, AckOk), k.id, ProcessorCallback(w.auth, s.block, k.id, k.body), tag);
      case AckIn(_) =>
      case AtProcessor(d, input) => AfterKeeps(w, d, P.Serve(w.procs[d], input, s.block), s.block, tag);
    }
  }

  lemma StepGives(w: World, s: Step, tag: Label)
    requires !Gives(w, s, tag)
    ensures Stranded(Next(w, s).bank, tag) == Stranded(w.bank, tag)
  {
    hide DoSend, DoInsert, DoProve, DoRetry, DoDeliverOut, DoAckOut, DoDeliverIn, DoAckIn, DoAtProcessor, ChangeTable,
         RunTokens, NoGift;
    match s.action
    case Administer(c) =>
      var o := ChangeTable(w.auth, s.block, c);
      if o.Accepted? && RunTokens(w.bank, o.tokens).Some? { TokensKeep(w.bank, o.tokens, tag); }
    case Transfer(_, _, _, _) =>
    case Send(_, _, _, _, _) => CallKeeps(w, s, tag);
    case Insert(_, _, _, _) => CallKeeps(w, s, tag);
    case Prove(_, _, _, _) => CallKeeps(w, s, tag);
    case _ => OtherKeeps(w, s, tag);
  }

  lemma {:induction false} NothingStranded(steps: seq<Step>, w: World, tag: Label)
    requires w == Run(steps)
    requires forall i :: 0 <= i < |steps| ==> !Gives(Run(steps[..i]), steps[i], tag)
    ensures Stranded(w.bank, tag) == 0
    decreases |steps|
  {
    hide Next, Gives;
    if steps != [] {
      var most := steps[..|steps| - 1];
      forall i | 0 <= i < |most|
        ensures !Gives(Run(most[..i]), most[i], tag)
      {
        assert most[..i] == steps[..i] && most[i] == steps[i];
      }
      var before := Run(most);
      NothingStranded(most, before, tag);
      assert !Gives(before, steps[|steps| - 1], tag);
      StepGives(before, steps[|steps| - 1], tag);
    }
  }

  /** In every run in which nobody gives the contract tokens of a limited label for nothing, it holds
      exactly one for each open call of a user: in process, timed out but retriable, or failed
      unexpectedly. */
  lemma EscrowIsExact(steps: seq<Step>, w: World, tag: Label)
    requires w == Run(steps) && IsLimited(w.auth, tag)
    requires forall i :: 0 <= i < |steps| ==> !Gives(Run(steps[..i]), steps[i], tag)
    ensures tag in w.bank && w.bank[tag].holders[SELF] == |OpenIds(w.auth.records, tag)|
  {
    hide Run, Gives, OpenIds;
    TokensAreConserved(w, tag);
    NothingStranded(steps, w, tag);
  }
}
