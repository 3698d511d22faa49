/** How any subroutine that can be called gets called: from the beginning, the owner adds its domain and
    creates a label that one user may call once, and the user calls it. */
module ProtocolOpening {
  import opened Types
  import opened Validation
  import opened AuthorizationModel
  import opened Protocol
  import opened ProtocolTokens
  import opened ProtocolTable
  import opened ProcessorAlone
  import P = ProcessorModel

  const NOW := Block(1, 1)
  const TAG: Label := "swap"
  const USER: Addr := "user"

  /** Only the user may call it, and only once. */
  function Info(s: Subroutine): AuthorizationInfo {
    AuthorizationInfo(TAG, WithCallLimit([(USER, 1)]), Never, Forever, None, s, None)
  }

  function DomainsWith(d: Domain): map<string, Environment> {
    if d.Main? then map[] else map[d.name := Cosmwasm(ProxyPending)]
  }

  /** The subroutine can be stored when its domain runs CosmWasm, and it takes these messages. */
  ghost predicate Callable(s: Subroutine, msgs: seq<ProcessorMessage>) {
    && DomainOf(s).Some?
    && WellFormed(Info(s).ToAuthorization(NOW), DomainsWith(DomainOf(s).value))
    && ValidateMessages(s, msgs).None?
  }

  // ----- The domain -----

  function ConfigOf(d: Domain): P.Config {
    P.Config(if d.Main? then P.OnMain else P.OnExternal(ProxyPending), false)
  }

  /** The system when it knows the domain `d` and nothing else. */
  function Base(d: Domain): World {
    Genesis().(auth := Initial().(domains := DomainsWith(d)), procs := Genesis().procs[d := P.Fresh(ConfigOf(d))])
  }

  lemma BaseReached(d: Domain)
    ensures Reachable(Base(d))
  {
    assert Genesis() == Run([]);
    if d.Main? {
      assert Base(d) == Genesis();
    } else {
      var s := Step(NOW, Administer(NewDomain(d.name, false)));
      assert Next(Genesis(), s) == Base(d);
      ReachableNext(Genesis(), s);
    }
  }

  // ----- The label -----

  function Stored(d: Domain, s: Subroutine): AuthStore {
    Initial().(domains := DomainsWith(d), authorizations := map[TAG := Info(s).ToAuthorization(NOW)])
  }

  function Created(d: Domain, s: Subroutine): World {
    Base(d).(auth := Stored(d, s), bank := map[TAG := Denom(multiset{USER}, 1, 0, 0)])
  }

  lemma StoresOne(d: Domain, s: Subroutine, tokens: seq<TokenMsg>)
    requires DomainOf(s) == Some(d) && WellFormed(Info(s).ToAuthorization(NOW), DomainsWith(d))
    requires tokens == [CreateDenom(TAG), Mint(TAG, USER, 1)]
    ensures CreateAuthorizations(Base(d).auth, NOW, [Info(s)], {}) == Accepted(Stored(d, s), None, tokens)
  {
    hide Validate;
    var a := Info(s).ToAuthorization(NOW);
    assert LibrariesKnown(s.Calls(), {}) by { CosmwasmCalls(a, d); }
    ValidateIff(a, DomainsWith(d), {});
    assert Issue(TAG, WithCallLimit([(USER, 1)])) == tokens;
    assert [Info(s)][1..] == [] && tokens + [] == tokens;
    assert CreateAuthorizations(Stored(d, s), NOW, [], {}) == Accepted(Stored(d, s), None, []);
  }

  lemma CosmwasmCalls(a: Authorization, d: Domain)
    requires DomainOf(a.subroutine) == Some(d) && WellFormed(a, DomainsWith(d))
    ensures forall i :: 0 <= i < |a.subroutine.Calls()| ==> !a.subroutine.Calls()[i].details.messageType.EvmCall?
  {
    hide LegalRestrictions;
  }

  lemma TokensIssued(tokens: seq<TokenMsg>)
    requires tokens == [CreateDenom(TAG), Mint(TAG, USER, 1)]
    ensures RunTokens(map[], tokens) == Some(map[TAG := Denom(multiset{USER}, 1, 0, 0)])
  {
    hide RunTokens;
    var empty := Denom(multiset{}, 0, 0, 0);
    FirstToken(map[], tokens);
    assert tokens[1..] == [Mint(TAG, USER, 1)];
    OneToken(map[TAG := empty], Mint(TAG, USER, 1));
    assert MintTo(empty, USER, 1) == Denom(multiset{USER}, 1, 0, 0);
    assert map[TAG := empty][TAG := MintTo(empty, USER, 1)] == map[TAG := Denom(multiset{USER}, 1, 0, 0)];
  }

  lemma CreatedReached(d: Domain, s: Subroutine)
    requires DomainOf(s) == Some(d) && WellFormed(Info(s).ToAuthorization(NOW), DomainsWith(d))
    ensures Reachable(Created(d, s))
  {
    hide CreateAuthorizations, RunTokens, Reachable, WellFormed;
    var tokens := [CreateDenom(TAG), Mint(TAG, USER, 1)];
    var step := Step(NOW, Administer(Create([Info(s)], {})));
    StoresOne(d, s, tokens);
    TokensIssued(tokens);
    assert Next(Base(d), step) == Created(d, s);
    BaseReached(d);
    ReachableNext(Base(d), step);
  }

  // ----- The call -----

  function Order(s: Subroutine, msgs: seq<ProcessorMessage>): AuthorizationMsg {
    EnqueueMsgs(0, msgs, s, Medium, DeadlineAt(s, 0))
  }

  function Called(d: Domain, s: Subroutine, msgs: seq<ProcessorMessage>): AuthStore {
    Start(Stored(d, s), NOW, User(USER), d, TAG, None, msgs)
  }

  function Paid(): Bank { map[TAG := Denom(multiset{SELF}, 1, 0, 0)] }

  lemma PaysOne(bank: Bank)
    requires bank == map[TAG := Denom(multiset{USER}, 1, 0, 0)]
    ensures Pay(bank, TAG, USER, Some(1), true) == Some(Paid())
  {
    var d := bank[TAG];
    assert Moved(d, USER, SELF, 1) == multiset{SELF};
    assert bank[TAG := d.(holders := multiset{SELF})] == Paid();
  }

  lemma IsSent(d: Domain, s: Subroutine, msgs: seq<ProcessorMessage>, balance: nat)
    requires Callable(s, msgs) && DomainOf(s) == Some(d)
    ensures SendMsgs(Stored(d, s), NOW, USER, TAG, None, msgs, Some(1), balance) ==
            Accepted(Called(d, s, msgs), Some(Call(d, Order(s, msgs), Some(0))), [])
  {
    hide ValidateMessages, DomainOf, WellFormed;
  }

  /** The system right after the call: on another domain the batch is on its way. */
  function Sent(d: Domain, s: Subroutine, msgs: seq<ProcessorMessage>): World {
    var w := Created(d, s).(auth := Called(d, s, msgs), bank := Paid());
    if d.Main? then w.(procs := map[Main := Alone(ConfigOf(Main), Order(s, msgs).Batch(), map[], [])])
    else w.(outs := [Packet(0, d, Order(s, msgs), InFlight)])
  }

  lemma IsHandled(d: Domain, s: Subroutine, msgs: seq<ProcessorMessage>)
    ensures P.Handle(P.Fresh(ConfigOf(d)), Order(s, msgs), NOW) ==
            P.Done(Alone(ConfigOf(d), Order(s, msgs).Batch(), map[], []), None)
  {
    hide P.Enqueue;
    assert !Order(s, msgs).Batch().IsLate(NOW);
    ArrivesAlone(ConfigOf(d), Order(s, msgs).Batch(), NOW);
  }

  lemma SentReached(d: Domain, s: Subroutine, msgs: seq<ProcessorMessage>)
    requires Callable(s, msgs) && DomainOf(s) == Some(d)
    ensures Reachable(Sent(d, s, msgs))
  {
    hide SendMsgs, P.Handle, Reachable, WellFormed, ValidateMessages, DomainOf, Alone, Start, Pay;
    var w, step := Created(d, s), Step(NOW, Send(USER, TAG, None, msgs, Some(1)));
    PaysOne(w.bank);
    IsSent(d, s, msgs, Balance(Paid(), TAG, USER));
    IsHandled(d, s, msgs);
    assert Next(w, step) == Sent(d, s, msgs) by {
      assert d.Main? ==> Base(d).procs[Main := Sent(d, s, msgs).procs[Main]] == Sent(d, s, msgs).procs;
      assert !d.Main? ==> [] + [Packet(0, d, Order(s, msgs), InFlight)] == Sent(d, s, msgs).outs;
    }
    CreatedReached(d, s);
    ReachableNext(w, step);
  }

  /** The system when the batch has arrived at its processor. */
  function Arrived(d: Domain, s: Subroutine, msgs: seq<ProcessorMessage>): World {
    var w := Sent(d, s, msgs);
    if d.Main? then w
    else w.(procs := w.procs[d := Alone(ConfigOf(d), Order(s, msgs).Batch(), map[], [])],
            outs := [Packet(0, d, Order(s, msgs), Landed(AckOk))])
  }

  lemma ArrivedReached(d: Domain, s: Subroutine, msgs: seq<ProcessorMessage>)
    requires Callable(s, msgs) && DomainOf(s) == Some(d)
    ensures Reachable(Arrived(d, s, msgs))
  {
    hide P.Handle, Reachable, WellFormed, ValidateMessages, DomainOf, Alone, Called;
    SentReached(d, s, msgs);
    if !d.Main? {
      var w, step := Sent(d, s, msgs), Step(NOW, DeliverOut(0, Arrives));
      IsHandled(d, s, msgs);
      var k := w.outs[0].(flight := Landed(AckOk));
      assert [] + [k] + [] == [k] && w.outs[..0] == [] && w.outs[1..] == [];
      assert Next(w, step) == Arrived(d, s, msgs);
      ReachableNext(w, step);
    }
  }
}
