/** The checks the authorization contract makes: on an authorization before it is stored, and on
    the messages of a call before they are sent. */
module Validation {
  import opened Types
  import opened JsonPointer

  datatype Mode = Permissionless | WithCallLimit(limits: seq<(Addr, nat)>) | WithoutCallLimit(addrs: seq<Addr>)

  datatype Environment = Cosmwasm(proxy: ProxyState) | Evm

  datatype Authorization = Authorization(
    tag: Label, mode: Mode, notBefore: Expiration, expiration: Expiration, maxConcurrent: nat,
    subroutine: Subroutine, priority: Priority, enabled: bool)

  datatype MessageError =
    | InvalidAmount | InvalidType | InvalidJson | InvalidStructure | DoesNotMatch | InvalidParams
    // The two places the source comments with "We should never get here".
    | BytesRestrictionOnJson | JsonRestrictionOnBytes

  datatype AuthError =
    | EmptyLabel | NoFunctions | DomainNotRegistered | DifferentDomains | InvalidMessageType
    | InvalidLibrary | InvalidRestrictions | PermissionlessHigh
    | NotEnabled | NotActiveYet | AuthorizationExpired | NotAllowed | RequiresOneToken
    | BadMessage(error: MessageError)
    | LabelExists | LabelMissing | MaxConcurrentReached | IdMissing | NotRetriable | CountIsZero
    | CannotMint | NotFound | WrongSender | ZkRefused | DomainExists | BridgeNotTimedOut | BridgeNotRequired

  // ----- Authorizations -----

  function TypeError(call: FunctionCall, env: Option<Environment>): Option<AuthError> {
    var t := call.details.messageType;
    var evm := env.Some? && env.value.Evm?;
    if evm == (t.EvmCall? || t.EvmRawCall?) then None else Some(InvalidMessageType)
  }

  function RestrictionError(call: FunctionCall): Option<AuthError> {
    if call.details.restrictions.None? then None
    else
      var rs := call.details.restrictions.value;
      if call.details.messageType.EvmRawCall? then
        if |rs| > 1 || (|rs| == 1 && !rs[0].MustBeBytes?) then Some(InvalidRestrictions) else None
      else
        if exists r :: r in rs && r.MustBeBytes? then Some(InvalidRestrictions) else None
  }

  function CallError(call: FunctionCall, domain: Domain, env: Option<Environment>,
                     libraries: set<string>): Option<AuthError> {
    if call.domain != domain then Some(DifferentDomains)
    else if TypeError(call, env).Some? then TypeError(call, env)
    else if call.details.messageType.EvmCall? && call.details.messageType.library !in libraries then
      Some(InvalidLibrary)
    else RestrictionError(call)
  }

  /** The first error among the functions, checked in order. */
  function CallsError(calls: seq<FunctionCall>, domain: Domain, env: Option<Environment>,
                      libraries: set<string>): Option<AuthError> {
    if calls == [] then None
    else if CallError(calls[0], domain, env, libraries).Some? then CallError(calls[0], domain, env, libraries)
    else CallsError(calls[1..], domain, env, libraries)
  }

  function SubroutineError(s: Subroutine, domains: map<string, Environment>,
                           libraries: set<string>): Option<AuthError> {
    var calls := s.Calls();
    if calls == [] then Some(NoFunctions)
    else
      match calls[0].domain
      case Main => CallsError(calls, Main, None, libraries)
      case External(name) =>
        if name !in domains then Some(DomainNotRegistered)
        else CallsError(calls, External(name), Some(domains[name]), libraries)
  }

  /** None when the authorization may be stored. */
  function Validate(a: Authorization, domains: map<string, Environment>, libraries: set<string>): Option<AuthError> {
    if a.tag == "" then Some(EmptyLabel)
    else if SubroutineError(a.subroutine, domains, libraries).Some? then
      SubroutineError(a.subroutine, domains, libraries)
    else if a.mode.Permissionless? && a.priority.High? then Some(PermissionlessHigh)
    else None
  }

  /** Whether a domain is known, and whether it runs CosmWasm. */
  predicate Registered(d: Domain, domains: map<string, Environment>) { d.Main? || d.name in domains }

  predicate RunsCosmwasm(d: Domain, domains: map<string, Environment>)
    requires Registered(d, domains)
  {
    d.Main? || domains[d.name].Cosmwasm?
  }

  ghost predicate WellFormedCall(call: FunctionCall, domains: map<string, Environment>) {
    && Registered(call.domain, domains)
    && (RunsCosmwasm(call.domain, domains) <==>
          call.details.messageType.CosmwasmExecuteMsg? || call.details.messageType.CosmwasmMigrateMsg?)
    && LegalRestrictions(call)
  }

  /** Raw calls have at most one restriction, on their bytes; all others have none on bytes. */
  ghost predicate LegalRestrictions(call: FunctionCall) {
    call.details.restrictions.Some? ==>
      var rs := call.details.restrictions.value;
      if call.details.messageType.EvmRawCall? then |rs| <= 1 && forall r :: r in rs ==> r.MustBeBytes?
      else forall r :: r in rs ==> !r.MustBeBytes?
  }

  /** What a stored authorization is like. */
  ghost predicate WellFormed(a: Authorization, domains: map<string, Environment>) {
    var calls := a.subroutine.Calls();
    && a.tag != ""
    && calls != []
    && (forall i :: 0 <= i < |calls| ==> calls[i].domain == calls[0].domain && WellFormedCall(calls[i], domains))
    && !(a.mode.Permissionless? && a.priority.High?)
  }

  ghost predicate LibrariesKnown(calls: seq<FunctionCall>, libraries: set<string>) {
    forall i :: 0 <= i < |calls| && calls[i].details.messageType.EvmCall? ==>
      calls[i].details.messageType.library in libraries
  }

  lemma RestrictionErrorIff(call: FunctionCall)
    ensures RestrictionError(call).None? <==> LegalRestrictions(call)
  {
    if call.details.restrictions.Some? {
      var rs := call.details.restrictions.value;
      assert |rs| == 1 ==> rs == [rs[0]];
    }
  }

  lemma CallErrorIff(call: FunctionCall, domain: Domain, domains: map<string, Environment>, libraries: set<string>)
    requires Registered(domain, domains)
    ensures var env := if domain.Main? then None else Some(domains[domain.name]);
            CallError(call, domain, env, libraries).None? <==>
              && call.domain == domain && WellFormedCall(call, domains)
              && LibrariesKnown([call], libraries)
  {
    hide LegalRestrictions, RestrictionError;
    RestrictionErrorIff(call);
    assert [call][0] == call;
  }

  lemma {:induction false} CallsErrorIff(calls: seq<FunctionCall>, domain: Domain, domains: map<string, Environment>,
                                         libraries: set<string>)
    requires Registered(domain, domains)
    ensures var env := if domain.Main? then None else Some(domains[domain.name]);
            CallsError(calls, domain, env, libraries).None? <==>
              && (forall i :: 0 <= i < |calls| ==> calls[i].domain == domain && WellFormedCall(calls[i], domains))
              && LibrariesKnown(calls, libraries)
  {
    hide WellFormedCall, CallError;
    if calls != [] {
      CallErrorIff(calls[0], domain, domains, libraries);
      CallsErrorIff(calls[1..], domain, domains, libraries);
      assert [calls[0]][0] == calls[0];
      assert forall i :: 1 <= i < |calls| ==> calls[i] == calls[1..][i - 1];
      assert forall i :: 0 <= i < |calls| - 1 ==> calls[1..][i] == calls[i + 1];
    }
  }

  /** An authorization passes exactly when it is well formed and its encoder libraries exist. */
  lemma ValidateIff(a: Authorization, domains: map<string, Environment>, libraries: set<string>)
    ensures Validate(a, domains, libraries).None? <==>
              WellFormed(a, domains) && LibrariesKnown(a.subroutine.Calls(), libraries)
  {
    hide CallsError, LibrariesKnown;
    var calls := a.subroutine.Calls();
    if calls != [] && Registered(calls[0].domain, domains) {
      CallsErrorIff(calls, calls[0].domain, domains, libraries);
    }
    if calls != [] && !Registered(calls[0].domain, domains) {
      assert !WellFormedCall(calls[0], domains);
    }
  }

  // ----- Messages -----

  function CheckJson(json: Json, r: ParamRestriction): Option<MessageError> {
    match r
    case MustBeIncluded(keys) =>
      if Evaluate(json, PointerTo(keys)).None? then Some(InvalidParams) else None
    case CannotBeIncluded(keys) =>
      if Evaluate(json, PointerTo(keys)).Some? then Some(InvalidParams) else None
    case MustBeValue(keys, expected) =>
      var found := Evaluate(json, PointerTo(keys));
      if found.None? || expected.json.None? || found != expected.json then Some(InvalidParams) else None
    case MustBeBytes(_) => Some(BytesRestrictionOnJson)
  }

  function CheckBytes(msg: Binary, r: ParamRestriction): Option<MessageError> {
    if !r.MustBeBytes? then Some(JsonRestrictionOnBytes)
    else if msg.bytes != r.bytes.bytes then Some(InvalidParams)
    else None
  }

  /** The first restriction that is not met, checked in order. */
  function CheckAll(m: ProcessorMessage, rs: seq<ParamRestriction>): Option<MessageError>
    requires m.EvmRawCallMsg? || m.msg.json.Some?
  {
    if rs == [] then None
    else
      var first := if m.EvmRawCallMsg? then CheckBytes(m.msg, rs[0]) else CheckJson(m.msg.json.value, rs[0]);
      if first.Some? then first else CheckAll(m, rs[1..])
  }

  function CheckMessage(m: ProcessorMessage, d: MessageDetails): Option<MessageError> {
    var rs := if d.restrictions.None? then [] else d.restrictions.value;
    if !m.HasType(d.messageType) then Some(InvalidType)
    else if m.EvmRawCallMsg? then CheckAll(m, rs)
    else if m.msg.json.None? then Some(InvalidJson)
    else if !m.msg.json.value.JObject? || |m.msg.json.value.members| != 1 then Some(InvalidStructure)
    else if d.name !in m.msg.json.value.members then Some(DoesNotMatch)
    else CheckAll(m, rs)
  }

  function CheckMessages(ms: seq<ProcessorMessage>, calls: seq<FunctionCall>): Option<MessageError>
    requires |ms| == |calls|
  {
    if ms == [] then None
    else if CheckMessage(ms[0], calls[0].details).Some? then CheckMessage(ms[0], calls[0].details)
    else CheckMessages(ms[1..], calls[1..])
  }

  /** None when the messages are what the functions of the subroutine ask for. */
  function ValidateMessages(s: Subroutine, ms: seq<ProcessorMessage>): Option<MessageError> {
    if |ms| != |s.Calls()| then Some(InvalidAmount) else CheckMessages(ms, s.Calls())
  }

  /** A restriction is met, told by following its keys, as the contract reads them, through the
      message. */
  ghost predicate Meets(m: ProcessorMessage, r: ParamRestriction) {
    match r
    case MustBeIncluded(keys) => m.msg.json.Some? && Walk(m.msg.json.value, ReadAs(keys)).Some?
    case CannotBeIncluded(keys) => m.msg.json.Some? && Walk(m.msg.json.value, ReadAs(keys)).None?
    case MustBeValue(keys, expected) =>
      m.msg.json.Some? && expected.json.Some? && Walk(m.msg.json.value, ReadAs(keys)) == expected.json
    case MustBeBytes(b) => m.msg.bytes == b.bytes
  }

  /** The message is of the declared type, its only member has the declared name, and every
      restriction is met. */
  ghost predicate Matches(m: ProcessorMessage, d: MessageDetails) {
    && m.HasType(d.messageType)
    && (!m.EvmRawCallMsg? ==>
          m.msg.json.Some? && m.msg.json.value.JObject? && m.msg.json.value.members.Keys == {d.name})
    && (d.restrictions.Some? ==> forall r :: r in d.restrictions.value ==> Meets(m, r))
  }

  lemma CheckOneIff(m: ProcessorMessage, r: ParamRestriction)
    requires r.MustBeBytes? <==> m.EvmRawCallMsg?
    requires m.EvmRawCallMsg? || m.msg.json.Some?
    ensures (if m.EvmRawCallMsg? then CheckBytes(m.msg, r) else CheckJson(m.msg.json.value, r)).None? <==> Meets(m, r)
  {
    hide Walk, ReadAs, Evaluate, PointerTo;
    if !r.MustBeBytes? {
      LookupIs(r.keys, m.msg.json.value);
    }
  }

  lemma {:induction false} CheckAllIff(m: ProcessorMessage, rs: seq<ParamRestriction>)
    requires forall r :: r in rs ==> (r.MustBeBytes? <==> m.EvmRawCallMsg?)
    requires m.EvmRawCallMsg? || m.msg.json.Some?
    ensures CheckAll(m, rs).None? <==> forall r :: r in rs ==> Meets(m, r)
  {
    hide Meets, CheckBytes, CheckJson;
    if rs != [] {
      CheckOneIff(m, rs[0]);
      CheckAllIff(m, rs[1..]);
      assert forall r :: r in rs <==> r == rs[0] || r in rs[1..];
    }
  }

  lemma SingleMember(members: map<string, Json>, name: string)
    ensures |members| == 1 && name in members <==> members.Keys == {name}
  {
    if |members| == 1 && name in members {
      assert |members.Keys| == 1;
      if members.Keys != {name} {
        var other :| other in members.Keys && other != name;
        assert {name, other} <= members.Keys;
        SubsetSize({name, other}, members.Keys);
      }
    }
    if members.Keys == {name} {
      assert |members| == |members.Keys|;
    }
  }

  lemma {:induction false} SubsetSize<T>(a: set<T>, b: set<T>)
    requires a <= b
    ensures |a| <= |b|
  {
    if a != {} {
      var x :| x in a;
      SubsetSize(a - {x}, b - {x});
    }
  }

  lemma CheckMessageIff(m: ProcessorMessage, call: FunctionCall)
    requires LegalRestrictions(call)
    ensures CheckMessage(m, call.details).None? <==> Matches(m, call.details)
  {
    hide Meets, CheckAll;
    var d := call.details;
    if m.HasType(d.messageType) {
      if m.EvmRawCallMsg? || m.msg.json.Some? {
        CheckAllIff(m, if d.restrictions.None? then [] else d.restrictions.value);
      }
      if m.msg.json.Some? && m.msg.json.value.JObject? {
        SingleMember(m.msg.json.value.members, d.name);
      }
    }
  }

  lemma {:induction false} CheckMessagesIff(ms: seq<ProcessorMessage>, calls: seq<FunctionCall>)
    requires |ms| == |calls|
    requires forall i :: 0 <= i < |calls| ==> LegalRestrictions(calls[i])
    ensures CheckMessages(ms, calls).None? <==>
              forall i :: 0 <= i < |ms| ==> Matches(ms[i], calls[i].details)
  {
    hide Matches, CheckMessage, LegalRestrictions;
    if ms != [] {
      CheckMessageIff(ms[0], calls[0]);
      CheckMessagesIff(ms[1..], calls[1..]);
      assert forall i :: 1 <= i < |ms| ==> ms[i] == ms[1..][i - 1] && calls[i] == calls[1..][i - 1];
      assert forall i :: 0 <= i < |ms| - 1 ==> ms[1..][i] == ms[i + 1] && calls[1..][i] == calls[i + 1];
    }
  }

  /** For a stored authorization, messages are accepted exactly when each matches its function. */
  lemma ValidateMessagesIff(a: Authorization, domains: map<string, Environment>, ms: seq<ProcessorMessage>)
    requires WellFormed(a, domains)
    ensures ValidateMessages(a.subroutine, ms).None? <==>
              && |ms| == |a.subroutine.Calls()|
              && forall i :: 0 <= i < |ms| ==> Matches(ms[i], a.subroutine.Calls()[i].details)
  {
    hide Matches, CheckMessages, LegalRestrictions;
    var calls := a.subroutine.Calls();
    if |ms| == |calls| {
      forall i | 0 <= i < |calls|
        ensures LegalRestrictions(calls[i])
      {
        assert WellFormedCall(calls[i], domains);
      }
      CheckMessagesIff(ms, calls);
    }
  }

  lemma {:induction false} CheckAllReaches(m: ProcessorMessage, rs: seq<ParamRestriction>)
    requires m.EvmRawCallMsg? || m.msg.json.Some?
    requires forall r :: r in rs ==> (r.MustBeBytes? <==> m.EvmRawCallMsg?)
    ensures CheckAll(m, rs) !in {Some(BytesRestrictionOnJson), Some(JsonRestrictionOnBytes)}
  {
    if rs != [] {
      CheckAllReaches(m, rs[1..]);
    }
  }

  lemma {:induction false} CheckMessagesReaches(ms: seq<ProcessorMessage>, calls: seq<FunctionCall>)
    requires |ms| == |calls|
    requires forall i :: 0 <= i < |calls| ==> LegalRestrictions(calls[i])
    ensures CheckMessages(ms, calls) !in {Some(BytesRestrictionOnJson), Some(JsonRestrictionOnBytes)}
  {
    hide CheckAll;
    if ms != [] {
      CheckMessagesReaches(ms[1..], calls[1..]);
      var m, d := ms[0], calls[0].details;
      if m.HasType(d.messageType) && (m.EvmRawCallMsg? || m.msg.json.Some?) {
        CheckAllReaches(m, if d.restrictions.None? then [] else d.restrictions.value);
      }
    }
  }

  /** The two branches meant to be unreachable are, for every stored authorization. */
  lemma NeverGetHere(a: Authorization, domains: map<string, Environment>, ms: seq<ProcessorMessage>)
    requires WellFormed(a, domains)
    ensures ValidateMessages(a.subroutine, ms) !in {Some(BytesRestrictionOnJson), Some(JsonRestrictionOnBytes)}
  {
    hide CheckMessages, LegalRestrictions;
    var calls := a.subroutine.Calls();
    forall i | 0 <= i < |calls|
      ensures LegalRestrictions(calls[i])
    {
      assert WellFormedCall(calls[i], domains);
    }
    if |ms| == |calls| {
      CheckMessagesReaches(ms, calls);
    }
  }

  // ----- Who may execute -----

  /** `paid` is the amount of the label's token attached, when that is the only coin attached;
      `balance` is how many of them the sender holds. */
  function PermissionError(mode: Mode, paid: Option<nat>, balance: nat): Option<AuthError> {
    match mode
    case Permissionless => None
    case WithoutCallLimit(_) => if balance == 0 then Some(NotAllowed) else None
    case WithCallLimit(_) =>
      if paid.None? || paid.value == 0 then Some(NotAllowed)
      else if paid.value != 1 then Some(RequiresOneToken)
      else None
  }

  function ExecutionError(a: Authorization, block: Block, paid: Option<nat>, balance: nat,
                          ms: seq<ProcessorMessage>): Option<AuthError> {
    if !a.enabled then Some(NotEnabled)
    else if !a.notBefore.Never? && !a.notBefore.IsExpired(block) then Some(NotActiveYet)
    else if a.expiration.IsExpired(block) then Some(AuthorizationExpired)
    else if PermissionError(a.mode, paid, balance).Some? then PermissionError(a.mode, paid, balance)
    else if ValidateMessages(a.subroutine, ms).Some? then Some(BadMessage(ValidateMessages(a.subroutine, ms).value))
    else None
  }

  /** Who may call: anybody, a holder of the token, or somebody who pays exactly one. */
  ghost predicate MayCall(mode: Mode, paid: Option<nat>, balance: nat) {
    (mode.WithoutCallLimit? ==> balance > 0) && (mode.WithCallLimit? ==> paid == Some(1))
  }

  /** The authorization is switched on, its time has come and is not over. */
  ghost predicate InForce(a: Authorization, block: Block) {
    && a.enabled && !a.expiration.IsExpired(block)
    && (a.notBefore.Never? || a.notBefore.IsExpired(block))
  }

  /** A call is let through exactly when the authorization is in force, the caller may call, and every
      message matches its function. */
  lemma ExecutableIff(a: Authorization, domains: map<string, Environment>, block: Block, paid: Option<nat>,
                      balance: nat, ms: seq<ProcessorMessage>)
    requires WellFormed(a, domains)
    ensures ExecutionError(a, block, paid, balance, ms).None? <==>
              && InForce(a, block) && MayCall(a.mode, paid, balance)
              && |ms| == |a.subroutine.Calls()|
              && forall i :: 0 <= i < |ms| ==> Matches(ms[i], a.subroutine.Calls()[i].details)
  {
    hide Matches, ValidateMessages, WellFormed;
    ValidateMessagesIff(a, domains, ms);
  }
}
