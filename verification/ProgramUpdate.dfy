/** The plan the program manager makes for an update: the instructions for the authorization contract
    that turn the old configuration of a program into the new one. */
module ProgramUpdates {
  import opened Types
  import opened Validation
  import opened AuthorizationModel
  import opened AuthorizationExact

  datatype Library = Library(domain: Domain, addr: Option<Addr>)

  datatype ProgramConfig = ProgramConfig(owner: Addr, authorizations: seq<AuthorizationInfo>,
                                         libraries: map<nat, Library>)

  datatype AuthorizationUpdate =
    | Add(info: AuthorizationInfo)
    | Modify(tag: Label, changes: Changes)
    | Disable(tag: Label)
    | Enable(tag: Label)

  /** The libraries come with the message that updates their configuration, ordered by id. */
  datatype ProgramUpdate =
    ProgramUpdate(owner: Option<Addr>, libraries: seq<(nat, Binary)>, authorizations: seq<AuthorizationUpdate>)

  datatype Instruction =
    | DoCreate(infos: seq<AuthorizationInfo>)
    | DoTransferOwnership(owner: Addr)
    | DoInsert(tag: Label, position: nat, priority: Priority, msgs: seq<ProcessorMessage>)
    | DoModify(tag: Label, changes: Changes)
    | DoSwitch(tag: Label, enabled: bool)
  {
    predicate NamesLabel() { DoInsert? || DoModify? || DoSwitch? }
  }

  datatype ManagerError =
    | LibraryIdIsMissing(id: nat) | NoAddress(id: nat) | LabelTaken(tag: Label) | LabelNotFound(tag: Label)

  datatype Result<+T> = Ok(value: T) | Err(error: ManagerError)

  /** What has been planned so far: the new configuration, the authorizations to create, and the
      instructions that come after their creation. */
  datatype Plan = Plan(config: ProgramConfig, news: seq<AuthorizationInfo>, rest: seq<Instruction>)

  function Tags(infos: seq<AuthorizationInfo>): seq<Label> {
    seq(|infos|, i requires 0 <= i < |infos| => infos[i].tag)
  }

  predicate HasTag(infos: seq<AuthorizationInfo>, tag: Label) { tag in Tags(infos) }

  function LibraryLabel(id: nat): Label { "update_library_" + Written(id) }

  /** The authorization by which the owner updates a library. */
  function LibraryInfo(id: nat, domain: Domain, addr: Addr, owner: Addr): AuthorizationInfo {
    var details := MessageDetails(CosmwasmExecuteMsg, "update_config", None);
    AuthorizationInfo(LibraryLabel(id), WithoutCallLimit([owner]), Never, Forever, None,
                      Atomic([FunctionCall(domain, details, Some(addr))], None, None), Some(High))
  }

  function PlanLibrary(p: Plan, id: nat, msg: Binary): Result<Plan> {
    if id !in p.config.libraries then Err(LibraryIdIsMissing(id))
    else
      var library, tag := p.config.libraries[id], LibraryLabel(id);
      var insert := DoInsert(tag, 0, High, [ExecuteMsg(msg)]);
      if HasTag(p.config.authorizations, tag) then Ok(p.(rest := p.rest + [insert]))
      else if library.addr.None? then Err(NoAddress(id))
      else
        var info := LibraryInfo(id, library.domain, library.addr.value, p.config.owner);
        Ok(Plan(p.config.(authorizations := p.config.authorizations + [info]), p.news + [info], p.rest + [insert]))
  }

  /** The saved configuration takes over some of the changes, in the first entry of the label. */
  function Amended(infos: seq<AuthorizationInfo>, tag: Label, c: Changes): seq<AuthorizationInfo> {
    if infos == [] then []
    else if infos[0].tag != tag then [infos[0]] + Amended(infos[1..], tag, c)
    else [infos[0].(notBefore := if c.notBefore.Some? then c.notBefore.value else infos[0].notBefore,
                    priority := c.priority, maxConcurrent := c.maxConcurrent)] + infos[1..]
  }

  function PlanAuthorization(p: Plan, u: AuthorizationUpdate): Result<Plan> {
    match u
    case Add(info) =>
      if HasTag(p.config.authorizations, info.tag) then Err(LabelTaken(info.tag))
      else Ok(Plan(p.config.(authorizations := p.config.authorizations + [info]), p.news + [info], p.rest))
    case Modify(tag, changes) =>
      if !HasTag(p.config.authorizations, tag) then Err(LabelNotFound(tag))
      else Ok(p.(config := p.config.(authorizations := Amended(p.config.authorizations, tag, changes)),
                 rest := p.rest + [DoModify(tag, changes)]))
    case Disable(tag) =>
      if !HasTag(p.config.authorizations, tag) then Err(LabelNotFound(tag))
      else Ok(p.(rest := p.rest + [DoSwitch(tag, false)]))
    case Enable(tag) =>
      if !HasTag(p.config.authorizations, tag) then Err(LabelNotFound(tag))
      else Ok(p.(rest := p.rest + [DoSwitch(tag, true)]))
  }

  function PlanLibraries(p: Plan, libraries: seq<(nat, Binary)>): Result<Plan>
    decreases |libraries|
  {
    if libraries == [] then Ok(p)
    else match PlanLibrary(p, libraries[0].0, libraries[0].1)
         case Err(e) => Err(e)
         case Ok(q) => PlanLibraries(q, libraries[1..])
  }

  function PlanAuthorizations(p: Plan, updates: seq<AuthorizationUpdate>): Result<Plan>
    decreases |updates|
  {
    if updates == [] then Ok(p)
    else match PlanAuthorization(p, updates[0])
         case Err(e) => Err(e)
         case Ok(q) => PlanAuthorizations(q, updates[1..])
  }

  function StartPlan(config: ProgramConfig, u: ProgramUpdate): Plan {
    match u.owner
    case None => Plan(config, [], [])
    case Some(owner) => Plan(config.(owner := owner), [], [DoTransferOwnership(owner)])
  }

  /** The whole plan; the authorizations are created first. */
  function MakePlan(config: ProgramConfig, u: ProgramUpdate): Result<Plan> {
    match PlanLibraries(StartPlan(config, u), u.libraries)
    case Err(e) => Err(e)
    case Ok(p) => PlanAuthorizations(p, u.authorizations)
  }

  function Instructions(p: Plan): seq<Instruction> { [DoCreate(p.news)] + p.rest }

  // ----- The loops -----

  /** Makes the plan, as the manager does it. */
  method Update(config: ProgramConfig, u: ProgramUpdate) returns (r: Result<(seq<Instruction>, ProgramConfig)>)
    ensures match MakePlan(config, u)
            case Err(e) => r == Err(e)
            case Ok(p) => r == Ok((Instructions(p), p.config))
  {
    hide PlanLibrary, PlanAuthorization;
    var p := StartPlan(config, u);
    assert u.libraries[0..] == u.libraries;
    for i := 0 to |u.libraries|
      invariant PlanLibraries(StartPlan(config, u), u.libraries) == PlanLibraries(p, u.libraries[i..])
    {
      var (id, msg) := u.libraries[i];
      assert u.libraries[i..][1..] == u.libraries[i + 1..];
      var q := AddLibrary(p, id, msg);
      if q.Err? {
        return Err(q.error);
      }
      p := q.value;
    }
    ghost var middle := p;
    assert u.authorizations[0..] == u.authorizations;
    for i := 0 to |u.authorizations|
      invariant PlanAuthorizations(middle, u.authorizations) == PlanAuthorizations(p, u.authorizations[i..])
    {
      assert u.authorizations[i..][1..] == u.authorizations[i + 1..];
      var q := PlanAuthorization(p, u.authorizations[i]);
      if q.Err? {
        return Err(q.error);
      }
      p := q.value;
    }
    r := Ok(([DoCreate(p.news)] + p.rest, p.config));
  }

  method AddLibrary(p: Plan, id: nat, msg: Binary) returns (r: Result<Plan>)
    ensures r == PlanLibrary(p, id, msg)
  {
    if id !in p.config.libraries {
      return Err(LibraryIdIsMissing(id));
    }
    var library, tag, config, news := p.config.libraries[id], LibraryLabel(id), p.config, p.news;
    if !HasTag(config.authorizations, tag) {
      if library.addr.None? {
        return Err(NoAddress(id));
      }
      var info := LibraryInfo(id, library.domain, library.addr.value, config.owner);
      news := news + [info];
      config := config.(authorizations := config.authorizations + [info]);
    }
    r := Ok(Plan(config, news, p.rest + [DoInsert(tag, 0, High, [ExecuteMsg(msg)])]));
  }

  // ----- What a plan is like -----

  ghost predicate Distinct(tags: seq<Label>) {
    forall i, j :: 0 <= i < j < |tags| ==> tags[i] != tags[j]
  }

  /** The new labels are new, each is created once, and everything else names a label that exists by
      then. */
  ghost predicate PlanOk(was: ProgramConfig, p: Plan) {
    var before, created := Tags(was.authorizations), Tags(p.news);
    && Tags(p.config.authorizations) == before + created
    && Distinct(created)
    && (forall t :: t in created ==> t !in before)
    && (forall i :: 0 <= i < |p.rest| && p.rest[i].NamesLabel() ==> p.rest[i].tag in before + created)
    && (forall i :: 0 <= i < |p.rest| ==> !p.rest[i].DoCreate?)
  }

  lemma TagsAppend(infos: seq<AuthorizationInfo>, info: AuthorizationInfo)
    ensures Tags(infos + [info]) == Tags(infos) + [info.tag]
  {
  }

  /** One more new authorization. */
  lemma CreatesOk(was: ProgramConfig, p: Plan, info: AuthorizationInfo)
    requires PlanOk(was, p) && !HasTag(p.config.authorizations, info.tag)
    ensures PlanOk(was, Plan(p.config.(authorizations := p.config.authorizations + [info]), p.news + [info], p.rest))
  {
    hide Tags;
    TagsAppend(p.config.authorizations, info);
    TagsAppend(p.news, info);
  }

  /** One more instruction. */
  lemma NamesOk(was: ProgramConfig, p: Plan, i: Instruction)
    requires PlanOk(was, p) && !i.DoCreate? && (i.NamesLabel() ==> HasTag(p.config.authorizations, i.tag))
    ensures PlanOk(was, p.(rest := p.rest + [i]))
  {
    hide Tags;
  }

  lemma {:induction false} AmendedTags(infos: seq<AuthorizationInfo>, tag: Label, c: Changes)
    ensures Tags(Amended(infos, tag, c)) == Tags(infos)
  {
    if infos != [] {
      AmendedTags(infos[1..], tag, c);
      assert Tags(infos) == [infos[0].tag] + Tags(infos[1..]);
      var more := Amended(infos, tag, c);
      assert Tags(more) == [more[0].tag] + Tags(more[1..]);
    }
  }

  lemma LibraryOk(was: ProgramConfig, p: Plan, id: nat, msg: Binary)
    requires PlanOk(was, p) && PlanLibrary(p, id, msg).Ok?
    ensures PlanOk(was, PlanLibrary(p, id, msg).value)
  {
    hide PlanOk, Tags, LibraryLabel;
    var library, tag := p.config.libraries[id], LibraryLabel(id);
    var insert := DoInsert(tag, 0, High, [ExecuteMsg(msg)]);
    if HasTag(p.config.authorizations, tag) {
      NamesOk(was, p, insert);
    } else {
      var info := LibraryInfo(id, library.domain, library.addr.value, p.config.owner);
      CreatesOk(was, p, info);
      TagsAppend(p.config.authorizations, info);
      var added := Plan(p.config.(authorizations := p.config.authorizations + [info]), p.news + [info], p.rest);
      NamesOk(was, added, insert);
    }
  }

  lemma AmendsOk(was: ProgramConfig, p: Plan, infos: seq<AuthorizationInfo>)
    requires PlanOk(was, p) && Tags(infos) == Tags(p.config.authorizations)
    ensures PlanOk(was, p.(config := p.config.(authorizations := infos)))
  {
    hide Tags;
  }

  lemma AuthorizationOk(was: ProgramConfig, p: Plan, u: AuthorizationUpdate)
    requires PlanOk(was, p) && PlanAuthorization(p, u).Ok?
    ensures PlanOk(was, PlanAuthorization(p, u).value)
  {
    hide PlanOk, Tags;
    match u
    case Add(info) => CreatesOk(was, p, info);
    case Modify(tag, changes) =>
      NamesOk(was, p, DoModify(tag, changes));
      AmendedTags(p.config.authorizations, tag, changes);
      AmendsOk(was, p.(rest := p.rest + [DoModify(tag, changes)]), Amended(p.config.authorizations, tag, changes));
    case Disable(tag) => NamesOk(was, p, DoSwitch(tag, false));
    case Enable(tag) => NamesOk(was, p, DoSwitch(tag, true));
  }

  lemma {:induction false} LibrariesOk(was: ProgramConfig, p: Plan, libraries: seq<(nat, Binary)>)
    requires PlanOk(was, p) && PlanLibraries(p, libraries).Ok?
    ensures PlanOk(was, PlanLibraries(p, libraries).value)
    decreases |libraries|
  {
    hide PlanOk, PlanLibrary;
    if libraries != [] {
      LibraryOk(was, p, libraries[0].0, libraries[0].1);
      LibrariesOk(was, PlanLibrary(p, libraries[0].0, libraries[0].1).value, libraries[1..]);
    }
  }

  lemma {:induction false} AuthorizationsOk(was: ProgramConfig, p: Plan, updates: seq<AuthorizationUpdate>)
    requires PlanOk(was, p) && PlanAuthorizations(p, updates).Ok?
    ensures PlanOk(was, PlanAuthorizations(p, updates).value)
    decreases |updates|
  {
    hide PlanOk, PlanAuthorization;
    if updates != [] {
      AuthorizationOk(was, p, updates[0]);
      AuthorizationsOk(was, PlanAuthorization(p, updates[0]).value, updates[1..]);
    }
  }

  /** Every plan creates new labels only, each once, and names only labels that exist by then. */
  lemma PlansAreOk(config: ProgramConfig, u: ProgramUpdate)
    requires MakePlan(config, u).Ok?
    ensures PlanOk(config, MakePlan(config, u).value)
  {
    hide PlanLibraries, PlanAuthorizations;
    var start := StartPlan(config, u);
    assert PlanOk(config, start);
    LibrariesOk(config, start, u.libraries);
    AuthorizationsOk(config, PlanLibraries(start, u.libraries).value, u.authorizations);
  }

  // ----- A plan does everything that was asked for -----

  /** One insert for every library, in order. */
  function Inserts(libraries: seq<(nat, Binary)>): seq<Instruction> {
    seq(|libraries|, i requires 0 <= i < |libraries| =>
      DoInsert(LibraryLabel(libraries[i].0), 0, High, [ExecuteMsg(libraries[i].1)]))
  }

  /** One instruction for every change of an existing authorization, in order. */
  function Alterations(updates: seq<AuthorizationUpdate>): seq<Instruction> {
    if updates == [] then []
    else
      (match updates[0]
       case Add(_) => []
       case Modify(tag, changes) => [DoModify(tag, changes)]
       case Disable(tag) => [DoSwitch(tag, false)]
       case Enable(tag) => [DoSwitch(tag, true)]) + Alterations(updates[1..])
  }

  function Additions(updates: seq<AuthorizationUpdate>): seq<AuthorizationInfo> {
    if updates == [] then []
    else (if updates[0].Add? then [updates[0].info] else []) + Additions(updates[1..])
  }

  lemma {:induction false} LibrariesComplete(p: Plan, libraries: seq<(nat, Binary)>)
    requires PlanLibraries(p, libraries).Ok?
    ensures PlanLibraries(p, libraries).value.rest == p.rest + Inserts(libraries)
    decreases |libraries|
  {
    if libraries != [] {
      var q := PlanLibrary(p, libraries[0].0, libraries[0].1).value;
      LibrariesComplete(q, libraries[1..]);
      assert Inserts(libraries) == [Inserts(libraries)[0]] + Inserts(libraries[1..]);
    } else {
      assert p.rest + Inserts(libraries) == p.rest;
    }
  }

  lemma {:induction false} AuthorizationsComplete(p: Plan, updates: seq<AuthorizationUpdate>)
    requires PlanAuthorizations(p, updates).Ok?
    ensures PlanAuthorizations(p, updates).value.rest == p.rest + Alterations(updates)
    ensures PlanAuthorizations(p, updates).value.news == p.news + Additions(updates)
    decreases |updates|
  {
    hide Amended;
    if updates != [] {
      var q := PlanAuthorization(p, updates[0]).value;
      AuthorizationsComplete(q, updates[1..]);
      var first := Alterations(updates)[..|Alterations(updates)| - |Alterations(updates[1..])|];
      assert q.rest == p.rest + first && Alterations(updates) == first + Alterations(updates[1..]);
      assert p.rest + first + Alterations(updates[1..]) == p.rest + Alterations(updates);
      var info := if updates[0].Add? then [updates[0].info] else [];
      assert q.news == p.news + info;
      assert p.news + info + Additions(updates[1..]) == p.news + Additions(updates);
    }
  }

  /** After the creation a plan hands over the ownership if asked to, updates every library, and makes
      every change, in this order; and it creates every authorization asked for, after those it needs
      for the libraries. */
  lemma PlansAreComplete(config: ProgramConfig, u: ProgramUpdate)
    requires MakePlan(config, u).Ok?
    ensures var p := MakePlan(config, u).value;
            && p.rest == (if u.owner.Some? then [DoTransferOwnership(u.owner.value)] else []) +
                         Inserts(u.libraries) + Alterations(u.authorizations)
            && var n := |Additions(u.authorizations)|;
               n <= |p.news| && p.news[|p.news| - n..] == Additions(u.authorizations)
  {
    hide PlanLibraries, PlanAuthorizations, Inserts, Alterations, Additions;
    var start := StartPlan(config, u);
    LibrariesComplete(start, u.libraries);
    AuthorizationsComplete(PlanLibraries(start, u.libraries).value, u.authorizations);
  }

  // ----- What is created for a library -----

  /** The authorization by which the owner, and nobody else, updates this library: one call with high priority
      to its address on its domain. */
  ghost predicate ForLibrary(info: AuthorizationInfo, id: nat, library: Library, owner: Addr) {
    && info.tag == "update_library_" + Written(id) && info.mode == WithoutCallLimit([owner])
    && info.notBefore.Never? && info.lifespan.Forever? && info.maxConcurrent.None? && info.priority == Some(High)
    && info.subroutine.Atomic? && info.subroutine.retryLogic.None? && info.subroutine.lifetime.None?
    && |info.subroutine.calls| == 1
    && var call := info.subroutine.calls[0];
       && call.domain == library.domain && call.address.Some? && call.address == library.addr
       && call.details == MessageDetails(CosmwasmExecuteMsg, "update_config", None)
  }

  /** The authorization is for one of these libraries. */
  ghost predicate ForOne(info: AuthorizationInfo, libraries: seq<(nat, Binary)>, config: ProgramConfig) {
    exists i :: 0 <= i < |libraries| && libraries[i].0 in config.libraries &&
                ForLibrary(info, libraries[i].0, config.libraries[libraries[i].0], config.owner)
  }

  /** What is planned for libraries: it begins with what was planned before, and everything new is for one of
      them. */
  lemma {:induction false} LibrariesCreate(p: Plan, libraries: seq<(nat, Binary)>)
    requires PlanLibraries(p, libraries).Ok?
    ensures var q := PlanLibraries(p, libraries).value;
            && p.news <= q.news && p.config.authorizations <= q.config.authorizations
            && q.config.libraries == p.config.libraries && q.config.owner == p.config.owner
            && forall j :: |p.news| <= j < |q.news| ==> ForOne(q.news[j], libraries, p.config)
    decreases |libraries|
  {
    hide ForLibrary, HasTag;
    if libraries != [] {
      var (id, msg) := libraries[0];
      var q := PlanLibrary(p, id, msg).value;
      var r := PlanLibraries(p, libraries).value;
      LibrariesCreate(q, libraries[1..]);
      forall j | |p.news| <= j < |r.news|
        ensures ForOne(r.news[j], libraries, p.config)
      {
        if j >= |q.news| {
          var i :| 0 <= i < |libraries[1..]| && libraries[1..][i].0 in q.config.libraries &&
                   ForLibrary(r.news[j], libraries[1..][i].0, q.config.libraries[libraries[1..][i].0], q.config.owner);
          assert libraries[i + 1] == libraries[1..][i];
        } else {
          assert r.news[j] == q.news[j];
          LibraryInfoIs(id, p.config.libraries[id], p.config.owner);
        }
      }
    }
  }

  lemma LibraryInfoIs(id: nat, library: Library, owner: Addr)
    requires library.addr.Some?
    ensures ForLibrary(LibraryInfo(id, library.domain, library.addr.value, owner), id, library, owner)
  {
  }

  /** Every library gets a label: the old one, or one created for it. */
  lemma {:induction false} LibrariesAreLabelled(p: Plan, libraries: seq<(nat, Binary)>, i: nat)
    requires PlanLibraries(p, libraries).Ok? && i < |libraries|
    ensures libraries[i].0 in p.config.libraries
    ensures HasTag(PlanLibraries(p, libraries).value.config.authorizations, "update_library_" + Written(libraries[i].0))
    decreases |libraries|
  {
    hide Written;
    var (id, msg) := libraries[0];
    var q, r := PlanLibrary(p, id, msg).value, PlanLibraries(p, libraries).value;
    if i > 0 {
      LibrariesAreLabelled(q, libraries[1..], i - 1);
    } else {
      LibrariesCreate(q, libraries[1..]);
      assert HasTag(q.config.authorizations, LibraryLabel(id)) by {
        if !HasTag(p.config.authorizations, LibraryLabel(id)) {
          var n := |p.config.authorizations|;
          assert Tags(q.config.authorizations)[n] == LibraryLabel(id);
        }
      }
      var k :| 0 <= k < |q.config.authorizations| && Tags(q.config.authorizations)[k] == LibraryLabel(id);
      assert Tags(r.config.authorizations)[k] == LibraryLabel(id);
    }
  }

  /** A plan creates, before what was asked for, authorizations for its libraries only: each for the owner after
      the update, on the library's own domain and address; and afterwards every library of the update has its
      label. */
  lemma PlansCreateForLibraries(config: ProgramConfig, u: ProgramUpdate)
    requires MakePlan(config, u).Ok?
    ensures var p, n := MakePlan(config, u).value, |Additions(u.authorizations)|;
            var owned := if u.owner.Some? then config.(owner := u.owner.value) else config;
            && n <= |p.news|
            && (forall j :: 0 <= j < |p.news| - n ==> ForOne(p.news[j], u.libraries, owned))
            && (forall i :: 0 <= i < |u.libraries| ==>
                  && u.libraries[i].0 in config.libraries
                  && HasTag(p.config.authorizations, "update_library_" + Written(u.libraries[i].0)))
  {
    hide PlanLibraries, PlanAuthorizations, Additions, ForOne, Written;
    var start := StartPlan(config, u);
    var q, p := PlanLibraries(start, u.libraries).value, MakePlan(config, u).value;
    LibrariesCreate(start, u.libraries);
    AuthorizationsComplete(q, u.authorizations);
    AuthorizationsKeepTags(q, u.authorizations);
    forall i | 0 <= i < |u.libraries|
      ensures u.libraries[i].0 in config.libraries
      ensures HasTag(p.config.authorizations, "update_library_" + Written(u.libraries[i].0))
    {
      LibrariesAreLabelled(start, u.libraries, i);
    }
  }

  lemma {:induction false} AuthorizationsKeepTags(p: Plan, updates: seq<AuthorizationUpdate>)
    requires PlanAuthorizations(p, updates).Ok?
    ensures Tags(p.config.authorizations) <= Tags(PlanAuthorizations(p, updates).value.config.authorizations)
    decreases |updates|
  {
    hide Amended;
    if updates != [] {
      var q := PlanAuthorization(p, updates[0]).value;
      if updates[0].Modify? {
        AmendedTags(p.config.authorizations, updates[0].tag, updates[0].changes);
      }
      AuthorizationsKeepTags(q, updates[1..]);
    }
  }

  /** The authorization of a library can be stored exactly when its domain is registered and runs CosmWasm, and
      takes exactly one message, a JSON object with the only member update_config. */
  lemma LibraryUpdatesFit(info: AuthorizationInfo, id: nat, library: Library, owner: Addr, block: Block,
                          domains: map<string, Environment>, encoders: set<string>, msgs: seq<ProcessorMessage>)
    requires ForLibrary(info, id, library, owner)
    ensures Validate(info.ToAuthorization(block), domains, encoders).None? <==>
              Registered(library.domain, domains) && RunsCosmwasm(library.domain, domains)
    ensures Validate(info.ToAuthorization(block), domains, encoders).None? ==>
              (ValidateMessages(info.subroutine, msgs).None? <==>
                 && |msgs| == 1 && msgs[0].ExecuteMsg? && msgs[0].msg.json.Some?
                 && msgs[0].msg.json.value.JObject? && msgs[0].msg.json.value.members.Keys == {"update_config"})
  {
    hide Validate, ValidateMessages;
    var auth := info.ToAuthorization(block);
    ValidateIff(auth, domains, encoders);
    assert auth.subroutine.Calls()[0] == info.subroutine.calls[0];
    if Validate(auth, domains, encoders).None? {
      ValidateMessagesIff(auth, domains, msgs);
    }
  }

  /** In the saved configuration a modification changes the first entry of its label and no other. */
  lemma {:induction false} AmendedIs(infos: seq<AuthorizationInfo>, tag: Label, c: Changes, i: nat)
    requires i < |infos|
    ensures |Amended(infos, tag, c)| == |infos|
    ensures var was, now := infos[i], Amended(infos, tag, c)[i];
            if was.tag == tag && (forall j :: 0 <= j < i ==> infos[j].tag != tag) then
              now == was.(notBefore := now.notBefore, priority := c.priority, maxConcurrent := c.maxConcurrent) &&
              now.notBefore == if c.notBefore.Some? then c.notBefore.value else was.notBefore
            else now == was
  {
    AmendedLength(infos, tag, c);
    if i > 0 && infos[0].tag != tag {
      AmendedIs(infos[1..], tag, c, i - 1);
      assert forall j :: 1 <= j < i ==> infos[j] == infos[1..][j - 1];
      assert forall j :: 0 <= j < i - 1 ==> infos[1..][j] == infos[j + 1];
    }
  }

  /** The saved entry says what the contract has for its label. */
  ghost predicate Agrees(info: AuthorizationInfo, auth: Authorization) {
    && info.tag == auth.tag && info.mode == auth.mode && info.notBefore == auth.notBefore
    && info.subroutine == auth.subroutine
    && Given(info.maxConcurrent, 1) == auth.maxConcurrent && Given(info.priority, Medium) == auth.priority
  }

  /** The contract keeps what a modification does not give, but the saved entry loses its cap and its priority.
      So after the modification they agree exactly when each of them is given or was the default. */
  lemma SavedModifyIff(info: AuthorizationInfo, auth: Authorization, c: Changes)
    requires Agrees(info, auth)
    ensures |Amended([info], info.tag, c)| == 1
    ensures Agrees(Amended([info], info.tag, c)[0], Changed(auth, c)) <==>
              && (c.maxConcurrent.Some? || auth.maxConcurrent == 1)
              && (c.priority.Some? || auth.priority.Medium?)
  {
    assert [info][1..] == [];
    AmendedIs([info], info.tag, c, 0);
  }

  /** A label may have three calls in process; it gets an expiration, and nothing else is given. The contract
      still allows three, the saved configuration one. */
  lemma SavedCapIsLost(info: AuthorizationInfo, block: Block, expiration: Expiration)
    requires info.maxConcurrent == Some(3)
    ensures var c := Changes(None, Some(expiration), None, None);
            && Changed(info.ToAuthorization(block), c).maxConcurrent == 3
            && |Amended([info], info.tag, c)| == 1
            && Amended([info], info.tag, c)[0].ToAuthorization(block).maxConcurrent == 1
  {
    assert [info][1..] == [];
  }

  lemma {:induction false} AmendedLength(infos: seq<AuthorizationInfo>, tag: Label, c: Changes)
    ensures |Amended(infos, tag, c)| == |infos|
  {
    if infos != [] {
      AmendedLength(infos[1..], tag, c);
    }
  }

  // ----- When there is a plan -----

  /** The changes can be made one after the other, starting from these labels: what is added is new by then, and
      everything else is there. */
  ghost predicate Legal(tags: set<Label>, updates: seq<AuthorizationUpdate>)
    decreases |updates|
  {
    updates == [] ||
    match updates[0]
    case Add(info) => info.tag !in tags && Legal(tags + {info.tag}, updates[1..])
    case Modify(tag, _) => tag in tags && Legal(tags, updates[1..])
    case Disable(tag) => tag in tags && Legal(tags, updates[1..])
    case Enable(tag) => tag in tags && Legal(tags, updates[1..])
  }

  ghost function Labels(infos: seq<AuthorizationInfo>): set<Label> { set t | t in Tags(infos) }

  lemma LabelsAppend(infos: seq<AuthorizationInfo>, info: AuthorizationInfo)
    ensures Labels(infos + [info]) == Labels(infos) + {info.tag}
  {
    hide Tags;
    TagsAppend(infos, info);
  }

  lemma {:induction false} AuthorizationsIff(p: Plan, updates: seq<AuthorizationUpdate>)
    ensures PlanAuthorizations(p, updates).Ok? <==> Legal(Labels(p.config.authorizations), updates)
    decreases |updates|
  {
    hide Amended, Tags;
    if updates != [] {
      var first := updates[0];
      if first.Modify? { AmendedTags(p.config.authorizations, first.tag, first.changes); }
      if first.Add? { LabelsAppend(p.config.authorizations, first.info); }
      var q := PlanAuthorization(p, first);
      if q.Ok? { AuthorizationsIff(q.value, updates[1..]); }
    }
  }

  /** The library is known, and has its label or an address to create one for. */
  ghost predicate Updatable(config: ProgramConfig, id: nat) {
    id in config.libraries &&
    (HasTag(config.authorizations, "update_library_" + Written(id)) || config.libraries[id].addr.Some?)
  }

  lemma {:induction false} LibrariesIff(p: Plan, libraries: seq<(nat, Binary)>)
    ensures PlanLibraries(p, libraries).Ok? <==>
            forall i :: 0 <= i < |libraries| ==> Updatable(p.config, libraries[i].0)
    decreases |libraries|
  {
    hide Written, HasTag;
    if libraries != [] {
      var (id, msg) := libraries[0];
      var q := PlanLibrary(p, id, msg);
      assert q.Ok? <==> Updatable(p.config, id);
      if q.Ok? {
        LibrariesIff(q.value, libraries[1..]);
        forall i | 0 <= i < |libraries[1..]|
          ensures Updatable(q.value.config, libraries[1..][i].0) <==> Updatable(p.config, libraries[i + 1].0)
        {
          SameUpdatable(p, id, msg, libraries[i + 1].0);
        }
        assert forall i :: 1 <= i < |libraries| ==> libraries[i] == libraries[1..][i - 1];
      }
    }
  }

  lemma SameUpdatable(p: Plan, id: nat, msg: Binary, k: nat)
    requires PlanLibrary(p, id, msg).Ok?
    ensures Updatable(PlanLibrary(p, id, msg).value.config, k) <==> Updatable(p.config, k)
  {
    hide Tags;
    var q := PlanLibrary(p, id, msg).value;
    if q.config != p.config {
      var info := LibraryInfo(id, p.config.libraries[id].domain, p.config.libraries[id].addr.value, p.config.owner);
      TagsAppend(p.config.authorizations, info);
      if "update_library_" + Written(k) == LibraryLabel(id) {
        SameLabel(k, id);
      }
    }
  }

  /** Different libraries have different labels. */
  lemma SameLabel(i: nat, j: nat)
    requires LibraryLabel(i) == LibraryLabel(j)
    ensures i == j
  {
    var name := "update_library_";
    assert Written(i) == (name + Written(i))[|name|..] && Written(j) == (name + Written(j))[|name|..];
    WrittenOnceOnly(i, j);
  }

  lemma {:induction false} WrittenOnceOnly(i: nat, j: nat)
    requires Written(i) == Written(j)
    ensures i == j
  {
    var a, b := Written(i), Written(j);
    assert a[|a| - 1] == Digit(i % 10) && b[|b| - 1] == Digit(j % 10);
    if i >= 10 && j >= 10 {
      assert a[..|a| - 1] == Written(i / 10) && b[..|b| - 1] == Written(j / 10);
      WrittenOnceOnly(i / 10, j / 10);
    }
  }

  ghost function LibraryLabels(libraries: seq<(nat, Binary)>): set<Label> {
    set i | 0 <= i < |libraries| :: "update_library_" + Written(libraries[i].0)
  }

  lemma {:induction false} LibrariesLabels(p: Plan, libraries: seq<(nat, Binary)>)
    requires PlanLibraries(p, libraries).Ok?
    ensures Labels(PlanLibraries(p, libraries).value.config.authorizations) ==
            Labels(p.config.authorizations) + LibraryLabels(libraries)
    decreases |libraries|
  {
    hide Tags, Written;
    if libraries != [] {
      var (id, msg) := libraries[0];
      var q, rest := PlanLibrary(p, id, msg).value, libraries[1..];
      assert Labels(q.config.authorizations) == Labels(p.config.authorizations) + {LibraryLabel(id)} by {
        if !HasTag(p.config.authorizations, LibraryLabel(id)) {
          var library := p.config.libraries[id];
          LabelsAppend(p.config.authorizations, LibraryInfo(id, library.domain, library.addr.value, p.config.owner));
        }
      }
      LibrariesLabels(q, rest);
      FirstLabel(libraries);
    }
  }

  lemma FirstLabel(libraries: seq<(nat, Binary)>)
    requires libraries != []
    ensures LibraryLabels(libraries) == {LibraryLabel(libraries[0].0)} + LibraryLabels(libraries[1..])
  {
    hide Written;
    var rest := libraries[1..];
    forall t | t in LibraryLabels(libraries)
      ensures t == LibraryLabel(libraries[0].0) || t in LibraryLabels(rest)
    {
      var i :| 0 <= i < |libraries| && t == "update_library_" + Written(libraries[i].0);
      if i > 0 { assert rest[i - 1] == libraries[i]; }
    }
    forall t | t in LibraryLabels(rest)
      ensures t in LibraryLabels(libraries)
    {
      var i :| 0 <= i < |rest| && t == "update_library_" + Written(rest[i].0);
      assert libraries[i + 1] == rest[i];
    }
  }

  /** There is a plan exactly when every library to update is known and has its label or an address, and the
      changes can be made one after the other on the old labels and those of the libraries. */
  lemma PlansIff(config: ProgramConfig, u: ProgramUpdate)
    ensures MakePlan(config, u).Ok? <==>
              && (forall i :: 0 <= i < |u.libraries| ==> Updatable(config, u.libraries[i].0))
              && Legal(Labels(config.authorizations) + LibraryLabels(u.libraries), u.authorizations)
  {
    hide PlanLibraries, PlanAuthorizations, Legal, Labels, LibraryLabels;
    var start := StartPlan(config, u);
    LibrariesIff(start, u.libraries);
    if PlanLibraries(start, u.libraries).Ok? {
      LibrariesLabels(start, u.libraries);
      AuthorizationsIff(PlanLibraries(start, u.libraries).value, u.authorizations);
    }
  }

  // ----- A plan is executed -----

  /** What the authorization contract does with an instruction. */
  function Obey(a: AuthStore, block: Block, encoders: set<string>, i: Instruction): AuthOutcome {
    match i
    case DoCreate(infos) => CreateAuthorizations(a, block, infos, encoders)
    case DoTransferOwnership(_) => Accepted(a, None, [])
    case DoInsert(tag, position, priority, msgs) => InsertMessages(a, block, tag, position, priority, msgs)
    case DoModify(tag, changes) => ModifyAuthorization(a, tag, changes, encoders)
    case DoSwitch(tag, enabled) => SetEnabled(a, tag, enabled)
  }

  /** All of them in order, up to the first that is refused. */
  function ObeyAll(a: AuthStore, block: Block, encoders: set<string>, instructions: seq<Instruction>): AuthOutcome
    decreases |instructions|
  {
    if instructions == [] then Accepted(a, None, [])
    else
      var o := Obey(a, block, encoders, instructions[0]);
      if o.Refused? then o else ObeyAll(o.store, block, encoders, instructions[1..])
  }

  predicate LabelProblem(o: AuthOutcome) { o == Refused(LabelExists) || o == Refused(LabelMissing) }

  /** The contract holds exactly these labels. */
  ghost predicate Holds(a: AuthStore, tags: seq<Label>) {
    forall t: Label :: t in a.authorizations <==> t in tags
  }

  lemma DistinctRest(x: Label, rest: seq<Label>)
    requires Distinct([x] + rest)
    ensures x !in rest && Distinct(rest)
  {
    var all := [x] + rest;
    assert forall i :: 0 <= i < |rest| ==> rest[i] == all[i + 1];
    assert all[0] == x;
  }

  lemma {:induction false} CreateHolds(a: AuthStore, block: Block, infos: seq<AuthorizationInfo>, encoders: set<string>,
                                       tags: seq<Label>)
    requires Holds(a, tags) && Distinct(Tags(infos))
    requires forall t :: t in Tags(infos) ==> t !in tags && t !in a.zkAuthorizations
    ensures var o := CreateAuthorizations(a, block, infos, encoders);
            !LabelProblem(o) && (o.Accepted? ==> Holds(o.store, tags + Tags(infos)))
    decreases |infos|
  {
    hide Validate;
    if infos == [] {
      assert tags + Tags(infos) == tags;
    } else {
      var first, rest := infos[0], infos[1..];
      assert Tags(infos) == [first.tag] + Tags(rest);
      DistinctRest(first.tag, Tags(rest));
      assert Tags(infos)[0] == first.tag;
      var o := CreateOne(a, block, first, encoders);
      if o.Accepted? {
        CreateHolds(o.store, block, rest, encoders, tags + [first.tag]);
        assert tags + [first.tag] + Tags(rest) == tags + Tags(infos);
      } else {
        ValidationError(first.ToAuthorization(block), a.domains, encoders);
      }
    }
  }

  /** What a validation complains about is never whether the label exists. */
  lemma ValidationError(auth: Authorization, domains: map<string, Environment>, encoders: set<string>)
    ensures Validate(auth, domains, encoders) !in {Some(LabelExists), Some(LabelMissing)}
  {
    hide CallsError;
    var calls := auth.subroutine.Calls();
    if calls != [] && Registered(calls[0].domain, domains) {
      var domain := calls[0].domain;
      CallsErrors(calls, domain, if domain.Main? then None else Some(domains[domain.name]), encoders);
    }
  }

  lemma {:induction false} CallsErrors(calls: seq<FunctionCall>, domain: Domain, env: Option<Environment>,
                                       encoders: set<string>)
    ensures CallsError(calls, domain, env, encoders) !in {Some(LabelExists), Some(LabelMissing)}
  {
    if calls != [] {
      CallsErrors(calls[1..], domain, env, encoders);
    }
  }

  /** After the creation nothing changes the labels, and every label that is named is there. */
  lemma ObeyHolds(a: AuthStore, block: Block, encoders: set<string>, i: Instruction, tags: seq<Label>)
    requires Holds(a, tags) && !i.DoCreate? && (i.NamesLabel() ==> i.tag in tags)
    ensures var o := Obey(a, block, encoders, i); !LabelProblem(o) && (o.Accepted? ==> Holds(o.store, tags))
  {
    hide Validate, ValidateMessages;
    if i.DoModify? && i.tag in a.authorizations {
      ValidationError(Changed(a.authorizations[i.tag], i.changes), a.domains, encoders);
    }
  }

  lemma {:induction false} RestHolds(a: AuthStore, block: Block, encoders: set<string>, rest: seq<Instruction>,
                                     tags: seq<Label>)
    requires Holds(a, tags)
    requires forall i :: 0 <= i < |rest| ==> !rest[i].DoCreate? && (rest[i].NamesLabel() ==> rest[i].tag in tags)
    ensures var o := ObeyAll(a, block, encoders, rest); !LabelProblem(o) && (o.Accepted? ==> Holds(o.store, tags))
    decreases |rest|
  {
    hide Obey, Holds;
    if rest != [] {
      ObeyHolds(a, block, encoders, rest[0], tags);
      var o := Obey(a, block, encoders, rest[0]);
      if o.Accepted? {
        RestHolds(o.store, block, encoders, rest[1..], tags);
      }
    }
  }

  /** Executed by a contract that holds the labels of the old configuration, and whose ZK labels are
      others than the new ones, no plan fails because of a missing or an existing label; and if it does
      not fail at all, the contract then holds the labels of the new configuration. */
  lemma PlansAreExecutable(config: ProgramConfig, u: ProgramUpdate, a: AuthStore, block: Block, encoders: set<string>)
    requires MakePlan(config, u).Ok? && Holds(a, Tags(config.authorizations))
    requires forall t :: t in Tags(MakePlan(config, u).value.news) ==> t !in a.zkAuthorizations
    ensures var p := MakePlan(config, u).value;
            var o := ObeyAll(a, block, encoders, Instructions(p));
            !LabelProblem(o) && (o.Accepted? ==> Holds(o.store, Tags(p.config.authorizations)))
  {
    hide MakePlan, Tags, CreateAuthorizations, Holds;
    var p := MakePlan(config, u).value;
    PlansAreOk(config, u);
    var before := Tags(config.authorizations);
    CreateHolds(a, block, p.news, encoders, before);
    var o := CreateAuthorizations(a, block, p.news, encoders);
    assert Instructions(p)[0] == DoCreate(p.news) && Instructions(p)[1..] == p.rest;
    if o.Accepted? {
      RestHolds(o.store, block, encoders, p.rest, before + Tags(p.news));
    }
  }
}
