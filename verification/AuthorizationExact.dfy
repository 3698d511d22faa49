/** Which calls the authorization contract accepts, and what exactly it does with them. */
module AuthorizationExact {
  import opened Types
  import opened Validation
  import opened AuthorizationModel
  import opened AuthorizationInvariant

  /** One matching message for every function. */
  ghost predicate Fit(s: Subroutine, msgs: seq<ProcessorMessage>) {
    |msgs| == |s.Calls()| && forall i :: 0 <= i < |msgs| ==> Matches(msgs[i], s.Calls()[i].details)
  }

  /** The store gets one more record, under the next id, and the call leaves under that id. */
  ghost predicate Begun(a: AuthStore, o: AuthOutcome, r: Record, m: AuthorizationMsg) {
    && o.Accepted? && o.tokens == []
    && o.store.records == a.records[a.nextId := r]
    && o.store.authorizations == a.authorizations && o.store.zkAuthorizations == a.zkAuthorizations
    && o.store.domains == a.domains
    && o.call == Some(Call(r.domain, m, Some(a.nextId)))
  }

  lemma TableEntry(a: AuthStore, tag: Label)
    requires Inv(a) && tag in a.authorizations
    ensures WellFormed(a.authorizations[tag], a.domains)
    ensures Running(a, tag) == |InProcessIds(a, tag)|
  {
    hide WellFormed, InProcessIds, RecordsOk, IdsOk;
  }

  lemma HasDomain(auth: Authorization, domains: map<string, Environment>)
    requires WellFormed(auth, domains)
    ensures DomainOf(auth.subroutine).Some? && Registered(DomainOf(auth.subroutine).value, domains)
  {
    hide LegalRestrictions;
    assert WellFormedCall(auth.subroutine.Calls()[0], domains);
  }

  /** A user's call is accepted exactly when the label is stored, in force and not at its cap, the caller may
      call, and every function gets a matching message. */
  lemma SendIff(a: AuthStore, block: Block, sender: Addr, tag: Label, ttl: Option<Expiration>,
                msgs: seq<ProcessorMessage>, paid: Option<nat>, balance: nat)
    requires Inv(a)
    ensures SendMsgs(a, block, sender, tag, ttl, msgs, paid, balance).Accepted? <==>
              && tag in a.authorizations
              && var auth := a.authorizations[tag];
                 && InForce(auth, block) && MayCall(auth.mode, paid, balance) && Fit(auth.subroutine, msgs)
                 && |InProcessIds(a, tag)| < auth.maxConcurrent
  {
    hide Inv, WellFormed, ExecutionError, InForce, MayCall, Matches, InProcessIds, DomainOf, Registered;
    if tag in a.authorizations {
      TableEntry(a, tag);
      HasDomain(a.authorizations[tag], a.domains);
      ExecutableIff(a.authorizations[tag], a.domains, block, paid, balance, msgs);
    }
  }

  /** It is recorded for its sender, and the batch of the stored subroutine leaves for its domain. */
  lemma SendDoes(a: AuthStore, block: Block, sender: Addr, tag: Label, ttl: Option<Expiration>,
                 msgs: seq<ProcessorMessage>, paid: Option<nat>, balance: nat)
    requires SendMsgs(a, block, sender, tag, ttl, msgs, paid, balance).Accepted?
    ensures && tag in a.authorizations && a.authorizations[tag].subroutine.Calls() != []
            && var auth, now := a.authorizations[tag], block.Seconds();
               var s := auth.subroutine;
               Begun(a, SendMsgs(a, block, sender, tag, ttl, msgs, paid, balance),
                     Record(User(sender), s.Calls()[0].domain, tag, msgs, ttl, InProcess, now, now),
                     EnqueueMsgs(a.nextId, msgs, s, auth.priority, DeadlineAt(s, now)))
  {
    hide ExecutionError, DeadlineAt;
  }

  /** The owner's insert is accepted exactly when the label is stored and every function gets a matching
      message: neither the time nor the cap matters. */
  lemma InsertIff(a: AuthStore, block: Block, tag: Label, position: nat, priority: Priority,
                  msgs: seq<ProcessorMessage>)
    requires Inv(a)
    ensures InsertMessages(a, block, tag, position, priority, msgs).Accepted? <==>
              tag in a.authorizations && Fit(a.authorizations[tag].subroutine, msgs)
  {
    hide Inv, WellFormed, ValidateMessages, Matches, InProcessIds, DomainOf, Registered;
    if tag in a.authorizations {
      TableEntry(a, tag);
      HasDomain(a.authorizations[tag], a.domains);
      ValidateMessagesIff(a.authorizations[tag], a.domains, msgs);
    }
  }

  lemma InsertDoes(a: AuthStore, block: Block, tag: Label, position: nat, priority: Priority,
                   msgs: seq<ProcessorMessage>)
    requires InsertMessages(a, block, tag, position, priority, msgs).Accepted?
    ensures && tag in a.authorizations && a.authorizations[tag].subroutine.Calls() != []
            && var s, now := a.authorizations[tag].subroutine, block.Seconds();
               Begun(a, InsertMessages(a, block, tag, position, priority, msgs),
                     Record(Initiator.Owner, s.Calls()[0].domain, tag, msgs, None, InProcess, now, now),
                     InsertMsgs(a.nextId, position, msgs, s, priority, DeadlineAt(s, now)))
  {
    hide ValidateMessages, DeadlineAt;
  }

  /** What is accepted of a proof that was verified: it is of the registry of its label and for this
      contract, the label is enabled, the caller may call, the domain runs CosmWasm, and the block is newer
      than the last one if the label looks at it. */
  lemma ProofIff(a: AuthStore, block: Block, sender: Addr, tag: Label, zk: ZkMessage, paid: Option<nat>, balance: nat)
    ensures ExecuteZk(a, block, sender, tag, zk, paid, balance).Accepted? <==>
              && tag in a.zkAuthorizations
              && var auth := a.zkAuthorizations[tag];
                 && auth.enabled && MayCall(auth.mode, paid, balance)
                 && zk.registry == auth.registry && zk.forUs
                 && Registered(zk.domain, a.domains) && RunsCosmwasm(zk.domain, a.domains)
                 && (auth.validateLastBlock && auth.registry in a.lastBlocks ==>
                       a.lastBlocks[auth.registry] < zk.blockNumber)
                 && (auth.validateLastBlock ==> zk.blockNumber > 0)
  {
  }

  /** A proof that carries a batch is recorded for its sender, and its message leaves under a new id; any other
      message leaves as it is. The block is remembered if the label looks at the blocks. */
  lemma ProofDoes(a: AuthStore, block: Block, sender: Addr, tag: Label, zk: ZkMessage, paid: Option<nat>, balance: nat)
    requires ExecuteZk(a, block, sender, tag, zk, paid, balance).Accepted?
    ensures && tag in a.zkAuthorizations
            && var o, auth, now := ExecuteZk(a, block, sender, tag, zk, paid, balance), a.zkAuthorizations[tag],
                                   block.Seconds();
               && o.store.lastBlocks == (if auth.validateLastBlock then a.lastBlocks[auth.registry := zk.blockNumber]
                                         else a.lastBlocks)
               && if zk.msg.CarriesBatch() then
                    Begun(a, o, Record(User(sender), zk.domain, tag, zk.msg.msgs, None, InProcess, now, now),
                          zk.msg.(id := a.nextId))
                  else o.store.records == a.records && o.call == Some(Call(zk.domain, zk.msg, None)) && o.tokens == []
  {
  }

  function Given<T>(change: Option<T>, was: T): T { if change.Some? then change.value else was }

  /** What is created is what was given: enabled, one at a time unless a cap is given, and with medium priority
      unless another is given. */
  lemma CreatedAs(info: AuthorizationInfo, created: Block)
    ensures var auth := info.ToAuthorization(created);
            && auth.tag == info.tag && auth.mode == info.mode && auth.subroutine == info.subroutine && auth.enabled
            && auth.maxConcurrent == Given(info.maxConcurrent, 1) && auth.priority == Given(info.priority, Medium)
  {
  }

  /** When a label that was created with this lifespan can be called. */
  lemma CreatedInForceIff(info: AuthorizationInfo, created: Block, now: Block)
    ensures InForce(info.ToAuthorization(created), now) <==>
              && (match info.notBefore
                  case Never => true
                  case AtHeight(h) => h <= now.height
                  case AtTime(t) => t <= now.time)
              && (match info.lifespan
                  case Forever => true
                  case Seconds(n) => now.time < created.time + n * NANOS
                  case Blocks(n) => now.height < created.height + n)
  {
  }

  /** These authorizations can be stored together: their labels are new and pairwise different, they are well
      formed, and their encoder libraries exist. */
  ghost predicate Creatable(a: AuthStore, block: Block, infos: seq<AuthorizationInfo>, libraries: set<string>) {
    && (forall i, j :: 0 <= i < j < |infos| ==> infos[i].tag != infos[j].tag)
    && forall i :: 0 <= i < |infos| ==> IsCreatable(a, block, infos[i], libraries)
  }

  ghost predicate IsCreatable(a: AuthStore, block: Block, info: AuthorizationInfo, libraries: set<string>) {
    && info.tag !in a.authorizations && info.tag !in a.zkAuthorizations
    && WellFormed(info.ToAuthorization(block), a.domains) && LibrariesKnown(info.subroutine.Calls(), libraries)
  }

  /** Exactly these labels are new, as they were given. */
  ghost predicate Added(a: AuthStore, b: AuthStore, block: Block, infos: seq<AuthorizationInfo>) {
    && (forall i :: 0 <= i < |infos| ==>
          infos[i].tag in b.authorizations && b.authorizations[infos[i].tag] == infos[i].ToAuthorization(block))
    && (forall t :: t in a.authorizations ==> t in b.authorizations && b.authorizations[t] == a.authorizations[t])
    && (forall t :: t in b.authorizations && t !in a.authorizations ==>
          exists i :: 0 <= i < |infos| && infos[i].tag == t)
    && b == a.(authorizations := b.authorizations)
  }

  lemma AddedFirst(a: AuthStore, a1: AuthStore, b: AuthStore, block: Block, infos: seq<AuthorizationInfo>)
    requires infos != [] && infos[0].tag !in a.authorizations
    requires a1 == a.(authorizations := a.authorizations[infos[0].tag := infos[0].ToAuthorization(block)])
    requires Added(a1, b, block, infos[1..])
    ensures Added(a, b, block, infos)
  {
    var rest := infos[1..];
    assert forall i :: 1 <= i < |infos| ==> infos[i] == rest[i - 1];
    forall t | t in b.authorizations && t !in a.authorizations
      ensures exists i :: 0 <= i < |infos| && infos[i].tag == t
    {
      if t != infos[0].tag {
        var i :| 0 <= i < |rest| && rest[i].tag == t;
        assert infos[i + 1].tag == t;
      }
    }
  }

  /** A creation is accepted exactly then, and adds exactly these labels. */
  lemma {:induction false} CreateIff(a: AuthStore, block: Block, infos: seq<AuthorizationInfo>, libraries: set<string>)
    ensures var o := CreateAuthorizations(a, block, infos, libraries);
            && (o.Accepted? <==> Creatable(a, block, infos, libraries))
            && (o.Accepted? ==> Added(a, o.store, block, infos))
    decreases |infos|
  {
    hide WellFormed, Validate, LibrariesKnown, Issue;
    if infos != [] {
      hide Creatable, Added;
      var first := infos[0];
      ValidateIff(first.ToAuthorization(block), a.domains, libraries);
      var o := CreateOne(a, block, first, libraries);
      if o.Accepted? {
        CreateIff(o.store, block, infos[1..], libraries);
        FirstCreatable(a, o.store, block, infos, libraries);
        if CreateAuthorizations(a, block, infos, libraries).Accepted? {
          AddedFirst(a, o.store, CreateAuthorizations(a, block, infos, libraries).store, block, infos);
        }
      } else {
        NotCreatable(a, block, infos, libraries);
      }
    }
  }

  lemma NotCreatable(a: AuthStore, block: Block, infos: seq<AuthorizationInfo>, libraries: set<string>)
    requires infos != [] && !IsCreatable(a, block, infos[0], libraries)
    ensures !Creatable(a, block, infos, libraries)
  {
    hide IsCreatable;
  }

  lemma FirstCreatable(a: AuthStore, b: AuthStore, block: Block, infos: seq<AuthorizationInfo>, libraries: set<string>)
    requires infos != [] && IsCreatable(a, block, infos[0], libraries)
    requires b == a.(authorizations := a.authorizations[infos[0].tag := infos[0].ToAuthorization(block)])
    ensures Creatable(a, block, infos, libraries) <==> Creatable(b, block, infos[1..], libraries)
  {
    hide WellFormed, LibrariesKnown;
    var rest := infos[1..];
    assert forall i :: 1 <= i < |infos| ==> infos[i] == rest[i - 1];
    assert forall i :: 0 <= i < |rest| ==> rest[i] == infos[i + 1];
    if Creatable(a, block, infos, libraries) {
      forall i | 0 <= i < |rest|
        ensures IsCreatable(b, block, rest[i], libraries)
      {
        assert IsCreatable(a, block, infos[i + 1], libraries) && infos[0].tag != infos[i + 1].tag;
      }
    }
    if Creatable(b, block, rest, libraries) {
      forall i, j | 0 <= i < j < |infos|
        ensures infos[i].tag != infos[j].tag
      {
        assert IsCreatable(b, block, rest[j - 1], libraries);
      }
      forall i | 0 <= i < |infos|
        ensures IsCreatable(a, block, infos[i], libraries)
      {
        if i > 0 { assert IsCreatable(b, block, rest[i - 1], libraries); }
      }
    }
  }

  /** ZK labels that can be stored together: new, pairwise different, and not empty. */
  ghost predicate ZkCreatable(a: AuthStore, auths: seq<ZkAuthorization>) {
    && (forall i, j :: 0 <= i < j < |auths| ==> auths[i].tag != auths[j].tag)
    && forall i :: 0 <= i < |auths| ==> auths[i].tag != "" && !LabelKnown(a, auths[i].tag)
  }

  /** They are there as given, and enabled; the others are as they were. */
  ghost predicate ZkAdded(a: AuthStore, b: AuthStore, auths: seq<ZkAuthorization>) {
    && (forall i :: 0 <= i < |auths| ==>
          && auths[i].tag in b.zkAuthorizations
          && b.zkAuthorizations[auths[i].tag] == auths[i].(enabled := true))
    && (forall t :: t in a.zkAuthorizations ==>
          t in b.zkAuthorizations && b.zkAuthorizations[t] == a.zkAuthorizations[t])
    && b == a.(zkAuthorizations := b.zkAuthorizations)
  }

  lemma FirstZk(a: AuthStore, a1: AuthStore, b: AuthStore, auths: seq<ZkAuthorization>)
    requires auths != [] && auths[0].tag != "" && !LabelKnown(a, auths[0].tag)
    requires a1 == a.(zkAuthorizations := a.zkAuthorizations[auths[0].tag := auths[0].(enabled := true)])
    ensures ZkCreatable(a, auths) <==> ZkCreatable(a1, auths[1..])
    ensures ZkAdded(a1, b, auths[1..]) ==> ZkAdded(a, b, auths)
  {
    var rest := auths[1..];
    assert forall i :: 1 <= i < |auths| ==> auths[i] == rest[i - 1];
    assert forall i :: 0 <= i < |rest| ==> rest[i] == auths[i + 1];
    if ZkCreatable(a1, rest) {
      forall j | 0 < j < |auths|
        ensures auths[0].tag != auths[j].tag && !LabelKnown(a, auths[j].tag)
      {
        assert !LabelKnown(a1, rest[j - 1].tag);
      }
    }
  }

  /** ZK labels are accepted exactly then, and stored as given and enabled. */
  lemma {:induction false} CreateZkIff(a: AuthStore, auths: seq<ZkAuthorization>)
    ensures var o := CreateZkAuthorizations(a, auths);
            (o.Accepted? <==> ZkCreatable(a, auths)) && (o.Accepted? ==> ZkAdded(a, o.store, auths))
    decreases |auths|
  {
    hide Issue;
    if auths != [] {
      var first := CreateZkOne(a, auths[0]);
      if first.Accepted? {
        hide ZkCreatable, ZkAdded;
        CreateZkIff(first.store, auths[1..]);
        var o := CreateZkAuthorizations(first.store, auths[1..]);
        FirstZk(a, first.store, if o.Accepted? then o.store else a, auths);
      }
    }
  }

  /** Modifying a label changes what is given and nothing else of it, and no other label. */
  lemma ModifyDoes(a: AuthStore, tag: Label, c: Changes, libraries: set<string>)
    requires ModifyAuthorization(a, tag, c, libraries).Accepted?
    ensures && tag in a.authorizations
            && var o, was := ModifyAuthorization(a, tag, c, libraries), a.authorizations[tag];
               && tag in o.store.authorizations
               && var now := o.store.authorizations[tag];
                  && now.notBefore == Given(c.notBefore, was.notBefore)
                  && now.expiration == Given(c.expiration, was.expiration)
                  && now.maxConcurrent == Given(c.maxConcurrent, was.maxConcurrent)
                  && now.priority == Given(c.priority, was.priority)
                  && now.tag == was.tag && now.subroutine == was.subroutine && now.mode == was.mode
                  && now.enabled == was.enabled
                  && o.store == a.(authorizations := a.authorizations[tag := now]) && o.tokens == []
  {
    hide Validate;
  }

  /** A stored label with known libraries can be modified in every way but one: a permissionless label does not
      get high priority. */
  lemma ModifyIff(a: AuthStore, tag: Label, c: Changes, libraries: set<string>)
    requires TableOk(a)
    ensures ModifyAuthorization(a, tag, c, libraries).Accepted? <==>
              && tag in a.authorizations && LibrariesKnown(a.authorizations[tag].subroutine.Calls(), libraries)
              && !(a.authorizations[tag].mode.Permissionless? &&
                   Given(c.priority, a.authorizations[tag].priority).High?)
  {
    hide Validate, LibrariesKnown, WellFormedCall;
    if tag in a.authorizations {
      assert WellFormed(a.authorizations[tag], a.domains);
      ValidateIff(Changed(a.authorizations[tag], c), a.domains, libraries);
    }
  }

  /** Switching is refused exactly for an unknown label. It switches that label, in whichever table it is, and
      nothing else. */
  lemma SwitchDoes(a: AuthStore, tag: Label, enabled: bool)
    requires TableOk(a)
    ensures var o := SetEnabled(a, tag, enabled);
            && (o.Accepted? <==> tag in a.authorizations || tag in a.zkAuthorizations)
            && (tag in a.authorizations ==>
                  && tag in o.store.authorizations && o.store.authorizations[tag].enabled == enabled
                  && o.store == a.(authorizations :=
                                   a.authorizations[tag := a.authorizations[tag].(enabled := enabled)]))
            && (tag in a.zkAuthorizations ==>
                  && tag in o.store.zkAuthorizations && o.store.zkAuthorizations[tag].enabled == enabled
                  && o.store.authorizations == a.authorizations)
  {
    hide WellFormed;
    assert a.authorizations.Keys !! a.zkAuthorizations.Keys;
    assert tag in a.authorizations ==> tag in a.authorizations.Keys;
    assert tag in a.zkAuthorizations ==> tag in a.zkAuthorizations.Keys;
  }
}
