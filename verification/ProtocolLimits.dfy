/** The concurrency cap of a label over whole runs. */
module ProtocolLimits {
  import opened Types
  import opened Validation
  import opened AuthorizationModel
  import opened Protocol
  import opened ProtocolInvariant
  import opened ProtocolTable
  import opened ProtocolLifeCycle
  import AI = AuthorizationInvariant

  ghost predicate UnderCap(a: AuthStore, tag: Label) {
    tag in a.authorizations ==> Running(a, tag) <= a.authorizations[tag].maxConcurrent
  }

  /** The two ways the owner can get past the cap: by inserting calls, or by lowering it. */
  ghost predicate Exceeds(w: World, s: Step, tag: Label) {
    match s.action
    case Insert(t, _, _, _) => t == tag
    case Administer(c) =>
      && c.Modify? && c.tag == tag && c.changes.maxConcurrent.Some?
      && tag in w.auth.authorizations && c.changes.maxConcurrent.value < w.auth.authorizations[tag].maxConcurrent
    case _ => false
  }

  lemma ClosesRunning(a: map<nat, Record>, b: map<nat, Record>, tag: Label)
    requires OnlyCloses(a, b)
    ensures |AI.RunningIds(b, tag)| <= |AI.RunningIds(a, tag)|
  {
    SubsetSize(AI.RunningIds(b, tag), AI.RunningIds(a, tag));
  }

  /** How far the number of running executions can grow at the beginning of a step. */
  lemma BeginsRunning(a: AuthStore, b: AuthStore, s: Step, tag: Label)
    requires AI.Inv(a) && Begins(a, b, s) && tag in a.authorizations
    requires !(s.action.Insert? && s.action.tag == tag)
    ensures var n := |AI.RunningIds(b.records, tag)|;
            n <= Running(a, tag) || n <= a.authorizations[tag].maxConcurrent
  {
    hide AI.RunningIds, AI.RecordsOk, AI.IdsOk, WellFormed;
    assert Running(a, tag) == |AI.InProcessIds(a, tag)|;
    if !SameRecords(a, b) {
      var id := if s.action.Retry? then s.action.id else a.nextId;
      AI.RunningIdsUpdate(a.records, id, b.records[id], tag);
      assert b.records == a.records[id := b.records[id]];
    }
  }

  lemma CallCap(w: World, s: Step, tag: Label)
    requires Inv(w) && UnderCap(w.auth, tag) && !Exceeds(w, s, tag) && !s.action.Administer?
    ensures UnderCap(Next(w, s).auth, tag)
  {
    hide Inv, Next, AI.RunningIds, Begins, AI.Inv, OnlyCloses;
    var v := Next(w, s);
    var b := StepShape(w, s);
    if tag in v.auth.authorizations {
      AuthAt(w);
      StepKeeps(w, s);
      AuthAt(v);
      BeginsRunning(w.auth, b, s, tag);
      ClosesRunning(b.records, v.auth.records, tag);
      CountIs(v.auth, tag);
    }
  }

  lemma CountIs(a: AuthStore, tag: Label)
    requires AI.Inv(a)
    ensures Running(a, tag) == |AI.RunningIds(a.records, tag)|
  {
    hide AI.RecordsOk, AI.IdsOk, AI.TableOk, AI.RunningIds;
    assert Running(a, tag) == |AI.InProcessIds(a, tag)|;
  }

  /** A change of the table leaves the caps of old labels alone, unless it modifies one. */
  lemma TableCap(a: AuthStore, block: Block, c: TableChange, tag: Label)
    requires ChangeTable(a, block, c).Accepted? && tag in a.authorizations
    ensures var b := ChangeTable(a, block, c).store;
            && tag in b.authorizations
            && b.authorizations[tag].maxConcurrent ==
                 if c.Modify? && c.tag == tag && c.changes.maxConcurrent.Some? then c.changes.maxConcurrent.value
                 else a.authorizations[tag].maxConcurrent
  {
    hide CreateAuthorizations, CreateZkAuthorizations, Validate;
    match c
    case Create(infos, libraries) => CreateRecords(a, block, infos, libraries);
    case CreateZk(auths) => CreateZkRecords(a, auths);
    case _ =>
  }

  /** A label that is new has no executions. */
  lemma NewLabelIdle(a: AuthStore, tag: Label)
    requires AI.Inv(a) && !LabelKnown(a, tag)
    ensures Running(a, tag) == 0
  {
    hide ValidateMessages, DomainOf, WellFormed;
    CountIs(a, tag);
    assert forall id :: id in a.records ==> AI.RecordOk(a, a.records[id]) && a.records[id].tag != tag;
    assert AI.RunningIds(a.records, tag) == {};
  }

  lemma TableRunning(a: AuthStore, block: Block, c: TableChange, tag: Label)
    requires AI.Inv(a) && UnderCap(a, tag) && ChangeTable(a, block, c).Accepted?
    requires AI.Inv(ChangeTable(a, block, c).store)
    requires c.Modify? && c.tag == tag && c.changes.maxConcurrent.Some? && tag in a.authorizations ==>
               a.authorizations[tag].maxConcurrent <= c.changes.maxConcurrent.value
    ensures UnderCap(ChangeTable(a, block, c).store, tag)
  {
    hide ChangeTable, AI.Inv;
    var b := ChangeTable(a, block, c).store;
    TableRecords(a, block, c);
    CountIs(a, tag);
    CountIs(b, tag);
    if tag in a.authorizations {
      TableCap(a, block, c, tag);
    } else if tag in b.authorizations {
      TableNew(a, block, c, tag);
      NewLabelIdle(a, tag);
    }
  }

  lemma TableNew(a: AuthStore, block: Block, c: TableChange, tag: Label)
    requires ChangeTable(a, block, c).Accepted? && tag !in a.authorizations &&
             tag in ChangeTable(a, block, c).store.authorizations
    ensures !LabelKnown(a, tag)
  {
    hide CreateAuthorizations, CreateZkAuthorizations, Validate;
    match c
    case Create(infos, libraries) => CreateNew(a, block, infos, libraries, tag);
    case CreateZk(auths) => CreateZkRecords(a, auths);
    case _ =>
  }

  lemma {:induction false} CreateNew(a: AuthStore, block: Block, infos: seq<AuthorizationInfo>,
                                     libraries: set<string>, tag: Label)
    requires CreateAuthorizations(a, block, infos, libraries).Accepted?
    requires tag !in a.authorizations && tag in CreateAuthorizations(a, block, infos, libraries).store.authorizations
    ensures !LabelKnown(a, tag)
    decreases |infos|
  {
    hide Validate;
    if infos != [] && infos[0].tag != tag {
      CreateNew(CreateOne(a, block, infos[0], libraries).store, block, infos[1..], libraries, tag);
    }
  }

  lemma AdministerCap(w: World, s: Step, tag: Label)
    requires Inv(w) && UnderCap(w.auth, tag) && !Exceeds(w, s, tag) && s.action.Administer?
    ensures UnderCap(Next(w, s).auth, tag)
  {
    hide Inv, UnderCap, ChangeTable, RunTokens, AI.Inv;
    StepKeeps(w, s);
    if TryStep(w, s).Some? {
      AuthAt(w);
      AuthAt(Next(w, s));
      TableRunning(w.auth, s.block, s.action.change, tag);
    }
  }

  /** In every run without inserts for the label in which its cap is never lowered, no more of its
      executions run at once than the cap says. */
  lemma {:induction false} CapHolds(steps: seq<Step>, w: World, tag: Label)
    requires w == Run(steps)
    requires forall i :: 0 <= i < |steps| ==> !Exceeds(Run(steps[..i]), steps[i], tag)
    ensures UnderCap(w.auth, tag)
    decreases |steps|
  {
    hide Next, Exceeds, Inv;
    if steps != [] {
      var most, last := steps[..|steps| - 1], steps[|steps| - 1];
      forall i | 0 <= i < |most|
        ensures !Exceeds(Run(most[..i]), most[i], tag)
      {
        assert most[..i] == steps[..i] && most[i] == steps[i];
      }
      var before := Run(most);
      CapHolds(most, before, tag);
      RunKeeps(most, before);
      assert !Exceeds(before, last, tag);
      if last.action.Administer? {
        AdministerCap(before, last, tag);
      } else {
        CallCap(before, last, tag);
      }
    }
  }
}
