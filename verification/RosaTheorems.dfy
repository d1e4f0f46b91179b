/** What every history of ROSA reconciles satisfies, whatever the environment answers. */
module RosaTheorems {
  import opened Conditions
  import opened StatusPatch
  import opened Requests
  import opened RosaProtocol
  import opened RosaInvariants

  // ---- Causes: what is known was learnt from an event of the trace ----

  /** Events j and i belong to one reconcile, j first. */
  predicate SameRun(es: seq<Event>, j: int, i: int) {
    0 <= j < i <= |es| && forall k :: j < k < i ==> !es[k].Start?
  }

  /** What holds of the events before i holds of them in the whole trace. */
  lemma SameRunIn(es: seq<Event>, i: nat, j: int)
    requires i <= |es| && SameRun(es[..i], j, i)
    ensures SameRun(es, j, i) && es[j] == es[..i][j]
  {
  }

  /** One more event of the same reconcile. */
  lemma SameRunNext(es: seq<Event>, j: int)
    requires es != [] && !es[|es| - 1].Start? && SameRun(es[..|es| - 1], j, |es| - 1)
    ensures SameRun(es, j, |es|) && es[j] == es[..|es| - 1][j]
  {
  }

  predicate Teaches(e: Event, f: Fact) {
    match f
    case SawMissing => e == Lookup(false)
    case RolesGone => e.RolesDone?
    case ConfigGone => e.ConfigDelete? && e.reply.Accepted?
    case ProviderGone => e.ProviderDelete? && e.reply.Accepted?
    case ScanClear => e.ScanChildren? && NoChild(e.id, e.kinds)
    case _ => false
  }

  predicate Taught(f: Fact) {
    f == SawMissing || f == RolesGone || f == ConfigGone || f == ProviderGone || f == ScanClear
  }

  lemma CallTeaches(facts: set<Fact>, e: Event, f: Fact)
    requires IsCall(e) && Taught(f) && f in CallFacts(facts, e)
    ensures Teaches(e, f) || f in facts
  {
  }

  lemma FactLearnt(s: State, e: Event, f: Fact)
    requires Taught(f) && Enabled(s, e) && Apply(s, e).run.Active? && f in Apply(s, e).run.facts
    ensures Teaches(e, f) || (s.run.Active? && f in s.run.facts && !e.Start?)
  {
    if IsCall(e) {
      CallTeaches(s.run.facts, e, f);
    } else if IsWrite(e) {
    } else if IsCreate(e) {
      CreateRunFrame(s.run, e);
    } else if e.Patch? {
    }
  }

  lemma {:induction false} FactHasCause(s: State, es: seq<Event>, f: Fact)
    requires Init(s) && Legal(s, es) && Taught(f)
    requires Exec(s, es).run.Active? && f in Exec(s, es).run.facts
    ensures exists j :: SameRun(es, j, |es|) && Teaches(es[j], f)
    decreases |es|
  {
    var before, e := es[..|es| - 1], es[|es| - 1];
    FactLearnt(Exec(s, before), e, f);
    if Teaches(e, f) {
      assert SameRun(es, |es| - 1, |es|);
    } else {
      FactHasCause(s, before, f);
      var j :| SameRun(before, j, |before|) && Teaches(before[j], f);
      SameRunNext(es, j);
    }
  }

  lemma {:induction false} KnowledgeHasCause(s: State, es: seq<Event>, t: ConditionType, f: Fact)
    requires Init(s) && Legal(s, es) && Records(t, f) && Knows(Exec(s, es), t, f)
    ensures exists j :: 0 <= j < |es| && Teaches(es[j], f)
    decreases |es|
  {
    if es != [] {
      var before, e := es[..|es| - 1], es[|es| - 1];
      var s' := Exec(s, before);
      KnowsGrows(s', e, t, f);
      if Knows(s', t, f) {
        KnowledgeHasCause(s, before, t, f);
        var j :| 0 <= j < |before| && Teaches(before[j], f);
        assert Teaches(es[j], f);
      } else {
        FactLearnt(s', e, f);
        assert Teaches(es[|es| - 1], f);
      }
    }
  }

  // ---- Teardown ----

  /** The finalizer is removed only in a reconcile whose lookup by name found no cluster, and only
      after the roles, the OIDC config and the OIDC provider were each deleted successfully, in this
      reconcile or an earlier one. */
  lemma TeardownSafety(s: State, es: seq<Event>, i: nat)
    requires Init(s) && Legal(s, es) && i < |es| && es[i].RemoveFinalizer?
    ensures exists j :: SameRun(es, j, i) && es[j] == Lookup(false)
    ensures exists j :: 0 <= j < i && es[j].RolesDone?
    ensures exists j :: 0 <= j < i && es[j].ConfigDelete? && es[j].reply.Accepted?
    ensures exists j :: 0 <= j < i && es[j].ProviderDelete? && es[j].reply.Accepted?
  {
    LegalPrefix(s, es, i);
    RemoveNeeds(Exec(s, es[..i]), es[i].reply);
    MissingBefore(s, es, i);
    var j1 := Cause(s, es, i, OperatorRolesDeleted, RolesGone);
    var j2 := Cause(s, es, i, OIDCProviderDeleted, ConfigGone);
    var j3 := Cause(s, es, i, OIDCConfigDeleted, ProviderGone);
  }

  lemma RemoveNeeds(t: State, r: CallReply)
    requires Enabled(t, RemoveFinalizer(r))
    ensures t.run.Active? && SawMissing in t.run.facts
    ensures forall c, f :: Records(c, f) ==> Knows(t, c, f)
  {
  }

  lemma MissingBefore(s: State, es: seq<Event>, i: nat)
    requires Init(s) && i < |es| && Legal(s, es[..i])
    requires Exec(s, es[..i]).run.Active? && SawMissing in Exec(s, es[..i]).run.facts
    ensures exists j :: SameRun(es, j, i) && es[j] == Lookup(false)
  {
    FactHasCause(s, es[..i], SawMissing);
    var j :| SameRun(es[..i], j, i) && Teaches(es[..i][j], SawMissing);
    SameRunIn(es, i, j);
  }

  lemma Cause(s: State, es: seq<Event>, i: nat, t: ConditionType, f: Fact) returns (j: nat)
    requires Init(s) && i < |es| && Legal(s, es[..i])
    requires Records(t, f) && Knows(Exec(s, es[..i]), t, f)
    ensures j < i && Teaches(es[j], f)
  {
    KnowledgeHasCause(s, es[..i], t, f);
    j :| 0 <= j < i && Teaches(es[..i][j], f);
  }

  /** When the finalizer may go, no cluster of the operator is listed; the OIDC configs and the
      providers left over number at most the lost writes plus the creates that failed after taking
      effect; and no role is left unless a generated prefix was lost. In a history without lost
      writes and doubtful creates nothing is left at all. */
  lemma CleanTeardown(s: State, es: seq<Event>, r: CallReply)
    requires Init(s) && Legal(s, es) && Enabled(Exec(s, es), RemoveFinalizer(r))
    ensures var t := Exec(s, es);
      && t.cloud.mine == {}
      && |t.cloud.configs| <= t.ledger.lost + t.ledger.configsDoubtful
      && |t.cloud.providers| <= t.ledger.lost + t.ledger.providersDoubtful
      && (Stable(t) ==> t.cloud.roles == {} && t.cloud.grants == {})
      && (t.ledger.lost == t.ledger.configsDoubtful == t.ledger.providersDoubtful == 0 ==>
            t.cloud.configs == {} && t.cloud.providers == {} && t.cloud.roles == {})
  {
    var t := Exec(s, es);
    TornDown(s, es, r);
    var l := t.ledger;
    LeftOver(t.cloud.configs, l.configIDs, l.configsMade, l.configsDoubtful, l.lost,
             t.obj.persisted.oidcConfigID, UnsavedConfig in t.run.unsaved);
    LeftOver(t.cloud.providers, l.providerARNs, l.providersMade, l.providersDoubtful, l.lost,
             t.obj.persisted.oidcProviderARN, UnsavedProvider in t.run.unsaved);
  }

  /** The invariant, where the finalizer may be removed. */
  lemma TornDown(s: State, es: seq<Event>, r: CallReply)
    requires Init(s) && Legal(s, es) && Enabled(Exec(s, es), RemoveFinalizer(r))
    ensures var t := Exec(s, es);
      var p, l := t.obj.persisted, t.ledger;
      && t.run.Active? && t.cloud.mine == {}
      && Accounted(t.cloud.configs, l.configIDs, l.configsMade, l.configsDoubtful, l.lost, p.oidcConfigID,
                   p.oidcConfigID, UnsavedConfig in t.run.unsaved) && p.oidcConfigID !in t.cloud.configs
      && Accounted(t.cloud.providers, l.providerARNs, l.providersMade, l.providersDoubtful, l.lost, p.oidcProviderARN,
                   p.oidcProviderARN, UnsavedProvider in t.run.unsaved) && p.oidcProviderARN !in t.cloud.providers
      && (Stable(t) ==> t.cloud.roles == {} && t.cloud.grants == {}) && (l.lost == 0 ==> Stable(t))
  {
    assert Unfold(0);
    LegalCloud(s, es);
    LegalIdentity(s, es);
  }

  lemma LeftOver(live: set<string>, ever: set<string>, made: nat, doubtful: nat, lost: nat, kept: string, unsaved: bool)
    requires Accounted(live, ever, made, doubtful, lost, kept, kept, unsaved) && kept !in live
    ensures |live| <= lost + doubtful
  {
    SubsetSmaller(live, ever - {kept});
  }

  // ---- Leak bound ----

  datatype Kind = ConfigMade | ConfigDoubtful | ProviderMade | ProviderDoubtful | Unpersisted | Crashed | Conflict

  predicate Is(k: Kind, e: Event) {
    match k
    case ConfigMade => e.ConfigCreate? && e.made.Made?
    case ConfigDoubtful => e.ConfigCreate? && e.made.Ambiguous?
    case ProviderMade => e.ProviderCreate? && e.made.Made?
    case ProviderDoubtful => e.ProviderCreate? && e.made.Ambiguous?
    case Unpersisted => e.Patch? && !Persists(e.outcome)
    case Crashed => e.Crash?
    case Conflict => e.Patch? && e.outcome.Swallowed?
  }

  function One(k: Kind, e: Event): nat {
    if Is(k, e) then 1 else 0
  }

  function Count(k: Kind, es: seq<Event>): nat {
    if es == [] then 0 else Count(k, es[..|es| - 1]) + One(k, es[|es| - 1])
  }

  lemma CreateCounts(l: Ledger, e: Event)
    requires IsCreate(e)
    ensures CreateLedger(l, e).lost == l.lost
    ensures CreateLedger(l, e).configsMade == l.configsMade + One(ConfigMade, e)
    ensures CreateLedger(l, e).configsDoubtful == l.configsDoubtful + One(ConfigDoubtful, e)
    ensures CreateLedger(l, e).providersMade == l.providersMade + One(ProviderMade, e)
    ensures CreateLedger(l, e).providersDoubtful == l.providersDoubtful + One(ProviderDoubtful, e)
  {
  }

  /** The counts of one step. */
  predicate Counted(l: Ledger, l': Ledger, e: Event) {
    && l'.lost == l.lost + One(Unpersisted, e) + One(Crashed, e)
    && l'.configsMade == l.configsMade + One(ConfigMade, e)
    && l'.configsDoubtful == l.configsDoubtful + One(ConfigDoubtful, e)
    && l'.providersMade == l.providersMade + One(ProviderMade, e)
    && l'.providersDoubtful == l.providersDoubtful + One(ProviderDoubtful, e)
  }

  lemma CreateCounted(l: Ledger, e: Event)
    requires IsCreate(e)
    ensures Counted(l, CreateLedger(l, e), e)
  {
    CreateCounts(l, e);
  }

  lemma CallCounted(l: Ledger, e: Event)
    requires IsCall(e)
    ensures Counted(l, CallLedger(l, e), e)
  {
  }

  lemma OtherCounted(s: State, e: Event)
    requires IsOther(e) && CanOccur(s, e)
    ensures Counted(s.ledger, Occur(s, e).ledger, e)
  {
  }

  lemma StepCounts(s: State, e: Event)
    requires Enabled(s, e)
    ensures Counted(s.ledger, Apply(s, e).ledger, e)
  {
    if IsCall(e) {
      CallCounted(s.ledger, e);
    } else if IsWrite(e) {
    } else if IsCreate(e) {
      CreateCounted(s.ledger, e);
    } else if e.Patch? {
    } else {
      OtherCounted(s, e);
    }
  }

  lemma {:induction false} LedgerCounts(s: State, es: seq<Event>)
    requires Init(s) && Legal(s, es)
    ensures Exec(s, es).ledger.lost == Count(Unpersisted, es) + Count(Crashed, es)
    ensures Exec(s, es).ledger.configsMade == Count(ConfigMade, es)
    ensures Exec(s, es).ledger.configsDoubtful == Count(ConfigDoubtful, es)
    ensures Exec(s, es).ledger.providersMade == Count(ProviderMade, es)
    ensures Exec(s, es).ledger.providersDoubtful == Count(ProviderDoubtful, es)
    decreases |es|
  {
    if es != [] {
      LedgerCounts(s, es[..|es| - 1]);
      StepCounts(Exec(s, es[..|es| - 1]), es[|es| - 1]);
    }
  }

  /** Over any history, successful creations of OIDC configs number at most one plus the status
      patches that did not persist (and crashes); likewise for providers. */
  lemma LeakBound(s: State, es: seq<Event>)
    requires Init(s) && Legal(s, es)
    ensures Count(ConfigMade, es) <= 1 + Count(Unpersisted, es) + Count(Crashed, es)
    ensures Count(ProviderMade, es) <= 1 + Count(Unpersisted, es) + Count(Crashed, es)
  {
    assert Unfold(0);
    LegalCloud(s, es);
    LedgerCounts(s, es);
  }

  // ---- Self-healing ----

  /** A patch against a snapshot that predates createCluster's writes, once applied, leaves the
      server with the newest values, whichever earlier patches of the reconcile were swallowed. */
  lemma SelfHealing(s: State, es: seq<Event>, snapshot: Status)
    requires Init(s) && Legal(s, es) && Enabled(Exec(s, es), Patch(snapshot, Applied))
    requires var o := Exec(s, es).run.start;
      snapshot.oidcConfigID == o.oidcConfigID && snapshot.oidcProviderARN == o.oidcProviderARN &&
      snapshot.rolesCreated == o.rolesCreated && snapshot.clusterID == o.clusterID
    ensures var t, m := Apply(Exec(s, es), Patch(snapshot, Applied)), Exec(s, es).run.mem;
      && t.obj.persisted.oidcConfigID == t.run.mem.oidcConfigID == m.oidcConfigID
      && t.obj.persisted.oidcProviderARN == t.run.mem.oidcProviderARN == m.oidcProviderARN
      && t.obj.persisted.rolesCreated == t.run.mem.rolesCreated == m.rolesCreated
      && t.obj.persisted.clusterID == m.clusterID
  {
    TracedWrites(s, es);
    Heals(Exec(s, es), snapshot);
  }

  lemma TracedWrites(s: State, es: seq<Event>)
    requires Init(s) && Legal(s, es)
    ensures MemoryAhead(Exec(s, es)) && WritesTracked(Exec(s, es))
  {
    assert Unfold(0);
    LegalMemory(s, es);
  }

  lemma Heals(t: State, snapshot: Status)
    requires MemoryAhead(t) && WritesTracked(t) && Enabled(t, Patch(snapshot, Applied))
    requires var o := t.run.start;
      snapshot.oidcConfigID == o.oidcConfigID && snapshot.oidcProviderARN == o.oidcProviderARN &&
      snapshot.rolesCreated == o.rolesCreated && snapshot.clusterID == o.clusterID
    ensures var t', m := Apply(t, Patch(snapshot, Applied)), t.run.mem;
      && t'.obj.persisted.oidcConfigID == t'.run.mem.oidcConfigID == m.oidcConfigID
      && t'.obj.persisted.oidcProviderARN == t'.run.mem.oidcProviderARN == m.oidcProviderARN
      && t'.obj.persisted.rolesCreated == t'.run.mem.rolesCreated == m.rolesCreated
      && t'.obj.persisted.clusterID == m.clusterID
  {
  }

  // ---- Single creation ----

  /** A cluster create is issued only after a lookup in the same reconcile found no cluster, while
      OCM holds none made by the operator, before ClusterCreated has persisted, and with the
      finalizer in place; so OCM never holds two, even when creates fail after taking effect. */
  lemma SingleCreation(s: State, es: seq<Event>, i: nat)
    requires Init(s) && Legal(s, es) && i < |es|
    ensures |Exec(s, es).cloud.mine| <= 1
    ensures es[i].ClusterCreate? ==>
      && (exists j :: SameRun(es, j, i) && es[j] == Lookup(false))
      && Legal(s, es[..i]) && ReadyToCreate(Exec(s, es[..i]))
  {
    assert Unfold(0);
    LegalCloud(s, es);
    if es[i].ClusterCreate? {
      LegalPrefix(s, es, i);
      CreateNeeds(s, es[..i], es[i]);
      MissingBefore(s, es, i);
    }
  }

  predicate ReadyToCreate(t: State) {
    t.cloud.mine == {} && !Has(t.obj.persisted, ClusterCreated) && t.obj.finalizer && !t.obj.gone
  }

  lemma CreateNeeds(s: State, es: seq<Event>, e: Event)
    requires Init(s) && Legal(s, es) && Enabled(Exec(s, es), e) && e.ClusterCreate?
    ensures var t := Exec(s, es); t.run.Active? && SawMissing in t.run.facts && ReadyToCreate(t)
  {
    assert Unfold(0);
    LegalMemory(s, es);
    LegalDeletion(s, es);
    LegalCloud(s, es);
    assert !Has(Exec(s, es).run.mem, ClusterCreated);
  }

  lemma FinalizerOnTrace(s: State, es: seq<Event>)
    requires Init(s) && Legal(s, es)
    ensures FinalizerHolds(Exec(s, es))
  {
    assert Unfold(0);
    LegalDeletion(s, es);
  }

  predicate Makes(e: Event) {
    IsCreate(e) || e.EnsureRole? || e.EnsurePolicy? || e.Attach?
  }

  lemma MakingNeeds(t: State, e: Event)
    requires FinalizerHolds(t) && Makes(e) && Enabled(t, e)
    ensures t.obj.finalizer && !t.obj.gone
  {
  }

  /** Whatever is created in OCM or AWS is created while the finalizer holds the object. */
  lemma FinalizerFirst(s: State, es: seq<Event>, e: Event)
    requires Init(s) && Legal(s, es) && Enabled(Exec(s, es), e) && Makes(e)
    ensures Exec(s, es).obj.finalizer && !Exec(s, es).obj.gone
  {
    FinalizerOnTrace(s, es);
    MakingNeeds(Exec(s, es), e);
  }

  // ---- Children and the delete call ----

  lemma ScanLearnt(s: State, es: seq<Event>, e: Event)
    requires Init(s) && Legal(s, es) && Enabled(Exec(s, es), e)
    requires var t := Apply(Exec(s, es), e); t.run.Active? && ScanClear in t.run.facts
    ensures var t, t' := Exec(s, es), Apply(Exec(s, es), e);
      || ScanOf(e, t'.run.start.clusterID)
      || (t.run.Active? && ScanClear in t.run.facts && !e.Start? && t'.run.start == t.run.start)
  {
    var t := Exec(s, es);
    assert Unfold(0);
    LegalMemory(s, es);
    LegalDeletion(s, es);
    FactLearnt(t, e, ScanClear);
    if t.run.Active? {
      StartKept(t, e);
    }
  }

  /** A full scan of the child kinds that found no child of this cluster. */
  predicate ScanOf(e: Event, id: string) {
    e.ScanChildren? && |e.kinds| == 3 && NoChild(id, e.kinds)
  }

  lemma {:induction false} ScanHasCause(s: State, es: seq<Event>)
    requires Init(s) && Legal(s, es) && Exec(s, es).run.Active? && ScanClear in Exec(s, es).run.facts
    ensures exists j :: SameRun(es, j, |es|) && ScanOf(es[j], Exec(s, es).run.start.clusterID)
    decreases |es|
  {
    var before, e := es[..|es| - 1], es[|es| - 1];
    ScanLearnt(s, before, e);
    var id := Exec(s, es).run.start.clusterID;
    if ScanOf(e, id) {
      assert SameRun(es, |es| - 1, |es|);
    } else {
      ScanHasCause(s, before);
      var j :| SameRun(before, j, |before|) && ScanOf(before[j], id);
      SameRunNext(es, j);
    }
  }

  lemma StartKept(s: State, e: Event)
    requires Enabled(s, e) && s.run.Active? && Apply(s, e).run.Active?
    ensures Apply(s, e).run.start == s.run.start
  {
    if IsCall(e) {
    } else if IsWrite(e) {
    } else if IsCreate(e) {
      CreateRunFrame(s.run, e);
    } else if e.Patch? {
    }
  }

  lemma DeleteNeeds(s: State, es: seq<Event>, e: Event)
    requires Init(s) && Legal(s, es) && Enabled(Exec(s, es), e) && e.ClusterDelete?
    ensures var t := Exec(s, es);
      && t.run.Active? && ScanClear in t.run.facts && e.id == t.run.start.clusterID
      && (!t.ledger.idLost ==> e.id in t.ledger.clusterIDs)
      && Has(t.run.mem, ClusterCreated) && !Has(t.obj.persisted, ClusterUninstalling)
  {
    assert Unfold(0);
    LegalMemory(s, es);
    LegalCloud(s, es);
    assert !Has(Exec(s, es).run.mem, ClusterUninstalling);
  }

  lemma ScannedBefore(s: State, past: seq<Event>, e: Event)
    requires Init(s) && Legal(s, past) && Enabled(Exec(s, past), e) && e.ClusterDelete?
    ensures exists j :: SameRun(past, j, |past|) && ScanOf(past[j], e.id)
    ensures !Exec(s, past).ledger.idLost ==> e.id in Exec(s, past).ledger.clusterIDs
  {
    DeleteNeeds(s, past, e);
    ScanHasCause(s, past);
  }

  lemma GuardedAt(s: State, es: seq<Event>, i: nat)
    requires Init(s) && i < |es| && Legal(s, es[..i]) && Enabled(Exec(s, es[..i]), es[i]) && es[i].ClusterDelete?
    ensures exists j :: SameRun(es, j, i) && ScanOf(es[j], es[i].id)
    ensures !Exec(s, es[..i]).ledger.idLost ==> es[i].id in Exec(s, es[..i]).ledger.clusterIDs
  {
    ScannedBefore(s, es[..i], es[i]);
    var j :| SameRun(es[..i], j, i) && ScanOf(es[..i][j], es[i].id);
    SameRunIn(es, i, j);
  }

  /** Every OCM delete follows, in the same reconcile, a scan of all three child kinds in which no
      child carries the deleted cluster's ID; without a lost ID patch, that ID is one the operator
      got from OCM. */
  lemma DeleteIsGuarded(s: State, es: seq<Event>, i: nat)
    requires Init(s) && Legal(s, es) && i < |es| && es[i].ClusterDelete?
    ensures exists j :: SameRun(es, j, i) && ScanOf(es[j], es[i].id)
    ensures Legal(s, es[..i])
    ensures !Exec(s, es[..i]).ledger.idLost ==> es[i].id in Exec(s, es[..i]).ledger.clusterIDs
  {
    LegalPrefix(s, es, i);
    GuardedAt(s, es, i);
  }
}
