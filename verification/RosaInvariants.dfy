/** Inductive invariants of the ROSA life cycle: first the predicates, in four groups, then what each
    class of events keeps of each group. */
module RosaInvariants {
  import opened Conditions
  import opened StatusPatch
  import opened Requests
  import opened RosaProtocol

  // ---- Memory against the persisted status ----

  predicate Agree(server: string, memory: string) {
    server != "" ==> memory == server
  }

  predicate Paired(st: Status) {
    st.version != "" <==> st.versionID != ""
  }

  predicate Ahead(p: Status, m: Status) {
    && Agree(p.oidcConfigID, m.oidcConfigID) && Agree(p.oidcProviderARN, m.oidcProviderARN)
    && Agree(p.version, m.version) && Agree(p.versionID, m.versionID) && Agree(p.rolesPrefix, m.rolesPrefix)
    && (p.rolesCreated ==> m.rolesCreated)
    && Paired(p) && Paired(m)
  }

  /** Within a reconcile, memory never falls behind what is persisted. */
  predicate MemoryAhead(s: State) {
    if s.run.Active? then Ahead(s.obj.persisted, s.run.mem) && Ahead(s.run.start, s.run.mem)
    else Paired(s.obj.persisted)
  }

  lemma PatchAhead(p: Status, snapshot: Status, m: Status)
    requires Ahead(p, m)
    requires snapshot.version == m.version <==> snapshot.versionID == m.versionID
    ensures Ahead(Merge(p, snapshot, m), m)
    ensures Ahead(Merge(p, snapshot, m), Decode(Merge(p, snapshot, m), m))
    ensures Ahead(p, Decode(p, m))
  {
  }

  /** Decoding an answer that memory is ahead of changes only conditions and the cluster ID. */
  lemma DecodeAhead(p: Status, m: Status)
    requires Ahead(p, m)
    ensures Decode(p, m) == m.(conditions := Decode(p, m).conditions, clusterID := Decode(p, m).clusterID)
  {
  }

  // ---- Before NewRequest is done ----

  /** Until then nothing has been created or learnt, and deletion may still be noticed. */
  predicate QuietAtFirst(s: State) {
    s.run.Active? && !Resolved(s.run) ==>
      && s.run.facts <= {FinalizerOn} && s.run.unsaved <= {UnsavedPrefix, UnsavedVersion} && s.run.requests == []
      && s.run.mem.oidcConfigID == s.obj.persisted.oidcConfigID
      && s.run.mem.oidcProviderARN == s.obj.persisted.oidcProviderARN
      && (s.obj.finalizer ==> FinalizerOn in s.run.facts)
  }

  // ---- What createCluster writes ----

  predicate OldOrNewest(p: Status, m: Status, o: Status) {
    && (p.oidcConfigID == o.oidcConfigID || p.oidcConfigID == m.oidcConfigID)
    && (p.oidcProviderARN == o.oidcProviderARN || p.oidcProviderARN == m.oidcProviderARN)
    && (p.rolesCreated == o.rolesCreated || p.rolesCreated == m.rolesCreated)
    && (p.clusterID == o.clusterID || p.clusterID == m.clusterID)
  }

  /** The fields createCluster writes hold, on the server, their first or their newest value. */
  predicate WritesTracked(s: State) {
    s.run.Active? ==>
      && OldOrNewest(s.obj.persisted, s.run.mem, s.run.start)
      && (CreateOk !in s.run.facts ==> s.obj.persisted.clusterID == s.run.mem.clusterID == s.run.start.clusterID)
      && (s.run.deletes ==> CreateOk !in s.run.facts)
  }

  lemma PatchTracked(p: Status, snapshot: Status, m: Status, o: Status)
    requires Ahead(p, m) && OldOrNewest(p, m, o)
    ensures OldOrNewest(Merge(p, snapshot, m), m, o)
    ensures OldOrNewest(Merge(p, snapshot, m), Decode(Merge(p, snapshot, m), m), o)
    ensures OldOrNewest(p, Decode(p, m), o)
  {
  }

  // ---- Conditions ----

  ghost predicate ConditionsAhead(s: State) {
    s.run.Active? ==> forall t :: OneShot(t) && Has(s.obj.persisted, t) ==> Has(s.run.mem, t)
  }

  lemma NoteKeepsHas(m: Status, c: Condition, t: ConditionType)
    requires c.ctype != Reconciling ==> c == RosaCondition(c.ctype, c.lastTransition)
    requires OneShot(t)
    ensures Has(m.(conditions := AddCondition(m.conditions, c)), t) <==> Has(m, t) || c.ctype == t
  {
    var r := AddCondition(m.conditions, c);
    AddSets(m.conditions, c, RosaCondition(t, 0));
    if c.ctype == t {
      var i :| 0 <= i < |r| && EqualCondition(c, r[i]);
      assert EqualCondition(RosaCondition(t, 0), r[i]);
    }
  }

  // ---- Deletion ----

  predicate NeverMarkedDeleted(s: State) {
    !Has(s.obj.persisted, ClusterDeleted) && (s.run.Active? ==> !Has(s.run.mem, ClusterDeleted))
  }

  predicate DeleteFact(f: Fact) {
    f == ScanClear || f == DeleteOk || f == RolesGone || f == ConfigGone || f == ProviderGone
  }

  /** Only delete reconciles, which run only on objects being deleted, learn that something is gone. */
  predicate FactsOnlyDeleting(s: State) {
    s.run.Active? ==>
      && (s.run.deletes ==> s.obj.deleting)
      && (forall f :: f in s.run.facts && DeleteFact(f) ==> s.run.deletes)
  }

  /** Teardown conditions are known only to objects being deleted and to delete reconciles. */
  ghost predicate TeardownOnlyDeleting(s: State) {
    forall t :: Teardown(t) ==>
      && (Has(s.obj.persisted, t) ==> s.obj.deleting)
      && (s.run.Active? && (Has(s.obj.persisted, t) || Has(s.run.mem, t)) ==> s.run.deletes)
  }

  /** The finalizer holds the object: what is being deleted and still there has it, a create
      reconcile that goes on has it, and a delete reconcile has seen it. */
  predicate FinalizerHolds(s: State) {
    && (s.obj.gone ==> s.obj.deleting && !s.obj.finalizer)
    && (s.obj.deleting && !s.obj.gone ==> s.obj.finalizer)
    && (s.run.Active? && !s.run.deletes && FinalizerOn in s.run.facts ==> s.obj.finalizer && !s.obj.gone)
    && (s.run.Active? && s.run.deletes ==> FinalizerOn in s.run.facts)
  }

  // ---- The cluster ----

  predicate OneCluster(s: State) {
    && |s.cloud.mine| <= 1
    && (s.run.Active? && SawMissing in s.run.facts ==> s.cloud.mine == {})
  }

  lemma SubsetSmaller<T>(a: set<T>, b: set<T>)
    requires a <= b
    ensures |a| <= |b|
  {
    if a != {} {
      var x :| x in a;
      SubsetSmaller(a - {x}, b - {x});
    }
  }

  /** Without a lost ID patch, ClusterCreated comes with the persisted ID of a cluster the operator made. */
  predicate OwnCluster(s: State) {
    var p := s.obj.persisted;
    && (p.clusterID != "" ==> p.clusterID in s.ledger.clusterIDs)
    && (!s.ledger.idLost && Has(p, ClusterCreated) ==> p.clusterID != "")
    && (s.run.Active? ==>
         var m := s.run.mem;
         && (m.clusterID != "" ==> m.clusterID in s.ledger.clusterIDs)
         && (CreateOk in s.run.facts ==> m.clusterID != "")
         && (CreateOk in s.run.facts && UnsavedCluster !in s.run.unsaved && !s.run.failed && !s.ledger.idLost
             ==> p.clusterID == m.clusterID)
         && (!s.ledger.idLost && !s.run.failed && Has(m, ClusterCreated) && UnsavedCluster !in s.run.unsaved
             ==> p.clusterID == m.clusterID != "")
         && (UnsavedCluster in s.run.unsaved ==> !Has(m, ClusterCreated)))
  }

  // ---- Accounting of what was created ----

  /** `live` of the `ever` created exist. Of the `made` ones, all but the one whose identity is
      persisted, or about to be, were lost to unpersisted patches and crashes. */
  predicate Accounted(live: set<string>, ever: set<string>, made: nat, doubtful: nat, lost: nat,
                      persisted: string, memory: string, unsaved: bool) {
    && live <= ever && |ever| <= made + doubtful && "" !in ever
    && (persisted != "" ==> persisted in ever) && (memory != "" ==> memory in ever)
    && (unsaved ==> memory != "")
    && made <= lost + if persisted != "" || unsaved then 1 else 0
  }

  predicate ConfigsAccounted(s: State) {
    var p := s.obj.persisted.oidcConfigID;
    Accounted(s.cloud.configs, s.ledger.configIDs, s.ledger.configsMade, s.ledger.configsDoubtful, s.ledger.lost, p,
              if s.run.Active? then s.run.mem.oidcConfigID else p,
              s.run.Active? && UnsavedConfig in s.run.unsaved)
  }

  predicate ProvidersAccounted(s: State) {
    var p := s.obj.persisted.oidcProviderARN;
    Accounted(s.cloud.providers, s.ledger.providerARNs, s.ledger.providersMade, s.ledger.providersDoubtful,
              s.ledger.lost, p,
              if s.run.Active? then s.run.mem.oidcProviderARN else p,
              s.run.Active? && UnsavedProvider in s.run.unsaved)
  }

  lemma AccountedPatch(live: set<string>, ever: set<string>, made: nat, doubtful: nat, lost: nat,
                       p: string, snapshot: string, m: string, unsaved: bool, o: PatchOutcome)
    requires Accounted(live, ever, made, doubtful, lost, p, m, unsaved) && Agree(p, m)
    ensures var p' := if Persists(o) then MergeField(p, snapshot, m) else p;
            Accounted(live, ever, made, doubtful, if Persists(o) then lost else lost + 1, p',
                      if o.Applied? then DecodeString(p', m) else m, unsaved && snapshot == m)
  {
  }

  lemma AccountedMake(live: set<string>, ever: set<string>, made: nat, doubtful: nat, lost: nat, id: string)
    requires Accounted(live, ever, made, doubtful, lost, "", "", false) && id != ""
    ensures Accounted(live + {id}, ever + {id}, made + 1, doubtful, lost, "", id, true)
    ensures Accounted(live + {id}, ever + {id}, made, doubtful + 1, lost, "", "", false)
  {
  }

  // ---- What teardown removed stays removed ----

  predicate Knows(s: State, t: ConditionType, f: Fact) {
    Has(s.obj.persisted, t) || (s.run.Active? && (Has(s.run.mem, t) || f in s.run.facts))
  }

  /** The condition that records a fact. */
  predicate Records(t: ConditionType, f: Fact) {
    || (t == OperatorRolesDeleted && f == RolesGone)
    || (t == OIDCProviderDeleted && f == ConfigGone)
    || (t == OIDCConfigDeleted && f == ProviderGone)
  }

  /** A create reconcile knows nothing of teardown. */
  lemma CreateKnowsNothing(s: State, t: ConditionType, f: Fact)
    requires FactsOnlyDeleting(s) && TeardownOnlyDeleting(s) && s.run.Active? && !s.run.deletes
    requires Records(t, f)
    ensures !Knows(s, t, f)
  {
  }

  /** In delete reconciles the identities in memory are the persisted ones, and nobody changes them. */
  predicate SameIdentities(s: State) {
    s.run.Active? && s.run.deletes ==>
      && s.run.mem.oidcConfigID == s.obj.persisted.oidcConfigID
      && s.run.mem.oidcProviderARN == s.obj.persisted.oidcProviderARN
  }

  /** The condition names are crossed: OIDCProviderDeleted records the deletion of the config,
      OIDCConfigDeleted that of the provider. Once known, both stay deleted. */
  predicate OIDCGone(s: State) {
    && (Knows(s, OIDCProviderDeleted, ConfigGone) ==> s.obj.persisted.oidcConfigID !in s.cloud.configs)
    && (Knows(s, OIDCConfigDeleted, ProviderGone) ==> s.obj.persisted.oidcProviderARN !in s.cloud.providers)
  }

  // ---- Prefix and roles ----

  /** Every role call of the history uses one prefix. */
  predicate Stable(s: State) {
    s.spec.prefix != "" || !s.ledger.prefixLost
  }

  function Canonical(s: State): string {
    if s.spec.prefix != "" then s.spec.prefix else s.obj.persisted.rolesPrefix
  }

  predicate FollowsSpec(s: State, p: string) {
    s.spec.prefix != "" && p != "" ==> p == s.spec.prefix
  }

  predicate PrefixPinned(s: State) {
    && FollowsSpec(s, s.obj.persisted.rolesPrefix)
    && (s.run.Active? ==>
         && FollowsSpec(s, s.run.mem.rolesPrefix) && FollowsSpec(s, s.run.prefix)
         && (s.run.prefix != "" ==> s.run.mem.rolesPrefix == s.run.prefix)
         && (s.run.prefix == "" ==> s.run.mem.rolesPrefix == s.obj.persisted.rolesPrefix)
         && (UnsavedPrefix in s.run.unsaved ==> s.run.prefix != "")
         && (s.run.prefix != "" && UnsavedPrefix !in s.run.unsaved && !s.run.failed && !s.ledger.prefixLost
             ==> s.obj.persisted.rolesPrefix == s.run.prefix))
  }

  /** Role calls mention the canonical prefix; roles exist only under mentioned prefixes. */
  predicate OnePrefix(s: State) {
    && (Stable(s) ==> forall x :: x in s.ledger.prefixes ==> x == Canonical(s) != "")
    && (forall r :: r in s.cloud.roles ==> r.prefix in s.ledger.prefixes)
  }

  /** The prefixes role calls may yet mention: the persisted one, and that of the request once its
      patch has been sent. */
  function Candidates(s: State): set<string> {
    (if s.obj.persisted.rolesPrefix != "" then {s.obj.persisted.rolesPrefix} else {}) +
    (if s.run.Active? && !s.run.failed && s.run.prefix != "" && UnsavedPrefix !in s.run.unsaved
     then {s.run.prefix} else {})
  }

  /** Each prefix mentioned is the persisted one or was lost to a swallowed patch. */
  predicate PrefixesBounded(s: State) {
    |s.ledger.prefixes + Candidates(s)| <= s.ledger.prefixesLost + if s.obj.persisted.rolesPrefix != "" then 1 else 0
  }

  /** Grants belong to roles, and the roles of the run that set rolesCreated keep their policies
      until a role is deleted. */
  predicate RolesComplete(s: State) {
    && (forall g :: g in s.cloud.grants ==> g.role in s.cloud.roles)
    && (s.ledger.rolesTouched ==> s.obj.deleting && (s.run.Active? ==> s.run.deletes))
    && (s.obj.persisted.rolesCreated || (s.run.Active? && s.run.mem.rolesCreated) ==>
          s.ledger.rolesTouched || s.ledger.listed <= s.cloud.grants)
  }

  predicate RolesGoneForGood(s: State) {
    Knows(s, OperatorRolesDeleted, RolesGone) && Stable(s) ==> s.cloud.roles == {}
  }

  // ---- Version ----

  predicate VersionPinned(s: State) {
    && (s.spec.version != "" && s.obj.persisted.version != "" ==> s.obj.persisted.version == s.spec.version)
    && (s.run.Active? ==>
         var p, m := s.obj.persisted, s.run.mem;
         && (s.spec.version != "" && s.run.version != "" ==> s.run.version == s.spec.version)
         && (s.spec.version != "" && m.version != "" ==> m.version == s.spec.version)
         && (s.run.version == "" ==> m.version == p.version == s.run.start.version && m.versionID == p.versionID)
         && (UnsavedVersion in s.run.unsaved ==> s.run.version != "" && m.versionID != "")
         && (s.run.version != "" && m.version != "" ==> m.version == s.run.version)
         && (s.run.version != "" && m.versionID != "" && UnsavedVersion !in s.run.unsaved
             && !s.run.failed && !s.ledger.versionLost
             ==> p.version == s.run.version && p.versionID == m.versionID))
  }

  predicate LossesCounted(s: State) {
    s.ledger.prefixLost || s.ledger.versionLost || s.ledger.idLost ==> s.ledger.lost > 0
  }

  // ---- The groups; a proof that mentions Unfold opens them ----

  ghost predicate MemoryInv(s: State) {
    forall k :: Unfold(k) ==> MemoryAhead(s) && QuietAtFirst(s) && WritesTracked(s) && ConditionsAhead(s)
  }

  ghost predicate DeletionInv(s: State) {
    forall k :: Unfold(k) ==>
      NeverMarkedDeleted(s) && FactsOnlyDeleting(s) && TeardownOnlyDeleting(s) && FinalizerHolds(s)
  }

  ghost predicate CloudInv(s: State) {
    forall k :: Unfold(k) ==>
      && OneCluster(s) && OwnCluster(s) && ConfigsAccounted(s) && ProvidersAccounted(s)
      && SameIdentities(s) && OIDCGone(s)
  }

  ghost predicate IdentityInv(s: State) {
    forall k :: Unfold(k) ==>
      && PrefixPinned(s) && OnePrefix(s) && RolesComplete(s) && RolesGoneForGood(s)
      && VersionPinned(s) && LossesCounted(s)
  }

  ghost predicate BoundInv(s: State) {
    forall k :: Unfold(k) ==> PrefixesBounded(s)
  }

  ghost predicate Inv(s: State) {
    MemoryInv(s) && DeletionInv(s) && CloudInv(s) && IdentityInv(s) && BoundInv(s)
  }

  lemma InitInv(s: State)
    requires Init(s)
    ensures Inv(s)
  {
  }

  // ---- Calls ----

  lemma CallFactsFrame(facts: set<Fact>, e: Event)
    requires IsCall(e)
    ensures CreateOk in CallFacts(facts, e) <==> CreateOk in facts
    ensures FinalizerOn in CallFacts(facts, e) <==> FinalizerOn in facts
    ensures SawMissing in CallFacts(facts, e) ==> (e.Lookup? && !e.listed) || SawMissing in facts
  {
  }

  lemma CallCloudFrame(c: Cloud, e: Event)
    requires IsCall(e)
    ensures CallCloud(c, e).mine == c.mine && CallCloud(c, e).foreign == c.foreign
    ensures CallCloud(c, e).configs <= c.configs && CallCloud(c, e).providers <= c.providers
  {
  }

  lemma CallMemory(s: State, e: Event)
    requires IsCall(e) && CanCall(s, e) && MemoryInv(s)
    ensures MemoryInv(ApplyCall(s, e))
  {
    assert Unfold(0);
    CallFactsFrame(s.run.facts, e);
  }

  lemma CallFactsOnlyDeleting(s: State, e: Event)
    requires IsCall(e) && CanCall(s, e) && FactsOnlyDeleting(s)
    ensures FactsOnlyDeleting(ApplyCall(s, e))
  {
  }

  lemma CallDeletion(s: State, e: Event)
    requires IsCall(e) && CanCall(s, e) && DeletionInv(s)
    ensures DeletionInv(ApplyCall(s, e))
  {
    assert Unfold(0);
    CallFactsOnlyDeleting(s, e);
    CallFactsFrame(s.run.facts, e);
  }

  lemma CallKnows(s: State, e: Event, t: ConditionType, f: Fact)
    requires IsCall(e) && s.run.Active?
    ensures Knows(ApplyCall(s, e), t, f) ==> Knows(s, t, f) || f in CallFacts(s.run.facts, e)
  {
  }

  lemma CallOIDCGone(s: State, e: Event)
    requires IsCall(e) && CanCall(s, e) && SameIdentities(s) && OIDCGone(s)
    ensures OIDCGone(ApplyCall(s, e))
  {
    CallKnows(s, e, OIDCProviderDeleted, ConfigGone);
    CallKnows(s, e, OIDCConfigDeleted, ProviderGone);
    CallCloudFrame(s.cloud, e);
  }

  lemma CallCluster(s: State, e: Event)
    requires IsCall(e) && CanCall(s, e) && OneCluster(s)
    ensures OneCluster(ApplyCall(s, e))
  {
    CallFactsFrame(s.run.facts, e);
    CallCloudFrame(s.cloud, e);
  }

  lemma CallOwnCluster(s: State, e: Event)
    requires IsCall(e) && CanCall(s, e) && OwnCluster(s)
    ensures OwnCluster(ApplyCall(s, e))
  {
    CallFactsFrame(s.run.facts, e);
  }

  lemma CallAccounted(s: State, e: Event)
    requires IsCall(e) && CanCall(s, e) && ConfigsAccounted(s) && ProvidersAccounted(s)
    ensures ConfigsAccounted(ApplyCall(s, e)) && ProvidersAccounted(ApplyCall(s, e))
  {
    CallCloudFrame(s.cloud, e);
  }

  lemma CallCloudKept(s: State, e: Event)
    requires IsCall(e) && CanCall(s, e) && CloudInv(s)
    ensures CloudInv(ApplyCall(s, e))
  {
    assert Unfold(0);
    CallCluster(s, e);
    CallOwnCluster(s, e);
    CallAccounted(s, e);
    CallOIDCGone(s, e);
  }

  lemma CallPrefix(s: State, e: Event)
    requires IsCall(e) && CanCall(s, e)
    ensures forall x :: x in PrefixesIn(e) ==> Prepared(s) && x == s.run.prefix
    ensures forall r :: r in CallCloud(s.cloud, e).roles ==> r in s.cloud.roles || r.prefix in PrefixesIn(e)
  {
  }

  lemma CallOnePrefix(s: State, e: Event)
    requires IsCall(e) && CanCall(s, e) && PrefixPinned(s) && OnePrefix(s)
    ensures OnePrefix(ApplyCall(s, e))
  {
    CallPrefix(s, e);
  }

  /** Candidates depend on little of the state. */
  lemma CandidatesFrame(s: State, t: State)
    requires t.obj.persisted == s.obj.persisted && s.run.Active? && t.run.Active?
    requires t.run.failed == s.run.failed && t.run.prefix == s.run.prefix
    requires UnsavedPrefix in t.run.unsaved <==> UnsavedPrefix in s.run.unsaved
    ensures Candidates(t) == Candidates(s)
  {
  }

  lemma CallPrefixesBounded(s: State, e: Event)
    requires IsCall(e) && CanCall(s, e) && PrefixesBounded(s)
    ensures PrefixesBounded(ApplyCall(s, e))
  {
    CallPrefix(s, e);
    CandidatesFrame(s, ApplyCall(s, e));
    Mentioned(s, PrefixesIn(e));
  }

  /** Mentioning the prefix of a prepared request adds nothing to what is counted. */
  lemma Mentioned(s: State, mentioned: set<string>)
    requires forall x :: x in mentioned ==> Prepared(s) && x == s.run.prefix
    ensures s.ledger.prefixes + mentioned + Candidates(s) == s.ledger.prefixes + Candidates(s)
  {
  }

  lemma CallRolesComplete(s: State, e: Event)
    requires IsCall(e) && CanCall(s, e) && FactsOnlyDeleting(s) && RolesComplete(s)
    ensures RolesComplete(ApplyCall(s, e))
  {
    if e.RoleDelete? {
    } else if e.Attach? {
    } else if e.EnsureRole? {
    }
  }

  lemma CallRolesGone(s: State, e: Event)
    requires IsCall(e) && CanCall(s, e) && PrefixPinned(s) && OnePrefix(s)
    requires TeardownOnlyDeleting(s) && FactsOnlyDeleting(s) && RolesGoneForGood(s)
    ensures RolesGoneForGood(ApplyCall(s, e))
  {
    CallKnows(s, e, OperatorRolesDeleted, RolesGone);
    if e.RolesDone? {
      var prefix := s.run.prefix;
      assert Stable(s) ==> forall r :: r in s.cloud.roles ==> r in RolesOf(s.cloud.roles, prefix);
    } else if e.EnsureRole? {
      CreateKnowsNothing(s, OperatorRolesDeleted, RolesGone);
    }
  }

  lemma CallIdentity(s: State, e: Event)
    requires IsCall(e) && CanCall(s, e) && DeletionInv(s) && IdentityInv(s)
    ensures IdentityInv(ApplyCall(s, e))
  {
    assert Unfold(0);
    CallOnePrefix(s, e);
    CallRolesComplete(s, e);
    CallRolesGone(s, e);
  }

  // ---- Writes to the object in memory ----

  lemma WriteMemoryAhead(s: State, e: Event)
    requires IsWrite(e) && CanWrite(s, e) && MemoryAhead(s)
    ensures MemoryAhead(ApplyWrite(s, e))
  {
  }

  /** A note is the one write that changes conditions. */
  lemma WriteHas(s: State, e: Event, t: ConditionType)
    requires IsWrite(e) && CanWrite(s, e) && OneShot(t)
    ensures Has(ApplyWrite(s, e).run.mem, t) <==> Has(s.run.mem, t) || (e.Note? && e.condition.ctype == t)
  {
    if e.Note? {
      NoteKeepsHas(s.run.mem, e.condition, t);
    }
  }

  lemma WriteConditions(s: State, e: Event)
    requires IsWrite(e) && CanWrite(s, e) && ConditionsAhead(s)
    ensures ConditionsAhead(ApplyWrite(s, e))
  {
    forall t | OneShot(t) ensures Has(s.run.mem, t) ==> Has(ApplyWrite(s, e).run.mem, t) {
      WriteHas(s, e, t);
    }
  }

  lemma WriteMemory(s: State, e: Event)
    requires IsWrite(e) && CanWrite(s, e) && MemoryInv(s)
    ensures MemoryInv(ApplyWrite(s, e))
  {
    assert Unfold(0);
    WriteMemoryAhead(s, e);
    WriteConditions(s, e);
  }

  lemma WriteTeardown(s: State, e: Event)
    requires IsWrite(e) && CanWrite(s, e) && FactsOnlyDeleting(s) && TeardownOnlyDeleting(s)
    ensures TeardownOnlyDeleting(ApplyWrite(s, e))
  {
    forall t | Teardown(t) ensures Has(ApplyWrite(s, e).run.mem, t) ==> s.run.deletes {
      WriteHas(s, e, t);
    }
  }

  lemma WriteDeletion(s: State, e: Event)
    requires IsWrite(e) && CanWrite(s, e) && DeletionInv(s)
    ensures DeletionInv(ApplyWrite(s, e))
  {
    assert Unfold(0);
    WriteHas(s, e, ClusterDeleted);
    WriteTeardown(s, e);
  }

  lemma WriteKnows(s: State, e: Event, t: ConditionType, f: Fact)
    requires IsWrite(e) && CanWrite(s, e) && Records(t, f)
    ensures Knows(ApplyWrite(s, e), t, f) ==> Knows(s, t, f)
  {
    WriteHas(s, e, t);
  }

  lemma WriteOwnCluster(s: State, e: Event)
    requires IsWrite(e) && CanWrite(s, e) && OwnCluster(s)
    ensures OwnCluster(ApplyWrite(s, e))
  {
    WriteHas(s, e, ClusterCreated);
  }

  lemma WriteCloud(s: State, e: Event)
    requires IsWrite(e) && CanWrite(s, e) && CloudInv(s)
    ensures CloudInv(ApplyWrite(s, e))
  {
    assert Unfold(0);
    WriteOwnCluster(s, e);
    WriteKnows(s, e, OIDCProviderDeleted, ConfigGone);
    WriteKnows(s, e, OIDCConfigDeleted, ProviderGone);
  }

  lemma WritePrefixPinned(s: State, e: Event)
    requires IsWrite(e) && CanWrite(s, e) && MemoryAhead(s) && PrefixPinned(s)
    ensures PrefixPinned(ApplyWrite(s, e))
  {
  }

  lemma WriteVersionPinned(s: State, e: Event)
    requires IsWrite(e) && CanWrite(s, e) && MemoryAhead(s) && VersionPinned(s)
    ensures VersionPinned(ApplyWrite(s, e))
  {
  }

  lemma WriteCandidates(s: State, e: Event)
    requires IsWrite(e) && CanWrite(s, e) && PrefixPinned(s)
    ensures Candidates(ApplyWrite(s, e)) == Candidates(s)
  {
    if e.PickPrefix? {
    } else {
      CandidatesFrame(s, ApplyWrite(s, e));
    }
  }

  lemma WritePrefixesBounded(s: State, e: Event)
    requires IsWrite(e) && CanWrite(s, e) && PrefixPinned(s) && PrefixesBounded(s)
    ensures PrefixesBounded(ApplyWrite(s, e))
  {
    WriteCandidates(s, e);
  }

  lemma WriteRolesComplete(s: State, e: Event)
    requires IsWrite(e) && CanWrite(s, e) && RolesComplete(s)
    ensures RolesComplete(ApplyWrite(s, e))
  {
  }

  lemma WriteIdentity(s: State, e: Event)
    requires IsWrite(e) && CanWrite(s, e) && MemoryInv(s) && IdentityInv(s)
    ensures IdentityInv(ApplyWrite(s, e))
  {
    assert Unfold(0);
    WritePrefixPinned(s, e);
    WriteVersionPinned(s, e);
    WriteRolesComplete(s, e);
    WriteKnows(s, e, OperatorRolesDeleted, RolesGone);
  }

  // ---- Creates ----

  /** What a create does to the request. */
  lemma CreateRunFrame(r: Run, e: Event)
    requires r.Active? && IsCreate(e)
    ensures var c := CreateRun(r, e);
      && c == r.(mem := c.mem, facts := c.facts, unsaved := c.unsaved)
      && c.mem == r.mem.(oidcConfigID := c.mem.oidcConfigID, oidcProviderARN := c.mem.oidcProviderARN,
          clusterID := c.mem.clusterID)
      && c.facts <= r.facts + {CreateOk} && (FinalizerOn in c.facts <==> FinalizerOn in r.facts)
      && (UnsavedPrefix in c.unsaved <==> UnsavedPrefix in r.unsaved)
      && (UnsavedVersion in c.unsaved <==> UnsavedVersion in r.unsaved)
  {
  }

  lemma CreateFrame(s: State, e: Event)
    requires s.run.Active? && IsCreate(e)
    ensures var l, l' := s.ledger, CreateLedger(s.ledger, e);
      && l'.prefixLost == l.prefixLost && l'.prefixesLost == l.prefixesLost
      && l'.versionLost == l.versionLost && l'.idLost == l.idLost
      && l'.lost == l.lost && l'.prefixes == l.prefixes && l'.listed == l.listed && l'.rolesTouched == l.rolesTouched
    ensures var c, c' := s.cloud, CreateCloud(s.cloud, e); c'.roles == c.roles && c'.grants == c.grants
  {
  }

  lemma CreateMemory(s: State, e: Event)
    requires IsCreate(e) && CanCreate(s, e) && MemoryInv(s)
    ensures MemoryInv(ApplyCreate(s, e))
  {
    assert Unfold(0);
  }

  lemma CreateDeletion(s: State, e: Event)
    requires IsCreate(e) && CanCreate(s, e) && DeletionInv(s)
    ensures DeletionInv(ApplyCreate(s, e))
  {
    assert Unfold(0);
    CreateRunFrame(s.run, e);
  }

  lemma CreateOneCluster(c: Cloud, e: Event)
    requires IsCreate(e) && |c.mine| <= 1 && (e.ClusterCreate? ==> c.mine == {})
    ensures |CreateCloud(c, e).mine| <= 1
    ensures !e.ClusterCreate? || e.made.Refused? ==> CreateCloud(c, e).mine == c.mine
  {
  }

  lemma CreateOwnCluster(s: State, e: Event)
    requires IsCreate(e) && CanCreate(s, e) && ConditionsAhead(s) && WritesTracked(s) && OwnCluster(s)
    ensures OwnCluster(ApplyCreate(s, e))
  {
    assert !Has(s.run.mem, ClusterCreated) && !Has(s.obj.persisted, ClusterCreated);
  }

  lemma CreateConfigs(s: State, e: Event)
    requires IsCreate(e) && CanCreate(s, e) && MemoryAhead(s) && ConfigsAccounted(s)
    ensures ConfigsAccounted(ApplyCreate(s, e))
  {
    var l := s.ledger;
    if e.ConfigCreate? && !e.made.Refused? {
      AccountedMake(s.cloud.configs, l.configIDs, l.configsMade, l.configsDoubtful, l.lost, e.made.id);
    }
  }

  lemma CreateProviders(s: State, e: Event)
    requires IsCreate(e) && CanCreate(s, e) && MemoryAhead(s) && ProvidersAccounted(s)
    ensures ProvidersAccounted(ApplyCreate(s, e))
  {
    var l := s.ledger;
    if e.ProviderCreate? && !e.made.Refused? {
      AccountedMake(s.cloud.providers, l.providerARNs, l.providersMade, l.providersDoubtful, l.lost, e.made.id);
    }
  }

  lemma CreateOIDCGone(s: State, e: Event)
    requires IsCreate(e) && CanCreate(s, e) && FactsOnlyDeleting(s) && TeardownOnlyDeleting(s)
    ensures OIDCGone(ApplyCreate(s, e)) && SameIdentities(ApplyCreate(s, e))
  {
    CreateKnowsNothing(s, OIDCProviderDeleted, ConfigGone);
    CreateKnowsNothing(s, OIDCConfigDeleted, ProviderGone);
    CreateRunFrame(s.run, e);
  }

  lemma CreateCluster(s: State, e: Event)
    requires IsCreate(e) && CanCreate(s, e) && OneCluster(s)
    ensures OneCluster(ApplyCreate(s, e))
  {
    CreateOneCluster(s.cloud, e);
  }

  lemma CreateCloudKept(s: State, e: Event)
    requires IsCreate(e) && CanCreate(s, e) && MemoryInv(s) && DeletionInv(s) && CloudInv(s)
    ensures CloudInv(ApplyCreate(s, e))
  {
    assert Unfold(0);
    CreateCluster(s, e);
    CreateOwnCluster(s, e);
    CreateConfigs(s, e);
    CreateProviders(s, e);
    CreateOIDCGone(s, e);
  }

  /** Prefix and version depend on little of the state. */
  lemma PinnedFrame(s: State, t: State)
    requires PrefixPinned(s) && VersionPinned(s) && t.spec == s.spec && t.obj == s.obj && s.run.Active? && t.run.Active?
    requires t.run == s.run.(mem := t.run.mem, facts := t.run.facts, unsaved := t.run.unsaved)
    requires t.run.mem.rolesPrefix == s.run.mem.rolesPrefix
    requires t.run.mem.version == s.run.mem.version && t.run.mem.versionID == s.run.mem.versionID
    requires UnsavedPrefix in t.run.unsaved <==> UnsavedPrefix in s.run.unsaved
    requires UnsavedVersion in t.run.unsaved <==> UnsavedVersion in s.run.unsaved
    requires t.ledger.prefixLost == s.ledger.prefixLost && t.ledger.versionLost == s.ledger.versionLost
    ensures PrefixPinned(t) && VersionPinned(t)
  {
  }

  lemma CreatePinned(s: State, e: Event)
    requires IsCreate(e) && s.run.Active? && PrefixPinned(s) && VersionPinned(s)
    ensures PrefixPinned(ApplyCreate(s, e)) && VersionPinned(ApplyCreate(s, e))
  {
    CreateRunFrame(s.run, e);
    CreateFrame(s, e);
    PinnedFrame(s, ApplyCreate(s, e));
  }

  lemma RolesFrame(s: State, t: State)
    requires OnePrefix(s) && RolesComplete(s) && RolesGoneForGood(s)
    requires t.spec == s.spec && t.obj == s.obj && s.run.Active? && t.run.Active?
    requires t.run.deletes == s.run.deletes && (RolesGone in t.run.facts ==> RolesGone in s.run.facts)
    requires t.run.mem.rolesCreated == s.run.mem.rolesCreated && t.run.mem.conditions == s.run.mem.conditions
    requires t.cloud.roles == s.cloud.roles && t.cloud.grants == s.cloud.grants
    requires t.ledger.prefixLost == s.ledger.prefixLost && t.ledger.prefixes == s.ledger.prefixes
    requires t.ledger.listed == s.ledger.listed && t.ledger.rolesTouched == s.ledger.rolesTouched
    ensures OnePrefix(t) && RolesComplete(t) && RolesGoneForGood(t)
  {
  }

  lemma CreateRoles(s: State, e: Event)
    requires IsCreate(e) && s.run.Active? && OnePrefix(s) && RolesComplete(s) && RolesGoneForGood(s)
    ensures OnePrefix(ApplyCreate(s, e)) && RolesComplete(ApplyCreate(s, e)) && RolesGoneForGood(ApplyCreate(s, e))
  {
    CreateRunFrame(s.run, e);
    CreateFrame(s, e);
    RolesFrame(s, ApplyCreate(s, e));
  }

  lemma CreatePrefixesBounded(s: State, e: Event)
    requires IsCreate(e) && CanCreate(s, e) && PrefixesBounded(s)
    ensures PrefixesBounded(ApplyCreate(s, e))
  {
    CreateRunFrame(s.run, e);
    CreateFrame(s, e);
    CandidatesFrame(s, ApplyCreate(s, e));
  }

  lemma CreateIdentity(s: State, e: Event)
    requires IsCreate(e) && CanCreate(s, e) && IdentityInv(s)
    ensures IdentityInv(ApplyCreate(s, e))
  {
    assert Unfold(0);
    CreatePinned(s, e);
    CreateRoles(s, e);
    CreateFrame(s, e);
  }

  // ---- Patches ----

  lemma PatchMemoryAhead(s: State, snapshot: Status, o: PatchOutcome)
    requires CanPatch(s, snapshot, o) && MemoryAhead(s)
    ensures MemoryAhead(ApplyPatch(s, snapshot, o))
  {
    PatchAhead(s.obj.persisted, snapshot, s.run.mem);
    DecodeAhead(Merge(s.obj.persisted, snapshot, s.run.mem), s.run.mem);
  }

  lemma PatchQuiet(s: State, snapshot: Status, o: PatchOutcome)
    requires CanPatch(s, snapshot, o) && MemoryAhead(s) && QuietAtFirst(s)
    ensures QuietAtFirst(ApplyPatch(s, snapshot, o))
  {
  }

  lemma PatchWrites(s: State, snapshot: Status, o: PatchOutcome)
    requires CanPatch(s, snapshot, o) && MemoryAhead(s) && QuietAtFirst(s) && WritesTracked(s)
    ensures WritesTracked(ApplyPatch(s, snapshot, o))
  {
    PatchTracked(s.obj.persisted, snapshot, s.run.mem, s.run.start);
  }

  lemma PatchMemory(s: State, snapshot: Status, o: PatchOutcome)
    requires CanPatch(s, snapshot, o) && MemoryInv(s)
    ensures MemoryInv(ApplyPatch(s, snapshot, o))
  {
    assert Unfold(0);
    PatchMemoryAhead(s, snapshot, o);
    PatchQuiet(s, snapshot, o);
    PatchWrites(s, snapshot, o);
  }

  lemma PatchDeletion(s: State, snapshot: Status, o: PatchOutcome)
    requires CanPatch(s, snapshot, o) && MemoryInv(s) && DeletionInv(s)
    ensures DeletionInv(ApplyPatch(s, snapshot, o))
  {
    assert Unfold(0);
  }

  lemma PatchOwnCluster(s: State, snapshot: Status, o: PatchOutcome)
    requires CanPatch(s, snapshot, o) && ConditionsAhead(s) && WritesTracked(s) && OwnCluster(s)
    ensures OwnCluster(ApplyPatch(s, snapshot, o))
  {
    assert Has(s.obj.persisted, ClusterCreated) ==> Has(s.run.mem, ClusterCreated);
  }

  /** A patch, as one field of the status sees it. */
  lemma PatchField(s: State, snapshot: Status, o: PatchOutcome)
    requires s.run.Active?
    ensures var t, p, m := ApplyPatch(s, snapshot, o), s.obj.persisted, s.run.mem;
      && t.run.Active? && t.cloud == s.cloud
      && t.ledger == s.ledger.(lost := t.ledger.lost, faults := t.ledger.faults, prefixLost := t.ledger.prefixLost,
                               prefixesLost := t.ledger.prefixesLost, versionLost := t.ledger.versionLost,
                                   idLost := t.ledger.idLost)
      && t.ledger.lost == (if Persists(o) then s.ledger.lost else s.ledger.lost + 1)
  {
  }

  lemma PatchConfigField(s: State, snapshot: Status, o: PatchOutcome)
    requires s.run.Active?
    ensures var t, p, m := ApplyPatch(s, snapshot, o), s.obj.persisted.oidcConfigID, s.run.mem.oidcConfigID;
      && t.obj.persisted.oidcConfigID == (if Persists(o) then MergeField(p, snapshot.oidcConfigID, m) else p)
      && t.run.mem.oidcConfigID == (if o.Applied? then DecodeString(t.obj.persisted.oidcConfigID, m) else m)
      && (UnsavedConfig in t.run.unsaved <==> UnsavedConfig in s.run.unsaved && snapshot.oidcConfigID == m)
  {
  }

  lemma PatchProviderField(s: State, snapshot: Status, o: PatchOutcome)
    requires s.run.Active?
    ensures var t, p, m := ApplyPatch(s, snapshot, o), s.obj.persisted.oidcProviderARN, s.run.mem.oidcProviderARN;
      && t.obj.persisted.oidcProviderARN == (if Persists(o) then MergeField(p, snapshot.oidcProviderARN, m) else p)
      && t.run.mem.oidcProviderARN == (if o.Applied? then DecodeString(t.obj.persisted.oidcProviderARN, m) else m)
      && (UnsavedProvider in t.run.unsaved <==> UnsavedProvider in s.run.unsaved && snapshot.oidcProviderARN == m)
  {
  }

  lemma PatchConfigs(s: State, snapshot: Status, o: PatchOutcome)
    requires CanPatch(s, snapshot, o) && MemoryAhead(s) && ConfigsAccounted(s)
    ensures ConfigsAccounted(ApplyPatch(s, snapshot, o))
  {
    var l := s.ledger;
    AccountedPatch(s.cloud.configs, l.configIDs, l.configsMade, l.configsDoubtful, l.lost, s.obj.persisted.oidcConfigID,
                   snapshot.oidcConfigID, s.run.mem.oidcConfigID, UnsavedConfig in s.run.unsaved, o);
    PatchField(s, snapshot, o);
    PatchConfigField(s, snapshot, o);
  }

  lemma PatchProviders(s: State, snapshot: Status, o: PatchOutcome)
    requires CanPatch(s, snapshot, o) && MemoryAhead(s) && ProvidersAccounted(s)
    ensures ProvidersAccounted(ApplyPatch(s, snapshot, o))
  {
    var l := s.ledger;
    AccountedPatch(s.cloud.providers, l.providerARNs, l.providersMade, l.providersDoubtful, l.lost,
                   s.obj.persisted.oidcProviderARN, snapshot.oidcProviderARN, s.run.mem.oidcProviderARN,
                   UnsavedProvider in s.run.unsaved, o);
    PatchField(s, snapshot, o);
    PatchProviderField(s, snapshot, o);
  }

  lemma PatchKnows(s: State, snapshot: Status, o: PatchOutcome, t: ConditionType, f: Fact)
    requires s.run.Active?
    ensures Knows(ApplyPatch(s, snapshot, o), t, f) ==> Knows(s, t, f)
  {
  }

  lemma PatchSameIdentities(s: State, snapshot: Status, o: PatchOutcome)
    requires CanPatch(s, snapshot, o) && MemoryAhead(s) && QuietAtFirst(s) && SameIdentities(s)
    ensures SameIdentities(ApplyPatch(s, snapshot, o))
    ensures s.run.deletes ==>
      && ApplyPatch(s, snapshot, o).obj.persisted.oidcConfigID == s.obj.persisted.oidcConfigID
      && ApplyPatch(s, snapshot, o).obj.persisted.oidcProviderARN == s.obj.persisted.oidcProviderARN
  {
  }

  lemma PatchOIDCGone(s: State, snapshot: Status, o: PatchOutcome)
    requires CanPatch(s, snapshot, o) && MemoryAhead(s) && QuietAtFirst(s) && SameIdentities(s)
    requires TeardownOnlyDeleting(s) && FactsOnlyDeleting(s) && OIDCGone(s)
    ensures OIDCGone(ApplyPatch(s, snapshot, o))
  {
    PatchKnows(s, snapshot, o, OIDCProviderDeleted, ConfigGone);
    PatchKnows(s, snapshot, o, OIDCConfigDeleted, ProviderGone);
    if s.run.deletes {
      PatchSameIdentities(s, snapshot, o);
    } else {
      CreateKnowsNothing(s, OIDCProviderDeleted, ConfigGone);
      CreateKnowsNothing(s, OIDCConfigDeleted, ProviderGone);
    }
  }

  lemma PatchCloud(s: State, snapshot: Status, o: PatchOutcome)
    requires CanPatch(s, snapshot, o) && MemoryInv(s) && DeletionInv(s) && CloudInv(s)
    ensures CloudInv(ApplyPatch(s, snapshot, o))
  {
    assert Unfold(0);
    PatchOwnCluster(s, snapshot, o);
    PatchConfigs(s, snapshot, o);
    PatchProviders(s, snapshot, o);
    PatchSameIdentities(s, snapshot, o);
    PatchOIDCGone(s, snapshot, o);
  }

  lemma PatchPrefixPinned(s: State, snapshot: Status, o: PatchOutcome)
    requires CanPatch(s, snapshot, o) && MemoryAhead(s) && PrefixPinned(s)
    ensures PrefixPinned(ApplyPatch(s, snapshot, o))
  {
  }

  lemma PatchOnePrefix(s: State, snapshot: Status, o: PatchOutcome)
    requires CanPatch(s, snapshot, o) && MemoryAhead(s) && PrefixPinned(s) && OnePrefix(s)
    ensures OnePrefix(ApplyPatch(s, snapshot, o))
  {
  }

  lemma AtMostOneMore(a: set<string>, b: set<string>, q: string)
    requires b <= a + {q}
    ensures |b| <= |a| + 1 && (q in a ==> |b| <= |a|)
  {
    SubsetSmaller(b, a + {q});
    if q in a {
      assert a + {q} == a;
    }
  }

  /** What a patch does to the prefix. */
  lemma PatchCandidates(s: State, snapshot: Status, o: PatchOutcome)
    requires CanPatch(s, snapshot, o) && MemoryAhead(s) && PrefixPinned(s)
    ensures var t := ApplyPatch(s, snapshot, o);
      var before, after := s.obj.persisted.rolesPrefix, t.obj.persisted.rolesPrefix;
      && Candidates(t) <= Candidates(s) + {s.run.prefix}
      && (before != "" ==> after == before)
      && (before == after && t.ledger.prefixesLost == s.ledger.prefixesLost ==> Candidates(t) <= Candidates(s))
  {
  }

  lemma PatchPrefixesBounded(s: State, snapshot: Status, o: PatchOutcome)
    requires CanPatch(s, snapshot, o) && MemoryAhead(s) && PrefixPinned(s) && PrefixesBounded(s)
    ensures PrefixesBounded(ApplyPatch(s, snapshot, o))
  {
    var t := ApplyPatch(s, snapshot, o);
    var a, b := s.ledger.prefixes + Candidates(s), t.ledger.prefixes + Candidates(t);
    PatchCandidates(s, snapshot, o);
    AtMostOneMore(a, b, s.run.prefix);
    if b <= a {
      SubsetSmaller(b, a);
    }
  }

  lemma PatchRoles(s: State, snapshot: Status, o: PatchOutcome)
    requires CanPatch(s, snapshot, o) && MemoryAhead(s) && RolesComplete(s) && RolesGoneForGood(s)
    ensures RolesComplete(ApplyPatch(s, snapshot, o)) && RolesGoneForGood(ApplyPatch(s, snapshot, o))
  {
    PatchKnows(s, snapshot, o, OperatorRolesDeleted, RolesGone);
  }

  lemma PatchVersionPinned(s: State, snapshot: Status, o: PatchOutcome)
    requires CanPatch(s, snapshot, o) && MemoryAhead(s) && VersionPinned(s)
    ensures VersionPinned(ApplyPatch(s, snapshot, o))
  {
  }

  lemma PatchIdentity(s: State, snapshot: Status, o: PatchOutcome)
    requires CanPatch(s, snapshot, o) && MemoryInv(s) && IdentityInv(s)
    ensures IdentityInv(ApplyPatch(s, snapshot, o))
  {
    assert Unfold(0);
    PatchPrefixPinned(s, snapshot, o);
    PatchOnePrefix(s, snapshot, o);
    PatchRoles(s, snapshot, o);
    PatchVersionPinned(s, snapshot, o);
  }

  // ---- Everything else ----

  lemma OtherMemoryAhead(s: State, e: Event)
    requires IsOther(e) && CanOccur(s, e) && MemoryAhead(s)
    ensures MemoryAhead(Occur(s, e))
  {
    if e.AddFinalizer? {
      PatchAhead(s.obj.persisted, s.run.mem, s.run.mem);
      DecodeAhead(s.obj.persisted, s.run.mem);
    }
  }

  lemma OtherWrites(s: State, e: Event)
    requires IsOther(e) && CanOccur(s, e) && MemoryAhead(s) && WritesTracked(s)
    ensures WritesTracked(Occur(s, e))
  {
    if e.AddFinalizer? {
      PatchTracked(s.obj.persisted, s.run.mem, s.run.mem, s.run.start);
    }
  }

  lemma OtherQuiet(s: State, e: Event)
    requires IsOther(e) && CanOccur(s, e) && MemoryAhead(s) && QuietAtFirst(s)
    ensures QuietAtFirst(Occur(s, e))
  {
    if e.AddFinalizer? {
      DecodeAhead(s.obj.persisted, s.run.mem);
    }
  }

  lemma OtherMemory(s: State, e: Event)
    requires IsOther(e) && CanOccur(s, e) && MemoryInv(s)
    ensures MemoryInv(Occur(s, e))
  {
    assert Unfold(0);
    OtherMemoryAhead(s, e);
    OtherWrites(s, e);
    OtherQuiet(s, e);
  }

  lemma OtherDeletion(s: State, e: Event)
    requires IsOther(e) && CanOccur(s, e) && DeletionInv(s)
    ensures DeletionInv(Occur(s, e))
  {
    assert Unfold(0);
  }

  lemma OtherKnows(s: State, e: Event, t: ConditionType, f: Fact)
    requires IsOther(e) && CanOccur(s, e) && Records(t, f)
    ensures Knows(Occur(s, e), t, f) ==> Knows(s, t, f)
  {
  }

  lemma OtherOwn(s: State, e: Event)
    requires IsOther(e) && CanOccur(s, e) && MemoryAhead(s) && ConditionsAhead(s) && WritesTracked(s)
    requires OneCluster(s) && OwnCluster(s)
    ensures OneCluster(Occur(s, e)) && OwnCluster(Occur(s, e))
  {
    if e.Drift? {
      SubsetSmaller(e.mine, s.cloud.mine);
    } else if e.AddFinalizer? {
      DecodeAhead(s.obj.persisted, s.run.mem);
    }
  }

  lemma OtherAccounted(s: State, e: Event)
    requires IsOther(e) && CanOccur(s, e) && MemoryAhead(s) && ConfigsAccounted(s) && ProvidersAccounted(s)
    ensures ConfigsAccounted(Occur(s, e)) && ProvidersAccounted(Occur(s, e))
  {
    if e.AddFinalizer? {
      DecodeAhead(s.obj.persisted, s.run.mem);
    }
  }

  lemma OtherCloud(s: State, e: Event)
    requires IsOther(e) && CanOccur(s, e) && MemoryInv(s) && DeletionInv(s) && CloudInv(s)
    ensures CloudInv(Occur(s, e))
  {
    assert Unfold(0);
    OtherOwn(s, e);
    OtherAccounted(s, e);
    OtherKnows(s, e, OIDCProviderDeleted, ConfigGone);
    OtherKnows(s, e, OIDCConfigDeleted, ProviderGone);
  }

  lemma OtherPrefix(s: State, e: Event)
    requires IsOther(e) && CanOccur(s, e) && MemoryAhead(s) && PrefixPinned(s) && OnePrefix(s)
    ensures PrefixPinned(Occur(s, e)) && OnePrefix(Occur(s, e))
  {
    if e.AddFinalizer? {
      DecodeAhead(s.obj.persisted, s.run.mem);
    }
  }

  lemma OtherPrefixesBounded(s: State, e: Event)
    requires IsOther(e) && CanOccur(s, e) && PrefixesBounded(s)
    ensures PrefixesBounded(Occur(s, e))
  {
    var t := Occur(s, e);
    assert Candidates(t) <= Candidates(s);
    SubsetSmaller(t.ledger.prefixes + Candidates(t), s.ledger.prefixes + Candidates(s));
  }

  lemma OtherRoles(s: State, e: Event)
    requires IsOther(e) && CanOccur(s, e) && MemoryAhead(s) && RolesComplete(s) && RolesGoneForGood(s)
    ensures RolesComplete(Occur(s, e)) && RolesGoneForGood(Occur(s, e))
  {
    OtherKnows(s, e, OperatorRolesDeleted, RolesGone);
    if e.AddFinalizer? {
      DecodeAhead(s.obj.persisted, s.run.mem);
    }
  }

  lemma OtherVersion(s: State, e: Event)
    requires IsOther(e) && CanOccur(s, e) && MemoryAhead(s) && VersionPinned(s)
    ensures VersionPinned(Occur(s, e))
  {
    if e.AddFinalizer? {
      DecodeAhead(s.obj.persisted, s.run.mem);
    }
  }

  lemma OtherIdentity(s: State, e: Event)
    requires IsOther(e) && CanOccur(s, e) && MemoryInv(s) && IdentityInv(s)
    ensures IdentityInv(Occur(s, e))
  {
    assert Unfold(0);
    OtherPrefix(s, e);
    OtherRoles(s, e);
    OtherVersion(s, e);
  }

  // ---- Every event, every legal trace ----

  lemma StepMemory(s: State, e: Event)
    requires Enabled(s, e) && MemoryInv(s)
    ensures MemoryInv(Apply(s, e))
  {
    if IsCall(e) {
      CallMemory(s, e);
    } else if IsWrite(e) {
      WriteMemory(s, e);
    } else if IsCreate(e) {
      CreateMemory(s, e);
    } else if e.Patch? {
      PatchMemory(s, e.snapshot, e.outcome);
    } else {
      OtherMemory(s, e);
    }
  }

  lemma StepDeletion(s: State, e: Event)
    requires Enabled(s, e) && MemoryInv(s) && DeletionInv(s)
    ensures DeletionInv(Apply(s, e))
  {
    if IsCall(e) {
      CallDeletion(s, e);
    } else if IsWrite(e) {
      WriteDeletion(s, e);
    } else if IsCreate(e) {
      CreateDeletion(s, e);
    } else if e.Patch? {
      PatchDeletion(s, e.snapshot, e.outcome);
    } else {
      OtherDeletion(s, e);
    }
  }

  lemma StepCloud(s: State, e: Event)
    requires Enabled(s, e) && MemoryInv(s) && DeletionInv(s) && CloudInv(s)
    ensures CloudInv(Apply(s, e))
  {
    if IsCall(e) {
      CallCloudKept(s, e);
    } else if IsWrite(e) {
      WriteCloud(s, e);
    } else if IsCreate(e) {
      CreateCloudKept(s, e);
    } else if e.Patch? {
      PatchCloud(s, e.snapshot, e.outcome);
    } else {
      OtherCloud(s, e);
    }
  }

  lemma StepIdentity(s: State, e: Event)
    requires Enabled(s, e) && MemoryInv(s) && DeletionInv(s) && IdentityInv(s)
    ensures IdentityInv(Apply(s, e))
  {
    if IsCall(e) {
      CallIdentity(s, e);
    } else if IsWrite(e) {
      WriteIdentity(s, e);
    } else if IsCreate(e) {
      CreateIdentity(s, e);
    } else if e.Patch? {
      PatchIdentity(s, e.snapshot, e.outcome);
    } else {
      OtherIdentity(s, e);
    }
  }

  lemma StepBound(s: State, e: Event)
    requires Enabled(s, e) && MemoryInv(s) && IdentityInv(s) && BoundInv(s)
    ensures BoundInv(Apply(s, e))
  {
    assert Unfold(0);
    if IsCall(e) {
      CallPrefixesBounded(s, e);
    } else if IsWrite(e) {
      WritePrefixesBounded(s, e);
    } else if IsCreate(e) {
      CreatePrefixesBounded(s, e);
    } else if e.Patch? {
      PatchPrefixesBounded(s, e.snapshot, e.outcome);
    } else {
      OtherPrefixesBounded(s, e);
    }
  }

  /** Only a call teaches a new fact; conditions and patches spread what is known. */
  lemma KnowsGrows(s: State, e: Event, t: ConditionType, f: Fact)
    requires Records(t, f) && Enabled(s, e)
    ensures Knows(Apply(s, e), t, f) ==> Knows(s, t, f) || (IsCall(e) && f in CallFacts(s.run.facts, e))
  {
    if IsCall(e) {
      CallKnows(s, e, t, f);
    } else if IsWrite(e) {
      WriteKnows(s, e, t, f);
    } else if IsCreate(e) {
      CreateRunFrame(s.run, e);
    } else if e.Patch? {
      PatchKnows(s, e.snapshot, e.outcome, t, f);
    } else {
      OtherKnows(s, e, t, f);
    }
  }

  /** Every state of every history satisfies the invariant. */
  lemma {:induction false} LegalInv(s: State, es: seq<Event>)
    requires Init(s) && Legal(s, es)
    ensures Inv(Exec(s, es))
    decreases |es|
  {
    if es == [] {
      InitInv(s);
    } else {
      var before, e := es[..|es| - 1], es[|es| - 1];
      var t := Exec(s, before);
      LegalInv(s, before);
      StepMemory(t, e);
      StepDeletion(t, e);
      StepCloud(t, e);
      StepIdentity(t, e);
      StepBound(t, e);
    }
  }

  lemma LegalMemory(s: State, es: seq<Event>)
    requires Init(s) && Legal(s, es)
    ensures MemoryInv(Exec(s, es))
  {
    LegalInv(s, es);
  }

  lemma LegalDeletion(s: State, es: seq<Event>)
    requires Init(s) && Legal(s, es)
    ensures DeletionInv(Exec(s, es))
  {
    LegalInv(s, es);
  }

  lemma LegalCloud(s: State, es: seq<Event>)
    requires Init(s) && Legal(s, es)
    ensures CloudInv(Exec(s, es))
  {
    LegalInv(s, es);
  }

  lemma LegalBound(s: State, es: seq<Event>)
    requires Init(s) && Legal(s, es)
    ensures BoundInv(Exec(s, es))
  {
    LegalInv(s, es);
  }

  lemma LegalIdentity(s: State, es: seq<Event>)
    requires Init(s) && Legal(s, es)
    ensures IdentityInv(Exec(s, es))
  {
    LegalInv(s, es);
  }
}
