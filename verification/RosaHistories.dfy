/** Further laws of ROSA histories: what persists, what is pinned, and where deletion gets stuck. */
module RosaHistories {
  import opened Conditions
  import opened StatusPatch
  import opened Requests
  import opened RosaProtocol
  import opened RosaInvariants
  import opened OperatorRoles
  import opened RosaTheorems

  // ---- Persisted conditions never disappear ----

  lemma ConditionStep(s: State, e: Event, t: ConditionType)
    requires ConditionsAhead(s) && Enabled(s, e) && OneShot(t) && Has(s.obj.persisted, t)
    ensures Has(Apply(s, e).obj.persisted, t)
  {
    if IsCall(e) {
    } else if IsWrite(e) {
    } else if IsCreate(e) {
    } else if e.Patch? {
    }
  }

  lemma AheadOnTrace(s: State, es: seq<Event>)
    requires Init(s) && Legal(s, es)
    ensures ConditionsAhead(Exec(s, es))
  {
    assert Unfold(0);
    LegalMemory(s, es);
  }

  /** Whatever fails, a one-shot condition that has persisted stays persisted. */
  lemma {:induction false} ConditionsStay(s: State, es: seq<Event>, n: nat, t: ConditionType)
    requires Init(s) && Legal(s, es) && n <= |es| && OneShot(t)
    requires Legal(s, es[..n]) && Has(Exec(s, es[..n]).obj.persisted, t)
    ensures Has(Exec(s, es).obj.persisted, t)
    decreases |es|
  {
    if n == |es| {
      assert es[..n] == es;
    } else {
      var before := es[..|es| - 1];
      assert before[..n] == es[..n];
      ConditionsStay(s, before, n, t);
      AheadOnTrace(s, before);
      ConditionStep(Exec(s, before), es[|es| - 1], t);
    }
  }

  // ---- One prefix ----

  lemma PrefixStep(s: State, e: Event)
    requires Enabled(s, e)
    ensures Apply(s, e).ledger.prefixes == s.ledger.prefixes + PrefixesIn(e)
  {
    if IsCall(e) {
    } else if IsWrite(e) {
    } else if IsCreate(e) {
    } else if e.Patch? {
    }
  }

  lemma {:induction false} PrefixesRecorded(s: State, es: seq<Event>, i: nat)
    requires Legal(s, es) && i < |es|
    ensures PrefixesIn(es[i]) <= Exec(s, es).ledger.prefixes
    decreases |es|
  {
    var before := es[..|es| - 1];
    PrefixStep(Exec(s, before), es[|es| - 1]);
    if i < |before| {
      PrefixesRecorded(s, before, i);
      assert before[i] == es[i];
    }
  }

  lemma PrefixOnTrace(s: State, es: seq<Event>)
    requires Init(s) && Legal(s, es)
    ensures OnePrefix(Exec(s, es))
  {
    assert Unfold(0);
    LegalIdentity(s, es);
  }

  /** Although prefixes are generated at random, all role calls of a history, creating or
      destroying, use one prefix, if the spec gives one or no patch of a prefix was swallowed. */
  lemma OnePrefixPerHistory(s: State, es: seq<Event>, i: nat, j: nat)
    requires Init(s) && Legal(s, es) && i < |es| && j < |es| && Stable(Exec(s, es))
    ensures forall x, y :: x in PrefixesIn(es[i]) && y in PrefixesIn(es[j]) ==> x == y
  {
    PrefixOnTrace(s, es);
    PrefixesRecorded(s, es, i);
    PrefixesRecorded(s, es, j);
  }

  // ---- How many prefixes ----

  /** The role-name prefixes a history mentions. */
  function PrefixesUsed(es: seq<Event>): set<string> {
    if es == [] then {} else PrefixesUsed(es[..|es| - 1]) + PrefixesIn(es[|es| - 1])
  }

  lemma LostStep(s: State, e: Event)
    requires Enabled(s, e)
    ensures Apply(s, e).ledger.prefixesLost <= s.ledger.prefixesLost + One(Conflict, e)
  {
    if IsCall(e) {
    } else if IsWrite(e) {
    } else if IsCreate(e) {
      CreateFrame(s, e);
    } else if e.Patch? {
    }
  }

  lemma {:induction false} PrefixesCounted(s: State, es: seq<Event>)
    requires Init(s) && Legal(s, es)
    ensures Exec(s, es).ledger.prefixes == PrefixesUsed(es)
    ensures Exec(s, es).ledger.prefixesLost <= Count(Conflict, es)
    decreases |es|
  {
    if es != [] {
      PrefixesCounted(s, es[..|es| - 1]);
      PrefixStep(Exec(s, es[..|es| - 1]), es[|es| - 1]);
      LostStep(Exec(s, es[..|es| - 1]), es[|es| - 1]);
    }
  }

  lemma BoundOnTrace(s: State, es: seq<Event>)
    requires Init(s) && Legal(s, es)
    ensures PrefixesBounded(Exec(s, es))
  {
    assert Unfold(0);
    LegalBound(s, es);
  }

  /** Over any history, the prefixes of all role calls number at most one plus the swallowed patches. */
  lemma PrefixBound(s: State, es: seq<Event>)
    requires Init(s) && Legal(s, es)
    ensures |PrefixesUsed(es)| <= 1 + Exec(s, es).ledger.prefixesLost <= 1 + Count(Conflict, es)
  {
    PrefixesCounted(s, es);
    BoundOnTrace(s, es);
    var t := Exec(s, es);
    SubsetSmaller(t.ledger.prefixes, t.ledger.prefixes + Candidates(t));
  }

  // ---- One version ----

  lemma VersionStep(s: State, e: Event)
    requires MemoryAhead(s) && Enabled(s, e) && s.obj.persisted.version != ""
    ensures Apply(s, e).obj.persisted.version == s.obj.persisted.version
    ensures Apply(s, e).obj.persisted.versionID == s.obj.persisted.versionID
  {
    if IsCall(e) {
    } else if IsWrite(e) {
    } else if IsCreate(e) {
    } else if e.Patch? {
    }
  }

  lemma VersionOnTrace(s: State, es: seq<Event>)
    requires Init(s) && Legal(s, es)
    ensures MemoryAhead(Exec(s, es)) && VersionPinned(Exec(s, es))
  {
    assert Unfold(0);
    LegalMemory(s, es);
    LegalIdentity(s, es);
  }

  lemma {:induction false} VersionStays(s: State, es: seq<Event>, n: nat)
    requires Init(s) && Legal(s, es) && n <= |es|
    requires Legal(s, es[..n]) && Exec(s, es[..n]).obj.persisted.version != ""
    ensures Exec(s, es).obj.persisted.version == Exec(s, es[..n]).obj.persisted.version
    ensures Exec(s, es).obj.persisted.versionID == Exec(s, es[..n]).obj.persisted.versionID
    decreases |es|
  {
    if n == |es| {
      assert es[..n] == es;
    } else {
      var before := es[..|es| - 1];
      assert before[..n] == es[..n];
      VersionStays(s, before, n);
      VersionOnTrace(s, before);
      VersionStep(Exec(s, before), es[|es| - 1]);
    }
  }

  lemma StartVersion(s: State)
    requires MemoryAhead(s) && VersionPinned(s) && s.run.Active? && s.run.version == ""
    ensures s.run.start.version == s.obj.persisted.version
  {
  }

  /** Once a version has persisted, every later reconcile works with it, whatever OCM's default
      has become. */
  lemma VersionPinnedForGood(s: State, es: seq<Event>, n: nat, j: nat)
    requires Init(s) && Legal(s, es) && n <= j < |es| && es[j].PickVersion?
    requires Legal(s, es[..n]) && Exec(s, es[..n]).obj.persisted.version != ""
    ensures es[j].version == Exec(s, es[..n]).obj.persisted.version
  {
    LegalPrefix(s, es, j);
    var past := es[..j];
    assert past[..n] == es[..n];
    VersionStays(s, past, n);
    VersionOnTrace(s, past);
    StartVersion(Exec(s, past));
  }

  lemma LossStep(s: State, e: Event)
    requires Enabled(s, e) && s.ledger.versionLost
    ensures Apply(s, e).ledger.versionLost
  {
    if IsCall(e) {
    } else if IsWrite(e) {
    } else if IsCreate(e) {
    } else if e.Patch? {
    }
  }

  lemma {:induction false} LossStays(s: State, es: seq<Event>, n: nat)
    requires Legal(s, es) && n <= |es| && Legal(s, es[..n]) && Exec(s, es[..n]).ledger.versionLost
    ensures Exec(s, es).ledger.versionLost
    decreases |es|
  {
    if n == |es| {
      assert es[..n] == es;
    } else {
      var before := es[..|es| - 1];
      assert before[..n] == es[..n];
      LossStays(s, before, n);
      LossStep(Exec(s, before), es[|es| - 1]);
    }
  }

  lemma CreateVersion(s: State, es: seq<Event>, i: nat)
    requires Init(s) && Legal(s, es) && i < |es| && es[i].ClusterCreate? && !Exec(s, es).ledger.versionLost
    ensures Legal(s, es[..i])
    ensures es[i].versionID == Exec(s, es[..i]).obj.persisted.versionID != ""
    ensures Exec(s, es[..i]).obj.persisted.version != ""
  {
    LegalPrefix(s, es, i);
    if Exec(s, es[..i]).ledger.versionLost {
      LossStays(s, es, i);
    }
    VersionOnTrace(s, es[..i]);
  }

  /** Unless a version patch was swallowed, all cluster creates of a history ask for one version. */
  lemma OneVersionPerHistory(s: State, es: seq<Event>, i: nat, j: nat)
    requires Init(s) && Legal(s, es) && i < j < |es| && es[i].ClusterCreate? && es[j].ClusterCreate?
    requires !Exec(s, es).ledger.versionLost
    ensures es[i].versionID == es[j].versionID
  {
    CreateVersion(s, es, i);
    CreateVersion(s, es, j);
    assert es[..j][..i] == es[..i];
    VersionStays(s, es[..j], i);
  }

  // ---- Role completeness ----

  predicate RolesKnown(s: State) {
    s.obj.persisted.rolesCreated || (s.run.Active? && s.run.mem.rolesCreated)
  }

  /** A run found a role with its policy for each credential request OCM had listed to it. */
  predicate Lists(spec: Spec, e: Event, grants: set<Grant>) {
    && e.RolesReady? && e.requests != []
    && grants == GrantsOf(spec.managedPolicies, e.prefix, e.requests, e.policies)
    && (spec.managedPolicies ==> forall r :: r in e.requests ==> PolicyFor(true, e.prefix, r, e.policies) != "")
  }

  lemma RolesWritten(s: State, e: Event)
    requires IsWrite(e) && CanWrite(s, e)
    ensures RolesKnown(ApplyWrite(s, e)) ==>
      || Lists(s.spec, e, ApplyWrite(s, e).ledger.listed)
      || (RolesKnown(s) && ApplyWrite(s, e).ledger.listed == s.ledger.listed)
  {
  }

  lemma RolesPatched(s: State, snapshot: Status, o: PatchOutcome)
    requires s.run.Active? && RolesKnown(ApplyPatch(s, snapshot, o))
    ensures RolesKnown(s)
  {
  }

  lemma RolesStep(s: State, e: Event)
    requires Enabled(s, e)
    ensures RolesKnown(Apply(s, e)) ==>
      || Lists(s.spec, e, Apply(s, e).ledger.listed)
      || (RolesKnown(s) && Apply(s, e).ledger.listed == s.ledger.listed)
  {
    if IsCall(e) {
    } else if IsWrite(e) {
      RolesWritten(s, e);
    } else if IsCreate(e) {
      CreateRunFrame(s.run, e);
    } else if e.Patch? && RolesKnown(Apply(s, e)) {
      RolesPatched(s, e.snapshot, e.outcome);
    }
  }

  lemma TouchStep(s: State, e: Event)
    requires Enabled(s, e)
    ensures Apply(s, e).ledger.rolesTouched == (s.ledger.rolesTouched || e.RoleDelete?)
    ensures Apply(s, e).spec == s.spec
  {
    if IsCall(e) {
    } else if IsWrite(e) {
    } else if IsCreate(e) {
    } else if e.Patch? {
    }
  }

  lemma {:induction false} SpecKept(s: State, es: seq<Event>)
    requires Legal(s, es)
    ensures Exec(s, es).spec == s.spec
    decreases |es|
  {
    if es != [] {
      SpecKept(s, es[..|es| - 1]);
      TouchStep(Exec(s, es[..|es| - 1]), es[|es| - 1]);
    }
  }

  lemma {:induction false} RolesHaveCause(s: State, es: seq<Event>)
    requires Init(s) && Legal(s, es) && RolesKnown(Exec(s, es))
    ensures exists i :: 0 <= i < |es| && Lists(s.spec, es[i], Exec(s, es).ledger.listed)
    decreases |es|
  {
    if es != [] {
      var before, e := es[..|es| - 1], es[|es| - 1];
      var t, listed := Exec(s, before), Exec(s, es).ledger.listed;
      SpecKept(s, before);
      RolesStep(t, e);
      if Lists(s.spec, e, listed) {
        assert Lists(s.spec, es[|es| - 1], listed);
      } else {
        RolesHaveCause(s, before);
        var i :| 0 <= i < |before| && Lists(s.spec, before[i], t.ledger.listed);
        assert Lists(s.spec, es[i], listed);
      }
    }
  }

  lemma {:induction false} UntouchedRoles(s: State, es: seq<Event>)
    requires Init(s) && Legal(s, es) && forall i :: 0 <= i < |es| ==> !es[i].RoleDelete?
    ensures !Exec(s, es).ledger.rolesTouched
    decreases |es|
  {
    if es != [] {
      UntouchedRoles(s, es[..|es| - 1]);
      TouchStep(Exec(s, es[..|es| - 1]), es[|es| - 1]);
    }
  }

  lemma RolesOnTrace(s: State, es: seq<Event>)
    requires Init(s) && Legal(s, es)
    ensures RolesComplete(Exec(s, es))
  {
    assert Unfold(0);
    LegalIdentity(s, es);
  }

  /** The role of a request exists, and the policy the request asks for is attached to it. */
  predicate Served(spec: Spec, cloud: Cloud, prefix: string, r: CredentialRequest, policies: seq<Policy>) {
    && Role(prefix, RoleName(prefix, r)) in cloud.roles
    && Grant(Role(prefix, RoleName(prefix, r)), PolicyFor(spec.managedPolicies, prefix, r, policies)) in cloud.grants
    && (spec.managedPolicies ==> PolicyARN(PolicyKey(r), policies) != "")
  }

  lemma AllServed(spec: Spec, cloud: Cloud, e: Event, grants: set<Grant>)
    requires Lists(spec, e, grants) && grants <= cloud.grants
    requires forall g :: g in cloud.grants ==> g.role in cloud.roles
    ensures forall r :: r in e.requests ==> Served(spec, cloud, e.prefix, r, e.policies)
  {
    forall r | r in e.requests ensures Served(spec, cloud, e.prefix, r, e.policies) {
      assert GrantFor(spec.managedPolicies, e.prefix, r, e.policies) in grants;
    }
  }

  predicate AllRequestsServed(spec: Spec, cloud: Cloud, e: Event) {
    e.RolesReady? && e.requests != [] && forall r :: r in e.requests ==> Served(spec, cloud, e.prefix, r, e.policies)
  }

  /** A persisted rolesCreated means that in some reconcile each credential request OCM listed had
      its role with its policy attached, and until a role is deleted they all still have. */
  lemma RoleCompleteness(s: State, es: seq<Event>)
    requires Init(s) && Legal(s, es) && Exec(s, es).obj.persisted.rolesCreated
    requires forall i :: 0 <= i < |es| ==> !es[i].RoleDelete?
    ensures exists i :: 0 <= i < |es| && AllRequestsServed(s.spec, Exec(s, es).cloud, es[i]) && AnsweredInRun(es, i)
  {
    var i := ServedAt(s, es);
    LegalPrefix(s, es, i);
    AnsweredBefore(s, es, i);
  }

  /** The requests of event i are what OCM answered earlier in the same reconcile. */
  ghost predicate AnsweredInRun(es: seq<Event>, i: int) {
    0 <= i < |es| && es[i].RolesReady? && exists j :: SameRun(es, j, i) && Answered(es[j], es[i].requests)
  }

  lemma ServedAt(s: State, es: seq<Event>) returns (i: nat)
    requires Init(s) && Legal(s, es) && Exec(s, es).obj.persisted.rolesCreated
    requires forall i :: 0 <= i < |es| ==> !es[i].RoleDelete?
    ensures i < |es| && AllRequestsServed(s.spec, Exec(s, es).cloud, es[i])
  {
    RolesHaveCause(s, es);
    RolesOnTrace(s, es);
    UntouchedRoles(s, es);
    var t := Exec(s, es);
    i :| 0 <= i < |es| && Lists(s.spec, es[i], t.ledger.listed);
    AllServed(s.spec, t.cloud, es[i], t.ledger.listed);
  }

  // ---- The credential requests of a run ----

  predicate Answered(e: Event, requests: seq<CredentialRequest>) {
    e.ListRequests? && e.requests == requests
  }

  lemma RequestsStep(s: State, e: Event)
    requires Enabled(s, e) && Apply(s, e).run.Active? && Apply(s, e).run.requests != []
    ensures Answered(e, Apply(s, e).run.requests) ||
            (s.run.Active? && !e.Start? && Apply(s, e).run.requests == s.run.requests)
  {
    if IsCall(e) {
    } else if IsWrite(e) {
    } else if IsCreate(e) {
    } else if e.Patch? {
    }
  }

  lemma {:induction false} RequestsHaveCause(s: State, es: seq<Event>)
    requires Init(s) && Legal(s, es) && Exec(s, es).run.Active? && Exec(s, es).run.requests != []
    ensures exists j :: SameRun(es, j, |es|) && Answered(es[j], Exec(s, es).run.requests)
    decreases |es|
  {
    var before, e, requests := es[..|es| - 1], es[|es| - 1], Exec(s, es).run.requests;
    RequestsStep(Exec(s, before), e);
    if Answered(e, requests) {
      assert SameRun(es, |es| - 1, |es|);
    } else {
      RequestsHaveCause(s, before);
      var j :| SameRun(before, j, |before|) && Answered(before[j], requests);
      SameRunNext(es, j);
    }
  }

  lemma RolesReadyNeeds(t: State, e: Event)
    requires Enabled(t, e) && e.RolesReady?
    ensures t.run.Active? && t.run.requests == e.requests != []
  {
  }

  lemma AnsweredBefore(s: State, es: seq<Event>, i: nat)
    requires Init(s) && i < |es| && Legal(s, es[..i]) && Enabled(Exec(s, es[..i]), es[i]) && es[i].RolesReady?
    ensures exists j :: SameRun(es, j, i) && Answered(es[j], es[i].requests)
  {
    var past := es[..i];
    RolesReadyNeeds(Exec(s, past), es[i]);
    RequestsHaveCause(s, past);
    var j :| SameRun(past, j, |past|) && Answered(past[j], es[i].requests);
    SameRunIn(es, i, j);
  }

  // ---- Where deletion gets stuck ----

  predicate ListedInOCM(s: State) {
    s.cloud.mine != {} || s.cloud.foreign
  }

  /** ClusterCreated is neither persisted nor about to be. */
  predicate Unmarked(s: State) {
    && !Has(s.obj.persisted, ClusterCreated)
    && (s.run.Active? ==>
         !Has(s.run.mem, ClusterCreated) && CreateOk !in s.run.facts && SawMissing !in s.run.facts)
  }

  lemma UnmarkedCall(s: State, e: Event)
    requires IsCall(e) && Unmarked(s) && ListedInOCM(s) && CanCall(s, e)
    ensures Unmarked(ApplyCall(s, e)) && !e.ClusterDelete?
  {
    CallFactsFrame(s.run.facts, e);
  }

  lemma UnmarkedPatch(s: State, snapshot: Status, o: PatchOutcome)
    requires s.run.Active? && Unmarked(s)
    ensures Unmarked(ApplyPatch(s, snapshot, o))
  {
  }

  lemma UnmarkedWrite(s: State, e: Event)
    requires IsWrite(e) && Unmarked(s) && CanWrite(s, e)
    ensures Unmarked(ApplyWrite(s, e))
  {
    WriteHas(s, e, ClusterCreated);
  }

  lemma UnmarkedOther(s: State, e: Event)
    requires IsOther(e) && Unmarked(s) && CanOccur(s, e)
    ensures Unmarked(Occur(s, e)) && !e.RemoveFinalizer?
  {
  }

  lemma UnmarkedStep(s: State, e: Event)
    requires Unmarked(s) && ListedInOCM(s) && Enabled(s, e)
    ensures Unmarked(Apply(s, e))
    ensures !e.ClusterDelete? && !e.RemoveFinalizer? && !IsCreate(e)
  {
    if IsCall(e) {
      UnmarkedCall(s, e);
    } else if IsWrite(e) {
      UnmarkedWrite(s, e);
    } else if e.Patch? {
      UnmarkedPatch(s, e.snapshot, e.outcome);
    } else if IsOther(e) {
      UnmarkedOther(s, e);
    }
  }

  /** If ClusterCreated did not persist, then for as long as OCM lists a cluster of the name the
      operator neither deletes it nor lets the object go: deletion waits for someone else. */
  lemma {:induction false} OrphanTrap(s: State, es: seq<Event>)
    requires Unmarked(s) && Legal(s, es)
    requires forall n :: 0 <= n <= |es| && Legal(s, es[..n]) ==> ListedInOCM(Exec(s, es[..n]))
    ensures Unmarked(Exec(s, es))
    ensures forall i :: 0 <= i < |es| ==> !es[i].ClusterDelete? && !es[i].RemoveFinalizer? && !IsCreate(es[i])
    decreases |es|
  {
    if es != [] {
      var before := es[..|es| - 1];
      forall n | 0 <= n <= |before| && Legal(s, before[..n]) ensures ListedInOCM(Exec(s, before[..n])) {
        assert before[..n] == es[..n];
      }
      OrphanTrap(s, before);
      assert before == es[..|before|];
      UnmarkedStep(Exec(s, before), es[|es| - 1]);
    }
  }

  lemma AmbiguousStep(t: State, e: Event)
    requires ConditionsAhead(t) && Enabled(t, e) && e.ClusterCreate? && e.made.Ambiguous?
    ensures Enabled(Apply(t, e), End) && Unmarked(Apply(Apply(t, e), End))
    ensures Apply(Apply(t, e), End).cloud.mine == t.cloud.mine + {e.made.id}
    ensures Apply(Apply(t, e), End).run == Idle
  {
    assert !Has(t.run.mem, ClusterCreated);
  }

  /** The trap is reached wherever a cluster can be created: a create that reports failure but took
      effect ends the reconcile with a listed cluster the operator does not know it made. */
  lemma AmbiguousCreateTraps(s: State, es: seq<Event>, version: string, id: string)
    requires Init(s) && Legal(s, es) && Enabled(Exec(s, es), ClusterCreate(version, Ambiguous(id)))
    ensures var more := es + [ClusterCreate(version, Ambiguous(id))] + [End];
      Legal(s, more) && Unmarked(Exec(s, more)) && id in Exec(s, more).cloud.mine && ListedInOCM(Exec(s, more))
  {
    var e := ClusterCreate(version, Ambiguous(id));
    AheadOnTrace(s, es);
    AmbiguousStep(Exec(s, es), e);
    Extend(s, es, e);
    Extend(s, es + [e], End);
  }
}
