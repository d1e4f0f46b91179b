/** What every history of MachinePool reconciles satisfies. */
module PoolTheorems {
  import opened Conditions
  import opened StatusPatch
  import opened Requests
  import opened GoValues
  import MachinePool
  import opened PoolProtocol

  // ---- Invariants ----

  /** The finalizer holds the object. */
  predicate FinalizerHolds(s: State) {
    && (s.obj.gone ==> s.obj.deleting && !s.obj.finalizer)
    && (s.obj.deleting && !s.obj.gone ==> s.obj.finalizer)
    && (s.run.Active? ==>
         && (s.run.deletes ==> s.obj.deleting)
         && (!s.run.deletes && FinalizerOn in s.run.facts ==> s.obj.finalizer && !s.obj.gone))
  }

  /** What only delete reconciles learn, they alone know, and only of objects being deleted. */
  predicate DeletionApart(s: State) {
    && (MarkedDeleted(s.obj.persisted) ==> s.obj.deleting)
    && (s.run.Active? ==>
         && (s.run.deletes ==> s.obj.deleting)
         && (MarkedDeleted(s.obj.persisted) || MarkedDeleted(s.run.mem) ==> s.run.deletes)
         && (DeleteOk in s.run.facts || NameListed in s.run.facts || NameAbsent in s.run.facts ==> s.run.deletes)
         && forall i :: 0 <= i < |s.run.pending| ==> MarkedDeleted(s.run.pending[i]) ==> s.run.deletes)
  }

  /** No write of the cluster's identity was lost. */
  predicate Clean(s: State) {
    !s.ledger.splitLost && !s.ledger.misled
  }

  predicate KnowsCluster(c: Cloud, st: Status) {
    if st.clusterID == "" then !st.hosted else st.clusterID in c.kind && c.kind[st.clusterID] == st.hosted
  }

  predicate Identified(a: Status, b: Status) {
    a.clusterID != "" ==> b.clusterID == a.clusterID && b.hosted == a.hosted
  }

  /** In a clean history the persisted identity is the cluster's, memory agrees with it, and
      differs from it only while the write that sets it is pending or has failed. */
  predicate IdentityKept(s: State) {
    && KindsKnown(s.cloud)
    && (Clean(s) ==>
         && KnowsCluster(s.cloud, s.obj.persisted)
         && (s.run.Active? ==>
              && KnowsCluster(s.cloud, s.run.mem) && Identified(s.obj.persisted, s.run.mem) && |s.run.pending| <= 1
              && (s.run.pending == [] && !s.run.failed ==> Ref(s.run.mem) == Ref(s.obj.persisted))
              && (|s.run.pending| == 1 ==> Ref(s.run.pending[0]) == Ref(s.obj.persisted))
              && (s.run.deletes ==> Ref(s.run.mem) == Ref(s.obj.persisted))
              && (UpstreamReady in s.run.facts ==> s.run.mem.clusterID != "")))
  }

  /** In a clean history every live pool is where the persisted identity says. */
  predicate PoolsFound(s: State) {
    Clean(s) ==> forall p :: p in s.cloud.pools ==> p == Ref(s.obj.persisted) && p.clusterID != ""
  }

  /** Pools live in listed clusters. */
  predicate PoolsListed(s: State) {
    forall p :: p in s.cloud.pools ==> p.clusterID in s.cloud.clusters
  }

  predicate Gone(s: State) {
    MarkedDeleted(s.obj.persisted) || (s.run.Active? && (MarkedDeleted(s.run.mem) || DeleteOk in s.run.facts))
  }

  /** Once deletion succeeded, in a clean history, or the name was absent, no pool is left. */
  predicate NothingLeft(s: State) {
    && (Clean(s) && Gone(s) ==> s.cloud.pools == map[])
    && (s.run.Active? && NameAbsent in s.run.facts ==> s.cloud.pools == map[])
  }

  /** In a clean history the kind recorded at the read is that of the cluster, if any. */
  predicate StartKnown(s: State) {
    Clean(s) && s.run.Active? ==>
      && (s.run.wasHosted ==> s.obj.persisted.hosted)
      && (PoolMissing !in s.run.facts ==> forall p :: p in s.cloud.pools ==> p.hosted == s.run.wasHosted)
  }

  /** What the operator last asked for, in the terms of the pool alone. */
  function LastAsked(s: State, p: PoolRef): MachinePool.Pool {
    MachinePool.Request(MachinePool.Wanted(s.spec, s.name, p.hosted), p.hosted, ZonesOf(s.cloud, p.clusterID))
  }

  /** In a clean history OCM holds each pool of the operator as it was asked for, and what the
      request has read of it is what OCM holds. */
  predicate ContentKept(s: State) {
    Clean(s) ==>
      && (forall p :: p in s.cloud.pools ==> s.cloud.pools[p] == LastAsked(s, p))
      && (s.run.Active? && PoolOurs in s.run.facts ==>
           PoolMissing !in s.run.facts && forall p :: p in s.cloud.pools ==> s.run.held == Some(s.cloud.pools[p]))
  }

  predicate Inv(s: State) {
    && FinalizerHolds(s) && DeletionApart(s) && IdentityKept(s) && PoolsFound(s) && PoolsListed(s) && NothingLeft(s)
    && StartKnown(s) && ContentKept(s)
  }

  lemma NoteMarks(st: Status, c: Condition)
    requires c.ctype == MachinePoolDeleted ==> c == DeletedCondition(c.lastTransition)
    ensures MarkedDeleted(st.(conditions := AddCondition(st.conditions, c)))
            <==> MarkedDeleted(st) || c.ctype == MachinePoolDeleted
  {
    var d := DeletedCondition(0);
    AddSets(st.conditions, c, d);
    if c.ctype == MachinePoolDeleted {
      var r := AddCondition(st.conditions, c);
      var i :| 0 <= i < |r| && EqualCondition(c, r[i]);
      assert EqualCondition(d, r[i]);
    }
  }

  lemma KeepsFinalizerHolds(s: State, e: Event)
    requires FinalizerHolds(s) && Enabled(s, e)
    ensures FinalizerHolds(Apply(s, e))
  {
  }

  lemma KeepsDeletionApart(s: State, e: Event)
    requires DeletionApart(s) && Enabled(s, e)
    ensures DeletionApart(Apply(s, e))
  {
    if e.Note? {
      NoteMarks(s.run.mem, e.condition);
    }
  }

  lemma PatchIdentity(s: State, o: PatchOutcome)
    requires IdentityKept(s) && Enabled(s, Patch(o))
    ensures IdentityKept(ApplyPatch(s, o))
  {
  }

  lemma UpstreamIdentity(s: State, a: Answer)
    requires IdentityKept(s) && Enabled(s, Upstream(a))
    ensures IdentityKept(Apply(s, Upstream(a)))
  {
  }

  lemma MemoryIdentity(s: State, e: Event)
    requires IdentityKept(s) && Enabled(s, e) && (e.AddFinalizer? || e.Note? || e.Start? || e.Drift?)
    ensures IdentityKept(Apply(s, e))
  {
  }

  /** Events that write no identity. */
  lemma OtherIdentity(s: State, e: Event)
    requires IdentityKept(s) && Enabled(s, e)
    requires !e.Patch? && !e.Upstream? && !e.AddFinalizer? && !e.Note? && !e.Start? && !e.Drift?
    ensures IdentityKept(Apply(s, e))
  {
  }

  lemma KeepsIdentityKept(s: State, e: Event)
    requires IdentityKept(s) && Enabled(s, e)
    ensures IdentityKept(Apply(s, e))
  {
    if e.Patch? {
      PatchIdentity(s, e.outcome);
    } else if e.Upstream? {
      UpstreamIdentity(s, e.answer);
    } else if e.AddFinalizer? || e.Note? || e.Start? || e.Drift? {
      MemoryIdentity(s, e);
    } else {
      OtherIdentity(s, e);
    }
  }

  lemma KeepsPools(s: State, e: Event)
    requires IdentityKept(s) && PoolsFound(s) && PoolsListed(s) && Enabled(s, e)
    ensures PoolsFound(Apply(s, e)) && PoolsListed(Apply(s, e))
  {
    if e.Patch? {
    } else if e.PoolCreate? {
    }
  }

  lemma NoteNothing(s: State, e: Event)
    requires e.Note? && NothingLeft(s) && Enabled(s, e)
    ensures NothingLeft(Apply(s, e))
  {
    NoteMarks(s.run.mem, e.condition);
  }

  lemma PoolNothing(s: State, e: Event)
    requires e.PoolDelete? || e.PoolCreate? || e.PoolUpdate? || e.NameLookup? || e.Drift?
    requires DeletionApart(s) && IdentityKept(s) && PoolsFound(s) && PoolsListed(s) && NothingLeft(s) && Enabled(s, e)
    ensures NothingLeft(Apply(s, e))
  {
    if e.NameLookup? {
    } else if e.PoolDelete? {
    } else if e.PoolCreate? {
    }
  }

  lemma KeepsNothingLeft(s: State, e: Event)
    requires DeletionApart(s) && IdentityKept(s) && PoolsFound(s) && PoolsListed(s) && NothingLeft(s) && Enabled(s, e)
    ensures NothingLeft(Apply(s, e))
  {
    if e.Note? {
      NoteNothing(s, e);
    } else if e.PoolDelete? || e.PoolCreate? || e.PoolUpdate? || e.NameLookup? || e.Drift? {
      PoolNothing(s, e);
    }
  }

  lemma KeepsStartKnown(s: State, e: Event)
    requires IdentityKept(s) && PoolsFound(s) && StartKnown(s) && Enabled(s, e)
    ensures StartKnown(Apply(s, e))
  {
    if e.Patch? {
    } else if e.PoolCreate? {
    } else if e.Start? {
    } else if e.PoolGet? {
    }
  }

  /** A node pool is asked for in the same words whatever was known of the cluster. */
  lemma SameRequest(s: State)
    requires s.run.Active? && (s.run.wasHosted ==> s.run.mem.hosted)
    ensures Asked(s) == LastAsked(s, Ref(s.run.mem))
  {
  }

  lemma CreateContent(s: State, e: Event)
    requires (e.PoolCreate? || e.PoolUpdate?) && IdentityKept(s) && PoolsFound(s) && StartKnown(s) && ContentKept(s)
    requires Enabled(s, e)
    ensures ContentKept(Apply(s, e))
  {
    if Clean(s) {
      SameRequest(s);
    }
  }

  lemma ReadContent(s: State, e: Event)
    requires e.PoolGet? && IdentityKept(s) && PoolsFound(s) && ContentKept(s) && Enabled(s, e)
    ensures ContentKept(Apply(s, e))
  {
  }

  lemma OtherContent(s: State, e: Event)
    requires !e.PoolCreate? && !e.PoolUpdate? && !e.PoolGet? && ContentKept(s) && Enabled(s, e)
    ensures ContentKept(Apply(s, e))
  {
    if e.Patch? {
    } else if e.Drift? {
    } else if e.PoolDelete? {
    }
  }

  lemma KeepsContentKept(s: State, e: Event)
    requires IdentityKept(s) && PoolsFound(s) && StartKnown(s) && ContentKept(s) && Enabled(s, e)
    ensures ContentKept(Apply(s, e))
  {
    if e.PoolCreate? || e.PoolUpdate? {
      CreateContent(s, e);
    } else if e.PoolGet? {
      ReadContent(s, e);
    } else {
      OtherContent(s, e);
    }
  }

  lemma {:induction false} LegalInv(s: State, es: seq<Event>)
    requires Init(s) && Legal(s, es)
    ensures Inv(Exec(s, es))
    decreases |es|
  {
    if es != [] {
      var before, e := es[..|es| - 1], es[|es| - 1];
      var t := Exec(s, before);
      LegalInv(s, before);
      KeepsFinalizerHolds(t, e);
      KeepsDeletionApart(t, e);
      KeepsIdentityKept(t, e);
      KeepsPools(t, e);
      KeepsNothingLeft(t, e);
      KeepsStartKnown(t, e);
      KeepsContentKept(t, e);
    }
  }

  // ---- Causes ----

  /** Events j and i belong to one reconcile, j first. */
  predicate SameRun(es: seq<Event>, j: int, i: int) {
    0 <= j < i <= |es| && forall k :: j < k < i ==> !es[k].Start?
  }

  predicate Teaches(e: Event, f: Fact) {
    match f
    case FinalizerOn => false
    case UpstreamReady => e.Upstream? && e.answer.Found? && e.answer.ready
    case PoolMissing => e == PoolGet(None)
    case PoolOurs => e.PoolGet? && e.held.Some? && MachinePool.HasManagedLabels(e.held.value.labels)
    case NameListed => e == NameLookup(true)
    case NameAbsent => e == NameLookup(false)
    case DeleteOk => e == PoolDelete(Accepted)
    case NoNodes => e == Nodes(0)
  }

  lemma FactLearnt(s: State, e: Event, f: Fact)
    requires f != FinalizerOn && Enabled(s, e) && Apply(s, e).run.Active? && f in Apply(s, e).run.facts
    ensures Teaches(e, f) || (s.run.Active? && f in s.run.facts && !e.Start?)
  {
  }

  lemma {:induction false} FactHasCause(s: State, es: seq<Event>, f: Fact)
    requires Init(s) && Legal(s, es) && f != FinalizerOn
    requires Exec(s, es).run.Active? && f in Exec(s, es).run.facts
    ensures exists j :: SameRun(es, j, |es|) && Teaches(es[j], f)
    decreases |es|
  {
    var before, e := es[..|es| - 1], es[|es| - 1];
    FactLearnt(Exec(s, before), e, f);
    if Teaches(e, f) {
      assert SameRun(es, |es| - 1, |es|);
    } else {
      FactHasCause(s, before, f);
      var j :| SameRun(before, j, |before|) && Teaches(before[j], f);
      assert SameRun(es, j, |es|) && Teaches(es[j], f);
    }
  }

  lemma CauseBefore(s: State, es: seq<Event>, i: nat, f: Fact) returns (j: nat)
    requires Init(s) && Legal(s, es) && i < |es| && Legal(s, es[..i]) && f != FinalizerOn
    requires Exec(s, es[..i]).run.Active? && f in Exec(s, es[..i]).run.facts
    ensures SameRun(es, j, i) && Teaches(es[j], f)
  {
    var past := es[..i];
    FactHasCause(s, past, f);
    j :| SameRun(past, j, |past|) && Teaches(past[j], f);
  }

  lemma GoneLearnt(s: State, e: Event)
    requires Enabled(s, e) && Gone(Apply(s, e))
    ensures Gone(s) || e == PoolDelete(Accepted)
  {
    if e.Note? {
      NoteMarks(s.run.mem, e.condition);
    }
  }

  lemma {:induction false} GoneHasCause(s: State, es: seq<Event>)
    requires Init(s) && Legal(s, es) && Gone(Exec(s, es))
    ensures exists j :: 0 <= j < |es| && es[j] == PoolDelete(Accepted)
    decreases |es|
  {
    if es != [] {
      var before, e := es[..|es| - 1], es[|es| - 1];
      GoneLearnt(Exec(s, before), e);
      if e != PoolDelete(Accepted) {
        GoneHasCause(s, before);
        var j :| 0 <= j < |before| && before[j] == PoolDelete(Accepted);
        assert es[j] == before[j];
      }
    }
  }

  // ---- Finalizer safety ----

  lemma RemoveNeeds(t: State, r: CallReply)
    requires Enabled(t, RemoveFinalizer(r))
    ensures t.run.Active? && (NameAbsent in t.run.facts || Gone(t)) && (t.run.wait ==> NoNodes in t.run.facts)
  {
  }

  /** The finalizer is removed only in a reconcile that found the cluster's name absent, or after a
      pool delete was accepted; if the object asks to wait, only in a reconcile that saw no node of
      the pool. Unless a write of the cluster's identity was lost, no pool of the operator is left;
      if the name was absent, none is left in any case. */
  lemma FinalizerSafety(s: State, es: seq<Event>, i: nat)
    requires Init(s) && Legal(s, es) && i < |es| && es[i].RemoveFinalizer?
    ensures Legal(s, es[..i])
    ensures || (exists j :: SameRun(es, j, i) && es[j] == NameLookup(false))
            || (exists j :: 0 <= j < i && es[j] == PoolDelete(Accepted))
    ensures Exec(s, es[..i]).run.Active?
    ensures Exec(s, es[..i]).run.wait ==> exists j :: SameRun(es, j, i) && es[j] == Nodes(0)
    ensures Clean(Exec(s, es[..i])) || NameAbsent in Exec(s, es[..i]).run.facts ==>
      Exec(s, es[..i]).cloud.pools == map[]
  {
    LegalPrefix(s, es, i);
    var past := es[..i];
    var t := Exec(s, past);
    RemoveNeeds(t, es[i].reply);
    LegalInv(s, past);
    if NameAbsent in t.run.facts {
      var j := CauseBefore(s, es, i, NameAbsent);
    } else {
      GoneHasCause(s, past);
      var j :| 0 <= j < |past| && past[j] == PoolDelete(Accepted);
      assert es[j] == past[j];
    }
    if t.run.wait {
      var j := CauseBefore(s, es, i, NoNodes);
    }
  }

  lemma CleanStep(s: State, e: Event)
    requires Enabled(s, e) && Clean(s) && e != Upstream(Broken) && e != Patch(Swallowed)
    ensures Clean(Apply(s, e))
  {
  }

  /** A history is clean if no conflict and no broken lookup was swallowed. */
  lemma {:induction false} CleanHistory(s: State, es: seq<Event>)
    requires Init(s) && Legal(s, es)
    requires forall i :: 0 <= i < |es| ==> es[i] != Upstream(Broken) && es[i] != Patch(Swallowed)
    ensures Clean(Exec(s, es))
    decreases |es|
  {
    if es != [] {
      CleanHistory(s, es[..|es| - 1]);
      CleanStep(Exec(s, es[..|es| - 1]), es[|es| - 1]);
    }
  }

  // ---- The gates before create and update ----

  lemma WriteNeeds(s: State, es: seq<Event>, e: Event)
    requires Init(s) && Legal(s, es) && Enabled(Exec(s, es), e) && (e.PoolCreate? || e.PoolUpdate?)
    ensures var t := Exec(s, es);
      && t.run.Active? && UpstreamReady in t.run.facts && t.obj.finalizer && !t.obj.gone
      && (if e.PoolCreate? then PoolMissing else PoolOurs) in t.run.facts
  {
    LegalInv(s, es);
  }

  /** Every create and every update of a pool follows, in the same reconcile, an upstream cluster
      seen ready, while the finalizer holds the object; no update targets a pool without the managed
      labels, and no create a pool that was found. */
  lemma WritesAreGated(s: State, es: seq<Event>, i: nat)
    requires Init(s) && Legal(s, es) && i < |es| && (es[i].PoolCreate? || es[i].PoolUpdate?)
    ensures Legal(s, es[..i]) && Exec(s, es[..i]).obj.finalizer && !Exec(s, es[..i]).obj.gone
    ensures exists j :: SameRun(es, j, i) && Teaches(es[j], UpstreamReady)
    ensures es[i].PoolUpdate? ==> exists j :: SameRun(es, j, i) && Teaches(es[j], PoolOurs)
    ensures es[i].PoolCreate? ==> exists j :: SameRun(es, j, i) && es[j] == PoolGet(None)
  {
    LegalPrefix(s, es, i);
    WriteNeeds(s, es[..i], es[i]);
    var j := CauseBefore(s, es, i, UpstreamReady);
    var k := CauseBefore(s, es, i, if es[i].PoolCreate? then PoolMissing else PoolOurs);
  }

  // ---- Settled pools ----

  lemma SpecStep(s: State, e: Event)
    requires Enabled(s, e)
    ensures Apply(s, e).spec == s.spec && Apply(s, e).name == s.name
  {
  }

  lemma {:induction false} SpecKept(s: State, es: seq<Event>)
    requires Legal(s, es)
    ensures Exec(s, es).spec == s.spec && Exec(s, es).name == s.name
    decreases |es|
  {
    if es != [] {
      SpecKept(s, es[..|es| - 1]);
      SpecStep(Exec(s, es[..|es| - 1]), es[|es| - 1]);
    }
  }

  /** The request has read a pool that the operator made, and may act on it. */
  predicate HasReadOwn(t: State) {
    Applying(t) && PoolOurs in t.run.facts && Ref(t.run.mem) in t.cloud.pools
  }

  predicate SpecSettles(s: State, t: State)
    requires t.run.Active?
  {
    MachinePool.Settles(s.spec, t.run.mem.hosted, ZonesOf(t.cloud, t.run.mem.clusterID))
  }

  lemma OwnPoolDiffers(t: State)
    requires IdentityKept(t) && PoolsFound(t) && StartKnown(t) && ContentKept(t) && Clean(t) && HasReadOwn(t)
    requires t.run.mem.hosted || ZonesOf(t.cloud, t.run.mem.clusterID) >= 1
    ensures Differs(t) <==> !SpecSettles(t, t)
  {
    var p := Ref(t.run.mem);
    assert t.run.held == Some(LastAsked(t, p)) && p.hosted == t.run.wasHosted;
    MachinePool.SettlesExactly(t.spec, t.name, p.hosted, ZonesOf(t.cloud, p.clusterID));
  }

  lemma ContentOnTrace(s: State, es: seq<Event>)
    requires Init(s) && Legal(s, es)
    ensures var t := Exec(s, es); IdentityKept(t) && PoolsFound(t) && StartKnown(t) && ContentKept(t)
  {
    LegalInv(s, es);
  }

  /** In a clean history, whenever the operator has read back a pool of its own, it may update the
      pool if and only if the spec does not settle. */
  lemma UpdatesExactlyUnsettled(s: State, es: seq<Event>, r: CallReply)
    requires Init(s) && Legal(s, es) && Clean(Exec(s, es)) && HasReadOwn(Exec(s, es))
    requires var t := Exec(s, es); t.run.mem.hosted || ZonesOf(t.cloud, t.run.mem.clusterID) >= 1
    ensures Enabled(Exec(s, es), PoolUpdate(r)) <==> !SpecSettles(s, Exec(s, es))
  {
    ContentOnTrace(s, es);
    SpecKept(s, es);
    OwnPoolDiffers(Exec(s, es));
  }

  lemma UpdateNeeds(t: State, r: CallReply)
    requires Enabled(t, PoolUpdate(r))
    ensures Applying(t) && PoolOurs in t.run.facts && Differs(t)
  {
  }

  lemma UpdatedUnsettled(s: State, past: seq<Event>, r: CallReply)
    requires Init(s) && Legal(s, past) && Enabled(Exec(s, past), PoolUpdate(r)) && Clean(Exec(s, past))
    ensures var t := Exec(s, past); t.run.Active? && (Ref(t.run.mem) in t.cloud.pools ==> !SpecSettles(s, t))
  {
    var t := Exec(s, past);
    UpdateNeeds(t, r);
    ContentOnTrace(s, past);
    SpecKept(s, past);
    if Ref(t.run.mem) in t.cloud.pools && (t.run.mem.hosted || ZonesOf(t.cloud, t.run.mem.clusterID) >= 1) {
      OwnPoolDiffers(t);
    }
  }

  /** A pool whose spec settles is left alone: no update of a clean history hits a pool that the
      operator created for it. */
  lemma SettledLeftAlone(s: State, es: seq<Event>, i: nat)
    requires Init(s) && Legal(s, es) && i < |es| && es[i].PoolUpdate?
    ensures Legal(s, es[..i]) && Exec(s, es[..i]).run.Active?
    ensures Clean(Exec(s, es[..i])) && Ref(Exec(s, es[..i]).run.mem) in Exec(s, es[..i]).cloud.pools ==>
      !SpecSettles(s, Exec(s, es[..i]))
  {
    LegalPrefix(s, es, i);
    UpdateNeeds(Exec(s, es[..i]), es[i].reply);
    if Clean(Exec(s, es[..i])) {
      UpdatedUnsettled(s, es[..i], es[i].reply);
    }
  }
}
