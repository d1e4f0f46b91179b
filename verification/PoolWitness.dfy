/** Two histories in which the finalizer goes while a pool stays: one swallowed conflict, or one
    swallowed lookup error, is enough. */
module PoolWitness {
  import opened Conditions
  import opened StatusPatch
  import opened Requests
  import opened GoValues
  import MachinePool
  import opened PoolProtocol

  ghost predicate Reaches(s: State, t: State) {
    exists es :: Legal(s, es) && Exec(s, es) == t
  }

  lemma Reached(s: State)
    ensures Reaches(s, s)
  {
    assert Legal(s, []) && Exec(s, []) == s;
  }

  lemma Then(s: State, t: State, e: Event)
    requires Reaches(s, t) && Enabled(t, e)
    ensures Reaches(s, Apply(t, e))
  {
    var es :| Legal(s, es) && Exec(s, es) == t;
    Extend(s, es, e);
  }

  const ID := "c"

  const SPEC := MachinePool.PoolSpec("k", "", "t", map[], Nil, 2, 0, MachinePool.NO_SPOT, false)

  /** The pool of the histories, as OCM holds it. */
  function PoolOf(hosted: bool): MachinePool.Pool {
    MachinePool.Request(MachinePool.Wanted(SPEC, "n", false), hosted, 1)
  }

  function Fresh(hosted: bool): State {
    State(SPEC, "n", Resource(EMPTY_STATUS, false, false, false, false),
          Cloud({ID}, map[ID := hosted], map[ID := 1], map[]), Idle, Ledger(false, false, 0))
  }

  function Mark(t: ConditionType, status: bool, reason: Trigger, message: Message): Condition {
    Condition(t, status, reason, message, 0, 0)
  }

  const BEGUN := Mark(Reconciling, true, TriggerUpdate, ReconcilingStart)
  const ENDED := Mark(Reconciling, false, TriggerCreate, ReconcilingStop)
  const DELETING := Mark(Reconciling, true, TriggerDelete, ReconcilingStart)
  const EXISTS := Mark(UpstreamClusterExists, true, TriggerCreate, UpstreamExists)
  const MISSING := Mark(UpstreamClusterExists, false, TriggerCreate, UpstreamMissing)

  /** A reconcile in progress, with the fields that vary. */
  function Running(s: State, persisted: Status, mem: Status, facts: set<Fact>): State {
    s.(obj := s.obj.(persisted := persisted), 
       run := Active(mem, s.obj.wait, s.obj.deleting, facts, [], false, s.obj.persisted.hosted, None))
  }

  predicate Replaced(l: seq<Condition>, c: Condition, r: seq<Condition>) {
    !IsSet(c, l) && AddCondition(l, c) == r
  }

  /** A condition that is recorded and persisted. */
  lemma Noted(s: State, t: State, p: Status, m: Status, facts: set<Fact>, c: Condition, r: seq<Condition>)
    requires Reaches(s, Running(t, p, m, facts)) && !t.obj.gone && CanNote(Running(t, p, m, facts), c)
    requires Replaced(m.conditions, c, r) && r != [] && r != m.conditions
    requires (p.clusterID == "" || p.clusterID == m.clusterID) && p.hosted == m.hosted
    ensures Reaches(s, Running(t, p.(conditions := r), m.(conditions := r), facts))
  {
    var t0 := Running(t, p, m, facts);
    Then(s, t0, Note(c));
    var t1 := Apply(t0, Note(c));
    Then(s, t1, Patch(Applied));
    assert Apply(t1, Patch(Applied)) == Running(t, p.(conditions := r), m.(conditions := r), facts);
  }

  lemma Lists(x: Condition, y: Condition)
    requires x.ctype == Reconciling && y.ctype == UpstreamClusterExists
    ensures forall c: Condition :: c.ctype == Reconciling ==>
      AddCondition([x, y], c) == (if EqualCondition(x, c) then [x, y] else [c, y])
    ensures forall c: Condition :: c.ctype == UpstreamClusterExists ==>
      AddCondition([x, y], c) == (if EqualCondition(y, c) then [x, y] else [x, c])
    ensures forall c: Condition :: c.ctype == MachinePoolDeleted ==> AddCondition([x, y], c) == [x, y, c]
    ensures forall c: Condition :: c.ctype == UpstreamClusterExists ==> AddCondition([x], c) == [x, c]
  {
    forall c: Condition ensures c.ctype == Reconciling ==> FirstOf([x, y], c.ctype) == 0 {}
    FirstOfIs([x, y], UpstreamClusterExists, 1);
    FirstOfIs([x, y], MachinePoolDeleted, 2);
    FirstOfIs([x], UpstreamClusterExists, 1);
  }

  /** The identity patch of a first reconcile, applied or swallowed. */
  function Saved(hosted: bool, o: PatchOutcome): Status {
    if o.Applied? then Status([BEGUN], ID, hosted) else Status([BEGUN], "", false)
  }

  /** After the first reconcile has seen the cluster ready. */
  function Seen(hosted: bool, o: PatchOutcome): State {
    var s := Fresh(hosted);
    s.(obj := s.obj.(finalizer := true), ledger := if o.Applied? then s.ledger else Ledger(true, false, 1))
  }

  lemma Begins(hosted: bool)
    ensures var s := Fresh(hosted);
      Reaches(s, Running(s.(obj := s.obj.(finalizer := true)), Status([BEGUN], "", false),
                         Status([BEGUN], "", false), {FinalizerOn}))
  {
    var s := Fresh(hosted);
    Reached(s);
    Then(s, s, Start);
    assert Apply(s, Start) == Running(s, EMPTY_STATUS, EMPTY_STATUS, {});
    Noted(s, s, EMPTY_STATUS, EMPTY_STATUS, {}, BEGUN, [BEGUN]);
    var st := Status([BEGUN], "", false);
    var t := Running(s, st, st, {});
    Then(s, t, AddFinalizer(Accepted));
    assert {} + {FinalizerOn} == {FinalizerOn};
    assert Apply(t, AddFinalizer(Accepted)) == Running(s.(obj := s.obj.(finalizer := true)), st, st, {FinalizerOn});
  }

  lemma Sees(hosted: bool, o: PatchOutcome)
    requires o.Applied? || (o.Swallowed? && !hosted)
    ensures Reaches(Fresh(hosted), Running(Seen(hosted, o), Saved(hosted, o), Status([BEGUN], ID, hosted),
        {FinalizerOn, UpstreamReady}))
  {
    var s := Fresh(hosted);
    var st := Status([BEGUN], "", false);
    Begins(hosted);
    var t := Running(s.(obj := s.obj.(finalizer := true)), st, st, {FinalizerOn});
    Then(s, t, Upstream(Found(ID, hosted, true)));
    var t1 := Apply(t, Upstream(Found(ID, hosted, true)));
    Then(s, t1, Patch(o));
    assert {FinalizerOn} + {UpstreamReady} == {FinalizerOn, UpstreamReady};
    assert Apply(t1, Patch(o)) == Running(Seen(hosted, o), Saved(hosted, o), Status([BEGUN], ID, hosted),
        {FinalizerOn, UpstreamReady});
  }

  /** Between reconciles, with the pool in place. */
  function Placed(hosted: bool, o: PatchOutcome, conditions: seq<Condition>): State {
    var s := Seen(hosted, o);
    s.(obj := s.obj.(persisted := Saved(hosted, o).(conditions := conditions)),
       cloud := s.cloud.(pools := map[PoolRef(ID, hosted) := PoolOf(hosted)]))
  }

  /** The pool is read, found missing, and created. */
  lemma Makes(s: State, t: State, p: Status, m: Status)
    requires var facts := {FinalizerOn, UpstreamReady}; Reaches(s, Running(t, p, m, facts))
    requires !t.obj.deleting && t.cloud.pools == map[] && m.clusterID == ID && ID in t.cloud.clusters
    requires t.spec == SPEC && t.name == "n" && !t.obj.persisted.hosted && t.cloud.zones == map[ID := 1]
    requires m.clusterID in t.cloud.kind && t.cloud.kind[m.clusterID] == m.hosted
    ensures Reaches(s, Running(t.(cloud := t.cloud.(pools := map[Ref(m) := PoolOf(m.hosted)])), p, m,
                               {FinalizerOn, UpstreamReady, PoolMissing}))
  {
    var t0 := Running(t, p, m, {FinalizerOn, UpstreamReady});
    Then(s, t0, PoolGet(None));
    assert {FinalizerOn, UpstreamReady} + {PoolMissing} == {FinalizerOn, UpstreamReady, PoolMissing};
    var t1 := Running(t, p, m, {FinalizerOn, UpstreamReady, PoolMissing});
    assert Apply(t0, PoolGet(None)) == t1;
    Then(s, t1, PoolCreate(Accepted));
    assert map[][Ref(m) := PoolOf(m.hosted)] == map[Ref(m) := PoolOf(m.hosted)];
  }

  lemma Ends(s: State, t: State, p: Status, m: Status, facts: set<Fact>)
    requires Reaches(s, Running(t, p, m, facts))
    ensures Reaches(s, t.(obj := t.obj.(persisted := p), run := Idle))
  {
    Then(s, Running(t, p, m, facts), End);
  }

  lemma Creates(hosted: bool, o: PatchOutcome)
    requires o.Applied? || (o.Swallowed? && !hosted)
    ensures Reaches(Fresh(hosted), Placed(hosted, o, [ENDED, EXISTS]))
  {
    var s, base, m := Fresh(hosted), Seen(hosted, o), Status([BEGUN], ID, hosted);
    Sees(hosted, o);
    Lists(BEGUN, EXISTS);
    Noted(s, base, Saved(hosted, o), m, {FinalizerOn, UpstreamReady}, EXISTS, [BEGUN, EXISTS]);
    var p, m2 := Saved(hosted, o).(conditions := [BEGUN, EXISTS]), m.(conditions := [BEGUN, EXISTS]);
    Makes(s, base, p, m2);
    Wraps(s, base.(cloud := base.cloud.(pools := map[PoolRef(ID, hosted) := PoolOf(hosted)])), p, m2);
  }

  lemma Wraps(s: State, t: State, p: Status, m: Status)
    requires Reaches(s, Running(t, p, m, {FinalizerOn, UpstreamReady, PoolMissing})) && !t.obj.gone
    requires m.conditions == [BEGUN, EXISTS] && (p.clusterID == "" || p.clusterID == m.clusterID)
    requires p.hosted == m.hosted
    ensures Reaches(s, t.(obj := t.obj.(persisted := p.(conditions := [ENDED, EXISTS])), run := Idle))
  {
    var facts := {FinalizerOn, UpstreamReady, PoolMissing};
    Lists(BEGUN, EXISTS);
    Noted(s, t, p, m, facts, ENDED, [ENDED, EXISTS]);
    Ends(s, t, p.(conditions := [ENDED, EXISTS]), m.(conditions := [ENDED, EXISTS]), facts);
  }

  /** The user deletes an object whose recorded identity is not that of its pool. */
  lemma Deletes(s: State, t: State, x: Condition, y: Condition)
    requires Reaches(s, t) && t.run == Idle && t.obj.finalizer && !t.obj.deleting && !t.obj.gone && !t.obj.wait
    requires t.obj.persisted.conditions == [x, y] && x.ctype == Reconciling && y.ctype == UpstreamClusterExists
    requires x.reason != TriggerDelete
    requires t.cloud.clusters != {} && Ref(t.obj.persisted) !in t.cloud.pools
    ensures exists t' :: Reaches(s, t') && t'.obj.gone && t'.cloud.pools == t.cloud.pools && t'.ledger == t.ledger
  {
    Lists(x, y);
    Then(s, t, UserDelete);
    var t0 := Apply(t, UserDelete);
    Then(s, t0, Start);
    var p := t.obj.persisted;
    assert Apply(t0, Start) == Running(t0, p, p, {FinalizerOn});
    Noted(s, t0, p, p, {FinalizerOn}, DELETING, [DELETING, y]);
    Destroys(s, t0, p.(conditions := [DELETING, y]), y);
  }

  lemma Destroys(s: State, t: State, p: Status, y: Condition)
    requires Reaches(s, Running(t, p, p, {FinalizerOn})) && t.obj.deleting && !t.obj.gone && !t.obj.wait
    requires p.conditions == [DELETING, y] && y.ctype == UpstreamClusterExists
    requires t.cloud.clusters != {} && Ref(p) !in t.cloud.pools
    ensures exists t' :: Reaches(s, t') && t'.obj.gone && t'.cloud.pools == t.cloud.pools && t'.ledger == t.ledger
  {
    Lists(DELETING, y);
    Misses(s, t, p);
    var facts, d := {FinalizerOn, NameListed, DeleteOk}, DeletedCondition(0);
    Noted(s, t, p, p, facts, d, [DELETING, y, d]);
    LetsGo(s, t, p.(conditions := [DELETING, y, d]), facts);
  }

  /** Deletion is accepted although the pool is not where it was asked for. */
  lemma Misses(s: State, t: State, p: Status)
    requires Reaches(s, Running(t, p, p, {FinalizerOn})) && t.obj.deleting && !MarkedDeleted(p)
    requires t.cloud.clusters != {} && Ref(p) !in t.cloud.pools
    ensures Reaches(s, Running(t, p, p, {FinalizerOn, NameListed, DeleteOk}))
  {
    var t0, t1 := Running(t, p, p, {FinalizerOn}), Running(t, p, p, {FinalizerOn, NameListed});
    Then(s, t0, NameLookup(true));
    assert {FinalizerOn} + {NameListed} == {FinalizerOn, NameListed};
    assert Apply(t0, NameLookup(true)) == t1;
    Then(s, t1, PoolDelete(Accepted));
    assert {FinalizerOn, NameListed} + {DeleteOk} == {FinalizerOn, NameListed, DeleteOk};
    assert t.cloud.pools - {Ref(p)} == t.cloud.pools;
  }

  lemma LetsGo(s: State, t: State, p: Status, facts: set<Fact>)
    requires Reaches(s, Running(t, p, p, facts)) && t.obj.deleting && !t.obj.wait
    requires |p.conditions| == 3 && p.conditions[2] == DeletedCondition(0)
    ensures exists t' :: Reaches(s, t') && t'.obj.gone && t'.cloud.pools == t.cloud.pools && t'.ledger == t.ledger
  {
    var t0 := Running(t, p, p, facts);
    assert EqualCondition(DeletedCondition(0), p.conditions[2]);
    Then(s, t0, RemoveFinalizer(Accepted));
    assert Apply(t0, RemoveFinalizer(Accepted)).obj.gone;
  }

  /** One swallowed conflict on the patch of the cluster's ID: the pool is created in the cluster,
      deletion asks for it under no ID, and the object goes while the pool stays. */
  lemma LostIdentityLeaks()
    ensures Init(Fresh(false))
    ensures exists t :: Reaches(Fresh(false), t) && t.obj.gone && t.cloud.pools.Keys == {PoolRef(ID, false)}
                     && !t.ledger.misled
  {
    Creates(false, Swallowed);
    Deletes(Fresh(false), Placed(false, Swallowed, [ENDED, EXISTS]), ENDED, EXISTS);
  }

  /** One swallowed error in a lookup by ID makes a hosted cluster look classic ... */
  lemma Forgets(s: State, t: State, p: Status)
    requires Reaches(s, Running(t, p, p, {FinalizerOn})) && !t.obj.deleting && !t.obj.gone && p.clusterID != ""
    requires p.conditions != []
    ensures Reaches(s, Running(t.(ledger := Ledger(t.ledger.splitLost, true, t.ledger.faults + 1)),
                               p.(hosted := false), p.(hosted := false), {FinalizerOn}))
  {
    var t0 := Running(t, p, p, {FinalizerOn});
    Then(s, t0, Upstream(Broken));
    var t1 := Apply(t0, Upstream(Broken));
    Then(s, t1, Patch(Applied));
    assert {FinalizerOn} + {} == {FinalizerOn};
  }

  lemma Rereads()
    ensures var t := Placed(true, Applied, [ENDED, EXISTS]); var p := t.obj.persisted.(conditions := [BEGUN, EXISTS]);
      Reaches(Fresh(true), Running(t, p, p, {FinalizerOn}))
  {
    var s, t := Fresh(true), Placed(true, Applied, [ENDED, EXISTS]);
    Creates(true, Applied);
    Lists(ENDED, EXISTS);
    Then(s, t, Start);
    var p := t.obj.persisted;
    Noted(s, t, p, p, {FinalizerOn}, BEGUN, [BEGUN, EXISTS]);
  }

  lemma Misleads()
    ensures var t := Placed(true, Applied, [BEGUN, MISSING]);
      Reaches(Fresh(true), t.(obj := t.obj.(persisted := t.obj.persisted.(hosted := false)),
                              ledger := Ledger(false, true, 1)))
  {
    var s, t := Fresh(true), Placed(true, Applied, [ENDED, EXISTS]);
    Rereads();
    Forgets(s, t, Status([BEGUN, EXISTS], ID, true));
    Lists(BEGUN, EXISTS);
    var p, base := Status([BEGUN, EXISTS], ID, false), t.(ledger := Ledger(false, true, 1));
    Noted(s, base, p, p, {FinalizerOn}, MISSING, [BEGUN, MISSING]);
    Ends(s, base, p.(conditions := [BEGUN, MISSING]), p.(conditions := [BEGUN, MISSING]), {FinalizerOn});
  }

  /** ... and deletion then asks for a machine pool where a node pool is. */
  lemma SwallowedErrorLeaks()
    ensures Init(Fresh(true))
    ensures exists t :: Reaches(Fresh(true), t) && t.obj.gone && t.cloud.pools.Keys == {PoolRef(ID, true)}
                     && !t.ledger.splitLost
  {
    Misleads();
    var t := Placed(true, Applied, [BEGUN, MISSING]);
    var misled := t.(obj := t.obj.(persisted := t.obj.persisted.(hosted := false)), ledger := Ledger(false, true, 1));
    Deletes(Fresh(true), misled, BEGUN, MISSING);
  }
}
