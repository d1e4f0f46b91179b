/** The ROSA cluster reconciler: NewRequest, the phases of create and delete, and their order.
    Remote answers are chosen freely; every step is recorded as an event of the protocol. */
module RosaReconciler {
  import opened Conditions
  import opened StatusPatch
  import opened Requests
  import opened RosaProtocol
  import opened RosaInvariants
  import opened OperatorRoles
  import Versions
  import RosaSpec
  import GoValues

  datatype Phase =
    | GetCurrentStatePhase | ApplyClusterPhase | WaitUntilReadyPhase | CompletePhase
    | FindChildObjectsPhase | DestroyClusterPhase | WaitUntilMissingPhase
    | DestroyOperatorRolesPhase | DestroyOIDCPhase | CompleteDestroyPhase

  const CREATE_PHASES := [GetCurrentStatePhase, ApplyClusterPhase, WaitUntilReadyPhase, CompletePhase]
  const DELETE_PHASES := [FindChildObjectsPhase, DestroyClusterPhase, WaitUntilMissingPhase,
                          DestroyOperatorRolesPhase, DestroyOIDCPhase, CompleteDestroyPhase]

  predicate Follows(p: Phase, q: Phase) {
    match p
    case GetCurrentStatePhase => q == ApplyClusterPhase
    case ApplyClusterPhase => q == WaitUntilReadyPhase
    case WaitUntilReadyPhase => q == CompletePhase
    case FindChildObjectsPhase => q == DestroyClusterPhase
    case DestroyClusterPhase => q == WaitUntilMissingPhase
    case WaitUntilMissingPhase => q == DestroyOperatorRolesPhase
    case DestroyOperatorRolesPhase => q == DestroyOIDCPhase
    case DestroyOIDCPhase => q == CompleteDestroyPhase
    case _ => false
  }

  predicate IsDelete(p: Phase) {
    !p.GetCurrentStatePhase? && !p.ApplyClusterPhase? && !p.WaitUntilReadyPhase? && !p.CompletePhase?
  }

  /** Each phase relies on the one before it; the last one completes the create or the delete. */
  predicate Chained(phases: seq<Phase>, deletes: bool) {
    && |phases| > 0 && phases[|phases| - 1] == (if deletes then CompleteDestroyPhase else CompletePhase)
    && (forall i :: 0 <= i < |phases| ==> IsDelete(phases[i]) == deletes)
    && (forall i :: 0 <= i < |phases| - 1 ==> Follows(phases[i], phases[i + 1]))
  }

  lemma PhasesChained()
    ensures Chained(CREATE_PHASES, false) && Chained(DELETE_PHASES, true)
  {
  }

  /** The results of a run are those of the shortest prefix of its phases that ends in an error or
      a requeue, or of all phases if none does. */
  predicate ShortestPrefix(results: seq<Result>, count: nat, outcome: Result) {
    && 0 < |results| <= count
    && (forall i :: 0 <= i < |results| - 1 ==> results[i] == Next)
    && outcome == results[|results| - 1]
    && (|results| < count ==> outcome != Next)
  }

  /** A phase that was run, and what it returned. */
  datatype Ran = Ran(phase: Phase, result: Result)

  function Runs(phases: seq<Phase>, results: seq<Result>): seq<Ran>
    requires |results| <= |phases|
  {
    seq(|results|, i requires 0 <= i < |results| => Ran(phases[i], results[i]))
  }

  lemma RunsMore(phases: seq<Phase>, results: seq<Result>, r: Result)
    requires |results| < |phases|
    ensures Runs(phases, results + [r]) == Runs(phases, results) + [Ran(phases[|results|], r)]
  {
  }

  /** Only the phases that wait for something requeue, and the last one of a create always stops. */
  predicate Possible(p: Phase, r: Result) {
    match p
    case WaitUntilReadyPhase => r != Error
    case CompletePhase => r != Next
    case FindChildObjectsPhase => true
    case WaitUntilMissingPhase => true
    case _ => r != Requeue
  }

  /** The state of the cluster in OCM; an absent cluster has none. */
  datatype ClusterState = NoState | ReadyState | ErrorState | UninstallingState | OtherState

  function Landed(p: Status, snapshot: Status, m: Status, o: PatchOutcome): Status {
    if Persists(o) then Merge(p, snapshot, m) else p
  }

  /** Memory is ahead of the server, in the terms a request uses. */
  lemma AheadOfServer(s: State, es: seq<Event>)
    requires Init(s) && Legal(s, es)
    ensures MemoryAhead(Exec(s, es)) && WritesTracked(Exec(s, es)) && ConditionsAhead(Exec(s, es))
  {
    assert Unfold(0);
    LegalMemory(s, es);
  }

  /** The version of a request: the newest with the wanted raw ID, or the newest of all if none is wanted. */
  predicate Fits(v: Versions.Version, listing: seq<Versions.Version>, wanted: string) {
    if wanted == "" then Versions.IsNewest(v, listing) else Versions.IsNewestOf(v, listing, wanted)
  }

  /** The version object of a request, and the listing it was chosen from. An answer without
      identifiers is of no use. */
  method ChooseVersion(wanted: string)
    returns (r: GoValues.Option<Versions.Version>, ghost listing: seq<Versions.Version>)
    ensures r.Some? ==> Fits(r.value, listing, wanted) && r.value.id != "" && r.value.rawID != ""
  {
    var answer: seq<Versions.Version>, failing: nat := *, *;
    listing := answer;
    var found;
    if wanted == "" {
      found := Versions.GetDefaultVersion(answer, failing);
    } else {
      found := Versions.GetVersionObject(answer, wanted, failing == 1);
    }
    if found.Ok? && found.value.id != "" && found.value.rawID != "" {
      return GoValues.Some(found.value), listing;
    }
    return GoValues.None, listing;
  }

  /** What a one-shot condition records has been done in this reconcile. */
  predicate Earned(r: Run, t: ConditionType)
    requires r.Active?
  {
    match t
    case ClusterCreated => CreateOk in r.facts
    case ClusterUpdated => !r.deletes && SawListed in r.facts
    case ClusterUninstalling => DeleteOk in r.facts
    case OperatorRolesDeleted => RolesGone in r.facts
    case OIDCProviderDeleted => ConfigGone in r.facts
    case OIDCConfigDeleted => ProviderGone in r.facts
    case _ => false
  }

  /** What makes a delete reconcile wait: a child object, or a cluster that OCM still lists. */
  predicate Waits(e: Event) {
    (e.ScanChildren? && !NoChild(e.id, e.kinds)) || e == Lookup(true)
  }

  /** OCM is asked to delete a cluster. */
  predicate Asks(es: seq<Event>) {
    exists i :: 0 <= i < |es| && es[i].ClusterDelete?
  }

  /** One more request is served, and no grant was lost. */
  lemma GrantedMore(managed: bool, prefix: string, requests: seq<CredentialRequest>, i: nat, policies: seq<Policy>,
                    before: set<Grant>, after: set<Grant>)
    requires i < |requests| && before <= after && Granted(managed, prefix, requests[..i], policies, before)
    requires Granted(managed, prefix, [requests[i]], policies, after)
    ensures Granted(managed, prefix, requests[..i + 1], policies, after)
  {
    assert requests[..i + 1] == requests[..i] + [requests[i]];
    assert requests[i] in [requests[i]];
  }

  lemma LookedUp(facts: set<Fact>, listed: bool)
    ensures CallFacts(facts, Lookup(listed)) ==
            facts - {SawMissing, SawListed} + if listed then {SawListed} else {SawMissing}
  {
  }

  /** Either an error before the first phase, or the journal of what the phase handler ran. */
  predicate Handled(phases: seq<Phase>, results: seq<Result>, r: Result, before: seq<Ran>, after: seq<Ran>) {
    && |results| <= |phases| && after == before + Runs(phases, results)
    && if results == [] then r == Error else ShortestPrefix(results, |phases|, r)
  }

  const RECONCILED := Condition(Reconciling, false, TriggerCreate, ReconcilingStop, 0, 0)

  const TEARDOWN := {OperatorRolesDeleted, OIDCProviderDeleted, OIDCConfigDeleted}

  /** A cluster sent to OCM: to be created, or to be updated under an ID. */
  datatype Sending = Sending(id: string, request: RosaSpec.OCMCluster)

  /** The longer list continues the shorter one with copies of one entry. */
  predicate Extends(before: seq<Sending>, after: seq<Sending>, entry: Sending) {
    before <= after && forall i :: |before| <= i < |after| ==> after[i] == entry
  }

  /** The phases a reconciler ran, and what it asked OCM to create or to update, in order. */
  class Journal {
    ghost var ran: seq<Ran>
    ghost var sent: seq<Sending>

    constructor ()
      ensures ran == [] && sent == []
    {
      ran, sent := [], [];
    }

    ghost method Add(p: Phase, r: Result)
      modifies this`ran
      ensures ran == old(ran) + [Ran(p, r)]
    {
      ran := ran + [Ran(p, r)];
    }

    ghost method Send(entry: Sending)
      modifies this`sent
      ensures sent == old(sent) + [entry]
    {
      sent := sent + [entry];
    }
  }

  class Reconciler {
    const name: string
    const cluster: RosaSpec.ClusterSpec
    const spec: Spec

    // the API server, OCM and AWS
    var obj: Resource
    var cloud: Cloud

    // the phases run so far
    const journal: Journal

    // the request
    var busy: bool
    var original: Status
    var desired: Status
    var hasFinalizer: bool
    var deletes: bool
    var prefix: string
    var version: string
    var found: bool
    var current: RosaSpec.ClusterSpec
    var state: ClusterState

    ghost const init: State
    ghost var trace: seq<Event>
    ghost var now: State

    /** The recorded trace is a legal history that leads to `now`. */
    ghost predicate Sound()
      reads this
    {
      forall k :: Unfold(k) ==> Init(init) && Legal(init, trace) && now == Exec(init, trace)
    }

    ghost predicate Valid()
      reads this
    {
      Sound() && Mirrors()
    }

    /** The protocol state is the state of the world and of the request. */
    ghost predicate Mirrors()
      reads this
    {
      && now.spec == spec && now.obj == obj && now.cloud == cloud
      && (busy <==> now.run.Active?)
      && (busy ==>
           && now.run.mem == original && now.run.start == desired && now.run.prefix == prefix
           && now.run.version == version
           && now.run.deletes == deletes && (hasFinalizer <==> FinalizerOn in now.run.facts))
    }

    // ---- Recording ----

    ghost method Record(e: Event)
      requires Sound() && Enabled(now, e)
      modifies this`trace, this`now
      ensures Sound() && trace == old(trace) + [e] && now == Apply(old(now), e)
    {
      assert Unfold(0);
      Extend(init, trace, e);
      trace := trace + [e];
      now := Apply(now, e);
    }

    ghost method Called(e: Event)
      requires Sound() && IsCall(e) && CanCall(now, e)
      modifies this`trace, this`now
      ensures Sound() && trace == old(trace) + [e]
      ensures now == old(now).(cloud := CallCloud(old(now.cloud), e), run := now.run, ledger := now.ledger)
      ensures now.run == old(now.run).(facts := CallFacts(old(now.run.facts), e))
      ensures now.ledger.faults == old(now.ledger.faults) + if FaultyCall(e) then 1 else 0
    {
      Record(e);
    }

    ghost method Wrote(e: Event)
      requires Sound() && IsWrite(e) && CanWrite(now, e)
      modifies this`trace, this`now
      ensures Sound() && trace == old(trace) + [e]
      ensures now == old(now).(run := WriteRun(old(now.run), e), ledger := now.ledger)
      ensures now.ledger.faults == old(now.ledger.faults)
    {
      Record(e);
    }

    ghost method Created(e: Event)
      requires Sound() && IsCreate(e) && CanCreate(now, e)
      modifies this`trace, this`now
      ensures Sound() && trace == old(trace) + [e]
      ensures now == old(now).(cloud := CreateCloud(old(now.cloud), e), run := CreateRun(old(now.run), e),
          ledger := now.ledger)
      ensures now.ledger.faults == old(now.ledger.faults) + if e.made.Made? then 0 else 1
    {
      Record(e);
    }

    ghost method Patched(snapshot: Status, o: PatchOutcome)
      requires Sound() && CanPatch(now, snapshot, o)
      modifies this`trace, this`now
      ensures Sound() && trace == old(trace) + [Patch(snapshot, o)]
      ensures now == old(now).(obj := now.obj, run := now.run, ledger := now.ledger)
      ensures now.obj == old(now.obj).(persisted := Landed(old(now.obj.persisted), snapshot, old(now.run.mem), o))
      ensures now.run.Active?
      ensures now.run == old(now.run).(
        mem := if o.Applied? then Decode(now.obj.persisted, old(now.run.mem)) else old(now.run.mem),
        deletes := now.run.deletes,
        unsaved := old(now.run.unsaved) - Covered(snapshot, old(now.run.mem)), failed := o.Failed?)
      ensures Resolved(old(now.run)) ==> now.run.deletes == old(now.run.deletes)
      ensures !Resolved(old(now.run)) ==> now.run.deletes == (old(now.run.deletes) || (o.Applied? && now.obj.deleting))
      ensures now.ledger.faults == old(now.ledger.faults) + if o.Applied? then 0 else 1
    {
      Record(Patch(snapshot, o));
    }

    /** A call to OCM or AWS, with the answer the environment gave. */
    method Remote(e: Event)
      requires Valid() && busy && IsCall(e) && CanCall(now, e)
      modifies this`cloud, this`trace, this`now
      ensures Valid() && trace == old(trace) + [e]
      ensures cloud == CallCloud(old(cloud), e)
      ensures now.run == old(now.run).(facts := CallFacts(old(now.run.facts), e))
      ensures now.ledger.faults == old(now.ledger.faults) + if FaultyCall(e) then 1 else 0
    {
      CallFactsFrame(now.run.facts, e);
      cloud := CallCloud(cloud, e);
      Called(e);
    }

    /** A call that fails, or an answer that cannot be used. */
    method Fail()
      requires Valid() && busy && Going(now)
      modifies this`cloud, this`trace, this`now
      ensures Valid() && now.run == old(now.run) && old(trace) < trace && cloud == old(cloud)
      ensures now.ledger.faults == old(now.ledger.faults) + 1
    {
      Remote(Fault);
    }

    // ---- pkg/kubernetes and controllers/conditions ----

    lemma DecodeKeeps(snapshot: Status)
      requires Valid() && busy
      requires snapshot.version == original.version <==> snapshot.versionID == original.versionID
      ensures var p := Merge(obj.persisted, snapshot, original);
        var d := Decode(p, original);
        && d == original.(conditions := d.conditions, clusterID := d.clusterID)
        && (snapshot.conditions != original.conditions ==> d.conditions == original.conditions)
        && (snapshot.clusterID != original.clusterID ==> d.clusterID == original.clusterID)
        && (forall t :: OneShot(t) && Has(d, t) ==> Has(original, t))
    {
      assert Unfold(0);
      AheadOfServer(init, trace);
      PatchAhead(obj.persisted, snapshot, original);
      DecodeAhead(Merge(obj.persisted, snapshot, original), original);
    }

    ghost method UserDeleted()
      requires Sound() && !now.obj.gone && !now.obj.deleting
      modifies this`trace, this`now
      ensures Sound() && trace == old(trace) + [UserDelete]
      ensures now == old(now).(obj := old(now.obj).(deleting := true, gone := !old(now.obj.finalizer)))
    {
      Record(UserDelete);
    }

    /** The user may ask for deletion at any time; an object without finalizers is gone at once. */
    method Meanwhile()
      requires Valid()
      modifies this`obj, this`trace, this`now
      ensures Valid() && old(trace) <= trace && now == old(now).(obj := obj)
      ensures obj == old(obj).(deleting := obj.deleting, gone := obj.gone) && (old(obj.deleting) ==> obj == old(obj))
    {
      var asked: bool := *;
      if asked && !obj.gone && !obj.deleting {
        obj := obj.(deleting := true, gone := !obj.finalizer);
        UserDeleted();
      }
    }

    /** The patch request itself; a conflict and other errors are told apart by the caller. */
    method SendPatch(snapshot: Status) returns (o: PatchOutcome)
      requires Valid() && busy && !now.run.failed && Resolved(now.run)
      requires snapshot.version == original.version <==> snapshot.versionID == original.versionID
      modifies this`obj, this`original, this`trace, this`now
      ensures Valid() && old(trace) < trace
      ensures obj.persisted == Landed(old(obj.persisted), snapshot, old(original), o)
      ensures original == if o.Applied? then Decode(obj.persisted, old(original)) else old(original)
      ensures now.run == old(now.run).(mem := original, failed := o.Failed?,
                                       unsaved := old(now.run.unsaved) - Covered(snapshot, old(original)))
      ensures now.ledger.faults == old(now.ledger.faults) + if o.Applied? then 0 else 1
    {
      o := AnswerPatch(obj.gone);
      Patched(snapshot, o);
      obj := obj.(persisted := Landed(obj.persisted, snapshot, original, o));
      original := if o.Applied? then Decode(obj.persisted, original) else original;
    }

    /** kubernetes.PatchStatus: a conflict is reported as a success. */
    method PatchStatus(snapshot: Status) returns (err: bool, ghost o: PatchOutcome)
      requires Valid() && busy && !now.run.failed && Resolved(now.run)
      requires snapshot.version == original.version <==> snapshot.versionID == original.versionID
      modifies this`obj, this`original, this`trace, this`now
      ensures Valid() && err == o.Failed? && old(trace) < trace
      ensures obj.persisted == Landed(old(obj.persisted), snapshot, old(original), o)
      ensures original == old(original).(conditions := original.conditions, clusterID := original.clusterID)
      ensures snapshot.conditions != old(original.conditions) ==> original.conditions == old(original.conditions)
      ensures snapshot.clusterID != old(original.clusterID) ==> original.clusterID == old(original.clusterID)
      ensures forall t :: OneShot(t) && Has(original, t) ==> Has(old(original), t)
      ensures now.run == old(now.run).(mem := original, failed := err,
                                       unsaved := old(now.run.unsaved) - Covered(snapshot, old(original)))
      ensures now.ledger.faults == old(now.ledger.faults) + if o.Applied? then 0 else 1
    {
      DecodeKeeps(snapshot);
      Meanwhile();
      var outcome := SendPatch(snapshot);
      return outcome.Failed?, outcome;
    }

    /** A patch request of NewRequest: the answer also tells whether the object is being deleted. */
    method SendFirst(snapshot: Status) returns (o: PatchOutcome)
      requires Valid() && busy && !now.run.failed && !Resolved(now.run)
      requires snapshot.version == original.version <==> snapshot.versionID == original.versionID
      modifies this`obj, this`original, this`deletes, this`trace, this`now
      ensures Valid() && old(trace) < trace && deletes == (old(deletes) || (o.Applied? && obj.deleting))
      ensures obj.persisted == Landed(old(obj.persisted), snapshot, old(original), o)
      ensures original == if o.Applied? then Decode(obj.persisted, old(original)) else old(original)
      ensures now.run == old(now.run).(mem := original, deletes := deletes, failed := o.Failed?,
                                       unsaved := old(now.run.unsaved) - Covered(snapshot, old(original)))
      ensures now.ledger.faults == old(now.ledger.faults) + if o.Applied? then 0 else 1
    {
      o := AnswerPatch(obj.gone);
      Patched(snapshot, o);
      obj := obj.(persisted := Landed(obj.persisted, snapshot, original, o));
      original := if o.Applied? then Decode(obj.persisted, original) else original;
      deletes := deletes || (o.Applied? && obj.deleting);
    }

    /** The patches of NewRequest; the trigger is read off the object after them. */
    method PatchFirst(snapshot: Status) returns (err: bool)
      requires Valid() && busy && !now.run.failed && !Resolved(now.run)
      requires snapshot.version == original.version <==> snapshot.versionID == original.versionID
      modifies this`obj, this`original, this`deletes, this`trace, this`now
      ensures Valid() && old(trace) < trace && (old(deletes) ==> deletes) && (deletes ==> obj.deleting || old(deletes))
      ensures original == old(original).(conditions := original.conditions, clusterID := original.clusterID)
      ensures now.run == old(now.run).(mem := original, deletes := deletes, failed := err,
                                       unsaved := old(now.run.unsaved) - Covered(snapshot, old(original)))
      ensures now.ledger.faults >= old(now.ledger.faults) + if err then 1 else 0
    {
      DecodeKeeps(snapshot);
      Meanwhile();
      var o := SendFirst(snapshot);
      err := o.Failed?;
    }

    /** Between phases: the request goes on and every status write has been sent. */
    ghost predicate Ready()
      reads this
    {
      Valid() && busy && Prepared(now) && now.run.unsaved == {}
    }

    /** conditions.Update */
    method UpdateCondition(c: Condition) returns (err: bool)
      requires Ready()
      requires !IsSet(c, original.conditions) ==> CanNote(now, c)
      modifies this`obj, this`original, this`trace, this`now
      ensures Valid() && old(trace) <= trace
      ensures original == old(original).(conditions := Updated(old(original.conditions), c),
          clusterID := original.clusterID)
      ensures now.run == old(now.run).(mem := original, failed := err)
      ensures IsSet(c, old(original.conditions)) ==> !err && trace == old(trace) && original == old(original)
      ensures !IsSet(c, old(original.conditions)) ==> old(trace) + [Note(c)] < trace
      ensures now.ledger.faults >= old(now.ledger.faults) + if err then 1 else 0
    {
      var already := CheckIsSet(c, original.conditions);
      if already {
        return false;
      }
      var snapshot := original;
      var updated := ComputeAddCondition(original.conditions, c);
      original := original.(conditions := updated);
      Wrote(Note(c));
      ghost var o;
      err, o := PatchStatus(snapshot);
    }

    /** notify: the condition that records what has just been done. */
    method Notify(t: ConditionType) returns (err: bool)
      requires Ready() && Earned(now.run, t)
      modifies this`obj, this`original, this`trace, this`now
      ensures Valid() && old(trace) <= trace
      ensures original == old(original).(conditions := original.conditions, clusterID := original.clusterID)
      ensures Has(original, t) && forall u :: OneShot(u) && Has(old(original), u) ==> Has(original, u)
      ensures now.run == old(now.run).(mem := original, failed := err)
      ensures now.ledger.faults >= old(now.ledger.faults) + if err then 1 else 0
    {
      var at: int := *;
      var c := RosaCondition(t, at);
      UpdateSets(original.conditions, c, RosaCondition(t, 0));
      forall u | OneShot(u)
        ensures Has(old(original), u) || u == t ==> IsSet(RosaCondition(u, 0), Updated(original.conditions, c))
      {
        NoteKeepsHas(original, c, u);
      }
      err := UpdateCondition(c);
    }

    // ---- NewRequest ----

    lemma PairedNow()
      requires Valid() && busy
      ensures Paired(original) && Paired(obj.persisted)
    {
      assert Unfold(0);
      AheadOfServer(init, trace);
    }

    ghost method Started()
      requires Sound() && now.run.Idle? && !now.obj.gone
      modifies this`trace, this`now
      ensures Sound() && trace == old(trace) + [Start]
      ensures now.spec == old(now.spec) && now.obj == old(now.obj) && now.cloud == old(now.cloud)
      ensures now.ledger == old(now.ledger)
      ensures now.run.Active? && now.run.start == now.run.mem == now.obj.persisted
      ensures now.run.prefix == "" == now.run.version && now.run.deletes == now.obj.deleting && !now.run.failed
      ensures now.run.facts == (if now.obj.finalizer then {FinalizerOn} else {}) && now.run.unsaved == {}
    {
      Record(Start);
    }

    /** The status fields createCluster writes are as they were read. */
    ghost predicate Untouched()
      reads this
    {
      && original.oidcConfigID == desired.oidcConfigID && original.oidcProviderARN == desired.oidcProviderARN
      && original.rolesCreated == desired.rolesCreated
    }

    /** The operator role prefix: the recorded one, else the spec's, else a random one. */
    method ResolvePrefix() returns (err: bool)
      requires Valid() && busy && Going(now) && prefix == "" && now.run.unsaved == {} && Untouched()
      modifies this`obj, this`original, this`deletes, this`prefix, this`trace, this`now
      ensures Valid() && old(trace) <= trace && prefix == original.rolesPrefix != "" && Untouched()
      ensures old(original.rolesPrefix) != "" ==> prefix == old(original.rolesPrefix)
      ensures old(original.rolesPrefix) == "" && spec.prefix != "" ==> prefix == spec.prefix
      ensures old(original.rolesPrefix) == "" && spec.prefix == "" ==>
        IsGenerated(prefix, RosaSpec.DisplayName(cluster, name))
      ensures now.run == old(now.run).(mem := original, prefix := prefix, deletes := deletes, failed := err)
      ensures old(deletes) ==> deletes
      ensures now.ledger.faults >= old(now.ledger.faults) + if err then 1 else 0
    {
      if original.rolesPrefix != "" {
        prefix := original.rolesPrefix;
        Wrote(PickPrefix(prefix));
        return false;
      }
      var chosen := spec.prefix;
      if chosen == "" {
        chosen := GeneratePrefix(RosaSpec.DisplayName(cluster, name));
      }
      var patched := original;
      original := original.(rolesPrefix := chosen);
      prefix := chosen;
      Wrote(PickPrefix(chosen));
      err := PatchFirst(patched);
    }

    /** The version to work with: the spec's, else the recorded one, else the newest of OCM's defaults. */
    method ResolveVersion() returns (err: bool, id: string, ghost listing: seq<Versions.Version>)
      requires Valid() && busy && Going(now) && version == "" && now.run.unsaved == {}
      modifies this`cloud, this`version, this`trace, this`now
      ensures Valid() && old(trace) <= trace
      ensures !err ==> version != "" && id != ""
      ensures !err && spec.version != "" ==> version == spec.version
      ensures !err && spec.version == "" && desired.version != "" ==> version == desired.version
      ensures !err ==> exists v ::
        v in listing && v.rawID == version && v.id == id
        && Fits(v, listing, if spec.version != "" then spec.version else desired.version)
      ensures now.run == old(now.run).(version := version)
      ensures now.ledger.faults >= old(now.ledger.faults) + if err then 1 else 0
    {
      var wanted := if spec.version != "" then spec.version else desired.version;
      var chosen;
      chosen, listing := ChooseVersion(wanted);
      if chosen.None? {
        Fail();
        return true, "", listing;
      }
      version := if wanted == "" then chosen.value.rawID else wanted;
      id := chosen.value.id;
      Wrote(PickVersion(version));
      return false, id, listing;
    }

    /** setVersion: version and ID are recorded together, if no ID is recorded yet. */
    method SetVersion() returns (err: bool, ghost listing: seq<Versions.Version>)
      requires Valid() && busy && Going(now) && version == "" && prefix != "" && now.run.unsaved == {} && Untouched()
      modifies this`obj, this`cloud, this`original, this`deletes, this`version, this`trace, this`now
      ensures Valid() && old(trace) <= trace && Untouched() && original.rolesPrefix == old(original.rolesPrefix)
      ensures !err ==> version != "" && original.versionID != ""
      ensures old(original.versionID) != "" ==>
        original.version == old(original.version) && original.versionID == old(original.versionID)
      ensures old(original.versionID) == "" && !err ==>
        && original.version == version && SetVersionID(original.versionID) in trace[|old(trace)|..]
        && exists v :: v in listing && v.rawID == version && v.id == original.versionID
      ensures Paired(original) && Paired(obj.persisted)
      ensures now.run == old(now.run).(mem := original, version := version, deletes := deletes,
          failed := now.run.failed)
      ensures (!err ==> !now.run.failed) && (old(deletes) ==> deletes)
      ensures now.ledger.faults >= old(now.ledger.faults) + if err then 1 else 0
    {
      var id;
      err, id, listing := ResolveVersion();
      PairedNow();
      if !err && original.versionID == "" {
        err := RecordVersion(id);
      }
    }

    method RecordVersion(id: string) returns (err: bool)
      requires Valid() && busy && Going(now) && version != "" && prefix != "" && now.run.unsaved == {}
      requires original.versionID == "" != id && Paired(original)
      modifies this`obj, this`original, this`deletes, this`trace, this`now
      ensures Valid() && old(trace) < trace && SetVersionID(id) in trace[|old(trace)|..]
      ensures original == old(original).(version := version, versionID := id,
                                         conditions := original.conditions, clusterID := original.clusterID)
      ensures Paired(obj.persisted)
      ensures now.run == old(now.run).(mem := original, deletes := deletes, failed := err) && (old(deletes) ==> deletes)
      ensures now.ledger.faults >= old(now.ledger.faults) + if err then 1 else 0
    {
      var snapshot := original;
      original := original.(version := version, versionID := id);
      Wrote(SetVersionID(id));
      assert trace[|old(trace)|] == SetVersionID(id);
      err := PatchFirst(snapshot);
      assert trace[|old(trace)|] == SetVersionID(id);
      PairedNow();
    }

    /** What is being deleted and still there has the finalizer; a delete reconcile has seen it. */
    lemma FinalizerNow()
      requires Valid()
      ensures obj.deleting && !obj.gone ==> obj.finalizer
      ensures busy && deletes ==> hasFinalizer && obj.deleting
    {
      assert Unfold(0);
      LegalDeletion(init, trace);
    }

    /** The read of the object, and the empty request made from it. */
    method Begin()
      requires Valid() && !busy && !obj.gone
      modifies this`busy, this`original, this`desired, this`found, this`state, this`hasFinalizer, this`deletes,
               this`prefix, this`version, this`trace, this`now
      ensures Valid() && busy && Going(now) && now.run.unsaved == {} && old(trace) < trace
      ensures prefix == "" == version && original == desired && !found && deletes == obj.deleting
      ensures now.run.facts == (if obj.finalizer then {FinalizerOn} else {}) && now.ledger == old(now.ledger)
    {
      Started();
      original, desired := obj.persisted, obj.persisted;
      found, state := false, NoState;
      hasFinalizer, deletes := obj.finalizer, obj.deleting;
      prefix, version, busy := "", "", true;
    }

    method NewRequest() returns (err: bool)
      requires Valid() && !busy && !obj.gone
      modifies this
      ensures Valid() && busy && now.run.unsaved == {} && old(trace) <= trace && !found
      ensures (old(obj.deleting) ==> deletes) && (deletes ==> hasFinalizer && obj.deleting)
      ensures !err ==> Ready() && Untouched() && original.versionID != ""
      ensures !err ==> now.run.facts == if old(obj.finalizer) then {FinalizerOn} else {}
      ensures now.ledger.faults >= old(now.ledger.faults) + if err then 1 else 0
    {
      Begin();
      err := ResolvePrefix();
      if !err {
        ghost var listing;
        err, listing := SetVersion();
      }
      FinalizerNow();
    }

    // ---- What others do meanwhile ----

    ghost method Drifted(mine: set<string>, foreign: bool)
      requires Sound() && mine <= now.cloud.mine
      modifies this`trace, this`now
      ensures Sound() && trace == old(trace) + [Drift(mine, foreign)]
      ensures now == old(now).(cloud := old(now.cloud).(mine := mine, foreign := foreign))
    {
      Record(Drift(mine, foreign));
    }

    /** Clusters disappear from OCM, and others take and leave the name, at any time. */
    method Elsewhere()
      requires Valid()
      modifies this`cloud, this`trace, this`now
      ensures Valid() && old(trace) < trace && now == old(now).(cloud := cloud)
      ensures cloud == old(cloud).(mine := cloud.mine, foreign := cloud.foreign)
    {
      var mine: set<string>, foreign: bool := *, *;
      mine := mine * cloud.mine;
      cloud := cloud.(mine := mine, foreign := foreign);
      Drifted(mine, foreign);
    }

    // ---- The phases of create and update ----

    ghost method FinalizerAdded(r: CallReply)
      requires Sound() && Prepared(now) && !now.run.deletes && FinalizerOn !in now.run.facts
      requires TookEffect(r) ==> !now.obj.gone && !now.obj.deleting
      modifies this`trace, this`now
      ensures Sound() && trace == old(trace) + [AddFinalizer(r)]
      ensures now == old(now).(obj := now.obj, run := now.run, ledger := now.ledger)
      ensures now.obj == old(now.obj).(finalizer := old(now.obj.finalizer) || TookEffect(r))
      ensures now.run == if r.Accepted? then old(now.run).(mem := Decode(now.obj.persisted, old(now.run.mem)),
                                                            facts := old(now.run.facts) + {FinalizerOn})
                         else old(now.run)
      ensures now.ledger.faults == old(now.ledger.faults) + if r.Rejected? then 1 else 0
    {
      Record(AddFinalizer(r));
    }

    /** controllers.AddFinalizer; the API server accepts no finalizer on what is being deleted. */
    method EnsureFinalizer() returns (err: bool)
      requires Ready() && !deletes && Untouched()
      modifies this`obj, this`original, this`hasFinalizer, this`trace, this`now
      ensures Valid() && old(trace) <= trace && now.run.unsaved == {}
      ensures !err ==> Ready() && hasFinalizer && Untouched() && original.versionID == old(original.versionID)
      ensures now.run.Active? && now.run.facts <= old(now.run.facts) + {FinalizerOn}
      ensures now.ledger.faults >= old(now.ledger.faults) + if err then 1 else 0
    {
      if hasFinalizer {
        return false;
      }
      DecodeKeeps(original);
      Meanwhile();
      var answer := Reply();
      var r := if obj.gone || obj.deleting then Rejected(false) else answer;
      FinalizerAdded(r);
      if TookEffect(r) {
        obj := obj.(finalizer := true);
      }
      if r.Rejected? {
        return true;
      }
      original := Decode(obj.persisted, original);
      hasFinalizer := true;
      return false;
    }

    /** ClusterClient.Get: OCM's answer to a search by name. */
    method LookUp() returns (err: bool, listed: bool)
      requires Ready()
      modifies this`cloud, this`trace, this`now
      ensures Valid() && Ready() && old(trace) < trace
      ensures err ==> now.run == old(now.run)
      ensures !err ==> now.run == old(now.run).(
        facts := old(now.run.facts) - {SawMissing, SawListed} + if listed then {SawListed} else {SawMissing})
      ensures !err ==> trace[|trace| - 1] == Lookup(listed) && (listed <==> cloud.mine != {} || cloud.foreign)
      ensures now.ledger.faults == old(now.ledger.faults) + if err then 1 else 0
    {
      Elsewhere();
      err := Fetch();
      listed := cloud.mine != {} || cloud.foreign;
      if !err {
        LookedUp(now.run.facts, listed);
        Remote(Lookup(listed));
      }
    }

    /** A create reconcile that has its finalizer and has not created the cluster. */
    ghost predicate MayApply()
      reads this
    {
      && Ready() && !deletes && hasFinalizer && CreateOk !in now.run.facts && Untouched()
      && original.versionID != ""
    }

    /** The current spec is the reading of this cluster. */
    ghost predicate ReadFrom(source: RosaSpec.OCMCluster)
      reads this`current
    {
      forall k :: Unfold(k) ==>
        RosaSpec.Reading(RosaSpec.DisplayName(cluster, name), source) == GoValues.Some(current)
    }

    method CopyCurrent(source: RosaSpec.OCMCluster) returns (err: bool)
      requires Valid() && busy && Going(now)
      modifies this`cloud, this`current, this`trace, this`now
      ensures Valid() && now.run == old(now.run) && old(trace) <= trace
      ensures !err ==> ReadFrom(source)
      ensures now.ledger.faults == old(now.ledger.faults) + if err then 1 else 0
    {
      var copy := RosaSpec.Read(RosaSpec.DisplayName(cluster, name), source);
      err := copy.None?;
      if err {
        Fail();
      } else {
        current := copy.value;
      }
    }

    /** GetCurrentState: the cluster OCM lists under the name, if any, copied into a spec. The panic on
        a role ARN without a slash counts as an error. */
    method GetCurrentState() returns (r: Result, ghost source: RosaSpec.OCMCluster)
      requires MayApply() && !found
      modifies this`cloud, this`found, this`current, this`state, this`trace, this`now
      ensures MayApply() && old(trace) < trace && r != Requeue
      ensures r == Next ==> if found then SawListed in now.run.facts else SawMissing in now.run.facts
      ensures r == Next && !found ==> state == old(state)
      ensures r == Next && found ==> ReadFrom(source)
      ensures now.ledger.faults >= old(now.ledger.faults) + if r == Error then 1 else 0
    {
      var answer: RosaSpec.OCMCluster := *;
      source := answer;
      var err, listed := LookUp();
      if err {
        return Error, source;
      }
      if !listed {
        return Next, source;
      }
      err := CopyCurrent(answer);
      if err {
        return Error, source;
      }
      found, state := true, *;
      return Next, source;
    }

    /** Inside createCluster, between its steps. */
    ghost predicate MayCreate()
      reads this
    {
      Valid() && busy && Creating(now) && now.run.unsaved == {} && original.versionID != ""
    }

    method RequestConfig() returns (err: bool)
      requires MayCreate() && original.oidcConfigID == ""
      modifies this`cloud, this`original, this`trace, this`now
      ensures Valid() && old(trace) < trace
      ensures err ==> original == old(original) && now.run == old(now.run)
      ensures !err ==> original == old(original).(oidcConfigID := original.oidcConfigID) && original.oidcConfigID != ""
      ensures !err ==> now.run == old(now.run).(mem := original, unsaved := {UnsavedConfig})
      ensures now.ledger.faults == old(now.ledger.faults) + if err then 1 else 0
    {
      var answer: CreateReply := *;
      var made := if NonEmptyID(answer) then answer else Refused;
      cloud := CreateCloud(cloud, ConfigCreate(made));
      original := if made.Made? then original.(oidcConfigID := made.id) else original;
      Created(ConfigCreate(made));
      err := !made.Made?;
    }

    method CreateConfig(snapshot: Status) returns (err: bool)
      requires MayCreate() && original.oidcConfigID == "" == snapshot.oidcConfigID
      requires snapshot.version == original.version && snapshot.versionID == original.versionID
      modifies this`obj, this`cloud, this`original, this`trace, this`now
      ensures Valid() && now.run.Active? && now.run.unsaved == {} && old(trace) <= trace
      ensures original == old(original).(oidcConfigID := original.oidcConfigID,
                                         conditions := original.conditions, clusterID := original.clusterID)
      ensures now.run == old(now.run).(mem := original, failed := now.run.failed)
      ensures !err ==> MayCreate() && original.oidcConfigID != ""
      ensures now.ledger.faults >= old(now.ledger.faults) + if err then 1 else 0
    {
      err := RequestConfig();
      if !err {
        ghost var o;
        err, o := PatchStatus(snapshot);
      }
    }

    method RequestProvider() returns (err: bool)
      requires MayCreate() && original.oidcProviderARN == "" && original.oidcConfigID != ""
      modifies this`cloud, this`original, this`trace, this`now
      ensures Valid() && old(trace) < trace
      ensures err ==> original == old(original) && now.run == old(now.run)
      ensures !err ==>
        original == old(original).(oidcProviderARN := original.oidcProviderARN) && original.oidcProviderARN != ""
      ensures !err ==> now.run == old(now.run).(mem := original, unsaved := {UnsavedProvider})
      ensures now.ledger.faults == old(now.ledger.faults) + if err then 1 else 0
    {
      var answer: CreateReply := *;
      var made := if NonEmptyID(answer) then answer else Refused;
      cloud := CreateCloud(cloud, ProviderCreate(made));
      original := if made.Made? then original.(oidcProviderARN := made.id) else original;
      Created(ProviderCreate(made));
      err := !made.Made?;
    }

    method CreateProvider(snapshot: Status) returns (err: bool)
      requires MayCreate() && original.oidcConfigID != "" && original.oidcProviderARN == "" == snapshot.oidcProviderARN
      requires snapshot.version == original.version && snapshot.versionID == original.versionID
      modifies this`obj, this`cloud, this`original, this`trace, this`now
      ensures Valid() && now.run.Active? && now.run.unsaved == {} && old(trace) <= trace
      ensures original == old(original).(oidcProviderARN := original.oidcProviderARN,
                                         conditions := original.conditions, clusterID := original.clusterID)
      ensures now.run == old(now.run).(mem := original, failed := now.run.failed)
      ensures !err ==> MayCreate() && original.oidcProviderARN != ""
      ensures now.ledger.faults >= old(now.ledger.faults) + if err then 1 else 0
    {
      err := RequestProvider();
      if !err {
        ghost var o;
        err, o := PatchStatus(snapshot);
      }
    }

    /** A remote read whose answer the life cycle does not depend on. */
    method Fetch() returns (err: bool)
      requires Valid() && busy && Going(now)
      modifies this`cloud, this`trace, this`now
      ensures Valid() && now.run == old(now.run) && old(trace) <= trace && cloud == old(cloud)
      ensures !err ==> trace == old(trace)
      ensures now.ledger.faults == old(now.ledger.faults) + if err then 1 else 0
    {
      err := *;
      if err {
        Fail();
      }
    }

    method EnsureOIDCProvider() returns (err: bool)
      requires MayCreate()
      modifies this`obj, this`cloud, this`original, this`trace, this`now
      ensures Valid() && now.run.Active? && now.run.unsaved == {} && old(trace) <= trace
      ensures original == old(original).(oidcConfigID := original.oidcConfigID,
                                         oidcProviderARN := original.oidcProviderARN,
                                         conditions := original.conditions, clusterID := original.clusterID)
      ensures old(original.oidcConfigID) != "" ==> original.oidcConfigID == old(original.oidcConfigID)
      ensures old(original.oidcProviderARN) != "" ==> original.oidcProviderARN == old(original.oidcProviderARN)
      ensures now.run == old(now.run).(mem := original, failed := now.run.failed)
      ensures !err ==> MayCreate() && original.oidcConfigID != "" && original.oidcProviderARN != ""
      ensures now.ledger.faults >= old(now.ledger.faults) + if err then 1 else 0
    {
      var snapshot := original;
      if original.oidcConfigID == "" {
        err := CreateConfig(snapshot);
      } else {
        err := Fetch();
      }
      if !err && original.oidcProviderARN == "" {
        err := CreateProvider(snapshot);
      }
    }

    /** The policy of one credential request: a managed one by its ID, else one made for it. */
    method ChoosePolicy(request: CredentialRequest, policies: seq<Policy>) returns (err: bool, policy: string)
      requires MayCreate() && !original.rolesCreated
      modifies this`cloud, this`trace, this`now
      ensures Valid() && now.run == old(now.run) && old(trace) <= trace
      ensures cloud == old(cloud).(policies := cloud.policies)
      ensures policy == PolicyFor(spec.managedPolicies, prefix, request, policies)
      ensures !err ==> if spec.managedPolicies then policy != "" else policy in cloud.policies
      ensures now.ledger.faults >= old(now.ledger.faults) + if err then 1 else 0
    {
      if spec.managedPolicies {
        policy := GetPolicyARNByID(PolicyKey(request), policies);
        err := policy == "";
        if err {
          Fail();
        }
      } else {
        policy := PolicyName(prefix, request);
        err := Fetch();
        if !err {
          Remote(EnsurePolicy(policy));
        }
      }
    }

    /** The role of one credential request and the attachment of its policy; either call may fail
        before or after it took effect. */
    method CreateRole(role: Role, policy: string) returns (err: bool)
      requires MayCreate() && !original.rolesCreated && role.prefix == prefix
      requires spec.managedPolicies || policy in cloud.policies
      modifies this`cloud, this`trace, this`now
      ensures Valid() && now.run == old(now.run) && old(trace) <= trace && old(cloud.grants) <= cloud.grants
      ensures !err ==> Grant(role, policy) in cloud.grants
      ensures now.ledger.faults >= old(now.ledger.faults) + if err then 1 else 0
    {
      err := Fetch();
      if err {
        return;
      }
      Remote(EnsureRole(role));
      err := Fetch();
      if err {
        return;
      }
      var reply := Reply();
      Remote(Attach(Grant(role, policy), reply));
      err := reply.Rejected?;
    }

    /** What one turn of the role loop does. */
    method ServeRequest(request: CredentialRequest, policies: seq<Policy>) returns (err: bool)
      requires MayCreate() && !original.rolesCreated
      modifies this`cloud, this`trace, this`now
      ensures Valid() && now.run == old(now.run) && old(trace) <= trace && old(cloud.grants) <= cloud.grants
      ensures !err ==> Granted(spec.managedPolicies, prefix, [request], policies, cloud.grants)
      ensures now.ledger.faults >= old(now.ledger.faults) + if err then 1 else 0
    {
      var policy;
      err, policy := ChoosePolicy(request, policies);
      if !err {
        err := CreateRole(Role(prefix, RoleName(prefix, request)), policy);
      }
    }

    /** STSClient.CreateOperatorRoles: one role with its policy per credential request. */
    method CreateRoles(requests: seq<CredentialRequest>, policies: seq<Policy>) returns (err: bool)
      requires MayCreate() && !original.rolesCreated
      modifies this`cloud, this`trace, this`now
      ensures Valid() && now.run == old(now.run) && old(trace) <= trace
      ensures !err ==> Granted(spec.managedPolicies, prefix, requests, policies, cloud.grants)
      ensures now.ledger.faults >= old(now.ledger.faults) + if err then 1 else 0
    {
      for i := 0 to |requests|
        invariant Valid() && now.run == old(now.run) && old(trace) <= trace
        invariant Granted(spec.managedPolicies, prefix, requests[..i], policies, cloud.grants)
        invariant now.ledger.faults >= old(now.ledger.faults)
      {
        ghost var before := cloud.grants;
        err := ServeRequest(requests[i], policies);
        if err {
          return;
        }
        GrantedMore(spec.managedPolicies, prefix, requests, i, policies, before, cloud.grants);
      }
      assert requests[..|requests|] == requests;
      err := false;
    }

    ghost method RolesReported(requests: seq<CredentialRequest>, policies: seq<Policy>)
      requires Sound() && Creating(now) && !now.run.mem.rolesCreated && requests == now.run.requests != []
      requires now.run.unsaved == {}
      requires Granted(now.spec.managedPolicies, now.run.prefix, requests, policies, now.cloud.grants)
      modifies this`trace, this`now
      ensures Sound() && trace == old(trace) + [RolesReady(old(now.run.prefix), requests, policies)]
      ensures now == old(now).(run := now.run, ledger := now.ledger) && now.run.Active?
      ensures now.run == old(now.run).(mem := old(now.run.mem).(rolesCreated := true), unsaved := {UnsavedRoles})
      ensures now.ledger.faults == old(now.ledger.faults)
    {
      Wrote(RolesReady(now.run.prefix, requests, policies));
    }

    /** The status flag that says every role has its policy. */
    method MarkRolesCreated(requests: seq<CredentialRequest>, policies: seq<Policy>) returns (err: bool)
      requires MayCreate() && !original.rolesCreated && requests == now.run.requests != []
      requires Granted(spec.managedPolicies, prefix, requests, policies, cloud.grants)
      modifies this`obj, this`original, this`trace, this`now
      ensures Valid() && now.run.Active? && now.run.unsaved == {} && old(trace) <= trace
      ensures old(trace) + [RolesReady(prefix, requests, policies)] <= trace
      ensures original == old(original).(rolesCreated := true, conditions := original.conditions,
                                         clusterID := original.clusterID)
      ensures now.run == old(now.run).(mem := original, failed := now.run.failed)
      ensures !err ==> MayCreate()
      ensures now.ledger.faults >= old(now.ledger.faults) + if err then 1 else 0
    {
      var snapshot := original;
      original := original.(rolesCreated := true);
      RolesReported(requests, policies);
      ghost var o;
      err, o := PatchStatus(snapshot);
    }

    /** createOperatorRoles: the flag is set only in a run where each request OCM listed has its role
        and the policy it asks for. */
    method CreateOperatorRoles() returns (err: bool)
      requires MayCreate() && !original.rolesCreated
      modifies this`obj, this`cloud, this`original, this`trace, this`now
      ensures Valid() && now.run.Active? && now.run.unsaved == {} && old(trace) <= trace
      ensures original == old(original).(rolesCreated := original.rolesCreated,
                                         conditions := original.conditions, clusterID := original.clusterID)
      ensures now.run == old(now.run).(mem := original, requests := now.run.requests, failed := now.run.failed)
      ensures original.rolesCreated ==> exists policies ::
        RolesReady(prefix, now.run.requests, policies) in trace[|old(trace)|..] && now.run.requests != []
        && Granted(spec.managedPolicies, prefix, now.run.requests, policies, cloud.grants)
      ensures !err ==> MayCreate() && original.rolesCreated
      ensures now.ledger.faults >= old(now.ledger.faults) + if err then 1 else 0
    {
      var listing: seq<CredentialRequest>, policies: seq<Policy> := *, *;
      err := Fetch();
      if err {
        return;
      }
      Wrote(ListRequests(listing));
      if |listing| == 0 {
        Fail();
        return true;
      }
      err := CreateRoles(listing, policies);
      if !err {
        ghost var before := trace;
        err := MarkRolesCreated(listing, policies);
        assert trace[|before|] == RolesReady(prefix, listing, policies);
      }
    }

    lemma TrackedNow()
      requires Valid() && busy
      ensures OldOrNewest(obj.persisted, original, desired)
    {
      assert Unfold(0);
      AheadOfServer(init, trace);
    }

    ghost method ClusterMade(made: CreateReply)
      requires Sound() && now.run.Active? && CanCreate(now, ClusterCreate(now.run.mem.versionID, made))
      modifies this`trace, this`now
      ensures Sound() && trace == old(trace) + [ClusterCreate(old(now.run.mem.versionID), made)]
      ensures now == old(now).(cloud := now.cloud, run := now.run, ledger := now.ledger) && now.run.Active?
      ensures now.cloud == CreateCloud(old(now.cloud), ClusterCreate(old(now.run.mem.versionID), made))
      ensures FinalizerOn in now.run.facts <==> FinalizerOn in old(now.run.facts)
      ensures made.Made? ==> CreateOk in now.run.facts && now.run == old(now.run).(
        mem := old(now.run.mem).(clusterID := made.id), unsaved := old(now.run.unsaved) + {UnsavedCluster},
        facts := now.run.facts)
      ensures !made.Made? ==> now.run == old(now.run).(facts := now.run.facts)
      ensures now.ledger.faults == old(now.ledger.faults) + if made.Made? then 0 else 1
    {
      Created(ClusterCreate(now.run.mem.versionID, made));
    }

    /** The desired state of the request. */
    function Desired(): RosaSpec.ClusterSpec
      reads this`prefix, this`version
    {
      RosaSpec.Desired(cluster, name, prefix, version)
    }

    /** What was sent to OCM in between is the desired state, under this ID, and nothing else. */
    ghost predicate SendsDesired(id: string, before: seq<Sending>, after: seq<Sending>)
      reads this`prefix, this`version
    {
      forall k :: Look(k) ==> Extends(before, after, Sending(id, RosaSpec.Built(Desired(), map[])))
    }

    /** Builds the request from the desired state, and sends it. */
    method Order(id: string)
      modifies journal`sent
      ensures SendsDesired(id, old(journal.sent), journal.sent) && |journal.sent| == |old(journal.sent)| + 1
    {
      var wanted := RosaSpec.MakeDesired(cluster, name, prefix, version);
      var request := RosaSpec.BuildRequest(wanted);
      journal.Send(Sending(id, request));
    }

    /** OCM's answer to the create request; a new cluster has an ID that was not recorded before. */
    method AskForCluster(recorded: string) returns (err: bool)
      requires MayCreate() && original.rolesCreated && original.oidcConfigID != "" && original.oidcProviderARN != ""
      modifies this`cloud, this`original, this`state, this`trace, this`now
      ensures Valid() && old(trace) < trace && now.run.Active?
      ensures err ==> original == old(original) && now.run == old(now.run).(facts := now.run.facts)
      ensures !err ==> original == old(original).(clusterID := original.clusterID)
      ensures !err ==> original.clusterID != "" && original.clusterID != recorded
      ensures !err ==> now.run == old(now.run).(mem := original, unsaved := {UnsavedCluster}, facts := now.run.facts)
      ensures !err ==> CreateOk in now.run.facts
      ensures now.ledger.faults == old(now.ledger.faults) + if err then 1 else 0
    {
      var answer: CreateReply := *;
      var made := if NonEmptyID(answer) && (answer.Made? ==> answer.id != recorded) then answer else Refused;
      cloud := CreateCloud(cloud, ClusterCreate(original.versionID, made));
      original := if made.Made? then original.(clusterID := made.id) else original;
      var reported: ClusterState := *;
      state := if made.Made? then reported else state;
      ClusterMade(made);
      err := !made.Made?;
    }

    /** The create request, and the last status patch of createCluster. */
    method RequestCluster(snapshot: Status) returns (err: bool, ghost o: PatchOutcome)
      requires MayCreate() && original.rolesCreated && original.oidcConfigID != "" && original.oidcProviderARN != ""
      requires snapshot.version == original.version && snapshot.versionID == original.versionID
      modifies this`obj, this`cloud, this`original, this`state, this`trace, this`now, journal`sent
      ensures Valid() && now.run.Active? && now.run.unsaved == {} && old(trace) <= trace
      ensures original == old(original).(conditions := original.conditions, clusterID := original.clusterID)
      ensures now.run == old(now.run).(mem := original, failed := now.run.failed, facts := now.run.facts)
      ensures !err ==> Ready() && CreateOk in now.run.facts && original.clusterID != "" && !o.Failed?
      ensures !err ==> snapshot.clusterID != original.clusterID
      ensures o.Applied? && !err ==>
        obj.persisted == Merge(old(obj.persisted), snapshot, original.(conditions := old(original.conditions)))
      ensures now.ledger.faults >= old(now.ledger.faults) + if err then 1 else 0
      ensures SendsDesired("", old(journal.sent), journal.sent) && |journal.sent| == |old(journal.sent)| + 1
    {
      o := Failed(false);
      Order("");
      err := AskForCluster(snapshot.clusterID);
      if !err {
        err, o := PatchStatus(snapshot);
      }
    }

    /** createCluster. If it succeeds and its last patch is applied, the server holds what memory
        holds, whichever earlier patches of this reconcile were swallowed. */
    method CreateCluster() returns (err: bool, ghost o: PatchOutcome)
      requires MayCreate() && Untouched()
      modifies this`obj, this`cloud, this`original, this`state, this`trace, this`now, journal`sent
      ensures Valid() && now.run.Active? && now.run.unsaved == {} && old(trace) <= trace
      ensures !err ==> Ready() && CreateOk in now.run.facts
      ensures !err ==>
        original.oidcConfigID != "" && original.oidcProviderARN != "" && original.rolesCreated
        && original.clusterID != ""
      ensures !err && o.Applied? ==>
        && obj.persisted.oidcConfigID == original.oidcConfigID
        && obj.persisted.oidcProviderARN == original.oidcProviderARN
        && obj.persisted.rolesCreated == original.rolesCreated && obj.persisted.clusterID == original.clusterID
      ensures now.ledger.faults >= old(now.ledger.faults) + if err then 1 else 0
      ensures SendsDesired("", old(journal.sent), journal.sent)
      ensures |journal.sent| <= |old(journal.sent)| + 1 && (!err ==> |journal.sent| == |old(journal.sent)| + 1)
    {
      o := Failed(false);
      var snapshot := original;
      err := EnsureOIDCProvider();
      if err {
        return;
      }
      if !original.rolesCreated {
        err := CreateOperatorRoles();
        if err {
          return;
        }
      }
      err := Fetch();
      if err {
        return;
      }
      TrackedNow();
      err, o := RequestCluster(snapshot);
    }

    /** updateCluster: reads the OIDC config and the zones, then updates the cluster. */
    method UpdateCluster() returns (err: bool)
      requires Ready() && !deletes && SawListed in now.run.facts
      modifies this`cloud, this`state, this`trace, this`now, journal`sent
      ensures Ready() && now.run == old(now.run) && old(trace) <= trace
      ensures !err ==> old(trace) + [ClusterUpdate] <= trace
      ensures now.ledger.faults >= old(now.ledger.faults) + if err then 1 else 0
      ensures SendsDesired(original.clusterID, old(journal.sent), journal.sent)
      ensures |journal.sent| <= |old(journal.sent)| + 1 && (!err ==> |journal.sent| == |old(journal.sent)| + 1)
    {
      err := Fetch();
      if !err {
        Order(original.clusterID);
        Remote(ClusterUpdate);
        err := Fetch();
        state := *;
      }
    }

    /** A cluster that OCM holds as it was last asked for is in its desired state exactly if the user's
        spec settles; so a ready one is left alone by every reconcile, or updated by every reconcile. */
    lemma AsAskedFor(tags: map<string, string>)
      requires ReadFrom(RosaSpec.Built(Desired(), tags)) && '/' !in cluster.accountID
      ensures RosaSpec.InDesiredState(Desired(), current) <==> RosaSpec.SpecSettles(cluster)
    {
      assert Unfold(0);
      RosaSpec.DecideBuilt(Desired(), tags);
    }

    /** A cluster that was last asked for with another spec is in its desired state exactly if the two
        agree field by field. */
    lemma AskedForOtherwise(other: RosaSpec.ClusterSpec, tags: map<string, string>)
      requires ReadFrom(RosaSpec.Built(other, tags)) && '/' !in other.accountID
      ensures RosaSpec.InDesiredState(Desired(), current) <==> RosaSpec.Agrees(Desired(), other, tags)
    {
      assert Unfold(0);
      RosaSpec.NoticesChanges(Desired(), other, tags);
    }

    /** An absent cluster is created, unless ClusterCreated is set. */
    method CreateIfNew() returns (r: Result)
      requires MayApply() && SawMissing in now.run.facts
      modifies this`obj, this`cloud, this`original, this`state, this`trace, this`now, journal`sent
      ensures Valid() && now.run.Active? && now.run.unsaved == {} && old(trace) <= trace && r != Requeue
      ensures r == Next ==> Ready() && Has(original, ClusterCreated)
      ensures Has(old(original), ClusterCreated) ==> trace == old(trace) && r == Next
      ensures now.ledger.faults >= old(now.ledger.faults) + if r == Error then 1 else 0
      ensures SendsDesired("", old(journal.sent), journal.sent) && |journal.sent| <= |old(journal.sent)| + 1
    {
      var created := CheckIsSet(RosaCondition(ClusterCreated, 0), original.conditions);
      if created {
        return Next;
      }
      var err;
      ghost var o;
      err, o := CreateCluster();
      if !err {
        err := Notify(ClusterCreated);
      }
      return if err then Error else Next;
    }

    /** A present cluster is updated, if it is ready and differs from what is desired. */
    method UpdateIfDifferent() returns (r: Result)
      requires MayApply() && SawListed in now.run.facts
      modifies this`obj, this`cloud, this`original, this`state, this`trace, this`now, journal`sent
      ensures Valid() && now.run.Active? && now.run.unsaved == {} && old(trace) <= trace && r != Requeue
      ensures r == Next ==> Ready()
      ensures old(state) != ReadyState || RosaSpec.InDesiredState(Desired(), current) ==>
        trace == old(trace) && r == Next
      ensures old(state) == ReadyState && !RosaSpec.InDesiredState(Desired(), current) && r == Next ==>
        old(trace) + [ClusterUpdate] <= trace && Has(original, ClusterUpdated)
      ensures now.ledger.faults >= old(now.ledger.faults) + if r == Error then 1 else 0
      ensures SendsDesired(old(original.clusterID), old(journal.sent), journal.sent)
      ensures |journal.sent| <= |old(journal.sent)| + 1
    {
      if state != ReadyState {
        return Next;
      }
      var wanted := RosaSpec.MakeDesired(cluster, name, prefix, version);
      var same := RosaSpec.IsDesired(wanted, current);
      if same {
        return Next;
      }
      var err := UpdateCluster();
      if !err {
        err := Notify(ClusterUpdated);
      }
      return if err then Error else Next;
    }

    /** ApplyCluster */
    method ApplyCluster() returns (r: Result)
      requires MayApply()
      requires if found then SawListed in now.run.facts else SawMissing in now.run.facts
      modifies this`obj, this`cloud, this`original, this`state, this`trace, this`now, journal`sent
      ensures Valid() && now.run.Active? && now.run.unsaved == {} && old(trace) <= trace && r != Requeue
      ensures r == Next ==> Ready()
      ensures !old(found) && Has(old(original), ClusterCreated) ==> trace == old(trace) && r == Next
      ensures !old(found) && r == Next ==> Has(original, ClusterCreated)
      ensures old(found) && (old(state) != ReadyState || RosaSpec.InDesiredState(Desired(), current)) ==>
        trace == old(trace) && r == Next
      ensures old(found) && old(state) == ReadyState && !RosaSpec.InDesiredState(Desired(), current) && r == Next ==>
        old(trace) + [ClusterUpdate] <= trace && Has(original, ClusterUpdated)
      ensures now.ledger.faults >= old(now.ledger.faults) + if r == Error then 1 else 0
      ensures SendsDesired(if old(found) then old(original.clusterID) else "", old(journal.sent), journal.sent)
      ensures |journal.sent| <= |old(journal.sent)| + 1
    {
      if found {
        r := UpdateIfDifferent();
      } else {
        r := CreateIfNew();
      }
    }

    method WaitUntilReady() returns (r: Result)
      requires Ready()
      ensures r == if state == ReadyState then Next else Requeue
    {
      match state
      case ReadyState => r := Next;
      case ErrorState => r := Requeue;
      case _ => r := Requeue;
    }

    /** Complete */
    method Complete() returns (r: Result)
      requires Ready()
      modifies this`obj, this`original, this`trace, this`now
      ensures Valid() && now.run.Active? && now.run.unsaved == {} && old(trace) <= trace && r != Next
      ensures IsSet(RECONCILED, original.conditions)
      ensures now.ledger.faults >= old(now.ledger.faults) + if r == Error then 1 else 0
    {
      var at: int := *;
      var c := RECONCILED.(lastTransition := at);
      UpdateSets(original.conditions, c, RECONCILED);
      var err := UpdateCondition(c);
      return if err then Error else Requeue;
    }

    // ---- The phases of delete ----

    /** A delete reconcile that goes on. */
    ghost predicate Deleting()
      reads this
    {
      Ready() && deletes && hasFinalizer
    }

    /** One kind of child: the objects whose status carries the cluster's ID. */
    method ExistsForClusterID(listing: seq<string>, id: string) returns (present: bool)
      ensures present <==> id in listing
    {
      var matches := [];
      for i := 0 to |listing|
        invariant |matches| > 0 <==> id in listing[..i]
      {
        if listing[i] == id {
          matches := matches + [listing[i]];
        }
      }
      assert listing[..|listing|] == listing;
      return |matches| > 0;
    }

    /** FindChildObjects: identity providers of both kinds and machine pools, in this order. */
    method FindChildObjects() returns (r: Result)
      requires Deleting()
      modifies this`cloud, this`trace, this`now
      ensures Deleting() && old(trace) < trace && now.run == old(now.run).(facts := now.run.facts)
      ensures r == Next ==> ScanClear in now.run.facts
      ensures r == Requeue ==> Waits(trace[|trace| - 1])
      ensures now.ledger.faults >= old(now.ledger.faults) + if r == Error then 1 else 0
    {
      var kinds: seq<seq<string>> := [];
      for i := 0 to 3
        invariant Deleting() && now == old(now) && trace == old(trace)
        invariant |kinds| == i && NoChild(original.clusterID, kinds)
      {
        var failed: bool, listing: seq<string> := *, *;
        if failed {
          Fail();
          return Error;
        }
        kinds := kinds + [listing];
        var child := ExistsForClusterID(listing, original.clusterID);
        if child {
          assert original.clusterID in kinds[i];
          Remote(ScanChildren(original.clusterID, kinds));
          return Requeue;
        }
      }
      Remote(ScanChildren(original.clusterID, kinds));
      return Next;
    }

    /** The delete request, and its record. */
    method AskDeletion() returns (err: bool)
      requires Deleting() && ScanClear in now.run.facts && Has(original, ClusterCreated)
      requires !Has(original, ClusterUninstalling)
      modifies this`obj, this`cloud, this`original, this`trace, this`now
      ensures Valid() && now.run.Active? && now.run.unsaved == {} && |old(trace)| < |trace| && old(trace) < trace
      ensures trace[|old(trace)|].ClusterDelete? && trace[|old(trace)|].id == old(original.clusterID)
      ensures !err ==> Deleting() && Has(original, ClusterUninstalling)
      ensures now.ledger.faults >= old(now.ledger.faults) + if err then 1 else 0
    {
      var reply := Reply();
      Remote(ClusterDelete(original.clusterID, reply));
      err := reply.Rejected?;
      if !err {
        err := Notify(ClusterUninstalling);
      }
    }

    /** DestroyCluster: OCM is asked to delete the cluster exactly when ClusterCreated is set and
        ClusterUninstalling is not. */
    method DestroyCluster() returns (r: Result)
      requires Deleting() && ScanClear in now.run.facts
      modifies this`obj, this`cloud, this`original, this`trace, this`now
      ensures Valid() && now.run.Active? && now.run.unsaved == {} && old(trace) <= trace && r != Requeue
      ensures r == Next ==> Deleting()
      ensures Asks(trace[|old(trace)|..]) <==>
              Has(old(original), ClusterCreated) && !Has(old(original), ClusterUninstalling)
      ensures r == Next && Has(old(original), ClusterCreated) ==> Has(original, ClusterUninstalling)
      ensures now.ledger.faults >= old(now.ledger.faults) + if r == Error then 1 else 0
    {
      var uninstalling := CheckIsSet(RosaCondition(ClusterUninstalling, 0), original.conditions);
      var created := CheckIsSet(RosaCondition(ClusterCreated, 0), original.conditions);
      if uninstalling || !created {
        return Next;
      }
      var err := AskDeletion();
      assert trace[|old(trace)|..][0].ClusterDelete?;
      return if err then Error else Next;
    }

    lemma NotMarkedDeleted()
      requires Valid() && busy
      ensures !Has(original, ClusterDeleted)
    {
      assert Unfold(0);
      LegalDeletion(init, trace);
    }

    /** WaitUntilMissing. No history sets ClusterDeleted, so the shortcut is never taken; the lookup
        by name decides, and a listed cluster is never nil. */
    method WaitUntilMissing() returns (r: Result)
      requires Deleting()
      modifies this`cloud, this`state, this`trace, this`now
      ensures Deleting() && old(trace) < trace && now.run == old(now.run).(facts := now.run.facts)
      ensures r == Next ==> SawMissing in now.run.facts && cloud.mine == {}
      ensures r == Requeue ==> Waits(trace[|trace| - 1])
      ensures now.ledger.faults >= old(now.ledger.faults) + if r == Error then 1 else 0
    {
      NotMarkedDeleted();
      var deleted := CheckIsSet(RosaCondition(ClusterDeleted, 0), original.conditions);
      if deleted {
        assert false;
      }
      var err, listed := LookUp();
      if err {
        return Error;
      }
      if !listed {
        return Next;
      }
      state := *;
      match state
      case UninstallingState => return Requeue;
      case ErrorState => return Requeue;
      case _ => return Requeue;
    }

    /** Past WaitUntilMissing. */
    ghost predicate Clear()
      reads this
    {
      Deleting() && SawMissing in now.run.facts
    }

    /** These teardown steps are recorded. */
    ghost predicate Torn(ts: set<ConditionType>)
      reads this
    {
      forall t :: t in ts ==> OneShot(t) && Has(original, t)
    }

    method DeleteRole(role: Role) returns (err: bool)
      requires Clear() && !Has(original, OperatorRolesDeleted) && role.prefix == prefix
      modifies this`cloud, this`trace, this`now
      ensures Clear() && now.run == old(now.run) && old(trace) < trace
      ensures !err ==> RolesOf(cloud.roles, prefix) == RolesOf(old(cloud.roles), prefix) - {role}
      ensures now.ledger.faults == old(now.ledger.faults) + if err then 1 else 0
    {
      var reply := Reply();
      Remote(RoleDelete(role, reply));
      err := reply.Rejected?;
    }

    /** STSClient.DeleteOperatorRoles: every role under the prefix, in no particular order. */
    method DeleteRoles() returns (err: bool)
      requires Clear() && !Has(original, OperatorRolesDeleted)
      modifies this`cloud, this`trace, this`now
      ensures Clear() && now.run == old(now.run).(facts := now.run.facts) && old(trace) <= trace
      ensures !err ==> RolesGone in now.run.facts && RolesOf(cloud.roles, prefix) == {}
      ensures now.ledger.faults >= old(now.ledger.faults) + if err then 1 else 0
    {
      var rest := RolesOf(cloud.roles, prefix);
      Remote(ListRoles(prefix, rest));
      while rest != {}
        invariant Clear() && now.run == old(now.run) && old(trace) <= trace
        invariant rest == RolesOf(cloud.roles, prefix) && now.ledger.faults == old(now.ledger.faults)
        decreases |rest|
      {
        var role :| role in rest;
        err := DeleteRole(role);
        if err {
          return true;
        }
        rest := rest - {role};
      }
      Remote(RolesDone);
      return false;
    }

    method DestroyOperatorRoles() returns (r: Result)
      requires Clear()
      modifies this`obj, this`cloud, this`original, this`trace, this`now
      ensures Valid() && now.run.Active? && now.run.unsaved == {} && old(trace) <= trace && r != Requeue
      ensures r == Next ==> Clear() && Torn({OperatorRolesDeleted})
      ensures now.ledger.faults >= old(now.ledger.faults) + if r == Error then 1 else 0
    {
      var done := CheckIsSet(RosaCondition(OperatorRolesDeleted, 0), original.conditions);
      if done {
        return Next;
      }
      var err := Fetch();
      if !err {
        err := DeleteRoles();
      }
      if !err {
        err := Notify(OperatorRolesDeleted);
      }
      return if err then Error else Next;
    }

    /** The first half of DestroyOIDC deletes OCM's config and records OIDCProviderDeleted ... */
    method DestroyConfig() returns (err: bool)
      requires Clear() && Torn({OperatorRolesDeleted})
      modifies this`obj, this`cloud, this`original, this`trace, this`now
      ensures Valid() && now.run.Active? && now.run.unsaved == {} && old(trace) <= trace
      ensures !err ==> Clear() && Torn({OperatorRolesDeleted, OIDCProviderDeleted})
      ensures now.ledger.faults >= old(now.ledger.faults) + if err then 1 else 0
    {
      var done := CheckIsSet(RosaCondition(OIDCProviderDeleted, 0), original.conditions);
      err := false;
      if !done {
        err := DeleteConfig();
      }
      if !done && !err {
        err := Notify(OIDCProviderDeleted);
      }
    }

    /** ... and the second deletes AWS's provider and records OIDCConfigDeleted. */
    method DestroyProvider() returns (err: bool)
      requires Clear() && Torn({OperatorRolesDeleted, OIDCProviderDeleted})
      modifies this`obj, this`cloud, this`original, this`trace, this`now
      ensures Valid() && now.run.Active? && now.run.unsaved == {} && old(trace) <= trace
      ensures !err ==> Clear() && Torn(TEARDOWN)
      ensures now.ledger.faults >= old(now.ledger.faults) + if err then 1 else 0
    {
      var done := CheckIsSet(RosaCondition(OIDCConfigDeleted, 0), original.conditions);
      err := false;
      if !done {
        err := DeleteProvider();
      }
      if !done && !err {
        err := Notify(OIDCConfigDeleted);
      }
    }

    /** OCM deletes the config. */
    method DeleteConfig() returns (err: bool)
      requires Clear() && Torn({OperatorRolesDeleted}) && !Has(original, OIDCProviderDeleted)
      modifies this`cloud, this`trace, this`now
      ensures Valid() && old(trace) < trace && cloud.mine == old(cloud.mine)
      ensures now.run == old(now.run).(facts := old(now.run.facts) + if err then {} else {ConfigGone})
      ensures !err ==> original.oidcConfigID !in cloud.configs
      ensures now.ledger.faults == old(now.ledger.faults) + if err then 1 else 0
    {
      var reply := Reply();
      Remote(ConfigDelete(original.oidcConfigID, reply));
      err := reply.Rejected?;
    }

    /** AWS deletes the provider. */
    method DeleteProvider() returns (err: bool)
      requires Clear() && Torn({OperatorRolesDeleted, OIDCProviderDeleted}) && !Has(original, OIDCConfigDeleted)
      modifies this`cloud, this`trace, this`now
      ensures Valid() && old(trace) < trace && cloud.mine == old(cloud.mine)
      ensures now.run == old(now.run).(facts := old(now.run.facts) + if err then {} else {ProviderGone})
      ensures !err ==> original.oidcProviderARN !in cloud.providers
      ensures now.ledger.faults == old(now.ledger.faults) + if err then 1 else 0
    {
      var reply := Reply();
      Remote(ProviderDelete(original.oidcProviderARN, reply));
      err := reply.Rejected?;
    }

    method DestroyOIDC() returns (r: Result)
      requires Clear() && Torn({OperatorRolesDeleted})
      modifies this`obj, this`cloud, this`original, this`trace, this`now
      ensures Valid() && now.run.Active? && now.run.unsaved == {} && old(trace) <= trace && r != Requeue
      ensures r == Next ==> Clear() && Torn(TEARDOWN)
      ensures now.ledger.faults >= old(now.ledger.faults) + if r == Error then 1 else 0
    {
      var err := DestroyConfig();
      if !err {
        err := DestroyProvider();
      }
      return if err then Error else Next;
    }

    ghost method FinalizerRemoved(r: CallReply)
      requires Sound() && Clearing(now)
      requires forall t :: t in TEARDOWN ==> Has(now.run.mem, t)
      modifies this`trace, this`now
      ensures Sound() && trace == old(trace) + [RemoveFinalizer(r)]
      ensures now == old(now).(obj := now.obj, ledger := now.ledger)
      ensures now.obj == if TookEffect(r) then old(now.obj).(finalizer := false, gone := true) else old(now.obj)
      ensures now.ledger.faults == old(now.ledger.faults) + if r.Rejected? then 1 else 0
    {
      assert forall t :: t in TEARDOWN ==> Has(now.run.mem, t);
      assert OperatorRolesDeleted in TEARDOWN && OIDCProviderDeleted in TEARDOWN && OIDCConfigDeleted in TEARDOWN;
      Record(RemoveFinalizer(r));
    }

    /** CompleteDestroy */
    method CompleteDestroy() returns (r: Result)
      requires Clear() && Torn(TEARDOWN)
      modifies this`obj, this`trace, this`now
      ensures Valid() && now.run.Active? && now.run.unsaved == {} && old(trace) <= trace && r != Requeue
      ensures r == Next ==> obj.gone
      ensures now.ledger.faults >= old(now.ledger.faults) + if r == Error then 1 else 0
    {
      if hasFinalizer {
        var reply := Reply();
        FinalizerRemoved(reply);
        if TookEffect(reply) {
          obj := obj.(finalizer := false, gone := true);
        }
        if reply.Rejected? {
          return Error;
        }
      }
      return Next;
    }

    // ---- The phase handler ----

    /** What holds when a phase starts, because the phases before it went on. */
    ghost predicate Before(p: Phase)
      reads this
    {
      forall k :: Enter(k) ==> Needs(p)
    }

    ghost predicate Needs(p: Phase)
      reads this
    {
      match p
      case GetCurrentStatePhase => MayApply() && !found
      case ApplyClusterPhase =>
        MayApply() && (if found then SawListed in now.run.facts else SawMissing in now.run.facts)
      case WaitUntilReadyPhase => Ready()
      case CompletePhase => Ready()
      case FindChildObjectsPhase => Deleting()
      case DestroyClusterPhase => Deleting() && ScanClear in now.run.facts
      case WaitUntilMissingPhase => Deleting()
      case DestroyOperatorRolesPhase => Clear()
      case DestroyOIDCPhase => Clear() && Torn({OperatorRolesDeleted})
      case CompleteDestroyPhase => Clear() && Torn(TEARDOWN)
    }

    method RunCreatePhase(p: Phase) returns (r: Result)
      requires !IsDelete(p) && Before(p)
      modifies this`obj, this`cloud, this`original, this`found, this`current, this`state, this`trace, this`now,
          journal`sent
      ensures Valid() && now.run.Active? && now.run.unsaved == {} && old(trace) <= trace
      ensures r == Next ==> forall q :: Follows(p, q) ==> Before(q)
      ensures Possible(p, r)
      ensures p == WaitUntilReadyPhase ==> trace == old(trace) && (r == Next <==> state == ReadyState)
      ensures p == CompletePhase ==> IsSet(RECONCILED, original.conditions)
      ensures now.ledger.faults >= old(now.ledger.faults) + if r == Error then 1 else 0
    {
      assert Enter(0);
      match p
      case GetCurrentStatePhase => ghost var source; r, source := GetCurrentState();
      case ApplyClusterPhase => r := ApplyCluster();
      case WaitUntilReadyPhase => r := WaitUntilReady();
      case CompletePhase => r := Complete();
    }

    method RunUninstallPhase(p: Phase) returns (r: Result)
      requires (p == FindChildObjectsPhase || p == DestroyClusterPhase || p == WaitUntilMissingPhase) && Before(p)
      modifies this`obj, this`cloud, this`original, this`state, this`trace, this`now
      ensures Valid() && now.run.Active? && now.run.unsaved == {} && old(trace) <= trace
      ensures r == Next ==> forall q :: Follows(p, q) ==> Before(q)
      ensures Possible(p, r)
      ensures r == Requeue ==> old(trace) < trace && Waits(trace[|trace| - 1])
      ensures now.ledger.faults >= old(now.ledger.faults) + if r == Error then 1 else 0
    {
      assert Enter(0);
      match p
      case FindChildObjectsPhase => r := FindChildObjects();
      case DestroyClusterPhase => r := DestroyCluster();
      case WaitUntilMissingPhase => r := WaitUntilMissing();
    }

    method RunTeardownPhase(p: Phase) returns (r: Result)
      requires (p == DestroyOperatorRolesPhase || p == DestroyOIDCPhase || p == CompleteDestroyPhase) && Before(p)
      modifies this`obj, this`cloud, this`original, this`state, this`trace, this`now
      ensures Valid() && now.run.Active? && now.run.unsaved == {} && old(trace) <= trace
      ensures r == Next ==> forall q :: Follows(p, q) ==> Before(q)
      ensures Possible(p, r)
      ensures r == Next && p == CompleteDestroyPhase ==> obj.gone
      ensures now.ledger.faults >= old(now.ledger.faults) + if r == Error then 1 else 0
    {
      assert Enter(0);
      match p
      case DestroyOperatorRolesPhase => r := DestroyOperatorRoles();
      case DestroyOIDCPhase => r := DestroyOIDC();
      case CompleteDestroyPhase => r := CompleteDestroy();
    }

    method RunDeletePhase(p: Phase) returns (r: Result)
      requires IsDelete(p) && Before(p)
      modifies this`obj, this`cloud, this`original, this`state, this`trace, this`now
      ensures Valid() && now.run.Active? && now.run.unsaved == {} && old(trace) <= trace && Possible(p, r)
      ensures r == Next ==> forall q :: Follows(p, q) ==> Before(q)
      ensures r == Next && p == CompleteDestroyPhase ==> obj.gone
      ensures r == Requeue ==> old(trace) < trace && Waits(trace[|trace| - 1])
      ensures now.ledger.faults >= old(now.ledger.faults) + if r == Error then 1 else 0
    {
      if p == FindChildObjectsPhase || p == DestroyClusterPhase || p == WaitUntilMissingPhase {
        r := RunUninstallPhase(p);
      } else {
        r := RunTeardownPhase(p);
      }
    }

    /** Runs one phase, and enters it in the journal. */
    method RunPhase(p: Phase) returns (r: Result)
      requires Before(p)
      modifies this`obj, this`cloud, this`original, this`found, this`current, this`state, this`trace, this`now, journal
      ensures Valid() && now.run.Active? && now.run.unsaved == {} && old(trace) <= trace
      ensures journal.ran == old(journal.ran) + [Ran(p, r)] && Possible(p, r)
      ensures r == Next ==> forall q :: Follows(p, q) ==> Before(q)
      ensures r == Next && p == CompleteDestroyPhase ==> obj.gone
      ensures IsDelete(p) && r == Requeue ==> old(trace) < trace && Waits(trace[|trace| - 1])
      ensures p == WaitUntilReadyPhase ==> trace == old(trace) && (r == Next <==> state == ReadyState)
      ensures p == CompletePhase ==> IsSet(RECONCILED, original.conditions)
      ensures now.ledger.faults >= old(now.ledger.faults) + if r == Error then 1 else 0
    {
      if IsDelete(p) {
        r := RunDeletePhase(p);
      } else {
        r := RunCreatePhase(p);
      }
      journal.Add(p, r);
    }

    /** handler.Execute: the phases run are exactly the shortest prefix that ends in an error or a
        requeue, each once and in order, with the results returned. */
    method Execute(phases: seq<Phase>, ghost delete: bool) returns (r: Result, results: seq<Result>)
      requires Chained(phases, delete) && Before(phases[0])
      requires Valid() && now.run.Active? && now.run.unsaved == {}
      modifies this`obj, this`cloud, this`original, this`found, this`current, this`state, this`trace, this`now, journal
      ensures Valid() && now.run.Active? && now.run.unsaved == {} && old(trace) <= trace
      ensures ShortestPrefix(results, |phases|, r) && journal.ran == old(journal.ran) + Runs(phases, results)
      ensures r == Next ==> delete && obj.gone
      ensures r == Requeue && delete ==> old(trace) < trace && Waits(trace[|trace| - 1])
      ensures r == Error ==> now.ledger.faults > old(now.ledger.faults)
    {
      results := [];
      for i := 0 to |phases|
        invariant Valid() && now.run.Active? && now.run.unsaved == {} && old(trace) <= trace
        invariant |results| == i && forall j :: 0 <= j < i ==> results[j] == Next
        invariant journal.ran == old(journal.ran) + Runs(phases, results)
        invariant if i < |phases| then Before(phases[i]) else delete && obj.gone
        invariant now.ledger.faults >= old(now.ledger.faults)
      {
        r := RunPhase(phases[i]);
        RunsMore(phases, results, r);
        results := results + [r];
        if r != Next {
          return;
        }
        assert i + 1 < |phases| ==> Follows(phases[i], phases[i + 1]);
      }
      r := Next;
    }

    ghost method Ended()
      requires Sound() && now.run.Active? && now.run.unsaved == {}
      modifies this`trace, this`now
      ensures Sound() && trace == old(trace) + [End] && now == old(now).(run := Idle)
    {
      Record(End);
    }

    method Finish()
      requires Valid() && now.run.Active? && now.run.unsaved == {}
      modifies this`busy, this`trace, this`now
      ensures Valid() && !busy && trace == old(trace) + [End] && now == old(now).(run := Idle)
    {
      busy := false;
      Ended();
    }

    /** Setup, and the finalizer. */
    method Prepare() returns (err: bool)
      requires Ready() && !deletes && Untouched() && original.versionID != "" && CreateOk !in now.run.facts && !found
      modifies this`obj, this`cloud, this`original, this`hasFinalizer, this`trace, this`now
      ensures Valid() && now.run.Active? && now.run.unsaved == {} && old(trace) <= trace
      ensures !err ==> MayApply()
      ensures now.ledger.faults >= old(now.ledger.faults) + if err then 1 else 0
    {
      err := Fetch();
      if !err {
        err := EnsureFinalizer();
      }
    }

    /** ReconcileCreate, which ReconcileUpdate calls too. */
    method ReconcileCreate() returns (r: Result, results: seq<Result>)
      requires Ready() && !deletes && Untouched() && original.versionID != "" && CreateOk !in now.run.facts && !found
      modifies this`obj, this`cloud, this`original, this`hasFinalizer, this`found, this`current, this`state,
          this`trace, this`now, journal
      ensures Valid() && now.run.Active? && now.run.unsaved == {} && old(trace) <= trace && r != Next
      ensures Handled(CREATE_PHASES, results, r, old(journal.ran), journal.ran)
      ensures r == Error ==> now.ledger.faults > old(now.ledger.faults)
    {
      var err := Prepare();
      if err {
        return Error, [];
      }
      PhasesChained();
      r, results := Execute(CREATE_PHASES, false);
    }

    /** ReconcileDelete: without an error it lets the object go, unless a child object exists or
        OCM still lists the cluster. */
    method ReconcileDelete() returns (r: Result, results: seq<Result>)
      requires Deleting()
      modifies this`obj, this`cloud, this`original, this`found, this`current, this`state, this`trace, this`now, journal
      ensures Valid() && now.run.Active? && now.run.unsaved == {} && old(trace) <= trace
      ensures Handled(DELETE_PHASES, results, r, old(journal.ran), journal.ran)
      ensures r == Next ==> obj.gone
      ensures r == Requeue ==> old(trace) < trace && Waits(trace[|trace| - 1])
      ensures r == Error ==> now.ledger.faults > old(now.ledger.faults)
    {
      var err := Fetch();
      if err {
        return Error, [];
      }
      PhasesChained();
      r, results := Execute(DELETE_PHASES, true);
    }

    /** The Reconciling condition, with the trigger as its reason. */
    method Announce() returns (err: bool)
      requires Ready() && Untouched()
      modifies this`obj, this`original, this`trace, this`now
      ensures Valid() && now.run.Active? && now.run.unsaved == {} && old(trace) <= trace
      ensures !err ==> Ready() && Untouched() && now.run.facts == old(now.run.facts)
      ensures IsSet(Condition(Reconciling, true, if deletes then TriggerDelete else TriggerUpdate, ReconcilingStart,
          0, 0),
                    original.conditions)
      ensures now.ledger.faults >= old(now.ledger.faults) + if err then 1 else 0
    {
      var at: int, trigger := *, if deletes then TriggerDelete else TriggerUpdate;
      var c := Condition(Reconciling, true, trigger, ReconcilingStart, 0, at);
      UpdateSets(original.conditions, c, c.(lastTransition := 0));
      err := UpdateCondition(c);
    }

    /** What follows NewRequest: the Reconciling condition, then the work the trigger asks for. */
    method Dispatch() returns (r: Result, results: seq<Result>)
      requires Ready() && Untouched() && original.versionID != "" && CreateOk !in now.run.facts && !found
      requires deletes ==> hasFinalizer
      modifies this`obj, this`cloud, this`original, this`hasFinalizer, this`found, this`current, this`state,
          this`trace, this`now, journal
      ensures Valid() && now.run.Active? && now.run.unsaved == {} && old(trace) <= trace
      ensures Handled(if deletes then DELETE_PHASES else CREATE_PHASES, results, r, old(journal.ran), journal.ran)
      ensures deletes ==>
        && (r == Next ==> obj.gone)
        && (r == Requeue ==> old(trace) < trace && Waits(trace[|trace| - 1]))
      ensures r == Error ==> now.ledger.faults > old(now.ledger.faults)
    {
      var err := Announce();
      if err {
        return Error, [];
      }
      if deletes {
        r, results := ReconcileDelete();
      } else {
        r, results := ReconcileCreate();
      }
    }

    /** controllers.Reconcile, for an object that may be gone and a read that may fail. */
    method Reconcile() returns (r: Result, read: bool)
      requires Valid() && !busy
      modifies this, journal
      ensures Valid() && !busy && old(trace) <= trace
      ensures !read ==> trace == old(trace) && obj == old(obj) && cloud == old(cloud)
      ensures old(obj.deleting) && read ==> deletes
      ensures read && deletes && r == Next ==> obj.gone
      ensures read && deletes && r == Requeue ==> exists i :: |old(trace)| <= i < |trace| && Waits(trace[i])
      ensures read && r == Error ==> now.ledger.faults > old(now.ledger.faults)
    {
      read := *;
      if obj.gone || !read {
        return if obj.gone then Next else Error, false;
      }
      var err := NewRequest();
      r := Error;
      if !err {
        var results;
        r, results := Dispatch();
        assert deletes && r == Requeue ==> Waits(trace[|trace| - 1]);
      }
      ghost var last := |trace| - 1;
      Finish();
      assert deletes && r == Requeue ==> Waits(trace[last]);
    }

    // ---- Histories ----

    constructor (name: string, cluster: RosaSpec.ClusterSpec, foreign: bool, policies: set<string>)
      ensures Valid() && !busy && trace == [] && this.name == name && this.cluster == cluster && !obj.deleting
      ensures !obj.gone
      ensures spec == Spec(cluster.iam.operatorRolesPrefix, cluster.version, cluster.iam.managedPolicies)
    {
      this.name, this.cluster := name, cluster;
      var life := Spec(cluster.iam.operatorRolesPrefix, cluster.version, cluster.iam.managedPolicies);
      spec := life;
      obj := Resource(EMPTY_STATUS, false, false, false);
      cloud := Cloud({}, foreign, {}, {}, policies, {}, {});
      busy, found, hasFinalizer, deletes := false, false, false, false;
      original, desired, prefix, version, current, state := EMPTY_STATUS, EMPTY_STATUS, "", "", cluster, NoState;
      ghost var start := State(life, Resource(EMPTY_STATUS, false, false, false),
                               Cloud({}, foreign, {}, {}, policies, {}, {}), Idle,
                               Ledger(0, 0, false, 0, false, false, 0, 0, 0, 0, {}, {}, {}, {}, {}, false));
      init, trace, now := start, [], start;
      journal := new Journal();
    }

    /** Any number of reconciles, with deletion and changes in OCM in between: what the code does is
        a legal history, so every law of histories holds of it. */
    method Operate(steps: nat)
      requires Valid() && !busy
      modifies this, journal
      ensures Valid() && !busy && old(trace) <= trace
      ensures Init(init) && Legal(init, trace) && now == Exec(init, trace) && now.obj == obj && now.cloud == cloud
    {
      for i := 0 to steps
        invariant Valid() && !busy && old(trace) <= trace
      {
        var choice: nat := *;
        if choice == 0 {
          Meanwhile();
        } else if choice == 1 {
          Elsewhere();
        } else {
          var r, read := Reconcile();
        }
      }
      assert Unfold(0);
    }
  }
}
