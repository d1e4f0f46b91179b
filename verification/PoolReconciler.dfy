/** The MachinePool reconciler: NewRequest, the upstream gate, and the phases of create and delete.
    Remote answers are chosen freely; every step is recorded as an event of the protocol. */
module PoolReconciler {
  import opened Conditions
  import opened StatusPatch
  import opened Requests
  import opened GoValues
  import opened MachinePool
  import opened PoolProtocol
  import PoolTheorems

  const MAXIMUM_NAME_LENGTH := 15

  const RECONCILED := Condition(Reconciling, false, TriggerCreate, ReconcilingStop, 0, 0)

  function UpstreamCondition(present: bool): Condition {
    Condition(UpstreamClusterExists, present, TriggerCreate, if present then UpstreamExists else UpstreamMissing, 0, 0)
  }

  function Landed(p: Status, snapshot: Status, m: Status, o: PatchOutcome): Status {
    if Persists(o) then Merge(p, snapshot, m) else p
  }

  /** No node at all, or a node that says it is not ready, means not ready. A node is given by the
      statuses of its Ready conditions. */
  method NodesAreReady(nodes: seq<seq<bool>>) returns (ready: bool)
    ensures ready <==> nodes != [] && forall node :: node in nodes ==> false !in node
  {
    if |nodes| < 1 {
      return false;
    }
    for i := 0 to |nodes|
      invariant forall k :: 0 <= k < i ==> false !in nodes[k]
    {
      for j := 0 to |nodes[i]|
        invariant forall l :: 0 <= l < j ==> nodes[i][l]
      {
        if !nodes[i][j] {
          assert false in nodes[i];
          return false;
        }
      }
    }
    return true;
  }

  class Reconciler {
    const name: string
    const spec: PoolSpec

    // the API server and OCM
    var obj: Resource
    var cloud: Cloud

    // the request
    var busy: bool
    var original: Status
    var wait: bool
    var deletes: bool
    var hasFinalizer: bool
    var desired: PoolSpec
    var current: Option<PoolSpec>

    ghost const init: State
    ghost var trace: seq<Event>
    ghost var now: State

    /** The recorded trace is a legal history that leads to `now`. */
    ghost predicate Sound()
      reads this
    {
      forall k :: Unfold(k) ==> Init(init) && Legal(init, trace) && now == Exec(init, trace)
    }

    /** The protocol state is the state of the world and of the request. */
    ghost predicate Mirrors()
      reads this
    {
      && now.spec == spec && now.name == name && now.obj == obj && now.cloud == cloud
      && (busy <==> now.run.Active?)
      && (busy ==>
           && now.run.mem == original && now.run.wait == wait && now.run.deletes == deletes
           && (hasFinalizer <==> FinalizerOn in now.run.facts))
    }

    ghost predicate Valid()
      reads this
    {
      Sound() && Mirrors()
    }

    ghost predicate Ready()
      reads this
    {
      Valid() && busy && Going(now)
    }

    /** The request has nothing left to send. */
    ghost predicate Stopped()
      reads this
    {
      Valid() && now.run.Active? && now.run.pending == []
    }

    ghost method Record(e: Event)
      requires Sound() && Enabled(now, e)
      modifies this`trace, this`now
      ensures Sound() && trace == old(trace) + [e] && now == Apply(old(now), e)
    {
      assert Unfold(0);
      Extend(init, trace, e);
      trace := trace + [e];
      now := Apply(now, e);
    }

    lemma Kinds()
      requires Valid()
      ensures KindsKnown(cloud) && (obj.deleting && !obj.gone ==> obj.finalizer)
    {
      assert Unfold(0);
      PoolTheorems.LegalInv(init, trace);
    }

    /** A remote read whose answer the life cycle does not depend on. */
    method Fetch() returns (err: bool)
      requires Ready()
      modifies this`trace, this`now
      ensures Ready() && now.run == old(now.run) && old(trace) <= trace && (err ==> old(trace) < trace)
      ensures now.ledger.faults == old(now.ledger.faults) + if err then 1 else 0
    {
      err := *;
      if err {
        Record(Fault);
      }
    }

    /** Clusters of the name come and go at any time. */
    method Elsewhere()
      requires Valid()
      modifies this`cloud, this`trace, this`now
      ensures Valid() && old(trace) < trace && now.run == old(now.run) && now.ledger == old(now.ledger)
    {
      var clusters: set<string> := *;
      clusters := set id | id in clusters && id in cloud.kind && id != "";
      cloud := cloud.(clusters := clusters,
                      pools := map p | p in cloud.pools && p.clusterID in clusters :: cloud.pools[p]);
      Record(Drift(clusters));
    }

    // ---- Status patches, conditions and finalizers ----

    ghost method Patched(snapshot: Status, o: PatchOutcome)
      requires Sound() && now.run.Active? && !now.run.failed && now.run.pending == [snapshot]
      requires Persists(o) ==> !now.obj.gone
      modifies this`trace, this`now
      ensures Sound() && trace == old(trace) + [Patch(o)]
      ensures now == old(now).(obj := now.obj, run := now.run, ledger := now.ledger)
      ensures now.obj == old(now.obj).(persisted := Landed(old(now.obj.persisted), snapshot, old(now.run.mem), o))
      ensures now.run == old(now.run).(pending := [], failed := o.Failed?,
        mem := if o.Applied? then Decode(now.obj.persisted, old(now.run.mem)) else old(now.run.mem),
        wait := if o.Applied? then DecodeFlag(old(now.obj.wait), old(now.run.wait)) else old(now.run.wait))
      ensures now.ledger.faults == old(now.ledger.faults) + if o.Applied? then 0 else 1
    {
      Record(Patch(o));
    }

    /** Users may ask for deletion, or change the wait flag, at any time. */
    method Meanwhile()
      requires Valid()
      modifies this`obj, this`trace, this`now
      ensures Valid() && old(trace) <= trace && now == old(now).(obj := obj)
      ensures obj == old(obj).(wait := obj.wait, deleting := obj.deleting, gone := obj.gone)
      ensures old(obj.deleting) ==> obj.deleting && obj.gone == old(obj.gone)
    {
      var asked, value: bool := *, *;
      if !obj.gone {
        obj := obj.(wait := value);
        Record(UserEdit(value));
      }
      if asked && !obj.gone && !obj.deleting {
        obj := obj.(deleting := true, gone := !obj.finalizer);
        Record(UserDelete);
      }
    }

    method SendPatch(snapshot: Status) returns (o: PatchOutcome)
      requires Valid() && busy && !now.run.failed && now.run.pending == [snapshot]
      modifies this`obj, this`original, this`wait, this`trace, this`now
      ensures Stopped() && old(trace) < trace
      ensures obj.persisted == Landed(old(obj.persisted), snapshot, old(original), o)
      ensures original == if o.Applied? then Decode(obj.persisted, old(original)) else old(original)
      ensures now.run == old(now.run).(mem := original, wait := wait, pending := [], failed := o.Failed?)
      ensures now.ledger.faults == old(now.ledger.faults) + if o.Applied? then 0 else 1
    {
      o := AnswerPatch(obj.gone);
      Patched(snapshot, o);
      obj := obj.(persisted := Landed(obj.persisted, snapshot, original, o));
      original := if o.Applied? then Decode(obj.persisted, original) else original;
      wait := if o.Applied? then DecodeFlag(obj.wait, wait) else wait;
    }

    /** kubernetes.PatchStatus: a conflict is reported as a success. */
    method PatchStatus(snapshot: Status) returns (err: bool, ghost o: PatchOutcome)
      requires Valid() && busy && !now.run.failed && now.run.pending == [snapshot]
      modifies this`obj, this`original, this`wait, this`trace, this`now
      ensures Stopped() && old(trace) < trace && err == o.Failed?
      ensures obj.persisted == Landed(old(obj.persisted), snapshot, old(original), o)
      ensures original == if o.Applied? then Decode(obj.persisted, old(original)) else old(original)
      ensures now.run == old(now.run).(mem := original, wait := wait, pending := [], failed := err)
      ensures snapshot.conditions != old(original.conditions) && old(original.conditions) != []
              ==> original.conditions == old(original.conditions)
      ensures now.ledger.faults >= old(now.ledger.faults) + if err then 1 else 0
    {
      Meanwhile();
      var outcome := SendPatch(snapshot);
      return outcome.Failed?, outcome;
    }

    /** conditions.Update */
    method UpdateCondition(c: Condition) returns (err: bool)
      requires Ready() && (!IsSet(c, original.conditions) ==> CanNote(now, c))
      modifies this`obj, this`original, this`wait, this`trace, this`now
      ensures Stopped() && old(trace) <= trace
      ensures original.conditions == Updated(old(original.conditions), c)
      ensures now.run == old(now.run).(mem := original, wait := wait, failed := err)
      ensures IsSet(c, old(original.conditions)) ==> !err && trace == old(trace) && original == old(original)
      ensures !IsSet(c, old(original.conditions)) ==> old(trace) + [Note(c)] < trace
      ensures now.ledger.faults >= old(now.ledger.faults) + if err then 1 else 0
    {
      var already := CheckIsSet(c, original.conditions);
      if already {
        return false;
      }
      var snapshot := original;
      var updated := ComputeAddCondition(original.conditions, c);
      AddSets(original.conditions, c, c);
      original := original.(conditions := updated);
      Record(Note(c));
      ghost var o;
      err, o := PatchStatus(snapshot);
    }

    ghost method FinalizerAdded(r: CallReply)
      requires Sound() && Going(now) && !now.run.deletes && FinalizerOn !in now.run.facts
      requires TookEffect(r) ==> !now.obj.gone && !now.obj.deleting
      modifies this`trace, this`now
      ensures Sound() && trace == old(trace) + [AddFinalizer(r)]
      ensures now == old(now).(obj := now.obj, run := now.run, ledger := now.ledger)
      ensures now.obj == old(now.obj).(finalizer := old(now.obj.finalizer) || TookEffect(r))
      ensures r.Rejected? ==> now.run == old(now.run)
      ensures r.Accepted? ==> now.run == old(now.run).(
        mem := Decode(now.obj.persisted, old(now.run.mem)), wait := DecodeFlag(now.obj.wait, old(now.run.wait)),
        facts := old(now.run.facts) + {FinalizerOn})
      ensures now.ledger.faults == old(now.ledger.faults) + if r.Rejected? then 1 else 0
    {
      Record(AddFinalizer(r));
    }

    method AskFinalizer() returns (err: bool)
      requires Ready() && !deletes && !hasFinalizer
      modifies this`obj, this`original, this`wait, this`hasFinalizer, this`trace, this`now
      ensures Ready() && old(trace) < trace && hasFinalizer == !err && now.run.wasHosted == old(now.run.wasHosted)
      ensures now.run.facts == if err then old(now.run.facts) else old(now.run.facts) + {FinalizerOn}
      ensures now.ledger.faults == old(now.ledger.faults) + if err then 1 else 0
    {
      var answer := Reply();
      var r := if obj.gone || obj.deleting then Rejected(false) else answer;
      FinalizerAdded(r);
      obj := obj.(finalizer := obj.finalizer || TookEffect(r));
      if r.Accepted? {
        original := Decode(obj.persisted, original);
        wait := DecodeFlag(obj.wait, wait);
        hasFinalizer := true;
      }
      err := r.Rejected?;
    }

    /** controllers.AddFinalizer; the API server accepts no finalizer on what is being deleted. */
    method EnsureFinalizer() returns (err: bool)
      requires Ready() && !deletes
      modifies this`obj, this`original, this`wait, this`hasFinalizer, this`trace, this`now
      ensures Ready() && old(trace) <= trace && (!err ==> hasFinalizer) && now.run.wasHosted == old(now.run.wasHosted)
      ensures now.run.facts <= old(now.run.facts) + {FinalizerOn}
      ensures now.ledger.faults == old(now.ledger.faults) + if err then 1 else 0
    {
      if hasFinalizer {
        return false;
      }
      Meanwhile();
      err := AskFinalizer();
    }

    // ---- NewRequest ----

    /** Whether NewRequest refuses the object: it carries both reserved labels, or its name is too long. */
    predicate Refused()
    {
      HasManagedLabels(spec.labels) || |DisplayName(spec, name)| > MAXIMUM_NAME_LENGTH
    }

    /** The read of the object, and the request made from it. */
    method Begin()
      requires Valid() && !busy && !obj.gone
      modifies this`busy, this`original, this`wait, this`deletes, this`hasFinalizer, this`current, this`trace, this`now
      ensures Ready() && trace == old(trace) + [Start] && current == None && deletes == obj.deleting
      ensures now.ledger == old(now.ledger) && now.run.facts == if obj.finalizer then {FinalizerOn} else {}
      ensures now.run.wasHosted == original.hosted
    {
      original, wait, deletes, hasFinalizer := obj.persisted, obj.wait, obj.deleting, obj.finalizer;
      current, busy := None, true;
      Record(Start);
    }

    method NewRequest() returns (err: bool)
      requires Valid() && !busy && !obj.gone
      modifies this`busy, this`original, this`wait, this`deletes, this`hasFinalizer, this`desired, this`current,
          this`trace, this`now
      ensures err <==> Refused()
      ensures err ==> trace == old(trace) && Valid() && !busy
      ensures !err ==> Ready() && trace == old(trace) + [Start] && current == None && deletes == obj.deleting
      ensures !err ==> now.ledger == old(now.ledger) && now.run.facts == if obj.finalizer then {FinalizerOn} else {}
      ensures !err ==> desired == MachinePool.Wanted(spec, name, original.hosted) && Wants()
    {
      var reserved := CheckManagedLabels(spec.labels);
      if reserved || |DisplayName(spec, name)| > MAXIMUM_NAME_LENGTH {
        return true;
      }
      Begin();
      desired := DesiredState(spec, name);
      if original.hosted {
        desired := desired.(spot := NO_SPOT);
      }
      return false;
    }

    // ---- The upstream gate ----

    /** What OCM says about the upstream cluster: by name while no ID is recorded, then by ID. */
    method AskUpstream() returns (err: bool, answer: Answer)
      requires Ready()
      modifies this`cloud, this`trace, this`now
      ensures Ready() && now.run == old(now.run) && old(trace) < trace
      ensures !err ==> Truthful(cloud, original.clusterID, answer)
      ensures now.ledger.faults == old(now.ledger.faults) + if err then 1 else 0
    {
      Elsewhere();
      Kinds();
      var ready: bool, broken: bool := *, *;
      if original.clusterID == "" {
        err := Fetch();
        if err || cloud.clusters == {} {
          return err, Absent;
        }
        var id :| id in cloud.clusters;
        return false, Found(id, cloud.kind[id], ready);
      }
      if broken {
        return false, Broken;
      }
      if original.clusterID !in cloud.clusters {
        return false, Absent;
      }
      return false, Found(original.clusterID, cloud.kind[original.clusterID], ready);
    }

    /** The identity of the answered cluster was sent: it is persisted unless the patch was lost, and
        memory holds it, or what the server answered. */
    ghost predicate Sent(persisted: Status, before: Status, answer: Answer, o: PatchOutcome)
      reads this
    {
      var recorded := WithCluster(before, answer);
      && obj.persisted == Landed(persisted, before, recorded, o)
      && original == if o.Applied? then Decode(obj.persisted, recorded) else recorded
    }

    /** request.GetUpstreamCluster */
    method GetUpstreamCluster() returns (err: bool, answer: Answer, ghost sent: Option<PatchOutcome>)
      requires Ready() && !deletes && UpstreamReady !in now.run.facts
      modifies this`obj, this`cloud, this`original, this`wait, this`trace, this`now
      ensures Stopped() && old(trace) < trace && now.run.deletes == deletes
      ensures now.run.wasHosted == old(now.run.wasHosted)
      ensures !err ==> Ready()
      ensures old(now.run.facts) <= now.run.facts <= old(now.run.facts) + {UpstreamReady}
      ensures !err && answer.Found? && answer.ready ==> UpstreamReady in now.run.facts
      ensures !err ==> Upstream(answer) in trace[|old(trace)|..]
      ensures !err ==> (sent.Some? <==> !answer.Absent?)
      ensures sent.None? ==> original == old(original) && obj.persisted == old(obj.persisted)
      ensures sent.Some? ==> Sent(old(obj.persisted), old(original), answer, sent.value)
      ensures now.ledger.faults >= old(now.ledger.faults) + if err || answer == Broken then 1 else 0
    {
      sent := None;
      err, answer := AskUpstream();
      if err {
        return;
      }
      var snapshot := original;
      original := WithCluster(original, answer);
      Record(Upstream(answer));
      ghost var asked := trace;
      assert asked[|asked| - 1] == Upstream(answer);
      if answer.Absent? {
        return;
      }
      ghost var o;
      err, o := PatchStatus(snapshot);
      assert trace[|asked| - 1] == Upstream(answer);
      sent := Some(o);
    }

    /** HandleClusterPhase: a cluster seen ready, with its identity sent, lets the request pass, and
        nothing else does; the condition says whether OCM answered with a cluster. */
    method HandleCluster() returns (r: Result, ghost answer: Answer)
      requires Ready() && !deletes && UpstreamReady !in now.run.facts
      modifies this`obj, this`cloud, this`original, this`wait, this`trace, this`now
      ensures Stopped() && old(trace) < trace && now.run.deletes == deletes
      ensures now.run.wasHosted == old(now.run.wasHosted)
      ensures r != Error ==> Upstream(answer) in trace[|old(trace)|..]
      ensures r != Error ==> IsSet(UpstreamCondition(answer.Found?), original.conditions)
      ensures r != Error ==> (r == Next <==> answer.Found? && answer.ready)
      ensures r == Next ==> Ready() && UpstreamReady in now.run.facts
      ensures now.run.facts <= old(now.run.facts) + {UpstreamReady}
      ensures now.ledger.faults >= old(now.ledger.faults) + if r == Error then 1 else 0
    {
      ghost var sent;
      var err, reply;
      err, reply, sent := GetUpstreamCluster();
      answer := reply;
      if err {
        return Error, answer;
      }
      var at: int, present := *, reply.Found?;
      var c := UpstreamCondition(present).(lastTransition := at);
      UpdateSets(original.conditions, c, UpstreamCondition(present));
      err := UpdateCondition(c);
      if err {
        return Error, answer;
      }
      if !present || !reply.ready {
        return Requeue, answer;
      }
      return Next, answer;
    }

    // ---- The phases of create and update ----

    /** Past the gate, with the finalizer. */
    ghost predicate MayApply()
      reads this
    {
      Ready() && Applying(now) && Wants()
    }

    /** The desired state follows from the spec and from what was recorded of the cluster at the read. */
    ghost predicate Wants()
      reads this
    {
      now.run.Active? && desired == MachinePool.Wanted(spec, name, now.run.wasHosted)
    }

    /** The current state is that of the pool that was read. */
    ghost predicate HasRead()
      reads this
    {
      && now.run.Active? && (current.None? ==> PoolMissing in now.run.facts)
      && (current.Some? ==>
           PoolOurs in now.run.facts && now.run.held.Some?
           && current == ReadAs(original.hosted, now.run.held.value, spec.clusterName))
    }

    ghost method PoolRead(held: Option<Pool>)
      requires Sound() && Applying(now) && PoolMissing !in now.run.facts && PoolOurs !in now.run.facts
      requires Ref(now.run.mem) in now.cloud.pools ==> held == Some(now.cloud.pools[Ref(now.run.mem)])
      modifies this`trace, this`now
      ensures Sound() && trace == old(trace) + [PoolGet(held)]
      ensures now.run.Active? && now == old(now).(run := old(now.run).(held := held, facts := now.run.facts))
      ensures now.run.facts == old(now.run.facts) + if held.None? then {PoolMissing}
                else if HasManagedLabels(held.value.labels) then {PoolOurs} else {}
    {
      Record(PoolGet(held));
    }

    /** What is read of a pool that OCM holds: a pool without the managed labels is not the operator's. */
    method CopyCurrent(pool: Pool) returns (err: bool)
      requires MayApply() && PoolMissing !in now.run.facts && PoolOurs !in now.run.facts
      requires Ref(original) in cloud.pools ==> pool == cloud.pools[Ref(original)]
      modifies this`current, this`trace, this`now
      ensures MayApply() && old(trace) < trace
      ensures !err ==>
        current.Some? && HasManagedLabels(current.value.labels) && HasRead() && now.run.held == Some(pool)
      ensures now.ledger.faults >= old(now.ledger.faults) + if err then 1 else 0
    {
      current := if original.hosted then Some(MachinePool.CopyFromNodePool(pool, desired.clusterName))
                 else MachinePool.CopyFromMachinePool(pool, desired.clusterName);
      err := current.None?;
      if !err {
        var managed := CheckManagedLabels(current.value.labels);
        PoolRead(Some(pool));
        err := !managed;
      }
      if err {
        Record(Fault);
      }
    }

    /** GetCurrentState: what OCM holds under the pool's name, at the endpoint of the cluster's kind:
        a pool of the operator as it was last asked for, or one that others made. The panic on a pool
        without zones counts as an error. */
    method GetCurrentState() returns (r: Result)
      requires MayApply() && current == None && PoolMissing !in now.run.facts && PoolOurs !in now.run.facts
      modifies this`current, this`trace, this`now
      ensures MayApply() && old(trace) < trace && r != Requeue
      ensures r == Next ==> HasRead()
      ensures r == Next ==> (if current.Some? then PoolOurs else PoolMissing) in now.run.facts
      ensures r == Next && current.Some? ==> HasManagedLabels(current.value.labels)
      ensures now.ledger.faults >= old(now.ledger.faults) + if r == Error then 1 else 0
    {
      var err := Fetch();
      if err {
        return Error;
      }
      var present: bool, pool: Pool := *, *;
      if Ref(original) in cloud.pools {
        present, pool := true, cloud.pools[Ref(original)];
      }
      if !present {
        PoolRead(None);
        return Next;
      }
      err := CopyCurrent(pool);
      return if err then Error else Next;
    }

    /** The pool to ask for. */
    function Build(): Pool
      reads this`desired, this`original, this`cloud
    {
      if original.hosted then BuildNodePool(desired, ZonesOf(cloud, original.clusterID))
      else BuildMachinePool(desired, ZonesOf(cloud, original.clusterID))
    }

    /** The create request; it is retried later if a pool of the name is still being deleted. */
    method CreatePool() returns (r: Result)
      requires MayApply() && PoolMissing in now.run.facts
      modifies this`cloud, this`trace, this`now
      ensures Ready() && now.run == old(now.run) && |trace| == |old(trace)| + 1 && old(trace) < trace
      ensures trace[|old(trace)|].PoolCreate?
      ensures r == Next ==> Ref(original) in cloud.pools && cloud.pools[Ref(original)] == old(Build())
      ensures now.ledger.faults == old(now.ledger.faults) + if r == Next then 0 else 1
    {
      var deleting: bool := *;
      var answer := Reply();
      var accepted := original.clusterID in cloud.clusters && original.clusterID in cloud.kind
                      && cloud.kind[original.clusterID] == original.hosted;
      var reply := if accepted then answer else Rejected(false);
      if TookEffect(reply) {
        cloud := cloud.(pools := cloud.pools[Ref(original) := Build()]);
      }
      Record(PoolCreate(reply));
      return if reply.Accepted? then Next else if deleting then Requeue else Error;
    }

    /** The update request. */
    method UpdatePool() returns (r: Result)
      requires MayApply() && HasRead() && current.Some? && !InDesiredState(desired, current.value)
      modifies this`cloud, this`trace, this`now
      ensures Ready() && now.run == old(now.run).(facts := now.run.facts) && old(trace) < trace && r != Requeue
      ensures now.run.facts == old(now.run.facts) - {PoolOurs}
      ensures trace[|old(trace)|].PoolUpdate?
      ensures r == Next && Ref(original) in old(cloud.pools) ==>
        Ref(original) in cloud.pools && cloud.pools[Ref(original)] == old(Build())
      ensures now.ledger.faults == old(now.ledger.faults) + if r == Next then 0 else 1
    {
      var reply := Reply();
      if TookEffect(reply) && Ref(original) in cloud.pools {
        cloud := cloud.(pools := cloud.pools[Ref(original) := Build()]);
      }
      Record(PoolUpdate(reply));
      return if reply.Accepted? then Next else Error;
    }

    /** Apply: nothing for a pool in its desired state, a create for a missing one, an update otherwise. */
    method ApplyPool() returns (r: Result)
      requires MayApply() && HasRead()
      modifies this`cloud, this`trace, this`now
      ensures Ready() && old(trace) <= trace && now.run == old(now.run).(facts := now.run.facts)
      ensures current.Some? && InDesiredState(desired, current.value) ==> trace == old(trace) && r == Next
      ensures current.Some? && !InDesiredState(desired, current.value) ==>
        trace[|old(trace)|..] != [] && trace[|old(trace)|].PoolUpdate?
      ensures current.None? ==> trace[|old(trace)|..] != [] && trace[|old(trace)|].PoolCreate?
      ensures r == Requeue ==> now.ledger.faults > old(now.ledger.faults)
      ensures now.ledger.faults >= old(now.ledger.faults) + if r == Error then 1 else 0
    {
      if current.Some? && desired == current.value.(wait := desired.wait) {
        return Next;
      }
      if current.None? {
        r := CreatePool();
      } else {
        r := UpdatePool();
      }
    }

    /** WaitUntilReady: if asked to wait, goes on exactly if the pool's nodes are ready. */
    method WaitUntilReady() returns (r: Result, ghost seen: seq<seq<bool>>)
      requires Ready()
      modifies this`trace, this`now
      ensures Ready() && old(trace) <= trace && now.run.deletes == old(now.run.deletes)
      ensures !wait ==> r == Next
      ensures wait && r != Error ==>
        (r == Next <==> seen != [] && forall node :: node in seen ==> false !in node)
        && old(trace) < trace && trace[|trace| - 1] == Nodes(|seen|)
      ensures now.ledger.faults >= old(now.ledger.faults) + if r == Error then 1 else 0
    {
      var nodes: seq<seq<bool>> := *;
      seen := nodes;
      if !wait {
        return Next, seen;
      }
      var err := Fetch();
      if err {
        return Error, seen;
      }
      Record(Nodes(|nodes|));
      var ready := NodesAreReady(nodes);
      return if ready then Next else Requeue, seen;
    }

    method Complete() returns (r: Result)
      requires Ready()
      modifies this`obj, this`original, this`wait, this`trace, this`now
      ensures Stopped() && old(trace) <= trace && r != Next
      ensures IsSet(RECONCILED, original.conditions)
      ensures now.ledger.faults >= old(now.ledger.faults) + if r == Error then 1 else 0
    {
      var at: int := *;
      var c := RECONCILED.(lastTransition := at);
      UpdateSets(original.conditions, c, RECONCILED);
      var err := UpdateCondition(c);
      return if err then Error else Requeue;
    }

    // ---- The phases of delete ----

    /** OCM deletes the pool; a pool that is not there counts as deleted. */
    method DeletePool() returns (err: bool)
      requires Ready() && deletes && NameListed in now.run.facts && !MarkedDeleted(original)
      modifies this`cloud, this`trace, this`now
      ensures Ready() && old(trace) < trace && now.run == old(now.run).(facts := now.run.facts)
      ensures old(now.run.facts) <= now.run.facts
      ensures !err ==> DeleteOk in now.run.facts && Ref(original) !in cloud.pools
      ensures now.ledger.faults == old(now.ledger.faults) + if err then 1 else 0
    {
      var reply := Reply();
      if TookEffect(reply) {
        cloud := cloud.(pools := cloud.pools - {Ref(original)});
      }
      Record(PoolDelete(reply));
      err := reply.Rejected?;
    }

    method LookUpName() returns (err: bool, listed: bool)
      requires Ready() && deletes
      modifies this`cloud, this`trace, this`now
      ensures Ready() && old(trace) < trace && now.run == old(now.run).(facts := now.run.facts)
      ensures old(now.run.facts) <= now.run.facts
      ensures !err ==> (if listed then NameListed else NameAbsent) in now.run.facts
      ensures now.ledger.faults == old(now.ledger.faults) + if err then 1 else 0
    {
      Elsewhere();
      err := Fetch();
      listed := cloud.clusters != {};
      if !err {
        Record(NameLookup(listed));
      }
    }

    method MarkDeleted() returns (err: bool)
      requires Ready() && deletes && DeleteOk in now.run.facts
      modifies this`obj, this`original, this`wait, this`trace, this`now
      ensures Stopped() && old(trace) <= trace && (!err ==> Ready()) && now.run.facts == old(now.run.facts)
      ensures MarkedDeleted(original)
      ensures now.run.deletes == deletes
      ensures now.ledger.faults >= old(now.ledger.faults) + if err then 1 else 0
    {
      var at: int := *;
      UpdateSets(original.conditions, DeletedCondition(at), DeletedCondition(0));
      err := UpdateCondition(DeletedCondition(at));
    }

    /** Destroy: goes on if the pool is marked deleted, the cluster's name is absent, or OCM accepted
        the deletion, which is then marked. */
    method Destroy() returns (r: Result)
      requires Ready() && deletes && hasFinalizer
      modifies this`obj, this`cloud, this`original, this`wait, this`trace, this`now
      ensures Stopped() && old(trace) <= trace && r != Requeue
      ensures r == Next ==> Ready() && now.run.deletes && (MarkedDeleted(original) || NameAbsent in now.run.facts)
      ensures now.ledger.faults >= old(now.ledger.faults) + if r == Error then 1 else 0
    {
      var done := CheckIsSet(DeletedCondition(0), original.conditions);
      if done {
        return Next;
      }
      var err, listed := LookUpName();
      if err {
        return Error;
      }
      if !listed {
        return Next;
      }
      err := DeletePool();
      if !err {
        err := MarkDeleted();
      }
      return if err then Error else Next;
    }

    /** WaitUntilMissing */
    method WaitUntilMissing() returns (r: Result)
      requires Ready() && deletes && (MarkedDeleted(original) || NameAbsent in now.run.facts)
      modifies this`trace, this`now
      ensures Ready() && old(trace) <= trace && now.run == old(now.run).(facts := now.run.facts)
      ensures old(now.run.facts) <= now.run.facts
      ensures r == Next && wait ==> NoNodes in now.run.facts
      ensures r == Requeue ==> wait && old(trace) < trace && trace[|trace| - 1].Nodes? && trace[|trace| - 1].count > 0
      ensures now.ledger.faults >= old(now.ledger.faults) + if r == Error then 1 else 0
    {
      if !wait {
        return Next;
      }
      var err := Fetch();
      if err {
        return Error;
      }
      var count: nat := *;
      Record(Nodes(count));
      return if count > 0 then Requeue else Next;
    }

    method CompleteDestroy() returns (r: Result)
      requires Ready() && deletes && hasFinalizer && (MarkedDeleted(original) || NameAbsent in now.run.facts)
      requires wait ==> NoNodes in now.run.facts
      modifies this`obj, this`trace, this`now
      ensures Stopped() && old(trace) <= trace && r != Requeue && (r == Next ==> obj.gone)
      ensures now.ledger.faults >= old(now.ledger.faults) + if r == Error then 1 else 0
    {
      if hasFinalizer {
        var reply := Reply();
        if TookEffect(reply) {
          obj := obj.(finalizer := false, gone := true);
        }
        Record(RemoveFinalizer(reply));
        if reply.Rejected? {
          return Error;
        }
      }
      return Next;
    }

    // ---- Reconcile ----

    /** ReconcileCreate, which ReconcileUpdate calls too: each phase runs if the ones before went on. */
    method ReconcileCreate() returns (r: Result)
      requires Ready() && !deletes && now.run.facts <= {FinalizerOn} && current == None && Wants()
      modifies this`obj, this`cloud, this`original, this`wait, this`hasFinalizer, this`current, this`trace, this`now
      ensures Stopped() && old(trace) <= trace && r != Next
      ensures now.ledger.faults >= old(now.ledger.faults) + if r == Error then 1 else 0
    {
      var err := EnsureFinalizer();
      if err {
        return Error;
      }
      ghost var answer;
      r, answer := HandleCluster();
      if r == Next {
        r := BringAbout();
      }
    }

    /** The phases after the gate. */
    method BringAbout() returns (r: Result)
      requires MayApply() && current == None && PoolMissing !in now.run.facts && PoolOurs !in now.run.facts
      modifies this`obj, this`cloud, this`original, this`wait, this`current, this`trace, this`now
      ensures Stopped() && old(trace) <= trace && r != Next
      ensures now.ledger.faults >= old(now.ledger.faults) + if r == Error then 1 else 0
    {
      r := GetCurrentState();
      if r == Next {
        r := ApplyPool();
      }
      if r == Next {
        ghost var seen;
        r, seen := WaitUntilReady();
      }
      if r == Next {
        r := Complete();
      }
    }

    /** ReconcileDelete: without an error it lets the object go, unless it waits for nodes. */
    method ReconcileDelete() returns (r: Result)
      requires Ready() && deletes && hasFinalizer
      modifies this`obj, this`cloud, this`original, this`wait, this`trace, this`now
      ensures Stopped() && old(trace) <= trace
      ensures r == Next ==> obj.gone
      ensures r == Requeue ==> wait && old(trace) < trace && trace[|trace| - 1].Nodes? && trace[|trace| - 1].count > 0
      ensures now.ledger.faults >= old(now.ledger.faults) + if r == Error then 1 else 0
    {
      r := Destroy();
      if r == Next {
        r := WaitUntilMissing();
      }
      if r == Next {
        r := CompleteDestroy();
      }
    }

    method Dispatch() returns (r: Result)
      requires Ready() && now.run.facts <= {FinalizerOn} && current == None && Wants()
      requires deletes ==> hasFinalizer
      modifies this`obj, this`cloud, this`original, this`wait, this`hasFinalizer, this`current, this`trace, this`now
      ensures Stopped() && old(trace) <= trace
      ensures deletes && r == Next ==> obj.gone
      ensures deletes && r == Requeue ==>
        wait && old(trace) < trace && trace[|trace| - 1].Nodes? && trace[|trace| - 1].count > 0
      ensures now.ledger.faults >= old(now.ledger.faults) + if r == Error then 1 else 0
    {
      var at: int, trigger := *, if deletes then TriggerDelete else TriggerUpdate;
      var err := UpdateCondition(Condition(Reconciling, true, trigger, ReconcilingStart, 0, at));
      if err {
        return Error;
      }
      if deletes {
        r := ReconcileDelete();
      } else {
        r := ReconcileCreate();
      }
    }

    method Finish()
      requires Stopped()
      modifies this`busy, this`trace, this`now
      ensures Valid() && !busy && trace == old(trace) + [End] && now == old(now).(run := Idle)
    {
      busy := false;
      Record(End);
    }

    /** controllers.Reconcile, for an object that may be gone and a read that may fail. */
    method Reconcile() returns (r: Result, read: bool)
      requires Valid() && !busy
      modifies this
      ensures Valid() && !busy && old(trace) <= trace
      ensures !read || Refused() ==> trace == old(trace) && obj == old(obj) && cloud == old(cloud)
      ensures read && !Refused() && old(obj.deleting) && r == Next ==> obj.gone
      ensures read && !Refused() && old(obj.deleting) && r == Requeue ==>
        exists i :: |old(trace)| <= i < |trace| && trace[i].Nodes? && trace[i].count > 0
      ensures read && !Refused() && r == Error ==> now.ledger.faults > old(now.ledger.faults)
    {
      read := *;
      if obj.gone || !read {
        return if obj.gone then Next else Error, false;
      }
      Kinds();
      var err := NewRequest();
      if err {
        return Error, true;
      }
      r := Dispatch();
      ghost var last := |trace| - 1;
      Finish();
      assert deletes && r == Requeue ==> trace[last].Nodes? && trace[last].count > 0;
    }

    // ---- Histories ----

    constructor (name: string, spec: PoolSpec, clusters: set<string>, kind: map<string, bool>, zones: map<string, nat>)
      requires "" !in clusters && forall id :: id in clusters ==> id in kind
      ensures Valid() && !busy && trace == [] && this.name == name && this.spec == spec
    {
      this.name, this.spec := name, spec;
      obj := Resource(EMPTY_STATUS, spec.wait, false, false, false);
      cloud := Cloud(clusters, kind, zones, map[]);
      busy, wait, deletes, hasFinalizer := false, false, false, false;
      original, desired, current := EMPTY_STATUS, spec, None;
      ghost var start := State(spec, name, Resource(EMPTY_STATUS, spec.wait, false, false, false),
                               Cloud(clusters, kind, zones, map[]), Idle, Ledger(false, false, 0));
      init, trace, now := start, [], start;
    }

    /** Any number of reconciles, with what users and OCM do in between: what the code does is a
        legal history, so every law of histories holds of it. */
    method Operate(steps: nat)
      requires Valid() && !busy
      modifies this
      ensures Valid() && !busy && old(trace) <= trace
      ensures Init(init) && Legal(init, trace) && now == Exec(init, trace) && now.obj == obj && now.cloud == cloud
    {
      for i := 0 to steps
        invariant Valid() && !busy && old(trace) <= trace
      {
        var choice: nat := *;
        if choice == 0 {
          Meanwhile();
        } else if choice == 1 {
          Elsewhere();
        } else {
          var r, read := Reconcile();
        }
      }
      assert Unfold(0);
    }
  }
}
