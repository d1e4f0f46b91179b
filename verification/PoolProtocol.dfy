/** The MachinePool life cycle as a labelled transition system: the persisted object, the reconcile
    in progress, and the clusters and pools of OCM. */
module PoolProtocol {
  import opened Conditions
  import opened StatusPatch
  import opened Requests
  import opened GoValues
  import MachinePool

  /** The status fields the life cycle depends on. */
  datatype Status = Status(conditions: seq<Condition>, clusterID: string, hosted: bool)

  const EMPTY_STATUS := Status([], "", false)

  function Merge(server: Status, snapshot: Status, memory: Status): Status {
    Status(
      MergeField(server.conditions, snapshot.conditions, memory.conditions),
      MergeField(server.clusterID, snapshot.clusterID, memory.clusterID),
      MergeField(server.hosted, snapshot.hosted, memory.hosted))
  }

  function Decode(server: Status, memory: Status): Status {
    Status(
      DecodeList(server.conditions, memory.conditions),
      DecodeString(server.clusterID, memory.clusterID),
      DecodeFlag(server.hosted, memory.hosted))
  }

  /** A patch sends what memory changed and nothing else: without another writer the server ends up
      with memory, and a field that was not changed keeps the server's value. What the server
      answers wins over memory where it says anything. */
  lemma PatchLaws(server: Status, snapshot: Status, memory: Status)
    ensures Merge(snapshot, snapshot, memory) == memory && Merge(server, memory, memory) == server
    ensures Merge(server, memory.(conditions := snapshot.conditions), memory) ==
      server.(conditions := MergeField(server.conditions, snapshot.conditions, memory.conditions))
    ensures Merge(server, memory.(clusterID := snapshot.clusterID), memory) ==
      server.(clusterID := MergeField(server.clusterID, snapshot.clusterID, memory.clusterID))
    ensures Merge(server, memory.(hosted := snapshot.hosted), memory) ==
      server.(hosted := MergeField(server.hosted, snapshot.hosted, memory.hosted))
    ensures Decode(server, EMPTY_STATUS) == server && Decode(EMPTY_STATUS, memory) == memory
    ensures Decode(server, Decode(server, memory)) == Decode(server, memory)
  {
  }

  function DeletedCondition(at: int): Condition {
    Condition(MachinePoolDeleted, true, TriggerDelete, MessageOf(MachinePoolDeleted), 0, at)
  }

  predicate MarkedDeleted(st: Status) {
    IsSet(DeletedCondition(0), st.conditions)
  }

  datatype Resource = Resource(persisted: Status, wait: bool, finalizer: bool, deleting: bool, gone: bool)

  /** Where a pool lives: in a cluster, among its machine pools or its node pools. */
  datatype PoolRef = PoolRef(clusterID: string, hosted: bool)

  /** `clusters` are the IDs OCM lists under the cluster's name, `kind` says of every ID whether its
      control plane is hosted, `zones` in how many zones it is; `pools` are the live pools the operator
      created, as OCM holds them. */
  datatype Cloud = Cloud(
    clusters: set<string>,
    kind: map<string, bool>,
    zones: map<string, nat>,
    pools: map<PoolRef, MachinePool.Pool>)

  function ZonesOf(c: Cloud, id: string): nat {
    if id in c.zones then c.zones[id] else 0
  }

  /** What the operator learns about the upstream cluster. `Broken` is an error other than "not
      found" in a lookup by ID, which the operator drops. */
  datatype Answer = Absent | Broken | Found(id: string, hosted: bool, ready: bool)

  datatype Fact = FinalizerOn | UpstreamReady | PoolMissing | PoolOurs | NameListed | NameAbsent | DeleteOk | NoNodes

  /** `wait` is the flag of the object in memory, which the server's answers refresh; `pending` is the
      snapshot taken before a status write whose patch has not been sent yet; `wasHosted` is the kind
      recorded when the object was read, and `held` the pool that was found. */
  datatype Run =
    | Idle
    | Active(mem: Status, wait: bool, deletes: bool, facts: set<Fact>, pending: seq<Status>, failed: bool,
             wasHosted: bool, held: Option<MachinePool.Pool>)

  /** `splitLost` says that a patch of the cluster's ID or kind was swallowed, `misled` that a broken
      lookup was. */
  datatype Ledger = Ledger(splitLost: bool, misled: bool, faults: nat)

  /** The spec, but for its wait flag, and the name of the object do not change. */
  datatype State = State(
    spec: MachinePool.PoolSpec,
    name: string,
    obj: Resource,
    cloud: Cloud,
    run: Run,
    ledger: Ledger)

  predicate KindsKnown(c: Cloud) {
    "" !in c.clusters && forall id :: id in c.clusters ==> id in c.kind
  }

  predicate Init(s: State) {
    && s.run == Idle && s.obj.persisted == EMPTY_STATUS && !s.obj.finalizer && !s.obj.deleting && !s.obj.gone
    && s.cloud.pools == map[] && KindsKnown(s.cloud) && s.ledger == Ledger(false, false, 0)
  }

  datatype Event =
    | Start
    | Note(condition: Condition)
    | Upstream(answer: Answer)
    | Patch(outcome: PatchOutcome)
    | AddFinalizer(reply: CallReply)
    | PoolGet(held: Option<MachinePool.Pool>)
    | PoolCreate(reply: CallReply)
    | PoolUpdate(reply: CallReply)
    | NameLookup(listed: bool)
    | PoolDelete(reply: CallReply)
    | Nodes(count: nat)
    | RemoveFinalizer(reply: CallReply)
    | Fault
    | End
    | Crash
    | UserDelete
    | UserEdit(wait: bool)
    | Drift(clusters: set<string>)

  /** The reconcile goes on and has no unsent status write. */
  predicate Going(s: State) {
    s.run.Active? && !s.run.failed && s.run.pending == []
  }

  function Ref(st: Status): PoolRef {
    PoolRef(st.clusterID, st.hosted)
  }

  /** A lookup answers truthfully: by name while no ID is recorded, by ID from then on. */
  predicate Truthful(c: Cloud, id: string, a: Answer) {
    match a
    case Absent => if id == "" then c.clusters == {} else id !in c.clusters
    case Broken => id != ""
    case Found(i, hosted, _) => i in c.clusters && i in c.kind && c.kind[i] == hosted && (id != "" ==> i == id)
  }

  /** Past the upstream gate and the read of the pool, in a create reconcile. */
  predicate Applying(s: State) {
    Going(s) && !s.run.deletes && FinalizerOn in s.run.facts && UpstreamReady in s.run.facts
  }

  /** What the request compares with, and what it asks OCM for. */
  function WantedBy(s: State): MachinePool.PoolSpec
    requires s.run.Active?
  {
    MachinePool.Wanted(s.spec, s.name, s.run.wasHosted)
  }

  function Asked(s: State): MachinePool.Pool
    requires s.run.Active?
  {
    MachinePool.Request(WantedBy(s), s.run.mem.hosted, ZonesOf(s.cloud, s.run.mem.clusterID))
  }

  /** The spec that a pool is read as; None stands for the panic on a pool without zones. */
  function ReadAs(hosted: bool, p: MachinePool.Pool, clusterName: string): Option<MachinePool.PoolSpec> {
    if hosted then Some(MachinePool.CopyFromNodePool(p, clusterName))
    else MachinePool.CopyFromMachinePool(p, clusterName)
  }

  /** The pool that was read is not in its desired state. */
  predicate Differs(s: State)
    requires s.run.Active?
  {
    && s.run.held.Some?
    && var current := ReadAs(s.run.mem.hosted, s.run.held.value, s.spec.clusterName);
       current.Some? && !MachinePool.InDesiredState(WantedBy(s), current.value)
  }

  predicate CanNote(s: State, c: Condition) {
    && Going(s) && !IsSet(c, s.run.mem.conditions)
    && match c.ctype
       case Reconciling => true
       case UpstreamClusterExists => !s.run.deletes
       case MachinePoolDeleted => c == DeletedCondition(c.lastTransition) && DeleteOk in s.run.facts
       case _ => false
  }

  predicate Enabled(s: State, e: Event) {
    match e
    case Start => s.run.Idle? && !s.obj.gone
    case Note(c) => CanNote(s, c)
    case Upstream(a) =>
      Going(s) && !s.run.deletes && UpstreamReady !in s.run.facts && Truthful(s.cloud, s.run.mem.clusterID, a)
    case Patch(o) => s.run.Active? && !s.run.failed && |s.run.pending| == 1 && (Persists(o) ==> !s.obj.gone)
    case AddFinalizer(r) =>
      && Going(s) && !s.run.deletes && FinalizerOn !in s.run.facts
      && (TookEffect(r) ==> !s.obj.gone && !s.obj.deleting)
    case PoolGet(held) =>
      && Applying(s) && PoolMissing !in s.run.facts && PoolOurs !in s.run.facts
      && (Ref(s.run.mem) in s.cloud.pools ==> held == Some(s.cloud.pools[Ref(s.run.mem)]))
    case PoolCreate(r) =>
      && Applying(s) && PoolMissing in s.run.facts
      && (TookEffect(r) ==> var m := s.run.mem;
            m.clusterID in s.cloud.clusters && m.clusterID in s.cloud.kind && s.cloud.kind[m.clusterID] == m.hosted)
    case PoolUpdate(_) => Applying(s) && PoolOurs in s.run.facts && Differs(s)
    case NameLookup(listed) => Going(s) && s.run.deletes && (listed <==> s.cloud.clusters != {})
    case PoolDelete(_) => Going(s) && s.run.deletes && NameListed in s.run.facts && !MarkedDeleted(s.run.mem)
    case Nodes(_) => Going(s)
    case RemoveFinalizer(_) =>
      && Going(s) && s.run.deletes && (MarkedDeleted(s.run.mem) || NameAbsent in s.run.facts)
      && (s.run.wait ==> NoNodes in s.run.facts)
    case Fault => Going(s)
    case End => s.run.Active? && s.run.pending == []
    case Crash => s.run.Active?
    case UserDelete => !s.obj.gone && !s.obj.deleting
    case UserEdit(_) => !s.obj.gone
    case Drift(clusters) => "" !in clusters && forall id :: id in clusters ==> id in s.cloud.kind
  }

  /** SetClusterStatus */
  function WithCluster(st: Status, a: Answer): Status {
    match a
    case Absent => st
    case Broken => st.(hosted := false)
    case Found(id, hosted, _) => st.(clusterID := if st.clusterID == "" then id else st.clusterID, hosted := hosted)
  }

  /** A truthful answer is recorded as it is: the answered cluster, and its kind. */
  lemma RecordsAnswer(c: Cloud, st: Status, a: Answer)
    requires Truthful(c, st.clusterID, a) && a.Found?
    ensures WithCluster(st, a) == st.(clusterID := a.id, hosted := a.hosted)
    ensures WithCluster(st, a).clusterID in c.clusters
    ensures WithCluster(st, a).hosted == c.kind[a.id]
  {
  }

  function Splits(snapshot: Status, memory: Status): bool {
    snapshot.clusterID != memory.clusterID || snapshot.hosted != memory.hosted
  }

  function ApplyPatch(s: State, o: PatchOutcome): State
    requires s.run.Active? && |s.run.pending| == 1
  {
    var snapshot, m := s.run.pending[0], s.run.mem;
    var persisted := if Persists(o) then Merge(s.obj.persisted, snapshot, m) else s.obj.persisted;
    s.(obj := s.obj.(persisted := persisted),
       run := s.run.(mem := if o.Applied? then Decode(persisted, m) else m,
                     wait := if o.Applied? then DecodeFlag(s.obj.wait, s.run.wait) else s.run.wait,
                     pending := [], failed := o.Failed?),
       ledger := s.ledger.(splitLost := s.ledger.splitLost || (o.Swallowed? && Splits(snapshot, m)),
                           faults := if o.Applied? then s.ledger.faults else s.ledger.faults + 1))
  }

  function Faulty(l: Ledger, r: CallReply): Ledger {
    if r.Rejected? then l.(faults := l.faults + 1) else l
  }

  function Learn(s: State, fs: set<Fact>): State
    requires s.run.Active?
  {
    s.(run := s.run.(facts := s.run.facts + fs))
  }

  function Apply(s: State, e: Event): State
    requires Enabled(s, e)
  {
    var o, c, l := s.obj, s.cloud, s.ledger;
    match e
    case Start =>
      s.(run := Active(o.persisted, o.wait, o.deleting, if o.finalizer then {FinalizerOn} else {}, [], false,
                         o.persisted.hosted, None))
    case Note(cond) =>
      s.(run := s.run.(mem := s.run.mem.(conditions := AddCondition(s.run.mem.conditions, cond)),
          pending := [s.run.mem]))
    case Upstream(a) =>
      s.(run := s.run.(mem := WithCluster(s.run.mem, a), pending := if a.Absent? then [] else [s.run.mem],
                       facts := s.run.facts + if a.Found? && a.ready then {UpstreamReady} else {}),
         ledger := l.(misled := l.misled || a.Broken?, faults := if a.Broken? then l.faults + 1 else l.faults))
    case Patch(outcome) => ApplyPatch(s, outcome)
    case AddFinalizer(r) =>
      s.(obj := o.(finalizer := o.finalizer || TookEffect(r)),
         run := if r.Accepted? then s.run.(mem := Decode(o.persisted, s.run.mem),
                                           wait := DecodeFlag(o.wait, s.run.wait),
                                           facts := s.run.facts + {FinalizerOn})
                else s.run,
         ledger := Faulty(l, r))
    case PoolGet(held) =>
      Learn(s.(run := s.run.(held := held)),
            if held.None? then {PoolMissing}
            else if MachinePool.HasManagedLabels(held.value.labels) then {PoolOurs} else {})
    case PoolCreate(r) =>
      s.(cloud := if TookEffect(r) then c.(pools := c.pools[Ref(s.run.mem) := Asked(s)]) else c, ledger := Faulty(l, r))
    case PoolUpdate(r) =>
      s.(cloud := if TookEffect(r) && Ref(s.run.mem) in c.pools then c.(pools := c.pools[Ref(s.run.mem) := Asked(s)])
                  else c,
         run := s.run.(facts := s.run.facts - {PoolOurs}),
         ledger := Faulty(l, r))
    case NameLookup(listed) => Learn(s, if listed then {NameListed} else {NameAbsent})
    case PoolDelete(r) =>
      Learn(s, if r.Accepted? then {DeleteOk} else {}).(
        cloud := if TookEffect(r) then c.(pools := c.pools - {Ref(s.run.mem)}) else c, ledger := Faulty(l, r))
    case Nodes(count) => Learn(s, if count == 0 then {NoNodes} else {})
    case RemoveFinalizer(r) =>
      s.(obj := if TookEffect(r) then o.(finalizer := false, gone := true) else o, ledger := Faulty(l, r))
    case Fault => s.(ledger := l.(faults := l.faults + 1))
    case End => s.(run := Idle)
    case Crash => s.(run := Idle, ledger := l.(faults := l.faults + 1))
    case UserDelete => s.(obj := o.(deleting := true, gone := !o.finalizer))
    case UserEdit(wait) => s.(obj := o.(wait := wait))
    case Drift(clusters) =>
      s.(cloud := c.(clusters := clusters, pools := map p | p in c.pools && p.clusterID in clusters :: c.pools[p]))
  }

  // ---- Traces ----

  predicate Legal(s: State, es: seq<Event>)
    decreases |es|, 0
  {
    es == [] ||
    (Legal(s, es[..|es| - 1]) && Enabled(Exec(s, es[..|es| - 1]), es[|es| - 1]))
  }

  /** The state after a legal trace. */
  function Exec(s: State, es: seq<Event>): State
    requires Legal(s, es)
    decreases |es|, 1
  {
    if es == [] then s else Apply(Exec(s, es[..|es| - 1]), es[|es| - 1])
  }

  lemma Extend(s: State, es: seq<Event>, e: Event)
    requires Legal(s, es) && Enabled(Exec(s, es), e)
    ensures Legal(s, es + [e]) && Exec(s, es + [e]) == Apply(Exec(s, es), e)
  {
    assert (es + [e])[..|es|] == es;
  }

  lemma {:induction false} LegalPrefix(s: State, es: seq<Event>, n: nat)
    requires Legal(s, es) && n < |es|
    ensures Legal(s, es[..n]) && Enabled(Exec(s, es[..n]), es[n])
  {
    if n < |es| - 1 {
      var before := es[..|es| - 1];
      assert before[..n] == es[..n];
      LegalPrefix(s, before, n);
    }
  }
}
