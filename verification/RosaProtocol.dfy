/** The ROSA cluster life cycle as a labelled transition system: the persisted object, the
    reconcile in progress, OCM and AWS. The labels carry the outcome chosen by the environment. */
module RosaProtocol {
  import opened Conditions
  import opened StatusPatch
  import opened Requests
  import opened OperatorRoles

  // ---- The object ----

  datatype Status = Status(
    conditions: seq<Condition>,
    clusterID: string,
    oidcConfigID: string,
    oidcProviderARN: string,
    version: string,
    versionID: string,
    rolesCreated: bool,
    rolesPrefix: string)

  const EMPTY_STATUS := Status([], "", "", "", "", "", false, "")

  /** The parts of the (immutable) spec the life cycle depends on; blank means unset. */
  datatype Spec = Spec(prefix: string, version: string, managedPolicies: bool)

  function Merge(server: Status, snapshot: Status, memory: Status): Status {
    Status(
      MergeField(server.conditions, snapshot.conditions, memory.conditions),
      MergeField(server.clusterID, snapshot.clusterID, memory.clusterID),
      MergeField(server.oidcConfigID, snapshot.oidcConfigID, memory.oidcConfigID),
      MergeField(server.oidcProviderARN, snapshot.oidcProviderARN, memory.oidcProviderARN),
      MergeField(server.version, snapshot.version, memory.version),
      MergeField(server.versionID, snapshot.versionID, memory.versionID),
      MergeField(server.rolesCreated, snapshot.rolesCreated, memory.rolesCreated),
      MergeField(server.rolesPrefix, snapshot.rolesPrefix, memory.rolesPrefix))
  }

  function Decode(server: Status, memory: Status): Status {
    Status(
      DecodeList(server.conditions, memory.conditions),
      DecodeString(server.clusterID, memory.clusterID),
      DecodeString(server.oidcConfigID, memory.oidcConfigID),
      DecodeString(server.oidcProviderARN, memory.oidcProviderARN),
      DecodeString(server.version, memory.version),
      DecodeString(server.versionID, memory.versionID),
      DecodeFlag(server.rolesCreated, memory.rolesCreated),
      DecodeString(server.rolesPrefix, memory.rolesPrefix))
  }

  /** A patch sends what memory changed and nothing else: without another writer the server ends up
      with memory, and what was not changed keeps the server's value, field by field. */
  lemma PatchLaws(server: Status, snapshot: Status, memory: Status)
    ensures Merge(snapshot, snapshot, memory) == memory && Merge(server, memory, memory) == server
    ensures var r := Merge(server, snapshot, memory);
      && (r.conditions == server.conditions || (r.conditions == memory.conditions != snapshot.conditions))
      && (r.clusterID == server.clusterID || (r.clusterID == memory.clusterID != snapshot.clusterID))
      && (r.oidcConfigID == server.oidcConfigID || (r.oidcConfigID == memory.oidcConfigID != snapshot.oidcConfigID))
      && (r.oidcProviderARN == server.oidcProviderARN
          || (r.oidcProviderARN == memory.oidcProviderARN != snapshot.oidcProviderARN))
      && (r.version == server.version || (r.version == memory.version != snapshot.version))
      && (r.versionID == server.versionID || (r.versionID == memory.versionID != snapshot.versionID))
      && (r.rolesCreated == server.rolesCreated || (r.rolesCreated == memory.rolesCreated != snapshot.rolesCreated))
      && (r.rolesPrefix == server.rolesPrefix || (r.rolesPrefix == memory.rolesPrefix != snapshot.rolesPrefix))
  {
  }

  /** What the server answers wins over memory where it says anything. */
  lemma DecodeLaws(server: Status, memory: Status)
    ensures Decode(server, EMPTY_STATUS) == server && Decode(EMPTY_STATUS, memory) == memory
    ensures Decode(server, Decode(server, memory)) == Decode(server, memory)
  {
  }

  // ---- One-shot conditions ----

  predicate OneShot(t: ConditionType) {
    t != Reconciling && t != UpstreamClusterExists && t != MachinePoolDeleted
  }

  predicate Teardown(t: ConditionType) {
    t == OperatorRolesDeleted || t == OIDCProviderDeleted || t == OIDCConfigDeleted || t == ClusterUninstalling
  }

  function RosaCondition(t: ConditionType, at: int): Condition {
    var reason :=
      if t == ClusterCreated then TriggerCreate else if t == ClusterUpdated then TriggerUpdate else TriggerDelete;
    Condition(t, true, reason, MessageOf(t), 0, at)
  }

  predicate Has(status: Status, t: ConditionType) {
    IsSet(RosaCondition(t, 0), status.conditions)
  }

  // ---- OCM and AWS ----

  datatype Role = Role(prefix: string, name: string)
  datatype Grant = Grant(role: Role, policy: string)

  /** The role of a credential request, and its policy attached to it. */
  function GrantFor(managed: bool, prefix: string, r: CredentialRequest, policies: seq<Policy>): Grant {
    Grant(Role(prefix, RoleName(prefix, r)), PolicyFor(managed, prefix, r, policies))
  }

  function GrantsOf(managed: bool, prefix: string, requests: seq<CredentialRequest>,
      policies: seq<Policy>): set<Grant> {
    set r | r in requests :: GrantFor(managed, prefix, r, policies)
  }

  /** Every request has its role, with the policy it asks for attached. */
  predicate Granted(managed: bool, prefix: string, requests: seq<CredentialRequest>, policies: seq<Policy>,
      grants: set<Grant>) {
    forall r :: r in requests ==>
      && GrantFor(managed, prefix, r, policies) in grants
      && (managed ==> PolicyFor(managed, prefix, r, policies) != "")
  }

  /** The object as the API server holds it. */
  datatype Resource = Resource(persisted: Status, finalizer: bool, deleting: bool, gone: bool)

  /** OCM and AWS. `mine` are the listed clusters of this name that the operator created;
      `foreign` says that someone else's cluster of this name is listed. */
  datatype Cloud = Cloud(
    mine: set<string>,
    foreign: bool,
    configs: set<string>,
    providers: set<string>,
    policies: set<string>,
    roles: set<Role>,
    grants: set<Grant>)

  /** A create that reports failure may still have taken effect. */
  datatype CreateReply = Made(id: string) | Ambiguous(id: string) | Refused

  // ---- The reconcile in progress ----

  datatype Fact =
    | FinalizerOn | SawMissing | SawListed | CreateOk
    | ScanClear | DeleteOk | RolesGone | ConfigGone | ProviderGone

  /** Status fields written in memory whose first patch has not been sent yet. */
  datatype Unsaved = UnsavedPrefix | UnsavedVersion | UnsavedConfig | UnsavedProvider | UnsavedRoles | UnsavedCluster

  /** `start` is the status read at the start, `mem` the status of the object in memory, `requests`
      the credential requests OCM listed. */
  datatype Run =
    | Idle
    | Active(start: Status, mem: Status, prefix: string, version: string, deletes: bool,
             facts: set<Fact>, unsaved: set<Unsaved>, requests: seq<CredentialRequest>, failed: bool)

  /** History variables. `lost` counts patches that did not persist and crashes, `prefixesLost`
      swallowed patches of a prefix; creates that reported success are made, creates that reported
      failure but took effect are doubtful. */
  datatype Ledger = Ledger(
    lost: nat,
    faults: nat,
    prefixLost: bool,
    prefixesLost: nat,
    versionLost: bool,
    idLost: bool,
    configsMade: nat,
    configsDoubtful: nat,
    providersMade: nat,
    providersDoubtful: nat,
    configIDs: set<string>,
    providerARNs: set<string>,
    clusterIDs: set<string>,
    prefixes: set<string>,
    listed: set<Grant>,
    rolesTouched: bool)

  datatype State = State(spec: Spec, obj: Resource, cloud: Cloud, run: Run, ledger: Ledger)

  predicate Init(s: State) {
    && s.run == Idle
    && s.obj == Resource(EMPTY_STATUS, false, false, false)
    && s.cloud.mine == {} && s.cloud.configs == {} && s.cloud.providers == {}
    && s.cloud.roles == {} && s.cloud.grants == {}
    && s.ledger == Ledger(0, 0, false, 0, false, false, 0, 0, 0, 0, {}, {}, {}, {}, {}, false)
  }

  // ---- Events ----

  datatype Event =
    | Start
    | PickPrefix(prefix: string)
    | PickVersion(version: string)
    | SetVersionID(id: string)
    | Patch(snapshot: Status, outcome: PatchOutcome)
    | Note(condition: Condition)
    | AddFinalizer(reply: CallReply)
    | Lookup(listed: bool)
    | ConfigCreate(made: CreateReply)
    | ProviderCreate(made: CreateReply)
    | EnsurePolicy(policy: string)
    | EnsureRole(role: Role)
    | Attach(grant: Grant, reply: CallReply)
    | ListRequests(requests: seq<CredentialRequest>)
    | RolesReady(prefix: string, requests: seq<CredentialRequest>, policies: seq<Policy>)
    | ClusterCreate(versionID: string, made: CreateReply)
    | ClusterUpdate
    | ScanChildren(id: string, kinds: seq<seq<string>>)
    | ClusterDelete(id: string, reply: CallReply)
    | ListRoles(prefix: string, found: set<Role>)
    | RoleDelete(role: Role, reply: CallReply)
    | RolesDone
    | ConfigDelete(id: string, reply: CallReply)
    | ProviderDelete(id: string, reply: CallReply)
    | RemoveFinalizer(reply: CallReply)
    | Fault
    | End
    | Crash
    | UserDelete
    | Drift(mine: set<string>, foreign: bool)

  predicate Going(s: State) {
    s.run.Active? && !s.run.failed
  }

  /** NewRequest is done: prefix and version are resolved and their patches sent. */
  predicate Resolved(r: Run)
    requires r.Active?
  {
    && r.prefix != "" && r.version != "" && r.mem.versionID != ""
    && UnsavedPrefix !in r.unsaved && UnsavedVersion !in r.unsaved
  }

  /** Past NewRequest, whose patches did not report an error. */
  predicate Prepared(s: State) {
    Going(s) && Resolved(s.run)
  }

  /** Inside createCluster. */
  predicate Creating(s: State) {
    && Prepared(s) && !s.run.deletes
    && FinalizerOn in s.run.facts && SawMissing in s.run.facts && CreateOk !in s.run.facts
    && !Has(s.run.mem, ClusterCreated)
  }

  /** Past WaitUntilMissing in a delete reconcile. */
  predicate Clearing(s: State) {
    Prepared(s) && s.run.deletes && SawMissing in s.run.facts
  }

  predicate NoChild(id: string, kinds: seq<seq<string>>) {
    forall k :: 0 <= k < |kinds| ==> id !in kinds[k]
  }

  predicate CanNote(s: State, c: Condition) {
    && Prepared(s) && s.run.unsaved == {} && !IsSet(c, s.run.mem.conditions)
    && (c.ctype != Reconciling ==> c == RosaCondition(c.ctype, c.lastTransition))
    && match c.ctype
       case Reconciling => true
       case ClusterCreated => CreateOk in s.run.facts
       case ClusterUpdated => !s.run.deletes && SawListed in s.run.facts
       case ClusterUninstalling => DeleteOk in s.run.facts
       case OperatorRolesDeleted => RolesGone in s.run.facts
       case OIDCProviderDeleted => ConfigGone in s.run.facts
       case OIDCConfigDeleted => ProviderGone in s.run.facts
       case _ => false
  }

  function RolesOf(roles: set<Role>, prefix: string): set<Role> {
    set r | r in roles && r.prefix == prefix
  }

  predicate NonEmptyID(r: CreateReply) {
    r.Refused? || r.id != ""
  }

  /** Calls to OCM and AWS that create no OCM object or provider and write no status field. */
  predicate IsCall(e: Event) {
    e.Lookup? || e.EnsurePolicy? || e.EnsureRole? || e.Attach? || e.ClusterUpdate? || e.ScanChildren? ||
    e.ClusterDelete? || e.ListRoles? || e.RoleDelete? || e.RolesDone? || e.ConfigDelete? || e.ProviderDelete? ||
    e.Fault?
  }

  /** Writes to the object in memory. */
  predicate IsWrite(e: Event) {
    e.PickPrefix? || e.PickVersion? || e.SetVersionID? || e.Note? || e.ListRequests? || e.RolesReady?
  }

  predicate IsCreate(e: Event) {
    e.ConfigCreate? || e.ProviderCreate? || e.ClusterCreate?
  }

  predicate CanCall(s: State, e: Event)
    requires IsCall(e)
  {
    && Going(s)
    && match e
       case Lookup(listed) => Prepared(s) && (listed <==> s.cloud.mine != {} || s.cloud.foreign)
       case EnsurePolicy(_) => Creating(s) && !s.run.mem.rolesCreated
       case EnsureRole(r) => Creating(s) && !s.run.mem.rolesCreated && r.prefix == s.run.prefix
       case Attach(g, _) =>
         && Creating(s) && !s.run.mem.rolesCreated && g.role.prefix == s.run.prefix
         && g.role in s.cloud.roles && (s.spec.managedPolicies || g.policy in s.cloud.policies)
       case ClusterUpdate => Prepared(s) && !s.run.deletes && SawListed in s.run.facts
       case ScanChildren(id, kinds) =>
         Prepared(s) && s.run.deletes && id == s.run.mem.clusterID && (NoChild(id, kinds) ==> |kinds| == 3)
       case ClusterDelete(id, _) =>
         && Prepared(s) && s.run.deletes && ScanClear in s.run.facts && id == s.run.mem.clusterID
         && Has(s.run.mem, ClusterCreated) && !Has(s.run.mem, ClusterUninstalling)
       case ListRoles(p, found) => Clearing(s) && p == s.run.prefix && found == RolesOf(s.cloud.roles, p)
       case RoleDelete(r, _) => Clearing(s) && r.prefix == s.run.prefix && !Has(s.run.mem, OperatorRolesDeleted)
       case RolesDone => Clearing(s) && RolesOf(s.cloud.roles, s.run.prefix) == {}
       case ConfigDelete(id, _) =>
         && Clearing(s) && id == s.run.mem.oidcConfigID
         && Has(s.run.mem, OperatorRolesDeleted) && !Has(s.run.mem, OIDCProviderDeleted)
       case ProviderDelete(id, _) =>
         && Clearing(s) && id == s.run.mem.oidcProviderARN
         && Has(s.run.mem, OperatorRolesDeleted) && Has(s.run.mem, OIDCProviderDeleted)
         && !Has(s.run.mem, OIDCConfigDeleted)
       case Fault => true
  }

  predicate CanWrite(s: State, e: Event)
    requires IsWrite(e)
  {
    && Going(s)
    && match e
       case PickPrefix(p) =>
         && s.run.prefix == "" && p != ""
         && (if s.run.mem.rolesPrefix != "" then p == s.run.mem.rolesPrefix
             else s.spec.prefix != "" ==> p == s.spec.prefix)
       case PickVersion(v) =>
         && s.run.version == "" && v != ""
         && (if s.spec.version != "" then v == s.spec.version
             else s.run.start.version != "" ==> v == s.run.start.version)
       case SetVersionID(id) => s.run.version != "" && s.run.mem.versionID == "" && id != ""
       case Note(c) => CanNote(s, c)
       case ListRequests(_) => Creating(s) && !s.run.mem.rolesCreated
       case RolesReady(prefix, requests, policies) =>
         && Creating(s) && !s.run.mem.rolesCreated && prefix == s.run.prefix && requests == s.run.requests != []
         && Granted(s.spec.managedPolicies, prefix, requests, policies, s.cloud.grants)
  }

  predicate CanCreate(s: State, e: Event)
    requires IsCreate(e)
  {
    && Creating(s) && NonEmptyID(e.made)
    && match e
       case ConfigCreate(_) => s.run.mem.oidcConfigID == ""
       case ProviderCreate(_) => s.run.mem.oidcConfigID != "" && s.run.mem.oidcProviderARN == ""
       case ClusterCreate(v, _) =>
         && s.run.unsaved == {} && s.run.mem.rolesCreated
         && s.run.mem.oidcConfigID != "" && s.run.mem.oidcProviderARN != ""
         && v == s.run.mem.versionID != ""
  }

  predicate CanPatch(s: State, snapshot: Status, o: PatchOutcome) {
    && Going(s) && (Persists(o) ==> !s.obj.gone)
    && (snapshot.version == s.run.mem.version <==> snapshot.versionID == s.run.mem.versionID)
  }

  /** The begin and the end of reconciles, finalizers, and what others do. */
  predicate IsOther(e: Event) {
    !IsCall(e) && !IsWrite(e) && !IsCreate(e) && !e.Patch?
  }

  predicate CanOccur(s: State, e: Event)
    requires IsOther(e)
  {
    match e
    case Start => s.run.Idle? && !s.obj.gone
    case AddFinalizer(r) =>
      && Prepared(s) && !s.run.deletes && FinalizerOn !in s.run.facts
      && (TookEffect(r) ==> !s.obj.gone && !s.obj.deleting)
    case RemoveFinalizer(_) =>
      && Clearing(s) && Has(s.run.mem, OperatorRolesDeleted)
      && Has(s.run.mem, OIDCProviderDeleted) && Has(s.run.mem, OIDCConfigDeleted)
    case End => s.run.Active? && s.run.unsaved == {}
    case Crash => s.run.Active?
    case UserDelete => !s.obj.gone && !s.obj.deleting
    case Drift(mine, _) => mine <= s.cloud.mine
  }

  predicate Enabled(s: State, e: Event) {
    if IsCall(e) then CanCall(s, e)
    else if IsWrite(e) then CanWrite(s, e)
    else if IsCreate(e) then CanCreate(s, e)
    else if e.Patch? then CanPatch(s, e.snapshot, e.outcome)
    else CanOccur(s, e)
  }

  /** Which first patches a patch against this snapshot sends. */
  function Covered(snapshot: Status, memory: Status): set<Unsaved> {
    (if snapshot.rolesPrefix != memory.rolesPrefix then {UnsavedPrefix} else {}) +
    (if snapshot.versionID != memory.versionID then {UnsavedVersion} else {}) +
    (if snapshot.oidcConfigID != memory.oidcConfigID then {UnsavedConfig} else {}) +
    (if snapshot.oidcProviderARN != memory.oidcProviderARN then {UnsavedProvider} else {}) +
    (if snapshot.rolesCreated != memory.rolesCreated then {UnsavedRoles} else {}) +
    (if snapshot.clusterID != memory.clusterID then {UnsavedCluster} else {})
  }

  function PatchLedger(l: Ledger, covered: set<Unsaved>, o: PatchOutcome): Ledger {
    l.(lost := if Persists(o) then l.lost else l.lost + 1,
       faults := if o.Applied? then l.faults else l.faults + 1,
       prefixLost := l.prefixLost || (o.Swallowed? && UnsavedPrefix in covered),
       prefixesLost := l.prefixesLost + (if o.Swallowed? && UnsavedPrefix in covered then 1 else 0),
       versionLost := l.versionLost || (o.Swallowed? && UnsavedVersion in covered),
       idLost := l.idLost || (o.Swallowed? && UnsavedCluster in covered))
  }

  /** The trigger is read off the object after NewRequest, whose patches bring back the server's
      answer: a deletion requested meanwhile is noticed if one of them was applied. */
  function PatchDeletes(s: State, o: PatchOutcome): bool
    requires s.run.Active?
  {
    s.run.deletes || (o.Applied? && s.obj.deleting && !Resolved(s.run))
  }

  function ApplyPatch(s: State, snapshot: Status, o: PatchOutcome): State
    requires s.run.Active?
  {
    var covered := Covered(snapshot, s.run.mem);
    var persisted := if Persists(o) then Merge(s.obj.persisted, snapshot, s.run.mem) else s.obj.persisted;
    s.(obj := s.obj.(persisted := persisted),
       run := s.run.(mem := if o.Applied? then Decode(persisted, s.run.mem) else s.run.mem,
                     deletes := PatchDeletes(s, o), unsaved := s.run.unsaved - covered, failed := o.Failed?),
       ledger := PatchLedger(s.ledger, covered, o))
  }

  /** The status field a successful create writes, and the pending patch of that field. */
  function CreateRun(r: Run, e: Event): Run
    requires r.Active? && IsCreate(e)
  {
    match e
    case ConfigCreate(made) =>
      if made.Made? then r.(mem := r.mem.(oidcConfigID := made.id), unsaved := r.unsaved + {UnsavedConfig}) else r
    case ProviderCreate(made) =>
      if made.Made? then r.(mem := r.mem.(oidcProviderARN := made.id), unsaved := r.unsaved + {UnsavedProvider}) else r
    case ClusterCreate(_, made) =>
      if made.Made? then r.(mem := r.mem.(clusterID := made.id), facts := r.facts - {SawMissing} + {CreateOk},
                            unsaved := r.unsaved + {UnsavedCluster})
      else if made.Ambiguous? then r.(facts := r.facts - {SawMissing})
      else r
  }

  function CreateCloud(c: Cloud, e: Event): Cloud
    requires IsCreate(e)
  {
    if e.made.Refused? then c
    else match e
      case ConfigCreate(made) => c.(configs := c.configs + {made.id})
      case ProviderCreate(made) => c.(providers := c.providers + {made.id})
      case ClusterCreate(_, made) => c.(mine := c.mine + {made.id})
  }

  function CreateLedger(l: Ledger, e: Event): Ledger
    requires IsCreate(e)
  {
    var l' := l.(faults := if e.made.Made? then l.faults else l.faults + 1);
    if e.made.Refused? then l'
    else match e
      case ConfigCreate(made) =>
        if made.Made? then l'.(configsMade := l.configsMade + 1, configIDs := l.configIDs + {made.id})
        else l'.(configsDoubtful := l.configsDoubtful + 1, configIDs := l.configIDs + {made.id})
      case ProviderCreate(made) =>
        if made.Made? then l'.(providersMade := l.providersMade + 1, providerARNs := l.providerARNs + {made.id})
        else l'.(providersDoubtful := l.providersDoubtful + 1, providerARNs := l.providerARNs + {made.id})
      case ClusterCreate(_, made) => l'.(clusterIDs := l.clusterIDs + {made.id})
  }

  function WriteRun(r: Run, e: Event): Run
    requires r.Active? && IsWrite(e)
  {
    match e
    case PickPrefix(p) =>
      if r.mem.rolesPrefix != "" then r.(prefix := p)
      else r.(prefix := p, mem := r.mem.(rolesPrefix := p), unsaved := r.unsaved + {UnsavedPrefix})
    case PickVersion(v) => r.(version := v)
    case SetVersionID(id) =>
      r.(mem := r.mem.(version := r.version, versionID := id), unsaved := r.unsaved + {UnsavedVersion})
    case Note(c) => r.(mem := r.mem.(conditions := AddCondition(r.mem.conditions, c)))
    case ListRequests(requests) => r.(requests := requests)
    case RolesReady(_, _, _) => r.(mem := r.mem.(rolesCreated := true), unsaved := r.unsaved + {UnsavedRoles})
  }

  function WriteLedger(l: Ledger, managed: bool, e: Event): Ledger
    requires IsWrite(e)
  {
    if e.RolesReady? then l.(listed := GrantsOf(managed, e.prefix, e.requests, e.policies)) else l
  }

  function CallCloud(c: Cloud, e: Event): Cloud
    requires IsCall(e)
  {
    match e
    case EnsurePolicy(p) => c.(policies := c.policies + {p})
    case EnsureRole(r) => c.(roles := c.roles + {r})
    case Attach(g, r) => if TookEffect(r) then c.(grants := c.grants + {g}) else c
    case RoleDelete(role, r) =>
      if TookEffect(r) then c.(roles := c.roles - {role}, grants := set g | g in c.grants && g.role != role) else c
    case ConfigDelete(id, r) => if TookEffect(r) then c.(configs := c.configs - {id}) else c
    case ProviderDelete(id, r) => if TookEffect(r) then c.(providers := c.providers - {id}) else c
    case _ => c
  }

  function CallFacts(facts: set<Fact>, e: Event): set<Fact>
    requires IsCall(e)
  {
    match e
    case Lookup(listed) =>
      if listed then facts - {SawMissing} + {SawListed} else facts - {SawListed} + {SawMissing}
    case ScanChildren(id, kinds) => if NoChild(id, kinds) then facts + {ScanClear} else facts
    case ClusterDelete(_, r) => if r.Accepted? then facts + {DeleteOk} else facts
    case RolesDone => facts + {RolesGone}
    case ConfigDelete(_, r) => if r.Accepted? then facts + {ConfigGone} else facts
    case ProviderDelete(_, r) => if r.Accepted? then facts + {ProviderGone} else facts
    case _ => facts
  }

  predicate FaultyCall(e: Event)
    requires IsCall(e)
  {
    match e
    case Fault => true
    case Attach(_, r) => r.Rejected?
    case ClusterDelete(_, r) => r.Rejected?
    case RoleDelete(_, r) => r.Rejected?
    case ConfigDelete(_, r) => r.Rejected?
    case ProviderDelete(_, r) => r.Rejected?
    case _ => false
  }

  /** The role-name prefixes a call mentions. */
  function PrefixesIn(e: Event): set<string> {
    match e
    case EnsureRole(r) => {r.prefix}
    case Attach(g, _) => {g.role.prefix}
    case ListRoles(p, _) => {p}
    case RoleDelete(r, _) => {r.prefix}
    case _ => {}
  }

  function CallLedger(l: Ledger, e: Event): Ledger
    requires IsCall(e)
  {
    l.(faults := if FaultyCall(e) then l.faults + 1 else l.faults,
       prefixes := l.prefixes + PrefixesIn(e),
       rolesTouched := l.rolesTouched || e.RoleDelete?)
  }

  function Faulted(l: Ledger, faulty: bool): Ledger {
    if faulty then l.(faults := l.faults + 1) else l
  }

  function ApplyCall(s: State, e: Event): State
    requires s.run.Active? && IsCall(e)
  {
    s.(cloud := CallCloud(s.cloud, e), run := s.run.(facts := CallFacts(s.run.facts, e)),
        ledger := CallLedger(s.ledger, e))
  }

  function ApplyWrite(s: State, e: Event): State
    requires s.run.Active? && IsWrite(e)
  {
    s.(run := WriteRun(s.run, e), ledger := WriteLedger(s.ledger, s.spec.managedPolicies, e))
  }

  function ApplyCreate(s: State, e: Event): State
    requires s.run.Active? && IsCreate(e)
  {
    s.(cloud := CreateCloud(s.cloud, e), run := CreateRun(s.run, e), ledger := CreateLedger(s.ledger, e))
  }

  function Occur(s: State, e: Event): State
    requires IsOther(e) && CanOccur(s, e)
  {
    var o, l := s.obj, s.ledger;
    match e
    case Start =>
      s.(run := Active(o.persisted, o.persisted, "", "", o.deleting,
                       if o.finalizer then {FinalizerOn} else {}, {}, [], false))
    case AddFinalizer(r) =>
      s.(obj := o.(finalizer := o.finalizer || TookEffect(r)),
         run := if r.Accepted? then s.run.(mem := Decode(o.persisted, s.run.mem), facts := s.run.facts + {FinalizerOn})
                else s.run,
         ledger := Faulted(l, r.Rejected?))
    case RemoveFinalizer(r) =>
      s.(obj := if TookEffect(r) then o.(finalizer := false, gone := true) else o,
         ledger := Faulted(l, r.Rejected?))
    case End => s.(run := Idle)
    case Crash => s.(run := Idle, ledger := Faulted(l.(lost := l.lost + 1), true))
    case UserDelete => s.(obj := o.(deleting := true, gone := !o.finalizer))
    case Drift(mine, foreign) => s.(cloud := s.cloud.(mine := mine, foreign := foreign))
  }

  function Apply(s: State, e: Event): State
    requires Enabled(s, e)
  {
    if IsCall(e) then ApplyCall(s, e)
    else if IsWrite(e) then ApplyWrite(s, e)
    else if IsCreate(e) then ApplyCreate(s, e)
    else if e.Patch? then ApplyPatch(s, e.snapshot, e.outcome)
    else Occur(s, e)
  }

  // ---- Traces ----

  predicate Legal(s: State, es: seq<Event>)
    decreases |es|, 0
  {
    es == [] ||
    (Legal(s, es[..|es| - 1]) && Enabled(Exec(s, es[..|es| - 1]), es[|es| - 1]))
  }

  /** The state after a legal trace. */
  function Exec(s: State, es: seq<Event>): State
    requires Legal(s, es)
    decreases |es|, 1
  {
    if es == [] then s else Apply(Exec(s, es[..|es| - 1]), es[|es| - 1])
  }

  lemma Extend(s: State, es: seq<Event>, e: Event)
    requires Legal(s, es) && Enabled(Exec(s, es), e)
    ensures Legal(s, es + [e]) && Exec(s, es + [e]) == Apply(Exec(s, es), e)
  {
    assert (es + [e])[..|es|] == es;
  }

  lemma {:induction false} LegalPrefix(s: State, es: seq<Event>, n: nat)
    requires Legal(s, es) && n <= |es|
    ensures Legal(s, es[..n])
    ensures n < |es| ==> Enabled(Exec(s, es[..n]), es[n])
    ensures n < |es| ==> Legal(s, es[..n + 1]) && Exec(s, es[..n + 1]) == Apply(Exec(s, es[..n]), es[n])
  {
    if n == |es| {
      assert es[..n] == es;
    } else if n == |es| - 1 {
      assert es[..n + 1] == es;
    } else {
      var before := es[..|es| - 1];
      assert before[..n] == es[..n] && before[..n + 1] == es[..n + 1];
      LegalPrefix(s, before, n);
    }
  }
}
