# A verified model of the OCM operator

The OCM operator is a Kubernetes controller that creates, updates and deletes ROSA clusters, machine
pools and identity providers in OpenShift Cluster Manager (OCM), with supporting objects in AWS. Its
difficulty is crash recovery: a reconcile is a list of phases, any remote call can fail, before or
after it took effect, and the next reconcile resumes from whatever status fields and one-shot
conditions happened to persist.

The project models that machinery and proves what holds over every history of reconciles, whatever
the environment answers; and it proves when the operator's comparison of desired and current state
settles and which changes it notices, as exact conditions on the spec.

`dafny verify dfyconfig.toml` checks everything.

## How it is built

| files | content |
|---|---|
| `GoValues.dfy`, `Requests.dfy`, `StatusPatch.dfy` | nil, truncating division, replies of remote calls, merge patches (section 2 of RFC 7396) with their three outcomes |
| `Conditions.dfy` | the condition list and the map it stands for |
| `RosaProtocol.dfy`, `RosaInvariants.dfy`, `RosaTheorems.dfy`, `RosaHistories.dfy` | the ROSA life cycle as a labelled transition system, its inductive invariants, and the laws of all histories |
| `RosaWitness.dfy` | concrete histories: a whole life, and one for each way in which a hypothesis of the laws fails |
| `RosaReconciler.dfy` | the ROSA controller as a class: each method does what the source does, with remote answers chosen freely, and records its steps as a trace of the protocol; the class invariant says that the trace is legal, so the laws hold of the code |
| `OperatorRoles.dfy`, `AccountRoles.dfy`, `RosaSpec.dfy`, `Versions.dfy` | role names, account-role ARNs, the cluster spec's round trip, choice of the version |
| `MachinePool.dfy`, `MachinePoolObject.dfy` | the machine pool's round trip through OCM, and the object with its shared label map |
| `PoolProtocol.dfy`, `PoolTheorems.dfy`, `PoolWitness.dfy`, `PoolReconciler.dfy` | the machine pool life cycle, its laws, two histories in which a hypothesis of the laws fails, and the controller |
| `Ldap.dfy` | the LDAP provider's round trip |

A status patch is `Applied`, `Swallowed` (a conflict reported as success) or `Failed`, and a failed one
may have been applied. A create is `Made`, `Refused`, or `Ambiguous` (reported as failed, but it took
effect). A trace also contains crashes, deletion by the user, and clusters that come and go in OCM, at
any point. In the reconciler classes these moves of others stand right before the calls that can
notice them: patches and finalizers for the user's, lookups for OCM's.

A few predicates and the class invariants hold "for all k with `Unfold(k)`", `Enter(k)` or `Look(k)`,
which are always true: a proof opens such a fact by mentioning the guard, and is spared its content
otherwise.

Assumptions about the environment, which are guards of the protocols:

- one writer per object, one reconcile at a time, reads that see the last write;
- OCM lists clusters by name and AWS lists roles by prefix truthfully; identifiers are not empty, and
  a new cluster's ID differs from the one recorded before;
- the ID of a request's managed policy and the name of its own policy are derived as the rosa library
  does, which is not part of this model (`PolicyKey`, `PolicyName`);
- a finalizer is not accepted on an object that is being deleted, and the operator's finalizer is the
  only one on its objects;
- OCM returns what it was sent, with tags of its own added, places a pool in all zones of its cluster,
  and nobody else edits the operator's pools.

Where the code and its comments or names disagree, the model follows the code:

- `DestroyOIDC` sets OIDCProviderDeleted after deleting OCM's config and OIDCConfigDeleted after
  deleting AWS's provider; the laws are about the pair.
- ClusterDeleted is never set, so the shortcut of `WaitUntilMissing` is dead, and so is its nil branch.
- A create that took effect but was reported as failed, or whose ClusterCreated patch was lost, leaves
  a cluster the operator never deletes and an object it never lets go (`OrphanTrap`; `NeverDeleted` and
  `LostMarkNeverDeleted` are such histories).
- The trigger of a reconcile is read off the object after NewRequest's patches, so a deletion requested
  meanwhile turns the reconcile into a delete if one of them was applied.
- A lookup of the upstream cluster by ID that fails with anything but "not found" is dropped and makes a
  hosted cluster look classic (`SwallowedErrorLeaks`).
- `NewRequest` of the machine pool refuses a spec only if it carries both reserved labels.
- A machine pool without autoscaling is built from nodes per zone but read back as if from the total.
- The default pool of a ROSA cluster without autoscaling is asked for with the nodes of all zones, but
  read back as the nodes of each, so a change to that number goes unnoticed (`UnnoticedEdit`).
- The spec of a ROSA cluster with managed policies, or whose account-role prefix contains a dash, never
  compares equal to what is read back (`ClusterFixpoint`).
- A delete reconcile, too, must find its version in OCM's listing; a retired version blocks it.

## Model

| member | source | states |
|---|---|---|
| Conditions.CheckIsSet | controllers/conditions/conditions.go:97-105 | true exactly if some entry equals the condition up to times and generation |
| Conditions.EqualUpToTime | controllers/conditions/conditions.go:130-136 | conditions are equal exactly if they are once the transition time and the generation are overwritten |
| Conditions.ComputeAddCondition | controllers/conditions/conditions.go:107-128 | the loop replaces the first entry of the type if it differs, else appends |
| Conditions.AddSets | controllers/conditions/conditions.go:107-136 | adding sets the condition, keeps those of other types, and sets nothing else |
| Conditions.UpdatedRefines | controllers/conditions/conditions.go:77-136 | one update of the list is one update of the map it stands for; a patch is sent exactly if the slot changes |
| Conditions.ListRefinesMap | controllers/conditions/conditions.go:77-136 | from an empty list, any sequence of updates keeps one entry per type in first-insertion order, holds the last distinct write of each type, and sends as many patches as slots changed |
| Conditions.RepeatKeepsTime | controllers/conditions/conditions.go:77-81 | a repeat of anything still recorded keeps the list with its transition times and sends no patch |
| OperatorRoles.GeneratePrefix | pkg/aws/iam.go:62-75 | cluster name, dash, six characters of the alphabet |
| OperatorRoles.RoleNameIs | pkg/aws/iam.go:77-84 | a role name is the first 64 characters of prefix, namespace and operator name joined by dashes |
| OperatorRoles.RolesCollide | pkg/aws/iam.go:77-84 | two operators get one role name exactly if their names agree on what fits beside the prefix in 64 characters; with a prefix of 63 or more, always |
| OperatorRoles.GeneratedPrefixFits | pkg/aws/iam.go:62-84 | a generated prefix is part of every role name exactly if the cluster name has at most 57 characters |
| OperatorRoles.GetPolicyARNByID | pkg/ocm/sts.go:231-239 | the ARN of the first policy with the ID, or blank |
| OperatorRoles.PolicyForIs | pkg/ocm/sts.go:152-166 | a managed policy is the first one listed under the request's policy ID, blank if none is; otherwise the policy has a name of its own |
| RosaInvariants.PatchAhead | pkg/kubernetes/kubernetes.go:24-39 | a merge patch and the decoding of its answer never leave memory behind the server |
| RosaProtocol.PatchLaws | pkg/kubernetes/kubernetes.go:24-39 | a patch sends exactly what memory changed: alone it makes the server hold memory, and field by field it keeps the server's value of what was not changed |
| RosaProtocol.DecodeLaws | pkg/kubernetes/kubernetes.go:24-39 | decoding an answer over memory gives the answer where memory is blank and memory where the answer is, and is idempotent |
| RosaInvariants.LegalInv | controllers/reconcilers/rosacluster/phases.go:23-308 | every state of every history satisfies all twenty-one invariants, in five groups |
| RosaTheorems.KnowledgeHasCause | controllers/reconcilers/rosacluster/phases.go:225-284 | whatever a teardown condition claims was learnt from a successful call earlier in the history |
| RosaTheorems.TeardownSafety | controllers/reconcilers/rosacluster/phases.go:171-284 | the finalizer goes only in a reconcile whose lookup found no cluster, and after roles, config and provider were each deleted successfully |
| RosaTheorems.CleanTeardown | controllers/reconcilers/rosacluster/phases.go:225-284 | when the finalizer goes no cluster is left, leftover configs and providers are bounded by lost writes and ambiguous creates, and no role is left unless a generated prefix was lost |
| RosaTheorems.LedgerCounts | controllers/reconcilers/rosacluster/request.go:295-335 | the history variables count the creations, lost patches and crashes of the trace |
| RosaTheorems.LeakBound | controllers/reconcilers/rosacluster/request.go:295-335 | successful config creations, and provider creations, number at most one plus the unpersisted patches and crashes |
| RosaTheorems.SelfHealing | controllers/reconcilers/rosacluster/request.go:212-258 | a patch against the snapshot taken before createCluster's writes, once applied, leaves the server with the newest values whichever earlier patches were swallowed |
| RosaTheorems.SingleCreation | controllers/reconcilers/rosacluster/phases.go:23-72 | a cluster is created only in a reconcile that found the name absent, before ClusterCreated has persisted; OCM never holds two of the operator's |
| RosaTheorems.FinalizerFirst | controllers/reconcilers/rosacluster/controller.go:72-92 | whatever is created in OCM or AWS is created while the finalizer holds the object |
| RosaTheorems.DeleteIsGuarded | controllers/reconcilers/rosacluster/phases.go:105-168 | every cluster delete follows, in the same reconcile, a scan of all three child kinds without a child of that cluster; the ID is one OCM gave to the operator unless an ID patch was swallowed |
| RosaHistories.ConditionsStay | controllers/conditions/conditions.go:77-125 | persisted one-shot conditions never disappear, under any failures |
| RosaHistories.OnePrefixPerHistory | controllers/reconcilers/rosacluster/request.go:62-79 | all role calls of a history use one prefix, if the spec gives one or no patch of a prefix was swallowed |
| RosaHistories.PrefixBound | controllers/reconcilers/rosacluster/request.go:62-79 | over any history the distinct prefixes of all role calls number at most one plus the swallowed patches of a prefix |
| RosaHistories.VersionPinnedForGood | controllers/reconcilers/rosacluster/request.go:163-209 | once a version has persisted every later reconcile works with it, whatever the default has become |
| RosaHistories.OneVersionPerHistory | controllers/reconcilers/rosacluster/request.go:163-243 | unless a version patch was swallowed, all cluster creates of a history ask for one version |
| RosaHistories.RoleCompleteness | pkg/ocm/sts.go:110-198 | a persisted rolesCreated means that in some reconcile each credential request OCM had listed in that reconcile, at least one, had its role under its name and the policy it asks for attached; until a role is deleted all of them still have |
| RosaHistories.OrphanTrap | controllers/reconcilers/rosacluster/phases.go:141-222 | if ClusterCreated did not persist, the operator neither deletes a listed cluster nor lets the object go |
| RosaHistories.AmbiguousCreateTraps | controllers/reconcilers/rosacluster/request.go:232-243 | from every history about to create the cluster, a create that fails after taking effect leads into that trap |
| RosaWitness.NeverDeleted | controllers/reconcilers/rosacluster/phases.go:141-222 | a history from the start, without a lost write, in which the create fails after taking effect and a later delete reconcile, asking nobody to delete the cluster, waits for it |
| RosaWitness.LostMarkNeverDeleted | controllers/reconcilers/rosacluster/phases.go:65-68 | a history whose one fault is the swallowed patch of ClusterCreated, in which a later delete reconcile again waits for a cluster nobody was asked to delete |
| RosaWitness.WholeLife | controllers/reconcilers/rosacluster/controller.go:72-118 | a history in which a cluster with config, provider and role is created, and all of it is deleted before the object goes |
| RosaWitness.LostPrefixLeaves | controllers/reconcilers/rosacluster/request.go:62-79 | a history with one swallowed patch, of the generated prefix, in which the object goes and its role stays |
| RosaWitness.BlankDelete | controllers/reconcilers/rosacluster/phases.go:141-160 | a history with one swallowed patch, of the cluster's ID, after which OCM is asked to delete a cluster without an ID |
| RosaReconciler.Reconciler.PatchStatus | pkg/kubernetes/kubernetes.go:24-39 | an error exactly for a failed patch, not for a conflict; what the server and memory hold afterwards |
| RosaReconciler.Reconciler.UpdateCondition | controllers/conditions/conditions.go:77-95 | the updated list is in memory; nothing is sent if the condition is set, and a note and a patch if it is not |
| RosaReconciler.Reconciler.Notify | controllers/reconcilers/rosacluster/request.go:399-412 | the condition is set afterwards and no one-shot condition is lost |
| RosaReconciler.Reconciler.ResolvePrefix | controllers/reconcilers/rosacluster/request.go:62-79 | the recorded prefix, else the spec's, else a generated one, which is written before use |
| RosaReconciler.Reconciler.ResolveVersion | controllers/reconcilers/rosacluster/request.go:163-195 | the version and ID of the newest listed version with the raw ID of the spec, else with the recorded one, else of the newest of OCM's listing of defaults |
| RosaReconciler.Reconciler.SetVersion | controllers/reconcilers/rosacluster/request.go:163-209 | a version and its ID are known afterwards; a recorded pair is kept, otherwise both are written, and the ID is that of a listed version with that raw ID; the server has both or neither |
| RosaReconciler.Reconciler.NewRequest | controllers/reconcilers/rosacluster/request.go:44-107 | a request ready for the phases, or a fault; it deletes if the object was being deleted at the read or a patch told so |
| RosaReconciler.Reconciler.EnsureFinalizer | controllers/finalizers.go:40-60 | the finalizer is there afterwards, or a fault |
| RosaReconciler.Reconciler.LookUp | pkg/ocm/cluster.go:32-44 | says whether OCM lists the name at that moment |
| RosaReconciler.Reconciler.GetCurrentState | controllers/reconcilers/rosacluster/phases.go:23-48 | found or not is what the lookup of this reconcile says; the current spec is the reading of OCM's cluster |
| RosaReconciler.Reconciler.EnsureOIDCProvider | controllers/reconcilers/rosacluster/request.go:295-335 | config and provider are known afterwards; known ones are kept |
| RosaReconciler.Reconciler.CreateRoles | pkg/ocm/sts.go:110-198 | without an error every request has its role and the policy it asks for attached |
| RosaReconciler.Reconciler.CreateOperatorRoles | controllers/reconcilers/rosacluster/request.go:338-370 | rolesCreated is set only in a run that reported, for the non-empty listing of that run, each request's role and policy |
| RosaReconciler.Reconciler.CreateCluster | controllers/reconcilers/rosacluster/request.go:212-258 | the one create request is built from the desired state; if it succeeds and the last patch is applied, the four persisted fields equal those in memory |
| RosaReconciler.Reconciler.RequestCluster | controllers/reconcilers/rosacluster/request.go:229-258 | one request is sent, built from the desired state; a new cluster ID is recorded and patched against the snapshot |
| RosaReconciler.Reconciler.UpdateCluster | controllers/reconcilers/rosacluster/request.go:261-292 | without an error one request was sent, built from the desired state and under the recorded cluster ID, and an update is in the trace |
| RosaReconciler.Reconciler.ApplyCluster | controllers/reconcilers/rosacluster/phases.go:51-99 | does nothing if the cluster is absent and ClusterCreated is set, or present and not ready or in its desired state; otherwise going on means it was created, with ClusterCreated set, or updated, with ClusterUpdated set; what it sends to OCM is the desired state, at most once |
| RosaReconciler.Reconciler.WaitUntilReady | controllers/reconcilers/rosacluster/phases.go:290-308 | goes on exactly if the cluster is ready |
| RosaReconciler.Reconciler.Complete | controllers/phases/complete.go:18-29 | records that reconciling has stopped, and ends in a requeue or a fault, never goes on |
| RosaReconciler.Reconciler.ExistsForClusterID | api/v1alpha1/machinepool_types.go:207-237 | true exactly if an object carries the cluster ID |
| RosaReconciler.Reconciler.FindChildObjects | controllers/reconcilers/rosacluster/phases.go:105-138 | goes on only after a full scan without a child; a requeue has seen a child |
| RosaReconciler.Reconciler.DestroyCluster | controllers/reconcilers/rosacluster/phases.go:141-168 | asks OCM to delete exactly if ClusterCreated is set and ClusterUninstalling is not; going on after a created cluster means ClusterUninstalling is set |
| RosaReconciler.Reconciler.WaitUntilMissing | controllers/reconcilers/rosacluster/phases.go:171-222 | goes on only if the lookup found no cluster; a requeue has seen one; the shortcut is unreachable |
| RosaReconciler.Reconciler.DeleteRoles | pkg/ocm/sts.go:202-229 | without an error no role is left under the prefix |
| RosaReconciler.Reconciler.DestroyOperatorRoles | controllers/reconcilers/rosacluster/phases.go:225-245 | going on means OperatorRolesDeleted is set |
| RosaReconciler.Reconciler.DeleteConfig | controllers/reconcilers/rosacluster/phases.go:250-260 | without an error the recorded config is gone from OCM |
| RosaReconciler.Reconciler.DeleteProvider | controllers/reconcilers/rosacluster/phases.go:269-276 | without an error the recorded provider is gone from AWS |
| RosaReconciler.Reconciler.DestroyOIDC | controllers/reconcilers/rosacluster/phases.go:248-284 | going on means the roles and both OIDC conditions are set |
| RosaReconciler.Reconciler.CompleteDestroy | controllers/phases/complete.go:31-40 | going on means the object is gone |
| RosaReconciler.Reconciler.Execute | controllers/phases/handler.go:27-46 | the journal grows by exactly the phases of the shortest prefix that ends in an error or a requeue, each once, in order, with the result it returned |
| RosaReconciler.Reconciler.ReconcileCreate | controllers/reconcilers/rosacluster/controller.go:72-92 | an error before the phases, or the journal of the create phases up to the first error or requeue; every step is a legal step of the protocol; an error implies a fault |
| RosaReconciler.Reconciler.ReconcileDelete | controllers/reconcilers/rosacluster/controller.go:102-118 | an error before the phases, or the journal of the delete phases up to the first error or requeue; without a fault the object is let go, or the last step saw a child or a listed cluster |
| RosaReconciler.Reconciler.Reconcile | controllers/controller.go:48-78 | a delete reconcile lets the object go, or waits for a child or the cluster, or met a fault |
| RosaReconciler.Reconciler.Operate | controllers/controller.go:48-78 | whatever reconciles, users and OCM do, also during reconciles, is a legal history |
| AccountRoles.ParsePrinted | api/v1alpha1/rosacluster_types.go:676-690 | parsing the installer ARN gives the longest initial segment of the prefix free of '-' and '/', so the prefix exactly if it contains neither |
| RosaSpec.DefaultPoolFixpoint | api/v1alpha1/rosacluster_types.go:403-411 | the default pool survives the round trip exactly if it autoscales, or has no maximum and one zone or no node, and its labels are not empty but present |
| RosaSpec.ClusterFixpoint | api/v1alpha1/rosacluster_types.go:381-562 | build, store and copy back compares equal exactly if the spec settles: conditions on pool, prefix, policies, subnets and labels |
| RosaSpec.KeptOrUpdatedForever | controllers/reconcilers/rosacluster/phases.go:74-96 | once created and ready, a cluster is kept by every reconcile if the user's spec settles, and updated by every reconcile if not |
| RosaSpec.NoticesChanges | controllers/reconcilers/rosacluster/request.go:135-157 | a cluster last asked for with any other spec is kept exactly if the two agree field by field, and updated otherwise |
| RosaSpec.NoticesEdits | controllers/reconcilers/rosacluster/request.go:135-157 | from a spec that settles, every change of a compared field is noticed, and nothing else is |
| RosaSpec.UnnoticedEdit | api/v1alpha1/rosacluster_types.go:403-411 | without autoscaling, three times the nodes per zone in three zones goes unnoticed |
| RosaSpec.BuildRequest | api/v1alpha1/rosacluster_types.go:429-570 | the request carries each setting under its own name, the installer's ARN, and three or one times the nodes per zone; empty subnets and labels are not sent |
| RosaReconciler.Reconciler.AsAskedFor | controllers/reconcilers/rosacluster/phases.go:79-84 | a cluster that OCM holds as it was asked for is found in its desired state exactly if the user's spec settles |
| RosaReconciler.Reconciler.AskedForOtherwise | controllers/reconcilers/rosacluster/phases.go:79-84 | a cluster last asked for with another spec is found in its desired state exactly if the two agree field by field |
| RosaSpec.MakeDesired | controllers/reconcilers/rosacluster/request.go:56-93 | the edited copy differs from the spec in display name, version, operator-role prefix and network only; without subnets the network is complete and keeps what was given |
| RosaSpec.Cluster.CopyFrom | api/v1alpha1/rosacluster_types.go:381-426 | stepwise assignment gives the reading, in an order in which the zone count is already that of the source |
| RosaSpec.DefaultsFillBlanks | api/v1alpha1/rosacluster_types.go:656-672 | blank network settings get their documented defaults, given ones are kept, nothing changes exactly if none was blank, and so nothing the second time |
| RosaSpec.Read | api/v1alpha1/rosacluster_types.go:381-426 | a new object with every setting of OCM's cluster under its own name, the bounds shared out over three zones or one, and a fixed count as it is; a panic exactly for a role ARN without a slash |
| RosaSpec.IsDesired | controllers/reconcilers/rosacluster/request.go:135-157 | equality up to the account and up to tags that were not asked for |
| Versions.Transitive | pkg/ocm/version.go:96-105 | the comparison of versions is transitive |
| Versions.Total | pkg/ocm/version.go:96-105 | any two versions compare |
| Versions.FirstDifferenceDecides | pkg/ocm/version.go:96-105 | the first segment in which two versions differ decides which is newer, missing ones counting as zero |
| Versions.EquallyNew | pkg/ocm/version.go:96-105 | two versions are equally new exactly if all their segments agree, up to trailing zeros |
| Versions.SortVersions | pkg/ocm/version.go:96-105 | a permutation in descending order of versions, in place |
| Versions.GetAvailableVersions | pkg/ocm/version.go:48-75 | the page loop ends and returns exactly the listing, for every size, also multiples of a hundred; it fails exactly if it reaches the failing page |
| Versions.GetVersionObject | pkg/ocm/version.go:21-37 | of the versions listed with the raw ID, one at least as new as each other; not found exactly if there is none |
| Versions.GetDefaultVersion | pkg/ocm/version.go:79-92 | a listed version at least as new as every other; not found exactly for an empty listing |
| MachinePool.CheckManagedLabels | api/v1alpha1/machinepool_types.go:299-307 | true exactly if both managed labels have values |
| MachinePool.DesiredStateStable | api/v1alpha1/machinepool_types.go:242-307 | the desired state is idempotent, and passes the ownership check exactly if the pool has a name |
| MachinePool.DesiredStateKeeps | api/v1alpha1/machinepool_types.go:242-295 | the desired state differs from the spec in display name and labels only; the mark and the name are added and the user's other labels are kept |
| MachinePool.TaintsRoundTrip | api/v1alpha1/machinepool_types.go:376-448 | taints survive exactly if none has a time and the list is not empty but present |
| MachinePool.MachinePoolFixpoint | api/v1alpha1/machinepool_types.go:311-464 | a classic pool settles exactly if it has zones, and autoscales or has no maximum and one zone or no minimum, and its taints and spot settings survive |
| MachinePool.NodePoolFixpoint | api/v1alpha1/machinepool_types.go:326-484 | a node pool settles exactly if it has no maximum, or a positive one and one zone, its taints survive and it asks for no spot instances |
| MachinePool.HostedPoolFixpoint | controllers/reconcilers/machinepool/request.go:83-89 | once the cluster is recorded as hosted, spot settings do not matter |
| MachinePool.SettlesOrUpdatesForever | controllers/reconcilers/machinepool/phases.go:24-167 | the first reconcile creates; every later one keeps the pool if the spec settles, under the exact condition for its kind, and otherwise updates it, forever; on hosted clusters spot settings do not count |
| MachinePool.NoticesChanges | controllers/reconcilers/machinepool/request.go:149-162 | a pool last asked for with any other spec is kept exactly if the two agree field by field, per kind of cluster, and updated otherwise |
| MachinePool.RequestCarries | api/v1alpha1/machinepool_types.go:342-430 | what is asked of OCM: each field, zones times the bounds per zone or the minimum, spot instances on classic clusters only |
| MachinePool.MachinePoolReading | api/v1alpha1/machinepool_types.go:311-323 | any machine pool is read field by field, its counts shared out over its zones with fractions dropped |
| MachinePool.NodePoolReading | api/v1alpha1/machinepool_types.go:326-339 | any node pool is read field by field, its counts undivided and without spot settings |
| GoValues.QuotientTruncates | api/v1alpha1/machinepool_types.go:450-464 | the source's integer division is the one that truncates toward zero, for either sign |
| MachinePoolObject.Object.SetMachinePoolLabels | api/v1alpha1/machinepool_types.go:284-295 | writes the mark and the name into the map in place, or into a new one if there was none, and keeps every other label |
| MachinePoolObject.Object.DesiredState | api/v1alpha1/machinepool_types.go:242-254 | a fresh object with a fresh label map that holds the desired state; the original is untouched |
| MachinePoolObject.Object.MachinePoolBuilder | api/v1alpha1/machinepool_types.go:342-430 | asks for exactly the zones times the bounds per zone, or for the minimum if there is no maximum; fields, labels and taints one by one; a price that is not negative |
| MachinePoolObject.Object.NodePoolBuilder | api/v1alpha1/machinepool_types.go:360-412 | the same for a node pool, without spot instances |
| MachinePoolObject.Object.CopyFromMachinePool | api/v1alpha1/machinepool_types.go:311-323 | copies all compared fields, with counts shared out over the zones and fractions dropped; panics exactly on a pool without zones |
| MachinePoolObject.Object.CopyFromNodePool | api/v1alpha1/machinepool_types.go:326-339 | copies all compared fields, with undivided counts |
| MachinePoolObject.IsDesired | controllers/reconcilers/machinepool/request.go:149-162 | equality up to the wait field, which is overwritten |
| PoolTheorems.LegalInv | controllers/reconcilers/machinepool/phases.go:24-284 | every state of every history satisfies the invariants |
| PoolProtocol.PatchLaws | pkg/kubernetes/kubernetes.go:24-39 | the laws of patch and answer for the machine pool's status |
| PoolProtocol.RecordsAnswer | controllers/reconcilers/machinepool/request.go:131-147 | a truthful answer is recorded as it is: the ID of a listed cluster, and its kind |
| PoolTheorems.FinalizerSafety | controllers/reconcilers/machinepool/phases.go:172-284 | the finalizer goes only after an accepted delete or with the name absent, and, if asked to wait, without a node seen in that reconcile; in a clean history, or with the name absent, no pool is left |
| PoolTheorems.CleanHistory | controllers/request/cluster.go:36-104 | a history without a swallowed conflict or lookup error is clean |
| PoolTheorems.WritesAreGated | controllers/phases/cluster.go:23-73 | each create and update follows, in the same reconcile, an upstream cluster seen ready, with the finalizer in place; updates only hit pools with managed labels, creates only missing pools |
| PoolTheorems.SettledLeftAlone | controllers/reconcilers/machinepool/phases.go:85-95 | no update of a clean history hits a pool the operator created whose spec settles |
| PoolTheorems.UpdatesExactlyUnsettled | controllers/reconcilers/machinepool/phases.go:24-167 | in a clean history, a pool of the operator that was read back may be updated if and only if its spec does not settle |
| PoolWitness.LostIdentityLeaks | pkg/kubernetes/kubernetes.go:30-36 | one swallowed conflict on the cluster ID is enough for the object to go while its pool stays |
| PoolWitness.SwallowedErrorLeaks | controllers/request/cluster.go:54-66 | one swallowed lookup error is enough for the object to go while its node pool stays |
| PoolReconciler.NodesAreReady | pkg/kubernetes/node.go:35-49 | true exactly if there is a node and no node has a false Ready status |
| PoolReconciler.Reconciler.NewRequest | controllers/reconcilers/machinepool/request.go:40-99 | refuses exactly a spec with both reserved labels or a long name; else the desired state, without spot settings if hosted |
| PoolReconciler.Reconciler.GetUpstreamCluster | controllers/request/cluster.go:36-104 | the answered cluster's identity is written and sent, and what the server and memory hold afterwards follows from the patch's outcome; nothing is written for an absent cluster; a dropped lookup error counts as a fault |
| PoolReconciler.Reconciler.HandleCluster | controllers/phases/cluster.go:23-73 | without an error the condition says whether OCM answered with a cluster, and the request goes on exactly if that cluster is ready |
| PoolReconciler.Reconciler.GetCurrentState | controllers/reconcilers/machinepool/phases.go:24-79 | going on means the pool is missing, or found with both managed labels |
| PoolReconciler.Reconciler.ApplyPool | controllers/reconcilers/machinepool/phases.go:85-167 | nothing for a pool in its desired state, a create for a missing one, an update otherwise |
| PoolReconciler.Reconciler.WaitUntilReady | controllers/reconcilers/machinepool/phases.go:242-261 | goes on at once unless asked to wait, and then exactly if the nodes seen are ready |
| PoolReconciler.Reconciler.ReconcileCreate | controllers/reconcilers/machinepool/controller.go:67-94 | every step is a legal step of the protocol; ends in a requeue or a fault |
| PoolReconciler.Reconciler.Destroy | controllers/reconcilers/machinepool/phases.go:172-228 | going on means the deletion is marked or the cluster's name was absent |
| PoolReconciler.Reconciler.WaitUntilMissing | controllers/reconcilers/machinepool/phases.go:265-284 | if asked to wait, goes on only without nodes; a requeue has seen one |
| PoolReconciler.Reconciler.ReconcileDelete | controllers/reconcilers/machinepool/controller.go:105-118 | without a fault the object is let go, or nodes were seen |
| PoolReconciler.Reconciler.Reconcile | controllers/controller.go:48-78 | a delete reconcile lets the object go, or waits for nodes, or met a fault, unless the spec is refused |
| PoolReconciler.Reconciler.Operate | controllers/controller.go:48-78 | whatever reconciles, users and OCM do, also during reconciles, is a legal history |
| Ldap.DefaultedExactly | api/v1alpha1/ldapidentityprovider_types.go:253-278 | an attribute that names nothing gets its documented default, given names are kept, nothing changes exactly if each named something, and so nothing the second time |
| Ldap.GetCurrentState | controllers/reconcilers/ldapidentityprovider/phases.go:20-48 | names come from the desired state, the rest from OCM |
| Ldap.LdapCarries | api/v1alpha1/ldapidentityprovider_types.go:216-251 | request and reading carry each field under its own name; secrets' names come from the desired state |
| Ldap.LdapFixpoint | api/v1alpha1/ldapidentityprovider_types.go:216-278 | for every spec, defaulting, building, storing and copying back gives the desired spec |
| Ldap.LdapDetects | controllers/reconcilers/ldapidentityprovider/request.go:158-182 | an answer that belongs to another spec is accepted exactly if the compared fields agree |

## Left out

- The manager, flags, RBAC, CRDs and their validation rules, events, logs and error texts: no logic of their own.
- The OCM, AWS and Kubernetes clients, thumbprints and TLS: replaced by abstract stores and free answers.
- The process dying inside a method of the two reconciler classes: crashes are events of the protocols, and the laws cover them; the methods run to completion.
- A rejected read of the object counts as no reconcile at all.
- RosaReconciler.Reconciler.DeleteRoles: AWS's listing of roles by prefix is taken as truthful, since the match of role names and tags is the rosa library's, which is not part of this model.
- Policy documents and tags, and what becomes of the policies made for roles once the roles are deleted.
- The zones in a machine pool's status are taken to be those of its cluster, and subnets are not modelled.
- Integer overflow of replica counts, and spot prices beyond the exact range of a double: numbers are unbounded integers.
- Versions that do not parse, for which the source's comparison is not an order, and pre-release suffixes.
- Lengths of role names count characters, not bytes.
- The GitLab provider, which has the shape of LDAP, and the update path of identity providers.
- Finalizer names, requeue times and the reconcile interval.
