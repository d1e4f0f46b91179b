/** The ROSA cluster's spec: what is asked of OCM, what is read back, and when the two agree. */
module RosaSpec {
  import opened GoValues
  import opened AccountRoles

  const SINGLE_AZ := 1
  const MULTI_AZ := 3
  const HOST_PREFIX := 23
  const MACHINE_CIDR := "10.0.0.0/16"
  const SERVICE_CIDR := "172.30.0.0/16"
  const POD_CIDR := "10.128.0.0/14"

  datatype DefaultPool = DefaultPool(
    minimum: int,
    maximum: int,
    instanceType: string,
    labels: Nilable<map<string, string>>)

  datatype Proxy = Proxy(http: string, https: string, noProxy: string)

  datatype Network = Network(
    privateLink: bool,
    proxy: Proxy,
    subnets: Nilable<seq<string>>,
    serviceCIDR: string,
    podCIDR: string,
    machineCIDR: string,
    hostPrefix: int)

  datatype IAM = IAM(managedPolicies: bool, operatorRolesPrefix: string, accountRolesPrefix: string, userRole: string)

  datatype ClusterSpec = ClusterSpec(
    displayName: string,
    accountID: string,
    hosted: bool,
    version: string,
    multiAZ: bool,
    fips: bool,
    disableMonitoring: bool,
    region: string,
    pool: DefaultPool,
    etcdKey: string,
    ebsKey: string,
    trustBundle: string,
    tags: Nilable<map<string, string>>,
    network: Network,
    iam: IAM)

  const EMPTY_SPEC := ClusterSpec("", "", false, "", false, false, false, "", DefaultPool(0, 0, "", Nil), "", "", "",
    Nil, Network(false, Proxy("", "", ""), Nil, "", "", "", 0), IAM(false, "", "", ""))

  /** Autoscaling bounds, or a fixed count of compute nodes. */
  datatype Compute = Autoscale(minimum: int, maximum: int) | Fixed(count: int)

  /** The cluster as OCM holds it. Absent settings read as empty. */
  datatype OCMCluster = OCMCluster(
    hosted: bool,
    rawVersion: string,
    disableMonitoring: bool,
    accountID: string,
    multiAZ: bool,
    region: string,
    tags: map<string, string>,
    operatorRolePrefix: string,
    roleARN: string,
    fips: bool,
    ebsKey: string,
    etcdKey: string,
    trustBundle: string,
    instanceType: string,
    computeLabels: Nilable<map<string, string>>,
    compute: Compute,
    privateLink: bool,
    proxy: Proxy,
    subnets: Nilable<seq<string>>,
    hostPrefix: int,
    serviceCIDR: string,
    podCIDR: string,
    machineCIDR: string,
    creatorARN: string)

  function ZoneCount(hosted: bool, multiAZ: bool): int {
    if hosted then SINGLE_AZ else if multiAZ then MULTI_AZ else SINGLE_AZ
  }

  /** The request, as OCM answers it later. OCM may add tags of its own. The version ID of the
      request names the version of the spec. */
  function Built(spec: ClusterSpec, moreTags: map<string, string>): OCMCluster {
    var zones := ZoneCount(spec.hosted, spec.multiAZ);
    OCMCluster(
      spec.hosted, spec.version, spec.disableMonitoring, spec.accountID, spec.multiAZ, spec.region,
      moreTags + (if spec.tags.Of? then spec.tags.value else map[]), spec.iam.operatorRolesPrefix,
      RoleARN(spec.accountID, spec.iam.accountRolesPrefix, INSTALLER), spec.fips, spec.ebsKey, spec.etcdKey,
          spec.trustBundle,
      spec.pool.instanceType,
      if spec.pool.labels.Of? && |spec.pool.labels.value| > 0 then spec.pool.labels else Nil,
      if spec.pool.maximum > 0 then Autoscale(spec.pool.minimum * zones, spec.pool.maximum * zones)
      else Fixed(spec.pool.minimum * zones),
      spec.network.privateLink, spec.network.proxy,
      if HasSubnets(spec) then spec.network.subnets else Nil,
      spec.network.hostPrefix, spec.network.serviceCIDR, spec.network.podCIDR, spec.network.machineCIDR,
          spec.iam.userRole)
  }

  /** The request carries the spec, field by field; nodes are counted over all zones. */
  predicate Carries(b: OCMCluster, spec: ClusterSpec) {
    && b.hosted == spec.hosted && b.rawVersion == spec.version && b.disableMonitoring == spec.disableMonitoring
    && b.accountID == spec.accountID && b.multiAZ == spec.multiAZ && b.region == spec.region && b.fips == spec.fips
    && b.etcdKey == spec.etcdKey && b.ebsKey == spec.ebsKey && b.trustBundle == spec.trustBundle
    && b.tags == TagsOf(spec.tags) && b.operatorRolePrefix == spec.iam.operatorRolesPrefix
    && b.creatorARN == spec.iam.userRole && b.instanceType == spec.pool.instanceType
    && b.privateLink == spec.network.privateLink && b.proxy == spec.network.proxy
    && b.hostPrefix == spec.network.hostPrefix && b.serviceCIDR == spec.network.serviceCIDR
    && b.podCIDR == spec.network.podCIDR && b.machineCIDR == spec.network.machineCIDR
    && b.roleARN == "arn:aws:iam::" + spec.accountID + ":role/" + spec.iam.accountRolesPrefix + "-Installer-Role"
  }

  /** What is asked of each zone, times the number of zones. */
  predicate AsksForNodes(compute: Compute, pool: DefaultPool, zones: int) {
    if pool.maximum > 0 then
      compute.Autoscale? && compute.minimum == zones * pool.minimum && compute.maximum == zones * pool.maximum
    else compute == Fixed(zones * pool.minimum)
  }

  lemma BuiltCarries(spec: ClusterSpec)
    ensures Carries(Built(spec, map[]), spec)
    ensures AsksForNodes(Built(spec, map[]).compute, spec.pool, if spec.multiAZ && !spec.hosted then 3 else 1)
  {
    assert RoleARN(spec.accountID, spec.iam.accountRolesPrefix, INSTALLER) ==
      "arn:aws:iam::" + spec.accountID + ":role/" + spec.iam.accountRolesPrefix + "-Installer-Role";
  }

  /** Builder: settings that are blank are not set. */
  method BuildRequest(spec: ClusterSpec) returns (b: OCMCluster)
    ensures b == Built(spec, map[])
    ensures Carries(b, spec)
    ensures AsksForNodes(b.compute, spec.pool, if spec.multiAZ && !spec.hosted then 3 else 1)
    ensures b.subnets == (if spec.network.subnets == Of([]) then Nil else spec.network.subnets)
    ensures b.computeLabels == (if spec.pool.labels == Of(map[]) then Nil else spec.pool.labels)
  {
    var trustBundle, proxy := "", Proxy("", "", "");
    if spec.trustBundle != "" {
      trustBundle := spec.trustBundle;
    }
    if spec.network.proxy != Proxy("", "", "") {
      proxy := spec.network.proxy;
    }
    var tags, etcdKey, ebsKey, subnets := BuildAWS(spec);
    var labels, compute := BuildClusterNodes(spec);
    BuiltCarries(spec);
    return OCMCluster(
      spec.hosted, spec.version, spec.disableMonitoring, spec.accountID, spec.multiAZ, spec.region, tags,
      spec.iam.operatorRolesPrefix, RoleARN(spec.accountID, spec.iam.accountRolesPrefix, INSTALLER), spec.fips,
      ebsKey, etcdKey, trustBundle, spec.pool.instanceType, labels, compute, spec.network.privateLink, proxy,
      subnets, spec.network.hostPrefix, spec.network.serviceCIDR, spec.network.podCIDR, spec.network.machineCIDR,
      spec.iam.userRole);
  }

  /** The settings of BuildAWS that may be left out. */
  method BuildAWS(spec: ClusterSpec)
    returns (tags: map<string, string>, etcdKey: string, ebsKey: string, subnets: Nilable<seq<string>>)
    ensures tags == TagsOf(spec.tags) && etcdKey == spec.etcdKey && ebsKey == spec.ebsKey
    ensures subnets == if spec.network.subnets == Of([]) then Nil else spec.network.subnets
  {
    tags, etcdKey, ebsKey, subnets := map[], "", "", Nil;
    if spec.tags.Of? && |spec.tags.value| > 0 {
      tags := spec.tags.value;
    }
    if spec.etcdKey != "" {
      etcdKey := spec.etcdKey;
    }
    if spec.ebsKey != "" {
      ebsKey := spec.ebsKey;
    }
    if HasSubnets(spec) {
      subnets := spec.network.subnets;
    }
  }

  /** Labels are sent if there are any; the counts are those of all zones together. */
  method BuildClusterNodes(spec: ClusterSpec) returns (labels: Nilable<map<string, string>>, compute: Compute)
    ensures labels == if spec.pool.labels == Of(map[]) then Nil else spec.pool.labels
    ensures AsksForNodes(compute, spec.pool, if spec.multiAZ && !spec.hosted then 3 else 1)
  {
    labels := Nil;
    if spec.pool.labels.Of? && |spec.pool.labels.value| > 0 {
      labels := spec.pool.labels;
    }
    var zones := ZoneCount(spec.hosted, spec.multiAZ);
    if spec.pool.maximum > 0 {
      compute := Autoscale(spec.pool.minimum * zones, spec.pool.maximum * zones);
    } else {
      compute := Fixed(spec.pool.minimum * zones);
    }
  }

  /** The default pool read back: a fixed count is not divided by the zones. */
  function CopiedPool(source: OCMCluster): DefaultPool {
    var zones := ZoneCount(source.hosted, source.multiAZ);
    if source.compute.Autoscale? && source.compute.maximum > 0 then
      DefaultPool(Quotient(source.compute.minimum, zones), Quotient(source.compute.maximum, zones),
          source.instanceType, source.computeLabels)
    else
      DefaultPool(if source.compute.Fixed? then source.compute.count else 0, 0, source.instanceType,
          source.computeLabels)
  }

  function Copied(displayName: string, source: OCMCluster, accountRolesPrefix: string): ClusterSpec {
    ClusterSpec(
      displayName, source.accountID, source.hosted, source.rawVersion, source.multiAZ, source.fips,
          source.disableMonitoring,
      source.region, CopiedPool(source), source.etcdKey, source.ebsKey, source.trustBundle, Of(source.tags),
      Network(source.privateLink, source.proxy, source.subnets, source.serviceCIDR, source.podCIDR,
          source.machineCIDR, source.hostPrefix),
      IAM(false, source.operatorRolePrefix, accountRolesPrefix, source.creatorARN))
  }

  /** What GetCurrentState makes of a cluster; None stands for the panic on an odd role ARN. */
  function Reading(displayName: string, source: OCMCluster): Option<ClusterSpec> {
    var parsed := ParsePrefix(source.roleARN);
    if parsed.None? then None else Some(Copied(displayName, source, parsed.value))
  }

  /** The tags asked for are among the tags present. */
  predicate TagsPresent(wanted: map<string, string>, present: map<string, string>) {
    forall k :: k in wanted ==> (if k in present then present[k] else "") == wanted[k]
  }

  function TagsOf(tags: Nilable<map<string, string>>): map<string, string> {
    if tags.Of? then tags.value else map[]
  }

  /** desired(): accounts are not compared, and of the tags only those asked for. */
  predicate InDesiredState(desired: ClusterSpec, current: ClusterSpec) {
    && TagsPresent(TagsOf(desired.tags), TagsOf(current.tags))
    && desired == current.(accountID := desired.accountID, tags := desired.tags)
  }

  predicate NilIfEmpty<T>(s: Nilable<seq<T>>) {
    s.Of? ==> |s.value| > 0
  }

  predicate NilIfEmptyMap<K, V>(m: Nilable<map<K, V>>) {
    m.Of? ==> |m.value| > 0
  }

  lemma ZonesPositive(hosted: bool, multiAZ: bool)
    ensures ZoneCount(hosted, multiAZ) == (if multiAZ && !hosted then 3 else 1)
  {
  }

  /** The default pool survives the round trip exactly when it is scaled automatically, or has no
      maximum and one zone or no node. */
  lemma DefaultPoolFixpoint(spec: ClusterSpec, moreTags: map<string, string>)
    ensures CopiedPool(Built(spec, moreTags)) == spec.pool <==>
      && NilIfEmptyMap(spec.pool.labels)
      && (spec.pool.maximum > 0 ||
          (spec.pool.maximum == 0 && (spec.pool.minimum == 0 || !spec.multiAZ || spec.hosted)))
  {
    NodesCompared(spec, spec, moreTags);
  }

  predicate Settles(spec: ClusterSpec, moreTags: map<string, string>) {
    var current := Reading(spec.displayName, Built(spec, moreTags));
    current.Some? && InDesiredState(spec, current.value)
  }

  /** The condition, on the spec alone: the default pool survives, the account-role prefix contains
      neither '-' nor '/', managed policies are off, and subnets and labels are absent rather than
      empty. */
  predicate SpecSettles(spec: ClusterSpec) {
    && (spec.pool.maximum > 0 ||
        (spec.pool.maximum == 0 && (spec.pool.minimum == 0 || !spec.multiAZ || spec.hosted)))
    && '-' !in spec.iam.accountRolesPrefix && '/' !in spec.iam.accountRolesPrefix
    && !spec.iam.managedPolicies
    && NilIfEmpty(spec.network.subnets) && NilIfEmptyMap(spec.pool.labels)
  }

  /** A created cluster is found in its desired state if and only if its spec settles, whatever tags
      OCM adds. */
  lemma ClusterFixpoint(spec: ClusterSpec, moreTags: map<string, string>)
    requires '/' !in spec.accountID
    ensures Settles(spec, moreTags) <==> SpecSettles(spec)
  {
    DefaultPoolFixpoint(spec, moreTags);
    ParsePrinted(spec.accountID, spec.iam.accountRolesPrefix, INSTALLER);
    StemWhole(spec.iam.accountRolesPrefix);
  }

  // ---- The reconcile loop ----

  datatype Decision = KeepCluster | UpdateCluster | Unreadable

  /** What GetCurrentState and ApplyCluster do with a ready cluster. */
  function Decide(desired: ClusterSpec, held: OCMCluster): Decision {
    var current := Reading(desired.displayName, held);
    if current.None? then Unreadable
    else if InDesiredState(desired, current.value) then KeepCluster
    else UpdateCluster
  }

  /** The cluster after its create and one reconcile for each further element of `tags`, which OCM
      may add to what it is sent. */
  function HeldAfter(desired: ClusterSpec, tags: seq<map<string, string>>): OCMCluster
    requires tags != []
  {
    if |tags| == 1 then Built(desired, tags[0])
    else
      var held := HeldAfter(desired, tags[..|tags| - 1]);
      if Decide(desired, held) == UpdateCluster then Built(desired, tags[|tags| - 1]) else held
  }

  lemma {:induction false} HeldIsBuilt(desired: ClusterSpec, tags: seq<map<string, string>>)
    returns (more: map<string, string>)
    requires tags != []
    ensures HeldAfter(desired, tags) == Built(desired, more)
  {
    more := tags[|tags| - 1];
    if |tags| > 1 {
      var before := HeldIsBuilt(desired, tags[..|tags| - 1]);
      if Decide(desired, HeldAfter(desired, tags[..|tags| - 1])) != UpdateCluster {
        more := before;
      }
    }
  }

  lemma DecideBuilt(desired: ClusterSpec, more: map<string, string>)
    requires '/' !in desired.accountID
    ensures Decide(desired, Built(desired, more)) == if SpecSettles(desired) then KeepCluster else UpdateCluster
  {
    ClusterFixpoint(desired, more);
    ParsePrinted(desired.accountID, desired.iam.accountRolesPrefix, INSTALLER);
  }

  // ---- Which changes are noticed ----

  predicate SameNetwork(n: Network, m: Network) {
    && n.privateLink == m.privateLink
    && n.proxy.http == m.proxy.http && n.proxy.https == m.proxy.https && n.proxy.noProxy == m.proxy.noProxy
    && n.serviceCIDR == m.serviceCIDR && n.podCIDR == m.podCIDR && n.machineCIDR == m.machineCIDR
    && n.hostPrefix == m.hostPrefix
  }

  /** The settings that OCM answers as they were sent. */
  predicate SameSettings(d: ClusterSpec, o: ClusterSpec) {
    && d.hosted == o.hosted && d.version == o.version && d.multiAZ == o.multiAZ && d.region == o.region
    && d.fips == o.fips && d.disableMonitoring == o.disableMonitoring
    && d.etcdKey == o.etcdKey && d.ebsKey == o.ebsKey && d.trustBundle == o.trustBundle
    && d.pool.instanceType == o.pool.instanceType && SameNetwork(d.network, o.network)
    && d.iam.operatorRolesPrefix == o.iam.operatorRolesPrefix && d.iam.userRole == o.iam.userRole
  }

  /** An empty list or map is sent as none, and answered as none. */
  predicate SameCollections(d: ClusterSpec, o: ClusterSpec) {
    && NilIfEmpty(d.network.subnets) && NilIfEmptyMap(d.pool.labels)
    && (d.network.subnets == o.network.subnets || (d.network.subnets == Nil && o.network.subnets == Of([])))
    && (d.pool.labels == o.pool.labels || (d.pool.labels == Nil && o.pool.labels == Of(map[])))
  }

  /** Bounds are compared per zone; a fixed count is compared with the count of all zones together. */
  predicate SameNodes(d: ClusterSpec, o: ClusterSpec) {
    if o.pool.maximum > 0 then d.pool.minimum == o.pool.minimum && d.pool.maximum == o.pool.maximum
    else d.pool.maximum == 0 && d.pool.minimum == o.pool.minimum * if o.multiAZ && !o.hosted then 3 else 1
  }

  /** Each tag asked for has the value OCM holds for it; a blank one need not be there. */
  predicate TagsHeld(d: ClusterSpec, o: ClusterSpec, more: map<string, string>) {
    forall k :: k in TagsOf(d.tags) ==>
      TagsOf(d.tags)[k] ==
        if k in TagsOf(o.tags) then TagsOf(o.tags)[k] else if k in more then more[k] else ""
  }

  /** Agreement field by field: the account-roles prefix with what is left of the other one, the tags
      asked for with those held, and managed policies off. */
  predicate Agrees(d: ClusterSpec, o: ClusterSpec, more: map<string, string>) {
    && SameSettings(d, o) && SameCollections(d, o) && SameNodes(d, o) && TagsHeld(d, o, more)
    && d.iam.accountRolesPrefix == Stem(o.iam.accountRolesPrefix) && !d.iam.managedPolicies
  }

  /** A ready cluster that was last asked for with `o` is kept for `d` exactly if the two agree; every
      difference is answered by an update. */
  lemma NoticesChanges(d: ClusterSpec, o: ClusterSpec, more: map<string, string>)
    requires '/' !in o.accountID
    ensures Decide(d, Built(o, more)) != Unreadable
    ensures Decide(d, Built(o, more)) == KeepCluster <==> Agrees(d, o, more)
  {
    var held := Built(o, more);
    ParsePrinted(o.accountID, o.iam.accountRolesPrefix, INSTALLER);
    NodesCompared(d, o, more);
    TagsCompared(d, o, more);
    CollectionsCompared(d, o, more);
    Compared(d, Copied(d.displayName, held, Stem(o.iam.accountRolesPrefix)));
  }

  /** The comparison of two values, taken apart. */
  lemma Compared(d: ClusterSpec, c: ClusterSpec)
    ensures InDesiredState(d, c) <==>
      && TagsPresent(TagsOf(d.tags), TagsOf(c.tags)) && d.displayName == c.displayName && SameSettings(d, c)
      && d.network.subnets == c.network.subnets && d.pool.labels == c.pool.labels
      && d.pool.minimum == c.pool.minimum && d.pool.maximum == c.pool.maximum
      && d.iam.accountRolesPrefix == c.iam.accountRolesPrefix && d.iam.managedPolicies == c.iam.managedPolicies
  {
  }

  lemma CollectionsCompared(d: ClusterSpec, o: ClusterSpec, more: map<string, string>)
    ensures var held := Built(o, more);
      SameCollections(d, o) <==> d.network.subnets == held.subnets && d.pool.labels == held.computeLabels
  {
  }

  lemma NodesCompared(d: ClusterSpec, o: ClusterSpec, more: map<string, string>)
    ensures var back := CopiedPool(Built(o, more));
      SameNodes(d, o) <==> d.pool.minimum == back.minimum && d.pool.maximum == back.maximum
  {
    var zones := ZoneCount(o.hosted, o.multiAZ);
    ZonesPositive(o.hosted, o.multiAZ);
    ScaledQuotient(o.pool.minimum, zones);
    ScaledQuotient(o.pool.maximum, zones);
    ScaledSign(o.pool.maximum, zones);
  }

  lemma TagsCompared(d: ClusterSpec, o: ClusterSpec, more: map<string, string>)
    ensures TagsHeld(d, o, more) <==> TagsPresent(TagsOf(d.tags), Built(o, more).tags)
  {
  }

  /** From a spec that settles, exactly the changes of a compared field are noticed: the cluster is
      updated for each of them, and for nothing else. */
  lemma NoticesEdits(d: ClusterSpec, o: ClusterSpec, more: map<string, string>)
    requires '/' !in o.accountID && SpecSettles(o)
    ensures Decide(d, Built(o, more)) == KeepCluster <==>
      && SameSettings(d, o) && d.network.subnets == o.network.subnets && TagsHeld(d, o, more)
      && d.pool.minimum == o.pool.minimum && d.pool.maximum == o.pool.maximum && d.pool.labels == o.pool.labels
      && d.iam.accountRolesPrefix == o.iam.accountRolesPrefix && !d.iam.managedPolicies
  {
    NoticesChanges(d, o, more);
    StemWhole(o.iam.accountRolesPrefix);
    SettledAgree(d, o);
  }

  lemma SettledAgree(d: ClusterSpec, o: ClusterSpec)
    requires SpecSettles(o)
    ensures SameCollections(d, o) <==> d.network.subnets == o.network.subnets && d.pool.labels == o.pool.labels
    ensures SameNodes(d, o) <==> d.pool.minimum == o.pool.minimum && d.pool.maximum == o.pool.maximum
  {
  }

  /** A change that is not noticed: three times the nodes in each of three zones, without scaling. */
  lemma UnnoticedEdit(spec: ClusterSpec, more: map<string, string>)
    requires SpecSettles(spec.(multiAZ := false)) && '/' !in spec.accountID
    requires spec.multiAZ && !spec.hosted && spec.pool.maximum == 0 && spec.tags == Nil
    ensures Decide(spec.(pool := spec.pool.(minimum := 3 * spec.pool.minimum)), Built(spec, more)) == KeepCluster
  {
    NoticesChanges(spec.(pool := spec.pool.(minimum := 3 * spec.pool.minimum)), spec, more);
    StemWhole(spec.iam.accountRolesPrefix);
  }

  /** Once created and ready, a cluster is kept by every reconcile if the user's spec settles, and
      updated by every reconcile if it does not. */
  lemma KeptOrUpdatedForever(spec: ClusterSpec, name: string, prefix: string, version: string,
                             tags: seq<map<string, string>>)
    requires '/' !in spec.accountID && tags != []
    ensures var d := Desired(spec, name, prefix, version);
      Decide(d, HeldAfter(d, tags)) == if SpecSettles(spec) then KeepCluster else UpdateCluster
  {
    var d := Desired(spec, name, prefix, version);
    var more := HeldIsBuilt(d, tags);
    DecideBuilt(d, more);
  }

  // ---- The object ----

  class Cluster {
    var spec: ClusterSpec

    constructor (displayName: string)
      ensures spec == EMPTY_SPEC.(displayName := displayName)
    {
      spec := EMPTY_SPEC.(displayName := displayName);
    }

    constructor Copy(spec: ClusterSpec)
      ensures this.spec == spec
    {
      this.spec := spec;
    }

    function AvailabilityZoneCount(): int
      reads this
    {
      ZoneCount(spec.hosted, spec.multiAZ)
    }

    /** CopyFrom. The zone count it divides by is that of the fields it has already copied. */
    method CopyFrom(source: OCMCluster) returns (ok: bool)
      requires spec == EMPTY_SPEC.(displayName := spec.displayName)
      modifies this
      ensures ok <==> Reading(old(spec.displayName), source).Some?
      ensures ok ==> spec == Reading(old(spec.displayName), source).value
    {
      spec := spec.(hosted := source.hosted, version := source.rawVersion,
          disableMonitoring := source.disableMonitoring);
      spec := spec.(accountID := source.accountID, multiAZ := source.multiAZ, region := source.region,
          tags := Of(source.tags));
      spec := spec.(fips := source.fips, ebsKey := source.ebsKey, etcdKey := source.etcdKey,
          trustBundle := source.trustBundle);
      CopyPool(source);
      var network := Network(source.privateLink, source.proxy, source.subnets, source.serviceCIDR,
                             source.podCIDR, source.machineCIDR, source.hostPrefix);
      var parsed := ParsePrefix(source.roleARN);
      if parsed.None? {
        return false;
      }
      spec := spec.(network := network, iam := IAM(false, source.operatorRolePrefix, parsed.value, source.creatorARN));
      return true;
    }

    method CopyPool(source: OCMCluster)
      requires spec.hosted == source.hosted && spec.multiAZ == source.multiAZ && spec.pool.maximum == 0
      modifies this
      ensures spec == old(spec).(pool := CopiedPool(source))
    {
      var pool := spec.pool.(instanceType := source.instanceType, labels := source.computeLabels);
      ZonesPositive(spec.hosted, spec.multiAZ);
      if source.compute.Autoscale? && source.compute.maximum > 0 {
        pool := pool.(minimum := Quotient(source.compute.minimum, AvailabilityZoneCount()),
                      maximum := Quotient(source.compute.maximum, AvailabilityZoneCount()));
      } else {
        pool := pool.(minimum := if source.compute.Fixed? then source.compute.count else 0);
      }
      spec := spec.(pool := pool);
    }

    /** SetNetworkDefaults: nothing is left blank, what was set stays, and a second call changes nothing. */
    method SetNetworkDefaults()
      modifies this
      ensures spec == old(spec).(network := WithDefaults(old(spec.network)))
      ensures Complete(spec.network) && Extends(old(spec.network), spec.network)
      ensures WithDefaults(spec.network) == spec.network
    {
      var hostPrefix, machine, service, pod :=
        spec.network.hostPrefix, spec.network.machineCIDR, spec.network.serviceCIDR, spec.network.podCIDR;
      if hostPrefix == 0 {
        hostPrefix := HOST_PREFIX;
      }
      if machine == "" {
        machine := MACHINE_CIDR;
      }
      if service == "" {
        service := SERVICE_CIDR;
      }
      if pod == "" {
        pod := POD_CIDR;
      }
      DefaultsFillBlanks(spec.network);
      spec := spec.(network := spec.network.(hostPrefix := hostPrefix, machineCIDR := machine,
                                             serviceCIDR := service, podCIDR := pod));
    }
  }

  /** The reading has what OCM holds, field by field. */
  predicate ReadsSettings(c: ClusterSpec, source: OCMCluster) {
    && c.accountID == source.accountID && c.hosted == source.hosted && c.version == source.rawVersion
    && c.multiAZ == source.multiAZ && c.fips == source.fips && c.disableMonitoring == source.disableMonitoring
    && c.region == source.region && c.etcdKey == source.etcdKey && c.ebsKey == source.ebsKey
    && c.trustBundle == source.trustBundle && c.tags == Of(source.tags)
    && c.network.privateLink == source.privateLink && c.network.proxy == source.proxy
    && c.network.subnets == source.subnets && c.network.hostPrefix == source.hostPrefix
    && c.network.serviceCIDR == source.serviceCIDR && c.network.podCIDR == source.podCIDR
    && c.network.machineCIDR == source.machineCIDR
    && c.iam.userRole == source.creatorARN && c.iam.operatorRolesPrefix == source.operatorRolePrefix
    && !c.iam.managedPolicies
    && c.pool.instanceType == source.instanceType && c.pool.labels == source.computeLabels
  }

  /** Bounds are shared out over the zones, dropping fractions; a fixed count is taken as it is. */
  predicate ReadsNodes(pool: DefaultPool, compute: Compute, zones: int) {
    if compute.Autoscale? && compute.maximum > 0 then
      Truncated(compute.minimum, zones, pool.minimum) && Truncated(compute.maximum, zones, pool.maximum)
    else pool.maximum == 0 && pool.minimum == if compute.Fixed? then compute.count else 0
  }

  /** A new object, filled from the cluster. */
  method Read(displayName: string, source: OCMCluster) returns (current: Option<ClusterSpec>)
    ensures current == Reading(displayName, source)
    ensures current.None? <==> '/' !in source.roleARN
    ensures current.Some? ==> current.value.displayName == displayName && ReadsSettings(current.value, source)
    ensures current.Some? ==>
      ReadsNodes(current.value.pool, source.compute, if source.multiAZ && !source.hosted then 3 else 1)
  {
    NodesRead(source);
    var copy := new Cluster(displayName);
    var ok := copy.CopyFrom(source);
    return if ok then Some(copy.spec) else None;
  }

  lemma NodesRead(source: OCMCluster)
    ensures ReadsNodes(CopiedPool(source), source.compute, if source.multiAZ && !source.hosted then 3 else 1)
  {
    var zones := ZoneCount(source.hosted, source.multiAZ);
    ZonesPositive(source.hosted, source.multiAZ);
    if source.compute.Autoscale? {
      QuotientTruncates(source.compute.minimum, zones, Quotient(source.compute.minimum, zones));
      QuotientTruncates(source.compute.maximum, zones, Quotient(source.compute.maximum, zones));
    }
  }

  /** No setting that has a default is blank. */
  predicate Complete(n: Network) {
    n.hostPrefix != 0 && n.machineCIDR != "" && n.serviceCIDR != "" && n.podCIDR != ""
  }

  /** Settings that were given are kept. */
  predicate Extends(n: Network, m: Network) {
    && m == n.(hostPrefix := m.hostPrefix, machineCIDR := m.machineCIDR, serviceCIDR := m.serviceCIDR,
        podCIDR := m.podCIDR)
    && (n.hostPrefix != 0 ==> m.hostPrefix == n.hostPrefix) && (n.machineCIDR != "" ==> m.machineCIDR == n.machineCIDR)
    && (n.serviceCIDR != "" ==> m.serviceCIDR == n.serviceCIDR) && (n.podCIDR != "" ==> m.podCIDR == n.podCIDR)
  }

  /** The defaults fill exactly the blanks: they complete the settings, keep what was given, change
      nothing if nothing is blank, and so nothing the second time. */
  lemma DefaultsFillBlanks(n: Network)
    ensures Complete(WithDefaults(n)) && Extends(n, WithDefaults(n))
    ensures n.hostPrefix == 0 ==> WithDefaults(n).hostPrefix == 23
    ensures n.machineCIDR == "" ==> WithDefaults(n).machineCIDR == "10.0.0.0/16"
    ensures n.serviceCIDR == "" ==> WithDefaults(n).serviceCIDR == "172.30.0.0/16"
    ensures n.podCIDR == "" ==> WithDefaults(n).podCIDR == "10.128.0.0/14"
    ensures WithDefaults(n) == n <==> Complete(n)
    ensures WithDefaults(WithDefaults(n)) == WithDefaults(n)
  {
    assert MACHINE_CIDR[0] == '1' && SERVICE_CIDR[0] == '1' && POD_CIDR[0] == '1';
  }

  function WithDefaults(n: Network): Network {
    n.(hostPrefix := if n.hostPrefix == 0 then HOST_PREFIX else n.hostPrefix,
       machineCIDR := if n.machineCIDR == "" then MACHINE_CIDR else n.machineCIDR,
       serviceCIDR := if n.serviceCIDR == "" then SERVICE_CIDR else n.serviceCIDR,
       podCIDR := if n.podCIDR == "" then POD_CIDR else n.podCIDR)
  }

  function DisplayName(spec: ClusterSpec, name: string): string {
    if spec.displayName == "" then name else spec.displayName
  }

  predicate HasSubnets(spec: ClusterSpec) {
    spec.network.subnets.Of? && |spec.network.subnets.value| > 0
  }

  /** The desired state of a request: names, prefix and version resolved, and network defaults
      unless there are subnets. */
  function Desired(spec: ClusterSpec, name: string, prefix: string, version: string): ClusterSpec {
    spec.(displayName := DisplayName(spec, name), version := version, iam := spec.iam.(operatorRolesPrefix := prefix),
          network := if HasSubnets(spec) then spec.network else WithDefaults(spec.network))
  }

  /** NewRequest's copy of the object, edited step by step into the desired state. */
  method MakeDesired(spec: ClusterSpec, name: string, prefix: string, version: string) returns (desired: ClusterSpec)
    ensures desired == Desired(spec, name, prefix, version)
    ensures desired == spec.(displayName := desired.displayName, version := version, network := desired.network,
      iam := spec.iam.(operatorRolesPrefix := prefix))
    ensures desired.displayName == if spec.displayName == "" then name else spec.displayName
    ensures if HasSubnets(spec) then desired.network == spec.network
      else Complete(desired.network) && Extends(spec.network, desired.network)
  {
    var copy := new Cluster.Copy(spec);
    if copy.spec.displayName == "" {
      copy.spec := copy.spec.(displayName := name);
    }
    copy.spec := copy.spec.(iam := copy.spec.iam.(operatorRolesPrefix := prefix));
    if !HasSubnets(copy.spec) {
      copy.SetNetworkDefaults();
    }
    copy.spec := copy.spec.(version := version);
    return copy.spec;
  }

  /** Compares as desired() does: key by key for the tags, which it then overwrites. */
  method IsDesired(desired: ClusterSpec, current: ClusterSpec) returns (same: bool)
    ensures same <==> InDesiredState(desired, current)
  {
    var rest, wanted, present := TagsOf(desired.tags).Keys, TagsOf(desired.tags), TagsOf(current.tags);
    while rest != {}
      invariant rest <= wanted.Keys
      invariant forall k :: k in wanted && k !in rest ==> (if k in present then present[k] else "") == wanted[k]
      decreases |rest|
    {
      var k :| k in rest;
      if (if k in present then present[k] else "") != wanted[k] {
        return false;
      }
      rest := rest - {k};
    }
    return desired == current.(accountID := desired.accountID, tags := desired.tags);
  }
}
