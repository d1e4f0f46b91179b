/** Machine pools: what the operator asks OCM for, what it reads back, and whether the two agree. */
module MachinePool {
  import opened GoValues

  const LABEL_MANAGED := "ocm.mobb.redhat.com/managed"
  const LABEL_NAME := "ocm.mobb.redhat.com/name"
  const MANAGED_LABELS := [LABEL_MANAGED, LABEL_NAME]

  function Elements<T>(s: Nilable<seq<T>>): seq<T> {
    if s.Nil? then [] else s.value
  }

  datatype Taint = Taint(key: string, value: string, effect: string, timeAdded: Option<int>)

  datatype Spot = Spot(enabled: bool, maximumPrice: int)

  const NO_SPOT := Spot(false, 0)

  datatype PoolSpec = PoolSpec(
    clusterName: string,
    displayName: string,
    instanceType: string,
    labels: map<string, string>,
    taints: Nilable<seq<Taint>>,
    minimum: int,
    maximum: int,
    spot: Spot,
    wait: bool)

  // ---- Objects of OCM ----

  datatype OCMTaint = OCMTaint(key: string, value: string, effect: string)

  /** Without autoscaling OCM reports zero for both of its bounds, with it zero replicas. */
  datatype Scaling = Autoscaling(minimum: int, maximum: int) | Replicas(count: int)

  /** A machine pool or, on hosted clusters, a node pool. `spot` is the maximum price, if spot
      instances are asked for; `zones` is how many zones OCM placed the pool in. */
  datatype Pool = Pool(
    id: string,
    instanceType: string,
    labels: map<string, string>,
    taints: seq<OCMTaint>,
    scaling: Scaling,
    spot: Option<int>,
    zones: nat)

  // ---- Desired state ----

  function LabelOf(labels: map<string, string>, key: string): string {
    if key in labels then labels[key] else ""
  }

  function DisplayName(spec: PoolSpec, name: string): string {
    if spec.displayName == "" then name else spec.displayName
  }

  function Labelled(labels: map<string, string>, displayName: string): map<string, string> {
    labels[LABEL_MANAGED := "true"][LABEL_NAME := displayName]
  }

  function DesiredState(spec: PoolSpec, name: string): PoolSpec {
    var displayName := DisplayName(spec, name);
    spec.(displayName := displayName, labels := Labelled(spec.labels, displayName))
  }

  predicate HasManagedLabels(labels: map<string, string>) {
    forall i :: 0 <= i < |MANAGED_LABELS| ==> LabelOf(labels, MANAGED_LABELS[i]) != ""
  }

  method CheckManagedLabels(labels: map<string, string>) returns (all: bool)
    ensures all <==> HasManagedLabels(labels)
  {
    for i := 0 to |MANAGED_LABELS|
      invariant forall j :: 0 <= j < i ==> LabelOf(labels, MANAGED_LABELS[j]) != ""
    {
      if LabelOf(labels, MANAGED_LABELS[i]) == "" {
        return false;
      }
    }
    return true;
  }

  lemma LabelsDiffer()
    ensures LABEL_MANAGED != LABEL_NAME
  {
    assert |LABEL_MANAGED| != |LABEL_NAME|;
  }

  /** The desired state is a fixpoint, and it passes the ownership check if and only if the pool
      has a name. */
  lemma DesiredStateStable(spec: PoolSpec, name: string)
    ensures DesiredState(DesiredState(spec, name), name) == DesiredState(spec, name)
    ensures HasManagedLabels(DesiredState(spec, name).labels) <==> DisplayName(spec, name) != ""
  {
    LabelsDiffer();
    var d := DesiredState(spec, name);
    assert MANAGED_LABELS[0] == LABEL_MANAGED && MANAGED_LABELS[1] == LABEL_NAME;
    assert LabelOf(d.labels, LABEL_MANAGED) == "true";
    assert LabelOf(d.labels, LABEL_NAME) == d.displayName;
    if d.displayName != "" {
      assert Labelled(d.labels, d.displayName) == d.labels;
    } else {
      assert Labelled(d.labels, name) == d.labels;
    }
  }

  /** The labels of the desired state: the user's own, the mark of the operator, and the pool's name. */
  ghost predicate MarksLabels(own: map<string, string>, marked: map<string, string>, displayName: string) {
    && LABEL_MANAGED in marked && marked[LABEL_MANAGED] == "true"
    && LABEL_NAME in marked && marked[LABEL_NAME] == displayName
    && forall k :: k != LABEL_MANAGED && k != LABEL_NAME ==>
        (k in marked <==> k in own) && (k in own ==> marked[k] == own[k])
  }

  /** The desired state differs from the spec in its display name and its labels only, and the user's
      own labels are kept. */
  lemma DesiredStateKeeps(spec: PoolSpec, name: string)
    ensures var d := DesiredState(spec, name);
      && d == spec.(displayName := d.displayName, labels := d.labels)
      && d.displayName == (if spec.displayName == "" then name else spec.displayName)
      && MarksLabels(spec.labels, d.labels, d.displayName)
  {
    LabelsDiffer();
  }

  // ---- Build ----

  /** What is asked of each zone, times the number of zones; without a maximum, the minimum in all. */
  predicate AsksForNodes(scaling: Scaling, spec: PoolSpec, zones: nat) {
    if spec.maximum > 0 then
      scaling.Autoscaling? && scaling.minimum == zones * spec.minimum && scaling.maximum == zones * spec.maximum
    else scaling == Replicas(spec.minimum)
  }

  /** The request carries the spec, field by field. */
  predicate Carries(p: Pool, spec: PoolSpec) {
    && p.id == spec.displayName && p.instanceType == spec.instanceType && p.labels == spec.labels
    && |p.taints| == |Elements(spec.taints)|
    && forall i :: 0 <= i < |p.taints| ==>
        && p.taints[i].key == Elements(spec.taints)[i].key && p.taints[i].value == Elements(spec.taints)[i].value
        && p.taints[i].effect == Elements(spec.taints)[i].effect
  }

  /** Spot instances are asked for on classic clusters only; a price that is not positive sets none. */
  lemma RequestCarries(spec: PoolSpec, hosted: bool, zones: nat)
    ensures var p := Request(spec, hosted, zones);
      && Carries(p, spec) && AsksForNodes(p.scaling, spec, zones)
      && (p.spot.Some? <==> spec.spot.enabled && !hosted)
      && (p.spot.Some? ==> p.spot.value == if spec.spot.maximumPrice < 0 then 0 else spec.spot.maximumPrice)
  {
  }

  function BuildTaints(taints: seq<Taint>): seq<OCMTaint> {
    seq(|taints|, i requires 0 <= i < |taints| => OCMTaint(taints[i].key, taints[i].value, taints[i].effect))
  }

  function BuildScaling(spec: PoolSpec, zones: nat): Scaling {
    if spec.maximum > 0 then Autoscaling(spec.minimum * zones, spec.maximum * zones) else Replicas(spec.minimum)
  }

  function BuildSpot(spot: Spot): Option<int> {
    if !spot.enabled then None else if spot.maximumPrice > 0 then Some(spot.maximumPrice) else Some(0)
  }

  function BuildMachinePool(spec: PoolSpec, zones: nat): Pool {
    Pool(spec.displayName, spec.instanceType, spec.labels, BuildTaints(Elements(spec.taints)),
         BuildScaling(spec, zones), BuildSpot(spec.spot), zones)
  }

  function BuildNodePool(spec: PoolSpec, zones: nat): Pool {
    BuildMachinePool(spec, zones).(spot := None)
  }

  // ---- Copy back ----

  function MaxReplicas(s: Scaling): int {
    if s.Autoscaling? then s.maximum else 0
  }

  function ReplicaCount(s: Scaling): int {
    if s.Replicas? then s.count else 0
  }

  function CopyTaints(taints: seq<OCMTaint>): Nilable<seq<Taint>> {
    if |taints| < 1 then Nil
    else
      Of(seq(|taints|, i requires 0 <= i < |taints| =>
        Taint(taints[i].key, taints[i].value, taints[i].effect, None)))
  }

  function CopySpot(spot: Option<int>): Spot {
    if spot.None? then NO_SPOT else Spot(true, spot.value)
  }

  function CopyCommon(p: Pool, clusterName: string): PoolSpec {
    PoolSpec(clusterName, p.id, p.instanceType, p.labels, CopyTaints(p.taints), 0, 0, NO_SPOT, false)
  }

  /** None stands for the panic of a division by zero. */
  function CopyFromMachinePool(p: Pool, clusterName: string): Option<PoolSpec> {
    if p.zones == 0 then None
    else
      var scaled := MaxReplicas(p.scaling) > 0;
      Some(CopyCommon(p, clusterName).(
        minimum := Quotient(if scaled then p.scaling.minimum else ReplicaCount(p.scaling), p.zones),
        maximum := if scaled then Quotient(p.scaling.maximum, p.zones) else 0,
        spot := CopySpot(p.spot)))
  }

  function CopyFromNodePool(p: Pool, clusterName: string): PoolSpec {
    var scaled := MaxReplicas(p.scaling) > 0;
    CopyCommon(p, clusterName).(
      minimum := if scaled then p.scaling.minimum else ReplicaCount(p.scaling),
      maximum := if scaled then p.scaling.maximum else 0)
  }

  // ---- Fixpoints ----

  /** Spec equality as desired() sees it: the wait field is ignored. */
  predicate InDesiredState(desired: PoolSpec, current: PoolSpec) {
    desired == current.(wait := desired.wait)
  }

  predicate MachinePoolConverges(spec: PoolSpec, zones: nat) {
    var back := CopyFromMachinePool(BuildMachinePool(spec, zones), spec.clusterName);
    back.Some? && InDesiredState(spec, back.value)
  }

  predicate NodePoolConverges(spec: PoolSpec, zones: nat) {
    InDesiredState(spec, CopyFromNodePool(BuildNodePool(spec, zones), spec.clusterName))
  }

  predicate TaintsSurvive(taints: Nilable<seq<Taint>>) {
    taints != Of([]) && forall i :: 0 <= i < |Elements(taints)| ==> Elements(taints)[i].timeAdded.None?
  }

  predicate SpotSurvives(spot: Spot) {
    if spot.enabled then spot.maximumPrice >= 0 else spot.maximumPrice == 0
  }

  lemma TaintsRoundTrip(taints: Nilable<seq<Taint>>)
    ensures CopyTaints(BuildTaints(Elements(taints))) == taints <==> TaintsSurvive(taints)
  {
    var ts := Elements(taints);
    var back := Elements(CopyTaints(BuildTaints(ts)));
    assert |back| == |ts|;
    assert forall i :: 0 <= i < |ts| ==> back[i] == ts[i].(timeAdded := None);
    if TaintsSurvive(taints) {
      assert forall i :: 0 <= i < |ts| ==> back[i] == ts[i];
      assert back == ts;
    } else if taints != Of([]) {
      var i :| 0 <= i < |ts| && !ts[i].timeAdded.None?;
      assert back[i] != ts[i];
    }
  }

  lemma SpotRoundTrip(spot: Spot)
    ensures CopySpot(BuildSpot(spot)) == spot <==> SpotSurvives(spot)
  {
  }

  /** A machine pool of a classic cluster settles if and only if its replicas are scaled (maximum
      positive), or there is nothing to scale (one zone or no minimum), and its taints and spot
      settings can be expressed; otherwise each comparison fails. Without zones it panics. */
  lemma MachinePoolFixpoint(spec: PoolSpec, zones: nat)
    ensures MachinePoolConverges(spec, zones) <==>
      && zones >= 1 && (spec.maximum > 0 || (spec.maximum == 0 && (zones == 1 || spec.minimum == 0)))
      && TaintsSurvive(spec.taints) && SpotSurvives(spec.spot)
  {
    TaintsRoundTrip(spec.taints);
    SpotRoundTrip(spec.spot);
    if zones >= 1 {
      ScaledSign(spec.maximum, zones);
      ScaledQuotient(spec.minimum, zones);
      ScaledQuotient(spec.maximum, zones);
      UnscaledQuotient(spec.minimum, zones);
    }
  }

  /** A node pool of a hosted cluster, whose spot settings are dropped, settles if and only if it
      is not scaled, or there is one zone. */
  lemma NodePoolFixpoint(spec: PoolSpec, zones: nat)
    ensures NodePoolConverges(spec, zones) <==>
      && (spec.maximum == 0 || (spec.maximum > 0 && zones == 1))
      && TaintsSurvive(spec.taints) && spec.spot == NO_SPOT
  {
    TaintsRoundTrip(spec.taints);
    if zones >= 1 {
      ScaledSign(spec.maximum, zones);
    }
  }

  /** Once the cluster is recorded as hosted, the desired state has no spot settings. */
  lemma HostedPoolFixpoint(spec: PoolSpec, zones: nat)
    ensures NodePoolConverges(spec.(spot := NO_SPOT), zones) <==>
      (spec.maximum == 0 || (spec.maximum > 0 && zones == 1)) && TaintsSurvive(spec.taints)
  {
    NodePoolFixpoint(spec.(spot := NO_SPOT), zones);
  }

  // ---- Any pool of OCM ----

  /** The reading has what OCM holds, field by field; taints come without a time. */
  predicate ReadsFields(c: PoolSpec, p: Pool) {
    && c.displayName == p.id && c.instanceType == p.instanceType && c.labels == p.labels
    && c.taints != Of([]) && |Elements(c.taints)| == |p.taints|
    && forall i :: 0 <= i < |p.taints| ==>
        Elements(c.taints)[i] == Taint(p.taints[i].key, p.taints[i].value, p.taints[i].effect, None)
  }

  /** How many nodes are asked for: shared out over the zones of a classic cluster, dropping fractions. */
  predicate ReadsNodes(c: PoolSpec, scaling: Scaling, zones: nat) {
    if scaling.Autoscaling? && scaling.maximum > 0 then
      Truncated(scaling.minimum, zones, c.minimum) && Truncated(scaling.maximum, zones, c.maximum)
    else c.maximum == 0 && Truncated(if scaling.Replicas? then scaling.count else 0, zones, c.minimum)
  }

  lemma MachinePoolReading(p: Pool, clusterName: string)
    requires p.zones > 0
    ensures var c := CopyFromMachinePool(p, clusterName);
      && c.Some? && ReadsFields(c.value, p) && ReadsNodes(c.value, p.scaling, p.zones)
      && c.value.clusterName == clusterName
      && (c.value.spot.enabled <==> p.spot.Some?)
      && c.value.spot.maximumPrice == if p.spot.Some? then p.spot.value else 0
  {
    var low := if MaxReplicas(p.scaling) > 0 then p.scaling.minimum else ReplicaCount(p.scaling);
    QuotientTruncates(low, p.zones, Quotient(low, p.zones));
    QuotientTruncates(MaxReplicas(p.scaling), p.zones, Quotient(MaxReplicas(p.scaling), p.zones));
  }

  /** The counts of a node pool are not divided: they are read as those of one zone. */
  lemma NodePoolReading(p: Pool, clusterName: string)
    ensures var c := CopyFromNodePool(p, clusterName);
      ReadsFields(c, p) && ReadsNodes(c, p.scaling, 1) && c.clusterName == clusterName && c.spot == NO_SPOT
  {
  }

  // ---- The reconcile loop ----

  datatype Action = Keep | Create | Update | Panic | NotOurs

  /** What GetCurrentState and Apply do with what OCM holds under the pool's name. */
  function Decide(desired: PoolSpec, hosted: bool, held: Option<Pool>): Action {
    if held.None? then Create
    else
      var current := if hosted then Some(CopyFromNodePool(held.value, desired.clusterName))
                     else CopyFromMachinePool(held.value, desired.clusterName);
      if current.None? then Panic
      else if !HasManagedLabels(current.value.labels) then NotOurs
      else if InDesiredState(desired, current.value) then Keep
      else Update
  }

  function Request(desired: PoolSpec, hosted: bool, zones: nat): Pool {
    if hosted then BuildNodePool(desired, zones) else BuildMachinePool(desired, zones)
  }

  /** What OCM holds after a reconcile: the last pool asked for, placed in the cluster's zones. */
  function Held(desired: PoolSpec, hosted: bool, zones: nat, held: Option<Pool>): Option<Pool> {
    var a := Decide(desired, hosted, held);
    if a == Create || a == Update then Some(Request(desired, hosted, zones)) else held
  }

  function AfterRounds(desired: PoolSpec, hosted: bool, zones: nat, rounds: nat): Option<Pool> {
    if rounds == 0 then None else Held(desired, hosted, zones, AfterRounds(desired, hosted, zones, rounds - 1))
  }

  /** The desired state of a request: spot settings do not count once the cluster is known as hosted. */
  function Wanted(spec: PoolSpec, name: string, hosted: bool): PoolSpec {
    DesiredState(spec, name).(spot := if hosted then NO_SPOT else spec.spot)
  }

  /** When a pool settles, in terms of its spec alone. */
  predicate Settles(spec: PoolSpec, hosted: bool, zones: nat) {
    && TaintsSurvive(spec.taints)
    && if hosted then spec.maximum == 0 || (spec.maximum > 0 && zones == 1)
       else SpotSurvives(spec.spot)
            && (spec.maximum > 0 || (spec.maximum == 0 && (zones == 1 || spec.minimum == 0)))
  }

  lemma SettlesExactly(spec: PoolSpec, name: string, hosted: bool, zones: nat)
    requires hosted || zones >= 1
    ensures var d := Wanted(spec, name, hosted);
      Settles(spec, hosted, zones) <==> if hosted then NodePoolConverges(d, zones) else MachinePoolConverges(d, zones)
  {
    var d := DesiredState(spec, name);
    if hosted {
      HostedPoolFixpoint(d, zones);
    } else {
      MachinePoolFixpoint(d, zones);
    }
  }

  /** The first reconcile creates the pool. Each later one keeps it if the spec settles, and
      otherwise issues an update, forever (or panics, without zones). */
  lemma {:induction false} SettlesOrUpdatesForever(spec: PoolSpec, name: string, hosted: bool, zones: nat, rounds: nat)
    requires DisplayName(spec, name) != ""
    ensures var d := Wanted(spec, name, hosted);
      && Decide(d, hosted, AfterRounds(d, hosted, zones, 0)) == Create
      && AfterRounds(d, hosted, zones, rounds + 1) == Some(Request(d, hosted, zones))
      && Decide(d, hosted, AfterRounds(d, hosted, zones, rounds + 1)) ==
           if !hosted && zones == 0 then Panic else if Settles(spec, hosted, zones) then Keep else Update
  {
    DesiredStateStable(spec, name);
    if hosted || zones >= 1 {
      SettlesExactly(spec, name, hosted, zones);
    }
    if rounds > 0 {
      SettlesOrUpdatesForever(spec, name, hosted, zones, rounds - 1);
    }
  }

  // ---- Which changes are noticed ----

  predicate SameTaints(ds: Nilable<seq<Taint>>, os: Nilable<seq<Taint>>) {
    && ds != Of([]) && |Elements(ds)| == |Elements(os)|
    && forall i :: 0 <= i < |Elements(ds)| ==> Elements(ds)[i] == Elements(os)[i].(timeAdded := None)
  }

  /** On a classic cluster bounds are compared per zone, and a fixed count is shared out over the
      zones; on a hosted one the bounds of all zones are compared with those of one. */
  predicate SameNodes(d: PoolSpec, o: PoolSpec, hosted: bool, zones: nat) {
    if o.maximum > 0 then
      var share := if hosted then zones else 1;
      d.minimum == o.minimum * share && d.maximum == o.maximum * share
    else d.maximum == 0 && if hosted then d.minimum == o.minimum else Truncated(o.minimum, zones, d.minimum)
  }

  predicate SameSpot(d: Spot, o: Spot, hosted: bool) {
    if hosted || !o.enabled then !d.enabled && d.maximumPrice == 0
    else d.enabled && d.maximumPrice == if o.maximumPrice > 0 then o.maximumPrice else 0
  }

  /** A pool that was last asked for with `o` is kept for `d` exactly if the two agree field by field;
      every other difference is answered by an update. */
  lemma NoticesChanges(d: PoolSpec, o: PoolSpec, hosted: bool, zones: nat)
    requires HasManagedLabels(o.labels) && (hosted || zones >= 1)
    ensures var a := Decide(d, hosted, Some(Request(o, hosted, zones)));
      && (a == Keep || a == Update)
      && (a == Keep <==>
            && d.displayName == o.displayName && d.instanceType == o.instanceType && d.labels == o.labels
            && SameTaints(d.taints, o.taints) && SameNodes(d, o, hosted, zones) && SameSpot(d.spot, o.spot, hosted))
  {
    TaintsCompared(d.taints, o.taints);
    NodesCompared(d, o, hosted, zones);
  }

  lemma TaintsCompared(ds: Nilable<seq<Taint>>, os: Nilable<seq<Taint>>)
    ensures ds == CopyTaints(BuildTaints(Elements(os))) <==> SameTaints(ds, os)
  {
    var back := CopyTaints(BuildTaints(Elements(os)));
    assert forall i :: 0 <= i < |Elements(os)| ==> Elements(back)[i] == Elements(os)[i].(timeAdded := None);
    if SameTaints(ds, os) {
      assert Elements(ds) == Elements(back);
    }
  }

  lemma NodesCompared(d: PoolSpec, o: PoolSpec, hosted: bool, zones: nat)
    requires hosted || zones >= 1
    ensures var p := Request(o, hosted, zones);
      var c := if hosted then CopyFromNodePool(p, d.clusterName) else CopyFromMachinePool(p, d.clusterName).value;
      SameNodes(d, o, hosted, zones) <==> d.minimum == c.minimum && d.maximum == c.maximum
  {
    if zones >= 1 {
      ScaledSign(o.maximum, zones);
      ScaledQuotient(o.minimum, zones);
      ScaledQuotient(o.maximum, zones);
      QuotientTruncates(o.minimum, zones, d.minimum);
    }
  }
}
