/** The MachinePool object as the controller handles it: fields assigned in place and a label map
    that objects may share. */
module MachinePoolObject {
  import opened GoValues
  import opened MachinePool

  /** A Go map: copied by reference. */
  class LabelMap {
    var entries: map<string, string>

    constructor (entries: map<string, string>)
      ensures this.entries == entries
    {
      this.entries := entries;
    }
  }

  class Object {
    var name: string
    var clusterName: string
    var displayName: string
    var instanceType: string
    var labels: LabelMap?
    var taints: Nilable<seq<Taint>>
    var minimum: int
    var maximum: int
    var spot: Spot
    var wait: bool
    var hosted: bool
    var zones: seq<string>

    constructor ()
      ensures fresh(this) && labels == null && !wait
    {
      name, clusterName, displayName, instanceType := "", "", "", "";
      labels, taints, minimum, maximum, spot := null, Nil, 0, 0, NO_SPOT;
      wait, hosted, zones := false, false, [];
    }

    /** The spec as a value. */
    function Spec(): PoolSpec
      reads this, labels
    {
      PoolSpec(clusterName, displayName, instanceType, if labels == null then map[] else labels.entries,
               taints, minimum, maximum, spot, wait)
    }

    constructor Of(name: string, spec: PoolSpec, labels: LabelMap?, hosted: bool, zones: seq<string>)
      requires spec.labels == if labels == null then map[] else labels.entries
      ensures Spec() == spec && this.labels == labels
      ensures this.name == name && this.hosted == hosted && this.zones == zones
    {
      this.name, clusterName, displayName, instanceType := name, spec.clusterName, spec.displayName, spec.instanceType;
      this.labels, taints, minimum, maximum, spot := labels, spec.taints, spec.minimum, spec.maximum, spec.spot;
      wait, this.hosted, this.zones := spec.wait, hosted, zones;
    }

    /** The generated deep copy: equal content, nothing shared. */
    method DeepCopy() returns (copy: Object)
      ensures fresh(copy) && (copy.labels != null ==> fresh(copy.labels))
      ensures copy.Spec() == Spec() && copy.name == name && copy.hosted == hosted && copy.zones == zones
    {
      var copied: LabelMap? := null;
      if labels != null {
        copied := new LabelMap(labels.entries);
      }
      copy := new Object.Of(name, Spec(), copied, hosted, zones);
    }

    /** Writes into the label map, and so into every object that shares it. */
    method SetMachinePoolLabels()
      modifies this`labels, labels
      ensures labels != null && (if old(labels) == null then fresh(labels) else labels == old(labels))
      ensures labels.entries == Labelled(old(Spec().labels), DisplayName(old(Spec()), name))
      ensures MarksLabels(old(Spec().labels), labels.entries, if displayName == "" then name else displayName)
    {
      LabelsDiffer();
      if labels == null {
        labels := new LabelMap(map[]);
      }
      labels.entries := labels.entries[LABEL_MANAGED := "true"];
      labels.entries := labels.entries[LABEL_NAME := if displayName == "" then name else displayName];
    }

    /** The copy holds the desired state; the object it came from and its labels are untouched. */
    method DesiredState() returns (desired: Object)
      ensures fresh(desired) && desired.labels != null && fresh(desired.labels)
      ensures desired.Spec() == MachinePool.DesiredState(Spec(), name)
      ensures desired.name == name && desired.hosted == hosted && desired.zones == zones
    {
      desired := DeepCopy();
      desired.displayName := if desired.displayName == "" then desired.name else desired.displayName;
      desired.SetMachinePoolLabels();
    }

    method HasManagedLabels() returns (all: bool)
      ensures all <==> MachinePool.HasManagedLabels(Spec().labels)
    {
      all := CheckManagedLabels(if labels == null then map[] else labels.entries);
    }

    method ConvertTaints() returns (r: seq<OCMTaint>)
      ensures r == BuildTaints(Elements(taints))
    {
      r := [];
      var source := Elements(taints);
      for i := 0 to |source|
        invariant |r| == i && forall j :: 0 <= j < i ==> r[j] == BuildTaints(source)[j]
      {
        r := r + [OCMTaint(source[i].key, source[i].value, source[i].effect)];
      }
    }

    method MachinePoolBuilder() returns (pool: Pool)
      ensures pool == BuildMachinePool(Spec(), |zones|)
      ensures Carries(pool, Spec()) && AsksForNodes(pool.scaling, Spec(), |zones|)
      ensures pool.spot.Some? <==> spot.enabled
      ensures pool.spot.Some? ==> pool.spot.value == if spot.maximumPrice < 0 then 0 else spot.maximumPrice
    {
      var converted := ConvertTaints();
      var price := if spot.enabled then Some(if spot.maximumPrice > 0 then spot.maximumPrice else 0) else None;
      var scaling := if maximum > 0 then Autoscaling(minimum * |zones|, maximum * |zones|) else Replicas(minimum);
      return Pool(displayName, instanceType, if labels == null then map[] else labels.entries, converted, scaling,
          price, |zones|);
    }

    method NodePoolBuilder() returns (pool: Pool)
      ensures pool == BuildNodePool(Spec(), |zones|)
      ensures Carries(pool, Spec()) && AsksForNodes(pool.scaling, Spec(), |zones|) && pool.spot == None
    {
      var converted := ConvertTaints();
      var scaling := if maximum > 0 then Autoscaling(minimum * |zones|, maximum * |zones|) else Replicas(minimum);
      return Pool(displayName, instanceType, if labels == null then map[] else labels.entries, converted, scaling,
          None, |zones|);
    }

    /** Copies a machine pool of OCM; a pool without zones makes the source panic, here `ok` is false. */
    method CopyFromMachinePool(source: Pool, clusterName: string) returns (ok: bool)
      modifies this
      ensures ok <==> MachinePool.CopyFromMachinePool(source, clusterName).Some?
      ensures ok ==>
        InDesiredState(MachinePool.CopyFromMachinePool(source, clusterName).value, Spec()) && wait == old(wait)
      ensures ok <==> source.zones > 0
      ensures ok ==> ReadsFields(Spec(), source) && ReadsNodes(Spec(), source.scaling, source.zones)
    {
      if source.zones > 0 {
        MachinePoolReading(source, clusterName);
      }
      this.clusterName, displayName, instanceType := clusterName, source.id, source.instanceType;
      labels := new LabelMap(source.labels);
      taints := ReadTaints(source.taints);
      if source.zones == 0 {
        return false;
      }
      var scaled := MaxReplicas(source.scaling) > 0;
      var low := if scaled then source.scaling.minimum else ReplicaCount(source.scaling);
      minimum := Divide(low, source.zones);
      maximum := 0;
      if scaled {
        maximum := Divide(source.scaling.maximum, source.zones);
      }
      spot := if source.spot.None? then NO_SPOT else Spot(true, source.spot.value);
      return true;
    }

    method CopyFromNodePool(source: Pool, clusterName: string)
      modifies this
      ensures InDesiredState(MachinePool.CopyFromNodePool(source, clusterName), Spec()) && wait == old(wait)
      ensures ReadsFields(Spec(), source) && ReadsNodes(Spec(), source.scaling, 1)
    {
      NodePoolReading(source, clusterName);
      this.clusterName, displayName, instanceType := clusterName, source.id, source.instanceType;
      labels := new LabelMap(source.labels);
      taints := ReadTaints(source.taints);
      var scaled := MaxReplicas(source.scaling) > 0;
      minimum := if scaled then source.scaling.minimum else ReplicaCount(source.scaling);
      maximum := if scaled then source.scaling.maximum else 0;
      spot := NO_SPOT;
    }
  }

  /** Truncating division, by the Euclidean one. */
  method Divide(a: int, n: int) returns (q: int)
    requires n > 0
    ensures q == Quotient(a, n)
  {
    if a >= 0 {
      return a / n;
    }
    return -((-a) / n);
  }

  method ReadTaints(source: seq<OCMTaint>) returns (r: Nilable<seq<Taint>>)
    ensures r == CopyTaints(source)
  {
    if |source| < 1 {
      return Nil;
    }
    var taints: seq<Taint> := [];
    for i := 0 to |source|
      invariant |taints| == i && forall j :: 0 <= j < i ==> taints[j] == Elements(CopyTaints(source))[j]
    {
      taints := taints + [Taint(source[i].key, source[i].value, source[i].effect, None)];
    }
    assert taints == Elements(CopyTaints(source));
    return Of(taints);
  }

  /** desired(): overwrites the wait field of the current state, then compares. */
  method IsDesired(desired: Object, current: Object?) returns (same: bool)
    requires current != desired
    modifies if current == null then {} else {current}
    ensures current == null ==> !same
    ensures current != null ==> (same <==> InDesiredState(desired.Spec(), old(current.Spec())))
    ensures current != null ==> current.Spec() == old(current.Spec()).(wait := desired.wait)
  {
    if current == null {
      return false;
    }
    current.wait := desired.wait;
    return desired.Spec() == current.Spec();
  }
}
