/** Status conditions: a list that stands for a map from condition type to condition. */
module Conditions {

  /** What caused a reconcile; its name is the reason recorded on a condition. */
  datatype Trigger = TriggerCreate | TriggerUpdate | TriggerDelete

  /** The condition types the operator ever writes. */
  datatype ConditionType =
    | Reconciling
    | UpstreamClusterExists
    | ClusterCreated
    | ClusterUpdated
    | ClusterUninstalling
    | ClusterDeleted
    | OperatorRolesDeleted
    | OIDCProviderDeleted
    | OIDCConfigDeleted
    | MachinePoolDeleted

  /** The message constants, by name; a one-shot condition has one message of its own. */
  datatype Message =
    | ReconcilingStart
    | ReconcilingStop
    | UpstreamExists
    | UpstreamMissing
    | MessageOf(ctype: ConditionType)

  datatype Condition = Condition(
    ctype: ConditionType,
    status: bool,
    reason: Trigger,
    message: Message,
    observedGeneration: int,
    lastTransition: int)

  /** Equality up to the transition time and the observed generation. */
  predicate EqualCondition(existing: Condition, other: Condition) {
    && existing.ctype == other.ctype
    && existing.status == other.status
    && existing.reason == other.reason
    && existing.message == other.message
  }

  /** Conditions are told apart by everything but the two fields that change on their own. */
  lemma EqualUpToTime(a: Condition, b: Condition)
    ensures EqualCondition(a, b) <==>
      a == b.(lastTransition := a.lastTransition, observedGeneration := a.observedGeneration)
  {
  }

  predicate IsSet(c: Condition, conditions: seq<Condition>) {
    exists i :: 0 <= i < |conditions| && EqualCondition(c, conditions[i])
  }

  /** Index of the first entry of a type, or the length of the list. */
  function FirstOf(conditions: seq<Condition>, t: ConditionType): (r: nat)
    ensures r <= |conditions|
    ensures r < |conditions| ==> conditions[r].ctype == t
    ensures forall j :: 0 <= j < r ==> conditions[j].ctype != t
  {
    if conditions == [] then 0
    else if conditions[0].ctype == t then 0
    else 1 + FirstOf(conditions[1..], t)
  }

  function AddCondition(existing: seq<Condition>, c: Condition): seq<Condition> {
    var i := FirstOf(existing, c.ctype);
    if i == |existing| then existing + [c]
    else if EqualCondition(existing[i], c) then existing
    else existing[i := c]
  }

  /** The list after an update, whether or not the update had to write. */
  function Updated(existing: seq<Condition>, c: Condition): seq<Condition> {
    if IsSet(c, existing) then existing else AddCondition(existing, c)
  }

  method CheckIsSet(c: Condition, conditions: seq<Condition>) returns (found: bool)
    ensures found <==> IsSet(c, conditions)
  {
    for i := 0 to |conditions|
      invariant forall j :: 0 <= j < i ==> !EqualCondition(c, conditions[j])
    {
      if EqualCondition(c, conditions[i]) {
        return true;
      }
    }
    return false;
  }

  method ComputeAddCondition(existing: seq<Condition>, c: Condition) returns (r: seq<Condition>)
    ensures r == AddCondition(existing, c)
  {
    if |existing| < 1 {
      return [c];
    }
    for i := 0 to |existing|
      invariant forall j :: 0 <= j < i ==> existing[j].ctype != c.ctype
    {
      if existing[i].ctype == c.ctype {
        if EqualCondition(existing[i], c) {
          return existing;
        }
        return existing[i := c];
      }
    }
    return existing + [c];
  }

  /** Adding a condition sets it, keeps every condition of another type, and sets nothing else. */
  lemma AddSets(existing: seq<Condition>, c: Condition, d: Condition)
    ensures IsSet(c, AddCondition(existing, c))
    ensures IsSet(d, existing) && d.ctype != c.ctype ==> IsSet(d, AddCondition(existing, c))
    ensures IsSet(d, AddCondition(existing, c)) ==> IsSet(d, existing) || EqualCondition(d, c)
  {
    var i := FirstOf(existing, c.ctype);
    var r := AddCondition(existing, c);
    assert i < |r| && EqualCondition(c, r[i]);
    if IsSet(d, existing) && d.ctype != c.ctype {
      var j :| 0 <= j < |existing| && EqualCondition(d, existing[j]);
      assert EqualCondition(d, r[j]);
    }
    if IsSet(d, r) {
      var j :| 0 <= j < |r| && EqualCondition(d, r[j]);
      if j < |existing| && r[j] == existing[j] {
        assert EqualCondition(d, existing[j]);
      }
    }
  }

  /** Times do not matter to whether a condition is set; an update sets what it was asked to. */
  lemma UpdateSets(existing: seq<Condition>, c: Condition, d: Condition)
    requires EqualCondition(c, d)
    ensures IsSet(c, existing) <==> IsSet(d, existing)
    ensures IsSet(d, Updated(existing, c))
  {
    AddSets(existing, c, c);
    var r := Updated(existing, c);
    var i :| 0 <= i < |r| && EqualCondition(c, r[i]);
    assert EqualCondition(d, r[i]);
    assert forall j :: 0 <= j < |existing| ==> (EqualCondition(c, existing[j]) <==> EqualCondition(d, existing[j]));
  }

  // ---- The list refines a map ----

  function UpdateAll(cs: seq<Condition>): seq<Condition> {
    if cs == [] then [] else Updated(UpdateAll(cs[..|cs| - 1]), cs[|cs| - 1])
  }

  /** The reference: one slot per type, overwritten only by a condition that differs. */
  function UpdatedMap(m: map<ConditionType, Condition>, c: Condition): map<ConditionType, Condition> {
    if c.ctype in m && EqualCondition(c, m[c.ctype]) then m else m[c.ctype := c]
  }

  function UpdateAllMap(cs: seq<Condition>): map<ConditionType, Condition> {
    if cs == [] then map[] else UpdatedMap(UpdateAllMap(cs[..|cs| - 1]), cs[|cs| - 1])
  }

  /** The types in order of their first update. */
  function FirstInsertions(cs: seq<Condition>): seq<ConditionType> {
    if cs == [] then []
    else
      var before := FirstInsertions(cs[..|cs| - 1]);
      var t := cs[|cs| - 1].ctype;
      if t in before then before else before + [t]
  }

  /** How many of the updates changed the list, and so sent a status patch. */
  function PatchesSent(cs: seq<Condition>): nat {
    if cs == [] then 0
    else PatchesSent(cs[..|cs| - 1]) + (if IsSet(cs[|cs| - 1], UpdateAll(cs[..|cs| - 1])) then 0 else 1)
  }

  /** The reference count: updates whose slot was empty or held a different condition. */
  function SlotChanges(cs: seq<Condition>): nat {
    if cs == [] then 0
    else
      var m := UpdateAllMap(cs[..|cs| - 1]);
      var c := cs[|cs| - 1];
      SlotChanges(cs[..|cs| - 1]) + (if c.ctype in m && EqualCondition(c, m[c.ctype]) then 0 else 1)
  }

  predicate OnePerType(l: seq<Condition>) {
    forall i, j :: 0 <= i < j < |l| ==> l[i].ctype != l[j].ctype
  }

  /** One entry per type, and the entry of a type is what the map holds for it. */
  ghost predicate Refines(l: seq<Condition>, m: map<ConditionType, Condition>) {
    && OnePerType(l)
    && (forall t :: t in m <==> FirstOf(l, t) < |l|)
    && (forall t :: t in m ==> m[t] == l[FirstOf(l, t)])
  }

  ghost predicate TypesInOrder(l: seq<Condition>, types: seq<ConditionType>) {
    |l| == |types| && forall i :: 0 <= i < |l| ==> l[i].ctype == types[i]
  }

  lemma IsSetAtFirst(l: seq<Condition>, c: Condition)
    requires OnePerType(l)
    ensures IsSet(c, l) <==> FirstOf(l, c.ctype) < |l| && EqualCondition(c, l[FirstOf(l, c.ctype)])
  {
  }

  lemma FirstOfIs(l: seq<Condition>, t: ConditionType, k: nat)
    requires k <= |l| && (k < |l| ==> l[k].ctype == t)
    requires forall j :: 0 <= j < k ==> l[j].ctype != t
    ensures FirstOf(l, t) == k
  {
  }

  /** Where the first entry of each type sits after a condition is added. */
  lemma FirstOfAdded(l: seq<Condition>, c: Condition, t: ConditionType)
    ensures FirstOf(l, c.ctype) == |l| && t == c.ctype ==> FirstOf(AddCondition(l, c), t) == |l|
    ensures t != c.ctype && FirstOf(l, t) == |l| ==> FirstOf(AddCondition(l, c), t) == |AddCondition(l, c)|
    ensures FirstOf(l, t) < |l| ==> FirstOf(AddCondition(l, c), t) == FirstOf(l, t)
  {
    var r, i := AddCondition(l, c), FirstOf(l, t);
    FirstOfIs(r, t, if t == c.ctype || i < |l| then i else |r|);
  }

  lemma AddKeepsOnePerType(l: seq<Condition>, c: Condition)
    requires OnePerType(l)
    ensures OnePerType(AddCondition(l, c))
  {
  }

  lemma UpdatedRefines(l: seq<Condition>, m: map<ConditionType, Condition>, c: Condition)
    requires Refines(l, m)
    ensures Refines(Updated(l, c), UpdatedMap(m, c))
    ensures IsSet(c, l) <==> c.ctype in m && EqualCondition(c, m[c.ctype])
  {
    IsSetAtFirst(l, c);
    if !IsSet(c, l) {
      AddKeepsOnePerType(l, c);
      var r, n := AddCondition(l, c), UpdatedMap(m, c);
      forall t ensures t in n <==> FirstOf(r, t) < |r| ensures t in n ==> n[t] == r[FirstOf(r, t)] {
        FirstOfAdded(l, c, t);
      }
    }
  }

  lemma UpdatedInOrder(l: seq<Condition>, types: seq<ConditionType>, c: Condition)
    requires TypesInOrder(l, types)
    ensures TypesInOrder(Updated(l, c), if c.ctype in types then types else types + [c.ctype])
  {
  }

  /** From an empty list, any sequence of updates keeps one entry per type in first-insertion
      order, holds the last distinct write of each type, and patches exactly when a slot changes. */
  lemma {:induction false} ListRefinesMap(cs: seq<Condition>)
    ensures Refines(UpdateAll(cs), UpdateAllMap(cs))
    ensures TypesInOrder(UpdateAll(cs), FirstInsertions(cs))
    ensures PatchesSent(cs) == SlotChanges(cs)
    ensures cs != [] ==> IsSet(cs[|cs| - 1], UpdateAll(cs))
  {
    if cs != [] {
      var before, c := cs[..|cs| - 1], cs[|cs| - 1];
      ListRefinesMap(before);
      UpdatedRefines(UpdateAll(before), UpdateAllMap(before), c);
      UpdatedInOrder(UpdateAll(before), FirstInsertions(before), c);
      AddSets(UpdateAll(before), c, c);
    }
  }

  /** A repeat of anything still recorded, whenever it was written, leaves the list, transition times
      included, untouched and sends no patch. */
  lemma RepeatKeepsTime(cs: seq<Condition>, c: Condition, at: int)
    requires IsSet(c, UpdateAll(cs))
    ensures UpdateAll(cs + [c.(lastTransition := at)]) == UpdateAll(cs)
    ensures PatchesSent(cs + [c.(lastTransition := at)]) == PatchesSent(cs)
  {
    var again := c.(lastTransition := at);
    assert (cs + [again])[..|cs|] == cs;
    var l := UpdateAll(cs);
    var j :| 0 <= j < |l| && EqualCondition(c, l[j]);
    assert EqualCondition(again, l[j]);
  }
}
