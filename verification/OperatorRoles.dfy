/** Operator roles: the generated prefix, the name of a role, and the policy a role is given. */
module OperatorRoles {

  const PREFIX_CHARS := "abcdefghijklmnopqrstuvwxyz0123456789"
  const PREFIX_LENGTH := 6
  const MAX_ROLE_LENGTH := 64

  /** One operator of the cluster that needs a role in AWS. */
  datatype CredentialRequest = CredentialRequest(id: string, namespace: string, operatorName: string)

  datatype Policy = Policy(id: string, arn: string, details: string)

  /** A prefix generated for a cluster: its name, a dash, and six characters drawn at random. */
  predicate IsGenerated(prefix: string, cluster: string) {
    && |prefix| == |cluster| + 1 + PREFIX_LENGTH
    && prefix[..|cluster|] == cluster && prefix[|cluster|] == '-'
    && forall i :: |cluster| < i < |prefix| ==> prefix[i] in PREFIX_CHARS
  }

  method GeneratePrefix(cluster: string) returns (prefix: string)
    ensures IsGenerated(prefix, cluster)
  {
    var id := "";
    for i := 0 to PREFIX_LENGTH
      invariant |id| == i && forall j :: 0 <= j < i ==> id[j] in PREFIX_CHARS
    {
      var num: nat :| num < |PREFIX_CHARS|;
      id := id + [PREFIX_CHARS[num]];
    }
    return cluster + "-" + id;
  }

  function Clip(s: string, n: nat): string {
    if |s| > n then s[..n] else s
  }

  function OperatorOf(r: CredentialRequest): string {
    r.namespace + "-" + r.operatorName
  }

  function RoleName(prefix: string, r: CredentialRequest): string {
    Clip(prefix + "-" + OperatorOf(r), MAX_ROLE_LENGTH)
  }

  /** A role is named by its prefix, its namespace and its operator, as far as 64 characters go. */
  lemma RoleNameIs(prefix: string, r: CredentialRequest)
    ensures var whole := prefix + "-" + r.namespace + "-" + r.operatorName;
      RoleName(prefix, r) <= whole && |RoleName(prefix, r)| == if |whole| < 64 then |whole| else 64
  {
    assert prefix + "-" + OperatorOf(r) == prefix + "-" + r.namespace + "-" + r.operatorName;
  }

  /** How much of the operator's name fits into a role name. */
  function Room(prefix: string): nat {
    if |prefix| + 1 < MAX_ROLE_LENGTH then MAX_ROLE_LENGTH - |prefix| - 1 else 0
  }

  lemma RoleNameParts(prefix: string, r: CredentialRequest)
    requires |prefix| < MAX_ROLE_LENGTH
    ensures RoleName(prefix, r) == prefix + "-" + Clip(OperatorOf(r), Room(prefix))
  {
  }

  /** Two operators share a role exactly when their names agree on what fits beside the prefix; so
      a prefix of 63 characters or more leaves one role for all operators. */
  lemma RolesCollide(prefix: string, r: CredentialRequest, q: CredentialRequest)
    ensures RoleName(prefix, r) == RoleName(prefix, q)
            <==> Clip(OperatorOf(r), Room(prefix)) == Clip(OperatorOf(q), Room(prefix))
    ensures |prefix| >= MAX_ROLE_LENGTH - 1 ==> RoleName(prefix, r) == RoleName(prefix, q)
    ensures 0 < |RoleName(prefix, r)| <= MAX_ROLE_LENGTH
  {
    if |prefix| < MAX_ROLE_LENGTH {
      RoleNameParts(prefix, r);
      RoleNameParts(prefix, q);
      var a, b := Clip(OperatorOf(r), Room(prefix)), Clip(OperatorOf(q), Room(prefix));
      assert (prefix + "-" + a)[|prefix| + 1..] == a && (prefix + "-" + b)[|prefix| + 1..] == b;
    } else {
      assert RoleName(prefix, r) == prefix[..MAX_ROLE_LENGTH] == RoleName(prefix, q);
    }
  }

  /** A generated prefix survives in every role name of its cluster if the cluster's name has at
      most 57 characters. */
  lemma GeneratedPrefixFits(prefix: string, cluster: string, r: CredentialRequest)
    requires IsGenerated(prefix, cluster)
    ensures |cluster| <= 57 ==> prefix <= RoleName(prefix, r)
    ensures |cluster| > 57 ==> RoleName(prefix, r) < prefix
  {
  }

  // ---- Policies ----

  /** The ID under which OCM lists the managed policy of a credential request. */
  function PolicyKey(r: CredentialRequest): string {
    "openshift_" + r.id + "_policy"
  }

  /** The name of the policy made for a credential request, if policies are not managed. */
  function PolicyName(prefix: string, r: CredentialRequest): string {
    Clip(prefix + "-" + r.namespace + "-" + r.id, MAX_ROLE_LENGTH)
  }

  /** The ARN of the first policy with this ID, or blank. */
  function PolicyARN(id: string, policies: seq<Policy>): string {
    if policies == [] then "" else if policies[0].id == id then policies[0].arn else PolicyARN(id, policies[1..])
  }

  /** The policy a credential request asks for; blank if it is managed and not listed. */
  function PolicyFor(managed: bool, prefix: string, r: CredentialRequest, policies: seq<Policy>): string {
    if managed then PolicyARN(PolicyKey(r), policies) else PolicyName(prefix, r)
  }

  predicate FirstWithID(id: string, policies: seq<Policy>, i: int) {
    0 <= i < |policies| && policies[i].id == id && forall j :: 0 <= j < i ==> policies[j].id != id
  }

  lemma {:induction false} PolicyARNIs(id: string, policies: seq<Policy>, i: nat)
    requires i <= |policies| && forall j :: 0 <= j < i ==> policies[j].id != id
    requires i < |policies| ==> policies[i].id == id
    ensures PolicyARN(id, policies) == if i < |policies| then policies[i].arn else ""
    decreases i
  {
    if i > 0 {
      PolicyARNIs(id, policies[1..], i - 1);
    }
  }

  /** A managed policy is the first one listed under the ID of the request; otherwise the policy has
      a name of its own, whatever is listed. */
  lemma PolicyForIs(prefix: string, r: CredentialRequest, policies: seq<Policy>, i: nat)
    ensures FirstWithID("openshift_" + r.id + "_policy", policies, i) ==>
      PolicyFor(true, prefix, r, policies) == policies[i].arn
    ensures (forall j :: 0 <= j < |policies| ==> policies[j].id != "openshift_" + r.id + "_policy") ==>
      PolicyFor(true, prefix, r, policies) == ""
    ensures PolicyFor(false, prefix, r, policies) == PolicyName(prefix, r)
  {
    var id := "openshift_" + r.id + "_policy";
    if FirstWithID(id, policies, i) {
      PolicyARNIs(id, policies, i);
    } else if forall j :: 0 <= j < |policies| ==> policies[j].id != id {
      PolicyARNIs(id, policies, |policies|);
    }
  }

  /** The ARN of the first policy with this ID. */
  method GetPolicyARNByID(id: string, policies: seq<Policy>) returns (arn: string)
    ensures arn == PolicyARN(id, policies)
    ensures arn == "" || exists i :: 0 <= i < |policies| && policies[i] == Policy(id, arn, policies[i].details)
    ensures forall i :: FirstWithID(id, policies, i) ==> arn == policies[i].arn
  {
    for i := 0 to |policies|
      invariant forall j :: 0 <= j < i ==> policies[j].id != id
    {
      if policies[i].id == id {
        PolicyARNIs(id, policies, i);
        return policies[i].arn;
      }
    }
    PolicyARNIs(id, policies, |policies|);
    return "";
  }
}
