/** LDAP identity providers: attribute defaults, and the round trip through OCM. */
module Ldap {
  import opened GoValues

  type Slice = Nilable<seq<string>>

  datatype Attributes = Attributes(id: Slice, name: Slice, email: Slice, username: Slice)

  const DEFAULT_ID := "dn"
  const DEFAULT_NAME := "cn"
  const DEFAULT_EMAIL := "mail"
  const DEFAULT_USERNAME := "uid"

  datatype ProviderSpec = ProviderSpec(
    url: string,
    bindDN: string,
    bindPassword: string,
    insecure: bool,
    ca: string,
    attributes: Attributes,
    clusterName: string,
    displayName: string,
    mappingMethod: string)

  /** The provider as OCM answers it; secrets are not part of the answer. */
  datatype OCMProvider = OCMProvider(
    name: string,
    mappingMethod: string,
    url: string,
    bindDN: string,
    insecure: bool,
    attributes: Attributes)

  function OrDefault(s: Slice, default: string): Slice {
    if s.Nil? || |s.value| == 0 then Of([default]) else s
  }

  function Defaulted(a: Attributes): Attributes {
    Attributes(OrDefault(a.id, DEFAULT_ID), OrDefault(a.name, DEFAULT_NAME),
               OrDefault(a.email, DEFAULT_EMAIL), OrDefault(a.username, DEFAULT_USERNAME))
  }

  /** NewRequest: the display name and the attributes are defaulted. */
  function Desired(spec: ProviderSpec, name: string): ProviderSpec {
    spec.(displayName := if spec.displayName == "" then name else spec.displayName,
        attributes := Defaulted(spec.attributes))
  }

  function Built(spec: ProviderSpec): OCMProvider {
    OCMProvider(spec.displayName, spec.mappingMethod, spec.url, spec.bindDN, spec.insecure, Defaulted(spec.attributes))
  }

  /** An attribute list that cannot be told apart from no list is answered as either. */
  predicate SameList(stored: Slice, answered: Slice) {
    answered == stored || (stored.Of? && stored.value == [] && answered == Nil) || (stored == Nil && answered == Of([]))
  }

  predicate Answers(stored: OCMProvider, answer: OCMProvider) {
    && answer == stored.(attributes := answer.attributes)
    && SameList(stored.attributes.id, answer.attributes.id) && SameList(stored.attributes.name, answer.attributes.name)
    && SameList(stored.attributes.email, answer.attributes.email)
    && SameList(stored.attributes.username, answer.attributes.username)
  }

  class Provider {
    var spec: ProviderSpec

    /** What GetCurrentState presets: names are not read back, the mapping method is. */
    constructor (desired: ProviderSpec, source: OCMProvider)
      ensures spec == ProviderSpec("", "", desired.bindPassword, false, desired.ca, Attributes(Nil, Nil, Nil, Nil),
                                   desired.clusterName, desired.displayName, source.mappingMethod)
    {
      spec := ProviderSpec("", "", desired.bindPassword, false, desired.ca, Attributes(Nil, Nil, Nil, Nil),
                           desired.clusterName, desired.displayName, source.mappingMethod);
    }

    /** CopyFrom: no attribute is left without a name, attributes that OCM has are kept, and copying
        another provider over it forgets the first. */
    method CopyFrom(source: OCMProvider)
      modifies this
      ensures spec == Copied(old(spec), source)
      ensures AllNamed(spec.attributes) && KeepsNamed(source.attributes, spec.attributes)
      ensures forall other :: Copied(spec, other) == Copied(old(spec), other)
    {
      spec := spec.(url := source.url);
      spec := spec.(bindDN := source.bindDN);
      spec := spec.(insecure := source.insecure);
      spec := spec.(attributes := Defaulted(source.attributes));
    }
  }

  predicate Named(s: Slice) {
    s.Of? && |s.value| > 0
  }

  predicate AllNamed(a: Attributes) {
    Named(a.id) && Named(a.name) && Named(a.email) && Named(a.username)
  }

  predicate KeepsNamed(a: Attributes, b: Attributes) {
    && (Named(a.id) ==> b.id == a.id) && (Named(a.name) ==> b.name == a.name)
    && (Named(a.email) ==> b.email == a.email) && (Named(a.username) ==> b.username == a.username)
  }

  /** Defaulting changes exactly the attribute mappings that name nothing for some attribute. */
  lemma DefaultedExactly(a: Attributes)
    ensures AllNamed(Defaulted(a)) && KeepsNamed(a, Defaulted(a))
    ensures !Named(a.id) ==> Defaulted(a).id == Of(["dn"])
    ensures !Named(a.name) ==> Defaulted(a).name == Of(["cn"])
    ensures !Named(a.email) ==> Defaulted(a).email == Of(["mail"])
    ensures !Named(a.username) ==> Defaulted(a).username == Of(["uid"])
    ensures Defaulted(a) == a <==> AllNamed(a)
    ensures Defaulted(Defaulted(a)) == Defaulted(a)
  {
  }

  function Copied(spec: ProviderSpec, source: OCMProvider): ProviderSpec {
    spec.(url := source.url, bindDN := source.bindDN, insecure := source.insecure,
        attributes := Defaulted(source.attributes))
  }

  /** What GetCurrentState finds. */
  function Current(desired: ProviderSpec, source: OCMProvider): ProviderSpec {
    Copied(ProviderSpec("", "", desired.bindPassword, false, desired.ca, Attributes(Nil, Nil, Nil, Nil),
                        desired.clusterName, desired.displayName, source.mappingMethod), source)
  }

  method GetCurrentState(desired: ProviderSpec, source: OCMProvider) returns (current: ProviderSpec)
    ensures current == Current(desired, source)
  {
    var provider := new Provider(desired, source);
    provider.CopyFrom(source);
    return provider.spec;
  }

  /** The request carries the spec field by field, and the reading what OCM answers; secrets' names are
      not part of either and come from the desired state. */
  lemma LdapCarries(spec: ProviderSpec, desired: ProviderSpec, source: OCMProvider)
    ensures var b := Built(spec);
      && b.name == spec.displayName && b.mappingMethod == spec.mappingMethod && b.url == spec.url
      && b.bindDN == spec.bindDN && b.insecure == spec.insecure
      && AllNamed(b.attributes) && KeepsNamed(spec.attributes, b.attributes)
    ensures var c := Current(desired, source);
      && c.url == source.url && c.bindDN == source.bindDN && c.insecure == source.insecure
      && c.mappingMethod == source.mappingMethod
      && AllNamed(c.attributes) && KeepsNamed(source.attributes, c.attributes)
      && c.bindPassword == desired.bindPassword && c.ca == desired.ca
      && c.clusterName == desired.clusterName && c.displayName == desired.displayName
  {
  }

  /** For every spec: defaulting, building, storing and copying back gives the desired spec, so the
      reconciler never updates what it created. */
  lemma LdapFixpoint(spec: ProviderSpec, name: string, answer: OCMProvider)
    requires Answers(Built(Desired(spec, name)), answer)
    ensures Current(Desired(spec, name), answer) == Desired(spec, name)
  {
  }

  /** The comparison notices every change of the spec that is compared at all: if the answer belongs
      to another spec, it is found in the desired state only if both specs agree, secrets' names aside. */
  lemma LdapDetects(spec: ProviderSpec, other: ProviderSpec, name: string, answer: OCMProvider)
    requires Answers(Built(Desired(other, name)), answer)
    ensures Current(Desired(spec, name), answer) == Desired(spec, name) <==>
      var d, o := Desired(spec, name), Desired(other, name);
      d.url == o.url && d.bindDN == o.bindDN && d.insecure == o.insecure && d.attributes == o.attributes
      && d.mappingMethod == o.mappingMethod
  {
  }
}
