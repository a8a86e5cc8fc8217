/** Cycle breaking: the edits the writer makes to a bean just before encoding
    it, so that a child nested under its parent does not embed that parent
    again and a policy does not embed its whole definition. */
module Projection {
  import opened Outcomes
  import opened Json
  import opened Beans

  /** `setOrganization(null)` on a plan, service or application: every other
      property is kept. */
  function DetachEntity(e: OrgEntity): (r: OrgEntity)
    ensures r.organization.None?
    ensures r.id == e.id && r.name == e.name && r.description == e.description
  {
    e.(organization := None)
  }

  /** `setPlan(null)`, `setService(null)`, `setApplication(null)` on a version:
      every other property is kept. */
  function DetachVersion(v: EntityVersion): (r: EntityVersion)
    ensures r.parent.None?
    ensures r.id == v.id && r.version == v.version && r.status == v.status
  {
    v.(parent := None)
  }

  /** The fresh definition `writePolicy` builds: only the original id is set. */
  function StubDefinition(d: PolicyDefinition): (r: PolicyDefinition)
    ensures r.id == d.id
    ensures r.name.None? && r.description.None? && r.policyImpl.None?
  {
    PolicyDefinition(d.id, None, None, None)
  }

  /** The policy as `writePolicy` leaves it: its definition, when there is one,
      cut down to the id-only stub; every other property untouched. */
  function StubPolicy(p: Policy): (r: Policy)
    ensures r.id == p.id && r.name == p.name && r.configuration == p.configuration
    ensures r.definition.Some? <==> p.definition.Some?
    ensures p.definition.Some? ==> r.definition == Some(StubDefinition(p.definition.value))
  {
    if p.definition.Some? then p.(definition := Some(StubDefinition(p.definition.value))) else p
  }

  /** The encoded plan, service or application has no `organization` key, keeps
      every other key it had, and embeds no object at all, so none of the
      organization's own fields reappear inside it. */
  lemma DetachedEntityOmitsOrganization(e: OrgEntity)
    ensures OrganizationKey !in Keys(EncodeEntity(DetachEntity(e)).members)
    ensures Keys(EncodeEntity(DetachEntity(e)).members) == Keys(EncodeEntity(e).members) - {OrganizationKey}
    ensures Flat(EncodeEntity(DetachEntity(e)))
  {
    var ps, qs := EntityProps(DetachEntity(e)), EntityProps(e);
    PresentNamesAfterNulling(ps, qs, 0);
    NoNestedObject(ps);
  }

  /** The encoded version has no back-reference key, keeps every other key it
      had, and embeds neither its parent nor, through it, the organization. */
  lemma DetachedVersionOmitsParent(k: EntityKind, v: EntityVersion)
    ensures ParentKey(k) !in Keys(EncodeVersion(k, DetachVersion(v)).members)
    ensures Keys(EncodeVersion(k, DetachVersion(v)).members) == Keys(EncodeVersion(k, v).members) - {ParentKey(k)}
    ensures Flat(EncodeVersion(k, DetachVersion(v)))
  {
    DetachedVersionKeys(k, v);
    NoNestedObject(VersionProps(k, DetachVersion(v)));
  }

  /** Detaching a version drops exactly the back-reference key. */
  lemma DetachedVersionKeys(k: EntityKind, v: EntityVersion)
    ensures Keys(EncodeVersion(k, DetachVersion(v)).members) == Keys(EncodeVersion(k, v).members) - {ParentKey(k)}
  {
    var ps, qs := VersionProps(k, DetachVersion(v)), VersionProps(k, v);
    assert ParentKey(k) != "id" && ParentKey(k) != "version" && ParentKey(k) != "status";
    PresentNamesAfterNulling(ps, qs, 1);
  }

  /** The stub keeps at most the id of the definition, and embeds nothing. */
  lemma StubDefinitionKeepsOnlyId(d: PolicyDefinition)
    ensures Keys(EncodeDefinition(StubDefinition(d)).members) == if d.id.Some? then {"id"} else {}
    ensures Keys(EncodeDefinition(StubDefinition(d)).members) <= Keys(EncodeDefinition(d).members)
    ensures Flat(EncodeDefinition(StubDefinition(d)))
  {
    var ps, qs := DefinitionProps(StubDefinition(d)), DefinitionProps(d);
    PresentNamesOfFour(ps[0], ps[1], ps[2], ps[3]);
    PresentNamesOfFour(qs[0], qs[1], qs[2], qs[3]);
    NoNestedObject(ps);
  }

  /** Stubbing the definition keeps the policy's encoded keys as they were. */
  lemma StubPolicyKeepsKeys(p: Policy)
    ensures Keys(EncodePolicy(StubPolicy(p)).members) == Keys(EncodePolicy(p).members)
  {
    var ps, qs := PolicyProps(StubPolicy(p)), PolicyProps(p);
    PresentNamesOfFour(ps[0], ps[1], ps[2], ps[3]);
    PresentNamesOfFour(qs[0], qs[1], qs[2], qs[3]);
  }

  /** Encoding a property list none of whose values is an object embeds nothing. */
  lemma NoNestedObject(props: seq<Prop>)
    requires forall p | p in props && p.value.Some? :: !p.value.value.JObject?
    ensures Flat(Encode(props))
  {
    NonNullMembers(props);
  }

  /** The stub definition encodes as `{"id": …}`, or as `{}` when there is no id. */
  lemma StubEncoding(d: PolicyDefinition)
    ensures EncodeDefinition(StubDefinition(d))
         == JObject(if d.id.Some? then [Member("id", JString(d.id.value))] else [])
  {
    var dp := DefinitionProps(StubDefinition(d));
    assert dp[1..] == [dp[1], dp[2], dp[3]];
    assert [dp[1], dp[2], dp[3]][1..] == [dp[2], dp[3]];
    assert [dp[2], dp[3]][1..] == [dp[3]];
    assert NonNull([dp[3]]) == [];
    assert NonNull([dp[2], dp[3]]) == [];
    assert NonNull([dp[1], dp[2], dp[3]]) == [];
  }

  /** The encoded policy's `definition` is exactly the stub: `{"id": …}`, or `{}`
      when the original definition had no id. Nothing else of the definition
      reaches the output. */
  lemma EncodedPolicyCarriesOnlyDefinitionId(p: Policy)
    requires p.definition.Some?
    ensures var id := p.definition.value.id;
      Get(EncodePolicy(StubPolicy(p)), "definition")
        == Some(JObject(if id.Some? then [Member("id", JString(id.value))] else []))
  {
    PolicyDefinitionMember(StubPolicy(p));
    StubEncoding(p.definition.value);
  }

  /** A policy with a definition carries it, encoded, under `definition`. */
  lemma PolicyDefinitionMember(p: Policy)
    requires p.definition.Some?
    ensures Get(EncodePolicy(p), "definition") == Some(EncodeDefinition(p.definition.value))
  {
    var props := PolicyProps(p);
    assert DistinctNames(props);
    GetEncode(props, props[3]);
  }

  /** Detaching a detached entity changes nothing. */
  lemma DetachEntityIdempotent(e: OrgEntity)
    ensures DetachEntity(DetachEntity(e)) == DetachEntity(e)
  {
  }

  /** Detaching a detached version changes nothing. */
  lemma DetachVersionIdempotent(v: EntityVersion)
    ensures DetachVersion(DetachVersion(v)) == DetachVersion(v)
  {
  }

  /** Stubbing a stubbed policy changes nothing: the stub is already only an id. */
  lemma StubPolicyIdempotent(p: Policy)
    ensures StubPolicy(StubPolicy(p)) == StubPolicy(p)
  {
  }
}
