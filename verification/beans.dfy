/** The manager's beans that the export writer handles, as records whose
    fields may be null, and their encodings under NON_NULL inclusion. Only the
    beans whose back-references the writer edits are given their fields; the
    others are passed through untouched and are kept as plain property lists. */
module Beans {
  import opened Outcomes
  import opened Json

  /** OrganizationBean. */
  datatype Organization = Organization(id: Option<string>, name: Option<string>, description: Option<string>)

  /** The three organization-owned bean families. */
  datatype EntityKind = PlanKind | ServiceKind | ApplicationKind

  /** PlanBean, ServiceBean and ApplicationBean: each points back at its organization. */
  datatype OrgEntity = OrgEntity(
    organization: Option<Organization>,
    id: Option<string>,
    name: Option<string>,
    description: Option<string>)

  /** PlanVersionBean, ServiceVersionBean and ApplicationVersionBean: each points
      back at its plan, service or application. */
  datatype EntityVersion = EntityVersion(
    id: Option<int>,
    parent: Option<OrgEntity>,
    version: Option<string>,
    status: Option<string>)

  /** PolicyDefinitionBean. */
  datatype PolicyDefinition = PolicyDefinition(
    id: Option<string>,
    name: Option<string>,
    description: Option<string>,
    policyImpl: Option<string>)

  /** PolicyBean: points at the full definition of the policy it instantiates. */
  datatype Policy = Policy(
    id: Option<int>,
    name: Option<string>,
    configuration: Option<string>,
    definition: Option<PolicyDefinition>)

  /** Any bean the writer encodes without editing (gateway, plugin, user, role,
      membership, contract, audit entry, metadata). */
  datatype Pojo = Pojo(props: seq<Prop>)

  const OrganizationKey := "organization"

  /** The property of a version bean that points back at its parent. */
  function ParentKey(k: EntityKind): (r: string)
  {
    match k
    case PlanKind => "plan"
    case ServiceKind => "service"
    case ApplicationKind => "application"
  }

  /** The simple class name under which the writer emits an organization. */
  const OrganizationBeanName := "OrganizationBean"

  /** The simple class name under which the writer emits a plan, service or application. */
  function EntityBeanName(k: EntityKind): (r: string)
  {
    match k
    case PlanKind => "PlanBean"
    case ServiceKind => "ServiceBean"
    case ApplicationKind => "ApplicationBean"
  }

  /** The simple class name under which the writer emits a version bean. */
  function VersionBeanName(k: EntityKind): (r: string)
  {
    match k
    case PlanKind => "PlanVersionBean"
    case ServiceKind => "ServiceVersionBean"
    case ApplicationKind => "ApplicationVersionBean"
  }

  function Str(o: Option<string>): (j: Option<Json>)
  {
    if o.Some? then Some(JString(o.value)) else None
  }

  function Int(o: Option<int>): (j: Option<Json>)
  {
    if o.Some? then Some(JInt(o.value)) else None
  }

  function EncodeOrganization(o: Organization): (j: Json)
  {
    Encode([Prop("id", Str(o.id)), Prop("name", Str(o.name)), Prop("description", Str(o.description))])
  }

  function EntityProps(e: OrgEntity): (r: seq<Prop>)
  {
    [ Prop(OrganizationKey, if e.organization.Some? then Some(EncodeOrganization(e.organization.value)) else None),
      Prop("id", Str(e.id)),
      Prop("name", Str(e.name)),
      Prop("description", Str(e.description)) ]
  }

  function EncodeEntity(e: OrgEntity): (j: Json)
  {
    Encode(EntityProps(e))
  }

  function VersionProps(k: EntityKind, v: EntityVersion): (r: seq<Prop>)
  {
    [ Prop("id", Int(v.id)),
      Prop(ParentKey(k), if v.parent.Some? then Some(EncodeEntity(v.parent.value)) else None),
      Prop("version", Str(v.version)),
      Prop("status", Str(v.status)) ]
  }

  function EncodeVersion(k: EntityKind, v: EntityVersion): (j: Json)
  {
    Encode(VersionProps(k, v))
  }

  function DefinitionProps(d: PolicyDefinition): (r: seq<Prop>)
  {
    [ Prop("id", Str(d.id)),
      Prop("name", Str(d.name)),
      Prop("description", Str(d.description)),
      Prop("policyImpl", Str(d.policyImpl)) ]
  }

  function EncodeDefinition(d: PolicyDefinition): (j: Json)
  {
    Encode(DefinitionProps(d))
  }

  function PolicyProps(p: Policy): (r: seq<Prop>)
  {
    [ Prop("id", Int(p.id)),
      Prop("name", Str(p.name)),
      Prop("configuration", Str(p.configuration)),
      Prop("definition", if p.definition.Some? then Some(EncodeDefinition(p.definition.value)) else None) ]
  }

  function EncodePolicy(p: Policy): (j: Json)
  {
    Encode(PolicyProps(p))
  }

  function EncodePojo(b: Pojo): (j: Json)
  {
    Encode(b.props)
  }
}
