/** The enumerated parts of the export document: the global elements tracked
    for the whole document, and the elements nested inside one organization. */
module Sections {

  /** GlobalElementsEnum. */
  datatype Global = Metadata | Gateways | Plugins | PolicyDefinitions | Users | Roles | Orgs

  /** The global elements written as an array between a start and an end call
      (all but the metadata). */
  type ArraySection = g: Global | g != Metadata witness Gateways

  /** The global arrays that have a `write` call of their own (organizations are
      written through the nested protocol instead). */
  type ItemSection = g: Global | g != Metadata && g != Orgs witness Gateways

  const AllGlobals: set<Global> := {Metadata, Gateways, Plugins, PolicyDefinitions, Users, Roles, Orgs}

  /** AllGlobals lists every global element. */
  lemma AllGlobalsComplete()
    ensures forall g: Global :: g in AllGlobals
  {
    forall g: Global ensures g in AllGlobals {
      match g
      case Metadata =>
      case Gateways =>
      case Plugins =>
      case PolicyDefinitions =>
      case Users =>
      case Roles =>
      case Orgs =>
    }
  }

  /** The key under which a global element appears in the root object: the
      enum constant's name. */
  function GlobalKey(g: Global): (r: string)
  {
    match g
    case Metadata => "Metadata"
    case Gateways => "Gateways"
    case Plugins => "Plugins"
    case PolicyDefinitions => "PolicyDefinitions"
    case Users => "Users"
    case Roles => "Roles"
    case Orgs => "Orgs"
  }

  /** OrgElementsEnum. */
  datatype OrgElement = Memberships | Plans | Versions | Policies | Contracts | Apps | Services | Audits

  /** The key under which a nested array appears: the enum constant's name. */
  function ElementKey(e: OrgElement): (r: string)
  {
    match e
    case Memberships => "Memberships"
    case Plans => "Plans"
    case Versions => "Versions"
    case Policies => "Policies"
    case Contracts => "Contracts"
    case Apps => "Apps"
    case Services => "Services"
    case Audits => "Audits"
  }
}
