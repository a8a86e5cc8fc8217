/** The per-organization part of an export: what the exporter walks for one
    organization, the nested calls it makes for it, and what those calls emit. */
module Document {
  import opened Outcomes
  import opened Beans
  import opened Tokens
  import opened Sections
  import opened ExportWriter
  import opened Protocol

  /** One plan, service or application version with what is listed under it.
      The interface has contract calls for application versions only, so
      `contracts` is not written for the other two kinds. */
  datatype VersionBlock = VersionBlock(version: EntityVersion, policies: seq<Policy>, contracts: seq<Pojo>)

  /** One plan, service or application with its versions. */
  datatype EntityBlock = EntityBlock(entity: OrgEntity, versions: seq<VersionBlock>)

  /** One organization with everything exported under it. */
  datatype OrgBlock = OrgBlock(
    org: Organization,
    memberships: seq<Pojo>,
    plans: seq<EntityBlock>,
    services: seq<EntityBlock>,
    applications: seq<EntityBlock>,
    audits: seq<Pojo>)

  // What makes the nested calls succeed: every policy carries its definition.

  predicate VersionDefined(vb: VersionBlock)
  {
    forall i | 0 <= i < |vb.policies| :: vb.policies[i].definition.Some?
  }

  predicate EntityDefined(eb: EntityBlock)
  {
    forall i | 0 <= i < |eb.versions| :: VersionDefined(eb.versions[i])
  }

  predicate EntitiesDefined(ebs: seq<EntityBlock>)
  {
    forall i | 0 <= i < |ebs| :: EntityDefined(ebs[i])
  }

  predicate OrgDefined(ob: OrgBlock)
  {
    EntitiesDefined(ob.plans) && EntitiesDefined(ob.services) && EntitiesDefined(ob.applications)
  }

  predicate OrgsDefined(obs: seq<OrgBlock>)
  {
    forall i | 0 <= i < |obs| :: OrgDefined(obs[i])
  }

  // The calls the exporter makes, in the order of the writer's interface.

  function Bracket(start: NestedCall, body: seq<NestedCall>, end: NestedCall): (calls: seq<NestedCall>)
  {
    [start] + body + [end]
  }

  function Concat(blocks: seq<seq<NestedCall>>): (calls: seq<NestedCall>)
    decreases |blocks|
  {
    if blocks == [] then [] else blocks[0] + Concat(blocks[1..])
  }

  function PolicyWrites(k: EntityKind, ps: seq<Policy>): (r: seq<NestedCall>)
  {
    seq(|ps|, i requires 0 <= i < |ps| => WritePolicy(k, ps[i]))
  }

  function MembershipWrites(bs: seq<Pojo>): (r: seq<NestedCall>)
  {
    seq(|bs|, i requires 0 <= i < |bs| => WriteMembership(bs[i]))
  }

  function ContractWrites(bs: seq<Pojo>): (r: seq<NestedCall>)
  {
    seq(|bs|, i requires 0 <= i < |bs| => WriteContract(bs[i]))
  }

  function AuditWrites(bs: seq<Pojo>): (r: seq<NestedCall>)
  {
    seq(|bs|, i requires 0 <= i < |bs| => WriteAudit(bs[i]))
  }

  /** startXVersion, its policies, an application version's contracts, endXVersion. */
  function VersionCalls(k: EntityKind, vb: VersionBlock): (r: seq<NestedCall>)
  {
    Bracket(StartVersion(k, vb.version),
      Bracket(StartPolicies(k), PolicyWrites(k, vb.policies), EndPolicies(k))
      + (if k == ApplicationKind then Bracket(StartContracts, ContractWrites(vb.contracts), EndContracts) else []),
      EndVersion(k))
  }

  /** startX, the array of its versions, endX. */
  function EntityCalls(k: EntityKind, eb: EntityBlock): (r: seq<NestedCall>)
  {
    Bracket(StartEntity(k, eb.entity),
      Bracket(StartVersions(k),
        Concat(EachVersionCalls(k, eb.versions)),
        EndVersions(k)),
      EndEntity(k))
  }

  /** startXs, every X of the family, endXs. */
  function EntitiesCalls(k: EntityKind, ebs: seq<EntityBlock>): (r: seq<NestedCall>)
  {
    Bracket(StartEntities(k),
      Concat(EachEntityCalls(k, ebs)),
      EndEntities(k))
  }

  /** startOrg, the organization's contents, endOrg. */
  function OrgCalls(ob: OrgBlock): (r: seq<NestedCall>)
  {
    Bracket(StartOrg(ob.org), OrgContents(ob), EndOrg)
  }

  /** Memberships, plans, services, applications, audits. */
  function OrgContents(ob: OrgBlock): (r: seq<NestedCall>)
  {
    MembershipsCalls(ob)
    + EntitiesCalls(PlanKind, ob.plans)
    + EntitiesCalls(ServiceKind, ob.services)
    + EntitiesCalls(ApplicationKind, ob.applications)
    + AuditsCalls(ob)
  }

  /** Every organization in turn: the body of the orgs array. */
  function OrgsBody(obs: seq<OrgBlock>): (r: seq<NestedCall>)
  {
    Concat(EachOrgCalls(obs))
  }

  function EachVersionCalls(k: EntityKind, vs: seq<VersionBlock>): (blocks: seq<seq<NestedCall>>)
    ensures |blocks| == |vs| && forall i | 0 <= i < |vs| :: blocks[i] == VersionCalls(k, vs[i])
  {
    seq(|vs|, i requires 0 <= i < |vs| => VersionCalls(k, vs[i]))
  }

  function EachEntityCalls(k: EntityKind, ebs: seq<EntityBlock>): (blocks: seq<seq<NestedCall>>)
    ensures |blocks| == |ebs| && forall i | 0 <= i < |ebs| :: blocks[i] == EntityCalls(k, ebs[i])
  {
    seq(|ebs|, i requires 0 <= i < |ebs| => EntityCalls(k, ebs[i]))
  }

  function EachOrgCalls(obs: seq<OrgBlock>): (blocks: seq<seq<NestedCall>>)
    ensures |blocks| == |obs| && forall i | 0 <= i < |obs| :: blocks[i] == OrgCalls(obs[i])
  {
    seq(|obs|, i requires 0 <= i < |obs| => OrgCalls(obs[i]))
  }

  // The shape of what the calls emit.

  /** The run of `cs` succeeds exactly when `ok`, and what it then emits is a
      well-nested fragment for a container of kind `ctx`. */
  predicate Shaped(cs: seq<NestedCall>, ctx: Container, ok: bool)
  {
    (RunNested(cs).Ok? <==> ok) && (RunNested(cs).Ok? ==> Fragment(ctx, RunNested(cs).value))
  }

  predicate ArrayStart(c: NestedCall)
  {
    c.StartMemberships? || c.StartEntities? || c.StartVersions? || c.StartPolicies? || c.StartContracts? || c.StartAudits?
  }

  predicate ArrayEnd(c: NestedCall)
  {
    c.EndMemberships? || c.EndEntities? || c.EndVersions? || c.EndPolicies? || c.EndContracts? || c.EndAudits?
  }

  predicate ObjectStart(c: NestedCall)
  {
    c.StartOrg? || c.StartEntity? || c.StartVersion?
  }

  predicate ObjectEnd(c: NestedCall)
  {
    c.EndOrg? || c.EndEntity? || c.EndVersion?
  }

  /** The nested array starts emit one named array opener. */
  lemma EmitArrayStart(c: NestedCall)
    requires ArrayStart(c)
    ensures Emit(c).Ok? && |Emit(c).value| == 1 && Emit(c).value[0].StartArr?
  {
    assert IsStart(c);
  }

  /** The org, entity and version starts open an object and write the bean as its first field. */
  lemma EmitObjectStart(c: NestedCall)
    requires ObjectStart(c)
    ensures Emit(c).Ok? && |Emit(c).value| == 2 && Emit(c).value[0] == StartObj && Emit(c).value[1].Field?
  {
    assert IsStart(c);
  }

  lemma EmitArrayEnd(c: NestedCall)
    requires ArrayEnd(c)
    ensures Emit(c) == Ok([EndArr])
  {
    assert IsEnd(c) && !IsStart(c);
  }

  lemma EmitObjectEnd(c: NestedCall)
    requires ObjectEnd(c)
    ensures Emit(c) == Ok([EndObj])
  {
    assert IsEnd(c) && !IsStart(c);
  }

  /** A nested write that does not fail emits a single array item. */
  lemma EmitWriteItem(c: NestedCall)
    requires IsWrite(c) && !NullDefinition(c)
    ensures Emit(c).Ok? && |Emit(c).value| == 1 && Emit(c).value[0].Item?
  {
    assert !IsStart(c) && !IsEnd(c);
  }

  lemma RunNestedSingle(c: NestedCall)
    ensures RunNested([c]) == Emit(c)
  {
    assert [c][0] == c && [c][1..] == [];
    assert Join(Emit, [c][1..]) == Ok([]);
    if Emit(c).Ok? {
      assert Emit(c).value + [] == Emit(c).value;
    }
  }

  lemma RunNestedBracket(start: NestedCall, body: seq<NestedCall>, end: NestedCall)
    requires Emit(start).Ok? && Emit(end).Ok?
    ensures RunNested(Bracket(start, body, end)).Ok? <==> RunNested(body).Ok?
    ensures RunNested(body).Ok? ==>
      RunNested(Bracket(start, body, end)).value == Emit(start).value + RunNested(body).value + Emit(end).value
  {
    RunNestedSingle(start);
    RunNestedSingle(end);
    RunNestedConcat([start], body);
    RunNestedConcat([start] + body, [end]);
  }

  lemma {:induction false} ShapedConcat(a: seq<NestedCall>, b: seq<NestedCall>, ctx: Container, oa: bool, ob: bool)
    requires Shaped(a, ctx, oa) && Shaped(b, ctx, ob)
    ensures Shaped(a + b, ctx, oa && ob)
  {
    RunNestedConcat(a, b);
    if RunNested(a + b).Ok? {
      FragmentConcat(ctx, RunNested(a).value, RunNested(b).value);
    }
  }

  lemma {:induction false} ShapedArray(start: NestedCall, body: seq<NestedCall>, end: NestedCall, ok: bool)
    requires ArrayStart(start) && ArrayEnd(end) && Shaped(body, Arr, ok)
    ensures Shaped(Bracket(start, body, end), Obj, ok)
  {
    EmitArrayStart(start);
    EmitArrayEnd(end);
    RunNestedBracket(start, body, end);
    if ok {
      var name := Emit(start).value[0].name;
      assert Emit(start).value == [StartArr(name)];
      WrapArray(name, RunNested(body).value);
    }
  }

  lemma {:induction false} ShapedObject(start: NestedCall, body: seq<NestedCall>, end: NestedCall, ok: bool)
    requires ObjectStart(start) && ObjectEnd(end) && Shaped(body, Obj, ok)
    ensures Shaped(Bracket(start, body, end), Arr, ok)
  {
    EmitObjectStart(start);
    EmitObjectEnd(end);
    RunNestedBracket(start, body, end);
    if ok {
      var f := Emit(start).value[1];
      assert Emit(start).value == [StartObj, Field(f.name, f.value)];
      WrapObject(f.name, f.value, RunNested(body).value);
    }
  }

  /** Writes alone emit items: they succeed unless some policy lacks its
      definition, and then form an array's contents. */
  lemma {:induction false} ShapedWrites(cs: seq<NestedCall>)
    requires forall i | 0 <= i < |cs| :: IsWrite(cs[i])
    ensures Shaped(cs, Arr, forall i | 0 <= i < |cs| :: !NullDefinition(cs[i]))
    decreases |cs|
  {
    if cs == [] {
      assert Scan([Arr], []) == Some([Arr]);
    } else {
      assert cs == [cs[0]] + cs[1..];
      ShapedWrites(cs[1..]);
      RunNestedSingle(cs[0]);
      if NullDefinition(cs[0]) {
        assert Shaped([cs[0]], Arr, false);
      } else {
        EmitWriteItem(cs[0]);
        ItemsFragment(Emit(cs[0]).value);
      }
      ShapedConcat([cs[0]], cs[1..], Arr, !NullDefinition(cs[0]),
                   forall i | 0 <= i < |cs[1..]| :: !NullDefinition(cs[1..][i]));
      assert (forall i | 0 <= i < |cs| :: !NullDefinition(cs[i])) <==>
             !NullDefinition(cs[0]) && (forall i | 0 <= i < |cs[1..]| :: !NullDefinition(cs[1..][i])) by {
        assert forall i | 1 <= i < |cs| :: cs[i] == cs[1..][i - 1];
      }
    }
  }

  /** Blocks of the same context, one after another. */
  lemma {:induction false} ShapedConcatAll(blocks: seq<seq<NestedCall>>, ctx: Container, oks: seq<bool>)
    requires |oks| == |blocks|
    requires forall i | 0 <= i < |blocks| :: Shaped(blocks[i], ctx, oks[i])
    ensures Shaped(Concat(blocks), ctx, forall i | 0 <= i < |oks| :: oks[i])
    decreases |blocks|
  {
    if blocks == [] {
      assert Scan([ctx], []) == Some([ctx]);
    } else {
      ShapedConcatAll(blocks[1..], ctx, oks[1..]);
      ShapedConcat(blocks[0], Concat(blocks[1..]), ctx, oks[0], forall i | 0 <= i < |oks[1..]| :: oks[1..][i]);
      assert (forall i | 0 <= i < |oks| :: oks[i]) <==>
             oks[0] && (forall i | 0 <= i < |oks[1..]| :: oks[1..][i]) by {
        assert forall i | 1 <= i < |oks| :: oks[i] == oks[1..][i - 1];
      }
    }
  }

  lemma PojoWritesShape(cs: seq<NestedCall>)
    requires forall i | 0 <= i < |cs| :: cs[i].WriteMembership? || cs[i].WriteContract? || cs[i].WriteAudit?
    ensures Shaped(cs, Arr, true)
  {
    ShapedWrites(cs);
  }

  lemma PolicyWritesShape(k: EntityKind, ps: seq<Policy>)
    ensures Shaped(PolicyWrites(k, ps), Arr, forall i | 0 <= i < |ps| :: ps[i].definition.Some?)
  {
    var cs := PolicyWrites(k, ps);
    ShapedWrites(cs);
    assert forall i | 0 <= i < |ps| :: NullDefinition(cs[i]) == ps[i].definition.None?;
    ShapedSame(cs, Arr, forall i | 0 <= i < |cs| :: !NullDefinition(cs[i]),
               forall i | 0 <= i < |ps| :: ps[i].definition.Some?);
  }

  lemma ShapedSame(cs: seq<NestedCall>, ctx: Container, a: bool, b: bool)
    requires Shaped(cs, ctx, a) && (a <==> b)
    ensures Shaped(cs, ctx, b)
  {
  }

  /** One version block: succeeds exactly when each of its policies has a
      definition, and is then one well-nested object of the versions array. */
  lemma VersionShape(k: EntityKind, vb: VersionBlock)
    ensures Shaped(VersionCalls(k, vb), Arr, VersionDefined(vb))
  {
    PolicyWritesShape(k, vb.policies);
    var policies := Bracket(StartPolicies(k), PolicyWrites(k, vb.policies), EndPolicies(k));
    ShapedArray(StartPolicies(k), PolicyWrites(k, vb.policies), EndPolicies(k), VersionDefined(vb));
    var contracts := if k == ApplicationKind then Bracket(StartContracts, ContractWrites(vb.contracts), EndContracts) else [];
    if k == ApplicationKind {
      PojoWritesShape(ContractWrites(vb.contracts));
      ShapedArray(StartContracts, ContractWrites(vb.contracts), EndContracts, true);
    } else {
      assert Scan([Obj], []) == Some([Obj]);
    }
    ShapedConcat(policies, contracts, Obj, VersionDefined(vb), true);
    ShapedObject(StartVersion(k, vb.version), policies + contracts, EndVersion(k), VersionDefined(vb));
  }

  /** One entity block: succeeds exactly when every policy of every version
      has a definition, and is then one object of the family's array. */
  lemma EntityShape(k: EntityKind, eb: EntityBlock)
    ensures Shaped(EntityCalls(k, eb), Arr, EntityDefined(eb))
  {
    var vs := eb.versions;
    var blocks := EachVersionCalls(k, vs);
    var oks := seq(|vs|, i requires 0 <= i < |vs| => VersionDefined(vs[i]));
    forall i | 0 <= i < |vs|
      ensures Shaped(blocks[i], Arr, oks[i])
    {
      VersionShape(k, vs[i]);
    }
    var body := Concat(blocks);
    ShapedConcatAll(blocks, Arr, oks);
    assert forall i | 0 <= i < |oks| :: oks[i] == VersionDefined(vs[i]);
    assert (forall i | 0 <= i < |oks| :: oks[i]) == EntityDefined(eb);
    ShapedSame(body, Arr, forall i | 0 <= i < |oks| :: oks[i], EntityDefined(eb));
    ShapedArray(StartVersions(k), body, EndVersions(k), EntityDefined(eb));
    ShapedObject(StartEntity(k, eb.entity), Bracket(StartVersions(k), body, EndVersions(k)), EndEntity(k), EntityDefined(eb));
  }

  /** A family of entities: one named array of the organization's object. */
  lemma EntitiesShape(k: EntityKind, ebs: seq<EntityBlock>)
    ensures Shaped(EntitiesCalls(k, ebs), Obj, EntitiesDefined(ebs))
  {
    var blocks := EachEntityCalls(k, ebs);
    var oks := seq(|ebs|, i requires 0 <= i < |ebs| => EntityDefined(ebs[i]));
    forall i | 0 <= i < |ebs|
      ensures Shaped(blocks[i], Arr, oks[i])
    {
      EntityShape(k, ebs[i]);
    }
    var body := Concat(blocks);
    ShapedConcatAll(blocks, Arr, oks);
    assert forall i | 0 <= i < |oks| :: oks[i] == EntityDefined(ebs[i]);
    assert (forall i | 0 <= i < |oks| :: oks[i]) == EntitiesDefined(ebs);
    ShapedSame(body, Arr, forall i | 0 <= i < |oks| :: oks[i], EntitiesDefined(ebs));
    ShapedArray(StartEntities(k), body, EndEntities(k), EntitiesDefined(ebs));
  }

  function MembershipsCalls(ob: OrgBlock): (r: seq<NestedCall>)
  {
    Bracket(StartMemberships, MembershipWrites(ob.memberships), EndMemberships)
  }

  function AuditsCalls(ob: OrgBlock): (r: seq<NestedCall>)
  {
    Bracket(StartAudits, AuditWrites(ob.audits), EndAudits)
  }

  lemma MembershipsShape(ob: OrgBlock)
    ensures Shaped(MembershipsCalls(ob), Obj, true)
  {
    PojoWritesShape(MembershipWrites(ob.memberships));
    ShapedArray(StartMemberships, MembershipWrites(ob.memberships), EndMemberships, true);
  }

  lemma AuditsShape(ob: OrgBlock)
    ensures Shaped(AuditsCalls(ob), Obj, true)
  {
    PojoWritesShape(AuditWrites(ob.audits));
    ShapedArray(StartAudits, AuditWrites(ob.audits), EndAudits, true);
  }

  /** Memberships, plans and services. */
  lemma OrgHeadShape(ob: OrgBlock)
    ensures Shaped(MembershipsCalls(ob) + EntitiesCalls(PlanKind, ob.plans) + EntitiesCalls(ServiceKind, ob.services),
                   Obj, EntitiesDefined(ob.plans) && EntitiesDefined(ob.services))
  {
    MembershipsShape(ob);
    EntitiesShape(PlanKind, ob.plans);
    EntitiesShape(ServiceKind, ob.services);
    var p := EntitiesDefined(ob.plans);
    ShapedConcat(MembershipsCalls(ob), EntitiesCalls(PlanKind, ob.plans), Obj, true, p);
    ShapedConcat(MembershipsCalls(ob) + EntitiesCalls(PlanKind, ob.plans), EntitiesCalls(ServiceKind, ob.services),
                 Obj, p, EntitiesDefined(ob.services));
  }

  /** The contents of one organization's object. */
  lemma OrgContentsShape(ob: OrgBlock)
    ensures Shaped(OrgContents(ob), Obj, OrgDefined(ob))
  {
    var head := MembershipsCalls(ob) + EntitiesCalls(PlanKind, ob.plans) + EntitiesCalls(ServiceKind, ob.services);
    var ps := EntitiesDefined(ob.plans) && EntitiesDefined(ob.services);
    OrgHeadShape(ob);
    EntitiesShape(ApplicationKind, ob.applications);
    AuditsShape(ob);
    ShapedConcat(head, EntitiesCalls(ApplicationKind, ob.applications), Obj, ps, EntitiesDefined(ob.applications));
    ShapedConcat(head + EntitiesCalls(ApplicationKind, ob.applications), AuditsCalls(ob), Obj, OrgDefined(ob), true);
  }

  /** One organization: the nested calls succeed exactly when every policy
      under it has a definition, and then emit one well-nested object of the
      orgs array, although the writer checks none of them. */
  lemma OrgShape(ob: OrgBlock)
    ensures Shaped(OrgCalls(ob), Arr, OrgDefined(ob))
  {
    OrgContentsShape(ob);
    ShapedObject(StartOrg(ob.org), OrgContents(ob), EndOrg, OrgDefined(ob));
  }

  lemma OrgsBodyCons(obs: seq<OrgBlock>)
    requires obs != []
    ensures OrgsBody(obs) == OrgCalls(obs[0]) + OrgsBody(obs[1..])
  {
    assert EachOrgCalls(obs)[1..] == EachOrgCalls(obs[1..]);
  }

  lemma OrgsDefinedCons(obs: seq<OrgBlock>)
    requires obs != []
    ensures OrgsDefined(obs) <==> OrgDefined(obs[0]) && OrgsDefined(obs[1..])
  {
    assert forall i | 1 <= i < |obs| :: obs[i] == obs[1..][i - 1];
  }

  lemma OrgsShapeCons(obs: seq<OrgBlock>)
    requires obs != [] && Shaped(OrgsBody(obs[1..]), Arr, OrgsDefined(obs[1..]))
    ensures Shaped(OrgsBody(obs), Arr, OrgsDefined(obs))
  {
    OrgsBodyCons(obs);
    OrgShape(obs[0]);
    OrgsDefinedCons(obs);
    ShapedConcat(OrgCalls(obs[0]), OrgsBody(obs[1..]), Arr, OrgDefined(obs[0]), OrgsDefined(obs[1..]));
  }

  /** All organizations: the contents of the orgs array. */
  lemma {:induction false} OrgsShape(obs: seq<OrgBlock>)
    ensures Shaped(OrgsBody(obs), Arr, OrgsDefined(obs))
    decreases |obs|
  {
    if obs == [] {
      assert Scan([Arr], []) == Some([Arr]);
    } else {
      OrgsShape(obs[1..]);
      OrgsShapeCons(obs);
    }
  }
}
