/** JsonFileExportWriter: the facade the exporter drives. Global elements go
    through guarded start / write / end triads; everything inside one
    organization goes through unchecked nested calls; the root object is opened
    when the writer is built and closed by `close`. Every call is a pure
    function from the writer before the call to the writer after it, or to the
    error it raised. */
module ExportWriter {
  import opened Outcomes
  import opened Json
  import opened Beans
  import opened Projection
  import opened Tokens
  import opened Sections
  import opened Guards

  datatype ExportError =
    | StructuralViolation(section: Global) // a guard of a global element refused the call
    | NullPointer                          // writePolicy on a policy whose definition is null

  /** The writer's state: the guards' bookkeeping and every token emitted so far. */
  datatype Writer = Writer(tracker: Tracker, out: seq<Token>)

  /** Between top-level calls, the open containers are the root object and one
      array per locked global element. */
  predicate Inv(w: Writer)
  {
    TrackerOk(w.tracker) && Depth(w.out) == 1 + |w.tracker.locked|
  }

  /** The constructor: every global element unfinished and unlocked, and the
      root object opened, as the only token emitted. */
  function New(): (w: Writer)
    ensures Inv(w)
    ensures w.out == [StartObj]
    ensures forall g: Global :: g in w.tracker.finished && CanStart(w.tracker, g)
  {
    Writer(Seeded(), [StartObj])
  }

  /** Appends tokens without consulting any guard. */
  function Emitting(w: Writer, ts: seq<Token>): (r: Writer)
    ensures r.tracker == w.tracker
    ensures |r.out| == |w.out| + |ts| && r.out[..|w.out|] == w.out && r.out[|w.out|..] == ts
    ensures Opens(r.out) == Opens(w.out) + Opens(ts) && Closes(r.out) == Closes(w.out) + Closes(ts)
    ensures Depth(r.out) == Depth(w.out) + Depth(ts)
  {
    CountsConcat(w.out, ts);
    var r := Writer(w.tracker, w.out + ts);
    assert r.out[|w.out|..] == ts;
    r
  }

  /** writeMetadata: checked like a start, but takes no lock and opens no
      array; it emits the metadata as one named field of the root object. */
  function WriteMetadata(w: Writer, m: Pojo): (r: Result<Writer, ExportError>)
    ensures r.Ok? <==> CanStart(w.tracker, Metadata)
    ensures r.Err? ==> r.error == StructuralViolation(Metadata)
    ensures r.Ok? ==> r.value.tracker == w.tracker
    ensures r.Ok? ==> r.value.out == w.out + [Field(GlobalKey(Metadata), EncodePojo(m))]
    ensures Inv(w) && r.Ok? ==> Inv(r.value)
  {
    if CanStart(w.tracker, Metadata) then
      Ok(Emitting(w, Value(Some(GlobalKey(Metadata)), EncodePojo(m))))
    else
      Err(StructuralViolation(Metadata))
  }

  /** startGateways, startPlugins, startPolicyDefs, startUsers, startRoles,
      startOrgs: check, lock, then open the element's named array. A refused
      start emits nothing. */
  function StartSection(w: Writer, s: ArraySection): (r: Result<Writer, ExportError>)
    ensures r.Ok? <==> !IsFinished(w.tracker, s) && s !in w.tracker.locked
    ensures r.Err? ==> r.error == StructuralViolation(s)
    ensures r.Ok? ==> r.value.tracker.locked == w.tracker.locked + {s}
    ensures r.Ok? ==> forall g: Global :: IsFinished(r.value.tracker, g) == IsFinished(w.tracker, g)
    ensures r.Ok? ==> r.value.out == w.out + [StartArr(GlobalKey(s))]
    ensures TrackerOk(w.tracker) && r.Ok? ==> TrackerOk(r.value.tracker)
    ensures Inv(w) && r.Ok? ==> Inv(r.value)
  {
    if CanStart(w.tracker, s) then
      Ok(Emitting(Writer(Lock(w.tracker, s), w.out), OpenArray(GlobalKey(s))))
    else
      Err(StructuralViolation(s))
  }

  /** The argument of a global write call: which call it is fixes the element. */
  datatype GlobalItem =
    | Gateway(gateway: Pojo)               // writeGateway
    | Plugin(plugin: Pojo)                 // writePlugin
    | PolicyDef(definition: PolicyDefinition) // writePolicyDef
    | User(user: Pojo)                     // writeUser
    | Role(role: Pojo)                     // writeRole

  function SectionOf(item: GlobalItem): (r: ItemSection)
  {
    match item
    case Gateway(_) => Gateways
    case Plugin(_) => Plugins
    case PolicyDef(_) => PolicyDefinitions
    case User(_) => Users
    case Role(_) => Roles
  }

  /** Global items are encoded as they are: nothing is cleared in them. */
  function EncodeItem(item: GlobalItem): (r: Json)
  {
    match item
    case PolicyDef(d) => EncodeDefinition(d)
    case Gateway(b) => EncodePojo(b)
    case Plugin(b) => EncodePojo(b)
    case User(b) => EncodePojo(b)
    case Role(b) => EncodePojo(b)
  }

  /** writeGateway, writePlugin, writePolicyDef, writeUser, writeRole: the
      write check of the item's own element, then one array item. */
  function WriteItem(w: Writer, item: GlobalItem): (r: Result<Writer, ExportError>)
    ensures r.Ok? <==> SectionOf(item) in w.tracker.locked
    ensures r.Err? ==> r.error == StructuralViolation(SectionOf(item))
    ensures r.Ok? ==> r.value.tracker == w.tracker
    ensures r.Ok? ==> r.value.out == w.out + [Item(EncodeItem(item))]
    ensures Inv(w) && r.Ok? ==> Inv(r.value)
  {
    if CanWrite(w.tracker, SectionOf(item)) then
      Ok(Emitting(w, Value(None, EncodeItem(item))))
    else
      Err(StructuralViolation(SectionOf(item)))
  }

  /** endGateways, endPlugins, endPolicyDefs, endUsers, endRoles, endOrgs:
      check, close the array, release the lock; the element is then finished
      for good. */
  function EndSection(w: Writer, s: ArraySection): (r: Result<Writer, ExportError>)
    ensures r.Ok? <==> s in w.tracker.locked
    ensures r.Err? ==> r.error == StructuralViolation(s)
    ensures r.Ok? ==> r.value.tracker.locked == w.tracker.locked - {s}
    ensures r.Ok? ==> IsFinished(r.value.tracker, s)
    ensures r.Ok? ==> forall g: Global | g != s :: IsFinished(r.value.tracker, g) == IsFinished(w.tracker, g)
    ensures r.Ok? ==> r.value.out == w.out + [EndArr]
    ensures TrackerOk(w.tracker) && r.Ok? ==> TrackerOk(r.value.tracker)
    ensures Inv(w) && r.Ok? ==> Inv(r.value)
  {
    if CanEnd(w.tracker, s) then
      Ok(Emitting(Writer(Finish(w.tracker, s), w.out), CloseArray()))
    else
      Err(StructuralViolation(s))
  }

  /** The calls of the per-organization protocol. The plan, service and
      application families share their calls, told apart by `kind`
      (StartEntities(PlanKind) is startPlans, StartEntity(PlanKind, p) is
      startPlan(p), StartVersions(ServiceKind) is startServiceVersions, …). */
  datatype NestedCall =
    | StartOrg(org: Organization)
    | StartMemberships
    | WriteMembership(membership: Pojo)
    | EndMemberships
    | StartEntities(kind: EntityKind)
    | StartEntity(kind: EntityKind, entity: OrgEntity)
    | StartVersions(kind: EntityKind)
    | StartVersion(kind: EntityKind, version: EntityVersion)
    | StartPolicies(kind: EntityKind)
    | WritePolicy(kind: EntityKind, policy: Policy)
    | EndPolicies(kind: EntityKind)
    | StartContracts
    | WriteContract(contract: Pojo)
    | EndContracts
    | EndVersion(kind: EntityKind)
    | EndVersions(kind: EntityKind)
    | EndEntity(kind: EntityKind)
    | EndEntities(kind: EntityKind)
    | StartAudits
    | WriteAudit(audit: Pojo)
    | EndAudits
    | EndOrg

  predicate IsStart(c: NestedCall)
  {
    c.StartOrg? || c.StartMemberships? || c.StartEntities? || c.StartEntity? || c.StartVersions?
    || c.StartVersion? || c.StartPolicies? || c.StartContracts? || c.StartAudits?
  }

  predicate IsEnd(c: NestedCall)
  {
    c.EndMemberships? || c.EndPolicies? || c.EndContracts? || c.EndVersion? || c.EndVersions?
    || c.EndEntity? || c.EndEntities? || c.EndAudits? || c.EndOrg?
  }

  predicate IsWrite(c: NestedCall)
  {
    c.WriteMembership? || c.WritePolicy? || c.WriteContract? || c.WriteAudit?
  }

  /** The nested array a plan, service or application family is listed in. */
  function EntitiesElement(k: EntityKind): (r: OrgElement)
  {
    match k
    case PlanKind => Plans
    case ServiceKind => Services
    case ApplicationKind => Apps
  }

  /** The opener a nested start emits: an anonymous object opened with the
      (projected) bean as its one field, or a named array. */
  function EmitStart(c: NestedCall): (ts: seq<Token>)
    requires IsStart(c)
    ensures 1 <= |ts| <= 2 && Opens(ts) == 1 && Closes(ts) == 0
    ensures c.StartOrg? ==> ts == [StartObj, Field("OrganizationBean", EncodeOrganization(c.org))]
    ensures c.StartEntity? ==> ts == [StartObj, Field(EntityBeanName(c.kind), EncodeEntity(DetachEntity(c.entity)))]
    ensures c.StartVersion? ==> ts == [StartObj, Field(VersionBeanName(c.kind), EncodeVersion(c.kind, DetachVersion(c.version)))]
    ensures c.StartMemberships? ==> ts == [StartArr("Memberships")]
    ensures c == StartEntities(PlanKind) ==> ts == [StartArr("Plans")]
    ensures c == StartEntities(ServiceKind) ==> ts == [StartArr("Services")]
    ensures c == StartEntities(ApplicationKind) ==> ts == [StartArr("Apps")]
    ensures c.StartVersions? ==> ts == [StartArr("Versions")]
    ensures c.StartPolicies? ==> ts == [StartArr("Policies")]
    ensures c.StartContracts? ==> ts == [StartArr("Contracts")]
    ensures c.StartAudits? ==> ts == [StartArr("Audits")]
  {
    if c.StartOrg? || c.StartEntity? || c.StartVersion? then ObjectOpener(c) else ArrayOpener(c)
  }

  /** The org, entity and version starts: the bean, edited as the writer edits
      it, as the first field of a fresh object. */
  function ObjectOpener(c: NestedCall): (ts: seq<Token>)
    requires c.StartOrg? || c.StartEntity? || c.StartVersion?
    ensures |ts| == 2 && Opens(ts) == 1 && Closes(ts) == 0
    ensures c.StartOrg? ==> ts == [StartObj, Field("OrganizationBean", EncodeOrganization(c.org))]
    ensures c.StartEntity? ==> ts == [StartObj, Field(EntityBeanName(c.kind), EncodeEntity(DetachEntity(c.entity)))]
    ensures c.StartVersion? ==> ts == [StartObj, Field(VersionBeanName(c.kind), EncodeVersion(c.kind, DetachVersion(c.version)))]
  {
    match c
    case StartOrg(o) => OpenObject(OrganizationBeanName, EncodeOrganization(o))
    case StartEntity(k, e) => OpenObject(EntityBeanName(k), EncodeEntity(DetachEntity(e)))
    case StartVersion(k, v) => OpenObject(VersionBeanName(k), EncodeVersion(k, DetachVersion(v)))
  }

  /** The other starts: the named array the element is listed in. */
  function ArrayOpener(c: NestedCall): (ts: seq<Token>)
    requires IsStart(c) && !(c.StartOrg? || c.StartEntity? || c.StartVersion?)
    ensures |ts| == 1 && Opens(ts) == 1 && Closes(ts) == 0
    ensures c.StartMemberships? ==> ts == [StartArr("Memberships")]
    ensures c == StartEntities(PlanKind) ==> ts == [StartArr("Plans")]
    ensures c == StartEntities(ServiceKind) ==> ts == [StartArr("Services")]
    ensures c == StartEntities(ApplicationKind) ==> ts == [StartArr("Apps")]
    ensures c.StartVersions? ==> ts == [StartArr("Versions")]
    ensures c.StartPolicies? ==> ts == [StartArr("Policies")]
    ensures c.StartContracts? ==> ts == [StartArr("Contracts")]
    ensures c.StartAudits? ==> ts == [StartArr("Audits")]
  {
    match c
    case StartMemberships => OpenArray(ElementKey(Memberships))
    case StartEntities(k) => OpenArray(ElementKey(EntitiesElement(k)))
    case StartVersions(_) => OpenArray(ElementKey(Versions))
    case StartPolicies(_) => OpenArray(ElementKey(Policies))
    case StartContracts => OpenArray(ElementKey(Contracts))
    case StartAudits => OpenArray(ElementKey(Audits))
  }

  /** The closer a nested end emits. */
  function EmitEnd(c: NestedCall): (ts: seq<Token>)
    requires IsEnd(c)
    ensures |ts| == 1 && Opens(ts) == 0 && Closes(ts) == 1
    ensures ts == if c.EndOrg? || c.EndEntity? || c.EndVersion? then [EndObj] else [EndArr]
  {
    match c
    case EndMemberships => CloseArray()
    case EndEntities(_) => CloseArray()
    case EndVersions(_) => CloseArray()
    case EndPolicies(_) => CloseArray()
    case EndContracts => CloseArray()
    case EndAudits => CloseArray()
    case EndOrg => CloseObject()
    case EndEntity(_) => CloseObject()
    case EndVersion(_) => CloseObject()
  }

  /** The one array item a nested write emits; a policy goes out with its
      definition stubbed, and one without a definition is refused. */
  function EmitWrite(c: NestedCall): (r: Result<seq<Token>, ExportError>)
    requires IsWrite(c)
    ensures r.Err? <==> c.WritePolicy? && c.policy.definition.None?
    ensures r.Err? ==> r.error == NullPointer
    ensures r.Ok? ==> |r.value| == 1 && Opens(r.value) == 0 && Closes(r.value) == 0
    ensures r.Ok? ==> r.value[0].Item?
    ensures c.WriteMembership? ==> r == Ok([Item(EncodePojo(c.membership))])
    ensures c.WriteContract? ==> r == Ok([Item(EncodePojo(c.contract))])
    ensures c.WriteAudit? ==> r == Ok([Item(EncodePojo(c.audit))])
    ensures c.WritePolicy? && r.Ok? ==> r.value == [Item(EncodePolicy(StubPolicy(c.policy)))]
  {
    match c
    case WriteMembership(b) => Ok(Value(None, EncodePojo(b)))
    case WriteContract(b) => Ok(Value(None, EncodePojo(b)))
    case WriteAudit(b) => Ok(Value(None, EncodePojo(b)))
    case WritePolicy(_, p) =>
      if p.definition.None? then Err(NullPointer) else Ok(Value(None, EncodePolicy(StubPolicy(p))))
  }

  /** The tokens one nested call emits. No guard is consulted; only a policy
      without a definition fails, on dereferencing it, before anything is
      emitted. A start emits exactly one opener, an end exactly one closer, a
      write neither. */
  function Emit(c: NestedCall): (r: Result<seq<Token>, ExportError>)
    ensures r.Err? <==> c.WritePolicy? && c.policy.definition.None?
    ensures r.Err? ==> r.error == NullPointer
    ensures r.Ok? ==> 1 <= |r.value| <= 2
    ensures r.Ok? ==> Opens(r.value) == (if IsStart(c) then 1 else 0)
    ensures r.Ok? ==> Closes(r.value) == (if IsEnd(c) then 1 else 0)
  {
    if IsStart(c) then Ok(EmitStart(c))
    else if IsEnd(c) then Ok(EmitEnd(c))
    else EmitWrite(c)
  }

  /** One nested call against the writer. It runs no check, so it succeeds or
      fails whatever state the writer is in, leaves the guards' state alone,
      and moves the nesting depth by one for a start or an end. */
  function ApplyNested(w: Writer, c: NestedCall): (r: Result<Writer, ExportError>)
    ensures r.Ok? <==> !(c.WritePolicy? && c.policy.definition.None?)
    ensures r.Err? ==> r.error == NullPointer
    ensures r.Ok? ==> r.value.tracker == w.tracker && |w.out| < |r.value.out| && r.value.out[..|w.out|] == w.out
    ensures r.Ok? ==> Depth(r.value.out) == Depth(w.out) + (if IsStart(c) then 1 else if IsEnd(c) then -1 else 0)
  {
    match Emit(c)
    case Err(e) => Err(e)
    case Ok(ts) => Ok(Emitting(w, ts))
  }

  /** The argument as the caller holds it once the call has returned: the
      writer cleared the back-reference (or stubbed the definition) on the
      caller's own bean; a policy without a definition is refused before it
      is touched. */
  function CallerArgumentAfter(c: NestedCall): (r: NestedCall)
    ensures c.StartEntity? ==> r.StartEntity? && r.kind == c.kind && r.entity.organization.None?
    ensures c.StartEntity? ==>
      r.entity.id == c.entity.id && r.entity.name == c.entity.name && r.entity.description == c.entity.description
    ensures c.StartVersion? ==> r.StartVersion? && r.kind == c.kind && r.version.parent.None?
    ensures c.StartVersion? ==>
      r.version.id == c.version.id && r.version.version == c.version.version && r.version.status == c.version.status
    ensures c.WritePolicy? && c.policy.definition.Some? ==>
      r.WritePolicy? && r.kind == c.kind && r.policy.definition == Some(StubDefinition(c.policy.definition.value))
    ensures c.WritePolicy? && c.policy.definition.Some? ==>
      r.policy.id == c.policy.id && r.policy.name == c.policy.name && r.policy.configuration == c.policy.configuration
    ensures !c.StartEntity? && !c.StartVersion? && !(c.WritePolicy? && c.policy.definition.Some?) ==> r == c
  {
    match c
    case StartEntity(k, e) => StartEntity(k, DetachEntity(e))
    case StartVersion(k, v) => StartVersion(k, DetachVersion(v))
    case WritePolicy(k, p) => if p.definition.Some? then WritePolicy(k, StubPolicy(p)) else c
    case _ => c
  }

  /** What was encoded is exactly the bean the caller is left holding: writing
      the edited argument again would emit the same tokens. */
  lemma CallerHoldsWhatWasWritten(c: NestedCall)
    ensures Emit(CallerArgumentAfter(c)) == Emit(c)
  {
    if c.StartEntity? || c.StartVersion? {
      StartReencodes(c);
    } else if c.WritePolicy? {
      PolicyReencodes(c);
    } else {
      assert CallerArgumentAfter(c) == c;
    }
  }

  lemma StartReencodes(c: NestedCall)
    requires c.StartEntity? || c.StartVersion?
    ensures Emit(CallerArgumentAfter(c)) == Emit(c)
  {
    var r := CallerArgumentAfter(c);
    if c.StartEntity? {
      DetachEntityIdempotent(c.entity);
      assert EmitStart(r) == EmitStart(c);
    } else {
      DetachVersionIdempotent(c.version);
      assert EmitStart(r) == EmitStart(c);
    }
    assert IsStart(r) && IsStart(c);
  }

  /** What writePolicy emits: the stubbed policy as one anonymous item, or
      the null-pointer failure when the definition is missing. */
  lemma EmitPolicy(k: EntityKind, p: Policy)
    ensures Emit(WritePolicy(k, p)) ==
              if p.definition.None? then Err(NullPointer) else Ok(Value(None, EncodePolicy(StubPolicy(p))))
  {
    assert !IsStart(WritePolicy(k, p)) && !IsEnd(WritePolicy(k, p));
  }

  lemma PolicyReencodes(c: NestedCall)
    requires c.WritePolicy?
    ensures Emit(CallerArgumentAfter(c)) == Emit(c)
  {
    if c.policy.definition.Some? {
      var q := StubPolicy(c.policy);
      StubPolicyIdempotent(c.policy);
      assert CallerArgumentAfter(c) == WritePolicy(c.kind, q);
      EmitPolicy(c.kind, q);
      EmitPolicy(c.kind, c.policy);
    } else {
      assert CallerArgumentAfter(c) == c;
    }
  }

  /** What startPlan, startService and startApplication emit: the opener and
      one field holding the bean, which carries no `organization` key and
      embeds no object. */
  lemma EmittedEntityOmitsOrganization(k: EntityKind, e: OrgEntity)
    ensures Emit(StartEntity(k, e)).Ok?
    ensures var ts := Emit(StartEntity(k, e)).value;
      && ts == [StartObj, Field(EntityBeanName(k), ts[1].value)]
      && OrganizationKey !in Keys(ts[1].value.members)
      && Flat(ts[1].value)
  {
    DetachedEntityOmitsOrganization(e);
    assert IsStart(StartEntity(k, e));
  }

  /** What the version starts emit: the opener and one field holding the
      version, which carries no back-reference to its plan, service or
      application and embeds no object. */
  lemma EmittedVersionOmitsParent(k: EntityKind, v: EntityVersion)
    ensures Emit(StartVersion(k, v)).Ok?
    ensures var ts := Emit(StartVersion(k, v)).value;
      && ts == [StartObj, Field(VersionBeanName(k), ts[1].value)]
      && ParentKey(k) !in Keys(ts[1].value.members)
      && Flat(ts[1].value)
  {
    DetachedVersionOmitsParent(k, v);
    assert IsStart(StartVersion(k, v));
  }

  /** What writePolicy emits for a policy with a definition: one anonymous
      item whose `definition` is only the definition's id. */
  lemma EmittedPolicyCarriesOnlyDefinitionId(k: EntityKind, p: Policy)
    requires p.definition.Some?
    ensures Emit(WritePolicy(k, p)).Ok?
    ensures var ts := Emit(WritePolicy(k, p)).value;
      var id := p.definition.value.id;
      && ts == [Item(ts[0].value)]
      && Get(ts[0].value, "definition") == Some(JObject(if id.Some? then [Member("id", JString(id.value))] else []))
  {
    EmitPolicy(k, p);
    EncodedPolicyCarriesOnlyDefinitionId(p);
  }

  /** close: one closer for the root object and nothing else; arrays left open
      stay open. The document balances exactly when no global element is still
      locked. */
  function Close(w: Writer): (doc: seq<Token>)
    ensures |doc| == |w.out| + 1 && doc[..|w.out|] == w.out && doc[|w.out|] == EndObj
    ensures Opens(doc) == Opens(w.out) && Closes(doc) == Closes(w.out) + 1
    ensures Inv(w) ==> (Depth(doc) == 0 <==> w.tracker.locked == {})
  {
    Emitting(w, CloseObject()).out
  }

  /** Under the invariant, closing with a global element still open yields a
      malformed document. The invariant is needed: a nested end, which no
      guard checks, can close a global element's array while the element
      stays locked (Scenarios.NestedEndClosesGlobalArray). */
  lemma CloseWithOpenSectionIsMalformed(w: Writer)
    requires Inv(w) && w.tracker.locked != {}
    ensures !WellFormed(Close(w))
  {
    UnbalancedIsMalformed(Close(w));
  }

  /** The structural violations of a global element: starting it twice,
      writing to or ending it before it started, and writing to, ending or
      restarting it after it ended all fail, and fail on that element. */
  lemma StructuralViolations(s: ItemSection, item: GlobalItem)
    requires SectionOf(item) == s
    ensures var w0 := New();
      && WriteItem(w0, item) == Err(StructuralViolation(s))
      && EndSection(w0, s) == Err(StructuralViolation(s))
      && StartSection(w0, s).Ok?
      && var w1 := StartSection(w0, s).value;
      && StartSection(w1, s) == Err(StructuralViolation(s))
      && WriteItem(w1, item).Ok?
      && EndSection(w1, s).Ok?
      && var w2 := EndSection(w1, s).value;
      && WriteItem(w2, item) == Err(StructuralViolation(s))
      && EndSection(w2, s) == Err(StructuralViolation(s))
      && StartSection(w2, s) == Err(StructuralViolation(s))
  {
  }

  /** In any writer whose bookkeeping is consistent (every writer a run from
      the constructor reaches is), a global element that has ended can never
      be written, ended or started again. */
  lemma FinishedIsTerminal(w: Writer, s: ArraySection)
    requires TrackerOk(w.tracker) && IsFinished(w.tracker, s)
    ensures StartSection(w, s).Err? && EndSection(w, s).Err?
    ensures forall item: GlobalItem | SectionOf(item) == s :: WriteItem(w, item).Err?
  {
  }
}
