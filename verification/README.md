# apiman JSON export writer, modelled in Dafny

This project models `JsonFileExportWriter`, the streaming writer apiman's
manager uses to export its whole state as a single JSON document. The
exporter drives the writer through a fixed call protocol:

- a `writeMetadata` field;
- six global arrays, each guarded by a per-element `finished` flag and lock.
  Five of them (gateways, plugins, policy definitions, users, roles) are
  written as a start, one write call per bean, and an end;
- the organizations array, whose start and end are guarded like the others
  but which has no write call. Its body is a nest of unguarded calls for each
  organization: `startOrg`, memberships, plans, services and applications
  with their versions, policies and contracts, audits, then `endOrg`;
- `close`, which closes the root object the constructor opened.

Jackson is abstracted to the sequence of structural tokens the writer hands
it: `StartObj`, `EndObj`, `StartArr(name)`, `EndArr`, `Field(name, value)` and
`Item(value)`. A bean is abstracted to its list of optional properties, and
it is encoded with NON_NULL inclusion: a property holding null is dropped.

The writer is an immutable record of the guards' state (finished flags and
the lock set) and the tokens emitted so far. Every call is a pure function
returning either the next writer or the error the call raises.

Modules, in dependency order:

- `Outcomes`: `Option` and `Result`.
- `Json`: JSON values, NON_NULL encoding and key lookup.
- `Beans`: the beans' property lists.
- `Projection`: the edits made to a bean before it is encoded.
- `Tokens`: tokens and document well-formedness.
- `Sections`: the element enums.
- `Guards`: the per-element check, lock and finish.
- `ExportWriter`: the writer's calls.
- `Protocol`: runs of calls.
- `Document`: the call sequences the exporter issues for organizations.
- `Export`: a whole export.
- `Scenarios`: concrete call orders.

The following are assumptions, because `AbstractJsonWriter`, the writer's
base class, and the bean classes are not part of this model:

- **How the guard helpers behave.**
  - `validityCheckStart` refuses an element that is finished or locked.
  - `writeCheck` refuses an element that is not locked.
  - `validityCheckEnd` refuses an element that is not locked. When it
    passes, the element is marked finished.
  - `lock` and `unlock` add the element to the lock set and remove it again.
  - A refusal is the error `StructuralViolation(element)`, and nothing is
    emitted.
- **The field names.** `writeStartArray(element)` is taken to write the
  enum constant's name as the array's field name, and
  `writePojo(GlobalElementsEnum.Metadata, metadata)` to write the metadata
  bean as a field named `Metadata`.
- **What the emitting helpers emit.** Each is taken to emit exactly one token
  and nothing else:
  - `writePojo(bean)` (lines 112, 135, 164, 190, 213, 252, 335, 582, 645)
    emits one anonymous array item holding the bean's NON_NULL encoding.
  - `writeStartObject()` (235, 276, 300, …) emits one bare `StartObj`.
  - `writeEndObject()` (353, 663, 678, …) emits one bare `EndObj`.
  - `writeEndArray(element)` (119, 258, 344, …) and `writeEndArray()` (362,
    591, 670, …) emit one bare `EndArr`.

  The exact-token contracts of `EmitStart`, `EmitEnd`, `EmitWrite`,
  `WriteItem`, `EndSection` and `Close` rest on these.
- **The fresh policy definition.** `new PolicyDefinitionBean()` (line 332) is
  taken to hold null in every field, so once its id is set, the id is its
  only non-null property. `PolicyDefinitionBean` is not part of this model.
  If the real class gives some field a non-null default, NON_NULL inclusion
  would write that field as well.

Exporting does not leave the caller's beans unchanged, though one might
expect it to. The code nulls the back-reference (`setOrganization(null)`,
`setPlan(null)`, …) and replaces the policy's definition on the caller's own
object, and the model follows the code.
`ExportWriter.CallerArgumentAfter` models what the caller holds afterwards.
`ExportWriter.CallerHoldsWhatWasWritten` proves that re-encoding that edited
argument gives exactly the tokens already written.

A well-formed document (`Tokens.WellFormed`) is exactly one root object: the
first token opens it, the last closes it, and what lies between never closes
it early and closes everything it opens.

The beans are cut down to their scalar fields plus the back-references the
writer edits. Two results are therefore facts about this cut, not about the
real classes:
- "embeds no object" holds of an encoded entity, version or policy
  definition stub because the model has no other object-valued field that
  could be embedded;
- "the stub carries the original id and nothing else"
  (`Projection.StubDefinition`, `StubDefinitionKeepsOnlyId`, `StubEncoding`)
  holds because the cut `PolicyDefinition` has no field that could carry a
  default value.

## Model

All source paths are under
`manager/api/export-import/src/main/java/io/apiman/manager/api/exportimport/json/`;
the table gives them in full.

| member | source | states |
|---|---|---|
| Guards.Seeded | manager/api/export-import/src/main/java/io/apiman/manager/api/exportimport/json/JsonFileExportWriter.java:63-67 | every one of the seven global elements has a `finished` entry, set to false, and none is locked |
| Sections.AllGlobalsComplete | manager/api/export-import/src/main/java/io/apiman/manager/api/exportimport/json/JsonFileExportWriter.java:64-66 | the seeding loop over `GlobalElementsEnum.values()` reaches every element |
| ExportWriter.New | manager/api/export-import/src/main/java/io/apiman/manager/api/exportimport/json/JsonFileExportWriter.java:63-82 | the new writer has emitted exactly one root `StartObj`; every element has a finished entry and can be started; the depth invariant holds |
| Guards.Lock | manager/api/export-import/src/main/java/io/apiman/manager/api/exportimport/json/JsonFileExportWriter.java:103-104 | after the start check, the element joins the lock set and no finished flag changes |
| Guards.Finish | manager/api/export-import/src/main/java/io/apiman/manager/api/exportimport/json/JsonFileExportWriter.java:118-120 | after the end check, the element is finished and unlocked; it can no longer be started, written or ended; other elements keep their flags |
| ExportWriter.WriteMetadata | manager/api/export-import/src/main/java/io/apiman/manager/api/exportimport/json/JsonFileExportWriter.java:95-99 | succeeds exactly when metadata passes the start check, and fails with metadata's structural violation otherwise; takes no lock; appends exactly one `Metadata` field holding the encoded bean |
| ExportWriter.StartSection | manager/api/export-import/src/main/java/io/apiman/manager/api/exportimport/json/JsonFileExportWriter.java:102-107 | (every global start, 102-231) succeeds exactly when the element is neither finished nor locked, and otherwise fails on that element; on success it locks the element, changes no finished flag, and appends exactly one named array start |
| ExportWriter.WriteItem | manager/api/export-import/src/main/java/io/apiman/manager/api/exportimport/json/JsonFileExportWriter.java:110-113 | (every global write) succeeds exactly when the item's own element is locked, and otherwise fails on that element; on success it appends exactly one item holding the encoded bean, with nothing cleared in it |
| ExportWriter.EndSection | manager/api/export-import/src/main/java/io/apiman/manager/api/exportimport/json/JsonFileExportWriter.java:117-122 | (every global end, `endOrgs` at 668-673 included) succeeds exactly when the element is locked, and otherwise fails on that element; on success it finishes and unlocks only that element and appends exactly one `EndArr` |
| ExportWriter.StructuralViolations | manager/api/export-import/src/main/java/io/apiman/manager/api/exportimport/json/JsonFileExportWriter.java:102-122 | on a fresh writer, a write or end before the start fails, and so does a second start; the triad then succeeds; after the end, a further write, end or start fails, each on that element |
| ExportWriter.FinishedIsTerminal | manager/api/export-import/src/main/java/io/apiman/manager/api/exportimport/json/JsonFileExportWriter.java:117-122 | in any writer with consistent bookkeeping, including one inside an open organization or nested array, once an element is finished every start, write and end of it is refused |
| Protocol.StepKeepsTrackerOk | manager/api/export-import/src/main/java/io/apiman/manager/api/exportimport/json/JsonFileExportWriter.java:95-673 | every call that succeeds, nested or not, keeps the bookkeeping consistent: every element has a flag and nothing locked is finished |
| Protocol.ReachableTrackerOk | manager/api/export-import/src/main/java/io/apiman/manager/api/exportimport/json/JsonFileExportWriter.java:63-673 | every writer that any run of calls, in any order, reaches from the constructor has consistent bookkeeping, so `FinishedIsTerminal` applies to it |
| Protocol.TopLevelCallKeepsInv | manager/api/export-import/src/main/java/io/apiman/manager/api/exportimport/json/JsonFileExportWriter.java:95-231 | a guarded call that succeeds keeps the depth invariant: open containers = root + one per locked element |
| ExportWriter.EmitStart | manager/api/export-import/src/main/java/io/apiman/manager/api/exportimport/json/JsonFileExportWriter.java:234-242 | `startOrg`, `startPlan`/`startService`/`startApplication` and the version starts emit `StartObj` and one field named after the bean's class (`OrganizationBean`, `PlanBean`, …) holding the edited bean; every other nested start emits exactly one named array start, named `Memberships`, `Plans`, `Services`, `Apps`, `Versions`, `Policies`, `Contracts` or `Audits` as the `OrgElementsEnum` constant it passes |
| ExportWriter.EmitEnd | manager/api/export-import/src/main/java/io/apiman/manager/api/exportimport/json/JsonFileExportWriter.java:256-260 | `endOrg`, the entity ends and the version ends emit exactly `EndObj`; every other nested end emits exactly `EndArr` |
| ExportWriter.EmitWrite | manager/api/export-import/src/main/java/io/apiman/manager/api/exportimport/json/JsonFileExportWriter.java:250-254 | a membership, contract or audit write always emits exactly one anonymous item holding the encoded bean; a policy write emits one item holding the stubbed policy, and fails with the null-pointer failure exactly when the definition is missing |
| ExportWriter.Emit | manager/api/export-import/src/main/java/io/apiman/manager/api/exportimport/json/JsonFileExportWriter.java:245-665 | a nested call fails exactly for a policy without a definition; otherwise it emits one opener for a start, one closer for an end, and neither for a write |
| ExportWriter.ApplyNested | manager/api/export-import/src/main/java/io/apiman/manager/api/exportimport/json/JsonFileExportWriter.java:245-260 | a nested call consults no guard: it succeeds in any writer state unless it is a policy without a definition; it leaves the guards' state untouched, only appends, and moves the depth by +1, -1 or 0 |
| ExportWriter.EmitPolicy | manager/api/export-import/src/main/java/io/apiman/manager/api/exportimport/json/JsonFileExportWriter.java:331-337 | `writePolicy` emits the stubbed policy as one anonymous item, or fails before emitting anything when the definition is missing |
| ExportWriter.EmittedEntityOmitsOrganization | manager/api/export-import/src/main/java/io/apiman/manager/api/exportimport/json/JsonFileExportWriter.java:397-406 | a plan, service or application start emits `StartObj` and one field named after the bean class; the encoded bean has no `organization` key and embeds no object |
| ExportWriter.EmittedVersionOmitsParent | manager/api/export-import/src/main/java/io/apiman/manager/api/exportimport/json/JsonFileExportWriter.java:531-540 | a version start emits `StartObj` and one field; the encoded version has no `plan` / `service` / `application` key and embeds no object |
| ExportWriter.EmittedPolicyCarriesOnlyDefinitionId | manager/api/export-import/src/main/java/io/apiman/manager/api/exportimport/json/JsonFileExportWriter.java:322-337 | a policy write emits one item whose `definition` is `{"id": …}`, or `{}` when the original definition had no id |
| ExportWriter.CallerArgumentAfter | manager/api/export-import/src/main/java/io/apiman/manager/api/exportimport/json/JsonFileExportWriter.java:275-284 | after a start, the caller's plan, service or application holds no organization, and its version holds no parent; after a policy write, the caller's policy holds the id-only stub; the call kind and every other field (id, name, description; id, version, status; id, name, configuration) are kept; other calls leave the argument as it was |
| ExportWriter.CallerHoldsWhatWasWritten | manager/api/export-import/src/main/java/io/apiman/manager/api/exportimport/json/JsonFileExportWriter.java:298-308 | the bean the caller is left holding re-encodes to exactly the tokens that were written |
| Projection.DetachEntity | manager/api/export-import/src/main/java/io/apiman/manager/api/exportimport/json/JsonFileExportWriter.java:278 | `setOrganization(null)`: the organization is cleared and id, name and description are kept |
| Projection.DetachVersion | manager/api/export-import/src/main/java/io/apiman/manager/api/exportimport/json/JsonFileExportWriter.java:302 | `setPlan(null)` / `setService(null)` / `setApplication(null)`: the parent is cleared and id, version and status are kept |
| Projection.StubDefinition | manager/api/export-import/src/main/java/io/apiman/manager/api/exportimport/json/JsonFileExportWriter.java:332-333 | the fresh definition carries the original id and nothing else |
| Projection.StubPolicy | manager/api/export-import/src/main/java/io/apiman/manager/api/exportimport/json/JsonFileExportWriter.java:331-334 | the policy keeps id, name and configuration; a definition that is present becomes the stub |
| Projection.DetachedEntityOmitsOrganization | manager/api/export-import/src/main/java/io/apiman/manager/api/exportimport/json/JsonFileExportWriter.java:278-279 | the encoded entity lacks `organization`, keeps every other key it had, and embeds no object |
| Projection.DetachedVersionOmitsParent | manager/api/export-import/src/main/java/io/apiman/manager/api/exportimport/json/JsonFileExportWriter.java:302-303 | the encoded version lacks its parent key, keeps every other key it had, and embeds no object |
| Projection.DetachedVersionKeys | manager/api/export-import/src/main/java/io/apiman/manager/api/exportimport/json/JsonFileExportWriter.java:424-425 | detaching a version removes exactly the parent key from the encoded keys |
| Projection.StubDefinitionKeepsOnlyId | manager/api/export-import/src/main/java/io/apiman/manager/api/exportimport/json/JsonFileExportWriter.java:332-333 | the encoded stub has the key set `{"id"}`, or no keys when there is no id; its keys are a subset of the original's; it embeds nothing |
| Projection.StubPolicyKeepsKeys | manager/api/export-import/src/main/java/io/apiman/manager/api/exportimport/json/JsonFileExportWriter.java:334-335 | stubbing the definition does not change the policy's encoded key set |
| Projection.StubEncoding | manager/api/export-import/src/main/java/io/apiman/manager/api/exportimport/json/JsonFileExportWriter.java:332-333 | the stub encodes as `{"id": …}`, or as `{}` when there is no id |
| Projection.EncodedPolicyCarriesOnlyDefinitionId | manager/api/export-import/src/main/java/io/apiman/manager/api/exportimport/json/JsonFileExportWriter.java:331-336 | looking up `definition` in the encoded stubbed policy gives exactly the id-only object |
| Projection.PolicyDefinitionMember | manager/api/export-import/src/main/java/io/apiman/manager/api/exportimport/json/JsonFileExportWriter.java:335 | a policy with a definition carries it, encoded, under `definition` |
| Projection.DetachEntityIdempotent | manager/api/export-import/src/main/java/io/apiman/manager/api/exportimport/json/JsonFileExportWriter.java:510 | clearing the organization twice is clearing it once |
| Projection.DetachVersionIdempotent | manager/api/export-import/src/main/java/io/apiman/manager/api/exportimport/json/JsonFileExportWriter.java:534 | clearing the parent twice is clearing it once |
| Projection.StubPolicyIdempotent | manager/api/export-import/src/main/java/io/apiman/manager/api/exportimport/json/JsonFileExportWriter.java:332-334 | stubbing a stubbed policy changes nothing |
| Json.NonNull | manager/api/export-import/src/main/java/io/apiman/manager/api/exportimport/json/JsonFileExportWriter.java:77 | NON_NULL inclusion: the encoded members' keys are exactly the names of the properties that hold a value |
| Json.NonNullMembers | manager/api/export-import/src/main/java/io/apiman/manager/api/exportimport/json/JsonFileExportWriter.java:77 | every encoded member comes from a property holding that value, and every property holding a value is encoded |
| Json.Encode | manager/api/export-import/src/main/java/io/apiman/manager/api/exportimport/json/JsonFileExportWriter.java:77 | a bean encodes as an object whose keys are exactly its non-null property names |
| Json.GetEncode | manager/api/export-import/src/main/java/io/apiman/manager/api/exportimport/json/JsonFileExportWriter.java:77 | looking a property up by name in the encoded object gives back its value, and nothing for a null one |
| Json.PresentNamesAfterNulling | manager/api/export-import/src/main/java/io/apiman/manager/api/exportimport/json/JsonFileExportWriter.java:77 | nulling one uniquely named property removes exactly that name from the encoded keys |
| ExportWriter.Close | manager/api/export-import/src/main/java/io/apiman/manager/api/exportimport/json/JsonFileExportWriter.java:676-683 | appends exactly one `EndObj` and nothing else; under the invariant, the document is balanced exactly when no global element is still locked |
| ExportWriter.CloseWithOpenSectionIsMalformed | manager/api/export-import/src/main/java/io/apiman/manager/api/exportimport/json/JsonFileExportWriter.java:676-683 | under the depth invariant, closing with a global element still open gives a document that is not well-formed (without the invariant this fails: see `Scenarios.NestedEndClosesGlobalArray`) |
| Protocol.StepExtends | manager/api/export-import/src/main/java/io/apiman/manager/api/exportimport/json/JsonFileExportWriter.java:95-683 | no call takes back tokens already written: a successful call only appends |
| Protocol.ExecExtends | manager/api/export-import/src/main/java/io/apiman/manager/api/exportimport/json/JsonFileExportWriter.java:95-683 | a successful run's output begins with the output it started from |
| Protocol.NoNullDefinitionMeansNone | manager/api/export-import/src/main/java/io/apiman/manager/api/exportimport/json/JsonFileExportWriter.java:333 | the recursive "no policy without a definition" check agrees with its pointwise statement, in both directions |
| Protocol.RunNestedOutcome | manager/api/export-import/src/main/java/io/apiman/manager/api/exportimport/json/JsonFileExportWriter.java:245-665 | a run of nested calls succeeds exactly when no policy in it lacks a definition, and fails with the null-pointer failure otherwise; on success its net depth is starts minus ends |
| Protocol.ExecNested | manager/api/export-import/src/main/java/io/apiman/manager/api/exportimport/json/JsonFileExportWriter.java:233-665 | from any writer state, nested calls succeed or fail exactly as their tokens do; on success they append those tokens and leave the guards untouched |
| Protocol.NestedRunKeepsDepth | manager/api/export-import/src/main/java/io/apiman/manager/api/exportimport/json/JsonFileExportWriter.java:245-665 | a successful nested run that starts as often as it ends leaves the depth, and so the invariant, as it found them |
| Document.VersionShape | manager/api/export-import/src/main/java/io/apiman/manager/api/exportimport/json/JsonFileExportWriter.java:531-602 | a version block (start, policies, contracts for applications, end) succeeds exactly when each of its policies has a definition, and then emits a well-nested object for an array |
| Document.EntityShape | manager/api/export-import/src/main/java/io/apiman/manager/api/exportimport/json/JsonFileExportWriter.java:507-620 | the same for a plan, service or application with its versions array |
| Document.EntitiesShape | manager/api/export-import/src/main/java/io/apiman/manager/api/exportimport/json/JsonFileExportWriter.java:498-629 | the same for a plans, services or applications array, as a well-nested named array inside the organization object |
| Document.MembershipsShape | manager/api/export-import/src/main/java/io/apiman/manager/api/exportimport/json/JsonFileExportWriter.java:245-260 | the memberships triad always succeeds and emits a well-nested named array |
| Document.AuditsShape | manager/api/export-import/src/main/java/io/apiman/manager/api/exportimport/json/JsonFileExportWriter.java:635-656 | the audits triad always succeeds and emits a well-nested named array |
| Document.OrgContentsShape | manager/api/export-import/src/main/java/io/apiman/manager/api/exportimport/json/JsonFileExportWriter.java:245-656 | an organization's contents succeed exactly when every policy under it has a definition, and then form a well-nested run inside its object |
| Document.OrgShape | manager/api/export-import/src/main/java/io/apiman/manager/api/exportimport/json/JsonFileExportWriter.java:233-665 | `startOrg` … `endOrg` succeeds exactly when every policy under the organization has a definition, and then emits a well-nested object for the orgs array |
| Document.OrgsShape | manager/api/export-import/src/main/java/io/apiman/manager/api/exportimport/json/JsonFileExportWriter.java:233-665 | the same for any sequence of organizations |
| Export.StageNew | manager/api/export-import/src/main/java/io/apiman/manager/api/exportimport/json/JsonFileExportWriter.java:63-82 | a new writer is between elements, with nothing finished |
| Export.MetadataStage | manager/api/export-import/src/main/java/io/apiman/manager/api/exportimport/json/JsonFileExportWriter.java:95-99 | metadata written between elements succeeds and leaves the writer between elements, with the same elements finished |
| Export.SectionRun | manager/api/export-import/src/main/java/io/apiman/manager/api/exportimport/json/JsonFileExportWriter.java:102-122 | start, body and end of a fresh element, around a body that leaves the whole guard state (finished flags and lock set) unchanged and appends tokens `ts`, append the named array around `ts`; the element ends finished and unlocked |
| Export.ListStage | manager/api/export-import/src/main/java/io/apiman/manager/api/exportimport/json/JsonFileExportWriter.java:102-223 | a global list's triad, with any items of that list, succeeds from between elements and leaves a well-nested document with that list finished |
| Export.ListsStage | manager/api/export-import/src/main/java/io/apiman/manager/api/exportimport/json/JsonFileExportWriter.java:102-223 | distinct unfinished global lists written one after another all succeed and all end finished |
| Export.OrgsStage | manager/api/export-import/src/main/java/io/apiman/manager/api/exportimport/json/JsonFileExportWriter.java:225-673 | the orgs element succeeds exactly when every policy of every organization has a definition, fails with the null-pointer failure otherwise, and on success ends finished with the document well-nested |
| Export.ExportRun | manager/api/export-import/src/main/java/io/apiman/manager/api/exportimport/json/JsonFileExportWriter.java:63-683 | a whole export from a new writer succeeds exactly when no policy lacks a definition, and otherwise fails with the null-pointer failure; on success nothing is locked, every array element is finished, metadata is not, and `close` yields a well-formed document: the single root object opened at line 81 and closed at line 678, with everything else inside it |
| Export.ExportRunFrom | manager/api/export-import/src/main/java/io/apiman/manager/api/exportimport/json/JsonFileExportWriter.java:95-673 | the same, single root object included, for the global lists in any order that has each exactly once |
| Scenarios.OneGatewayDocument | manager/api/export-import/src/main/java/io/apiman/manager/api/exportimport/json/JsonFileExportWriter.java:81-122 | metadata and a one-gateway array close into exactly the document `{Metadata, Gateways:[g]}`, which is well-formed |
| Scenarios.BrokenPrefixIsFinal | manager/api/export-import/src/main/java/io/apiman/manager/api/exportimport/json/JsonFileExportWriter.java:676-683 | once the output holds an illegal token, no later successful calls can make `close` yield a well-formed document |
| Scenarios.InterleavedStartsNeverClose | manager/api/export-import/src/main/java/io/apiman/manager/api/exportimport/json/JsonFileExportWriter.java:102-130 | the per-element guards let `startPlugins` follow `startGateways` before `endGateways`; the result is a named array inside an array, and no continuation closes well-formed |
| Scenarios.OrgOutsideOrgsNeverCloses | manager/api/export-import/src/main/java/io/apiman/manager/api/exportimport/json/JsonFileExportWriter.java:233-242 | `startOrg` without `startOrgs` passes the writer's guards (it has none) and opens an object directly in the root; no continuation closes well-formed |
| Scenarios.StrayNestedEndNeverCloses | manager/api/export-import/src/main/java/io/apiman/manager/api/exportimport/json/JsonFileExportWriter.java:360-364 | a nested array end with nothing nested open passes the writer's guards (it has none); no continuation closes well-formed |
| Scenarios.EarlyRootCloseNeverCloses | manager/api/export-import/src/main/java/io/apiman/manager/api/exportimport/json/JsonFileExportWriter.java:662-666 | `endOrg` with no organization open passes the writer's guards (it has none) and closes the root object itself; whatever follows stands outside the one root, so no continuation closes well-formed |
| Scenarios.NestedEndClosesGlobalArray | manager/api/export-import/src/main/java/io/apiman/manager/api/exportimport/json/JsonFileExportWriter.java:257-260 | `endMemberships` right after `startGateways` passes the writer's guards (it has none) and closes the gateways array while the gateways stay locked; the document then closes well-formed although an element is still locked |
| Scenarios.MetadataTwice | manager/api/export-import/src/main/java/io/apiman/manager/api/exportimport/json/JsonFileExportWriter.java:95-99 | metadata is never marked finished, so a second `writeMetadata` is accepted and emits a second `Metadata` field; the document still closes well-formed |
| Scenarios.ReopenRefused | manager/api/export-import/src/main/java/io/apiman/manager/api/exportimport/json/JsonFileExportWriter.java:102-122 | starting the gateways again after ending them fails with the gateways' structural violation |

## Left out

- Jackson's output itself is not modelled: the JSON text, pretty-printing,
  UTF-8 encoding and `ObjectMapper` reflection. A bean's encoding is its
  explicit property list under NON_NULL inclusion.
- Jackson's own context checks are not modelled either. For example, Jackson
  raises an error when a field name is written inside an array. Such a
  misuse instead shows up as a token sequence that is not well-formed, as the
  `Scenarios` lemmas do.
- The `OutputStream` sink and `jg.close()` are left out. So is the wrapping of
  `IOException` and other exceptions into `RuntimeException`. The only
  failures modelled are the guards' structural violation and the null
  pointer from a policy without a definition.
- Null bean arguments are left out: every bean passed in is present.
- The logger is left out.
- The internals of `AbstractJsonWriter` are not part of this model. The
  guards and array names follow the assumptions stated above.
- `SSLSessionStrategy.java` is not part of this model. It holds two JSSE
  objects and has only getters.
- The exporter that chooses the visit order, and the import direction, are
  left out. `Export.ExportCalls` is one order that has each global list once.
  `Export.ExportRunFrom` covers every such order of the global lists.
- Exactly one `writeMetadata` comes first in every modelled export order.
- Contracts are written only inside application versions, because only the
  application protocol has `startApplicationContracts`.
