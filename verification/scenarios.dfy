/** Concrete call orders against a fresh writer: one the exporter issues, and
    several the guards let through although the document they leave can no
    longer be closed well-formed. */
module Scenarios {
  import opened Outcomes
  import opened Json
  import opened Beans
  import opened Tokens
  import opened Sections
  import opened Guards
  import opened ExportWriter
  import opened Protocol

  lemma ExecCons(w: Writer, c: Call, rest: seq<Call>)
    ensures Exec(w, [c] + rest) == if Protocol.Step(w, c).Err? then Protocol.Step(w, c) else Exec(Protocol.Step(w, c).value, rest)
  {
    ExecConcat(w, [c], rest);
    ExecSingle(w, c);
  }

  /** Once the output holds a token that is illegal where it stands, no later
      calls repair it: whatever succeeds afterwards still closes malformed. */
  lemma BrokenPrefixIsFinal(w: Writer, calls: seq<Call>)
    requires Scan([Top], w.out).None?
    requires Exec(w, calls).Ok?
    ensures !WellFormed(Close(Exec(w, calls).value))
  {
    var out := Exec(w, calls).value.out;
    ExecExtends(w, calls);
    var rest := out[|w.out|..] + [EndObj];
    assert Close(Exec(w, calls).value) == w.out + rest;
    ScanConcat([Top], w.out, rest);
    WellFormedScans(w.out + rest);
  }

  /** Metadata, then a gateways array holding one gateway: the document is the
      root object with the metadata field and the one-item array, and it is
      well-formed. */
  lemma OneGatewayDocument(m: Pojo, g: Pojo)
    ensures var r := Exec(New(), [WriteMetadataCall(m), StartCall(Gateways), WriteCall(Gateway(g)), EndCall(Gateways)]);
      && r.Ok?
      && Close(r.value) == [StartObj, Field("Metadata", EncodePojo(m)), StartArr("Gateways"), Item(EncodePojo(g)), EndArr, EndObj]
      && WellFormed(Close(r.value))
  {
    OneGatewayRun(m, g);
    OneGatewayTokens(m, g);
  }

  lemma OneGatewayRun(m: Pojo, g: Pojo)
    ensures var r := Exec(New(), [WriteMetadataCall(m), StartCall(Gateways), WriteCall(Gateway(g)), EndCall(Gateways)]);
      r.Ok? && r.value.out == [StartObj, Field("Metadata", EncodePojo(m)), StartArr("Gateways"), Item(EncodePojo(g)), EndArr]
  {
    var w0 := New();
    var w1 := Writer(w0.tracker, [StartObj, Field("Metadata", EncodePojo(m))]);
    MetadataFirst(m);
    assert CanStart(w0.tracker, Gateways);
    GatewayArrayRun(w1, g);
    ExecConcat(w0, [WriteMetadataCall(m)], [StartCall(Gateways), WriteCall(Gateway(g)), EndCall(Gateways)]);
    assert [WriteMetadataCall(m)] + [StartCall(Gateways), WriteCall(Gateway(g)), EndCall(Gateways)]
        == [WriteMetadataCall(m), StartCall(Gateways), WriteCall(Gateway(g)), EndCall(Gateways)];
  }

  /** Metadata can be the first call. */
  lemma MetadataFirst(m: Pojo)
    ensures Exec(New(), [WriteMetadataCall(m)]) == Ok(Writer(New().tracker, [StartObj, Field("Metadata", EncodePojo(m))]))
  {
    var w0 := New();
    assert CanStart(w0.tracker, Metadata);
    var r := WriteMetadata(w0, m);
    assert r.value.out == [StartObj] + [Field(GlobalKey(Metadata), EncodePojo(m))];
    assert r.value == Writer(w0.tracker, [StartObj, Field("Metadata", EncodePojo(m))]);
    ExecSingle(w0, WriteMetadataCall(m));
  }

  /** The gateways triad with one gateway, from a writer that has not started
      the gateways array. */
  lemma GatewayArrayRun(w: Writer, g: Pojo)
    requires !IsFinished(w.tracker, Gateways) && Gateways !in w.tracker.locked
    ensures var r := Exec(w, [StartCall(Gateways), WriteCall(Gateway(g)), EndCall(Gateways)]);
      r.Ok? && r.value.out == w.out + [StartArr("Gateways"), Item(EncodePojo(g)), EndArr]
  {
    var w2 := StartSection(w, Gateways).value;
    var w3 := WriteItem(w2, Gateway(g)).value;
    var w4 := EndSection(w3, Gateways).value;
    ExecSingle(w3, EndCall(Gateways));
    ExecCons(w2, WriteCall(Gateway(g)), [EndCall(Gateways)]);
    ExecCons(w, StartCall(Gateways), [WriteCall(Gateway(g)), EndCall(Gateways)]);
    assert [StartCall(Gateways)] + [WriteCall(Gateway(g)), EndCall(Gateways)] == [StartCall(Gateways), WriteCall(Gateway(g)), EndCall(Gateways)];
    assert [WriteCall(Gateway(g))] + [EndCall(Gateways)] == [WriteCall(Gateway(g)), EndCall(Gateways)];
  }

  lemma OneGatewayTokens(m: Pojo, g: Pojo)
    ensures WellFormed([StartObj, Field("Metadata", EncodePojo(m)), StartArr("Gateways"), Item(EncodePojo(g)), EndArr, EndObj])
  {
    var body := [Item(EncodePojo(g))];
    var field := [Field("Metadata", EncodePojo(m))];
    ItemsFragment(body);
    WrapArray("Gateways", body);
    FieldFragment("Metadata", EncodePojo(m));
    FragmentConcat(Obj, field, [StartArr("Gateways")] + body + [EndArr]);
    WrapRoot(field + ([StartArr("Gateways")] + body + [EndArr]));
    assert [StartObj] + (field + ([StartArr("Gateways")] + body + [EndArr])) + [EndObj]
        == [StartObj, Field("Metadata", EncodePojo(m)), StartArr("Gateways"), Item(EncodePojo(g)), EndArr, EndObj];
  }

  /** A run that has broken its output stays broken whatever follows it. */
  lemma NeverCloses(w: Writer, prefix: seq<Call>, rest: seq<Call>)
    requires Exec(w, prefix).Ok? && Scan([Top], Exec(w, prefix).value.out).None?
    ensures Exec(w, prefix + rest).Ok? ==> !WellFormed(Close(Exec(w, prefix + rest).value))
  {
    ExecConcat(w, prefix, rest);
    if Exec(Exec(w, prefix).value, rest).Ok? {
      BrokenPrefixIsFinal(Exec(w, prefix).value, rest);
    }
  }

  /** Starting a second global array while the first is still open passes both
      start checks, but opens a named array inside an array: nothing written
      afterwards closes into a well-formed document. */
  lemma InterleavedStartsNeverClose(rest: seq<Call>)
    ensures Exec(New(), [StartCall(Gateways), StartCall(Plugins)]).Ok?
    ensures Exec(New(), [StartCall(Gateways), StartCall(Plugins)] + rest).Ok? ==>
      !WellFormed(Close(Exec(New(), [StartCall(Gateways), StartCall(Plugins)] + rest).value))
  {
    InterleavedStartsRun();
    var out := [StartObj, StartArr("Gateways"), StartArr("Plugins")];
    ScanConcat([Top], out[..2], out[2..]);
    assert out[..2] + out[2..] == out;
    NeverCloses(New(), [StartCall(Gateways), StartCall(Plugins)], rest);
  }

  lemma InterleavedStartsRun()
    ensures var r := Exec(New(), [StartCall(Gateways), StartCall(Plugins)]);
      r.Ok? && r.value.out == [StartObj, StartArr("Gateways"), StartArr("Plugins")]
  {
    var w0 := New();
    var w1 := StartSection(w0, Gateways).value;
    ExecSingle(w1, StartCall(Plugins));
    ExecCons(w0, StartCall(Gateways), [StartCall(Plugins)]);
    assert [StartCall(Gateways)] + [StartCall(Plugins)] == [StartCall(Gateways), StartCall(Plugins)];
  }

  /** The nested calls carry no guard of their own: an organization started
      before the orgs array is accepted, and opens an object directly inside
      the root object, which no later call repairs. */
  lemma OrgOutsideOrgsNeverCloses(o: Organization, rest: seq<Call>)
    ensures Exec(New(), [Nested(StartOrg(o))]).Ok?
    ensures Exec(New(), [Nested(StartOrg(o))] + rest).Ok? ==>
      !WellFormed(Close(Exec(New(), [Nested(StartOrg(o))] + rest).value))
  {
    OrgOutsideOrgsRun(o);
    var out := [StartObj, StartObj, Field(OrganizationBeanName, EncodeOrganization(o))];
    ScanConcat([Top], out[..2], out[2..]);
    assert out[..2] + out[2..] == out;
    NeverCloses(New(), [Nested(StartOrg(o))], rest);
  }

  lemma OrgOutsideOrgsRun(o: Organization)
    ensures var r := Exec(New(), [Nested(StartOrg(o))]);
      r.Ok? && r.value.out == [StartObj, StartObj, Field(OrganizationBeanName, EncodeOrganization(o))]
  {
    var w0 := New();
    assert IsStart(StartOrg(o));
    assert Emit(StartOrg(o)) == Ok(OpenObject(OrganizationBeanName, EncodeOrganization(o)));
    ExecSingle(w0, Nested(StartOrg(o)));
  }

  /** An end of a nested array with nothing nested open is accepted too, and
      closes an array where the root object stands. */
  lemma StrayNestedEndNeverCloses(k: EntityKind, rest: seq<Call>)
    ensures Exec(New(), [Nested(EndVersions(k))]).Ok?
    ensures Exec(New(), [Nested(EndVersions(k))] + rest).Ok? ==>
      !WellFormed(Close(Exec(New(), [Nested(EndVersions(k))] + rest).value))
  {
    var w0 := New();
    ExecSingle(w0, Nested(EndVersions(k)));
    assert Exec(w0, [Nested(EndVersions(k))]).value.out == [StartObj, EndArr];
    NeverCloses(w0, [Nested(EndVersions(k))], rest);
  }

  /** endOrg with no organization open is accepted as well, and closes the
      root object itself: whatever follows, an organization object included,
      stands outside the one root, so the document never closes well-formed. */
  lemma EarlyRootCloseNeverCloses(rest: seq<Call>)
    ensures Exec(New(), [Nested(EndOrg)]).Ok?
    ensures Exec(New(), [Nested(EndOrg)] + rest).Ok? ==>
      !WellFormed(Close(Exec(New(), [Nested(EndOrg)] + rest).value))
  {
    var w0 := New();
    ExecSingle(w0, Nested(EndOrg));
    var w1 := Exec(w0, [Nested(EndOrg)]).value;
    assert w1.out == [StartObj, EndObj];
    ExecConcat(w0, [Nested(EndOrg)], rest);
    if Exec(w1, rest).Ok? {
      ExecExtends(w1, rest);
      var doc := Close(Exec(w1, rest).value);
      assert doc[..2] == [StartObj, EndObj];
      EarlyCloseIsNoFragment(doc[1..|doc| - 1]);
    }
  }

  /** The nested ends carry no guard either: ending the memberships array
      while only the gateways array is open closes the gateways array, yet
      leaves the gateways locked. The document then closes well-formed with
      an element still locked, which is why the malformed-close result asks
      for the writer invariant and not only for a lock to be held. */
  lemma NestedEndClosesGlobalArray()
    ensures var r := Exec(New(), [StartCall(Gateways), Nested(EndMemberships)]);
      && r.Ok?
      && Gateways in r.value.tracker.locked
      && Close(r.value) == [StartObj, StartArr("Gateways"), EndArr, EndObj]
      && WellFormed(Close(r.value))
  {
    var w0 := New();
    var w1 := StartSection(w0, Gateways).value;
    ExecSingle(w1, Nested(EndMemberships));
    assert Emit(EndMemberships) == Ok([EndArr]);
    ExecCons(w0, StartCall(Gateways), [Nested(EndMemberships)]);
    assert [StartCall(Gateways)] + [Nested(EndMemberships)] == [StartCall(Gateways), Nested(EndMemberships)];
    EmptyArrayWellFormed("Gateways");
  }

  lemma EmptyArrayWellFormed(name: string)
    ensures WellFormed([StartObj, StartArr(name), EndArr, EndObj])
  {
    ItemsFragment([]);
    WrapArray(name, []);
    WrapRoot([StartArr(name)] + [] + [EndArr]);
    assert [StartObj] + ([StartArr(name)] + [] + [EndArr]) + [EndObj] == [StartObj, StartArr(name), EndArr, EndObj];
  }

  /** Metadata is never marked finished, so it can be written twice: both
      fields go out under the same key, and the document still closes
      well-formed. */
  lemma MetadataTwice(m1: Pojo, m2: Pojo)
    ensures var r := Exec(New(), [WriteMetadataCall(m1), WriteMetadataCall(m2)]);
      && r.Ok?
      && r.value.out == [StartObj, Field("Metadata", EncodePojo(m1)), Field("Metadata", EncodePojo(m2))]
      && WellFormed(Close(r.value))
  {
    MetadataTwiceRun(m1, m2);
    var w2 := Exec(New(), [WriteMetadataCall(m1), WriteMetadataCall(m2)]).value;
    TwoFieldsWellFormed("Metadata", EncodePojo(m1), EncodePojo(m2));
    assert Close(w2) == [StartObj, Field("Metadata", EncodePojo(m1)), Field("Metadata", EncodePojo(m2)), EndObj];
  }

  lemma MetadataTwiceRun(m1: Pojo, m2: Pojo)
    ensures var r := Exec(New(), [WriteMetadataCall(m1), WriteMetadataCall(m2)]);
      r.Ok? && r.value.out == [StartObj, Field("Metadata", EncodePojo(m1)), Field("Metadata", EncodePojo(m2))]
  {
    var w0 := New();
    var w1 := WriteMetadata(w0, m1).value;
    var w2 := WriteMetadata(w1, m2).value;
    assert Protocol.Step(w0, WriteMetadataCall(m1)) == Ok(w1);
    assert Protocol.Step(w1, WriteMetadataCall(m2)) == Ok(w2);
    ExecSingle(w1, WriteMetadataCall(m2));
    ExecCons(w0, WriteMetadataCall(m1), [WriteMetadataCall(m2)]);
    assert [WriteMetadataCall(m1)] + [WriteMetadataCall(m2)] == [WriteMetadataCall(m1), WriteMetadataCall(m2)];
  }

  /** A root object of two fields is well-formed, whatever their names. */
  lemma TwoFieldsWellFormed(name: string, v1: Json, v2: Json)
    ensures WellFormed([StartObj, Field(name, v1), Field(name, v2), EndObj])
  {
    var body := [Field(name, v1), Field(name, v2)];
    FieldFragment(name, v1);
    FieldFragment(name, v2);
    FragmentConcat(Obj, [body[0]], [body[1]]);
    assert [body[0]] + [body[1]] == body;
    WrapRoot(body);
    assert [StartObj] + body + [EndObj] == [StartObj, Field(name, v1), Field(name, v2), EndObj];
  }

  /** A finished array cannot be reopened: the second start of the gateways
      array is refused with the gateways' structural violation. */
  lemma ReopenRefused()
    ensures Exec(New(), [StartCall(Gateways), EndCall(Gateways), StartCall(Gateways)])
         == Err(StructuralViolation(Gateways))
  {
    var w0 := New();
    var w1 := StartSection(w0, Gateways).value;
    var w2 := EndSection(w1, Gateways).value;
    assert Protocol.Step(w0, StartCall(Gateways)) == Ok(w1);
    assert Protocol.Step(w1, EndCall(Gateways)) == Ok(w2);
    assert Protocol.Step(w2, StartCall(Gateways)) == Err(StructuralViolation(Gateways));
    ExecSingle(w2, StartCall(Gateways));
    ExecCons(w1, EndCall(Gateways), [StartCall(Gateways)]);
    ExecCons(w0, StartCall(Gateways), [EndCall(Gateways), StartCall(Gateways)]);
    assert [EndCall(Gateways)] + [StartCall(Gateways)] == [EndCall(Gateways), StartCall(Gateways)];
    assert [StartCall(Gateways)] + [EndCall(Gateways), StartCall(Gateways)] == [StartCall(Gateways), EndCall(Gateways), StartCall(Gateways)];
  }
}
