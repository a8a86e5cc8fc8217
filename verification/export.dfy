/** A whole export as the exporter drives the writer: metadata, the five
    global lists, then every organization, and what that run leaves behind. */
module Export {
  import opened Outcomes
  import opened Beans
  import opened Tokens
  import opened Sections
  import opened Guards
  import opened ExportWriter
  import opened Protocol
  import opened Document

  /** Everything one export writes. */
  datatype Export = Export(
    metadata: Pojo,
    gateways: seq<Pojo>,
    plugins: seq<Pojo>,
    policyDefinitions: seq<PolicyDefinition>,
    users: seq<Pojo>,
    roles: seq<Pojo>,
    orgs: seq<OrgBlock>)

  /** The arguments of the write calls of one global list. */
  function Items(e: Export, s: ItemSection): (items: seq<GlobalItem>)
    ensures forall i | 0 <= i < |items| :: SectionOf(items[i]) == s
  {
    match s
    case Gateways => seq(|e.gateways|, i requires 0 <= i < |e.gateways| => Gateway(e.gateways[i]))
    case Plugins => seq(|e.plugins|, i requires 0 <= i < |e.plugins| => Plugin(e.plugins[i]))
    case PolicyDefinitions =>
      seq(|e.policyDefinitions|, i requires 0 <= i < |e.policyDefinitions| => PolicyDef(e.policyDefinitions[i]))
    case Users => seq(|e.users|, i requires 0 <= i < |e.users| => User(e.users[i]))
    case Roles => seq(|e.roles|, i requires 0 <= i < |e.roles| => Role(e.roles[i]))
  }

  function ItemWrites(items: seq<GlobalItem>): (calls: seq<Call>)
    ensures |calls| == |items| && forall i | 0 <= i < |items| :: calls[i] == WriteCall(items[i])
  {
    seq(|items|, i requires 0 <= i < |items| => WriteCall(items[i]))
  }

  /** The tokens the writes of a global list emit: one item per element. */
  function ItemTokens(items: seq<GlobalItem>): (ts: seq<Token>)
    ensures |ts| == |items| && forall i | 0 <= i < |items| :: ts[i] == Item(EncodeItem(items[i]))
  {
    seq(|items|, i requires 0 <= i < |items| => Item(EncodeItem(items[i])))
  }

  /** start, the body, end of one global element. */
  function SectionCalls(s: ArraySection, body: seq<Call>): (r: seq<Call>)
  {
    [StartCall(s)] + body + [EndCall(s)]
  }

  function ListCalls(e: Export, s: ItemSection): (r: seq<Call>)
  {
    SectionCalls(s, ItemWrites(Items(e, s)))
  }

  function OrgsCalls(obs: seq<OrgBlock>): (r: seq<Call>)
  {
    SectionCalls(Orgs, Lift(OrgsBody(obs)))
  }

  /** The global lists in the order the document lists them. */
  const GlobalLists: seq<ItemSection> := [Gateways, Plugins, PolicyDefinitions, Users, Roles]

  /** Every global list: the array elements other than the orgs. */
  const ListsDone: set<Global> := {Gateways, Plugins, PolicyDefinitions, Users, Roles}

  /** The given global lists, one after another. */
  function ListsCalls(e: Export, secs: seq<ItemSection>): (r: seq<Call>)
    decreases |secs|
  {
    if secs == [] then [] else ListCalls(e, secs[0]) + ListsCalls(e, secs[1..])
  }

  /** The elements a run of global lists covers. */
  function Listed(secs: seq<ItemSection>): (r: set<Global>)
    ensures forall i | 0 <= i < |secs| :: secs[i] in r
    decreases |secs|
  {
    if secs == [] then {} else var g: Global := secs[0]; {g} + Listed(secs[1..])
  }

  /** The whole run: metadata, the global lists, the organizations. */
  function ExportCalls(e: Export): (r: seq<Call>)
  {
    ExportCallsIn(e, GlobalLists)
  }

  /** The whole run with the global lists in the given order. */
  function ExportCallsIn(e: Export, secs: seq<ItemSection>): (r: seq<Call>)
  {
    [WriteMetadataCall(e.metadata)] + ListsCalls(e, secs) + OrgsCalls(e.orgs)
  }

  /** Every global list, each once. */
  predicate AllListsOnce(secs: seq<ItemSection>)
  {
    && Listed(secs) == ListsDone
    && forall i, j | 0 <= i < j < |secs| :: secs[i] != secs[j]
  }

  /** Between global elements: nothing locked, and exactly `ss` finished. */
  predicate Done(t: Tracker, ss: set<Global>)
  {
    TrackerOk(t) && t.locked == {} && forall g: Global :: IsFinished(t, g) <==> g in ss
  }

  /** The root object is open, and what follows its opener is a well-nested
      run of its members. */
  predicate Rooted(out: seq<Token>)
  {
    out != [] && out[0] == StartObj && Fragment(Obj, out[1..])
  }

  predicate Stage(w: Writer, ss: set<Global>)
  {
    Done(w.tracker, ss) && Rooted(w.out)
  }

  lemma RootedAppend(out: seq<Token>, ts: seq<Token>)
    requires Rooted(out) && Fragment(Obj, ts)
    ensures Rooted(out + ts)
  {
    assert (out + ts)[1..] == out[1..] + ts;
    FragmentConcat(Obj, out[1..], ts);
  }

  lemma StageNew()
    ensures Stage(New(), {})
  {
    assert New().out[1..] == [];
    assert Scan([Obj], []) == Some([Obj]);
  }

  /** A global element run from start to end moves it from unfinished to
      finished and leaves nothing locked. */
  lemma DoneStep(t: Tracker, ss: set<Global>, s: ArraySection)
    requires Done(t, ss) && s !in ss
    ensures CanStart(t, s)
    ensures CanEnd(Lock(t, s), s)
    ensures Done(Finish(Lock(t, s), s), ss + {s})
  {
  }

  lemma StartSectionOpens(w: Writer, s: ArraySection)
    requires CanStart(w.tracker, s)
    ensures StartSection(w, s) == Ok(Writer(Lock(w.tracker, s), w.out + [StartArr(GlobalKey(s))]))
  {
  }

  lemma EndSectionCloses(w: Writer, s: ArraySection)
    requires CanEnd(w.tracker, s)
    ensures EndSection(w, s) == Ok(Writer(Finish(w.tracker, s), w.out + [EndArr]))
  {
  }

  /** A global element's start, body and end, when the body appends a fragment
      of an array and leaves the guards as they were. */
  lemma SectionRun(w: Writer, s: ArraySection, body: seq<Call>, ts: seq<Token>)
    requires TrackerOk(w.tracker) && CanStart(w.tracker, s) && CanEnd(Lock(w.tracker, s), s)
    requires Exec(Writer(Lock(w.tracker, s), w.out + [StartArr(GlobalKey(s))]), body)
             == Ok(Writer(Lock(w.tracker, s), w.out + [StartArr(GlobalKey(s))] + ts))
    ensures Exec(w, SectionCalls(s, body))
            == Ok(Writer(Finish(Lock(w.tracker, s), s), w.out + ([StartArr(GlobalKey(s))] + ts + [EndArr])))
  {
    var t1, open := Lock(w.tracker, s), [StartArr(GlobalKey(s))];
    var w1 := Writer(t1, w.out + open);
    var w2 := Writer(t1, w.out + open + ts);
    SectionOpenRun(w, s);
    SectionCloseRun(w2, s);
    AppendAssoc(w.out, open, ts, [EndArr]);
    ThreePartRun(w, StartCall(s), body, EndCall(s), w1, w2, Writer(Finish(t1, s), w.out + (open + ts + [EndArr])));
  }

  lemma AppendAssoc<T>(a: seq<T>, b: seq<T>, c: seq<T>, d: seq<T>)
    ensures a + b + c + d == a + (b + c + d)
  {
  }

  /** A call, a run of calls and a closing call, each succeeding from where
      the one before left the writer. */
  lemma ThreePartRun(w: Writer, a: Call, body: seq<Call>, c: Call, w1: Writer, w2: Writer, w3: Writer)
    requires Exec(w, [a]) == Ok(w1) && Exec(w1, body) == Ok(w2) && Exec(w2, [c]) == Ok(w3)
    ensures Exec(w, [a] + body + [c]) == Ok(w3)
  {
    ExecConcat(w, [a], body);
    ExecConcat(w, [a] + body, [c]);
  }

  lemma SectionCloseRun(w: Writer, s: ArraySection)
    requires CanEnd(w.tracker, s)
    ensures Exec(w, [EndCall(s)]) == Ok(Writer(Finish(w.tracker, s), w.out + [EndArr]))
  {
    ExecSingle(w, EndCall(s));
    EndSectionCloses(w, s);
  }

  lemma SectionOpenRun(w: Writer, s: ArraySection)
    requires CanStart(w.tracker, s)
    ensures Exec(w, [StartCall(s)]) == Ok(Writer(Lock(w.tracker, s), w.out + [StartArr(GlobalKey(s))]))
  {
    ExecSingle(w, StartCall(s));
    StartSectionOpens(w, s);
  }

  /** The writes of a global list, with its element locked: one item each. */
  lemma ItemsRun(w: Writer, s: ItemSection, items: seq<GlobalItem>)
    requires s in w.tracker.locked
    requires forall i | 0 <= i < |items| :: SectionOf(items[i]) == s
    ensures Exec(w, ItemWrites(items)) == Ok(Writer(w.tracker, w.out + ItemTokens(items)))
  {
    var calls := ItemWrites(items);
    var ts := ItemTokens(items);
    forall v: Writer, i | 0 <= i < |calls| && v.tracker == w.tracker
      ensures Protocol.Step(v, calls[i]) == Ok(Writer(v.tracker, v.out + [ts[i]]))
    {
      assert WriteItem(v, items[i]).Ok?;
    }
    RunAppending(Protocol.Step, w, calls, ts);
  }

  lemma ItemTokensFragment(items: seq<GlobalItem>)
    ensures Fragment(Arr, ItemTokens(items))
  {
    ItemsFragment(ItemTokens(items));
  }

  /** One global list, run on a writer between elements. */
  lemma ListStage(w: Writer, ss: set<Global>, e: Export, s: ItemSection)
    requires Stage(w, ss) && s !in ss
    ensures Exec(w, ListCalls(e, s)).Ok?
    ensures Stage(Exec(w, ListCalls(e, s)).value, ss + {s})
  {
    var items := Items(e, s);
    DoneStep(w.tracker, ss, s);
    var w1 := Writer(Lock(w.tracker, s), w.out + [StartArr(GlobalKey(s))]);
    ItemsRun(w1, s, items);
    SectionRun(w, s, ItemWrites(items), ItemTokens(items));
    ItemTokensFragment(items);
    WrapArray(GlobalKey(s), ItemTokens(items));
    RootedAppend(w.out, [StartArr(GlobalKey(s))] + ItemTokens(items) + [EndArr]);
  }

  /** The orgs element: it fails, with the null-pointer failure, exactly when
      some policy under some organization has no definition. */
  lemma OrgsStage(w: Writer, ss: set<Global>, obs: seq<OrgBlock>)
    requires Stage(w, ss) && Orgs !in ss
    ensures Exec(w, OrgsCalls(obs)).Ok? <==> OrgsDefined(obs)
    ensures Exec(w, OrgsCalls(obs)).Err? ==> Exec(w, OrgsCalls(obs)).error == NullPointer
    ensures Exec(w, OrgsCalls(obs)).Ok? ==> Stage(Exec(w, OrgsCalls(obs)).value, ss + {Orgs})
  {
    if OrgsDefined(obs) {
      OrgsStageDefined(w, ss, obs);
    } else {
      OrgsStageUndefined(w, ss, obs);
    }
  }

  lemma OrgsStageDefined(w: Writer, ss: set<Global>, obs: seq<OrgBlock>)
    requires Stage(w, ss) && Orgs !in ss && OrgsDefined(obs)
    ensures Exec(w, OrgsCalls(obs)).Ok? && Stage(Exec(w, OrgsCalls(obs)).value, ss + {Orgs})
  {
    DoneStep(w.tracker, ss, Orgs);
    var w1 := Writer(Lock(w.tracker, Orgs), w.out + [StartArr(GlobalKey(Orgs))]);
    OrgsShape(obs);
    ExecNested(w1, OrgsBody(obs));
    var ts := RunNested(OrgsBody(obs)).value;
    SectionRun(w, Orgs, Lift(OrgsBody(obs)), ts);
    WrapArray(GlobalKey(Orgs), ts);
    RootedAppend(w.out, [StartArr(GlobalKey(Orgs))] + ts + [EndArr]);
  }

  lemma OrgsStageUndefined(w: Writer, ss: set<Global>, obs: seq<OrgBlock>)
    requires Stage(w, ss) && Orgs !in ss && !OrgsDefined(obs)
    ensures Exec(w, OrgsCalls(obs)) == Err(NullPointer)
  {
    var body := Lift(OrgsBody(obs));
    var w1 := Writer(Lock(w.tracker, Orgs), w.out + [StartArr(GlobalKey(Orgs))]);
    OrgsShape(obs);
    ExecNested(w1, OrgsBody(obs));
    ExecSingle(w, StartCall(Orgs));
    assert StartSection(w, Orgs) == Ok(w1);
    ExecConcat(w, [StartCall(Orgs)], body);
    ExecConcat(w, [StartCall(Orgs)] + body, [EndCall(Orgs)]);
  }

  lemma MetadataStage(w: Writer, ss: set<Global>, m: Pojo)
    requires Stage(w, ss) && Metadata !in ss
    ensures Exec(w, [WriteMetadataCall(m)]).Ok?
    ensures Stage(Exec(w, [WriteMetadataCall(m)]).value, ss)
  {
    ExecSingle(w, WriteMetadataCall(m));
    FieldFragment(GlobalKey(Metadata), EncodePojo(m));
    RootedAppend(w.out, [Field(GlobalKey(Metadata), EncodePojo(m))]);
  }

  /** A stretch of calls that ends between elements, run after one that
      succeeded. */
  lemma StageChain(w: Writer, a: seq<Call>, b: seq<Call>, ss: set<Global>)
    requires Exec(w, a).Ok?
    requires Exec(Exec(w, a).value, b).Ok? && Stage(Exec(Exec(w, a).value, b).value, ss)
    ensures Exec(w, a + b).Ok? && Stage(Exec(w, a + b).value, ss)
  {
    ExecConcat(w, a, b);
  }

  /** Distinct lists none of which is finished: so are the later ones, once
      the first has finished. */
  lemma FreshTail(ss: set<Global>, secs: seq<ItemSection>)
    requires secs != []
    requires forall i | 0 <= i < |secs| :: secs[i] !in ss
    requires forall i, j | 0 <= i < j < |secs| :: secs[i] != secs[j]
    ensures forall i | 0 <= i < |secs[1..]| :: secs[1..][i] !in ss + {secs[0]}
    ensures forall i, j | 0 <= i < j < |secs[1..]| :: secs[1..][i] != secs[1..][j]
    ensures (ss + {secs[0]}) + Listed(secs[1..]) == ss + Listed(secs)
  {
    assert forall i | 0 <= i < |secs[1..]| :: secs[1..][i] == secs[i + 1];
  }

  /** Global lists not yet finished, run one after another from a writer
      between elements: each ends finished. */
  lemma {:induction false} ListsStage(w: Writer, ss: set<Global>, e: Export, secs: seq<ItemSection>)
    requires Stage(w, ss)
    requires forall i | 0 <= i < |secs| :: secs[i] !in ss
    requires forall i, j | 0 <= i < j < |secs| :: secs[i] != secs[j]
    ensures Exec(w, ListsCalls(e, secs)).Ok?
    ensures Stage(Exec(w, ListsCalls(e, secs)).value, ss + Listed(secs))
    decreases |secs|
  {
    if secs == [] {
      assert ss + Listed(secs) == ss;
    } else {
      var s := secs[0];
      FreshTail(ss, secs);
      ListStage(w, ss, e, s);
      var w1 := Exec(w, ListCalls(e, s)).value;
      ListsStage(w1, ss + {s}, e, secs[1..]);
      StageChain(w, ListCalls(e, s), ListsCalls(e, secs[1..]), ss + Listed(secs));
    }
  }

  /** Metadata then the global lists, from a writer with nothing finished. */
  lemma BeforeOrgs(w0: Writer, e: Export, secs: seq<ItemSection>)
    requires Stage(w0, {}) && AllListsOnce(secs)
    ensures Exec(w0, [WriteMetadataCall(e.metadata)] + ListsCalls(e, secs)).Ok?
    ensures Stage(Exec(w0, [WriteMetadataCall(e.metadata)] + ListsCalls(e, secs)).value, ListsDone)
  {
    MetadataStage(w0, {}, e.metadata);
    var w1 := Exec(w0, [WriteMetadataCall(e.metadata)]).value;
    ListsStage(w1, {}, e, secs);
    assert {} + Listed(secs) == Listed(secs);
    StageChain(w0, [WriteMetadataCall(e.metadata)], ListsCalls(e, secs), ListsDone);
  }

  /** The orgs element closes the run: afterwards every array element is
      finished, nothing is locked and the document closes well-formed. */
  lemma OrgsLast(w: Writer, obs: seq<OrgBlock>)
    requires Stage(w, ListsDone)
    ensures Exec(w, OrgsCalls(obs)).Ok? <==> OrgsDefined(obs)
    ensures Exec(w, OrgsCalls(obs)).Err? ==> Exec(w, OrgsCalls(obs)).error == NullPointer
    ensures Exec(w, OrgsCalls(obs)).Ok? ==> Final(Exec(w, OrgsCalls(obs)).value)
  {
    OrgsStage(w, ListsDone, obs);
    if OrgsDefined(obs) {
      Finished(Exec(w, OrgsCalls(obs)).value);
    }
  }

  /** What a complete export leaves: nothing locked, every array element
      finished and metadata not, only the root open, and, once closed, a
      well-formed document: the one root object opened at construction and
      everything written inside it. */
  predicate Final(w: Writer)
  {
    && w.tracker.locked == {}
    && (forall g: Global :: IsFinished(w.tracker, g) <==> g != Metadata)
    && Inv(w)
    && WellFormed(Close(w))
  }

  lemma GlobalListsOnce()
    ensures AllListsOnce(GlobalLists)
  {
    assert GlobalLists[1..] == [Plugins, PolicyDefinitions, Users, Roles];
    assert GlobalLists[1..][1..] == [PolicyDefinitions, Users, Roles];
    assert GlobalLists[1..][1..][1..] == [Users, Roles];
    assert GlobalLists[1..][1..][1..][1..] == [Roles];
    assert GlobalLists[1..][1..][1..][1..][1..] == [];
  }

  /** A writer with every array element finished and only the root open. */
  lemma Finished(w: Writer)
    requires Stage(w, ListsDone + {Orgs})
    ensures w.tracker.locked == {}
    ensures forall g: Global :: IsFinished(w.tracker, g) <==> g != Metadata
    ensures Inv(w)
    ensures WellFormed(Close(w))
  {
    CloseRooted(w);
    StageInv(w, ListsDone + {Orgs});
  }

  /** A writer whose root object holds a well-nested run closes into a
      well-formed document. */
  lemma CloseRooted(w: Writer)
    requires Rooted(w.out)
    ensures WellFormed(Close(w))
  {
    var body := w.out[1..];
    assert Close(w) == [StartObj] + body + [EndObj];
    WrapRoot(body);
  }

  /** The whole export. It fails only when some policy under some
      organization has no definition, and then with the null-pointer failure;
      otherwise every global list and the orgs element are finished, nothing
      is locked, metadata can still be written again, and `close` yields a
      well-formed document. */
  lemma ExportRun(e: Export)
    ensures Exec(New(), ExportCalls(e)).Ok? <==> OrgsDefined(e.orgs)
    ensures Exec(New(), ExportCalls(e)).Err? ==> Exec(New(), ExportCalls(e)).error == NullPointer
    ensures Exec(New(), ExportCalls(e)).Ok? ==> Final(Exec(New(), ExportCalls(e)).value)
  {
    GlobalListsOnce();
    StageNew();
    ExportRunFrom(New(), e, GlobalLists);
  }

  /** The same from any writer with nothing finished, for the global lists in
      any order that has each once. */
  lemma ExportRunFrom(w0: Writer, e: Export, secs: seq<ItemSection>)
    requires Stage(w0, {}) && AllListsOnce(secs)
    ensures Exec(w0, ExportCallsIn(e, secs)).Ok? <==> OrgsDefined(e.orgs)
    ensures Exec(w0, ExportCallsIn(e, secs)).Err? ==> Exec(w0, ExportCallsIn(e, secs)).error == NullPointer
    ensures Exec(w0, ExportCallsIn(e, secs)).Ok? ==> Final(Exec(w0, ExportCallsIn(e, secs)).value)
  {
    var head := [WriteMetadataCall(e.metadata)] + ListsCalls(e, secs);
    BeforeOrgs(w0, e, secs);
    OrgsLast(Exec(w0, head).value, e.orgs);
    ExecConcat(w0, head, OrgsCalls(e.orgs));
    assert ExportCallsIn(e, secs) == head + OrgsCalls(e.orgs);
  }

  /** Between elements the writer keeps its invariant: only the root is open. */
  lemma StageInv(w: Writer, ss: set<Global>)
    requires Stage(w, ss)
    ensures Inv(w)
  {
    FragmentIsBalanced(Obj, w.out[1..]);
    assert w.out == [StartObj] + w.out[1..];
    CountsConcat([StartObj], w.out[1..]);
    assert [StartObj][1..] == [];
  }
}
