/** The writer driven by a sequence of calls, as the exporter drives it:
    global triads, metadata and nested calls interleaved in any order. */
module Protocol {
  import opened Outcomes
  import opened Beans
  import opened Tokens
  import opened Sections
  import opened Guards
  import opened ExportWriter

  /** One call of the writer's interface. */
  datatype Call =
    | WriteMetadataCall(metadata: Pojo)
    | StartCall(section: ArraySection)
    | WriteCall(item: GlobalItem)
    | EndCall(section: ArraySection)
    | Nested(call: NestedCall)

  function Step(w: Writer, call: Call): (r: Result<Writer, ExportError>)
  {
    match call
    case WriteMetadataCall(m) => WriteMetadata(w, m)
    case StartCall(s) => StartSection(w, s)
    case WriteCall(item) => WriteItem(w, item)
    case EndCall(s) => EndSection(w, s)
    case Nested(c) => ApplyNested(w, c)
  }

  /** The calls in order through any step function, stopping at the first
      that fails. Kept apart from Step so that facts about runs do not depend
      on what each kind of call does. */
  function Run(step: (Writer, Call) -> Result<Writer, ExportError>, w: Writer, calls: seq<Call>): (r: Result<Writer, ExportError>)
    decreases |calls|
  {
    if calls == [] then Ok(w)
    else
      match step(w, calls[0])
      case Err(e) => Err(e)
      case Ok(w1) => Run(step, w1, calls[1..])
  }

  /** The calls in order against the writer, stopping at the first that fails. */
  function Exec(w: Writer, calls: seq<Call>): (r: Result<Writer, ExportError>)
  {
    Run(Step, w, calls)
  }

  lemma {:induction false} RunConcat(step: (Writer, Call) -> Result<Writer, ExportError>, w: Writer, a: seq<Call>, b: seq<Call>)
    ensures Run(step, w, a + b) == if Run(step, w, a).Err? then Run(step, w, a) else Run(step, Run(step, w, a).value, b)
    decreases |a|
  {
    if a == [] {
      assert a + b == b;
    } else {
      assert (a + b)[0] == a[0] && (a + b)[1..] == a[1..] + b;
      if step(w, a[0]).Ok? {
        RunConcat(step, step(w, a[0]).value, a[1..], b);
      }
    }
  }

  /** Running two stretches of calls is running the first, then the second
      from where the first left the writer. */
  lemma ExecConcat(w: Writer, a: seq<Call>, b: seq<Call>)
    ensures Exec(w, a + b) == if Exec(w, a).Err? then Exec(w, a) else Exec(Exec(w, a).value, b)
  {
    RunConcat(Step, w, a, b);
  }

  lemma RunSingle(step: (Writer, Call) -> Result<Writer, ExportError>, w: Writer, c: Call)
    ensures Run(step, w, [c]) == step(w, c)
  {
    assert [c][0] == c && [c][1..] == [];
    if step(w, c).Ok? {
      assert Run(step, step(w, c).value, []) == Ok(step(w, c).value);
    }
  }

  lemma ExecSingle(w: Writer, c: Call)
    ensures Exec(w, [c]) == Step(w, c)
  {
    RunSingle(Step, w, c);
  }

  /** No call takes back what was written: a call that succeeds only appends. */
  lemma StepExtends(w: Writer, c: Call)
    ensures Step(w, c).Ok? ==> |w.out| <= |Step(w, c).value.out| && Step(w, c).value.out[..|w.out|] == w.out
  {
    match c
    case WriteMetadataCall(m) =>
    case StartCall(s) =>
    case WriteCall(item) =>
    case EndCall(s) =>
    case Nested(n) =>
  }

  /** The output of a run that succeeds begins with the output it started from. */
  lemma {:induction false} ExecExtends(w: Writer, calls: seq<Call>)
    ensures Exec(w, calls).Ok? ==> |w.out| <= |Exec(w, calls).value.out| && Exec(w, calls).value.out[..|w.out|] == w.out
    decreases |calls|
  {
    if calls != [] {
      StepExtends(w, calls[0]);
      if Step(w, calls[0]).Ok? {
        var w1 := Step(w, calls[0]).value;
        ExecExtends(w1, calls[1..]);
        assert Exec(w, calls) == Exec(w1, calls[1..]);
      }
    }
  }

  lemma AppendFirst(out: seq<Token>, ts: seq<Token>)
    requires ts != []
    ensures (out + [ts[0]]) + ts[1..] == out + ts
  {
    assert [ts[0]] + ts[1..] == ts;
  }

  /** Calls that each append one token and leave the guards alone, run in
      order, append those tokens in order. */
  lemma {:induction false} RunAppending(step: (Writer, Call) -> Result<Writer, ExportError>,
                                        w: Writer, calls: seq<Call>, ts: seq<Token>)
    requires |ts| == |calls|
    requires forall v: Writer, i | 0 <= i < |calls| && v.tracker == w.tracker ::
               step(v, calls[i]) == Ok(Writer(v.tracker, v.out + [ts[i]]))
    ensures Run(step, w, calls) == Ok(Writer(w.tracker, w.out + ts))
    decreases |calls|
  {
    if calls == [] {
      assert w.out + ts == w.out;
    } else {
      var w1 := Writer(w.tracker, w.out + [ts[0]]);
      assert step(w, calls[0]) == Ok(w1);
      assert Run(step, w, calls) == Run(step, w1, calls[1..]);
      forall v: Writer, i | 0 <= i < |calls[1..]| && v.tracker == w1.tracker
        ensures step(v, calls[1..][i]) == Ok(Writer(v.tracker, v.out + [ts[1..][i]]))
      {
        assert calls[1..][i] == calls[i + 1] && ts[1..][i] == ts[i + 1];
      }
      RunAppending(step, w1, calls[1..], ts[1..]);
      AppendFirst(w.out, ts);
    }
  }

  /** Every top-level call keeps the writer's invariant: the open containers
      are the root object and one array per locked global element. */
  lemma TopLevelCallKeepsInv(w: Writer, call: Call)
    requires Inv(w) && !call.Nested? && Step(w, call).Ok?
    ensures Inv(Step(w, call).value)
  {
  }

  /** Every call that succeeds keeps the guards' bookkeeping consistent, nested
      calls included: they leave it alone. */
  lemma StepKeepsTrackerOk(w: Writer, call: Call)
    requires TrackerOk(w.tracker) && Step(w, call).Ok?
    ensures TrackerOk(Step(w, call).value.tracker)
  {
  }

  lemma {:induction false} ExecKeepsTrackerOk(w: Writer, calls: seq<Call>)
    requires TrackerOk(w.tracker) && Exec(w, calls).Ok?
    ensures TrackerOk(Exec(w, calls).value.tracker)
    decreases |calls|
  {
    if calls != [] {
      var w1 := Step(w, calls[0]).value;
      assert Exec(w, calls) == Exec(w1, calls[1..]);
      StepKeepsTrackerOk(w, calls[0]);
      ExecKeepsTrackerOk(w1, calls[1..]);
    }
  }

  /** Whatever calls, in whatever order, a run from the constructor makes,
      the writer it reaches has consistent bookkeeping: every element has a
      flag and nothing locked is finished. */
  lemma ReachableTrackerOk(calls: seq<Call>)
    requires Exec(New(), calls).Ok?
    ensures TrackerOk(Exec(New(), calls).value.tracker)
  {
    ExecKeepsTrackerOk(New(), calls);
  }

  /** Starts minus ends: how many containers a run of nested calls leaves open. */
  function Balance(cs: seq<NestedCall>): (b: int)
  {
    if cs == [] then 0
    else (if IsStart(cs[0]) then 1 else if IsEnd(cs[0]) then -1 else 0) + Balance(cs[1..])
  }

  /** A policy handed to writePolicy without its definition: the one nested
      call the writer cannot serialise. */
  predicate NullDefinition(c: NestedCall)
  {
    c.WritePolicy? && c.policy.definition.None?
  }

  /** No call of the run is a NullDefinition one. */
  predicate NoNullDefinition(cs: seq<NestedCall>)
    decreases |cs|
  {
    cs == [] || (!NullDefinition(cs[0]) && NoNullDefinition(cs[1..]))
  }

  lemma {:induction false} NoNullDefinitionMeansNone(cs: seq<NestedCall>)
    ensures NoNullDefinition(cs) <==> forall i | 0 <= i < |cs| :: !NullDefinition(cs[i])
    decreases |cs|
  {
    if cs != [] {
      NoNullDefinitionMeansNone(cs[1..]);
      assert forall i | 1 <= i < |cs| :: cs[i] == cs[1..][i - 1];
    }
  }

  /** What a run of calls emits through any per-call emission, joined in
      order, or the first error. */
  function Join(emit: NestedCall -> Result<seq<Token>, ExportError>, cs: seq<NestedCall>): (r: Result<seq<Token>, ExportError>)
    decreases |cs|
  {
    if cs == [] then Ok([])
    else
      match emit(cs[0])
      case Err(e) => Err(e)
      case Ok(ts) =>
        match Join(emit, cs[1..])
        case Err(e) => Err(e)
        case Ok(rest) => Ok(ts + rest)
  }

  lemma {:induction false} JoinConcat(emit: NestedCall -> Result<seq<Token>, ExportError>, a: seq<NestedCall>, b: seq<NestedCall>)
    ensures Join(emit, a + b).Ok? <==> Join(emit, a).Ok? && Join(emit, b).Ok?
    ensures Join(emit, a + b).Ok? ==> Join(emit, a + b).value == Join(emit, a).value + Join(emit, b).value
    decreases |a|
  {
    if a == [] {
      assert a + b == b;
    } else {
      assert (a + b)[0] == a[0] && (a + b)[1..] == a[1..] + b;
      JoinConcat(emit, a[1..], b);
      if Join(emit, a + b).Ok? {
        assert Join(emit, a + b).value == emit(a[0]).value + Join(emit, a[1..] + b).value;
      }
    }
  }

  /** The tokens a run of nested calls emits, or the first error. */
  function RunNested(cs: seq<NestedCall>): (r: Result<seq<Token>, ExportError>)
  {
    Join(Emit, cs)
  }

  /** A run of nested calls fails exactly when one of them is a policy without
      its definition, and then with the null-pointer failure; otherwise each
      call's opener or closer moves the depth exactly as the call's kind says. */
  lemma {:induction false} RunNestedOutcome(cs: seq<NestedCall>)
    ensures RunNested(cs).Ok? <==> NoNullDefinition(cs)
    ensures RunNested(cs).Err? ==> RunNested(cs).error == NullPointer
    ensures RunNested(cs).Ok? ==> Depth(RunNested(cs).value) == Balance(cs)
    decreases |cs|
  {
    if cs != [] {
      RunNestedOutcome(cs[1..]);
      var e := Emit(cs[0]);
      if e.Ok? && RunNested(cs[1..]).Ok? {
        CountsConcat(e.value, RunNested(cs[1..]).value);
      }
    }
  }

  lemma RunNestedConcat(a: seq<NestedCall>, b: seq<NestedCall>)
    ensures RunNested(a + b).Ok? <==> RunNested(a).Ok? && RunNested(b).Ok?
    ensures RunNested(a + b).Ok? ==> RunNested(a + b).value == RunNested(a).value + RunNested(b).value
  {
    JoinConcat(Emit, a, b);
  }

  function Lift(cs: seq<NestedCall>): (calls: seq<Call>)
    ensures |calls| == |cs|
    ensures forall i | 0 <= i < |cs| :: calls[i] == Nested(cs[i])
  {
    seq(|cs|, i requires 0 <= i < |cs| => Nested(cs[i]))
  }

  /** A nested call as a step: its tokens are appended, the guards left alone. */
  lemma StepNested(w: Writer, c: NestedCall)
    ensures Step(w, Nested(c)) == if Emit(c).Err? then Err(Emit(c).error)
                                   else Ok(Writer(w.tracker, w.out + Emit(c).value))
  {
  }

  lemma RunLiftedHead(step: (Writer, Call) -> Result<Writer, ExportError>, w: Writer, cs: seq<NestedCall>)
    requires cs != []
    ensures Run(step, w, Lift(cs)) ==
              match step(w, Nested(cs[0]))
              case Err(e) => Err(e)
              case Ok(w1) => Run(step, w1, Lift(cs[1..]))
  {
    var calls := Lift(cs);
    assert calls[0] == Nested(cs[0]) && calls[1..] == Lift(cs[1..]);
  }

  /** Running lifted calls through a step that treats each as an append of
      what it emits is appending what the run emits. */
  lemma {:induction false} RunLifted(step: (Writer, Call) -> Result<Writer, ExportError>,
                                     emit: NestedCall -> Result<seq<Token>, ExportError>,
                                     w: Writer, cs: seq<NestedCall>)
    requires forall v: Writer, c: NestedCall :: step(v, Nested(c)) ==
               if emit(c).Err? then Err(emit(c).error) else Ok(Writer(v.tracker, v.out + emit(c).value))
    ensures Run(step, w, Lift(cs)) ==
              if Join(emit, cs).Err? then Err(Join(emit, cs).error)
              else Ok(Writer(w.tracker, w.out + Join(emit, cs).value))
    decreases |cs|
  {
    if cs == [] {
      assert w.out + [] == w.out;
    } else {
      var e := emit(cs[0]);
      RunLiftedHead(step, w, cs);
      assert step(w, Nested(cs[0])) == if e.Err? then Err(e.error) else Ok(Writer(w.tracker, w.out + e.value));
      if e.Ok? {
        var w1 := Writer(w.tracker, w.out + e.value);
        RunLifted(step, emit, w1, cs[1..]);
        if Join(emit, cs[1..]).Ok? {
          assert Join(emit, cs).value == e.value + Join(emit, cs[1..]).value;
          assert w1.out + Join(emit, cs[1..]).value == w.out + Join(emit, cs).value;
        }
      }
    }
  }

  /** Driving the writer with nested calls is appending what they emit: the
      guards are never consulted and their state never changes. */
  lemma ExecNested(w: Writer, cs: seq<NestedCall>)
    ensures Exec(w, Lift(cs)).Ok? <==> RunNested(cs).Ok?
    ensures RunNested(cs).Ok? ==> Exec(w, Lift(cs)) == Ok(Writer(w.tracker, w.out + RunNested(cs).value))
    ensures RunNested(cs).Err? ==> Exec(w, Lift(cs)) == Err(NullPointer)
  {
    var step: (Writer, Call) -> Result<Writer, ExportError> := Step;
    var emit: NestedCall -> Result<seq<Token>, ExportError> := Emit;
    forall v: Writer, c: NestedCall
      ensures step(v, Nested(c)) == if emit(c).Err? then Err(emit(c).error) else Ok(Writer(v.tracker, v.out + emit(c).value))
    {
      StepNested(v, c);
      assert step(v, Nested(c)) == Step(v, Nested(c));
      assert emit(c) == Emit(c);
    }
    RunLifted(step, emit, w, cs);
    RunNestedOutcome(cs);
  }

  /** A well-nested run of nested calls, one that ends everything it starts,
      leaves the writer's nesting depth, and so its invariant, as it found it. */
  lemma NestedRunKeepsDepth(w: Writer, cs: seq<NestedCall>)
    requires Balance(cs) == 0 && RunNested(cs).Ok?
    ensures Exec(w, Lift(cs)).Ok?
    ensures Depth(Exec(w, Lift(cs)).value.out) == Depth(w.out)
    ensures Inv(w) ==> Inv(Exec(w, Lift(cs)).value)
  {
    ExecNested(w, cs);
    RunNestedOutcome(cs);
    CountsConcat(w.out, RunNested(cs).value);
  }
}
