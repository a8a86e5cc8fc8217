/** The stream of structural tokens the writer hands to its JSON generator, and
    what it means for such a stream to be a well-formed document: every
    container closed by a closer of its own kind, fields and named arrays only
    inside objects, items and anonymous objects only inside arrays. */
module Tokens {
  import opened Outcomes
  import opened Json

  datatype Token =
    | StartObj                        // writeStartObject
    | EndObj                          // writeEndObject
    | StartArr(name: string)          // a field name followed by writeStartArray
    | EndArr                          // writeEndArray
    | Field(name: string, value: Json) // writeObjectField: a named value inside an object
    | Item(value: Json)               // writeObject: an anonymous value inside an array

  /** The open containers of a partly written document, outermost first. `Top`
      is the document level itself; that only one root object stands there is
      stated by WellFormed, not by the scan. */
  datatype Container = Top | Obj | Arr

  predicate IsOpener(t: Token)
  {
    t.StartObj? || t.StartArr?
  }

  predicate IsCloser(t: Token)
  {
    t.EndObj? || t.EndArr?
  }

  /** The change in nesting depth one token makes. */
  function Delta(t: Token): (r: int)
  {
    if IsOpener(t) then 1 else if IsCloser(t) then -1 else 0
  }

  function Opens(ts: seq<Token>): (r: nat)
  {
    if ts == [] then 0 else (if IsOpener(ts[0]) then 1 else 0) + Opens(ts[1..])
  }

  function Closes(ts: seq<Token>): (r: nat)
  {
    if ts == [] then 0 else (if IsCloser(ts[0]) then 1 else 0) + Closes(ts[1..])
  }

  /** How many more containers the tokens open than they close. */
  function Depth(ts: seq<Token>): (r: int)
  {
    Opens(ts) - Closes(ts)
  }

  lemma {:induction false} CountsConcat(a: seq<Token>, b: seq<Token>)
    ensures Opens(a + b) == Opens(a) + Opens(b)
    ensures Closes(a + b) == Closes(a) + Closes(b)
    ensures Depth(a + b) == Depth(a) + Depth(b)
  {
    if a == [] {
      assert a + b == b;
    } else {
      assert (a + b)[1..] == a[1..] + b;
      CountsConcat(a[1..], b);
    }
  }

  /** The token runs single writer calls emit, with their counts. */
  function OpenObject(name: string, v: Json): (ts: seq<Token>)
    ensures |ts| == 2 && Opens(ts) == 1 && Closes(ts) == 0
  {
    var ts := [StartObj, Field(name, v)];
    assert ts[1..] == [Field(name, v)] && ts[1..][1..] == [];
    assert Opens(ts[1..]) == 0 && Closes(ts[1..]) == 0;
    ts
  }

  function OpenArray(name: string): (ts: seq<Token>)
    ensures |ts| == 1 && Opens(ts) == 1 && Closes(ts) == 0
  {
    var ts := [StartArr(name)];
    assert ts[1..] == [];
    ts
  }

  function CloseObject(): (ts: seq<Token>)
    ensures |ts| == 1 && Opens(ts) == 0 && Closes(ts) == 1
  {
    var ts := [EndObj];
    assert ts[1..] == [];
    ts
  }

  function CloseArray(): (ts: seq<Token>)
    ensures |ts| == 1 && Opens(ts) == 0 && Closes(ts) == 1
  {
    var ts := [EndArr];
    assert ts[1..] == [];
    ts
  }

  function Value(name: Option<string>, v: Json): (ts: seq<Token>)
    ensures |ts| == 1 && Opens(ts) == 0 && Closes(ts) == 0
  {
    var ts := [if name.Some? then Field(name.value, v) else Item(v)];
    assert ts[1..] == [];
    ts
  }

  /** One token against the stack of open containers: the stack after it, or
      None when the token is not legal where it stands. */
  function Step(st: seq<Container>, t: Token): (r: Option<seq<Container>>)
    ensures r.Some? ==> st != [] && |r.value| == |st| + Delta(t) && r.value[..|st| - 1] == st[..|st| - 1]
    ensures r.Some? && IsOpener(t) ==> r.value[..|st|] == st
    ensures r.Some? && st[0] == Top ==> r.value != [] && r.value[0] == Top
  {
    if st == [] then None
    else
      var top := st[|st| - 1];
      match t
      case StartObj => if top != Obj then Some(st + [Obj]) else None
      case StartArr(_) => if top == Obj then Some(st + [Arr]) else None
      case Field(_, _) => if top == Obj then Some(st) else None
      case Item(_) => if top == Arr then Some(st) else None
      case EndObj => if top == Obj then Some(st[..|st| - 1]) else None
      case EndArr => if top == Arr then Some(st[..|st| - 1]) else None
  }

  /** The tokens, in order, against the stack: the final stack, or None at the
      first illegal token. */
  function Scan(st: seq<Container>, ts: seq<Token>): (r: Option<seq<Container>>)
    ensures r.Some? ==> |r.value| == |st| + Depth(ts)
    decreases |ts|
  {
    if ts == [] then Some(st)
    else
      match Step(st, ts[0])
      case None => None
      case Some(s1) => Scan(s1, ts[1..])
  }

  /** A complete document: exactly one root object, opened by the first token
      and closed by the last, around an object fragment that never closes it
      early. */
  predicate WellFormed(doc: seq<Token>)
  {
    && |doc| >= 2
    && doc[0] == StartObj
    && doc[|doc| - 1] == EndObj
    && Fragment(Obj, doc[1..|doc| - 1])
  }

  /** A fragment that, written inside a container of kind `ctx`, closes
      everything it opens and uses only tokens legal where they stand. */
  predicate Fragment(ctx: Container, ts: seq<Token>)
  {
    Scan([ctx], ts) == Some([ctx])
  }

  lemma {:induction false} ScanConcat(st: seq<Container>, a: seq<Token>, b: seq<Token>)
    ensures Scan(st, a + b) == if Scan(st, a).None? then None else Scan(Scan(st, a).value, b)
    decreases |a|
  {
    if a == [] {
      assert a + b == b;
    } else {
      assert (a + b)[0] == a[0] && (a + b)[1..] == a[1..] + b;
      if Step(st, a[0]).Some? {
        ScanConcat(Step(st, a[0]).value, a[1..], b);
      }
    }
  }

  /** What lies below the stack is never inspected: a legal scan stays legal,
      with the same effect, under any enclosing containers. */
  lemma {:induction false} ScanFrame(p: seq<Container>, st: seq<Container>, ts: seq<Token>)
    requires Scan(st, ts).Some?
    ensures Scan(p + st, ts) == Some(p + Scan(st, ts).value)
    decreases |ts|
  {
    if ts != [] {
      var s1 := Step(st, ts[0]).value;
      assert Step(p + st, ts[0]) == Some(p + s1) by {
        var top := st[|st| - 1];
        assert (p + st)[|p + st| - 1] == top;
        assert (p + st)[..|p + st| - 1] == p + st[..|st| - 1];
        assert (p + st) + [Obj] == p + (st + [Obj]);
        assert (p + st) + [Arr] == p + (st + [Arr]);
      }
      ScanFrame(p, s1, ts[1..]);
    }
  }

  /** A well-formed document is legal token by token from the document level
      and ends there again. */
  lemma WellFormedScans(doc: seq<Token>)
    ensures WellFormed(doc) ==> Scan([Top], doc) == Some([Top])
  {
    if WellFormed(doc) {
      var body := doc[1..|doc| - 1];
      assert doc == [StartObj] + body + [EndObj];
      WrapRootScans(body);
    }
  }

  lemma WrapRootScans(body: seq<Token>)
    requires Fragment(Obj, body)
    ensures Scan([Top], [StartObj] + body + [EndObj]) == Some([Top])
  {
    ScanConcat([Top], [StartObj], body);
    ScanFrame([Top], [Obj], body);
    ScanConcat([Top], [StartObj] + body, [EndObj]);
  }

  /** A well-formed document closes everything it opens. */
  lemma WellFormedIsBalanced(doc: seq<Token>)
    requires WellFormed(doc)
    ensures Depth(doc) == 0
  {
    WellFormedScans(doc);
  }

  /** A document that leaves a container open is not well-formed. */
  lemma UnbalancedIsMalformed(doc: seq<Token>)
    requires Depth(doc) != 0
    ensures !WellFormed(doc)
  {
    if WellFormed(doc) {
      WellFormedIsBalanced(doc);
    }
  }

  /** A body that begins by closing the root object is no fragment of it:
      nothing, not even a second root, may follow the root's closer. */
  lemma EarlyCloseIsNoFragment(ts: seq<Token>)
    requires ts != [] && ts[0] == EndObj
    ensures !Fragment(Obj, ts)
  {
    assert Step([Obj], EndObj) == Some([]);
    assert Scan([Obj], ts) == Scan([], ts[1..]);
    if ts[1..] != [] {
      assert Step([], ts[1..][0]) == None;
      assert Scan([], ts[1..]) == None;
    } else {
      assert Scan([], ts[1..]) == Some([]);
    }
  }

  /** A fragment closes everything it opens. */
  lemma FragmentIsBalanced(ctx: Container, ts: seq<Token>)
    requires Fragment(ctx, ts)
    ensures Depth(ts) == 0
  {
  }

  lemma FragmentConcat(ctx: Container, a: seq<Token>, b: seq<Token>)
    requires Fragment(ctx, a) && Fragment(ctx, b)
    ensures Fragment(ctx, a + b)
  {
    ScanConcat([ctx], a, b);
  }

  /** A named value alone is a fragment of an object. */
  lemma FieldFragment(name: string, v: Json)
    ensures Fragment(Obj, [Field(name, v)])
  {
    assert [Field(name, v)][1..] == [];
    assert Step([Obj], Field(name, v)) == Some([Obj]);
  }

  /** Items alone are a fragment of an array. */
  lemma {:induction false} ItemsFragment(ts: seq<Token>)
    requires forall t | t in ts :: t.Item?
    ensures Fragment(Arr, ts)
    decreases |ts|
  {
    if ts != [] {
      assert [ts[0]] + ts[1..] == ts;
      assert [ts[0]][1..] == [];
      assert ts[0].Item?;
      assert Step([Arr], ts[0]) == Some([Arr]);
      assert Scan([Arr], [ts[0]]) == Scan([Arr], []);
      ItemsFragment(ts[1..]);
      FragmentConcat(Arr, [ts[0]], ts[1..]);
    }
  }

  /** A named array around an array fragment is a fragment of an object. */
  lemma WrapArray(name: string, body: seq<Token>)
    requires Fragment(Arr, body)
    ensures Fragment(Obj, [StartArr(name)] + body + [EndArr])
  {
    ScanConcat([Obj], [StartArr(name)], body);
    ScanFrame([Obj], [Arr], body);
    ScanConcat([Obj], [StartArr(name)] + body, [EndArr]);
  }

  /** An anonymous object, opened with one named field, around an object
      fragment is a fragment of an array. */
  lemma WrapObject(name: string, v: Json, body: seq<Token>)
    requires Fragment(Obj, body)
    ensures Fragment(Arr, [StartObj, Field(name, v)] + body + [EndObj])
  {
    ScanConcat([Arr], [StartObj, Field(name, v)], body);
    ScanFrame([Arr], [Obj], body);
    ScanConcat([Arr], [StartObj, Field(name, v)] + body, [EndObj]);
  }

  /** The root object around an object fragment is a whole document. */
  lemma WrapRoot(body: seq<Token>)
    requires Fragment(Obj, body)
    ensures WellFormed([StartObj] + body + [EndObj])
  {
    var doc := [StartObj] + body + [EndObj];
    assert doc[1..|doc| - 1] == body;
  }
}
