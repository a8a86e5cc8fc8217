/** The encoded form of a bean, and the NON_NULL inclusion rule the writer's
    object mapper is configured with: a property whose value is null is not
    emitted at all. */
module Json {
  import opened Outcomes

  datatype Json =
    | JString(s: string)
    | JInt(i: int)
    | JBool(b: bool)
    | JObject(members: seq<Member>)

  /** One `"key": value` pair of an encoded object. */
  datatype Member = Member(key: string, value: Json)

  /** One bean property before encoding: its name and its (possibly null) value. */
  datatype Prop = Prop(name: string, value: Option<Json>)

  /** The keys present in an encoded object. */
  function Keys(members: seq<Member>): (ks: set<string>)
    ensures forall m | m in members :: m.key in ks
  {
    if members == [] then {} else {members[0].key} + Keys(members[1..])
  }

  /** The names of the properties that hold a value. */
  function PresentNames(props: seq<Prop>): (ns: set<string>)
    ensures forall p | p in props && p.value.Some? :: p.name in ns
  {
    if props == [] then {} else NameIfPresent(props[0]) + PresentNames(props[1..])
  }

  /** The name a single property contributes to the encoded keys. */
  function NameIfPresent(p: Prop): (names: set<string>)
  {
    if p.value.Some? then {p.name} else {}
  }

  /** The present names of a four-property bean, one property at a time. */
  lemma PresentNamesOfFour(a: Prop, b: Prop, c: Prop, d: Prop)
    ensures PresentNames([a, b, c, d])
         == NameIfPresent(a) + NameIfPresent(b) + NameIfPresent(c) + NameIfPresent(d)
  {
    assert [a, b, c, d][1..] == [b, c, d];
    assert [b, c, d][1..] == [c, d];
    assert [c, d][1..] == [d];
    assert [d][1..] == [];
    assert PresentNames([d]) == NameIfPresent(d);
    assert PresentNames([c, d]) == NameIfPresent(c) + NameIfPresent(d);
    assert PresentNames([b, c, d]) == NameIfPresent(b) + NameIfPresent(c) + NameIfPresent(d);
  }

  /** Nulling one property whose name no other property carries removes exactly
      that name from the present names. */
  lemma {:induction false} PresentNamesAfterNulling(ps: seq<Prop>, qs: seq<Prop>, j: nat)
    requires |ps| == |qs| && j < |qs|
    requires forall i | 0 <= i < |qs| && i != j :: ps[i] == qs[i] && qs[i].name != qs[j].name
    requires ps[j] == Prop(qs[j].name, None)
    ensures PresentNames(ps) == PresentNames(qs) - {qs[j].name}
  {
    if j == 0 {
      assert ps[1..] == qs[1..];
      AbsentName(qs[1..], qs[0].name);
    } else {
      PresentNamesAfterNulling(ps[1..], qs[1..], j - 1);
    }
  }

  /** NON_NULL inclusion: keep exactly the properties that hold a value, in order. */
  function NonNull(props: seq<Prop>): (ms: seq<Member>)
    ensures |ms| <= |props|
    ensures Keys(ms) == PresentNames(props)
  {
    if props == [] then []
    else if props[0].value.None? then NonNull(props[1..])
    else [Member(props[0].name, props[0].value.value)] + NonNull(props[1..])
  }

  /** Every emitted member comes from a present property, and every present
      property is emitted. */
  lemma {:induction false} NonNullMembers(props: seq<Prop>)
    ensures forall m | m in NonNull(props) :: Prop(m.key, Some(m.value)) in props
    ensures forall p | p in props && p.value.Some? :: Member(p.name, p.value.value) in NonNull(props)
  {
    if props != [] {
      NonNullMembers(props[1..]);
      assert forall p | p in props :: p == props[0] || p in props[1..];
    }
  }

  /** Encodes a bean given as its property list. */
  function Encode(props: seq<Prop>): (j: Json)
    ensures j.JObject?
    ensures Keys(j.members) == PresentNames(props)
  {
    JObject(NonNull(props))
  }

  /** The value stored under `key` in an encoded object (the first one, if repeated). */
  function Get(j: Json, key: string): (r: Option<Json>)
    requires j.JObject?
    ensures r.Some? <==> key in Keys(j.members)
    ensures r.Some? ==> Member(key, r.value) in j.members
    decreases |j.members|
  {
    if j.members == [] then None
    else if j.members[0].key == key then Some(j.members[0].value)
    else Get(JObject(j.members[1..]), key)
  }

  /** No two properties of a bean share a name. */
  predicate DistinctNames(props: seq<Prop>)
  {
    forall i, j | 0 <= i < j < |props| :: props[i].name != props[j].name
  }

  /** A name no property carries is not among the present names. */
  lemma {:induction false} AbsentName(props: seq<Prop>, n: string)
    requires forall q | q in props :: q.name != n
    ensures n !in PresentNames(props)
  {
    if props != [] {
      AbsentName(props[1..], n);
    }
  }

  /** NON_NULL encoding loses no value: looking a property up by name in the
      encoded object gives back exactly its value, and a null one is absent. */
  lemma {:induction false} GetEncode(props: seq<Prop>, p: Prop)
    requires DistinctNames(props)
    requires p in props
    ensures Get(Encode(props), p.name) == p.value
  {
    var rest := props[1..];
    assert DistinctNames(rest) by {
      forall i, j | 0 <= i < j < |rest| ensures rest[i].name != rest[j].name {
        assert rest[i] == props[i + 1] && rest[j] == props[j + 1];
      }
    }
    if p == props[0] {
      if p.value.None? {
        assert forall q | q in rest :: q.name != p.name by {
          forall q | q in rest ensures q.name != p.name {
            var j :| 0 <= j < |rest| && rest[j] == q;
            assert q == props[j + 1];
          }
        }
        AbsentName(rest, p.name);
      }
    } else {
      var j :| 0 < j < |props| && props[j] == p;
      assert p in rest by { assert rest[j - 1] == p; }
      GetEncode(rest, p);
    }
  }

  /** An encoded object none of whose values is itself an object: nothing is embedded. */
  predicate Flat(j: Json)
  {
    j.JObject? && forall m | m in j.members :: !m.value.JObject?
  }
}
