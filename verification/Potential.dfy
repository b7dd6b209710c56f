// PotentialMap: the two JSON shapes PHP writes, brought to one map, and the one shape written back.
module Potential {
  import opened Rows
  import opened Decimals

  const U32 := 0x1_0000_0000

  /** A JSON value as encoding/json tokenises it; `Other` is anything a uint32 does not take. */
  datatype Json = Null | Num(n: int) | Arr(items: seq<Json>) | Obj(members: map<string, Json>) | Other

  /** Decoding into a uint32: null leaves zero. */
  function AsUint32(j: Json): Option<nat> {
    match j
    case Null => Some(0)
    case Num(n) => if 0 <= n < U32 then Some(n) else None
    case _ => None
  }

  type Potentials = map<nat, nat>

  predicate Valid(m: Potentials) {
    forall k :: k in m ==> k < 0x1_0000_0000 && m[k] < 0x1_0000_0000
  }

  /** MarshalJSON: always an object; a nil map is the empty one. */
  function Encode(m: Potentials): (j: Json)
    ensures j.Obj?
  {
    Obj(map s: string | s in (set k | k in m :: Print(k)) && ParseUint32(s).Some? && ParseUint32(s).value in m :: Num(m[ParseUint32(s).value]))
  }

  /** The members of the object parse as keys and as values. */
  predicate Members(o: map<string, Json>) {
    forall s :: s in o ==> ParseUint32(s).Some? && AsUint32(o[s]).Some?
  }

  /** What an object decodes to: each id gets the value of a key that stands for it. */
  ghost predicate Reads(o: map<string, Json>, m: Potentials) {
    && (forall s :: s in o ==> ParseUint32(s).Some? && ParseUint32(s).value in m)
    && (forall k :: k in m ==> exists s :: s in o && ParseUint32(s) == Some(k) && AsUint32(o[s]) == Some(m[k]))
  }

  /** The object case: the raw map is ranged over in any order, and the first bad key or value is an error. */
  method DecodeObject(o: map<string, Json>) returns (m: Option<Potentials>)
    ensures m.Some? <==> Members(o)
    ensures m.Some? ==> Reads(o, m.value)
  {
    var out: Potentials := map[];
    var left := o.Keys;
    while left != {}
      invariant left <= o.Keys
      invariant forall s :: s in o && s !in left ==> ParseUint32(s).Some? && AsUint32(o[s]).Some? && ParseUint32(s).value in out
      invariant forall k :: k in out ==> exists s :: s in o && ParseUint32(s) == Some(k) && AsUint32(o[s]) == Some(out[k])
      decreases |left|
    {
      var s: string :| s in left;
      left := left - {s};
      var id, v := ParseUint32(s), AsUint32(o[s]);
      if id.None? || v.None? { return None; }
      out := out[id.value := v.value];
    }
    m := Some(out);
  }

  predicate AllNumbers(items: seq<Json>) {
    forall i :: 0 <= i < |items| ==> AsUint32(items[i]).Some?
  }

  /** The map an array of numbers stands for: ids 0, 1, ..., counted in 32 bits, the later position winning. */
  function Numbered(items: seq<Json>): Potentials
    requires AllNumbers(items)
  {
    if items == [] then map[]
    else
      var n := |items| - 1;
      Numbered(items[..n])[n % U32 := AsUint32(items[n]).value]
  }

  /** The array case: positions are the ids. */
  method DecodeArray(items: seq<Json>) returns (m: Option<Potentials>)
    ensures m.Some? <==> AllNumbers(items)
    ensures m.Some? ==> m.value == Numbered(items)
  {
    var out: Potentials := map[];
    var i := 0;
    while i < |items|
      invariant 0 <= i <= |items| && AllNumbers(items[..i])
      invariant out == Numbered(items[..i])
    {
      var v := AsUint32(items[i]);
      if v.None? { return None; }
      assert items[..i + 1][..i] == items[..i];
      out := out[i % U32 := v.value];
      i := i + 1;
    }
    assert items[..i] == items;
    m := Some(out);
  }

  /** UnmarshalJSON: null is the empty map, and nothing but objects and arrays is taken besides. */
  method Decode(j: Json) returns (m: Option<Potentials>)
    ensures j.Null? ==> m == Some(map[])
    ensures j.Num? || j.Other? ==> m.None?
    ensures j.Obj? ==> (m.Some? <==> Members(j.members)) && (m.Some? ==> Reads(j.members, m.value))
    ensures j.Arr? ==> (m.Some? <==> AllNumbers(j.items)) && (m.Some? ==> m.value == Numbered(j.items))
  {
    hide Reads, Members, Numbered, AllNumbers;
    match j {
      case Null => m := Some(map[]);
      case Obj(o) => m := DecodeObject(o);
      case Arr(items) => m := DecodeArray(items);
      case Num(_) => m := None;
      case Other => m := None;
    }
  }

  lemma {:induction false} NumberedValid(items: seq<Json>)
    requires AllNumbers(items)
    ensures Valid(Numbered(items))
  {
    if items != [] { NumberedValid(items[..|items| - 1]); }
  }

  /** Up to 2^32 elements the ids are the positions. */
  lemma {:induction false} NumberedAt(items: seq<Json>)
    requires AllNumbers(items) && |items| <= 0x1_0000_0000
    ensures forall k: nat :: k in Numbered(items) <==> k < |items|
    ensures forall k :: 0 <= k < |items| ==> Some(Numbered(items)[k]) == AsUint32(items[k])
  {
    if items != [] {
      var front := items[..|items| - 1];
      NumberedAt(front);
      assert forall k :: 0 <= k < |front| ==> front[k] == items[k];
    }
  }

  lemma EncodedAt(m: Potentials, s: string)
    requires Valid(m)
    ensures s in Encode(m).members <==> ParseUint32(s).Some? && ParseUint32(s).value in m && s == Print(ParseUint32(s).value)
    ensures s in Encode(m).members ==> Encode(m).members[s] == Num(m[ParseUint32(s).value])
  {
    forall k | k in m
      ensures ParseUint32(Print(k)) == Some(k)
    {
      ParsePrint(k);
    }
    if s in Encode(m).members {
      var k :| k in m && s == Print(k);
    }
  }

  /** Keys of the object that stand for one id carry one value. */
  predicate KeysAgree(o: map<string, Json>) {
    forall s, t :: s in o && t in o && ParseUint32(s) == ParseUint32(t) ==> AsUint32(o[s]) == AsUint32(o[t])
  }

  /** Every decoding of the object gives the same map. */
  ghost predicate Determined(o: map<string, Json>) {
    forall m, m' :: Reads(o, m) && Reads(o, m') ==> m == m'
  }

  lemma AgreeingAt(o: map<string, Json>, m: Potentials, m': Potentials, k: nat)
    requires Reads(o, m) && Reads(o, m') && KeysAgree(o) && k in m
    ensures k in m' && m'[k] == m[k]
  {
    var s :| s in o && ParseUint32(s) == Some(k) && AsUint32(o[s]) == Some(m[k]);
    var t :| t in o && ParseUint32(t) == Some(k) && AsUint32(o[t]) == Some(m'[k]);
  }

  lemma AgreeingReadOnce(o: map<string, Json>, m: Potentials, m': Potentials)
    requires Reads(o, m) && Reads(o, m') && KeysAgree(o)
    ensures m == m'
  {
    hide Reads, KeysAgree;
    forall k: nat
      ensures k in m ==> k in m' && m'[k] == m[k]
      ensures k in m' ==> k in m
    {
      if k in m { AgreeingAt(o, m, m', k); }
      if k in m' { AgreeingAt(o, m', m, k); }
    }
  }

  /** A decoding that takes an id's value from the key s. */
  lemma ReadsWith(o: map<string, Json>, m: Potentials, s: string)
    requires Members(o) && Reads(o, m) && s in o
    ensures Reads(o, m[ParseUint32(s).value := AsUint32(o[s]).value])
  {
    var m' := m[ParseUint32(s).value := AsUint32(o[s]).value];
    forall k | k in m'
      ensures exists t :: t in o && ParseUint32(t) == Some(k) && AsUint32(o[t]) == Some(m'[k])
    {
      if k == ParseUint32(s).value {
        assert AsUint32(o[s]) == Some(m'[k]);
      } else {
        assert k in m;
        var t :| t in o && ParseUint32(t) == Some(k) && AsUint32(o[t]) == Some(m[k]);
      }
    }
  }

  /** A decodable object has a decoding. */
  lemma {:induction false} ReadsSome(o: map<string, Json>) returns (m: Potentials)
    requires Members(o)
    ensures Reads(o, m)
    decreases |o|
  {
    if o == map[] {
      m := map[];
    } else {
      var s :| s in o;
      var rest := o - {s};
      assert |rest| < |o| by { assert rest.Keys == o.Keys - {s}; }
      var m' := ReadsSome(rest);
      m := m'[ParseUint32(s).value := AsUint32(o[s]).value];
      forall k | k in m
        ensures exists t :: t in o && ParseUint32(t) == Some(k) && AsUint32(o[t]) == Some(m[k])
      {
        if k == ParseUint32(s).value {
          assert AsUint32(o[s]) == Some(m[k]);
        } else {
          assert k in m';
          var t :| t in rest && ParseUint32(t) == Some(k) && AsUint32(rest[t]) == Some(m'[k]);
          assert t in o && o[t] == rest[t];
        }
      }
      forall t | t in o
        ensures ParseUint32(t).Some? && ParseUint32(t).value in m
      {
        assert t == s || t in rest;
      }
    }
  }

  /** A decodable object decodes in exactly one way if and only if keys that stand for one id carry one value. */
  lemma DeterminedIff(o: map<string, Json>)
    requires Members(o)
    ensures Determined(o) <==> KeysAgree(o)
    ensures exists m :: Reads(o, m)
  {
    hide Reads;
    var m := ReadsSome(o);
    if KeysAgree(o) {
      forall m1, m2 | Reads(o, m1) && Reads(o, m2)
        ensures m1 == m2
      {
        AgreeingReadOnce(o, m1, m2);
      }
    }
    if Determined(o) {
      forall s, t | s in o && t in o && ParseUint32(s) == ParseUint32(t)
        ensures AsUint32(o[s]) == AsUint32(o[t])
      {
        ReadsWith(o, m, s);
        ReadsWith(o, m, t);
        var k := ParseUint32(s).value;
        assert m[k := AsUint32(o[s]).value][k] == m[k := AsUint32(o[t]).value][k];
      }
    }
  }

  /** Whatever Decode makes of an encoded map is that map. */
  lemma RoundTrip(m: Potentials, m': Potentials)
    requires Valid(m)
    ensures Members(Encode(m).members)
    ensures Reads(Encode(m).members, m') <==> m' == m
  {
    var o := Encode(m).members;
    forall s: string {
      EncodedAt(m, s);
    }
    forall k | k in m
      ensures Print(k) in o && ParseUint32(Print(k)) == Some(k) && AsUint32(o[Print(k)]) == Some(m[k])
    {
      ParsePrint(k);
    }
    assert Reads(o, m);
    assert KeysAgree(o);
    hide Reads, KeysAgree, Encode, ParseUint32;
    DeterminedIff(o);
    if Reads(o, m') { assert Determined(o); }
  }

  /** An array of numbers is written back as an object that decodes to the same map ... */
  lemma {:induction false} ArrayRoundTrip(items: seq<Json>, m': Potentials)
    requires AllNumbers(items)
    ensures Valid(Numbered(items))
    ensures Reads(Encode(Numbered(items)).members, m') <==> m' == Numbered(items)
  {
    hide Reads, Encode, Numbered;
    NumberedValid(items);
    RoundTrip(Numbered(items), m');
  }

  /** ... and, up to 2^32 elements, has exactly the keys 0 to n - 1, each with the element at that place. */
  lemma {:induction false} ArrayKeys(items: seq<Json>, s: string)
    requires AllNumbers(items) && |items| <= 0x1_0000_0000
    ensures s in Encode(Numbered(items)).members <==> exists i: nat :: i < |items| && s == Print(i)
    ensures forall i: nat :: i < |items| && s == Print(i) && s in Encode(Numbered(items)).members ==>
      Encode(Numbered(items)).members[s] == Num(AsUint32(items[i]).value)
  {
    NumberedValid(items);
    NumberedAt(items);
    var m := Numbered(items);
    EncodedAt(m, s);
    hide Encode, Numbered, Value;
    forall i: nat | i < |items| && s == Print(i)
      ensures s in Encode(m).members && ParseUint32(s) == Some(i)
    {
      ParsePrint(i);
    }
    if s in Encode(m).members { assert s == Print(ParseUint32(s).value) && ParseUint32(s).value < |items|; }
  }

  /** Keys with leading zeros may stand for one id; then the order of the map range decides. */
  lemma AmbiguousKeys()
    ensures var o := map["1" := Num(5), "01" := Num(6)];
      Members(o) && !KeysAgree(o) && Reads(o, map[1 := 5]) && Reads(o, map[1 := 6])
  {
    var o := map["1" := Num(5), "01" := Num(6)];
    assert "1"[..0] == "" && "01"[..1] == "0" && "0"[..0] == "";
    assert Value("1") == 1 && Value("0") == 0 && Value("01") == 1;
    assert ParseUint32("1") == Some(1) && ParseUint32("01") == Some(1);
    assert "1" in o && AsUint32(o["1"]) == Some(5) && "01" in o && AsUint32(o["01"]) == Some(6);
  }
}
