/**
 * Encoding followed by decoding gives back what was encoded, for containers of
 * elements whose fields are plain values (the shape the serialiser's own self-test
 * round-trips): every element comes back with its ref taken from its token.
 */
module SlzRoundTrip {
  import opened Base
  import opened Text
  import opened Assoc
  import opened JsonData
  import opened SlzJson

  predicate Scalar(v: Value)
  {
    v.VNull? || v.VBool? || v.VInt? || v.VStr?
  }

  /**
   * A field the hook leaves alone: its name is none of the keys the hook interprets and
   * does not parse as a token, and its value encodes to a JSON scalar.
   */
  predicate PlainField(f: (string, Value))
  {
    f.0 != "isa" && f.0 != "type" && f.0 != "ref" && f.0 != "type_" && f.0 != "self" && f.0 != "cls" && FromStr(f.0).Err? && Scalar(f.1)
  }

  predicate PlainData(d: seq<(string, Value)>)
  {
    DistinctKeys(d) && forall i :: 0 <= i < |d| ==> PlainField(d[i])
  }

  predicate PlainElement(e: Element)
  {
    e.SlzObject? ==> PlainData(e.data)
  }

  /** A container as `SLZContainer` builds it: each element stored under its own ref's id. */
  predicate WellKeyed(t: seq<(int, Element)>)
  {
    DistinctKeys(t) && forall i :: 0 <= i < |t| ==> t[i].0 == t[i].1.ref.id && PlainElement(t[i].1)
  }

  /** A container built from plain elements is well keyed. */
  lemma {:induction false} TableOfWellKeyed(elements: seq<Element>)
    requires forall i :: 0 <= i < |elements| ==> PlainElement(elements[i])
    ensures WellKeyed(TableOf(elements))
  {
    if elements != [] {
      var init := elements[..|elements| - 1];
      TableOfWellKeyed(init);
      var t := TableOf(init);
      var last := elements[|elements| - 1];
      var t' := Put(t, last.ref.id as int, last);
      forall i | 0 <= i < |t'|
        ensures t'[i].0 == t'[i].1.ref.id && PlainElement(t'[i].1)
      {
        if i < |t| && t'[i] == t[i] {
        } else {
          assert t'[i] == (last.ref.id as int, last);
        }
      }
    }
  }

  /** The element a decoded element turns into once the container sets its ref. */
  function Rebuilt(e: Element, base: nat, regs: seq<Element>): Element
  {
    if e.SlzType? then e else e.WithRef(Ref(ObjectKind, base + CountObjects(regs) + 1))
  }

  lemma DecodeScalar(v: Value, ctx: View, base: nat, regs: seq<Element>)
    requires Scalar(v)
    ensures Decode(ValueJson(v, ctx), base, regs) == Ok((v, regs))
  {
  }

  predicate ScalarFields(d: seq<(string, Value)>)
  {
    forall i :: 0 <= i < |d| ==> Scalar(d[i].1)
  }

  /** Fields holding scalars decode to themselves, whatever follows them. */
  lemma {:induction false} DecodeScalarFields(d: seq<(string, Value)>, rest: seq<(string, Json)>, ctx: View, base: nat, regs: seq<Element>,
                                              tail: seq<(string, Value)>, regs1: seq<Element>)
    requires ScalarFields(d)
    requires DecodeEntries(rest, base, regs) == Ok((tail, regs1))
    ensures DecodeEntries(FieldsJson(d, ctx) + rest, base, regs) == Ok((d + tail, regs1))
  {
    if d != [] {
      var es := FieldsJson(d, ctx) + rest;
      assert es[1..] == FieldsJson(d[1..], ctx) + rest;
      assert es[0] == (d[0].0, ValueJson(d[0].1, ctx));
      DecodeScalar(d[0].1, ctx, base, regs);
      DecodeScalarFields(d[1..], rest, ctx, base, regs, tail, regs1);
      DecodeEntriesCons(es, base, regs, d[0].0, ValueJson(d[0].1, ctx), d[0].1, d[1..] + tail, regs1);
      assert [d[0]] + (d[1..] + tail) == d + tail;
    } else {
      assert FieldsJson(d, ctx) + rest == rest;
      assert d + tail == tail;
    }
  }

  /** One member decoding to a value and leaving the registrations alone, then the rest. */
  lemma DecodeEntriesCons(es: seq<(string, Json)>, base: nat, regs: seq<Element>, k: string, j: Json, v: Value,
                          tail: seq<(string, Value)>, regs1: seq<Element>)
    requires es != [] && es[0] == (k, j) && Decode(j, base, regs) == Ok((v, regs))
    requires DecodeEntries(es[1..], base, regs) == Ok((tail, regs1))
    ensures DecodeEntries(es, base, regs) == Ok(([(k, v)] + tail, regs1))
  {
  }

  /** A JSON object of scalar members decodes to the hook applied to those members. */
  lemma DecodeScalarObject(d: seq<(string, Value)>, ctx: View, base: nat, regs: seq<Element>)
    requires ScalarFields(d) && DistinctKeys(d)
    ensures Decode(JObj(FieldsJson(d, ctx)), base, regs) == ObjectHook(d, base, regs)
  {
    DecodeScalarFields(d, [], ctx, base, regs, [], regs);
    assert FieldsJson(d, ctx) + [] == FieldsJson(d, ctx);
    assert d + [] == d;
    FromPairsOfDistinct(d);
  }

  lemma FieldsJsonKeys(d: seq<(string, Value)>, ctx: View, k: string)
    ensures HasKey(FieldsJson(d, ctx), k) <==> HasKey(d, k)
  {
    var f := FieldsJson(d, ctx);
    if HasKey(f, k) {
      var i :| 0 <= i < |f| && f[i].0 == k;
      assert d[i].0 == k;
    }
    if HasKey(d, k) {
      var i :| 0 <= i < |d| && d[i].0 == k;
      assert f[i].0 == k;
    }
  }

  const NoView := View([], map[])

  /** A dict whose first key is no token is not a container: the Refable classes get it next. */
  lemma HookOnParsed(o: seq<(string, Value)>, o1: seq<(string, Value)>, base: nat, regs: seq<Element>)
    requires ParseRefKeys(o) == Ok(o1) && o1 != [] && FromStr(o1[0].0).Err?
    ensures ObjectHook(o, base, regs) == RefableFromJson(o1, base, regs)
  {
    assert TryContainer(o1, []) == NotContainer(o1);
  }

  /** A dict with neither "isa" nor "fullname" comes back as the dict. */
  lemma NoRefableKeys(o: seq<(string, Value)>, base: nat, regs: seq<Element>)
    requires !HasKey(o, "isa") && (!HasKey(o, "fullname") || !HasKey(o, "type"))
    ensures RefableFromJson(o, base, regs) == Ok((VDict(o), regs))
  {
    assert TypeFromJson(o) == NoMatch;
  }

  /** The `isa` member decodes to a dict holding the type's ref. */
  lemma DecodeIsa(r: Ref, base: nat, regs: seq<Element>)
    ensures Decode(JObj([("type", JStr(Token(r)))]), base, regs) == Ok((VDict([("type", VRef(r))]), regs))
  {
    var d := [("type", VStr(Token(r)))];
    assert d[1..] == [];
    assert FieldsJson(d, NoView) == [("type", JStr(Token(r)))];
    DecodeScalarObject(d, NoView, base, regs);
    FromStrToken(r);
    var o1 := [("type", VRef(r))];
    assert ParseRefEntry(d[0]) == Ok(o1[0]);
    ParseRefKeysPointwise(d, o1);
    NotAToken("type");
    HookOnParsed(d, o1, base, regs);
    assert !HasKey(o1, "fullname") && !HasKey(o1, "isa");
    NoRefableKeys(o1, base, regs);
  }

  /** The dict the hook sees for a type: its ref parsed, then its name. */
  lemma TypeDict(e: Element, base: nat, regs: seq<Element>)
    requires e.SlzType?
    ensures RefableFromJson([("type", VRef(e.ref)), ("fullname", VStr(e.fullname))], base, regs) == Ok((VElement(e), regs + [e]))
  {
    var o1 := [("type", VRef(e.ref)), ("fullname", VStr(e.fullname))];
    assert o1[1..] == [o1[1]];
    assert Get(o1, "fullname") == Some(VStr(e.fullname));
    assert Get(o1, "type") == Some(VRef(e.ref));
    assert TypeFromJson(o1) == Built(e);
  }

  lemma DecodeTypeElement(e: Element, ctx: View, base: nat, regs: seq<Element>)
    requires e.SlzType?
    ensures Decode(ElementJson(e, ctx), base, regs) == Ok((VElement(e), regs + [e]))
  {
    var d := [("type", VStr(Token(e.ref))), ("fullname", VStr(e.fullname))];
    assert d[1..] == [d[1]] && d[1..][1..] == [];
    assert FieldsJson(d[1..], ctx) == [("fullname", JStr(e.fullname))];
    assert FieldsJson(d, ctx) == [("type", JStr(Token(e.ref))), ("fullname", JStr(e.fullname))];
    DecodeScalarObject(d, ctx, base, regs);
    FromStrToken(e.ref);
    var o1 := [("type", VRef(e.ref)), ("fullname", VStr(e.fullname))];
    assert ParseRefEntry(d[0]) == Ok(o1[0]);
    assert ParseRefEntry(d[1]) == Ok(o1[1]);
    ParseRefKeysPointwise(d, o1);
    NotAToken("type");
    HookOnParsed(d, o1, base, regs);
    TypeDict(e, base, regs);
  }

  /** The keys of a plain object's fields. */
  lemma PlainKeys(d: seq<(string, Value)>)
    requires PlainData(d)
    ensures !HasKey(d, "isa") && !HasKey(d, "type") && !HasKey(d, "ref") && !ClashesWithParameter(d)
    ensures d != [] ==> FromStr(d[0].0).Err?
  {
    forall i | 0 <= i < |d|
      ensures d[i].0 != "isa" && d[i].0 != "type" && d[i].0 != "ref" && d[i].0 != "type_" && d[i].0 != "self" && d[i].0 != "cls"
    {
      assert PlainField(d[i]);
    }
    if d != [] {
      assert PlainField(d[0]);
    }
  }

  /** A plain object encodes as its fields followed by the "isa" member. */
  lemma ObjectJsonShape(e: Element, ctx: View)
    requires e.SlzObject? && !HasKey(e.data, "isa")
    ensures ElementJson(e, ctx) == JObj(FieldsJson(e.data, ctx) + [("isa", JObj([("type", JStr(Token(e.typeRef)))]))])
  {
    FieldsJsonKeys(e.data, ctx, "isa");
  }

  /** The JSON members of a plain object decode to its fields followed by the "isa" dict. */
  lemma DecodeObjectMembers(e: Element, ctx: View, base: nat, regs: seq<Element>)
    requires e.SlzObject? && PlainData(e.data)
    ensures DecodeEntries(FieldsJson(e.data, ctx) + [("isa", JObj([("type", JStr(Token(e.typeRef)))]))], base, regs)
         == Ok((e.data + [("isa", VDict([("type", VRef(e.typeRef))]))], regs))
  {
    var isaJ := JObj([("type", JStr(Token(e.typeRef)))]);
    var isaV := VDict([("type", VRef(e.typeRef))]);
    DecodeIsa(e.typeRef, base, regs);
    DecodeSingleEntry("isa", isaJ, isaV, base, regs);
    assert forall i :: 0 <= i < |e.data| ==> Scalar(e.data[i].1) by {
      forall i | 0 <= i < |e.data|
        ensures Scalar(e.data[i].1)
      {
        assert PlainField(e.data[i]);
      }
    }
    DecodeScalarFields(e.data, [("isa", isaJ)], ctx, base, regs, [("isa", isaV)], regs);
  }

  lemma DecodeSingleEntry(k: string, j: Json, v: Value, base: nat, regs: seq<Element>)
    requires Decode(j, base, regs) == Ok((v, regs))
    ensures DecodeEntries([(k, j)], base, regs) == Ok(([(k, v)], regs))
  {
    var es := [(k, j)];
    assert es[1..] == [] && es[0].0 == k && es[0].1 == j;
    assert DecodeEntries(es[1..], base, regs) == Ok(([], regs));
    assert [(k, v)] + [] == [(k, v)];
  }

  /** Appending "isa" to fields without one: found last, read back, and popped to the fields. */
  lemma IsaAppended(d: seq<(string, Value)>, isaV: Value, o: seq<(string, Value)>)
    requires !HasKey(d, "isa") && o == d + [("isa", isaV)]
    ensures Find(o, "isa") == Some(|d|) && Get(o, "isa") == Some(isaV) && Remove(o, "isa") == d
  {
    assert o[|d|].0 == "isa";
    forall j | 0 <= j < |d| ensures o[j].0 != "isa" {
      assert o[j] == d[j];
    }
    assert o[..|d|] == d;
  }

  /** The fields of a plain object with "isa" appended: no ref keys, and no type. */
  lemma ObjectDictKeys(e: Element, o: seq<(string, Value)>)
    requires e.SlzObject? && PlainData(e.data)
    requires o == e.data + [("isa", VDict([("type", VRef(e.typeRef))]))]
    ensures DistinctKeys(o) && ParseRefKeys(o) == Ok(o) && FromStr(o[0].0).Err?
    ensures TypeFromJson(o) == NoMatch
  {
    PlainKeys(e.data);
    NotAToken("isa");
    assert !HasKey(o, "type") && !HasKey(o, "ref") by {
      forall i | 0 <= i < |o|
        ensures o[i].0 != "type" && o[i].0 != "ref"
      {
        if i < |e.data| {
          assert PlainField(e.data[i]);
        }
      }
    }
    ParseRefKeysUnchanged(o);
  }

  /** The dict the hook sees for a plain object builds the object under the next object id. */
  lemma ObjectDict(e: Element, base: nat, regs: seq<Element>, o: seq<(string, Value)>)
    requires e.SlzObject? && PlainData(e.data)
    requires o == e.data + [("isa", VDict([("type", VRef(e.typeRef))]))]
    ensures DistinctKeys(o) && ParseRefKeys(o) == Ok(o) && FromStr(o[0].0).Err?
    ensures RefableFromJson(o, base, regs) == Ok((VElement(Rebuilt(e, base, regs)), regs + [Rebuilt(e, base, regs)]))
  {
    ObjectDictKeys(e, o);
    PlainKeys(e.data);
    IsaAppended(e.data, VDict([("type", VRef(e.typeRef))]), o);
    var next := Ref(ObjectKind, base + CountObjects(regs) + 1);
    ObjectFromFields(o, next, e.data, e.typeRef);
    assert Rebuilt(e, base, regs) == SlzObject(e.data, e.typeRef, next);
  }

  /** `SLZObject.__from_json__` on a dict whose "isa" names a type ref, and whose other fields clash with no parameter name. */
  lemma ObjectFromFields(o: seq<(string, Value)>, next: Ref, d: seq<(string, Value)>, t: Ref)
    requires Get(o, "isa") == Some(VDict([("type", VRef(t))]))
    requires Remove(o, "isa") == d && !ClashesWithParameter(d)
    ensures ObjectFromJson(o, next) == Built(SlzObject(d, t, next))
  {
    var fields := [("type", VRef(t))];
    assert Find(fields, "type") == Some(0);
  }

  lemma DecodeObjectElement(e: Element, ctx: View, base: nat, regs: seq<Element>)
    requires e.SlzObject? && PlainData(e.data)
    ensures Decode(ElementJson(e, ctx), base, regs) == Ok((VElement(Rebuilt(e, base, regs)), regs + [Rebuilt(e, base, regs)]))
  {
    var isaJ := JObj([("type", JStr(Token(e.typeRef)))]);
    var o := e.data + [("isa", VDict([("type", VRef(e.typeRef))]))];
    PlainKeys(e.data);
    ObjectJsonShape(e, ctx);
    DecodeObjectMembers(e, ctx, base, regs);
    ObjectDict(e, base, regs, o);
    FromPairsOfDistinct(o);
    assert Decode(ElementJson(e, ctx), base, regs) == ObjectHook(o, base, regs);
    HookOnParsed(o, o, base, regs);
  }

  lemma DecodeElement(e: Element, ctx: View, base: nat, regs: seq<Element>)
    requires PlainElement(e)
    ensures Decode(ElementJson(e, ctx), base, regs) == Ok((VElement(Rebuilt(e, base, regs)), regs + [Rebuilt(e, base, regs)]))
  {
    if e.SlzType? {
      DecodeTypeElement(e, ctx, base, regs);
    } else {
      DecodeObjectElement(e, ctx, base, regs);
    }
  }

  /** Distinct ids give distinct tokens: a well-keyed container encodes one member per element, in order. */
  lemma {:induction false} TableJsonMembers(t: seq<(int, Element)>, ctx: View)
    requires WellKeyed(t)
    ensures |TableJson(t, ctx)| == |t|
    ensures forall i :: 0 <= i < |t| ==> TableJson(t, ctx)[i] == (Token(t[i].1.ref), ElementJson(t[i].1, ctx))
  {
    if t != [] {
      var init := t[..|t| - 1];
      var last := t[|t| - 1];
      TableJsonMembers(init, ctx);
      var m := TableJson(init, ctx);
      forall i | 0 <= i < |m|
        ensures m[i].0 != Token(last.1.ref)
      {
        assert t[i].0 != t[|t| - 1].0;
        TokenDistinct(init[i].1.ref, last.1.ref);
      }
    }
  }

  /** What decoding a container's members yields, member by member, before the container is built. */
  predicate DecodedMembers(t: seq<(int, Element)>, vs: seq<(string, Value)>)
  {
    |vs| == |t| &&
    forall i :: 0 <= i < |t| ==>
      vs[i].0 == Token(t[i].1.ref) && vs[i].1.VElement? && vs[i].1.e.WithRef(t[i].1.ref) == t[i].1
  }

  lemma {:induction false} DecodeTableMembers(t: seq<(int, Element)>, ms: seq<(string, Json)>, ctx: View, base: nat, regs: seq<Element>)
    requires forall i :: 0 <= i < |t| ==> PlainElement(t[i].1)
    requires |ms| == |t| && forall i :: 0 <= i < |t| ==> ms[i] == (Token(t[i].1.ref), ElementJson(t[i].1, ctx))
    ensures DecodeEntries(ms, base, regs).Ok?
    ensures DecodedMembers(t, DecodeEntries(ms, base, regs).value.0)
  {
    if t != [] {
      var e := t[0].1;
      DecodeElement(e, ctx, base, regs);
      var regs1 := regs + [Rebuilt(e, base, regs)];
      DecodeTableMembers(t[1..], ms[1..], ctx, base, regs1);
      var tail := DecodeEntries(ms[1..], base, regs1).value.0;
      var vs := [(ms[0].0, VElement(Rebuilt(e, base, regs)))] + tail;
      assert DecodeEntries(ms, base, regs).value.0 == vs;
      forall i | 0 <= i < |t|
        ensures vs[i].0 == Token(t[i].1.ref) && vs[i].1.VElement? && vs[i].1.e.WithRef(t[i].1.ref) == t[i].1
      {
        if i > 0 {
          assert vs[i] == tail[i - 1] && t[i] == t[1..][i - 1];
        }
      }
    }
  }

  /** `SLZContainer.__from_json__` over decoded members rebuilds the container they came from. */
  lemma {:induction false} TryContainerRebuilds(t: seq<(int, Element)>, vs: seq<(string, Value)>, k: nat)
    requires WellKeyed(t) && DecodedMembers(t, vs) && k <= |t|
    ensures TryContainer(vs[k..], t[..k]) == IsContainer(t)
    decreases |t| - k
  {
    if k == |t| {
      assert vs[k..] == [] && t[..k] == t;
    } else {
      var r := t[k].1.ref;
      FromStrToken(r);
      TryContainerStep(t, vs, k);
      TryContainerRebuilds(t, vs, k + 1);
    }
  }

  /** One member of the container: its token parses back to its ref and it is appended under that id. */
  lemma TryContainerStep(t: seq<(int, Element)>, vs: seq<(string, Value)>, k: nat)
    requires WellKeyed(t) && DecodedMembers(t, vs) && k < |t|
    requires FromStr(Token(t[k].1.ref)) == Ok(t[k].1.ref)
    ensures TryContainer(vs[k + 1..], t[..k + 1]).IsContainer? ==> TryContainer(vs[k..], t[..k]) == TryContainer(vs[k + 1..], t[..k + 1])
  {
    var r := t[k].1.ref;
    var o := vs[k..];
    assert o[0] == vs[k] && o[1..] == vs[k + 1..];
    AppendFreshId(t, k);
    if TryContainer(vs[k + 1..], t[..k + 1]).IsContainer? {
      TryContainerCons(o, t[..k], r, o[0].1.e, t[..k + 1]);
    }
  }

  /** A member whose key parses and whose value is an element is set and the rest is tried. */
  lemma TryContainerCons(o: seq<(string, Value)>, acc: seq<(int, Element)>, r: Ref, e: Element, acc': seq<(int, Element)>)
    requires o != [] && FromStr(o[0].0) == Ok(r) && o[0].1 == VElement(e)
    requires acc' == Put(acc, r.id as int, e.WithRef(r))
    requires TryContainer(o[1..], acc').IsContainer?
    ensures TryContainer(o, acc) == TryContainer(o[1..], acc')
  {
  }

  /** The k-th element's id is new among the first k, so setting it appends. */
  lemma AppendFreshId(t: seq<(int, Element)>, k: nat)
    requires WellKeyed(t) && k < |t|
    ensures Put(t[..k], t[k].1.ref.id as int, t[k].1) == t[..k + 1]
  {
    var id := t[k].1.ref.id as int;
    forall i | 0 <= i < k
      ensures t[..k][i].0 != id
    {
      assert t[i].0 != t[k].0;
    }
    assert !HasKey(t[..k], id);
    assert t[..k] + [(id, t[k].1)] == t[..k + 1];
  }

  /** The container members never collide and never look like a key the hook interprets. */
  lemma DecodedMembersKeys(t: seq<(int, Element)>, vs: seq<(string, Value)>)
    requires WellKeyed(t) && DecodedMembers(t, vs)
    ensures DistinctKeys(vs) && !HasKey(vs, "type") && !HasKey(vs, "ref")
  {
    forall i, j | 0 <= i < j < |vs|
      ensures vs[i].0 != vs[j].0
    {
      assert t[i].0 != t[j].0;
      TokenDistinct(t[i].1.ref, t[j].1.ref);
    }
    forall i | 0 <= i < |vs|
      ensures vs[i].0 != "type" && vs[i].0 != "ref"
    {
      TokenIsNoKey(t[i].1.ref);
    }
  }

  lemma HookBuildsContainer(t: seq<(int, Element)>, vs: seq<(string, Value)>, base: nat, regs: seq<Element>)
    requires WellKeyed(t) && DecodedMembers(t, vs)
    ensures ObjectHook(FromPairs(vs), base, regs) == Ok((VContainer(t), regs))
  {
    DecodedMembersKeys(t, vs);
    FromPairsOfDistinct(vs);
    ParseRefKeysUnchanged(vs);
    TryContainerRebuilds(t, vs, 0);
    assert vs[0..] == vs && t[..0] == [];
  }

  /**
   * The container round trip: decoding the encoding of a well-keyed container of plain
   * elements gives back exactly that container, whatever was registered before.
   */
  lemma ContainerRoundTrip(t: seq<(int, Element)>, ctx: View, base: nat, regs: seq<Element>)
    requires WellKeyed(t)
    ensures Decode(ValueJson(VContainer(t), ctx), base, regs).Ok?
    ensures Decode(ValueJson(VContainer(t), ctx), base, regs).value.0 == VContainer(t)
  {
    var ms := TableJson(t, ctx);
    ContainerJson(t, ctx);
    assert DecodeEntries(ms, base, regs).Ok? && DecodedMembers(t, DecodeEntries(ms, base, regs).value.0) by {
      TableJsonMembers(t, ctx);
      DecodeTableMembers(t, ms, ctx, base, regs);
    }
    var d := DecodeEntries(ms, base, regs).value;
    assert ObjectHook(FromPairs(d.0), base, d.1) == Ok((VContainer(t), d.1)) by {
      HookBuildsContainer(t, d.0, base, d.1);
    }
    assert Decode(JObj(ms), base, regs) == ObjectHook(FromPairs(d.0), base, d.1) by {
      DecodeObjectOf(ms, base, regs);
    }
  }

  /** A container is written as the JSON object of its table. */
  lemma ContainerJson(t: seq<(int, Element)>, ctx: View)
    ensures ValueJson(VContainer(t), ctx) == JObj(TableJson(t, ctx))
  {
  }

  /** A name the hook leaves alone as a dict key. */
  predicate PlainName(n: string)
  {
    n != "isa" && n != "type" && n != "ref" && FromStr(n).Err?
  }

  /** A dict of named containers, as the serialiser's self-test builds one. */
  function Document(ds: seq<(string, seq<(int, Element)>)>): (r: seq<(string, Value)>)
    ensures |r| == |ds| && forall i :: 0 <= i < |ds| ==> r[i] == (ds[i].0, VContainer(ds[i].1))
  {
    if ds == [] then [] else [(ds[0].0, VContainer(ds[0].1))] + Document(ds[1..])
  }

  predicate WellFormedDocument(ds: seq<(string, seq<(int, Element)>)>)
  {
    DistinctKeys(ds) && forall i :: 0 <= i < |ds| ==> PlainName(ds[i].0) && WellKeyed(ds[i].1)
  }

  lemma {:induction false} DecodeDocumentMembers(ds: seq<(string, seq<(int, Element)>)>, ctx: View, base: nat, regs: seq<Element>)
    requires forall i :: 0 <= i < |ds| ==> WellKeyed(ds[i].1)
    ensures DecodeEntries(FieldsJson(Document(ds), ctx), base, regs).Ok?
    ensures DecodeEntries(FieldsJson(Document(ds), ctx), base, regs).value.0 == Document(ds)
  {
    if ds != [] {
      ContainerRoundTrip(ds[0].1, ctx, base, regs);
      var regs1 := Decode(ValueJson(VContainer(ds[0].1), ctx), base, regs).value.1;
      DecodeDocumentMembers(ds[1..], ctx, base, regs1);
      assert Document(ds) == [(ds[0].0, VContainer(ds[0].1))] + Document(ds[1..]);
    }
  }

  /** The hook hands a dict of plainly named containers back unchanged. */
  lemma DocumentHook(ds: seq<(string, seq<(int, Element)>)>, base: nat, regs: seq<Element>)
    requires ds != [] && WellFormedDocument(ds)
    ensures DistinctKeys(Document(ds))
    ensures ObjectHook(Document(ds), base, regs) == Ok((VDict(Document(ds)), regs))
  {
    var o := Document(ds);
    forall i, j | 0 <= i < j < |o|
      ensures o[i].0 != o[j].0
    {
      assert ds[i].0 != ds[j].0;
    }
    forall i | 0 <= i < |o|
      ensures o[i].0 != "type" && o[i].0 != "ref" && o[i].0 != "isa"
    {
      assert PlainName(ds[i].0);
    }
    ParseRefKeysUnchanged(o);
    assert PlainName(ds[0].0);
    HookOnParsed(o, o, base, regs);
    NoRefableKeys(o, base, regs);
  }

  /**
   * `loads(dumps(a)) == a` for a non-empty dict of named containers: each container
   * comes back element for element, and the dict keeps its names and their order.
   */
  lemma DumpsLoadsRoundTrip(ds: seq<(string, seq<(int, Element)>)>, ctx: View, base: nat, regs: seq<Element>)
    requires ds != [] && WellFormedDocument(ds)
    ensures Decode(ValueJson(VDict(Document(ds)), ctx), base, regs).Ok?
    ensures Decode(ValueJson(VDict(Document(ds)), ctx), base, regs).value.0 == VDict(Document(ds))
  {
    var o := Document(ds);
    DecodeDocumentMembers(ds, ctx, base, regs);
    var regs1 := DecodeEntries(FieldsJson(o, ctx), base, regs).value.1;
    DocumentHook(ds, base, regs1);
    FromPairsOfDistinct(o);
    DecodeObjectOf(FieldsJson(o, ctx), base, regs);
    DictJson(o, ctx);
  }

  // ---------------------------------------------------------------------------
  // `==` on the round trip

  /** Every member of `c` is in `b` with a value equal to itself: `c`'s members all compare equal. */
  lemma {:induction false} EntriesInSelfEqual(c: seq<(string, Value)>, b: seq<(string, Value)>)
    requires forall i :: 0 <= i < |c| ==> Get(b, c[i].0) == Some(c[i].1) && ValueEq(c[i].1, c[i].1) == Ok(true)
    ensures EntriesIn(c, b) == Ok(true)
  {
    if c != [] {
      EntriesInSelfEqual(c[1..], b);
    }
  }

  /**
   * Two dicts with the same scalar members compare equal whatever order the members
   * were inserted in: dict `==` looks keys up, it does not walk both orders together.
   */
  lemma ReorderedDataEqual(d: seq<(string, Value)>, d2: seq<(string, Value)>)
    requires ScalarFields(d) && |d| == |d2|
    requires forall i :: 0 <= i < |d| ==> Get(d2, d[i].0) == Some(d[i].1)
    ensures DictEq(d, d2) == Ok(true)
  {
    EntriesInSelfEqual(d, d2);
  }

  /** Two objects with the same ref and the same scalar members, in any order, are equal; their types are not compared. */
  lemma ReorderedObjectsEqual(d: seq<(string, Value)>, d2: seq<(string, Value)>, t: Ref, t2: Ref, r: Ref)
    requires ScalarFields(d) && |d| == |d2|
    requires forall i :: 0 <= i < |d| ==> Get(d2, d[i].0) == Some(d[i].1)
    ensures ElementEq(SlzObject(d, t, r), SlzObject(d2, t2, r)) == Ok(true)
  {
    ReorderedDataEqual(d, d2);
  }

  /** A plain element equals itself. */
  lemma PlainElementSelfEqual(e: Element)
    requires PlainElement(e)
    ensures ElementEq(e, e) == Ok(true)
  {
    if e.SlzObject? {
      forall i | 0 <= i < |e.data|
        ensures Get(e.data, e.data[i].0) == Some(e.data[i].1)
      {
        GetOfDistinct(e.data, i);
      }
      ReorderedDataEqual(e.data, e.data);
    }
  }

  /** A container of plain elements equals itself. */
  lemma {:induction false} ContainerSelfEqual(t: seq<(int, Element)>)
    requires forall i :: 0 <= i < |t| ==> PlainElement(t[i].1)
    ensures ContainerEq(t, t) == Ok(true)
  {
    if t != [] {
      PlainElementSelfEqual(t[0].1);
      ContainerSelfEqual(t[1..]);
    }
  }

  /**
   * The assertion of the serialiser's own test, `a == loaded`: a document of plain
   * containers compares equal to what `loads(dumps(a))` gives back.
   */
  lemma LoadedEqualsDumped(ds: seq<(string, seq<(int, Element)>)>, ctx: View, base: nat, regs: seq<Element>)
    requires ds != [] && WellFormedDocument(ds)
    ensures Decode(ValueJson(VDict(Document(ds)), ctx), base, regs).Ok?
    ensures ValueEq(VDict(Document(ds)), Decode(ValueJson(VDict(Document(ds)), ctx), base, regs).value.0) == Ok(true)
  {
    DumpsLoadsRoundTrip(ds, ctx, base, regs);
    DocumentSelfEqual(ds);
  }

  /** A document of plain containers equals itself. */
  lemma DocumentSelfEqual(ds: seq<(string, seq<(int, Element)>)>)
    requires WellFormedDocument(ds)
    ensures ValueEq(VDict(Document(ds)), VDict(Document(ds))) == Ok(true)
  {
    var o := Document(ds);
    assert DistinctKeys(o) by {
      forall i, j | 0 <= i < j < |o| ensures o[i].0 != o[j].0 {
        assert o[i].0 == ds[i].0 && o[j].0 == ds[j].0;
      }
    }
    forall i | 0 <= i < |o|
      ensures Get(o, o[i].0) == Some(o[i].1) && ValueEq(o[i].1, o[i].1) == Ok(true)
    {
      GetOfDistinct(o, i);
      assert WellKeyed(ds[i].1);
      ContainerSelfEqual(ds[i].1);
    }
    EntriesInSelfEqual(o, o);
  }

  lemma DictJson(o: seq<(string, Value)>, ctx: View)
    ensures ValueJson(VDict(o), ctx) == JObj(FieldsJson(o, ctx))
  {
  }

  /** Decoding a JSON object: its members, then `dict(pairs)`, then the hook. */
  lemma DecodeObjectOf(ms: seq<(string, Json)>, base: nat, regs: seq<Element>)
    requires DecodeEntries(ms, base, regs).Ok?
    ensures var d := DecodeEntries(ms, base, regs).value;
      Decode(JObj(ms), base, regs) == ObjectHook(FromPairs(d.0), base, d.1)
  {
  }

  /** `loads("{}")` is an empty container, not an empty dict. */
  lemma EmptyDictIsContainer(base: nat, regs: seq<Element>)
    ensures Decode(JObj([]), base, regs) == Ok((VContainer([]), regs))
  {
  }

  // ---------------------------------------------------------------------------
  // A decoding that fails after building an element

  /**
   * `[{"type": "t:1", "fullname": "A"}, {"isa": 5}]`, for any type: the first member
   * becomes a type, then subscripting the integer 5 raises, and the type built before
   * stays built (and registered).
   */
  lemma FailureKeepsEarlierType(t: Element, ctx: View, base: nat)
    requires t.SlzType?
    ensures Decode(JArr([ElementJson(t, ctx), JObj([("isa", JInt(5))])]), base, []) ==
      Err(Halt(Crash("TypeError: 'isa' is not subscriptable"), [t]))
  {
    DecodeTypeElement(t, ctx, base, []);
    assert [] + [t] == [t];
    IsaIntRaises(base, [t]);
    ItemsFailAtSecond(ElementJson(t, ctx), JObj([("isa", JInt(5))]), base, VElement(t), [t],
                      Halt(Crash("TypeError: 'isa' is not subscriptable"), [t]));
  }

  /** An array whose first item decodes and whose second raises raises the same way. */
  lemma ItemsFailAtSecond(a: Json, b: Json, base: nat, v: Value, regs: seq<Element>, err: Halt)
    requires Decode(a, base, []) == Ok((v, regs)) && Decode(b, base, regs) == Err(err)
    ensures Decode(JArr([a, b]), base, []) == Err(err)
  {
    assert [a, b][0] == a && [a, b][1..] == [b] && [b][1..] == [];
    assert DecodeItems([b], base, regs) == Err(err);
    assert DecodeItems([a, b], base, []) == Err(err);
  }

  /**
   * A member named after a parameter of the constructor call (`type_`, `self`, `cls`)
   * makes `cls(isa["type"], **o)` raise `TypeError`, so no object is built.
   */
  lemma ParameterNameRaises(t: Ref, next: Ref, name: string, v: Value)
    requires name == "type_" || name == "self" || name == "cls"
    ensures ObjectFromJson([("isa", VDict([("type", VRef(t))])), (name, v)], next) ==
      Failed(Crash("TypeError: got multiple values for argument"))
  {
    var o := [("isa", VDict([("type", VRef(t))])), (name, v)];
    assert Find([("type", VRef(t))], "type") == Some(0);
    assert Find(o, "isa") == Some(0);
    assert Remove(o, "isa") == [(name, v)];
    assert Find([(name, v)], name) == Some(0);
  }

  lemma IsaIntRaises(base: nat, regs: seq<Element>)
    ensures Decode(JObj([("isa", JInt(5))]), base, regs) == Err(Halt(Crash("TypeError: 'isa' is not subscriptable"), regs))
  {
    var o := [("isa", VInt(5))];
    DecodeSingleEntry("isa", JInt(5), VInt(5), base, regs);
    FromPairsOfDistinct(o);
    ParseRefKeysUnchanged(o);
    NotAToken("isa");
    assert TryContainer(o, []) == NotContainer(o);
  }
}
