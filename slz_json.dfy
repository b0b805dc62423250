/**
 * The reference-graph serialiser: typed references with per-kind auto-numbered ids,
 * the global element registry, insertion-ordered containers keyed by id, the JSON
 * encoding of all of these, and the decoding hook that rebuilds them.
 *
 * The two Refable classes are the two `Kind`s: types (token `t:<n>`, JSON key
 * "type") and objects (token `o:<n>`, JSON key "ref").  The class-level `elements`
 * tables are the fields of one `Registry` object.
 */
module SlzJson {
  import opened Base
  import opened Text
  import opened Assoc
  import opened JsonData

  datatype Kind = TypeKind | ObjectKind

  /** The text before the id in a kind's `ref_pattern` ("t:{}" / "o:{}"). */
  function Prefix(k: Kind): string
  {
    if k == TypeKind then "t:" else "o:"
  }

  /** A kind's `ref_key`: the JSON key whose string value the decoding hook parses. */
  function RefKey(k: Kind): string
  {
    if k == TypeKind then "type" else "ref"
  }

  datatype Ref = Ref(kind: Kind, id: nat)

  /** `Ref.ref`: the pattern with the id filled in. */
  function Token(r: Ref): string
  {
    Prefix(r.kind) + NatToString(r.id)
  }

  /** `re.match` of a kind's pattern with `(\d+)` for the id, at the start of `s` only. */
  function MatchPattern(k: Kind, s: string): (r: Option<nat>)
    ensures r.Some? <==> StartsWith(s, Prefix(k)) && LeadingDigits(s[2..]) > 0
  {
    if StartsWith(s, Prefix(k)) && LeadingDigits(s[2..]) > 0
    then Some(Text.Value(s[2..][..LeadingDigits(s[2..])]))
    else None
  }

  /** `Ref.from_str`: the kinds are tried in registration order, types first. */
  function FromStr(s: string): (r: Result<Ref, string>)
    ensures r.Err? <==> MatchPattern(TypeKind, s).None? && MatchPattern(ObjectKind, s).None?
    ensures r.Ok? ==> StartsWith(s, Prefix(r.value.kind))
  {
    match MatchPattern(TypeKind, s)
    case Some(n) => Ok(Ref(TypeKind, n))
    case None =>
      match MatchPattern(ObjectKind, s)
      case Some(n) => Ok(Ref(ObjectKind, n))
      case None => Err("could not parse ref")
  }

  /** `from_str` inverts `ref`: the token of a ref parses back to that ref. */
  lemma FromStrToken(r: Ref)
    ensures FromStr(Token(r)) == Ok(r)
  {
    var d := NatToString(r.id);
    var s := Token(r);
    assert s[2..] == d;
    LeadingDigitsOfDigits(d, []);
    assert d + [] == d && d[..|d|] == d;
    ValueOfNatToString(r.id);
    if r.kind == ObjectKind {
      assert s[..2] == "o:";
    }
  }

  /** Two refs print alike only when they are the same ref (`Ref.__eq__`: kind and id). */
  lemma TokenInjective(r1: Ref, r2: Ref)
    requires Token(r1) == Token(r2)
    ensures r1 == r2
  {
    FromStrToken(r1);
    FromStrToken(r2);
  }

  lemma TokenDistinct(r1: Ref, r2: Ref)
    requires r1 != r2
    ensures Token(r1) != Token(r2)
  {
    FromStrToken(r1);
    FromStrToken(r2);
  }

  /** A string whose second character is not ':' matches neither pattern. */
  lemma NotAToken(s: string)
    requires |s| >= 2 && s[1] != ':'
    ensures FromStr(s).Err?
  {
    assert s[..2] != "t:" && s[..2] != "o:";
  }

  /** A token always starts with its kind's prefix and never equals a plain JSON key. */
  lemma TokenIsNoKey(r: Ref)
    ensures StartsWith(Token(r), Prefix(r.kind)) && |Token(r)| > 2
    ensures Token(r) != "type" && Token(r) != "ref" && Token(r) != "isa" && Token(r) != "fullname"
  {
    var s := Token(r);
    assert s[1] == ':';
  }

  /**
   * A field value of an object, as the encoder and the decoding hook see it.  A
   * `RefList` is represented by the type name its filter compares against.
   */
  datatype Value =
    | VNull
    | VBool(b: bool)
    | VInt(i: int)
    | VStr(s: string)
    | VList(items: seq<Value>)
    | VDict(entries: seq<(string, Value)>)
    | VRef(r: Ref)
    | VRefList(fullname: string)
    | VElement(e: Element)
    | VContainer(table: seq<(int, Element)>)

  /** An `SLZType` or an `SLZObject`, with the reference it currently carries. */
  datatype Element =
    | SlzType(fullname: string, ref: Ref)
    | SlzObject(data: seq<(string, Value)>, typeRef: Ref, ref: Ref)
  {
    function WithRef(r: Ref): (e: Element)
      ensures e.ref == r && e.SlzType? == SlzType?
    {
      if SlzType? then SlzType(fullname, r) else SlzObject(data, typeRef, r)
    }

    function KindOf(): Kind
    {
      if SlzType? then TypeKind else ObjectKind
    }
  }

  // ---------------------------------------------------------------------------
  // Python `==` between values: a truth value, or the exception it raises

  /** Python's numeric view of a scalar: `True == 1` and `False == 0`. */
  function Numeric(v: Value): Option<int>
  {
    match v
    case VBool(b) => Some(if b then 1 else 0)
    case VInt(i) => Some(i)
    case _ => None
  }

  /** `None`, `bool`, `int`, `str`, `list` and `dict`: their `__eq__` gives `NotImplemented` on anything else. */
  predicate Builtin(v: Value)
  {
    v.VNull? || v.VBool? || v.VInt? || v.VStr? || v.VList? || v.VDict?
  }

  const NoData := "AttributeError: object has no attribute 'data'"
  const NoRefType := "AttributeError: object has no attribute 'ref_type'"

  /**
   * `a == b`.  `Ref.__eq__` reads `other.ref_type`, `SLZObject.__eq__` and
   * `SLZContainer.__eq__` read `other.data`, so each raises on an operand without that
   * attribute, whichever side it stands on (the reflected call is the same method).
   * `SLZType` compares only with `SLZType`; against a builtin or a `RefList` both sides
   * answer `NotImplemented` and identity decides, which for two values is `False`.
   */
  function ValueEq(a: Value, b: Value): Result<bool, string>
    decreases a, 3
  {
    if a.VRef? || b.VRef? then
      if a.VRef? && b.VRef? then Ok(a.r == b.r) else Err(NoRefType)
    else if Numeric(a).Some? && Numeric(b).Some? then Ok(Numeric(a) == Numeric(b))
    else if a.VNull? && b.VNull? then Ok(true)
    else if a.VStr? && b.VStr? then Ok(a.s == b.s)
    else if a.VList? && b.VList? then
      if |a.items| != |b.items| then Ok(false) else ItemsEq(a.items, b.items)
    else if a.VDict? && b.VDict? then DictEq(a.entries, b.entries)
    else if Builtin(a) && Builtin(b) then Ok(false)
    else if a.VElement? && b.VElement? then ElementEq(a.e, b.e)
    else if a.VContainer? && b.VContainer? then ContainerEq(a.table, b.table)
    else if (a.VElement? && a.e.SlzObject?) || (b.VElement? && b.e.SlzObject?) || a.VContainer? || b.VContainer? then
      Err(NoData)
    else Ok(false)
  }

  /** `list.__eq__` on lists of equal length: item by item, stopping at the first unequal pair. */
  function ItemsEq(a: seq<Value>, b: seq<Value>): Result<bool, string>
    requires |a| == |b|
    decreases a, 0
  {
    if a == [] then Ok(true)
    else
      match ValueEq(a[0], b[0])
      case Err(e) => Err(e)
      case Ok(eq) => if eq then ItemsEq(a[1..], b[1..]) else Ok(false)
  }

  /** `dict.__eq__`: equal sizes, then every key of `a`, in order, present in `b` with an equal value. */
  function DictEq(a: seq<(string, Value)>, b: seq<(string, Value)>): Result<bool, string>
    decreases a, 1
  {
    if |a| != |b| then Ok(false) else EntriesIn(a, b)
  }

  function EntriesIn(a: seq<(string, Value)>, b: seq<(string, Value)>): Result<bool, string>
    decreases a, 0
  {
    if a == [] then Ok(true)
    else
      assert a[0] in a && a[0].1 < a[0];
      match Get(b, a[0].0)
      case None => Ok(false)
      case Some(v) =>
        match ValueEq(a[0].1, v)
        case Err(e) => Err(e)
        case Ok(eq) => if eq then EntriesIn(a[1..], b) else Ok(false)
  }

  /**
   * `==` between two elements: `SLZType` is a dataclass over `fullname` alone;
   * `SLZObject.__eq__` is `self.data == other.data and self.ref == other.ref`, so the
   * type of an object is not compared.  A type against an object raises.
   */
  function ElementEq(a: Element, b: Element): Result<bool, string>
    decreases a, 2
  {
    if a.SlzType? && b.SlzType? then Ok(a.fullname == b.fullname)
    else if a.SlzObject? && b.SlzObject? then
      match DictEq(a.data, b.data)
      case Err(e) => Err(e)
      case Ok(eq) => Ok(eq && a.ref == b.ref)
    else Err(NoData)
  }

  /** `SLZContainer.__eq__`: `all` over `zip` of the two value lists, so only the shorter length is compared. */
  function ContainerEq(a: seq<(int, Element)>, b: seq<(int, Element)>): Result<bool, string>
    decreases a, 0
  {
    if a == [] || b == [] then Ok(true)
    else
      assert a[0] in a && a[0].1 < a[0];
      match ElementEq(a[0].1, b[0].1)
      case Err(e) => Err(e)
      case Ok(eq) => if eq then ContainerEq(a[1..], b[1..]) else Ok(false)
  }

  /** A bool equals the int of the same numeric value, in either order. */
  lemma BoolEqualsInt(b: bool, i: int)
    ensures ValueEq(VBool(b), VInt(i)) == Ok(i == if b then 1 else 0)
    ensures ValueEq(VInt(i), VBool(b)) == Ok(i == if b then 1 else 0)
  {
  }

  /** A type compared with an object raises, in either order. */
  lemma TypeAgainstObjectRaises(t: Element, o: Element)
    requires t.SlzType? && o.SlzObject?
    ensures ElementEq(t, o).Err? && ElementEq(o, t).Err?
    ensures ValueEq(VElement(t), VElement(o)).Err? && ValueEq(VElement(o), VElement(t)).Err?
  {
  }

  /** A ref compared with anything but a ref raises, in either order. */
  lemma RefAgainstOtherRaises(r: Ref, v: Value)
    requires !v.VRef?
    ensures ValueEq(VRef(r), v).Err? && ValueEq(v, VRef(r)).Err?
  {
  }

  /** Ids 1..n exactly: what numbering by `len(elements) + 1` from empty produces. */
  ghost predicate Dense<T>(m: map<nat, T>)
  {
    forall i: nat :: i in m <==> 1 <= i <= |m|
  }

  lemma DenseExtend<T>(m: map<nat, T>, v: T)
    requires Dense(m)
    ensures |m| + 1 !in m
    ensures Dense(m[|m| + 1 := v]) && |m[|m| + 1 := v]| == |m| + 1
  {
    var n := |m| + 1;
    assert n !in m;
    var m' := m[n := v];
    assert |m'| == n;
    forall i: nat
      ensures i in m' <==> 1 <= i <= |m'|
    {
      assert i in m' <==> i in m || i == n;
    }
  }

  /** The two `elements` tables, one per Refable class. */
  datatype Tables = Tables(types: map<nat, Element>, objects: map<nat, Element>)
  {
    ghost predicate Numbered() { Dense(types) && Dense(objects) }

    function Table(k: Kind): map<nat, Element>
    {
      if k == TypeKind then types else objects
    }

    /** The id the metaclass gives the next element of kind `k`. */
    function NextId(k: Kind): nat
    {
      |Table(k)| + 1
    }
  }

  /** `Ref.resolve()`: the element stored under the id in the table of the ref's kind. */
  function ResolveIn(t: Tables, r: Ref): Option<Element>
  {
    if r.id in t.Table(r.kind) then Some(t.Table(r.kind)[r.id]) else None
  }

  /** Registration of one constructed element under the next id of its class. */
  function AddElement(t: Tables, e: Element): Tables
  {
    if e.SlzType? then Tables(t.types[|t.types| + 1 := e], t.objects)
    else Tables(t.types, t.objects[|t.objects| + 1 := e])
  }

  /** Registration of several elements, in construction order. */
  function AddAll(t: Tables, es: seq<Element>): Tables
  {
    if es == [] then t else AddElement(AddAll(t, es[..|es| - 1]), es[|es| - 1])
  }

  /**
   * The metaclass rule: a new element is stored under its class's next id, that id was
   * free, the numbering stays 1..n, resolving the id yields the element, and nothing
   * else in either table changes.
   */
  lemma AddElementResolves(t: Tables, e: Element)
    requires t.Numbered()
    ensures t.NextId(e.KindOf()) !in t.Table(e.KindOf())
    ensures AddElement(t, e).Numbered()
    ensures ResolveIn(AddElement(t, e), Ref(e.KindOf(), t.NextId(e.KindOf()))) == Some(e)
    ensures |AddElement(t, e).Table(e.KindOf())| == |t.Table(e.KindOf())| + 1
    ensures forall r :: ResolveIn(t, r).Some? ==> ResolveIn(AddElement(t, e), r) == ResolveIn(t, r)
  {
    if e.SlzType? {
      DenseExtend(t.types, e);
    } else {
      DenseExtend(t.objects, e);
    }
  }

  function CountObjects(es: seq<Element>): (n: nat)
    ensures n <= |es|
    ensures n == 0 <==> forall i :: 0 <= i < |es| ==> !es[i].SlzObject?
    ensures n == |es| <==> forall i :: 0 <= i < |es| ==> es[i].SlzObject?
  {
    if es == [] then 0 else CountObjects(es[..|es| - 1]) + if es[|es| - 1].SlzObject? then 1 else 0
  }

  /** Registering a batch keeps the numbering dense, keeps every earlier entry and adds one id per element. */
  lemma {:induction false} AddAllNumbered(t: Tables, es: seq<Element>)
    requires t.Numbered()
    ensures AddAll(t, es).Numbered()
    ensures |AddAll(t, es).objects| == |t.objects| + CountObjects(es)
    ensures |AddAll(t, es).types| == |t.types| + |es| - CountObjects(es)
    ensures forall r :: ResolveIn(t, r).Some? ==> ResolveIn(AddAll(t, es), r) == ResolveIn(t, r)
  {
    if es != [] {
      var init := es[..|es| - 1];
      AddAllNumbered(t, init);
      AddElementResolves(AddAll(t, init), es[|es| - 1]);
    }
  }

  /** The per-class `elements` tables that every Refable registers in when built. */
  class Registry {
    var types: map<nat, Element>
    var objects: map<nat, Element>

    ghost predicate Valid()
      reads this
    {
      Tables(types, objects).Numbered()
    }

    constructor ()
      ensures Valid() && types == map[] && objects == map[]
    {
      types := map[];
      objects := map[];
    }

    /** `reset()`: every class's table is emptied, so numbering restarts at 1. */
    method Reset()
      modifies this
      ensures Valid() && types == map[] && objects == map[]
      ensures Tables(types, objects).NextId(TypeKind) == 1 && Tables(types, objects).NextId(ObjectKind) == 1
    {
      types := map[];
      objects := map[];
    }

    /** `SLZType(fullname)`: its ref is the next type id, and it is registered under it. */
    method NewType(fullname: string) returns (t: Element)
      requires Valid()
      modifies this
      ensures Valid()
      ensures t == SlzType(fullname, Ref(TypeKind, |old(types)| + 1))
      ensures Tables(types, objects) == AddElement(Tables(old(types), old(objects)), t)
      ensures Resolve(t.ref) == Some(t)
    {
      t := SlzType(fullname, Ref(TypeKind, |types| + 1));
      AddElementResolves(Tables(types, objects), t);
      types := types[|types| + 1 := t];
    }

    /** `SLZObject(type_, **kwargs)`: its ref is the next object id, and it is registered under it. */
    method NewObject(data: seq<(string, Value)>, typeRef: Ref) returns (o: Element)
      requires Valid()
      modifies this
      ensures Valid()
      ensures o == SlzObject(data, typeRef, Ref(ObjectKind, |old(objects)| + 1))
      ensures |objects| == |old(objects)| + 1 && types == old(types)
      ensures Tables(types, objects) == AddElement(Tables(old(types), old(objects)), o)
      ensures Resolve(o.ref) == Some(o)
    {
      o := SlzObject(data, typeRef, Ref(ObjectKind, |objects| + 1));
      AddElementResolves(Tables(types, objects), o);
      objects := objects[|objects| + 1 := o];
    }

    function Resolve(r: Ref): Option<Element>
      reads this
    {
      ResolveIn(Tables(types, objects), r)
    }

    /** The metaclass registration of elements built one after another. */
    method RegisterAll(es: seq<Element>)
      requires Valid()
      modifies this
      ensures Valid()
      ensures Tables(types, objects) == AddAll(Tables(old(types), old(objects)), es)
    {
      ghost var t0 := Tables(types, objects);
      var i := 0;
      while i < |es|
        invariant 0 <= i <= |es| && Valid()
        invariant Tables(types, objects) == AddAll(t0, es[..i])
      {
        assert es[..i + 1][..i] == es[..i];
        AddElementResolves(Tables(types, objects), es[i]);
        if es[i].SlzType? {
          types := types[|types| + 1 := es[i]];
        } else {
          objects := objects[|objects| + 1 := es[i]];
        }
        i := i + 1;
      }
      assert es[..i] == es;
    }

    /**
     * `loads`: decode a parsed document with the hook, registering every element the
     * hook builds, in the order it builds them.  An exception ends the decoding but
     * leaves registered every element built before it.
     */
    method Loads(j: Json) returns (r: Result<Value, DecodeError>)
      requires Valid()
      modifies this
      ensures Valid()
      ensures Tables(types, objects) == AddAll(Tables(old(types), old(objects)), BuiltBy(Decode(j, |old(objects)|, [])))
      ensures var d := Decode(j, |old(objects)|, []);
        (d.Err? ==> r == Err(d.error.error)) && (d.Ok? ==> r == Ok(d.value.0))
    {
      var d := Decode(j, |objects|, []);
      RegisterAll(BuiltBy(d));
      r := if d.Ok? then Ok(d.value.0) else Err(d.error.error);
    }
  }

  // ---------------------------------------------------------------------------
  // Containers

  /** How a container is indexed: by int, by `Ref`, or by a token string. */
  datatype Key = ById(i: int) | ByRef(r: Ref) | ByToken(s: string)

  datatype Failure = ValueError(msg: string) | KeyError(key: int)

  /** The numeric id a key selects; only a token that does not parse fails. */
  function KeyId(k: Key): Result<int, Failure>
  {
    match k
    case ById(i) => Ok(i)
    case ByRef(r) => Ok(r.id)
    case ByToken(s) =>
      match FromStr(s)
      case Ok(r) => Ok(r.id)
      case Err(msg) => Err(ValueError(msg))
  }

  /** `container[key]`: the element stored under the key's id, or the error raised. */
  function Lookup(entries: seq<(int, Element)>, k: Key): (r: Result<Element, Failure>)
    ensures r.Ok? <==> KeyId(k).Ok? && HasKey(entries, KeyId(k).value)
    ensures r.Ok? ==> Get(entries, KeyId(k).value) == Some(r.value)
    ensures KeyId(k).Ok? && r.Err? ==> r.error == KeyError(KeyId(k).value)
  {
    match KeyId(k)
    case Err(e) => Err(e)
    case Ok(id) =>
      match Get(entries, id)
      case Some(e) => Ok(e)
      case None => Err(KeyError(id))
  }

  /** `key in container`: only an unparsable token raises. */
  function Member(entries: seq<(int, Element)>, k: Key): (r: Result<bool, Failure>)
    ensures r.Ok? <==> KeyId(k).Ok?
    ensures r.Ok? ==> (r.value <==> Lookup(entries, k).Ok?)
  {
    match KeyId(k)
    case Err(e) => Err(e)
    case Ok(id) => Ok(HasKey(entries, id))
  }

  /** The table `{e.ref.ref_id: e for e in elements}` builds. */
  function TableOf(elements: seq<Element>): (t: seq<(int, Element)>)
    ensures DistinctKeys(t)
  {
    if elements == [] then []
    else
      var last := elements[|elements| - 1];
      Put(TableOf(elements[..|elements| - 1]), last.ref.id as int, last)
  }

  function Ids(t: seq<(int, Element)>): set<int>
  {
    set i | 0 <= i < |t| :: t[i].0
  }

  lemma {:induction false} DistinctIds(t: seq<(int, Element)>)
    requires DistinctKeys(t)
    ensures |Ids(t)| == |t|
  {
    if t != [] {
      var init := t[..|t| - 1];
      DistinctIds(init);
      assert Ids(t) == Ids(init) + {t[|t| - 1].0};
      assert t[|t| - 1].0 !in Ids(init);
    }
  }

  /** `SLZContainer`: an insertion-ordered dict from numeric id to element. */
  class Container {
    var entries: seq<(int, Element)>

    ghost predicate Valid()
      reads this
    {
      DistinctKeys(entries)
    }

    constructor (elements: seq<Element>)
      ensures Valid() && entries == TableOf(elements)
    {
      var data: seq<(int, Element)> := [];
      var i := 0;
      while i < |elements|
        invariant 0 <= i <= |elements|
        invariant data == TableOf(elements[..i])
      {
        assert elements[..i + 1][..i] == elements[..i];
        data := Put(data, elements[i].ref.id as int, elements[i]);
        i := i + 1;
      }
      assert elements[..i] == elements;
      entries := data;
    }

    /** `append`: stores the element under its own ref's id. */
    method Append(v: Element)
      requires Valid()
      modifies this
      ensures Valid()
      ensures entries == Put(old(entries), v.ref.id as int, v)
    {
      entries := Put(entries, v.ref.id as int, v);
    }

    /** `container[key] = value`: stores under the key's id, whatever `value.ref` says. */
    method SetItem(k: Key, v: Element) returns (r: Result<(), Failure>)
      requires Valid()
      modifies this
      ensures Valid()
      ensures KeyId(k).Err? ==> r == Err(KeyId(k).error) && entries == old(entries)
      ensures KeyId(k).Ok? ==> r == Ok(()) && entries == Put(old(entries), KeyId(k).value, v)
    {
      match KeyId(k)
      case Err(e) => r := Err(e);
      case Ok(id) =>
        entries := Put(entries, id, v);
        r := Ok(());
    }

    method GetItem(k: Key) returns (r: Result<Element, Failure>)
      ensures r == Lookup(entries, k)
    {
      r := Lookup(entries, k);
    }

    method Contains(k: Key) returns (r: Result<bool, Failure>)
      ensures r == Member(entries, k)
    {
      r := Member(entries, k);
    }

    /** `len(container)`: one per distinct id stored. */
    function Len(): (n: nat)
      reads this
      requires Valid()
      ensures n == |Ids(entries)|
    {
      DistinctIds(entries);
      |entries|
    }

    /** `SLZContainer.__json__`: one member per element, keyed by its own ref's token. */
    method ToJson(ctx: View) returns (j: Json)
      ensures j == JObj(TableJson(entries, ctx))
    {
      var out: seq<(string, Json)> := [];
      var i := 0;
      while i < |entries|
        invariant 0 <= i <= |entries|
        invariant out == TableJson(entries[..i], ctx)
      {
        assert entries[..i + 1][..i] == entries[..i];
        var item := entries[i].1;
        out := Put(out, Token(item.ref), ElementJson(item, ctx));
        i := i + 1;
      }
      assert entries[..i] == entries;
      j := JObj(out);
    }
  }

  /** Lookup and membership use the numeric id only: the ref's kind plays no part. */
  lemma LookupIgnoresKind(entries: seq<(int, Element)>, k: Kind, n: nat)
    ensures Lookup(entries, ByRef(Ref(k, n))) == Lookup(entries, ById(n))
    ensures Lookup(entries, ByToken(Token(Ref(k, n)))) == Lookup(entries, ById(n))
    ensures Member(entries, ByRef(Ref(k, n))) == Member(entries, ById(n))
    ensures Member(entries, ByToken(Token(Ref(k, n)))) == Member(entries, ById(n))
  {
    FromStrToken(Ref(k, n));
  }

  /**
   * Storing under one id touches only that id's entry, and the length counts the
   * distinct ids, growing by one exactly when the id was new.
   */
  lemma StoreTouchesOneId(entries: seq<(int, Element)>, id: int, v: Element, other: int)
    requires DistinctKeys(entries) && other != id
    ensures Lookup(Put(entries, id, v), ById(id)) == Ok(v)
    ensures Lookup(Put(entries, id, v), ById(other)) == Lookup(entries, ById(other))
    ensures |Ids(Put(entries, id, v))| == |Ids(entries)| + if HasKey(entries, id) then 0 else 1
  {
    PutKeepsOthers(entries, id, v, other);
    DistinctIds(entries);
    DistinctIds(Put(entries, id, v));
  }

  // ---------------------------------------------------------------------------
  // Encoding

  /**
   * What a `RefList` sees when it is encoded: the items of the container it views and
   * the registered types its filter resolves against.
   */
  datatype View = View(items: seq<Element>, types: map<nat, Element>)

  /**
   * The manifest's filter: `x.type.resolve() == t`, for a type `t` with this fullname.
   * A type id that is not registered would make `resolve()` raise `KeyError`; here such
   * an item is simply not selected.  The repository file builder never stores one, as
   * every type its objects name is registered when the file is built.
   */
  predicate Selects(types: map<nat, Element>, fullname: string, x: Element)
  {
    x.SlzObject? && x.typeRef.kind == TypeKind && x.typeRef.id in types &&
    types[x.typeRef.id].SlzType? && types[x.typeRef.id].fullname == fullname
  }

  function RefEntry(x: Element): Json
    requires x.SlzObject?
  {
    JObj([("ref", JStr(Token(x.ref))), ("type", JStr(Token(x.typeRef)))])
  }

  /** The items a `RefList` keeps, in container order. */
  function Selected(items: seq<Element>, types: map<nat, Element>, fullname: string): (r: seq<Element>)
    ensures forall x :: x in r ==> x in items && Selects(types, fullname, x)
    ensures forall x :: x in items && Selects(types, fullname, x) ==> x in r
  {
    if items == [] then []
    else
      var last := items[|items| - 1];
      Selected(items[..|items| - 1], types, fullname) + if Selects(types, fullname, last) then [last] else []
  }

  /** `RefList.__json__`. */
  function RefListJson(items: seq<Element>, types: map<nat, Element>, fullname: string): seq<Json>
  {
    if items == [] then []
    else
      var last := items[|items| - 1];
      RefListJson(items[..|items| - 1], types, fullname) +
        if Selects(types, fullname, last) then [RefEntry(last)] else []
  }

  /** A `RefList` is one `{ref, type}` entry per selected item, in container order. */
  lemma {:induction false} RefListIsSelected(items: seq<Element>, types: map<nat, Element>, fullname: string)
    ensures |RefListJson(items, types, fullname)| == |Selected(items, types, fullname)|
    ensures forall i :: 0 <= i < |Selected(items, types, fullname)| ==>
      Selected(items, types, fullname)[i].SlzObject? &&
      RefListJson(items, types, fullname)[i] == RefEntry(Selected(items, types, fullname)[i])
  {
    if items != [] {
      RefListIsSelected(items[..|items| - 1], types, fullname);
    }
  }

  method RefListToJson(items: seq<Element>, types: map<nat, Element>, fullname: string) returns (out: seq<Json>)
    ensures out == RefListJson(items, types, fullname)
  {
    out := [];
    var i := 0;
    while i < |items|
      invariant 0 <= i <= |items|
      invariant out == RefListJson(items[..i], types, fullname)
    {
      assert items[..i + 1][..i] == items[..i];
      if Selects(types, fullname, items[i]) {
        out := out + [RefEntry(items[i])];
      }
      i := i + 1;
    }
    assert items[..i] == items;
  }

  /** The encoder's `default`: every value through its `__json__`. */
  function ValueJson(v: Value, ctx: View): Json
    decreases v, 0
  {
    match v
    case VNull => JNull
    case VBool(b) => JBool(b)
    case VInt(i) => JInt(i)
    case VStr(s) => JStr(s)
    case VList(items) => JArr(ItemsJson(items, ctx))
    case VDict(entries) => JObj(FieldsJson(entries, ctx))
    case VRef(r) => JStr(Token(r))
    case VRefList(fullname) => JArr(RefListJson(ctx.items, ctx.types, fullname))
    case VElement(e) => ElementJson(e, ctx)
    case VContainer(t) => JObj(TableJson(t, ctx))
  }

  function ItemsJson(items: seq<Value>, ctx: View): (r: seq<Json>)
    decreases items, 0
    ensures |r| == |items|
  {
    if items == [] then [] else [ValueJson(items[0], ctx)] + ItemsJson(items[1..], ctx)
  }

  function FieldsJson(entries: seq<(string, Value)>, ctx: View): (r: seq<(string, Json)>)
    decreases entries, 0
    ensures |r| == |entries|
    ensures forall i :: 0 <= i < |r| ==> r[i].0 == entries[i].0
  {
    if entries == [] then []
    else
      assert entries[0] in entries && entries[0].1 < entries[0];
      [(entries[0].0, ValueJson(entries[0].1, ctx))] + FieldsJson(entries[1..], ctx)
  }

  /**
   * `SLZType.__json__` is `{"type": <own token>, "fullname": ...}`;
   * `SLZObject.__json__` is its fields with `"isa": {"type": <type token>}` set.
   */
  function ElementJson(e: Element, ctx: View): Json
    decreases e, 0
  {
    match e
    case SlzType(fullname, ref) => JObj([("type", JStr(Token(ref))), ("fullname", JStr(fullname))])
    case SlzObject(data, typeRef, ref) =>
      JObj(Put(FieldsJson(data, ctx), "isa", JObj([("type", JStr(Token(typeRef)))])))
  }

  /** The JSON object a container encodes to: members set one element at a time. */
  function TableJson(t: seq<(int, Element)>, ctx: View): seq<(string, Json)>
    decreases t, 0
  {
    if t == [] then []
    else
      assert t[|t| - 1] in t && t[|t| - 1].1 < t[|t| - 1];
      var item := t[|t| - 1].1;
      Put(TableJson(t[..|t| - 1], ctx), Token(item.ref), ElementJson(item, ctx))
  }

  // ---------------------------------------------------------------------------
  // Decoding

  datatype DecodeError =
    | Crash(exception: string)      // an exception the hook does not suppress
    | Unsupported(what: string)     // a Python value this model has no element for

  /**
   * An exception out of decoding, with every element the hook had built before it:
   * those were registered as they were built and stay registered.
   */
  datatype Halt = Halt(error: DecodeError, built: seq<Element>)

  /** The elements built by a decoding, whether it finished or stopped at an exception. */
  function BuiltBy<T>(d: Result<(T, seq<Element>), Halt>): seq<Element>
  {
    if d.Ok? then d.value.1 else d.error.built
  }

  /**
   * JSON decoding with the hook applied to every object, innermost first.  `base` is
   * the number of objects registered before decoding started and `regs` the elements
   * the hook has built so far; both fix the ids of the objects built next.
   */
  function Decode(j: Json, base: nat, regs: seq<Element>): Result<(Value, seq<Element>), Halt>
    decreases j, 1
  {
    match j
    case JNull => Ok((VNull, regs))
    case JBool(b) => Ok((VBool(b), regs))
    case JInt(i) => Ok((VInt(i), regs))
    case JStr(s) => Ok((VStr(s), regs))
    case JArr(items) =>
      var r :- DecodeItems(items, base, regs);
      Ok((VList(r.0), r.1))
    case JObj(entries) =>
      var r :- DecodeEntries(entries, base, regs);
      ObjectHook(FromPairs(r.0), base, r.1)
  }

  function DecodeItems(items: seq<Json>, base: nat, regs: seq<Element>): Result<(seq<Value>, seq<Element>), Halt>
    decreases items, 0
  {
    if items == [] then Ok(([], regs))
    else
      var h :- Decode(items[0], base, regs);
      var t :- DecodeItems(items[1..], base, h.1);
      Ok(([h.0] + t.0, t.1))
  }

  function DecodeEntries(entries: seq<(string, Json)>, base: nat, regs: seq<Element>): Result<(seq<(string, Value)>, seq<Element>), Halt>
    decreases entries, 0
  {
    if entries == [] then Ok(([], regs))
    else
      assert entries[0] in entries && entries[0].1 < entries[0];
      var h :- Decode(entries[0].1, base, regs);
      var t :- DecodeEntries(entries[1..], base, h.1);
      Ok(([(entries[0].0, h.0)] + t.0, t.1))
  }

  /**
   * Decoding only ever adds elements: whatever it built before, and in particular
   * everything built before an exception, is still among the elements it reports.
   */
  lemma {:induction false} DecodeExtends(j: Json, base: nat, regs: seq<Element>)
    ensures regs <= BuiltBy(Decode(j, base, regs))
    decreases j, 1
  {
    match j
    case JArr(items) =>
      DecodeItemsExtends(items, base, regs);
    case JObj(entries) =>
      DecodeEntriesExtends(entries, base, regs);
      var r := DecodeEntries(entries, base, regs);
      if r.Ok? {
        HookExtends(FromPairs(r.value.0), base, r.value.1);
      }
    case _ =>
  }

  lemma {:induction false} DecodeItemsExtends(items: seq<Json>, base: nat, regs: seq<Element>)
    ensures regs <= BuiltBy(DecodeItems(items, base, regs))
    decreases items, 0
  {
    if items != [] {
      DecodeExtends(items[0], base, regs);
      var h := Decode(items[0], base, regs);
      if h.Ok? {
        DecodeItemsExtends(items[1..], base, h.value.1);
      }
    }
  }

  lemma {:induction false} DecodeEntriesExtends(entries: seq<(string, Json)>, base: nat, regs: seq<Element>)
    ensures regs <= BuiltBy(DecodeEntries(entries, base, regs))
    decreases entries, 0
  {
    if entries != [] {
      assert entries[0] in entries && entries[0].1 < entries[0];
      DecodeExtends(entries[0].1, base, regs);
      var h := Decode(entries[0].1, base, regs);
      if h.Ok? {
        DecodeEntriesExtends(entries[1..], base, h.value.1);
      }
    }
  }

  /** The hook adds at most the one element it builds, and nothing when it raises. */
  lemma HookExtends(o: seq<(string, Value)>, base: nat, regs: seq<Element>)
    ensures var h := ObjectHook(o, base, regs);
      (h.Err? ==> h.error.built == regs) &&
      (h.Ok? ==> h.value.1 == regs || (h.value.0.VElement? && h.value.1 == regs + [h.value.0.e]))
  {
    match ParseRefKeys(o)
    case Err(_) =>
    case Ok(o1) =>
      match TryContainer(o1, [])
      case IsContainer(_) =>
      case ContainerCrash(_) =>
      case NotContainer(o2) => RefableExtends(o2, base, regs);
  }

  lemma RefableExtends(o: seq<(string, Value)>, base: nat, regs: seq<Element>)
    ensures var h := RefableFromJson(o, base, regs);
      (h.Err? ==> h.error.built == regs) &&
      (h.Ok? ==> h.value.1 == regs || (h.value.0.VElement? && h.value.1 == regs + [h.value.0.e]))
  {
    match TypeFromJson(o)
    case Built(_) =>
    case Failed(_) =>
    case Suppressed(_) =>
    case NoMatch =>
      match ObjectFromJson(o, Ref(ObjectKind, base + CountObjects(regs) + 1))
      case Built(_) =>
      case Failed(_) =>
      case Suppressed(_) =>
      case NoMatch =>
  }

  /** One member under the first step of the hook: a ref key's string becomes a ref if it parses. */
  function ParseRefEntry(f: (string, Value)): Result<(string, Value), DecodeError>
  {
    var (k, v) := f;
    if k == RefKey(TypeKind) || k == RefKey(ObjectKind) then
      match v
      case VStr(s) =>
        (match FromStr(s)
         case Ok(r) => Ok((k, VRef(r)))
         case Err(_) => Ok(f))
      case _ => Err(Crash("TypeError: ref pattern matched against a non-string"))
    else Ok(f)
  }

  /** The first step of the hook: string values under "type" / "ref" become refs where they parse. */
  function ParseRefKeys(o: seq<(string, Value)>): (r: Result<seq<(string, Value)>, DecodeError>)
    ensures r.Ok? <==> forall i :: 0 <= i < |o| ==> ParseRefEntry(o[i]).Ok?
    ensures r.Ok? ==> |r.value| == |o| && forall i :: 0 <= i < |o| ==> ParseRefEntry(o[i]) == Ok(r.value[i])
  {
    if o == [] then Ok([])
    else
      var h :- ParseRefEntry(o[0]);
      var rest :- ParseRefKeys(o[1..]);
      Ok([h] + rest)
  }

  lemma ParseRefKeysPointwise(o: seq<(string, Value)>, o1: seq<(string, Value)>)
    requires |o| == |o1| && forall i :: 0 <= i < |o| ==> ParseRefEntry(o[i]) == Ok(o1[i])
    ensures ParseRefKeys(o) == Ok(o1)
  {
    assert forall i :: 0 <= i < |o| ==> ParseRefEntry(o[i]).Ok?;
    assert ParseRefKeys(o).Ok?;
    var r := ParseRefKeys(o).value;
    assert forall i :: 0 <= i < |o| ==> r[i] == o1[i];
    assert r == o1;
  }

  /** Parsing the ref keys keeps every key, and changes nothing in a dict that has neither. */
  lemma ParseRefKeysKeys(o: seq<(string, Value)>)
    requires ParseRefKeys(o).Ok?
    ensures forall i :: 0 <= i < |o| ==> ParseRefKeys(o).value[i].0 == o[i].0
    ensures !HasKey(o, "type") && !HasKey(o, "ref") ==> ParseRefKeys(o).value == o
  {
    var r := ParseRefKeys(o).value;
    forall i | 0 <= i < |o|
      ensures r[i].0 == o[i].0
      ensures o[i].0 != "type" && o[i].0 != "ref" ==> r[i] == o[i]
    {
      assert ParseRefEntry(o[i]) == Ok(r[i]);
    }
  }

  /** A dict with neither ref key passes the first step of the hook unchanged. */
  lemma ParseRefKeysUnchanged(o: seq<(string, Value)>)
    requires !HasKey(o, "type") && !HasKey(o, "ref")
    ensures ParseRefKeys(o) == Ok(o)
  {
    forall i | 0 <= i < |o|
      ensures ParseRefEntry(o[i]) == Ok(o[i])
    {
      assert o[i].0 != "type" && o[i].0 != "ref";
    }
    ParseRefKeysPointwise(o, o);
  }

  datatype ContainerAttempt =
    | IsContainer(table: seq<(int, Element)>)
    | NotContainer(o: seq<(string, Value)>)   // the dict, with the refs already overwritten
    | ContainerCrash(error: DecodeError)

  /**
   * `SLZContainer.__from_json__`: each key must parse as a token; its value gets that
   * ref and is appended.  A key that does not parse gives up (the hook suppresses the
   * `ValueError`), leaving the refs set so far in place; a value that cannot take a
   * `ref` attribute raises.
   */
  function TryContainer(o: seq<(string, Value)>, acc: seq<(int, Element)>): (r: ContainerAttempt)
    ensures r.IsContainer? ==> forall i :: 0 <= i < |o| ==> FromStr(o[i].0).Ok?
    ensures r.NotContainer? ==> |r.o| == |o| && forall i :: 0 <= i < |o| ==> r.o[i].0 == o[i].0
    ensures o != [] && FromStr(o[0].0).Err? ==> r == NotContainer(o)
    ensures r.IsContainer? <==> forall i :: 0 <= i < |o| ==> FromStr(o[i].0).Ok? && o[i].1.VElement?
  {
    if o == [] then IsContainer(acc)
    else
      match FromStr(o[0].0)
      case Err(_) => NotContainer(o)
      case Ok(r) =>
        match o[0].1
        case VElement(e) =>
          var e' := e.WithRef(r);
          (match TryContainer(o[1..], Put(acc, r.id as int, e'))
           case NotContainer(rest) => NotContainer([(o[0].0, VElement(e'))] + rest)
           case other => other)
        case VContainer(_) => ContainerCrash(Unsupported("a container stored in a container"))
        case _ => ContainerCrash(Crash("AttributeError: value cannot take a ref"))
  }

  /** `o.get(k) is not None`. */
  predicate Present(o: seq<(string, Value)>, k: string)
  {
    Get(o, k).Some? && Get(o, k).value != VNull
  }

  /** The outcome of one `__from_json__` attempt. */
  datatype Attempt =
    | NoMatch                                   // raised ValueError: the next class is tried
    | Built(e: Element)
    | Suppressed(rest: seq<(string, Value)>)    // ValueError after the dict was already changed
    | Failed(error: DecodeError)

  /**
   * The members that `cls(isa["type"], **o)` cannot pass as keywords: `cls` is a
   * parameter of `RefableMeta.__call__`, `self` and `type_` of `SLZObject.__init__`.
   */
  predicate ClashesWithParameter(o: seq<(string, Value)>)
  {
    HasKey(o, "type_") || HasKey(o, "self") || HasKey(o, "cls")
  }

  /** `SLZType.__from_json__`: needs a non-null "fullname" and "type". */
  function TypeFromJson(o: seq<(string, Value)>): (r: Attempt)
    ensures r.NoMatch? <==> !(Present(o, "fullname") && Present(o, "type"))
    ensures r.Built? ==> r.e.SlzType? && Get(o, "fullname") == Some(VStr(r.e.fullname))
    ensures r.Built? ==> Get(o, "type") == Some(VRef(r.e.ref))
    ensures r.Built? <==> (Present(o, "fullname") && Present(o, "type") &&
      Get(o, "fullname").value.VStr? && Get(o, "type").value.VRef?)
    ensures !r.Suppressed?
  {
    if Present(o, "fullname") && Present(o, "type") then
      match (Get(o, "fullname").value, Get(o, "type").value)
      case (VStr(fullname), VRef(r)) => Built(SlzType(fullname, r))
      case _ => Failed(Unsupported("a type whose fullname is not a string or whose ref did not parse"))
    else NoMatch
  }

  /**
   * `SLZObject.__from_json__`: needs "isa", pops it, and builds the object from
   * `isa["type"]` and the remaining members; `next` is the ref the metaclass assigns.
   */
  function ObjectFromJson(o: seq<(string, Value)>, next: Ref): (r: Attempt)
    ensures r.NoMatch? <==> !HasKey(o, "isa")
    ensures r.Built? ==> r.e.SlzObject? && r.e.ref == next && r.e.data == Remove(o, "isa")
    ensures r.Built? ==> Get(o, "isa").value.VDict? && Get(Get(o, "isa").value.entries, "type") == Some(VRef(r.e.typeRef))
    ensures r.Suppressed? ==> r.rest == Remove(o, "isa")
    ensures r.Suppressed? <==> HasKey(o, "isa") && Get(o, "isa").value.VContainer?
    ensures r.Built? <==> (HasKey(o, "isa") && Get(o, "isa").value.VDict? &&
      Get(Get(o, "isa").value.entries, "type").Some? && Get(Get(o, "isa").value.entries, "type").value.VRef? &&
      !ClashesWithParameter(Remove(o, "isa")))
  {
    if HasKey(o, "isa") then
      var rest := Remove(o, "isa");
      var isa: Value := Get(o, "isa").value;
      match isa
      case VDict(fields) =>
        var ty: Option<Value> := Get(fields, "type");
        (match ty
         case None => Failed(Crash("KeyError: 'type'"))
         case Some(VRef(t)) =>
           if ClashesWithParameter(rest) then Failed(Crash("TypeError: got multiple values for argument"))
           else Built(SlzObject(rest, t, next))
         case Some(_) => Failed(Unsupported("an object whose type did not parse as a ref")))
      case VContainer(_) =>
        // indexing a container with "type" raises ValueError, which the hook suppresses,
        // so the dict comes back with "isa" already popped
        Suppressed(rest)
      case _ => Failed(Crash("TypeError: 'isa' is not subscriptable"))
    else NoMatch
  }

  /** The Refable classes tried in registration order, types first; the dict if none matches. */
  function RefableFromJson(o: seq<(string, Value)>, base: nat, regs: seq<Element>): Result<(Value, seq<Element>), Halt>
  {
    match TypeFromJson(o)
    case Built(t) => Ok((VElement(t), regs + [t]))
    case Failed(e) => Err(Halt(e, regs))
    case Suppressed(rest) => Ok((VDict(rest), regs))
    case NoMatch =>
      match ObjectFromJson(o, Ref(ObjectKind, base + CountObjects(regs) + 1))
      case Built(obj) => Ok((VElement(obj), regs + [obj]))
      case Failed(e) => Err(Halt(e, regs))
      case Suppressed(rest) => Ok((VDict(rest), regs))
      case NoMatch => Ok((VDict(o), regs))
  }

  /** `object_hook`: refs, then a container, then an `SLZType`, then an `SLZObject`, else the dict. */
  function ObjectHook(o: seq<(string, Value)>, base: nat, regs: seq<Element>): Result<(Value, seq<Element>), Halt>
  {
    match ParseRefKeys(o)
    case Err(e) => Err(Halt(e, regs))
    case Ok(o1) =>
      match TryContainer(o1, [])
      case IsContainer(t) => Ok((VContainer(t), regs))
      case ContainerCrash(e) => Err(Halt(e, regs))
      case NotContainer(o2) => RefableFromJson(o2, base, regs)
  }

  /** What the Refable attempts build, and from which keys. */
  predicate BuiltFromKeys(o: seq<(string, Value)>, base: nat, regs: seq<Element>, v: Value, regs': seq<Element>)
  {
    (v.VElement? && v.e.SlzObject? ==>
      HasKey(o, "isa") && v.e.ref == Ref(ObjectKind, base + CountObjects(regs) + 1) && regs' == regs + [v.e]) &&
    (v.VElement? && v.e.SlzType? ==> HasKey(o, "fullname") && HasKey(o, "type") && regs' == regs + [v.e]) &&
    (!v.VElement? ==> regs' == regs)
  }

  lemma RefableBuildsFromKeys(o: seq<(string, Value)>, base: nat, regs: seq<Element>)
    requires RefableFromJson(o, base, regs).Ok?
    ensures BuiltFromKeys(o, base, regs, RefableFromJson(o, base, regs).value.0, RefableFromJson(o, base, regs).value.1)
  {
  }

  lemma SameKeys(a: seq<(string, Value)>, b: seq<(string, Value)>, k: string)
    requires |a| == |b| && forall i :: 0 <= i < |a| ==> a[i].0 == b[i].0
    ensures HasKey(a, k) <==> HasKey(b, k)
  {
    if HasKey(a, k) {
      var i :| 0 <= i < |a| && a[i].0 == k;
      assert b[i].0 == k;
    }
    if HasKey(b, k) {
      var i :| 0 <= i < |b| && b[i].0 == k;
      assert a[i].0 == k;
    }
  }

  /**
   * What the hook builds and from what: an object only from a dict with "isa", numbered
   * next after the objects already built; a type only from a dict with "fullname" and
   * "type"; anything else registers nothing.
   */
  lemma HookBuildsFromKeys(o: seq<(string, Value)>, base: nat, regs: seq<Element>)
    requires ObjectHook(o, base, regs).Ok?
    ensures BuiltFromKeys(o, base, regs, ObjectHook(o, base, regs).value.0, ObjectHook(o, base, regs).value.1)
  {
    var o1 := ParseRefKeys(o).value;
    ParseRefKeysKeys(o);
    var tc := TryContainer(o1, []);
    if tc.NotContainer? {
      var o2 := tc.o;
      RefableBuildsFromKeys(o2, base, regs);
      SameKeys(o, o1, "isa");
      SameKeys(o, o1, "fullname");
      SameKeys(o, o1, "type");
      SameKeys(o1, o2, "isa");
      SameKeys(o1, o2, "fullname");
      SameKeys(o1, o2, "type");
    }
  }
}
