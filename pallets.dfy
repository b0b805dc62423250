/**
 * `PalletHandler`: download a mod file, extract every `pallet.json` entry of the
 * archive to `<file id>_<k>.json`, locate the pallet object inside each extracted
 * document, and store one pallet row per entry for the file.
 *
 * Downloaded archives and parsed documents are inputs; what is written to disk is
 * read back unchanged.
 */
module Pallets {
  import opened Base
  import opened Text
  import opened Assoc
  import opened JsonData
  import opened Utils
  import opened Models

  /** `PalletHandler.PATH` as written into the stored paths. */
  const Dir := "static/pallets/"

  /** The file id a download timeout is tagged with instead of the real one. */
  const TimeoutFileId := -999

  /** The type name whose entry marks the pallet type. */
  const PalletTypeName := "SLZ.Marrow.Warehouse.Pallet"

  /** `PalletHandler.path`. */
  function PalletPath(fileId: int): string
  {
    Dir + IntToString(fileId) + ".json"
  }

  /** `path.with_stem(path.stem + f"_{k}")`: where the k-th matching entry is extracted. */
  function ExtractPath(fileId: int, k: nat): (r: string)
    ensures StartsWith(r, Dir) && EndsWith(r, ".json")
  {
    var r := Dir + IntToString(fileId) + "_" + NatToString(k) + ".json";
    assert r[..|Dir|] == Dir;
    assert r[|r| - 5..] == ".json";
    r
  }

  /** Extraction paths are distinct: no two (file, index) pairs share one. */
  lemma ExtractPathInjective(a: nat, k: nat, b: nat, l: nat)
    requires ExtractPath(a, k) == ExtractPath(b, l)
    ensures a == b && k == l
  {
    ExtractPathShape(a, k);
    ExtractPathShape(b, l);
    StripPrefix(Dir, NumberedName(a, k), NumberedName(b, l));
    NumberedNameInjective(a, k, b, l);
  }

  /** The file name part of an extraction path. */
  function NumberedName(a: nat, k: nat): string
  {
    NatToString(a) + ("_" + NatToString(k) + ".json")
  }

  lemma ExtractPathShape(a: nat, k: nat)
    ensures ExtractPath(a, k) == Dir + NumberedName(a, k)
  {
  }

  lemma StripPrefix(d: string, s: string, t: string)
    requires d + s == d + t
    ensures s == t
  {
    assert s == (d + s)[|d|..] && t == (d + t)[|d|..];
  }

  /** `<a>_<k>.json` determines `a` and `k`. */
  lemma NumberedNameInjective(a: nat, k: nat, b: nat, l: nat)
    requires NumberedName(a, k) == NumberedName(b, l)
    ensures a == b && k == l
  {
    var x, y := NatToString(a), NatToString(b);
    var u, v := NatToString(k), NatToString(l);
    var s := x + ("_" + u + ".json");
    var t := y + ("_" + v + ".json");
    LeadingDigitsOfDigits(x, "_" + u + ".json");
    LeadingDigitsOfDigits(y, "_" + v + ".json");
    assert x == s[..|x|] && y == t[..|y|];
    NatToStringInjective(a, b);
    var s' := u + ".json";
    var t' := v + ".json";
    assert s' == s[|x| + 1..] && t' == t[|y| + 1..];
    assert u == s'[..|s'| - 5] && v == t'[..|t'| - 5];
    NatToStringInjective(k, l);
  }

  // ---------------------------------------------------------------------------
  // Inputs

  /** What reading an extracted file as UTF-8 JSON gives. */
  datatype Content = NotUtf8 | NotJson | Document(j: Json)

  /** An archive member: its name, whether its compression method is supported, its content. */
  datatype ZipEntry = ZipEntry(name: string, supported: bool, content: Content)

  datatype Archive = BadZip(reason: string) | Zip(entries: seq<ZipEntry>)

  /**
   * The outcome of the download request: a timeout, an error status, a client error
   * raised by the request itself (no connection, a broken transfer), or the body.
   */
  datatype Download = TimedOut | HttpError | ConnectFailed | Body(archive: Archive)

  /** A `PalletLoadError`, or another exception that nothing on the way up catches. */
  datatype Failure = Load(error: LoadError) | Crash(exception: string)

  /** An extracted entry: its name in the archive, where it was written, what it holds. */
  datatype Extracted = Extracted(zipPath: string, fsPath: string, content: Content)

  // ---------------------------------------------------------------------------
  // get_from_zip

  predicate IsPalletEntry(e: ZipEntry)
  {
    EndsWith(e.name, "pallet.json")
  }

  /** The archive members that count as pallets, in archive order. */
  function Matching(entries: seq<ZipEntry>): (r: seq<ZipEntry>)
    ensures forall e :: e in r <==> e in entries && IsPalletEntry(e)
  {
    if entries == [] then []
    else Matching(entries[..|entries| - 1]) +
         (if IsPalletEntry(entries[|entries| - 1]) then [entries[|entries| - 1]] else [])
  }

  /** The extraction loop over a prefix of the members: one file per matching member. */
  function ExtractEntries(fileId: int, entries: seq<ZipEntry>): Result<seq<Extracted>, Failure>
  {
    if entries == [] then Ok([])
    else
      var found :- ExtractEntries(fileId, entries[..|entries| - 1]);
      var e := entries[|entries| - 1];
      if !IsPalletEntry(e) then Ok(found)
      else if !e.supported then Err(Load(LoadError("Unknown Errror", fileId)))
      else Ok(found + [Extracted(e.name, ExtractPath(fileId, |found|), e.content)])
  }

  /**
   * `get_from_zip`.  The "not found" guard compares the count with `< 0`, so an
   * archive without a pallet entry yields an empty list rather than an error.
   */
  function Extract(fileId: int, a: Archive): Result<seq<Extracted>, Failure>
  {
    match a
    case BadZip(reason) => Err(Load(LoadError(reason, fileId)))
    case Zip(entries) =>
      var found :- ExtractEntries(fileId, entries);
      if |found| < 0 then Err(Load(LoadError("pallet.json not found in zip.", fileId))) else Ok(found)
  }

  /**
   * Extraction succeeds exactly when every matching member can be decompressed, and
   * otherwise fails with the "Unknown Errror" load error.
   */
  lemma {:induction false} ExtractEntriesOk(fileId: int, entries: seq<ZipEntry>)
    ensures ExtractEntries(fileId, entries).Ok? <==> forall e :: e in Matching(entries) ==> e.supported
    ensures ExtractEntries(fileId, entries).Err? ==>
      ExtractEntries(fileId, entries).error == Load(LoadError("Unknown Errror", fileId))
  {
    if entries != [] {
      var init := entries[..|entries| - 1];
      var e := entries[|entries| - 1];
      ExtractEntriesOk(fileId, init);
      assert Matching(entries) == Matching(init) + if IsPalletEntry(e) then [e] else [];
    }
  }

  /**
   * A successful extraction yields one file per matching member, in archive order, the
   * k-th written to `<file id>_<k>.json`.
   */
  lemma {:induction false} ExtractEntriesSpec(fileId: int, entries: seq<ZipEntry>)
    ensures ExtractEntries(fileId, entries).Ok? ==>
      var found := ExtractEntries(fileId, entries).value;
      var m := Matching(entries);
      |found| == |m| &&
      forall k :: 0 <= k < |m| ==> found[k] == Extracted(m[k].name, ExtractPath(fileId, k), m[k].content)
  {
    if entries != [] && ExtractEntries(fileId, entries).Ok? {
      var init := entries[..|entries| - 1];
      var e := entries[|entries| - 1];
      ExtractEntriesSpec(fileId, init);
      var mi := Matching(init);
      var fi := ExtractEntries(fileId, init).value;
      assert Matching(entries) == mi + if IsPalletEntry(e) then [e] else [];
      if IsPalletEntry(e) {
        var found := fi + [Extracted(e.name, ExtractPath(fileId, |fi|), e.content)];
        assert ExtractEntries(fileId, entries).value == found;
        var m := mi + [e];
        forall k | 0 <= k < |m|
          ensures found[k] == Extracted(m[k].name, ExtractPath(fileId, k), m[k].content)
        {
          if k < |mi| {
            assert found[k] == fi[k] && m[k] == mi[k];
          } else {
            assert k == |fi| && m[k] == e;
            assert found[k] == Extracted(e.name, ExtractPath(fileId, |fi|), e.content);
          }
        }
      } else {
        assert Matching(entries) == mi;
      }
    }
  }

  /** An archive with no pallet entry extracts nothing and reports no error. */
  lemma NoPalletEntryExtractsNothing(fileId: int, entries: seq<ZipEntry>)
    requires forall e :: e in entries ==> !IsPalletEntry(e)
    ensures Extract(fileId, Zip(entries)) == Ok([])
  {
    NoneMatching(entries);
    ExtractEntriesOk(fileId, entries);
    ExtractEntriesSpec(fileId, entries);
  }

  /** `get_from_zip` with the "not found" guard comparing the count with `== 0`. */
  function ExtractChecked(fileId: int, a: Archive): Result<seq<Extracted>, Failure>
  {
    match a
    case BadZip(reason) => Err(Load(LoadError(reason, fileId)))
    case Zip(entries) =>
      var found :- ExtractEntries(fileId, entries);
      if |found| == 0 then Err(Load(LoadError("pallet.json not found in zip.", fileId))) else Ok(found)
  }

  /**
   * With the `== 0` guard an archive without a pallet entry reports the "not found" load
   * error, and every other archive extracts as before.
   */
  lemma ExtractCheckedNotFound(fileId: int, a: Archive)
    ensures a.Zip? && (forall e :: e in a.entries ==> !IsPalletEntry(e)) ==>
      ExtractChecked(fileId, a) == Err(Load(LoadError("pallet.json not found in zip.", fileId)))
    ensures a.Zip? && (exists e :: e in a.entries && IsPalletEntry(e)) ==> ExtractChecked(fileId, a) == Extract(fileId, a)
    ensures a.BadZip? ==> ExtractChecked(fileId, a) == Extract(fileId, a)
  {
    if a.Zip? {
      ExtractEntriesOk(fileId, a.entries);
      ExtractEntriesSpec(fileId, a.entries);
      if forall e :: e in a.entries ==> !IsPalletEntry(e) {
        NoneMatching(a.entries);
      } else {
        var e :| e in a.entries && IsPalletEntry(e);
        SomeMatching(a.entries, e);
      }
    }
  }

  lemma {:induction false} SomeMatching(entries: seq<ZipEntry>, e: ZipEntry)
    requires e in entries && IsPalletEntry(e)
    ensures e in Matching(entries)
  {
    var last := entries[|entries| - 1];
    if e != last {
      SomeMatching(entries[..|entries| - 1], e);
    }
  }

  lemma {:induction false} NoneMatching(entries: seq<ZipEntry>)
    requires forall e :: e in entries ==> !IsPalletEntry(e)
    ensures Matching(entries) == []
  {
    if entries != [] {
      assert entries[|entries| - 1] in entries;
      NoneMatching(entries[..|entries| - 1]);
    }
  }

  /** The extraction loop, writing each matching member out as it is found. */
  method GetFromZip(fileId: int, a: Archive) returns (r: Result<seq<Extracted>, Failure>)
    ensures r == Extract(fileId, a)
  {
    if a.BadZip? {
      return Err(Load(LoadError(a.reason, fileId)));
    }
    var entries := a.entries;
    var found: seq<Extracted> := [];
    var i := 0;
    while i < |entries|
      invariant 0 <= i <= |entries|
      invariant ExtractEntries(fileId, entries[..i]) == Ok(found)
    {
      assert entries[..i + 1][..i] == entries[..i];
      var e := entries[i];
      if EndsWith(e.name, "pallet.json") {
        if !e.supported {
          assert ExtractEntries(fileId, entries[..i + 1]).Err?;
          ExtractErrorPersists(fileId, entries, i + 1);
          return Err(Load(LoadError("Unknown Errror", fileId)));
        }
        var fsPath := ExtractPath(fileId, |found|);
        found := found + [Extracted(e.name, fsPath, e.content)];
      }
      i := i + 1;
    }
    assert entries[..i] == entries;
    r := if |found| < 0 then Err(Load(LoadError("pallet.json not found in zip.", fileId))) else Ok(found);
  }

  /** Once extraction of a prefix fails, extraction of the whole list fails the same way. */
  lemma {:induction false} ExtractErrorPersists(fileId: int, entries: seq<ZipEntry>, n: nat)
    requires n <= |entries| && ExtractEntries(fileId, entries[..n]).Err?
    ensures ExtractEntries(fileId, entries) == ExtractEntries(fileId, entries[..n])
    decreases |entries| - n
  {
    if n < |entries| {
      assert entries[..n + 1][..n] == entries[..n];
      ExtractErrorPersists(fileId, entries, n + 1);
    } else {
      assert entries[..n] == entries;
    }
  }

  // ---------------------------------------------------------------------------
  // _read_pallet_content

  function LoadErr(msg: string, fileId: int): Failure
  {
    Load(LoadError(msg, fileId))
  }

  /** `d[key]` on a JSON value: a non-object raises `TypeError`, a missing key `KeyError`. */
  function Index(j: Json, key: string): Result<Json, Failure>
  {
    if !j.JObj? then Err(Crash("TypeError"))
    else match Get(FromPairs(j.entries), key)
      case None => Err(Crash("KeyError"))
      case Some(v) => Ok(v)
  }

  /** `needle in v`: substring for text, element for a list, key for a dict. */
  function In(needle: string, v: Json): Result<bool, Failure>
  {
    match v
    case JStr(s) => Ok(Contains(s, needle))
    case JArr(items) => Ok(JStr(needle) in items)
    case JObj(entries) => Ok(HasKey(FromPairs(entries), needle))
    case _ => Err(Crash("TypeError"))
  }

  /**
   * Both loops of `_read_pallet_content`: test every item in turn and keep the last
   * one that passes; an exception raised by a test ends the scan.
   */
  function ScanLast<T>(xs: seq<T>, test: T -> Result<bool, Failure>): Result<Option<T>, Failure>
  {
    if xs == [] then Ok(None)
    else
      match ScanLast(xs[..|xs| - 1], test)
      case Err(e) => Err(e)
      case Ok(found) =>
        match test(xs[|xs| - 1])
        case Err(e) => Err(e)
        case Ok(hit) => Ok(if hit then Some(xs[|xs| - 1]) else found)
  }

  /** Item `i` passes the test and no later item does. */
  predicate LastPassing<T>(xs: seq<T>, test: T -> Result<bool, Failure>, i: int)
    requires 0 <= i < |xs|
  {
    test(xs[i]) == Ok(true) && forall j :: i < j < |xs| ==> test(xs[j]) == Ok(false)
  }

  /** The scan succeeds only when testing every item succeeds. */
  lemma {:induction false} ScanLastTestsAll<T>(xs: seq<T>, test: T -> Result<bool, Failure>)
    requires ScanLast(xs, test).Ok?
    ensures forall i :: 0 <= i < |xs| ==> test(xs[i]).Ok?
  {
    if xs != [] {
      var init := xs[..|xs| - 1];
      ScanLastTestsAll(init, test);
      forall i | 0 <= i < |xs| - 1 ensures test(xs[i]).Ok? {
        assert xs[i] == init[i];
      }
    }
  }

  /** Nothing is found exactly when every item fails the test. */
  lemma {:induction false} ScanLastNone<T>(xs: seq<T>, test: T -> Result<bool, Failure>)
    requires ScanLast(xs, test).Ok?
    ensures ScanLast(xs, test).value.None? <==> forall i :: 0 <= i < |xs| ==> test(xs[i]) == Ok(false)
  {
    if xs != [] {
      var init := xs[..|xs| - 1];
      ScanLastNone(init, test);
      if ScanLast(xs, test).value.None? {
        forall i | 0 <= i < |xs| - 1 ensures test(xs[i]) == Ok(false) {
          assert xs[i] == init[i];
        }
      } else if test(xs[|xs| - 1]) == Ok(false) {
        var i :| 0 <= i < |init| && test(init[i]) != Ok(false);
        assert xs[i] == init[i];
      }
    }
  }

  /** What is found is the LAST item that passes the test. */
  lemma {:induction false} ScanLastFindsLast<T>(xs: seq<T>, test: T -> Result<bool, Failure>)
    requires ScanLast(xs, test).Ok? && ScanLast(xs, test).value.Some?
    ensures exists i :: 0 <= i < |xs| && LastPassing(xs, test, i) && xs[i] == ScanLast(xs, test).value.value
  {
    var init := xs[..|xs| - 1];
    var n := |xs| - 1;
    var hit := test(xs[n]);
    assert ScanLast(init, test).Ok? && hit.Ok?;
    if !hit.value {
      assert ScanLast(xs, test) == ScanLast(init, test);
      ScanLastFindsLast(init, test);
      var i :| 0 <= i < |init| && LastPassing(init, test, i) && init[i] == ScanLast(init, test).value.value;
      LastPassingExtend(init, xs[n], test, i);
      assert xs == init + [xs[n]];
    } else {
      assert LastPassing(xs, test, n);
    }
  }

  lemma LastPassingExtend<T>(init: seq<T>, x: T, test: T -> Result<bool, Failure>, i: int)
    requires 0 <= i < |init| && LastPassing(init, test, i)
    requires test(x) == Ok(false)
    ensures LastPassing(init + [x], test, i)
  {
    var xs := init + [x];
    forall j | i < j < |xs| ensures test(xs[j]) == Ok(false) {
      if j < |init| {
        assert xs[j] == init[j];
      }
    }
  }

  /** Once scanning a prefix fails, scanning the whole sequence fails the same way. */
  lemma {:induction false} ScanLastErrorPersists<T>(xs: seq<T>, test: T -> Result<bool, Failure>, n: nat)
    requires n <= |xs| && ScanLast(xs[..n], test).Err?
    ensures ScanLast(xs, test) == ScanLast(xs[..n], test)
    decreases |xs| - n
  {
    if n < |xs| {
      assert xs[..n + 1][..n] == xs[..n];
      ScanLastErrorPersists(xs, test, n + 1);
    } else {
      assert xs[..n] == xs;
    }
  }

  /** The test of the first loop: `"SLZ.Marrow.Warehouse.Pallet" in typ["fullname"]`. */
  function NamesPallet(entry: (string, Json)): Result<bool, Failure>
  {
    var fullname :- Index(entry.1, "fullname");
    In(PalletTypeName, fullname)
  }

  /** The test of the second loop: `obj["isa"]["type"] == pallet_key`. */
  function HasType(key: string): Json -> Result<bool, Failure>
  {
    obj => IsPalletObject(obj, key)
  }

  function IsPalletObject(obj: Json, key: string): Result<bool, Failure>
  {
    var isa :- Index(obj, "isa");
    var typ :- Index(isa, "type");
    Ok(typ == JStr(key))
  }

  function Values(entries: seq<(string, Json)>): (r: seq<Json>)
    ensures |r| == |entries| && forall i :: 0 <= i < |r| ==> r[i] == entries[i].1
  {
    if entries == [] then [] else Values(entries[..|entries| - 1]) + [entries[|entries| - 1].1]
  }

  /** `data.get("types")` on a parsed document: only a dict has `.get`. */
  function TypesOf(data: Json): Result<Option<Json>, Failure>
  {
    if !data.JObj? then Err(Crash("AttributeError"))
    else match Get(FromPairs(data.entries), "types")
      case None => Ok(None)
      case Some(t) => if t.JNull? then Ok(None) else Ok(Some(t))
  }

  /** `_read_pallet_content`: the pallet object of a parsed pallet document. */
  function PalletObject(data: Json, fileId: int): Result<Json, Failure>
  {
    var types :- TypesOf(data);
    if types.None? then Err(LoadErr("Could not find \"types\" in json", fileId))
    else if !types.value.JObj? then Err(Crash("AttributeError"))
    else
      var entry :- ScanLast(FromPairs(types.value.entries), NamesPallet);
      if entry.None? then Err(LoadErr("Could not find key for SLZ.Marrow.Warehouse.Pallet", fileId))
      else
        var key := entry.value.0;
        var objects :- Index(data, "objects");
        if !objects.JObj? then Err(Crash("AttributeError"))
        else
          var obj :- ScanLast(Values(FromPairs(objects.entries)), HasType(key));
          if obj.None? then Err(LoadErr("No object with key " + key + " found in pallet.", fileId))
          else Ok(obj.value)
  }

  /**
   * The pallet object found is the last object whose `isa.type` is the key of the
   * last types entry naming the pallet type.
   */
  lemma PalletObjectIsTyped(data: Json, fileId: int)
    requires PalletObject(data, fileId).Ok?
    ensures exists i, k ::
      var es := FromPairs(TypesOf(data).value.value.entries);
      var vs := Values(FromPairs(Index(data, "objects").value.entries));
      0 <= i < |es| && LastPassing(es, NamesPallet, i) &&
      0 <= k < |vs| && LastPassing(vs, HasType(es[i].0), k) && vs[k] == PalletObject(data, fileId).value
  {
    var es := FromPairs(TypesOf(data).value.value.entries);
    ScanLastFindsLast(es, NamesPallet);
    var i :| 0 <= i < |es| && LastPassing(es, NamesPallet, i) && es[i] == ScanLast(es, NamesPallet).value.value;
    var vs := Values(FromPairs(Index(data, "objects").value.entries));
    ScanLastFindsLast(vs, HasType(es[i].0));
  }

  /** The first loop of `_read_pallet_content`: the last types entry naming the pallet type wins. */
  method FindPalletKey(typeItems: seq<(string, Json)>) returns (r: Result<Option<string>, Failure>)
    ensures ScanLast(typeItems, NamesPallet).Err? ==> r == Err(ScanLast(typeItems, NamesPallet).error)
    ensures ScanLast(typeItems, NamesPallet).Ok? ==>
      r.Ok? && r.value == (if ScanLast(typeItems, NamesPallet).value.None? then None
                           else Some(ScanLast(typeItems, NamesPallet).value.value.0))
  {
    var palletKey: Option<string> := None;
    ghost var entry: Option<(string, Json)> := None;
    var i := 0;
    while i < |typeItems|
      invariant 0 <= i <= |typeItems|
      invariant ScanLast(typeItems[..i], NamesPallet) == Ok(entry)
      invariant palletKey == if entry.None? then None else Some(entry.value.0)
    {
      assert typeItems[..i + 1][..i] == typeItems[..i];
      var hit := NamesPallet(typeItems[i]);
      if hit.Err? {
        ScanLastErrorPersists(typeItems, NamesPallet, i + 1);
        return Err(hit.error);
      }
      if hit.value {
        palletKey := Some(typeItems[i].0);
        entry := Some(typeItems[i]);
      }
      i := i + 1;
    }
    assert typeItems[..i] == typeItems;
    r := Ok(palletKey);
  }

  /** The second loop: the last object whose `isa.type` is the key wins. */
  method FindPalletObject(values: seq<Json>, key: string) returns (r: Result<Option<Json>, Failure>)
    ensures r == ScanLast(values, HasType(key))
  {
    var palletObj: Option<Json> := None;
    var i := 0;
    while i < |values|
      invariant 0 <= i <= |values|
      invariant ScanLast(values[..i], HasType(key)) == Ok(palletObj)
    {
      assert values[..i + 1][..i] == values[..i];
      var hit := IsPalletObject(values[i], key);
      if hit.Err? {
        ScanLastErrorPersists(values, HasType(key), i + 1);
        return Err(hit.error);
      }
      if hit.value {
        palletObj := Some(values[i]);
      }
      i := i + 1;
    }
    assert values[..i] == values;
    r := Ok(palletObj);
  }

  /** `_read_pallet_content` with its two overwriting loops. */
  method ReadPalletContent(data: Json, fileId: int) returns (r: Result<Json, Failure>)
    ensures r == PalletObject(data, fileId)
  {
    var types := TypesOf(data);
    if types.Err? {
      return Err(types.error);
    }
    if types.value.None? {
      return Err(LoadErr("Could not find \"types\" in json", fileId));
    }
    if !types.value.value.JObj? {
      return Err(Crash("AttributeError"));
    }
    var palletKey := FindPalletKey(FromPairs(types.value.value.entries));
    if palletKey.Err? {
      return Err(palletKey.error);
    }
    if palletKey.value.None? {
      return Err(LoadErr("Could not find key for SLZ.Marrow.Warehouse.Pallet", fileId));
    }
    var objects := Index(data, "objects");
    if objects.Err? {
      return Err(objects.error);
    }
    if !objects.value.JObj? {
      return Err(Crash("AttributeError"));
    }
    var palletObj := FindPalletObject(Values(FromPairs(objects.value.entries)), palletKey.value.value);
    if palletObj.Err? {
      return Err(palletObj.error);
    }
    if palletObj.value.None? {
      return Err(LoadErr("No object with key " + palletKey.value.value + " found in pallet.", fileId));
    }
    r := Ok(palletObj.value.value);
  }

  // ---------------------------------------------------------------------------
  // run

  /** `get_pallet_content`: read the extracted file back and locate the pallet object. */
  function PalletContent(c: Content, fileId: int): Result<Json, Failure>
  {
    match c
    case NotUtf8 => Err(LoadErr("Pallet is not UTF-8", fileId))
    case NotJson => Err(Crash("JSONDecodeError"))
    case Document(j) => PalletObject(j, fileId)
  }

  /**
   * The text a `TextField` column stores for a JSON value: the ORM converts it with
   * `str()`, so an integer is stored in decimal and a boolean as `True` or `False`.
   * `null` violates the column's NOT NULL constraint.
   */
  function StoredText(v: Json): Result<string, Failure>
  {
    match v
    case JStr(s) => Ok(s)
    case JInt(i) => Ok(IntToString(i))
    case JBool(b) => Ok(if b then "True" else "False")
    case JNull => Err(Crash("IntegrityError"))
    case _ => Err(Crash("unsupported field value"))
  }

  /** `data[key]` for one of the copied text fields, as the column stores it. */
  function TextField(obj: Json, key: string): (r: Result<string, Failure>)
    ensures r.Ok? <==> Index(obj, key).Ok? && StoredText(Index(obj, key).value).Ok?
    ensures r.Ok? ==> r.value == StoredText(Index(obj, key).value).value
  {
    var v :- Index(obj, key);
    StoredText(v)
  }

  /** A string field is stored as it is; an integer field as its decimal digits, read back as the integer. */
  lemma StoredTextScalars(s: string, n: nat)
    ensures StoredText(JStr(s)) == Ok(s)
    ensures StoredText(JInt(n)).Ok? && AllDigits(StoredText(JInt(n)).value) && Value(StoredText(JInt(n)).value) == n
    ensures StoredText(JNull).Err?
  {
    ValueOfNatToString(n);
  }

  /** The row stored for one extracted pallet. */
  function PalletRowOf(x: Extracted, obj: Json): (r: Result<PalletRow, Failure>)
    ensures r.Ok? ==> r.value.zipPath == x.zipPath && r.value.fsPath == x.fsPath
    ensures r.Ok? ==> Index(obj, "barcode").Ok? && StoredText(Index(obj, "barcode").value) == Ok(r.value.barcode)
    ensures r.Ok? ==> Index(obj, "author").Ok? && StoredText(Index(obj, "author").value) == Ok(r.value.author)
    ensures r.Ok? ==> Index(obj, "version").Ok? && StoredText(Index(obj, "version").value) == Ok(r.value.version)
    ensures r.Ok? ==> Index(obj, "sdkVersion").Ok? && StoredText(Index(obj, "sdkVersion").value) == Ok(r.value.sdkVersion)
    ensures r.Err? <==> TextField(obj, "barcode").Err? || TextField(obj, "author").Err? ||
                        TextField(obj, "version").Err? || TextField(obj, "sdkVersion").Err?
    // a failed lookup wins over a value that cannot be stored, wherever that value is
    ensures Index(obj, "barcode").Err? ==> r == Err(Index(obj, "barcode").error)
    ensures Index(obj, "author").Err? ==> r == Err(Index(obj, "author").error)
    ensures Index(obj, "version").Err? ==> r == Err(Index(obj, "version").error)
    ensures Index(obj, "sdkVersion").Err? ==> r == Err(Index(obj, "sdkVersion").error)
  {
    // The four `data[...]` lookups are the call's arguments: all of them run before any value is stored.
    var b :- Index(obj, "barcode");
    var a :- Index(obj, "author");
    var v :- Index(obj, "version");
    var s :- Index(obj, "sdkVersion");
    var barcode :- StoredText(b);
    var author :- StoredText(a);
    var version :- StoredText(v);
    var sdk :- StoredText(s);
    Ok(PalletRow(x.zipPath, x.fsPath, barcode, author, version, sdk))
  }

  /** A missing `sdkVersion` raises `KeyError` even when an earlier field is null. */
  lemma MissingKeyBeforeNull(x: Extracted)
    ensures PalletRowOf(x, JObj([("barcode", JNull), ("author", JStr("a")), ("version", JStr("1"))])) == Err(Crash("KeyError"))
  {
    var o := [("barcode", JNull), ("author", JStr("a")), ("version", JStr("1"))];
    FromPairsOfDistinct(o);
    assert Find(o, "barcode") == Some(0);
    assert Find(o, "author") == Some(1);
    assert Find(o, "version") == Some(2);
    assert !HasKey(o, "sdkVersion");
  }

  /** The store after saving the pallets of the extracted files, one after another. */
  function SavePallets(s: Store, p: Platform, fid: int, items: seq<Extracted>): (Store, Result<(), Failure>)
    decreases |items|
  {
    if items == [] then (s, Ok(()))
    else
      match PalletContent(items[0].content, fid)
      case Err(e) => (s, Err(e))
      case Ok(obj) =>
        match PalletRowOf(items[0], obj)
        case Err(e) => (s, Err(e))
        case Ok(row) =>
          match InsertPallet(s, p, fid, row)
          case Err(e) => (s, Err(Crash(e)))
          case Ok(s1) => SavePallets(s1, p, fid, items[1..])
  }

  /** `PalletHandler.run` for one file, given the outcome of its download. */
  function LoadPallets(s: Store, p: Platform, file: FileRow, d: Download): (r: (Store, Result<(), Failure>))
    ensures PalletsOf(s, p, file.id) != [] ==> r == (s, Ok(()))
    ensures PalletsOf(s, p, file.id) == [] && d.TimedOut? ==>
      r == (s, Err(LoadErr("Could not downlaod mod file", TimeoutFileId)))
    ensures PalletsOf(s, p, file.id) == [] && d.HttpError? ==>
      r == (s, Err(LoadErr("Could not open mod file url", file.id)))
    ensures PalletsOf(s, p, file.id) == [] && d.ConnectFailed? ==> r == (s, Err(Crash("ClientConnectorError")))
    ensures PalletsOf(s, p, file.id) == [] && d.Body? && d.archive.BadZip? ==>
      r == (s, Err(LoadErr(d.archive.reason, file.id)))
    ensures PalletsOf(s, p, file.id) == [] && d.Body? && Extract(file.id, d.archive).Err? ==>
      r == (s, Err(Extract(file.id, d.archive).error))
    ensures PalletsOf(s, p, file.id) == [] && d.Body? && Extract(file.id, d.archive).Ok? ==>
      r == SavePallets(s, p, file.id, Extract(file.id, d.archive).value)
  {
    if PalletsOf(s, p, file.id) != [] then (s, Ok(()))
    else match d
      case TimedOut => (s, Err(LoadErr("Could not downlaod mod file", TimeoutFileId)))
      case HttpError => (s, Err(LoadErr("Could not open mod file url", file.id)))
      case ConnectFailed => (s, Err(Crash("ClientConnectorError")))
      case Body(a) =>
        match Extract(file.id, a)
        case Err(e) => (s, Err(e))
        case Ok(items) => SavePallets(s, p, file.id, items)
  }

  /** The row one iteration of the loop stores for an extracted file, or why it stops. */
  function RowOfItem(x: Extracted, fid: int): Result<PalletRow, Failure>
  {
    var obj :- PalletContent(x.content, fid);
    PalletRowOf(x, obj)
  }

  /**
   * Row `k` is the row of extracted file `k`: its archive name, its extraction path, and
   * the four fields of the pallet object read back from it.
   */
  predicate RowsMatch(rows: seq<PalletRow>, items: seq<Extracted>, fid: int)
  {
    |rows| == |items| && forall k :: 0 <= k < |items| ==> RowOfItem(items[k], fid) == Ok(rows[k])
  }

  lemma RowsMatchCons(row: PalletRow, rows: seq<PalletRow>, items: seq<Extracted>, fid: int)
    requires items != [] && RowOfItem(items[0], fid) == Ok(row)
    requires RowsMatch(rows, items[1..], fid)
    ensures RowsMatch([row] + rows, items, fid)
  {
    forall k | 0 <= k < |items|
      ensures RowOfItem(items[k], fid) == Ok(([row] + rows)[k])
    {
      if k > 0 {
        assert ([row] + rows)[k] == rows[k - 1] && items[k] == items[1..][k - 1];
      }
    }
  }

  /**
   * A successful save of all extracted files leaves mods, files and errors alone and
   * appends to the file's pallets one row per extracted file, in order, with its
   * archive name, its extraction path and the fields of its pallet object.
   */
  lemma {:induction false} SavePalletsRows(s: Store, p: Platform, fid: int, items: seq<Extracted>)
    requires SavePallets(s, p, fid, items).1.Ok?
    ensures SavePallets(s, p, fid, items).0.mods == s.mods
    ensures SavePallets(s, p, fid, items).0.files == s.files
    ensures SavePallets(s, p, fid, items).0.errors == s.errors
    ensures |PalletsOf(SavePallets(s, p, fid, items).0, p, fid)| >= |PalletsOf(s, p, fid)|
    ensures PalletsOf(SavePallets(s, p, fid, items).0, p, fid) ==
      PalletsOf(s, p, fid) + PalletsOf(SavePallets(s, p, fid, items).0, p, fid)[|PalletsOf(s, p, fid)|..]
    ensures RowsMatch(PalletsOf(SavePallets(s, p, fid, items).0, p, fid)[|PalletsOf(s, p, fid)|..], items, fid)
    decreases |items|
  {
    if items != [] {
      var obj := PalletContent(items[0].content, fid).value;
      var row := PalletRowOf(items[0], obj).value;
      var s1 := InsertPallet(s, p, fid, row).value;
      assert SavePallets(s, p, fid, items) == SavePallets(s1, p, fid, items[1..]);
      SavePalletsRows(s1, p, fid, items[1..]);
      var old0 := PalletsOf(s, p, fid);
      var mid := PalletsOf(s1, p, fid);
      var fin := PalletsOf(SavePallets(s1, p, fid, items[1..]).0, p, fid);
      assert mid == old0 + [row];
      var tail := fin[|mid|..];
      assert fin == mid + tail;
      Reassoc(fin, old0, row, tail);
      assert RowOfItem(items[0], fid) == Ok(row);
      RowsMatchCons(row, tail, items, fid);
    }
  }

  lemma Reassoc<T>(fin: seq<T>, a: seq<T>, x: T, tail: seq<T>)
    requires fin == (a + [x]) + tail
    ensures fin == a + ([x] + tail) && fin[|a|..] == [x] + tail
  {
  }

  /** `r` differs from `s` at most in the pallets of file `fid` of platform `p`. */
  ghost predicate OnlyPalletsOf(s: Store, r: Store, p: Platform, fid: int)
  {
    r.mods == s.mods && r.files == s.files && r.errors == s.errors &&
    forall q, g :: (q, g) != (p, fid) ==> PalletsOf(r, q, g) == PalletsOf(s, q, g)
  }

  lemma OnlyPalletsOfTrans(s: Store, t: Store, r: Store, p: Platform, fid: int)
    requires OnlyPalletsOf(s, t, p, fid) && OnlyPalletsOf(t, r, p, fid)
    ensures OnlyPalletsOf(s, r, p, fid)
  {
  }

  /**
   * Whatever the outcome, saving touches only the pallets of the one file: mods,
   * files, errors and every other file's pallets are left as they were.
   */
  lemma {:induction false} SavePalletsFrame(s: Store, p: Platform, fid: int, items: seq<Extracted>)
    ensures OnlyPalletsOf(s, SavePallets(s, p, fid, items).0, p, fid)
    decreases |items|
  {
    var c := if items == [] then Err(Crash("")) else PalletContent(items[0].content, fid);
    var row := if c.Err? then Err(c.error) else PalletRowOf(items[0], c.value);
    var ins := if row.Err? then Err("") else InsertPallet(s, p, fid, row.value);
    if ins.Ok? {
      assert SavePallets(s, p, fid, items) == SavePallets(ins.value, p, fid, items[1..]);
      InsertPalletOnlyPalletsOf(s, p, fid, row.value);
      SavePalletsFrame(ins.value, p, fid, items[1..]);
      OnlyPalletsOfTrans(s, ins.value, SavePallets(ins.value, p, fid, items[1..]).0, p, fid);
    } else {
      assert SavePallets(s, p, fid, items).0 == s;
      OnlyPalletsOfRefl(s, p, fid);
    }
  }

  lemma InsertPalletOnlyPalletsOf(s: Store, p: Platform, fid: int, row: PalletRow)
    requires InsertPallet(s, p, fid, row).Ok?
    ensures OnlyPalletsOf(s, InsertPallet(s, p, fid, row).value, p, fid)
  {
  }

  lemma OnlyPalletsOfRefl(s: Store, p: Platform, fid: int)
    ensures OnlyPalletsOf(s, s, p, fid)
  {
  }

  /** `run` for one file touches only that file's pallets. */
  lemma LoadPalletsFrame(s: Store, p: Platform, file: FileRow, d: Download)
    ensures OnlyPalletsOf(s, LoadPallets(s, p, file, d).0, p, file.id)
  {
    if PalletsOf(s, p, file.id) == [] && d.Body? && Extract(file.id, d.archive).Ok? {
      SavePalletsFrame(s, p, file.id, Extract(file.id, d.archive).value);
    }
  }

  /**
   * A successful run on a file without pallets stores one pallet per matching member:
   * the k-th row names the k-th member, its path `<id>_<k>.json`, and holds the
   * fields of the pallet object read from that member.
   */
  lemma RunStoresOnePalletPerEntry(s: Store, p: Platform, file: FileRow, entries: seq<ZipEntry>)
    requires PalletsOf(s, p, file.id) == []
    requires LoadPallets(s, p, file, Body(Zip(entries))).1.Ok?
    ensures |PalletsOf(LoadPallets(s, p, file, Body(Zip(entries))).0, p, file.id)| == |Matching(entries)|
    ensures forall k :: 0 <= k < |Matching(entries)| ==>
      var row := PalletsOf(LoadPallets(s, p, file, Body(Zip(entries))).0, p, file.id)[k];
      var m := Matching(entries)[k];
      row.zipPath == m.name && row.fsPath == ExtractPath(file.id, k) &&
      RowOfItem(Extracted(m.name, ExtractPath(file.id, k), m.content), file.id) == Ok(row)
  {
    var items := Extract(file.id, Zip(entries)).value;
    var m := Matching(entries);
    assert |items| == |m| && forall k :: 0 <= k < |m| ==> items[k] == Extracted(m[k].name, ExtractPath(file.id, k), m[k].content) by {
      ExtractEntriesSpec(file.id, entries);
    }
    var saved := SavePallets(s, p, file.id, items);
    assert LoadPallets(s, p, file, Body(Zip(entries))) == saved;
    var rows := PalletsOf(saved.0, p, file.id);
    assert RowsMatch(rows, items, file.id) by {
      SavePalletsRows(s, p, file.id, items);
      assert rows[0..] == rows;
    }
    RowsOfMatching(rows, items, m, file.id);
  }

  /** Rows matching the files extracted from the matching members, read per member. */
  lemma RowsOfMatching(rows: seq<PalletRow>, items: seq<Extracted>, m: seq<ZipEntry>, fid: int)
    requires RowsMatch(rows, items, fid) && |items| == |m|
    requires forall k :: 0 <= k < |m| ==> items[k] == Extracted(m[k].name, ExtractPath(fid, k), m[k].content)
    ensures |rows| == |m|
    ensures forall k :: 0 <= k < |m| ==>
      rows[k].zipPath == m[k].name && rows[k].fsPath == ExtractPath(fid, k) &&
      RowOfItem(Extracted(m[k].name, ExtractPath(fid, k), m[k].content), fid) == Ok(rows[k])
  {
    forall k | 0 <= k < |m|
      ensures rows[k].zipPath == m[k].name && rows[k].fsPath == ExtractPath(fid, k)
    {
      RowOfItemPaths(items[k], fid);
    }
  }

  /** A stored row keeps the archive name and extraction path of its file. */
  lemma RowOfItemPaths(x: Extracted, fid: int)
    ensures RowOfItem(x, fid).Ok? ==> RowOfItem(x, fid).value.zipPath == x.zipPath && RowOfItem(x, fid).value.fsPath == x.fsPath
  {
  }

  lemma {:induction false} SavePalletsAppend(s: Store, p: Platform, fid: int, a: seq<Extracted>, b: seq<Extracted>)
    ensures SavePallets(s, p, fid, a + b) ==
      (var (s1, e) := SavePallets(s, p, fid, a);
       if e.Err? then (s1, e) else SavePallets(s1, p, fid, b))
    decreases |a|
  {
    if a != [] {
      assert (a + b)[0] == a[0] && (a + b)[1..] == a[1..] + b;
      match PalletContent(a[0].content, fid)
      case Err(_) =>
      case Ok(obj) =>
        match PalletRowOf(a[0], obj)
        case Err(_) =>
        case Ok(row) =>
          match InsertPallet(s, p, fid, row)
          case Err(_) =>
          case Ok(s1) => SavePalletsAppend(s1, p, fid, a[1..], b);
    } else {
      assert a + b == b;
    }
  }

  lemma SavePalletsSnoc(s: Store, p: Platform, fid: int, a: seq<Extracted>, x: Extracted)
    requires SavePallets(s, p, fid, a).1.Ok?
    ensures SavePallets(s, p, fid, a + [x]) == SavePallets(SavePallets(s, p, fid, a).0, p, fid, [x])
  {
    SavePalletsAppend(s, p, fid, a, [x]);
  }

  lemma SavePalletsErrorPersists(s: Store, p: Platform, fid: int, a: seq<Extracted>, b: seq<Extracted>)
    requires SavePallets(s, p, fid, a).1.Err?
    ensures SavePallets(s, p, fid, a + b) == SavePallets(s, p, fid, a)
  {
    SavePalletsAppend(s, p, fid, a, b);
  }

  /** `PalletHandler.run`. */
  method Run(db: Db, p: Platform, file: FileRow, d: Download) returns (r: Result<(), Failure>)
    modifies db
    ensures db.State() == LoadPallets(old(db.State()), p, file, d).0
    ensures r == LoadPallets(old(db.State()), p, file, d).1
  {
    if PalletsOf(db.State(), p, file.id) != [] {
      return Ok(());
    }
    if d.TimedOut? {
      return Err(LoadErr("Could not downlaod mod file", TimeoutFileId));
    }
    if d.HttpError? {
      return Err(LoadErr("Could not open mod file url", file.id));
    }
    if d.ConnectFailed? {
      return Err(Crash("ClientConnectorError"));
    }
    var extracted := GetFromZip(file.id, d.archive);
    if extracted.Err? {
      return Err(extracted.error);
    }
    var items := extracted.value;
    r := SaveAll(db, p, file.id, items);
  }

  /** The loop of `run` over the extracted files. */
  method SaveAll(db: Db, p: Platform, fid: int, items: seq<Extracted>) returns (r: Result<(), Failure>)
    modifies db
    ensures db.State() == SavePallets(old(db.State()), p, fid, items).0
    ensures r == SavePallets(old(db.State()), p, fid, items).1
  {
    ghost var s0 := db.State();
    assert items[..0] == [];
    var i := 0;
    while i < |items|
      invariant 0 <= i <= |items|
      invariant SavePallets(s0, p, fid, items[..i]) == (db.State(), Ok(()))
    {
      r := SaveStep(db, p, fid, items, i, s0);
      if r.Err? {
        return;
      }
      i := i + 1;
    }
    assert items[..i] == items;
    r := Ok(());
  }

  /** Iteration `i` of the loop, stated against the saves of the whole list. */
  method SaveStep(db: Db, p: Platform, fid: int, items: seq<Extracted>, i: nat, ghost s0: Store)
    returns (e: Result<(), Failure>)
    requires i < |items| && SavePallets(s0, p, fid, items[..i]) == (db.State(), Ok(()))
    modifies db
    ensures e.Ok? ==> SavePallets(s0, p, fid, items[..i + 1]) == (db.State(), Ok(()))
    ensures e.Err? ==> SavePallets(s0, p, fid, items) == (db.State(), e)
  {
    ghost var s := db.State();
    e := SaveOne(db, p, fid, items[i]);
    SaveStepSaves(s0, p, fid, items, i, s, db.State(), e);
  }

  /** Saving item `i` after the first `i` continues the saves of the whole list. */
  lemma SaveStepSaves(s0: Store, p: Platform, fid: int, items: seq<Extracted>, i: nat, s: Store,
                      s2: Store, e: Result<(), Failure>)
    requires i < |items| && SavePallets(s0, p, fid, items[..i]) == (s, Ok(()))
    requires s2 == SavePallets(s, p, fid, [items[i]]).0 && e == SavePallets(s, p, fid, [items[i]]).1
    ensures e.Ok? ==> SavePallets(s0, p, fid, items[..i + 1]) == (s2, Ok(()))
    ensures e.Err? ==> SavePallets(s0, p, fid, items) == (s2, e)
  {
    SplitAt(items, i);
    var t := SavePallets(s, p, fid, [items[i]]);
    SavePalletsSnoc(s0, p, fid, items[..i], items[i]);
    assert SavePallets(s0, p, fid, items[..i + 1]) == t;
    SavedPair(t, s2, e);
    if e.Err? {
      SavePalletsErrorPersists(s0, p, fid, items[..i + 1], items[i + 1..]);
    }
  }

  lemma SavedPair(t: (Store, Result<(), Failure>), s2: Store, e: Result<(), Failure>)
    requires s2 == t.0 && e == t.1
    ensures t == (s2, e)
    ensures e.Ok? ==> t == (s2, Ok(()))
  {
    if e.Ok? {
      assert e.value == ();
    }
  }

  lemma SplitAt<T>(xs: seq<T>, i: nat)
    requires i < |xs|
    ensures xs[..i + 1] == xs[..i] + [xs[i]]
    ensures xs[..i + 1] + xs[i + 1..] == xs
  {
  }

  /** One iteration of the loop: read the extracted file back and store its pallet row. */
  method SaveOne(db: Db, p: Platform, fid: int, x: Extracted) returns (r: Result<(), Failure>)
    modifies db
    ensures db.State() == SavePallets(old(db.State()), p, fid, [x]).0
    ensures r == SavePallets(old(db.State()), p, fid, [x]).1
  {
    var obj := ReadBack(x, fid);
    if obj.Err? {
      return Err(obj.error);
    }
    var row := PalletRowOf(x, obj.value);
    if row.Err? {
      return Err(row.error);
    }
    var saved := InsertPallet(db.State(), p, fid, row.value);
    if saved.Err? {
      return Err(Crash(saved.error));
    }
    assert [x][1..] == [];
    db.Commit(saved.value);
    r := Ok(());
  }

  /** `get_pallet_content` on a freshly extracted file. */
  method ReadBack(x: Extracted, fileId: int) returns (r: Result<Json, Failure>)
    ensures r == PalletContent(x.content, fileId)
  {
    match x.content
    case NotUtf8 => r := Err(LoadErr("Pallet is not UTF-8", fileId));
    case NotJson => r := Err(Crash("JSONDecodeError"));
    case Document(j) => r := ReadPalletContent(j, fileId);
  }
}
