/**
 * The manifest builder: one repository document made of the serialiser's types and
 * objects.  It registers three types and a root object when created; each mod with at
 * least one pallet then adds one target object per platform file and one listing.
 *
 * Every element is numbered by the registry it is constructed in, which all
 * repository files share.
 */
module RepositoryFiles {
  import opened Base
  import opened Text
  import opened Assoc
  import opened SlzJson
  import opened Models
  import Pallets

  const RepositoryTypeName := "SLZ.Marrow.Forklift.Model.ModRepository, SLZ.Marrow.SDK, Version=0.0.0.0, Culture=neutral, PublicKeyToken=null"
  const ListingTypeName := "SLZ.Marrow.Forklift.Model.ModListing, SLZ.Marrow.SDK, Version=0.0.0.0, Culture=neutral, PublicKeyToken=null"
  const TargetTypeName := "SLZ.Marrow.Forklift.Model.DownloadableModTarget, SLZ.Marrow.SDK, Version=0.0.0.0, Culture=neutral, PublicKeyToken=null"

  /** The document's root entry names this object token, whatever the root object's own ref is. */
  const RootToken := "o:1"

  const ManifestBase := "https://blrepo.laund.moe/pallets/"

  /** The keys of a listing's `targets` dictionary. */
  const PcKey := "pc"
  const QuestKey := "oculus-quest"

  /** What follows the name in a listing title. */
  const TitleSeparator := "\n  <mspace=-0.2>\U{25AC}\U{A71C}</mspace>    "

  // ---------------------------------------------------------------------------
  // titlesorthack

  const SizeOpen := "<size=0%>"
  const SizeClose := "</size>"

  /** The zero-size rank prefix of a title: empty without a rank, else the zero-padded rank between size tags. */
  function RankPrefix(rank: Option<int>): string
  {
    if rank.None? then [] else SizeOpen + (Format09d(rank.value) + SizeClose)
  }

  /** For a rank below 10^9, the prefix holds nine digits whose value is the rank, between the size tags. */
  lemma RankPrefixDigits(rank: int)
    requires 0 <= rank < 1_000_000_000
    ensures var p := RankPrefix(Some(rank));
      |p| == |SizeOpen| + 9 + |SizeClose| && StartsWith(p, SizeOpen) && EndsWith(p, SizeClose) &&
      AllDigits(p[|SizeOpen|..|SizeOpen| + 9]) && Text.Value(p[|SizeOpen|..|SizeOpen| + 9]) == rank
  {
    Format09dDigits(rank);
    MiddleOf(SizeOpen, Format09d(rank), SizeClose);
  }

  /** `titlesorthack`: the rank prefix (so the in-game list sorts by rank), the name, and the download count. */
  function TitleSortHack(name: string, rank: Option<int>, downloads: int): string
  {
    RankPrefix(rank) + name + (TitleSeparator + IntToString(downloads))
  }

  /** A title starts with the rank prefix and the name, and ends with the download count. */
  lemma TitleParts(name: string, rank: Option<int>, downloads: int)
    ensures StartsWith(TitleSortHack(name, rank, downloads), RankPrefix(rank) + name)
    ensures EndsWith(TitleSortHack(name, rank, downloads), IntToString(downloads))
  {
    MiddleOf(RankPrefix(rank) + name, TitleSeparator, IntToString(downloads));
  }

  /** The three parts of `a + (b + c)` are found where their lengths say. */
  lemma MiddleOf(a: string, b: string, c: string)
    ensures (a + (b + c))[..|a|] == a
    ensures (a + (b + c))[|a|..|a| + |b|] == b
    ensures (a + (b + c))[|a| + |b|..] == c
  {
  }

  /** Titles of ranks below 10^9 sort (as strings) in rank order, whatever names and counts follow. */
  lemma TitlesSortByRank(a: int, b: int, n1: string, n2: string, d1: int, d2: int)
    requires 0 <= a < b < 1_000_000_000
    ensures LexLess(TitleSortHack(n1, Some(a), d1), TitleSortHack(n2, Some(b), d2))
  {
    var x, y := Format09d(a), Format09d(b);
    Format09dDigits(a);
    Format09dDigits(b);
    LexLessIsNumericOrder(x, y);
    var r1 := n1 + (TitleSeparator + IntToString(d1));
    var r2 := n2 + (TitleSeparator + IntToString(d2));
    LexLessAfterPrefix(SizeOpen, x, y, SizeClose + r1, SizeClose + r2);
    Regroup(SizeOpen, x, SizeClose, n1, TitleSeparator + IntToString(d1));
    Regroup(SizeOpen, y, SizeClose, n2, TitleSeparator + IntToString(d2));
  }

  lemma Regroup(p: string, x: string, c: string, n: string, r: string)
    ensures (p + (x + c)) + n + r == p + x + (c + (n + r))
  {
  }

  // ---------------------------------------------------------------------------
  // The elements add_mod builds

  /** `manifestUrl`: the served copy of the file's first extracted pallet. */
  function ManifestUrl(fid: int): string
  {
    ManifestBase + IntToString(fid) + "_0.json"
  }

  /** The manifest url ends in the very name the extractor gives the file's first pallet. */
  lemma ManifestUrlNamesFirstExtract(fid: int)
    ensures |Pallets.Dir| <= |Pallets.ExtractPath(fid, 0)|
    ensures ManifestUrl(fid) == ManifestBase + Pallets.ExtractPath(fid, 0)[|Pallets.Dir|..]
  {
    var p := Pallets.ExtractPath(fid, 0);
    assert NatToString(0) == "0";
    assert p == Pallets.Dir + (IntToString(fid) + "_0.json");
    assert p[|Pallets.Dir|..] == IntToString(fid) + "_0.json";
  }

  /** The pallets `add_mod` collects: the PC file's, then the quest file's. */
  function ModPallets(s: Store, modId: int): seq<PalletRow>
  {
    (if FileOf(s, Pc, modId).Some? then PalletsOf(s, Pc, FileOf(s, Pc, modId).value.id) else []) +
    (if FileOf(s, Quest, modId).Some? then PalletsOf(s, Quest, FileOf(s, Quest, modId).value.id) else [])
  }

  /** The file the first collected pallet belongs to (`await pallet.file`). */
  function OwnerOfFirst(s: Store, modId: int): (f: FileRow)
    requires ModPallets(s, modId) != []
  {
    if FileOf(s, Pc, modId).Some? && PalletsOf(s, Pc, FileOf(s, Pc, modId).value.id) != [] then FileOf(s, Pc, modId).value
    else FileOf(s, Quest, modId).value
  }

  /** A target object's fields. */
  function TargetData(f: FileRow): seq<(string, Value)>
  {
    [("thumbnailOverride", VNull), ("url", VStr(f.url))]
  }

  /** The entry `targets[platform]` holds for a target object. */
  function TargetEntry(t: Element): Value
    requires t.SlzObject?
  {
    VDict([("ref", VRef(t.ref)), ("type", VRef(t.typeRef))])
  }

  /** One platform's target, under the platform key and numbered `n + 1`, when its file exists. */
  function TargetOf(f: Option<FileRow>, key: string, tTarget: Ref, n: nat): seq<(string, Element)>
  {
    if f.Some? then [(key, SlzObject(TargetData(f.value), tTarget, Ref(ObjectKind, n + 1)))] else []
  }

  /** `maybe_add_platform` for the PC file and then the quest file, numbered from `n + 1`. */
  function TargetsFor(pc: Option<FileRow>, quest: Option<FileRow>, tTarget: Ref, n: nat): seq<(string, Element)>
  {
    var a := TargetOf(pc, PcKey, tTarget, n);
    a + TargetOf(quest, QuestKey, tTarget, n + |a|)
  }

  /** The targets of a mod's stored files. */
  function Targets(s: Store, modId: int, tTarget: Ref, n: nat): seq<(string, Element)>
  {
    TargetsFor(FileOf(s, Pc, modId), FileOf(s, Quest, modId), tTarget, n)
  }

  /** `targets[platform] = {...}` for the target of a present file. */
  function AddTarget(targets: seq<(string, Value)>, f: Option<FileRow>, key: string, tTarget: Ref, n: nat): seq<(string, Value)>
  {
    if f.Some? then Put(targets, key, TargetEntry(TargetOf(f, key, tTarget, n)[0].1)) else targets
  }

  /** The `targets` dictionary of a mod's listing: the PC entry, then the quest entry. */
  function TargetsDict(pc: Option<FileRow>, quest: Option<FileRow>, tTarget: Ref, n: nat): seq<(string, Value)>
  {
    var a := TargetOf(pc, PcKey, tTarget, n);
    AddTarget(AddTarget([], pc, PcKey, tTarget, n), quest, QuestKey, tTarget, n + |a|)
  }

  /** A listing's fields, from the mod row, the first collected pallet and the file it belongs to. */
  function ListingData(row: ModRow, p: PalletRow, owner: FileRow, targets: Value): seq<(string, Value)>
  {
    [("barcode", VStr(p.barcode)),
     ("title", VStr(TitleSortHack(row.name, Some(row.rank), row.downloads))),
     ("description", VStr(row.description)),
     ("author", VStr(p.author)),
     ("version", VStr(p.version)),
     ("sdkVersion", VStr(p.sdkVersion)),
     ("internal", VBool(false)),
     ("tags", VList([])),
     ("thumbnailUrl", VStr(row.thumbnailUrl)),
     ("manifestUrl", VStr(ManifestUrl(owner.id))),
     ("targets", targets)]
  }

  function Elements(ts: seq<(string, Element)>): seq<Element>
  {
    seq(|ts|, i requires 0 <= i < |ts| => ts[i].1)
  }

  /**
   * The objects `add_mod` constructs, in construction order, when `n` objects are
   * registered before it: nothing without a pallet, else the targets and then the
   * listing.
   */
  function NewElements(row: ModRow, s: Store, modId: int, tList: Ref, tTarget: Ref, n: nat): seq<Element>
  {
    if ModPallets(s, modId) == [] then []
    else Elements(Targets(s, modId, tTarget, n)) + [Listing(row, s, modId, tList, tTarget, n)]
  }

  /** The listing object of a mod with a pallet, numbered after its targets. */
  function Listing(row: ModRow, s: Store, modId: int, tList: Ref, tTarget: Ref, n: nat): Element
    requires ModPallets(s, modId) != []
  {
    var targets := TargetsDict(FileOf(s, Pc, modId), FileOf(s, Quest, modId), tTarget, n);
    SlzObject(ListingData(row, ModPallets(s, modId)[0], OwnerOfFirst(s, modId), VDict(targets)), tList,
              Ref(ObjectKind, n + |Targets(s, modId, tTarget, n)| + 1))
  }

  /** The elements a mod with a pallet adds: its targets, then the listing built from them. */
  lemma NewElementsEndInListing(row: ModRow, s: Store, modId: int, tList: Ref, tTarget: Ref, n: nat,
                                pc: Option<FileRow>, quest: Option<FileRow>, listing: Element)
    requires pc == FileOf(s, Pc, modId) && quest == FileOf(s, Quest, modId)
    requires ModPallets(s, modId) != []
    requires listing == SlzObject(ListingData(row, ModPallets(s, modId)[0], OwnerOfFirst(s, modId), VDict(TargetsDict(pc, quest, tTarget, n))),
                                  tList, Ref(ObjectKind, n + |TargetsFor(pc, quest, tTarget, n)| + 1))
    ensures NewElements(row, s, modId, tList, tTarget, n) == Elements(TargetsFor(pc, quest, tTarget, n)) + [listing]
  {
    assert listing == Listing(row, s, modId, tList, tTarget, n);
  }

  /** `append` of each element, in order. */
  function PutAll(entries: seq<(int, Element)>, es: seq<Element>): seq<(int, Element)>
  {
    if es == [] then entries else Put(PutAll(entries, es[..|es| - 1]), es[|es| - 1].ref.id as int, es[|es| - 1])
  }

  // ---------------------------------------------------------------------------
  // Properties of what add_mod builds

  /**
   * The targets: key "pc" exactly when a PC file exists and "oculus-quest" exactly when
   * a quest file exists, each a fresh object pointing at that file's url, numbered
   * consecutively from `n + 1`.
   */
  lemma TargetsFollowFiles(s: Store, modId: int, tTarget: Ref, n: nat)
    ensures |Targets(s, modId, tTarget, n)| == (if FileOf(s, Pc, modId).Some? then 1 else 0) + (if FileOf(s, Quest, modId).Some? then 1 else 0)
    ensures forall i :: 0 <= i < |Targets(s, modId, tTarget, n)| ==>
      var (key, t) := Targets(s, modId, tTarget, n)[i];
      var p := if key == PcKey then Pc else Quest;
      (key == PcKey || key == QuestKey) && FileOf(s, p, modId).Some? &&
      t == SlzObject(TargetData(FileOf(s, p, modId).value), tTarget, Ref(ObjectKind, n + i + 1))
    ensures FileOf(s, Pc, modId).Some? ==> Targets(s, modId, tTarget, n)[0].0 == PcKey
    ensures FileOf(s, Quest, modId).Some? ==> Targets(s, modId, tTarget, n)[|Targets(s, modId, tTarget, n)| - 1].0 == QuestKey
  {
  }

  /**
   * A mod with a pallet adds its targets and then exactly one listing (so with the
   * largest id), all objects numbered consecutively from `n + 1`; the targets are
   * typed by the target type and the listing by the listing type.
   */
  lemma NewElementsNumbered(row: ModRow, s: Store, modId: int, tList: Ref, tTarget: Ref, n: nat)
    requires ModPallets(s, modId) != []
    ensures var es := NewElements(row, s, modId, tList, tTarget, n);
      |es| >= 1 && (forall i :: 0 <= i < |es| ==> es[i].SlzObject? && es[i].ref == Ref(ObjectKind, n + i + 1)) &&
      (forall i :: 0 <= i < |es| - 1 ==> es[i].typeRef == tTarget) && es[|es| - 1].typeRef == tList
  {
    var ts := Targets(s, modId, tTarget, n);
    TargetsNumbered(FileOf(s, Pc, modId), FileOf(s, Quest, modId), tTarget, n);
    var es := NewElements(row, s, modId, tList, tTarget, n);
    forall i | 0 <= i < |es|
      ensures es[i].SlzObject? && es[i].ref == Ref(ObjectKind, n + i + 1)
      ensures i < |es| - 1 ==> es[i].typeRef == tTarget
    {
      if i < |es| - 1 {
        assert es[i] == ts[i].1;
      }
    }
  }

  /** The targets are objects of the target type, numbered consecutively from `n + 1`. */
  lemma TargetsNumbered(pc: Option<FileRow>, quest: Option<FileRow>, tTarget: Ref, n: nat)
    ensures var ts := TargetsFor(pc, quest, tTarget, n);
      |ts| <= 2 && forall i :: 0 <= i < |ts| ==>
        ts[i].1.SlzObject? && ts[i].1.ref == Ref(ObjectKind, n + i + 1) && ts[i].1.typeRef == tTarget
  {
  }

  /**
   * The listing is built from the first collected pallet, PC pallets coming first, and
   * from the file that pallet belongs to; its targets are the dictionary of the mod's
   * files.
   */
  lemma ListingFromFirstPallet(row: ModRow, s: Store, modId: int, tList: Ref, tTarget: Ref, n: nat)
    requires ModPallets(s, modId) != []
    ensures var es := NewElements(row, s, modId, tList, tTarget, n);
      es != [] && es[|es| - 1].SlzObject? &&
      es[|es| - 1].data == ListingData(row, ModPallets(s, modId)[0], OwnerOfFirst(s, modId),
                                       VDict(TargetsDict(FileOf(s, Pc, modId), FileOf(s, Quest, modId), tTarget, n)))
    ensures FileOf(s, Pc, modId).Some? && PalletsOf(s, Pc, FileOf(s, Pc, modId).value.id) != [] ==>
      ModPallets(s, modId)[0] == PalletsOf(s, Pc, FileOf(s, Pc, modId).value.id)[0] &&
      OwnerOfFirst(s, modId) == FileOf(s, Pc, modId).value
    ensures var f := OwnerOfFirst(s, modId);
      (FileOf(s, Pc, modId) == Some(f) && PalletsOf(s, Pc, f.id) != [] && ModPallets(s, modId)[0] == PalletsOf(s, Pc, f.id)[0]) ||
      (FileOf(s, Quest, modId) == Some(f) && PalletsOf(s, Quest, f.id) != [] && ModPallets(s, modId)[0] == PalletsOf(s, Quest, f.id)[0])
  {
    var es := NewElements(row, s, modId, tList, tTarget, n);
    assert es[|es| - 1] == Listing(row, s, modId, tList, tTarget, n);
  }

  /**
   * The listing's barcode, author, version and SDK version are the pallet's; its
   * manifest url names the pallet's file; `internal` is false and `tags` empty.
   */
  lemma ListingFields(row: ModRow, p: PalletRow, owner: FileRow, targets: Value)
    ensures var d := ListingData(row, p, owner, targets);
      |d| == 11 && d[0] == ("barcode", VStr(p.barcode)) && d[3] == ("author", VStr(p.author)) &&
      d[4] == ("version", VStr(p.version)) && d[5] == ("sdkVersion", VStr(p.sdkVersion)) &&
      d[6] == ("internal", VBool(false)) && d[7] == ("tags", VList([])) &&
      d[9] == ("manifestUrl", VStr(ManifestUrl(owner.id))) && d[10] == ("targets", targets)
  {
  }

  /** Without a pallet, nothing is added. */
  lemma NoPalletNoListing(row: ModRow, s: Store, modId: int, tList: Ref, tTarget: Ref, n: nat)
    requires FileOf(s, Pc, modId).None? || PalletsOf(s, Pc, FileOf(s, Pc, modId).value.id) == []
    requires FileOf(s, Quest, modId).None? || PalletsOf(s, Quest, FileOf(s, Quest, modId).value.id) == []
    ensures NewElements(row, s, modId, tList, tTarget, n) == []
  {
    assert ModPallets(s, modId) == [] + [];
  }

  /**
   * The root's `RefList` keeps, of what a mod adds, exactly the listing: with the
   * three types registered as the builder registers them, the listing type resolves
   * to the listing name and the target type does not.
   */
  lemma RefListKeepsTheListing(row: ModRow, s: Store, modId: int, types: map<nat, Element>, tList: Ref, tTarget: Ref, n: nat)
    requires tList.kind == TypeKind && tList.id in types && types[tList.id] == SlzType(ListingTypeName, tList)
    requires tTarget.kind == TypeKind && tTarget.id in types && types[tTarget.id] == SlzType(TargetTypeName, tTarget)
    ensures var es := NewElements(row, s, modId, tList, tTarget, n);
      Selected(es, types, ListingTypeName) == if es == [] then [] else [es[|es| - 1]]
  {
    var es := NewElements(row, s, modId, tList, tTarget, n);
    if es != [] {
      NewElementsNumbered(row, s, modId, tList, tTarget, n);
      assert ListingTypeName != TargetTypeName by {
        assert |ListingTypeName| != |TargetTypeName|;
      }
      SelectedPrefixNone(es, types, |es| - 1);
    }
  }

  /** Of elements none of which is typed by the listing type, none is kept. */
  lemma {:induction false} SelectedPrefixNone(es: seq<Element>, types: map<nat, Element>, k: nat)
    requires k <= |es|
    requires forall i :: 0 <= i < k ==> !Selects(types, ListingTypeName, es[i])
    ensures Selected(es[..k], types, ListingTypeName) == []
  {
    if k > 0 {
      assert es[..k][..k - 1] == es[..k - 1];
      SelectedPrefixNone(es, types, k - 1);
    }
  }

  // ---------------------------------------------------------------------------
  // RepositoryFile

  lemma AddAllSnoc(t: Tables, es: seq<Element>, e: Element)
    ensures AddAll(t, es + [e]) == AddElement(AddAll(t, es), e)
  {
    assert (es + [e])[..|es|] == es;
  }

  /** The three types of a repository file, constructed in this order. */
  method RegisterTypes(reg: Registry) returns (a: Element, b: Element, c: Element)
    requires reg.Valid()
    modifies reg
    ensures reg.Valid()
    ensures var t := |old(reg.types)|;
      a == SlzType(RepositoryTypeName, Ref(TypeKind, t + 1)) &&
      b == SlzType(ListingTypeName, Ref(TypeKind, t + 2)) &&
      c == SlzType(TargetTypeName, Ref(TypeKind, t + 3))
    ensures Tables(reg.types, reg.objects) == AddAll(Tables(old(reg.types), old(reg.objects)), [a, b, c])
    ensures reg.objects == old(reg.objects)
  {
    ghost var t0 := Tables(reg.types, reg.objects);
    a := reg.NewType(RepositoryTypeName);
    AddAllSnoc(t0, [], a);
    assert [] + [a] == [a];
    b := reg.NewType(ListingTypeName);
    AddAllSnoc(t0, [a], b);
    assert [a] + [b] == [a, b];
    c := reg.NewType(TargetTypeName);
    AddAllSnoc(t0, [a, b], c);
    assert [a, b] + [c] == [a, b, c];
  }

  /** The root object, constructed and appended to a new, empty objects container. */
  method NewRoot(reg: Registry, reponame: string, description: string, tRepo: Ref) returns (os: Container, root: Element)
    requires reg.Valid()
    modifies reg
    ensures reg.Valid() && fresh(os) && os.Valid()
    ensures root == RootObject(reponame, description, tRepo, Ref(ObjectKind, |old(reg.objects)| + 1))
    ensures os.entries == [(|old(reg.objects)| + 1, root)] && |reg.objects| == |old(reg.objects)| + 1
    ensures Tables(reg.types, reg.objects) == AddElement(Tables(old(reg.types), old(reg.objects)), root)
  {
    os := new Container([]);
    root := reg.NewObject([("title", VStr(reponame)), ("description", VStr(description)), ("mods", VRefList(ListingTypeName))], tRepo);
    assert os.entries == [];
    os.Append(root);
  }

  lemma PutAllSnoc(entries: seq<(int, Element)>, es: seq<Element>, e: Element)
    ensures PutAll(entries, es + [e]) == Put(PutAll(entries, es), e.ref.id as int, e)
  {
    assert (es + [e])[..|es|] == es;
  }

  /** The root object: title, description and the `RefList` of the listings. */
  function RootObject(reponame: string, description: string, tRepo: Ref, r: Ref): Element
  {
    SlzObject([("title", VStr(reponame)), ("description", VStr(description)), ("mods", VRefList(ListingTypeName))], tRepo, r)
  }

  /** The hard-coded root token names the root object only when it was the first object built. */
  lemma RootTokenIsFirstObject(n: nat)
    ensures Token(Ref(ObjectKind, n)) == RootToken <==> n == 1
  {
    assert NatToString(1) == "1";
    assert Token(Ref(ObjectKind, 1)) == RootToken;
    if Token(Ref(ObjectKind, n)) == RootToken {
      TokenInjective(Ref(ObjectKind, n), Ref(ObjectKind, 1));
    }
  }

  lemma ElementsAppend(a: seq<(string, Element)>, b: seq<(string, Element)>)
    ensures Elements(a + b) == Elements(a) + Elements(b)
  {
  }

  /** Appending elements in two batches is appending them all. */
  lemma {:induction false} PutAllAppend(e: seq<(int, Element)>, xs: seq<Element>, ys: seq<Element>)
    ensures PutAll(PutAll(e, xs), ys) == PutAll(e, xs + ys)
    decreases |ys|
  {
    if ys == [] {
      assert xs + ys == xs;
    } else {
      var init, last := ys[..|ys| - 1], ys[|ys| - 1];
      PutAllAppend(e, xs, init);
      assert (xs + ys)[..|xs + ys| - 1] == xs + init && (xs + ys)[|xs + ys| - 1] == last;
      assert PutAll(e, xs + ys) == Put(PutAll(e, xs + init), last.ref.id as int, last);
    }
  }

  /** Registering elements in two batches is registering them all. */
  lemma {:induction false} AddAllAppend(t: Tables, xs: seq<Element>, ys: seq<Element>)
    ensures AddAll(AddAll(t, xs), ys) == AddAll(t, xs + ys)
    decreases |ys|
  {
    if ys == [] {
      assert xs + ys == xs;
    } else {
      var init := ys[..|ys| - 1];
      AddAllAppend(t, xs, init);
      assert (xs + ys)[..|xs + ys| - 1] == xs + init;
    }
  }

  /** Appending and registering at most one target. */
  lemma OneTarget(e: seq<(int, Element)>, t: Tables, a: seq<(string, Element)>)
    requires |a| <= 1
    ensures PutAll(e, Elements(a)) == (if a == [] then e else Put(e, a[0].1.ref.id as int, a[0].1))
    ensures AddAll(t, Elements(a)) == (if a == [] then t else AddElement(t, a[0].1))
  {
    if a != [] {
      assert Elements(a)[..0] == [];
    }
  }

  /** Elements appended in two batches are the elements of both appended at once. */
  lemma TwoBatches(a: seq<(string, Element)>, b: seq<(string, Element)>,
                   e0: seq<(int, Element)>, e1: seq<(int, Element)>, e2: seq<(int, Element)>,
                   t0: Tables, t1: Tables, t2: Tables)
    requires e1 == PutAll(e0, Elements(a)) && t1 == AddAll(t0, Elements(a))
    requires e2 == PutAll(e1, Elements(b)) && t2 == AddAll(t1, Elements(b))
    ensures e2 == PutAll(e0, Elements(a + b)) && t2 == AddAll(t0, Elements(a + b))
  {
    ElementsAppend(a, b);
    PutAllAppend(e0, Elements(a), Elements(b));
    AddAllAppend(t0, Elements(a), Elements(b));
  }

  /** The files of a mod, through the instance's getters, and their pallets, PC first. */
  method CollectPallets(db: Db, mod: ModInstance) returns (pc: Option<FileRow>, quest: Option<FileRow>, pallets: seq<PalletRow>)
    requires mod.Valid()
    modifies mod
    ensures mod.Valid()
    ensures pc == FileOf(db.State(), Pc, mod.id) && quest == FileOf(db.State(), Quest, mod.id)
    ensures pallets == ModPallets(db.State(), mod.id)
  {
    pc := mod.GetFile(db, Pc);
    quest := mod.GetFile(db, Quest);
    pallets := [];
    if pc.Some? {
      pallets := pallets + PalletsOf(db.State(), Pc, pc.value.id);
    }
    if quest.Some? {
      pallets := pallets + PalletsOf(db.State(), Quest, quest.value.id);
    }
  }

  class RepositoryFile {
    const filename: string
    const reg: Registry
    const tRepo: Element
    const tList: Element
    const tTarget: Element
    const types: Container
    const objects: Container
    /** The document's `root` entry. */
    const root: Value

    ghost predicate Valid()
      reads this, reg, types, objects
    {
      reg.Valid() && types.Valid() && objects.Valid() && types != objects &&
      tList.SlzType? && tTarget.SlzType? && tRepo.SlzType? &&
      tList.ref.kind == TypeKind && tTarget.ref.kind == TypeKind && tList.ref != tTarget.ref
    }

    /** The repository document: version, root entry, objects and types. */
    function Document(): Value
      reads this, types, objects
    {
      VDict([("version", VInt(1)), ("root", root), ("objects", VContainer(objects.entries)), ("types", VContainer(types.entries))])
    }

    /**
     * `RepositoryFile.__init__`: three types, then the root object, registered in that
     * order; the root entry is the fixed token with the repository type.
     */
    constructor (filename: string, reponame: string, description: string, reg: Registry)
      requires reg.Valid()
      modifies reg
      ensures Valid() && this.reg == reg && fresh(types) && fresh(objects)
      ensures var t := |old(reg.types)|;
        tRepo == SlzType(RepositoryTypeName, Ref(TypeKind, t + 1)) &&
        tList == SlzType(ListingTypeName, Ref(TypeKind, t + 2)) &&
        tTarget == SlzType(TargetTypeName, Ref(TypeKind, t + 3))
      ensures types.entries == TableOf([tRepo, tList, tTarget])
      ensures objects.entries == [(|old(reg.objects)| + 1, RootObject(reponame, description, tRepo.ref, Ref(ObjectKind, |old(reg.objects)| + 1)))]
      ensures |reg.objects| == |old(reg.objects)| + 1
      ensures Tables(reg.types, reg.objects) ==
        AddAll(Tables(old(reg.types), old(reg.objects)), [tRepo, tList, tTarget, objects.entries[0].1])
      ensures root == VDict([("ref", VStr(RootToken)), ("type", VRef(tRepo.ref))])
    {
      ghost var t0 := Tables(reg.types, reg.objects);
      var a, b, c := RegisterTypes(reg);
      var ts := new Container([a, b, c]);
      var os, rootObj := NewRoot(reg, reponame, description, a.ref);
      AddAllSnoc(t0, [a, b, c], rootObj);
      assert [a, b, c] + [rootObj] == [a, b, c, rootObj];
      this.filename := filename;
      this.reg := reg;
      tRepo, tList, tTarget := a, b, c;
      types, objects := ts, os;
      root := VDict([("ref", VStr(RootToken)), ("type", VRef(a.ref))]);
    }

    /**
     * `maybe_add_platform`: for a present file, construct a target object, append it and
     * record its ref and type under the platform key.
     */
    method MaybeAddPlatform(targets: seq<(string, Value)>, platform: string, file: Option<FileRow>)
      returns (targets': seq<(string, Value)>)
      requires Valid()
      modifies objects, reg
      ensures Valid()
      ensures |reg.objects| == |old(reg.objects)| + (if file.Some? then 1 else 0)
      ensures targets' == AddTarget(targets, file, platform, tTarget.ref, |old(reg.objects)|)
      ensures var ts := TargetOf(file, platform, tTarget.ref, |old(reg.objects)|);
        objects.entries == PutAll(old(objects.entries), Elements(ts)) &&
        Tables(reg.types, reg.objects) == AddAll(Tables(old(reg.types), old(reg.objects)), Elements(ts))
    {
      ghost var n := |reg.objects|;
      ghost var ts := TargetOf(file, platform, tTarget.ref, n);
      OneTarget(objects.entries, Tables(reg.types, reg.objects), ts);
      if file.Some? {
        ghost var t0 := SlzObject(TargetData(file.value), tTarget.ref, Ref(ObjectKind, n + 1));
        assert ts == [(platform, t0)];
        assert AddTarget(targets, file, platform, tTarget.ref, n) == Put(targets, platform, TargetEntry(t0));
        var t := AddObject(TargetData(file.value), tTarget.ref);
        targets' := Put(targets, platform, TargetEntry(t));
      } else {
        targets' := targets;
      }
    }

    /** Both `maybe_add_platform` calls of `add_mod`, starting from an empty `targets`. */
    method AddTargets(pc: Option<FileRow>, quest: Option<FileRow>) returns (targets: seq<(string, Value)>)
      requires Valid()
      modifies objects, reg
      ensures Valid()
      ensures var ts := TargetsFor(pc, quest, tTarget.ref, |old(reg.objects)|);
        targets == TargetsDict(pc, quest, tTarget.ref, |old(reg.objects)|) && |reg.objects| == |old(reg.objects)| + |ts| &&
        objects.entries == PutAll(old(objects.entries), Elements(ts)) &&
        Tables(reg.types, reg.objects) == AddAll(Tables(old(reg.types), old(reg.objects)), Elements(ts))
    {
      ghost var n := |reg.objects|;
      ghost var e0 := objects.entries;
      ghost var t0 := Tables(reg.types, reg.objects);
      ghost var a := TargetOf(pc, PcKey, tTarget.ref, n);
      ghost var b := TargetOf(quest, QuestKey, tTarget.ref, n + |a|);
      assert TargetsFor(pc, quest, tTarget.ref, n) == a + b;
      assert TargetsDict(pc, quest, tTarget.ref, n) ==
        AddTarget(AddTarget([], pc, PcKey, tTarget.ref, n), quest, QuestKey, tTarget.ref, n + |a|);
      assert |b| == if quest.Some? then 1 else 0;
      targets := MaybeAddPlatform([], PcKey, pc);
      ghost var d1 := targets;
      ghost var e1 := objects.entries;
      ghost var t1 := Tables(reg.types, reg.objects);
      assert e1 == PutAll(e0, Elements(a)) && t1 == AddAll(t0, Elements(a));
      assert |reg.objects| == n + |a|;
      targets := MaybeAddPlatform(targets, QuestKey, quest);
      ghost var e2 := objects.entries;
      ghost var t2 := Tables(reg.types, reg.objects);
      assert e2 == PutAll(e1, Elements(b)) && t2 == AddAll(t1, Elements(b));
      TwoBatches(a, b, e0, e1, e2, t0, t1, t2);
      assert d1 == AddTarget([], pc, PcKey, tTarget.ref, n);
      assert targets == AddTarget(d1, quest, QuestKey, tTarget.ref, n + |a|);
    }

    /** An object of type `typ`, constructed (so numbered next) and appended to the objects. */
    method AddObject(data: seq<(string, Value)>, typ: Ref) returns (obj: Element)
      requires Valid()
      modifies objects, reg
      ensures Valid()
      ensures obj == SlzObject(data, typ, Ref(ObjectKind, |old(reg.objects)| + 1))
      ensures |reg.objects| == |old(reg.objects)| + 1
      ensures objects.entries == Put(old(objects.entries), obj.ref.id as int, obj)
      ensures Tables(reg.types, reg.objects) == AddElement(Tables(old(reg.types), old(reg.objects)), obj)
    {
      obj := reg.NewObject(data, typ);
      objects.Append(obj);
    }

    /**
     * The part of `add_mod` after at least one pallet was found: the targets, then the
     * listing built from the first pallet `first` and the file `owner` it belongs to.
     */
    method AddListed(row: ModRow, pc: Option<FileRow>, quest: Option<FileRow>, first: PalletRow, owner: FileRow)
      returns (listing: Element)
      requires Valid()
      modifies objects, reg
      ensures Valid()
      ensures var n := |old(reg.objects)|;
        listing == SlzObject(ListingData(row, first, owner, VDict(TargetsDict(pc, quest, tTarget.ref, n))),
                             tList.ref, Ref(ObjectKind, n + |TargetsFor(pc, quest, tTarget.ref, n)| + 1)) &&
        |reg.objects| == n + |TargetsFor(pc, quest, tTarget.ref, n)| + 1
      ensures var es := Elements(TargetsFor(pc, quest, tTarget.ref, |old(reg.objects)|)) + [listing];
        objects.entries == PutAll(old(objects.entries), es) &&
        Tables(reg.types, reg.objects) == AddAll(Tables(old(reg.types), old(reg.objects)), es)
    {
      ghost var n := |reg.objects|;
      ghost var e0 := objects.entries;
      ghost var t0 := Tables(reg.types, reg.objects);
      ghost var ts := TargetsFor(pc, quest, tTarget.ref, n);
      var targets := AddTargets(pc, quest);
      ghost var m := |reg.objects|;
      assert m == n + |ts|;
      var data := ListingData(row, first, owner, VDict(targets));
      listing := AddObject(data, tList.ref);
      PutAllSnoc(e0, Elements(ts), listing);
      AddAllSnoc(t0, Elements(ts), listing);
    }

    /**
     * `add_mod`: collect the pallets of both files; with at least one, add the targets
     * and then the listing built from the first.  The objects are registered and
     * appended exactly as `NewElements` lists them.
     */
    method AddMod(row: ModRow, db: Db, mod: ModInstance)
      requires Valid() && mod.Valid()
      modifies objects, reg, mod
      ensures Valid() && mod.Valid()
      ensures var es := NewElements(row, db.State(), mod.id, tList.ref, tTarget.ref, |old(reg.objects)|);
        objects.entries == PutAll(old(objects.entries), es) && |reg.objects| == |old(reg.objects)| + |es| &&
        Tables(reg.types, reg.objects) == AddAll(Tables(old(reg.types), old(reg.objects)), es)
    {
      var s := db.State();
      var pc, quest, pallets := CollectPallets(db, mod);
      AddCollected(row, s, mod.id, pc, quest, pallets);
    }

    /** `add_mod` once the files and their pallets are collected from the store `s`. */
    method AddCollected(row: ModRow, s: Store, modId: int, pc: Option<FileRow>, quest: Option<FileRow>, pallets: seq<PalletRow>)
      requires Valid()
      requires pc == FileOf(s, Pc, modId) && quest == FileOf(s, Quest, modId) && pallets == ModPallets(s, modId)
      modifies objects, reg
      ensures Valid()
      ensures var es := NewElements(row, s, modId, tList.ref, tTarget.ref, |old(reg.objects)|);
        objects.entries == PutAll(old(objects.entries), es) && |reg.objects| == |old(reg.objects)| + |es| &&
        Tables(reg.types, reg.objects) == AddAll(Tables(old(reg.types), old(reg.objects)), es)
    {
      if |pallets| > 0 {
        ghost var n := |reg.objects|;
        var owner := OwnerOfFirst(s, modId);
        ghost var expected := SlzObject(ListingData(row, pallets[0], owner, VDict(TargetsDict(pc, quest, tTarget.ref, n))),
                                        tList.ref, Ref(ObjectKind, n + |TargetsFor(pc, quest, tTarget.ref, n)| + 1));
        NewElementsEndInListing(row, s, modId, tList.ref, tTarget.ref, n, pc, quest, expected);
        var listing := AddListed(row, pc, quest, pallets[0], owner);
        assert listing == expected;
      } else {
        assert NewElements(row, s, modId, tList.ref, tTarget.ref, |reg.objects|) == [];
        assert PutAll(objects.entries, []) == objects.entries;
        assert AddAll(Tables(reg.types, reg.objects), []) == Tables(reg.types, reg.objects);
      }
    }
  }
}
