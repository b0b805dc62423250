/**
 * The database tables as in-memory maps, the store operations the sync performs on
 * them (with the database's uniqueness and foreign-key rules made explicit, and the
 * cascade deletes written out), and a mod record instance with its file getters.
 *
 * Relation multiplicities are carried by the keys: a mod owns at most one file per
 * platform (files are keyed by platform and owning mod id), a file owns any number
 * of pallets and at most one pallet error (both keyed by platform and file id).
 */
module Models {
  import opened Base

  /** Which pair of tables a file, pallet or error lives in: PC or quest. */
  datatype Platform = Pc | Quest

  datatype ModRow = ModRow(
    name: string,
    description: string,
    modUpdated: int,
    lastChecked: int,
    malformed: bool,
    nsfw: bool,
    thumbnailUrl: string,
    rank: int,
    downloads: int)

  datatype FileRow = FileRow(id: int, added: int, url: string)

  datatype PalletRow = PalletRow(
    zipPath: string,
    fsPath: string,
    barcode: string,
    author: string,
    version: string,
    sdkVersion: string)

  datatype Store = Store(
    mods: map<int, ModRow>,
    files: map<(Platform, int), FileRow>,
    pallets: map<(Platform, int), seq<PalletRow>>,
    errors: map<(Platform, int), string>)

  /** A file with this id is stored in the platform's file table. */
  predicate FileIdStored(s: Store, p: Platform, fid: int)
  {
    exists k :: k in s.files && k.0 == p && s.files[k].id == fid
  }

  /**
   * The database's integrity rules: every file belongs to a stored mod, file ids are
   * primary keys of their table, and pallets and errors belong to a stored file.
   */
  ghost predicate Consistent(s: Store)
  {
    (forall k :: k in s.files ==> k.1 in s.mods) &&
    (forall k1, k2 :: k1 in s.files && k2 in s.files && k1.0 == k2.0 && s.files[k1].id == s.files[k2].id ==> k1 == k2) &&
    (forall k :: k in s.pallets ==> FileIdStored(s, k.0, k.1)) &&
    (forall k :: k in s.errors ==> FileIdStored(s, k.0, k.1))
  }

  /** `mod.<platform>_file.all().first()`. */
  function FileOf(s: Store, p: Platform, modId: int): Option<FileRow>
  {
    if (p, modId) in s.files then Some(s.files[(p, modId)]) else None
  }

  /** `file.pallet.all()`, in insertion order. */
  function PalletsOf(s: Store, p: Platform, fid: int): seq<PalletRow>
  {
    if (p, fid) in s.pallets then s.pallets[(p, fid)] else []
  }

  /** `file.pallet_error.all().count() > 0`. */
  predicate HasError(s: Store, p: Platform, fid: int)
  {
    (p, fid) in s.errors
  }

  /**
   * `Mod.get_last_file_change`: the later `added` of the two files, the one that
   * exists, or nothing.
   */
  function LastFileChange(pc: Option<FileRow>, quest: Option<FileRow>): (r: Option<int>)
    ensures r.None? <==> pc.None? && quest.None?
    ensures pc.Some? ==> r.Some? && r.value >= pc.value.added
    ensures quest.Some? ==> r.Some? && r.value >= quest.value.added
    ensures r.Some? ==> (pc.Some? && r.value == pc.value.added) || (quest.Some? && r.value == quest.value.added)
  {
    match (pc, quest)
    case (Some(a), Some(b)) => Some(if a.added >= b.added then a.added else b.added)
    case (Some(a), None) => Some(a.added)
    case (None, Some(b)) => Some(b.added)
    case (None, None) => None
  }

  /** `Mod.update_or_create(id=..., defaults=...)`: the row is replaced or added. */
  function PutMod(s: Store, id: int, row: ModRow): (r: Store)
    ensures r.mods == s.mods[id := row]
    ensures r.files == s.files && r.pallets == s.pallets && r.errors == s.errors
    ensures Consistent(s) ==> Consistent(r)
  {
    s.(mods := s.mods[id := row])
  }

  /** `Mod.filter(id=...).update(malformed_pallet=True)`: no row, no change. */
  function MarkMalformed(s: Store, id: int): (r: Store)
    ensures id in s.mods ==> r.mods == s.mods[id := s.mods[id].(malformed := true)]
    ensures id !in s.mods ==> r == s
    ensures r.files == s.files && r.pallets == s.pallets && r.errors == s.errors
    ensures Consistent(s) ==> Consistent(r)
  {
    if id in s.mods then s.(mods := s.mods[id := s.mods[id].(malformed := true)]) else s
  }

  /**
   * Saving a new file row for a mod.  The one-to-one link to the mod, the primary
   * key and the foreign key are enforced: a violation is an integrity error.
   */
  function InsertFile(s: Store, p: Platform, modId: int, f: FileRow): (r: Result<Store, string>)
    ensures r.Ok? <==> modId in s.mods && (p, modId) !in s.files && !FileIdStored(s, p, f.id)
    ensures r.Ok? ==> r.value == s.(files := s.files[(p, modId) := f])
    ensures r.Ok? && Consistent(s) ==> Consistent(r.value)
  {
    if modId in s.mods && (p, modId) !in s.files && !FileIdStored(s, p, f.id) then
      var r := s.(files := s.files[(p, modId) := f]);
      assert Consistent(s) ==> Consistent(r) by {
        if Consistent(s) { InsertFileConsistent(s, p, modId, f, r); }
      }
      Ok(r)
    else Err("IntegrityError")
  }

  lemma InsertFileConsistent(s: Store, p: Platform, modId: int, f: FileRow, r: Store)
    requires Consistent(s) && modId in s.mods && (p, modId) !in s.files && !FileIdStored(s, p, f.id)
    requires r == s.(files := s.files[(p, modId) := f])
    ensures Consistent(r)
  {
    assert Kept(s, r, (p, modId));
    forall k | k in r.pallets ensures FileIdStored(r, k.0, k.1) {
      FileIdKept(s, r, k.0, k.1, (p, modId));
    }
    forall k | k in r.errors ensures FileIdStored(r, k.0, k.1) {
      FileIdKept(s, r, k.0, k.1, (p, modId));
    }
  }

  /** Saving a pallet row owned by a stored file: it is appended to that file's pallets. */
  function InsertPallet(s: Store, p: Platform, fid: int, row: PalletRow): (r: Result<Store, string>)
    ensures r.Ok? <==> FileIdStored(s, p, fid)
    ensures r.Ok? ==> r.value == s.(pallets := s.pallets[(p, fid) := PalletsOf(s, p, fid) + [row]])
    ensures r.Ok? && Consistent(s) ==> Consistent(r.value)
  {
    if FileIdStored(s, p, fid) then Ok(s.(pallets := s.pallets[(p, fid) := PalletsOf(s, p, fid) + [row]]))
    else Err("IntegrityError")
  }

  /** Saving the pallet error of a stored file: a second error for one file is refused. */
  function InsertError(s: Store, p: Platform, fid: int, msg: string): (r: Result<Store, string>)
    ensures r.Ok? <==> FileIdStored(s, p, fid) && !HasError(s, p, fid)
    ensures r.Ok? ==> r.value == s.(errors := s.errors[(p, fid) := msg])
    ensures r.Ok? && Consistent(s) ==> Consistent(r.value)
  {
    if FileIdStored(s, p, fid) && !HasError(s, p, fid) then Ok(s.(errors := s.errors[(p, fid) := msg]))
    else Err("IntegrityError")
  }

  /** `file.delete()` of a mod's file, with the cascade to its pallets and its error. */
  function DeleteFile(s: Store, p: Platform, modId: int): (r: Store)
    ensures FileOf(r, p, modId).None?
    ensures r.mods == s.mods
    ensures forall k :: k in s.files && k != (p, modId) ==> k in r.files && r.files[k] == s.files[k]
    ensures forall k :: k in r.files ==> k in s.files
    ensures (p, modId) !in s.files ==> r == s
    ensures (p, modId) in s.files ==>
      var fid := s.files[(p, modId)].id;
      r.pallets == s.pallets - {(p, fid)} && r.errors == s.errors - {(p, fid)}
    ensures Consistent(s) ==> Consistent(r)
  {
    if (p, modId) !in s.files then s
    else
      var fid := s.files[(p, modId)].id;
      var r := Store(s.mods, s.files - {(p, modId)}, s.pallets - {(p, fid)}, s.errors - {(p, fid)});
      assert Consistent(s) ==> Consistent(r) by {
        if Consistent(s) { DeleteFileConsistent(s, p, modId, r); }
      }
      r
  }

  lemma DeleteFileConsistent(s: Store, p: Platform, modId: int, r: Store)
    requires Consistent(s) && (p, modId) in s.files
    requires r == Store(s.mods, s.files - {(p, modId)}, s.pallets - {(p, s.files[(p, modId)].id)},
                        s.errors - {(p, s.files[(p, modId)].id)})
    ensures Consistent(r)
  {
    var fid := s.files[(p, modId)].id;
    assert Kept(s, r, (p, modId));
    forall k | k in r.pallets ensures FileIdStored(r, k.0, k.1) {
      assert k in s.pallets && k != (p, fid);
      FileIdKept(s, r, k.0, k.1, (p, modId));
    }
    forall k | k in r.errors ensures FileIdStored(r, k.0, k.1) {
      assert k in s.errors && k != (p, fid);
      FileIdKept(s, r, k.0, k.1, (p, modId));
    }
  }

  /** Every file row but the one under `gone` is still stored, unchanged. */
  predicate Kept(s: Store, r: Store, gone: (Platform, int))
  {
    forall k :: k in s.files && k != gone ==> k in r.files && r.files[k] == s.files[k]
  }

  /** A stored file id other than the one under `gone` stays stored. */
  lemma FileIdKept(s: Store, r: Store, q: Platform, fid: int, gone: (Platform, int))
    requires FileIdStored(s, q, fid) && Kept(s, r, gone)
    requires gone in s.files ==> gone.0 != q || s.files[gone].id != fid
    ensures FileIdStored(r, q, fid)
  {
    var k' :| k' in s.files && k'.0 == q && s.files[k'].id == fid;
    assert k' != gone;
    assert k' in r.files && r.files[k'] == s.files[k'];
  }

  /** `Mod.clear_files`: the quest file goes first, then the PC file. */
  function ClearFilesOf(s: Store, modId: int): (r: Store)
    ensures FileOf(r, Pc, modId).None? && FileOf(r, Quest, modId).None?
    ensures r.mods == s.mods
    ensures forall p, m :: m != modId ==> FileOf(r, p, m) == FileOf(s, p, m)
    ensures forall p :: FileOf(s, p, modId).Some? ==>
      PalletsOf(r, p, FileOf(s, p, modId).value.id) == [] && !HasError(r, p, FileOf(s, p, modId).value.id)
    ensures forall k :: k in r.pallets ==> k in s.pallets && r.pallets[k] == s.pallets[k]
    ensures forall k :: k in r.errors ==> k in s.errors && r.errors[k] == s.errors[k]
    ensures Consistent(s) ==> forall p, m :: m != modId && FileOf(s, p, m).Some? ==>
      PalletsOf(r, p, FileOf(s, p, m).value.id) == PalletsOf(s, p, FileOf(s, p, m).value.id) &&
      HasError(r, p, FileOf(s, p, m).value.id) == HasError(s, p, FileOf(s, p, m).value.id)
    ensures Consistent(s) ==> Consistent(r)
  {
    var s1 := DeleteFile(s, Quest, modId);
    var r := DeleteFile(s1, Pc, modId);
    assert FileOf(s1, Pc, modId) == FileOf(s, Pc, modId);
    forall p | FileOf(s, p, modId).Some?
      ensures PalletsOf(r, p, FileOf(s, p, modId).value.id) == [] && !HasError(r, p, FileOf(s, p, modId).value.id)
    {
      var fid := FileOf(s, p, modId).value.id;
      DeleteFileAt(s, Quest, modId, p, fid);
      DeleteFileAt(s1, Pc, modId, p, fid);
      if p == Quest {
        assert PalletsOf(s1, p, fid) == [] && !HasError(s1, p, fid);
      } else {
        assert (Pc, modId) in s1.files && s1.files[(Pc, modId)].id == fid;
      }
    }
    forall p, m | Consistent(s) && m != modId && FileOf(s, p, m).Some?
      ensures PalletsOf(r, p, FileOf(s, p, m).value.id) == PalletsOf(s, p, FileOf(s, p, m).value.id)
      ensures HasError(r, p, FileOf(s, p, m).value.id) == HasError(s, p, FileOf(s, p, m).value.id)
    {
      var fid := FileOf(s, p, m).value.id;
      OtherFileIdsDiffer(s, p, m, modId);
      DeleteFileAt(s, Quest, modId, p, fid);
      DeleteFileAt(s1, Pc, modId, p, fid);
    }
    r
  }

  /** What a delete leaves of the pallets and the error stored under one platform and file id. */
  lemma DeleteFileAt(s: Store, p: Platform, modId: int, q: Platform, fid: int)
    ensures var gone := (p, modId) in s.files && (q, fid) == (p, s.files[(p, modId)].id);
      PalletsOf(DeleteFile(s, p, modId), q, fid) == (if gone then [] else PalletsOf(s, q, fid)) &&
      HasError(DeleteFile(s, p, modId), q, fid) == (!gone && HasError(s, q, fid))
  {
  }

  /** In a consistent store two mods' files on one platform have different ids. */
  lemma OtherFileIdsDiffer(s: Store, p: Platform, m: int, modId: int)
    requires Consistent(s) && m != modId && (p, m) in s.files
    ensures (p, modId) in s.files ==> s.files[(p, modId)].id != s.files[(p, m)].id
  {
  }

  /** The database: one map per table, replaced as a whole by each write. */
  class Db {
    var mods: map<int, ModRow>
    var files: map<(Platform, int), FileRow>
    var pallets: map<(Platform, int), seq<PalletRow>>
    var errors: map<(Platform, int), string>

    function State(): Store
      reads this
    {
      Store(mods, files, pallets, errors)
    }

    constructor (s: Store)
      ensures State() == s
    {
      mods, files, pallets, errors := s.mods, s.files, s.pallets, s.errors;
    }

    /** Commit the result of a write (a statement the database executes). */
    method Commit(s: Store)
      modifies this
      ensures State() == s
    {
      mods, files, pallets, errors := s.mods, s.files, s.pallets, s.errors;
    }
  }

  /** The attribute `getattr` reads for a platform's cached file: the name as written. */
  function CacheReadName(p: Platform): string
  {
    if p == Pc then "__pc_file_cached" else "__quest_file_cached"
  }

  /**
   * The attribute the getter assigns: inside the class body `self.__x` is name-mangled
   * to `_Mod__x`, so it is never the attribute `getattr` reads.
   */
  function CacheWriteName(p: Platform): (n: string)
    ensures n != CacheReadName(p) && n != CacheReadName(if p == Pc then Quest else Pc)
  {
    "_Mod" + CacheReadName(p)
  }

  /** `getattr(obj, name, None)`. */
  function GetAttr(attrs: map<string, Option<FileRow>>, name: string): Option<FileRow>
  {
    if name in attrs then attrs[name] else None
  }

  /** A loaded `Mod` instance: its id and its instance attributes. */
  class ModInstance {
    const id: int
    var attrs: map<string, Option<FileRow>>

    /** No getter has ever written an attribute that a getter reads. */
    ghost predicate Valid()
      reads this
    {
      CacheReadName(Pc) !in attrs && CacheReadName(Quest) !in attrs
    }

    constructor (id: int)
      ensures this.id == id && attrs == map[] && Valid()
    {
      this.id := id;
      attrs := map[];
    }

    /**
     * `get_pc_file` / `get_quest_file`.  Because the cache is read under one name and
     * written under another, every call queries the store afresh.
     */
    method GetFile(db: Db, p: Platform) returns (f: Option<FileRow>)
      requires Valid()
      modifies this
      ensures Valid()
      ensures f == FileOf(db.State(), p, id)
      ensures attrs == old(attrs)[CacheWriteName(p) := f]
    {
      var cached := GetAttr(attrs, CacheReadName(p));
      f := if cached.Some? then cached else FileOf(db.State(), p, id);
      attrs := attrs[CacheWriteName(p) := f];
    }

    /** `get_last_file_change`. */
    method GetLastFileChange(db: Db) returns (r: Option<int>)
      requires Valid()
      modifies this
      ensures Valid()
      ensures r == LastFileChange(FileOf(db.State(), Pc, id), FileOf(db.State(), Quest, id))
    {
      var pc := GetFile(db, Pc);
      var quest := GetFile(db, Quest);
      r := LastFileChange(pc, quest);
    }

    /** `clear_files`: each file found by a fresh query is deleted, with what it owns. */
    method ClearFiles(db: Db)
      requires Valid()
      modifies this, db
      ensures Valid()
      ensures db.State() == ClearFilesOf(old(db.State()), id)
    {
      var quest := GetFile(db, Quest);
      if quest.Some? {
        db.Commit(DeleteFile(db.State(), Quest, id));
      }
      var pc := GetFile(db, Pc);
      if pc.Some? {
        db.Commit(DeleteFile(db.State(), Pc, id));
      }
    }
  }

  /** After `clear_files`, the getters see no file at all: nothing stale is served. */
  lemma ClearedModHasNoFiles(s: Store, modId: int)
    ensures LastFileChange(FileOf(ClearFilesOf(s, modId), Pc, modId), FileOf(ClearFilesOf(s, modId), Quest, modId)).None?
  {
  }
}
