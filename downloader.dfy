/**
 * The sync pass over the mod.io listing: for each mod of a page, decide whether it
 * changed since it was stored; refresh only its statistics when it did not, and
 * otherwise re-insert it, rediscover its files and load the pallets of each file.
 * A pallet load error marks the mod malformed, records the error and skips the rest
 * of that mod; the page goes on with the next mod.  Also: the thumbnail URL rewrite
 * and the removal of extracted pallet files nothing refers to any more.
 *
 * What the network answers (file listings, redirect targets, downloads), the clock
 * and the random draw are inputs.
 */
module Downloader {
  import opened Base
  import opened Text
  import opened Utils
  import opened Models
  import opened ModFiles
  import opened Pallets
  import ManifestRun

  // ---------------------------------------------------------------------------
  // mod_logo_url

  /** The thumbnail used when a mod has no logo. */
  const DefaultLogo := "https://thumb.modcdn.io/games/38ef/3809/crop_128x128/bonelabthumb.png"

  /** What every `crop_<w>x<h>` is replaced with. */
  const Crop128 := "crop_128x128"

  /**
   * Length of a match of `crop_\d+x\d+` at the start of `s`, or 0 when there is none.
   * Both digit runs are greedy; since a digit is never an `x`, giving digits back
   * cannot produce another match.
   */
  function CropMatch(s: string): (n: nat)
    ensures n == 0 || (6 < n <= |s| && StartsWith(s, "crop_"))
  {
    if !StartsWith(s, "crop_") then 0
    else
      var a := LeadingDigits(s[5..]);
      if a == 0 || 5 + a >= |s| || s[5 + a] != 'x' then 0
      else
        var b := LeadingDigits(s[6 + a..]);
        if b == 0 then 0 else 6 + a + b
  }

  /** `re.sub(r"(crop_\d+x\d+)", "crop_128x128", s)`: leftmost matches, left to right, not overlapping. */
  function ReplaceCrops(s: string): string
    decreases |s|
  {
    if s == [] then []
    else if CropMatch(s) > 0 then Crop128 + ReplaceCrops(s[CropMatch(s)..])
    else [s[0]] + ReplaceCrops(s[1..])
  }

  lemma CropMatchOfToken(w: string, h: string, rest: string)
    requires |w| > 0 && AllDigits(w) && |h| > 0 && AllDigits(h)
    requires rest == [] || !IsDigit(rest[0])
    ensures CropMatch("crop_" + (w + ("x" + (h + rest)))) == 6 + |w| + |h|
  {
    var tail := "x" + (h + rest);
    var t := w + tail;
    var s := "crop_" + t;
    assert s[..5] == "crop_";
    assert s[5..] == t;
    LeadingDigitsOfDigits(w, tail);
    assert s[5 + |w|] == t[|w|] == 'x';
    assert s[6 + |w|..] == h + rest;
    LeadingDigitsOfDigits(h, rest);
  }

  /** A whole `crop_<digits>x<digits>` token, not followed by a digit, becomes `crop_128x128`. */
  lemma CropTokenReplaced(w: string, h: string, rest: string)
    requires |w| > 0 && AllDigits(w) && |h| > 0 && AllDigits(h)
    requires rest == [] || !IsDigit(rest[0])
    ensures ReplaceCrops("crop_" + (w + ("x" + (h + rest)))) == Crop128 + ReplaceCrops(rest)
  {
    var token := "crop_" + (w + ("x" + h));
    var s := "crop_" + (w + ("x" + (h + rest)));
    assert s == token + rest;
    assert |token| == 6 + |w| + |h|;
    CropMatchOfToken(w, h, rest);
    assert s[|token|..] == rest;
    ReplaceCropsAtMatch(s);
  }

  lemma ReplaceCropsAtMatch(s: string)
    requires CropMatch(s) > 0
    ensures ReplaceCrops(s) == Crop128 + ReplaceCrops(s[CropMatch(s)..])
  {
  }

  /** Text without any `crop_` is left as it is. */
  lemma {:induction false} NoCropUnchanged(s: string)
    requires !Contains(s, "crop_")
    ensures ReplaceCrops(s) == s
    decreases |s|
  {
    if s != [] {
      assert !StartsWith(s, "crop_");
      NoCropUnchanged(s[1..]);
    }
  }

  /** `mod_logo_url`: the default without a logo, else `small` (or `original` when empty) rewritten. */
  function LogoUrl(api: ApiMod): (url: string)
    ensures api.logo.None? ==> url == DefaultLogo
    ensures api.logo.Some? && api.logo.value.small != [] ==> url == ReplaceCrops(api.logo.value.small)
    ensures api.logo.Some? && api.logo.value.small == [] ==> url == ReplaceCrops(api.logo.value.original)
  {
    match api.logo
    case None => DefaultLogo
    case Some(logo) => ReplaceCrops(if logo.small != [] then logo.small else logo.original)
  }

  // ---------------------------------------------------------------------------
  // Inputs and outcomes

  /**
   * What the network answers: the file listing the API returns for a mod (newest
   * first: sorted by id, reversed, at most 10 entries), the `Location` header of each download
   * url, and the download of each file id.
   */
  datatype Remote = Remote(
    listing: int -> seq<ApiFile>,
    location: map<string, string>,
    download: int -> Download)

  /** One mod of a page, with the random draw and the clock reading its visit uses. */
  datatype Visit = Visit(api: ApiMod, draw: bool, now: int)

  /** How the processing of one mod ended: normally, by `ModSkip`, or by another exception. */
  datatype Outcome = Done | Skipped | Crashed(exception: string)

  // ---------------------------------------------------------------------------
  // update_stats_mod / insert_mod

  /** The row `insert_mod` writes. */
  function NewRow(api: ApiMod, now: int): ModRow
  {
    ModRow(api.name, api.summary, ApiModUpdated(api), now, false, api.explicit, LogoUrl(api), api.rank, api.downloads)
  }

  /**
   * `update_stats_mod`: only the listing statistics are rewritten (and the malformed
   * flag cleared); the update time, the check time and all files stay.  On an id with
   * no row, the row to create would lack its update time: an integrity error.
   */
  function RefreshStats(s: Store, api: ApiMod): (r: (Store, Outcome))
    ensures api.id !in s.mods ==> r == (s, Crashed("IntegrityError"))
    ensures api.id in s.mods ==> r.1 == Done && r.0.files == s.files && r.0.pallets == s.pallets && r.0.errors == s.errors
    ensures api.id in s.mods ==> r.0.mods.Keys == s.mods.Keys && forall m :: m in s.mods && m != api.id ==> r.0.mods[m] == s.mods[m]
    ensures api.id in s.mods ==>
      var row := r.0.mods[api.id];
      row.modUpdated == s.mods[api.id].modUpdated && row.lastChecked == s.mods[api.id].lastChecked &&
      row.name == api.name && row.description == api.summary && row.thumbnailUrl == LogoUrl(api) &&
      !row.malformed && row.nsfw == api.explicit && row.rank == api.rank && row.downloads == api.downloads
  {
    if api.id !in s.mods then (s, Crashed("IntegrityError"))
    else
      var row := s.mods[api.id].(name := api.name, description := api.summary, thumbnailUrl := LogoUrl(api),
                                 malformed := false, nsfw := api.explicit, rank := api.rank, downloads := api.downloads);
      (PutMod(s, api.id, row), Done)
  }

  /**
   * `pallet_from_file`: run the pallet handler; on a pallet load error mark the mod
   * malformed, store the error (its message) for the file and skip the mod.
   */
  function HandleFile(s: Store, modId: int, p: Platform, file: FileRow, d: Download): (Store, Outcome)
  {
    AfterLoad(LoadPallets(s, p, file, d), modId, p, file.id)
  }

  /**
   * What `pallet_from_file` makes of the handler's end: the file counts as handled
   * exactly when the handler succeeded, and then the store is what the handler left;
   * a skip leaves an error stored for the file and the mod flagged malformed.
   */
  function AfterLoad(loaded: (Store, Result<(), Failure>), modId: int, p: Platform, fid: int): (r: (Store, Outcome))
    ensures r.1.Done? <==> loaded.1.Ok?
    ensures r.1.Done? ==> r.0 == loaded.0
    ensures r.1.Skipped? ==> HasError(r.0, p, fid) && (modId in loaded.0.mods ==> modId in r.0.mods && r.0.mods[modId].malformed)
    ensures r.1.Crashed? && loaded.1.Err? && loaded.1.error.Load? ==> HasError(loaded.0, p, fid) || !FileIdStored(loaded.0, p, fid)
  {
    match loaded.1
    case Ok(_) => (loaded.0, Done)
    case Err(Crash(e)) => (loaded.0, Crashed(e))
    case Err(Load(err)) =>
      var s1 := MarkMalformed(loaded.0, modId);
      match InsertError(s1, p, fid, err.message)
      case Err(e) => (s1, Crashed(e))
      case Ok(s2) => (s2, Skipped)
  }

  /** The second half of `insert_mod_files`: the PC file first, the quest file only if that went through. */
  function HandleFiles(s: Store, modId: int, remote: Remote): (Store, Outcome)
  {
    var pc := FileOf(s, Pc, modId);
    var first := if pc.Some? then HandleFile(s, modId, Pc, pc.value, remote.download(pc.value.id)) else (s, Done);
    if !first.1.Done? then first
    else
      var quest := FileOf(first.0, Quest, modId);
      if quest.Some? then HandleFile(first.0, modId, Quest, quest.value, remote.download(quest.value.id))
      else first
  }

  /**
   * `insert_mod`: write the row, drop the old files when the row already existed,
   * rediscover the files and load their pallets.
   */
  function Reinsert(s: Store, api: ApiMod, now: int, remote: Remote): (Store, Outcome)
  {
    var s1 := PutMod(s, api.id, NewRow(api, now));
    var s2 := if api.id in s.mods then ClearFilesOf(s1, api.id) else s1;
    var saved := ApplySaves(s2, api.id, Saves(remote.listing(api.id), true, true), remote.location);
    if saved.1.Some? then (saved.0, Crashed(saved.1.value))
    else HandleFiles(saved.0, api.id, remote)
  }

  // ---------------------------------------------------------------------------
  // insert_update_mod

  /** A stored file of the platform without any pallet. */
  predicate MissingPallets(s: Store, p: Platform, modId: int)
  {
    FileOf(s, p, modId).Some? && PalletsOf(s, p, FileOf(s, p, modId).value.id) == []
  }

  /**
   * The change test of `insert_update_mod` for a stored mod: the remote update time is
   * later; or, when the draw allows the backfill check, a stored file has no pallet;
   * or the mod has no live file, or no stored file, or a live file newer than both.
   */
  predicate Changed(s: Store, api: ApiMod, draw: bool)
    requires api.id in s.mods
  {
    s.mods[api.id].modUpdated < api.updated ||
    (draw && (MissingPallets(s, Pc, api.id) || MissingPallets(s, Quest, api.id))) ||
    api.file.None? ||
    LastFileChange(FileOf(s, Pc, api.id), FileOf(s, Quest, api.id)).None? ||
    api.file.value.date > LastFileChange(FileOf(s, Pc, api.id), FileOf(s, Quest, api.id)).value
  }

  /** `insert_update_mod`: a new or changed mod is re-inserted, an unchanged one refreshed. */
  function Sync(s: Store, v: Visit, remote: Remote): (Store, Outcome)
  {
    if v.api.id !in s.mods || Changed(s, v.api, v.draw) then Reinsert(s, v.api, v.now, remote)
    else RefreshStats(s, v.api)
  }

  /**
   * `insert_mods` over a page: a skipped mod is passed over, any other exception ends
   * the page (and the run) with that exception.
   */
  function SyncAll(s: Store, page: seq<Visit>, remote: Remote): (Store, Option<string>)
  {
    if page == [] then (s, None)
    else
      var prev := SyncAll(s, page[..|page| - 1], remote);
      if prev.1.Some? then prev
      else
        var next := Sync(prev.0, page[|page| - 1], remote);
        (next.0, if next.1.Crashed? then Some(next.1.exception) else None)
  }

  // ---------------------------------------------------------------------------
  // Properties

  /** `a` and `b` are the same row except perhaps for the malformed flag. */
  predicate SameButMalformed(a: ModRow, b: ModRow)
  {
    a.(malformed := b.malformed) == b
  }

  /**
   * Between `s` and `r` the file table is the same, every mod keeps its row except that
   * mod `modId` may have been flagged malformed, and pallets and errors changed at most
   * for the files in `touched`.
   */
  ghost predicate Confined(s: Store, r: Store, modId: int, touched: set<(Platform, int)>)
  {
    r.files == s.files && r.mods.Keys == s.mods.Keys &&
    (forall m :: m in s.mods && m != modId ==> r.mods[m] == s.mods[m]) &&
    (modId in s.mods ==> SameButMalformed(r.mods[modId], s.mods[modId])) &&
    forall q, g :: (q, g) !in touched ==> PalletsOf(r, q, g) == PalletsOf(s, q, g) && (HasError(r, q, g) <==> HasError(s, q, g))
  }

  lemma ConfinedTrans(s: Store, t: Store, r: Store, modId: int, a: set<(Platform, int)>, b: set<(Platform, int)>)
    requires Confined(s, t, modId, a) && Confined(t, r, modId, b)
    ensures Confined(s, r, modId, a + b)
  {
    if modId in s.mods {
      assert SameButMalformed(t.mods[modId], s.mods[modId]);
      assert SameButMalformed(r.mods[modId], t.mods[modId]);
    }
  }

  /** Handling one file changes only that file's pallets and error, and perhaps the mod's malformed flag. */
  lemma HandleFileConfined(s: Store, modId: int, p: Platform, file: FileRow, d: Download)
    ensures Confined(s, HandleFile(s, modId, p, file, d).0, modId, {(p, file.id)})
  {
    LoadPalletsFrame(s, p, file, d);
    var loaded := LoadPallets(s, p, file, d);
    assert Confined(s, loaded.0, modId, {(p, file.id)});
    AfterLoadConfined(loaded, modId, p, file.id);
    ConfinedTrans(s, loaded.0, AfterLoad(loaded, modId, p, file.id).0, modId, {(p, file.id)}, {(p, file.id)});
  }

  lemma AfterLoadConfined(loaded: (Store, Result<(), Failure>), modId: int, p: Platform, fid: int)
    ensures Confined(loaded.0, AfterLoad(loaded, modId, p, fid).0, modId, {(p, fid)})
  {
    if loaded.1.Err? && loaded.1.error.Load? {
      var s1 := MarkMalformed(loaded.0, modId);
      assert Confined(loaded.0, s1, modId, {});
      var ins := InsertError(s1, p, fid, loaded.1.error.error.message);
      if ins.Ok? {
        assert Confined(s1, ins.value, modId, {(p, fid)});
        ConfinedTrans(loaded.0, s1, ins.value, modId, {}, {(p, fid)});
        assert {} + {(p, fid)} == {(p, fid)};
      }
    }
  }

  /**
   * A PC file whose pallets fail to load ends the mod there: the quest file is never
   * downloaded, and no quest pallet or quest error is added or removed.
   */
  lemma PcFailureSkipsQuest(s: Store, modId: int, remote: Remote)
    requires FileOf(s, Pc, modId).Some?
    requires !HandleFile(s, modId, Pc, FileOf(s, Pc, modId).value, remote.download(FileOf(s, Pc, modId).value.id)).1.Done?
    ensures HandleFiles(s, modId, remote) ==
      HandleFile(s, modId, Pc, FileOf(s, Pc, modId).value, remote.download(FileOf(s, Pc, modId).value.id))
    ensures !HandleFiles(s, modId, remote).1.Done?
    ensures forall g :: PalletsOf(HandleFiles(s, modId, remote).0, Quest, g) == PalletsOf(s, Quest, g)
    ensures forall g :: HasError(HandleFiles(s, modId, remote).0, Quest, g) <==> HasError(s, Quest, g)
  {
    var pc := FileOf(s, Pc, modId).value;
    HandleFileConfined(s, modId, Pc, pc, remote.download(pc.id));
    forall g ensures (Quest, g) !in {(Pc, pc.id)} {
    }
  }

  /** Handling both files keeps the file table, and every mod row up to `modId`'s malformed flag. */
  lemma HandleFilesEffect(s: Store, modId: int, remote: Remote)
    ensures Confined(s, HandleFiles(s, modId, remote).0, modId, HandledFiles(s, modId))
  {
    var pc := FileOf(s, Pc, modId);
    var first := if pc.Some? then HandleFile(s, modId, Pc, pc.value, remote.download(pc.value.id)) else (s, Done);
    var a: set<(Platform, int)> := if pc.Some? then {(Pc, pc.value.id)} else {};
    if pc.Some? {
      HandleFileConfined(s, modId, Pc, pc.value, remote.download(pc.value.id));
    }
    assert Confined(s, first.0, modId, a);
    if first.1.Done? {
      var quest := FileOf(first.0, Quest, modId);
      if quest.Some? {
        HandleFileConfined(first.0, modId, Quest, quest.value, remote.download(quest.value.id));
        ConfinedTrans(s, first.0, HandleFiles(s, modId, remote).0, modId, a, {(Quest, quest.value.id)});
      }
    }
  }

  /** The files whose pallets and errors handling the mod's files may change. */
  function HandledFiles(s: Store, modId: int): set<(Platform, int)>
  {
    (if FileOf(s, Pc, modId).Some? then {(Pc, FileOf(s, Pc, modId).value.id)} else {}) +
    (if FileOf(s, Quest, modId).Some? then {(Quest, FileOf(s, Quest, modId).value.id)} else {})
  }

  /**
   * A re-insert writes the mod's row as `insert_mod` builds it (up to the malformed
   * flag a pallet failure sets) and leaves every other mod's row as it was.
   */
  lemma ReinsertWritesRow(s: Store, api: ApiMod, now: int, remote: Remote)
    ensures api.id in Reinsert(s, api, now, remote).0.mods
    ensures SameButMalformed(Reinsert(s, api, now, remote).0.mods[api.id], NewRow(api, now))
    ensures forall m :: m != api.id ==> (m in Reinsert(s, api, now, remote).0.mods <==> m in s.mods)
    ensures forall m :: m != api.id && m in s.mods ==> Reinsert(s, api, now, remote).0.mods[m] == s.mods[m]
  {
    var s1 := PutMod(s, api.id, NewRow(api, now));
    var s2 := if api.id in s.mods then ClearFilesOf(s1, api.id) else s1;
    assert s2.mods == s1.mods;
    var saves := Saves(remote.listing(api.id), true, true);
    ApplySavesKeeps(s2, api.id, saves, remote.location);
    var saved := ApplySaves(s2, api.id, saves, remote.location);
    if saved.1.None? {
      HandleFilesEffect(saved.0, api.id, remote);
    }
  }

  /**
   * After a re-insert the stored update time is never earlier than the remote one, so
   * on the next pass that test alone no longer marks the mod changed.
   */
  lemma ReinsertSettlesUpdateTime(s: Store, api: ApiMod, now: int, remote: Remote)
    ensures api.id in Reinsert(s, api, now, remote).0.mods
    ensures Reinsert(s, api, now, remote).0.mods[api.id].modUpdated >= api.updated
  {
    ReinsertWritesRow(s, api, now, remote);
  }

  /**
   * On a consistent store, a re-insert that does not crash leaves the mod with exactly
   * the files chosen from the listing: for each platform the first listed file
   * targeting it, with the redirect target as url, or none.
   */
  lemma ReinsertRediscoversFiles(s: Store, api: ApiMod, now: int, remote: Remote, p: Platform)
    requires Consistent(s)
    requires !Reinsert(s, api, now, remote).1.Crashed?
    ensures FirstFor(remote.listing(api.id), p).None? ==> FileOf(Reinsert(s, api, now, remote).0, p, api.id).None?
    ensures FirstFor(remote.listing(api.id), p).Some? ==>
      FirstFor(remote.listing(api.id), p).value.url in remote.location &&
      FileOf(Reinsert(s, api, now, remote).0, p, api.id) ==
        Some(StoredRow(FirstFor(remote.listing(api.id), p).value, remote.location[FirstFor(remote.listing(api.id), p).value.url]))
  {
    var files := remote.listing(api.id);
    var s1 := PutMod(s, api.id, NewRow(api, now));
    var s2 := if api.id in s.mods then ClearFilesOf(s1, api.id) else s1;
    assert FileOf(s2, p, api.id).None? by {
      if api.id !in s.mods {
        assert (p, api.id) !in s.files;
      }
    }
    var saved := ApplySaves(s2, api.id, Saves(files, true, true), remote.location);
    assert saved.1.None?;
    SavedFileOf(s2, api.id, files, remote.location, p);
    assert FileOf(Reinsert(s, api, now, remote).0, p, api.id) == FileOf(saved.0, p, api.id) by {
      HandleFilesEffect(saved.0, api.id, remote);
    }
  }

  /**
   * After `insert_mod_files` on a mod with no file of the platform, the platform's file
   * is the first listed one targeting it, or there is none.
   */
  lemma SavedFileOf(s: Store, modId: int, files: seq<ApiFile>, location: map<string, string>, p: Platform)
    requires ApplySaves(s, modId, Saves(files, true, true), location).1.None?
    requires FileOf(s, p, modId).None?
    ensures FirstFor(files, p).None? ==> FileOf(ApplySaves(s, modId, Saves(files, true, true), location).0, p, modId).None?
    ensures FirstFor(files, p).Some? ==>
      FirstFor(files, p).value.url in location &&
      FileOf(ApplySaves(s, modId, Saves(files, true, true), location).0, p, modId) ==
        Some(StoredRow(FirstFor(files, p).value, location[FirstFor(files, p).value.url]))
  {
    var saves := Saves(files, true, true);
    SavesOnePerPlatform(files, true, true);
    SavesAreFirstPerPlatform(files, true, true);
    ApplySavesStores(s, modId, saves, location);
    if FirstFor(files, p).Some? {
      assert (p, FirstFor(files, p).value) in saves;
    } else {
      forall f ensures (p, f) !in saves {
      }
    }
  }

  /** Processing a mod never removes a mod row, and unless it crashes the mod's row is there. */
  lemma SyncKeepsMods(s: Store, v: Visit, remote: Remote)
    ensures s.mods.Keys <= Sync(s, v, remote).0.mods.Keys
    ensures !Sync(s, v, remote).1.Crashed? ==> v.api.id in Sync(s, v, remote).0.mods
  {
    if v.api.id !in s.mods || Changed(s, v.api, v.draw) {
      ReinsertWritesRow(s, v.api, v.now, remote);
    }
  }

  /**
   * Failure isolation: when a page completes, every mod of it has a row, including
   * mods that came after one that was skipped.
   */
  lemma {:induction false} SyncAllStoresEveryMod(s: Store, page: seq<Visit>, remote: Remote)
    requires SyncAll(s, page, remote).1.None?
    ensures s.mods.Keys <= SyncAll(s, page, remote).0.mods.Keys
    ensures forall i :: 0 <= i < |page| ==> page[i].api.id in SyncAll(s, page, remote).0.mods
  {
    if page != [] {
      var init := page[..|page| - 1];
      var v := page[|page| - 1];
      SyncAllStoresEveryMod(s, init, remote);
      var prev := SyncAll(s, init, remote);
      SyncKeepsMods(prev.0, v, remote);
      var next := Sync(prev.0, v, remote);
      assert SyncAll(s, page, remote).0 == next.0 && !next.1.Crashed?;
      assert v.api.id in next.0.mods;
      forall i | 0 <= i < |page| ensures page[i].api.id in next.0.mods {
        if i < |init| {
          assert page[i] == init[i];
          assert page[i].api.id in prev.0.mods;
        } else {
          assert i == |page| - 1;
        }
      }
    }
  }

  lemma {:induction false} SyncAllErrorPersists(s: Store, page: seq<Visit>, remote: Remote, n: nat)
    requires n <= |page| && SyncAll(s, page[..n], remote).1.Some?
    ensures SyncAll(s, page, remote) == SyncAll(s, page[..n], remote)
    decreases |page| - n
  {
    if n < |page| {
      assert page[..n + 1][..n] == page[..n];
      SyncAllErrorPersists(s, page, remote, n + 1);
    } else {
      assert page[..n] == page;
    }
  }

  // ---------------------------------------------------------------------------
  // The methods of `Run`

  /** `pallet_from_file`. */
  method PalletFromFile(db: Db, modId: int, p: Platform, file: FileRow, d: Download) returns (o: Outcome)
    modifies db
    ensures db.State() == HandleFile(old(db.State()), modId, p, file, d).0
    ensures o == HandleFile(old(db.State()), modId, p, file, d).1
  {
    var r := Run(db, p, file, d);
    if r.Ok? {
      return Done;
    }
    if r.error.Crash? {
      return Crashed(r.error.exception);
    }
    db.Commit(MarkMalformed(db.State(), modId));
    var saved := InsertError(db.State(), p, file.id, r.error.error.message);
    if saved.Err? {
      return Crashed(saved.error);
    }
    db.Commit(saved.value);
    o := Skipped;
  }

  /** The second half of `insert_mod_files`, through the getters of the mod instance. */
  method LoadModPallets(db: Db, mod: ModInstance, remote: Remote) returns (o: Outcome)
    requires mod.Valid()
    modifies db, mod
    ensures mod.Valid()
    ensures db.State() == HandleFiles(old(db.State()), mod.id, remote).0
    ensures o == HandleFiles(old(db.State()), mod.id, remote).1
  {
    var pc := mod.GetFile(db, Pc);
    o := Done;
    if pc.Some? {
      o := PalletFromFile(db, mod.id, Pc, pc.value, remote.download(pc.value.id));
      if !o.Done? {
        return;
      }
    }
    var quest := mod.GetFile(db, Quest);
    if quest.Some? {
      o := PalletFromFile(db, mod.id, Quest, quest.value, remote.download(quest.value.id));
    }
  }

  /**
   * `insert_mod`.  The same instance that cleared the old files is asked for the new
   * ones; its getters query afresh, so it sees the files just inserted.
   */
  method InsertMod(db: Db, api: ApiMod, now: int, remote: Remote) returns (o: Outcome)
    modifies db
    ensures db.State() == Reinsert(old(db.State()), api, now, remote).0
    ensures o == Reinsert(old(db.State()), api, now, remote).1
  {
    var created := api.id !in db.mods;
    db.Commit(PutMod(db.State(), api.id, NewRow(api, now)));
    var mod := new ModInstance(api.id);
    if !created {
      mod.ClearFiles(db);
    }
    var r := InsertModFiles(db, api.id, remote.listing(api.id), remote.location);
    if r.Err? {
      return Crashed(r.error);
    }
    o := LoadModPallets(db, mod, remote);
  }

  /**
   * `update_stats_mod` clears the malformed flag but keeps the files and their pallet
   * errors.  A mod flagged for a repeated barcode in one run is therefore picked again by
   * the next run's `malformed_pallet=False` filter, and its duplicate check tries to save
   * a second error for the same file: an integrity error that ends the run.
   */
  lemma StatsRefreshReopensDuplicate(s: Store, api: ApiMod, f: FileRow)
    requires api.id in s.mods && FileOf(s, Pc, api.id) == Some(f)
    requires ManifestRun.HasRepeat(ManifestRun.Barcodes(PalletsOf(s, Pc, f.id))) && HasError(s, Pc, f.id)
    ensures !RefreshStats(s, api).0.mods[api.id].malformed
    ensures ManifestRun.MarkDuplicates(RefreshStats(s, api).0, api.id) == Err("IntegrityError")
    ensures ManifestRun.MarkDuplicatesOnce(RefreshStats(s, api).0, api.id).Ok?
  {
    var r := RefreshStats(s, api).0;
    assert FileOf(r, Pc, api.id) == Some(f) && PalletsOf(r, Pc, f.id) == PalletsOf(s, Pc, f.id);
    assert FileIdStored(r, Pc, f.id) by { assert (Pc, api.id) in r.files; }
    ManifestRun.CheckDuplicateEffect(r, Pc, f);
    ManifestRun.MarkDuplicatesOnceSucceeds(r, api.id);
  }

  /** `update_stats_mod`. */
  method UpdateStatsMod(db: Db, api: ApiMod) returns (o: Outcome)
    modifies db
    ensures db.State() == RefreshStats(old(db.State()), api).0
    ensures o == RefreshStats(old(db.State()), api).1
  {
    if api.id !in db.mods {
      return Crashed("IntegrityError");
    }
    var row := db.mods[api.id];
    row := row.(name := api.name, description := api.summary, thumbnailUrl := LogoUrl(api),
                malformed := false, nsfw := api.explicit, rank := api.rank, downloads := api.downloads);
    db.Commit(PutMod(db.State(), api.id, row));
    o := Done;
  }

  /** The change test of `insert_update_mod`, accumulating its flag check by check. */
  method IsChanged(db: Db, mod: ModInstance, api: ApiMod, draw: bool) returns (changed: bool)
    requires mod.Valid() && mod.id == api.id && api.id in db.State().mods
    modifies mod
    ensures mod.Valid()
    ensures changed == Changed(db.State(), api, draw)
  {
    changed := false;
    if db.mods[api.id].modUpdated < api.updated {
      changed := true;
    }
    if draw {
      var pc := mod.GetFile(db, Pc);
      if pc.Some? && PalletsOf(db.State(), Pc, pc.value.id) == [] {
        changed := true;
      }
      var quest := mod.GetFile(db, Quest);
      if quest.Some? && PalletsOf(db.State(), Quest, quest.value.id) == [] {
        changed := true;
      }
    }
    var last := mod.GetLastFileChange(db);
    if api.file.None? || last.None? || api.file.value.date > last.value {
      changed := true;
    }
  }

  /** `insert_update_mod`. */
  method InsertUpdateMod(db: Db, v: Visit, remote: Remote) returns (o: Outcome)
    modifies db
    ensures db.State() == Sync(old(db.State()), v, remote).0
    ensures o == Sync(old(db.State()), v, remote).1
  {
    if v.api.id !in db.mods {
      o := InsertMod(db, v.api, v.now, remote);
      return;
    }
    var mod := new ModInstance(v.api.id);
    var changed := IsChanged(db, mod, v.api, v.draw);
    if changed {
      o := InsertMod(db, v.api, v.now, remote);
    } else {
      o := UpdateStatsMod(db, v.api);
    }
  }

  /** `insert_mods`: `ModSkip` is caught per mod; any other exception leaves the loop. */
  method InsertMods(db: Db, page: seq<Visit>, remote: Remote) returns (r: Option<string>)
    modifies db
    ensures db.State() == SyncAll(old(db.State()), page, remote).0
    ensures r == SyncAll(old(db.State()), page, remote).1
  {
    ghost var s0 := db.State();
    var i := 0;
    while i < |page|
      invariant 0 <= i <= |page|
      invariant SyncAll(s0, page[..i], remote) == (db.State(), None)
    {
      assert page[..i + 1][..i] == page[..i];
      var o := InsertUpdateMod(db, page[i], remote);
      if o.Crashed? {
        SyncAllErrorPersists(s0, page, remote, i + 1);
        return Some(o.exception);
      }
      i := i + 1;
    }
    assert page[..i] == page;
    r := None;
  }

  // ---------------------------------------------------------------------------
  // delete_old_pallets

  /** The paths every stored pallet, quest or PC, was extracted to. */
  function StoredPaths(s: Store): set<string>
  {
    set k, row | k in s.pallets && row in s.pallets[k] :: row.fsPath
  }

  predicate IsJson(path: string)
  {
    EndsWith(path, ".json")
  }

  /** The directory the pallets are extracted to: the paths it holds. */
  class PalletDir {
    var files: set<string>

    constructor (files: set<string>)
      ensures this.files == files
    {
      this.files := files;
    }

    /** `Path.unlink`. */
    method Unlink(path: string)
      modifies this
      ensures files == old(files) - {path}
    {
      files := files - {path};
    }
  }

  /**
   * `delete_old_pallets`: every `*.json` file that no stored pallet refers to is
   * removed; stored pallets' files and other files stay.
   */
  method DeleteOldPallets(dir: PalletDir, s: Store)
    modifies dir
    ensures dir.files <= old(dir.files)
    ensures forall f :: f in old(dir.files) && (f in StoredPaths(s) || !IsJson(f)) ==> f in dir.files
    ensures forall f :: f in dir.files && IsJson(f) ==> f in StoredPaths(s)
  {
    var paths := StoredPaths(s);
    var todo := set f | f in dir.files && IsJson(f);
    ghost var listing := todo;
    while todo != {}
      invariant todo <= listing
      invariant dir.files == old(dir.files) - set f | f in listing - todo && f !in paths
      decreases |todo|
    {
      var f :| f in todo;
      if f !in paths {
        dir.Unlink(f);
      }
      todo := todo - {f};
    }
  }
}
