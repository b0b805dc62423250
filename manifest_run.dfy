/**
 * The consistency and partition pass that follows the sync: every mod not flagged
 * malformed is loaded; for each, a file whose pallets repeat a barcode gets a pallet
 * error, a mod with a file holding an error is flagged malformed, and the mod is added
 * to the nsfw repository file when it is nsfw, else to the standard one.
 */
module ManifestRun {
  import opened Base
  import opened Models
  import opened SlzJson
  import opened RepositoryFiles

  // ---------------------------------------------------------------------------
  // Most-common counting

  /** `Counter(bs)[b]`. */
  function Count(bs: seq<string>, b: string): nat
  {
    multiset(bs)[b]
  }

  /**
   * The scan `max` makes over the counter's items: the first index of a barcode with
   * the highest count, continuing from index `j` with `best` the winner so far.
   */
  function FirstMostCommon(bs: seq<string>, j: nat, best: nat): (i: nat)
    requires best < j <= |bs|
    requires forall k :: 0 <= k < j ==> Count(bs, bs[k]) <= Count(bs, bs[best])
    requires forall k :: 0 <= k < best ==> Count(bs, bs[k]) < Count(bs, bs[best])
    ensures i < |bs|
    ensures forall k :: 0 <= k < |bs| ==> Count(bs, bs[k]) <= Count(bs, bs[i])
    ensures forall k :: 0 <= k < i ==> Count(bs, bs[k]) < Count(bs, bs[i])
    decreases |bs| - j
  {
    if j == |bs| then best
    else if Count(bs, bs[j]) > Count(bs, bs[best]) then FirstMostCommon(bs, j + 1, j)
    else FirstMostCommon(bs, j + 1, best)
  }

  /**
   * `Counter(bs).most_common(1)[0]`: the counter keeps barcodes in order of first
   * occurrence and `most_common(1)` takes the first one with the highest count.
   */
  function MostCommon(bs: seq<string>): (r: (string, nat))
    requires bs != []
    ensures r.0 in bs && r.1 == Count(bs, r.0)
    ensures forall b :: b in bs ==> Count(bs, b) <= r.1
  {
    var i := FirstMostCommon(bs, 1, 0);
    (bs[i], Count(bs, bs[i]))
  }

  /** Some barcode occurs twice. */
  predicate HasRepeat(bs: seq<string>)
  {
    exists i, j :: 0 <= i < j < |bs| && bs[i] == bs[j]
  }

  function DuplicateMessage(url: string, barcode: string): string
  {
    url + " contains duplicate pallet barcodes: " + barcode
  }

  /** The message `check_duplicate_pallet_for` saves for the barcodes of a file's pallets, if any. */
  function DuplicateError(url: string, bs: seq<string>): Option<string>
  {
    if |bs| > 1 then
      var (barcode, count) := MostCommon(bs);
      if count > 1 then Some(DuplicateMessage(url, barcode)) else None
    else None
  }

  lemma CountOfRepeat(bs: seq<string>, i: nat, j: nat)
    requires i < j < |bs| && bs[i] == bs[j]
    ensures Count(bs, bs[i]) >= 2
  {
    assert bs == bs[..i] + [bs[i]] + bs[i + 1..j] + [bs[j]] + bs[j + 1..];
  }

  lemma RepeatOfCount(bs: seq<string>, b: string)
    requires Count(bs, b) >= 2
    ensures exists i, j :: 0 <= i < j < |bs| && bs[i] == b && bs[j] == b
  {
    var i :| 0 <= i < |bs| && bs[i] == b;
    assert bs == bs[..i] + [b] + bs[i + 1..];
    if b in bs[i + 1..] {
      var j' :| 0 <= j' < |bs[i + 1..]| && bs[i + 1..][j'] == b;
      assert bs[i + 1 + j'] == b;
    } else {
      var i' :| 0 <= i' < |bs[..i]| && bs[..i][i'] == b;
      assert bs[i'] == b;
    }
  }

  /**
   * A duplicate error is raised exactly when some barcode repeats: a file with 0 or 1
   * pallets never gets one, and `[A, B, C]` gets none while `[A, A, B]` does.
   */
  lemma DuplicateIffRepeat(url: string, bs: seq<string>)
    ensures DuplicateError(url, bs).Some? <==> HasRepeat(bs)
  {
    if HasRepeat(bs) {
      var i, j :| 0 <= i < j < |bs| && bs[i] == bs[j];
      CountOfRepeat(bs, i, j);
      assert MostCommon(bs).1 >= Count(bs, bs[i]);
    }
    if DuplicateError(url, bs).Some? {
      RepeatOfCount(bs, MostCommon(bs).0);
    }
  }

  /**
   * The barcode named is the most common one; among equally common barcodes it is the
   * one that occurs first.
   */
  lemma DuplicateNamesFirstMostCommon(url: string, bs: seq<string>)
    requires DuplicateError(url, bs).Some?
    ensures exists i :: (0 <= i < |bs| && DuplicateError(url, bs) == Some(DuplicateMessage(url, bs[i])) &&
                         Count(bs, bs[i]) > 1 &&
                         (forall k :: 0 <= k < |bs| ==> Count(bs, bs[k]) <= Count(bs, bs[i])) &&
                         (forall k :: 0 <= k < i ==> bs[k] != bs[i] && Count(bs, bs[k]) < Count(bs, bs[i])))
  {
    var i := FirstMostCommon(bs, 1, 0);
    assert DuplicateError(url, bs) == Some(DuplicateMessage(url, bs[i]));
  }

  // ---------------------------------------------------------------------------
  // The store operations of the pass

  /** `[p.barcode for p in pallets]`. */
  function Barcodes(ps: seq<PalletRow>): (bs: seq<string>)
    ensures |bs| == |ps| && forall i :: 0 <= i < |ps| ==> bs[i] == ps[i].barcode
  {
    seq(|ps|, i requires 0 <= i < |ps| => ps[i].barcode)
  }

  /**
   * `check_duplicate_pallet_for`: a file whose pallets repeat a barcode gets a pallet
   * error; a second error for one file violates the one-to-one link and is an
   * integrity error.
   */
  function CheckDuplicate(s: Store, p: Platform, f: FileRow): Result<Store, string>
  {
    match DuplicateError(f.url, Barcodes(PalletsOf(s, p, f.id)))
    case None => Ok(s)
    case Some(msg) => InsertError(s, p, f.id, msg)
  }

  /** `mark_duplicate_pallets`: the PC file, then the quest file. */
  function MarkDuplicates(s: Store, modId: int): Result<Store, string>
  {
    var pc := FileOf(s, Pc, modId);
    var s1 :- if pc.Some? then CheckDuplicate(s, Pc, pc.value) else Ok(s);
    var quest := FileOf(s1, Quest, modId);
    if quest.Some? then CheckDuplicate(s1, Quest, quest.value) else Ok(s1)
  }

  /**
   * `set_malformed` on a loaded instance whose fields are `row`: for each file holding an
   * error, the flag is set on the instance and the instance is saved.
   */
  function SetMalformedOf(s: Store, modId: int, row: ModRow): (Store, ModRow)
  {
    var pc := FileOf(s, Pc, modId);
    var (s1, r1) := if pc.Some? && HasError(s, Pc, pc.value.id) then
      (PutMod(s, modId, row.(malformed := true)), row.(malformed := true)) else (s, row);
    var quest := FileOf(s1, Quest, modId);
    if quest.Some? && HasError(s1, Quest, quest.value.id) then
      (PutMod(s1, modId, r1.(malformed := true)), r1.(malformed := true)) else (s1, r1)
  }

  /** Some file of the mod holds a pallet error. */
  predicate FileHasError(s: Store, modId: int)
  {
    (FileOf(s, Pc, modId).Some? && HasError(s, Pc, FileOf(s, Pc, modId).value.id)) ||
    (FileOf(s, Quest, modId).Some? && HasError(s, Quest, FileOf(s, Quest, modId).value.id))
  }

  /** A duplicate check adds at most the file's error and changes nothing else. */
  lemma CheckDuplicateEffect(s: Store, p: Platform, f: FileRow)
    requires FileIdStored(s, p, f.id)
    ensures !HasRepeat(Barcodes(PalletsOf(s, p, f.id))) ==> CheckDuplicate(s, p, f) == Ok(s)
    ensures HasRepeat(Barcodes(PalletsOf(s, p, f.id))) && !HasError(s, p, f.id) ==>
      CheckDuplicate(s, p, f).Ok? && CheckDuplicate(s, p, f).value.errors.Keys == s.errors.Keys + {(p, f.id)}
    ensures HasRepeat(Barcodes(PalletsOf(s, p, f.id))) && HasError(s, p, f.id) ==>
      CheckDuplicate(s, p, f) == Err("IntegrityError")
    ensures CheckDuplicate(s, p, f).Ok? ==> var r := CheckDuplicate(s, p, f).value;
      r.mods == s.mods && r.files == s.files && r.pallets == s.pallets && s.errors.Keys <= r.errors.Keys
  {
    DuplicateIffRepeat(f.url, Barcodes(PalletsOf(s, p, f.id)));
  }

  /**
   * The duplicate check made safe to repeat: a file that already holds its pallet error
   * is left as it is, so a mod whose malformed flag was cleared while its error stayed
   * does not break the one-to-one link on the next run.
   */
  function CheckDuplicateOnce(s: Store, p: Platform, f: FileRow): Result<Store, string>
  {
    if HasError(s, p, f.id) then Ok(s) else CheckDuplicate(s, p, f)
  }

  /** `mark_duplicate_pallets` with the repeatable check. */
  function MarkDuplicatesOnce(s: Store, modId: int): Result<Store, string>
  {
    var pc := FileOf(s, Pc, modId);
    var s1 :- if pc.Some? then CheckDuplicateOnce(s, Pc, pc.value) else Ok(s);
    var quest := FileOf(s1, Quest, modId);
    if quest.Some? then CheckDuplicateOnce(s1, Quest, quest.value) else Ok(s1)
  }

  /**
   * The repeatable check never fails on a stored file: afterwards the file holds an
   * error exactly when it held one before or its barcodes repeat, and only the error
   * table changes.
   */
  lemma CheckDuplicateOnceSucceeds(s: Store, p: Platform, f: FileRow)
    requires FileIdStored(s, p, f.id)
    ensures CheckDuplicateOnce(s, p, f).Ok?
    ensures var r := CheckDuplicateOnce(s, p, f).value;
      r.mods == s.mods && r.files == s.files && r.pallets == s.pallets && s.errors.Keys <= r.errors.Keys &&
      (HasError(r, p, f.id) <==> HasError(s, p, f.id) || HasRepeat(Barcodes(PalletsOf(s, p, f.id))))
  {
    if !HasError(s, p, f.id) {
      CheckDuplicateEffect(s, p, f);
    }
  }

  /** Marking duplicates with the repeatable check never ends the run with an integrity error. */
  lemma MarkDuplicatesOnceSucceeds(s: Store, modId: int)
    ensures MarkDuplicatesOnce(s, modId).Ok?
    ensures var r := MarkDuplicatesOnce(s, modId).value;
      r.mods == s.mods && r.files == s.files && r.pallets == s.pallets && s.errors.Keys <= r.errors.Keys
  {
    var s1 := s;
    if FileOf(s, Pc, modId).Some? {
      assert FileIdStored(s, Pc, FileOf(s, Pc, modId).value.id) by { assert (Pc, modId) in s.files; }
      CheckDuplicateOnceSucceeds(s, Pc, FileOf(s, Pc, modId).value);
      s1 := CheckDuplicateOnce(s, Pc, FileOf(s, Pc, modId).value).value;
    }
    if FileOf(s1, Quest, modId).Some? {
      assert FileIdStored(s1, Quest, FileOf(s1, Quest, modId).value.id) by { assert (Quest, modId) in s1.files; }
      CheckDuplicateOnceSucceeds(s1, Quest, FileOf(s1, Quest, modId).value);
    }
  }

  /**
   * `set_malformed` sets the flag exactly when a file of the mod holds an error, never
   * clears it, saves the row only when it sets it, and touches nothing else.
   */
  lemma SetMalformedFlags(s: Store, modId: int, row: ModRow)
    ensures var (r, row') := SetMalformedOf(s, modId, row);
      row' == row.(malformed := row.malformed || FileHasError(s, modId)) &&
      r.files == s.files && r.pallets == s.pallets && r.errors == s.errors &&
      (FileHasError(s, modId) ==> r.mods == s.mods[modId := row']) &&
      (!FileHasError(s, modId) ==> r == s)
  {
    var pc := FileOf(s, Pc, modId);
    if pc.Some? && HasError(s, Pc, pc.value.id) {
      var s1 := PutMod(s, modId, row.(malformed := true));
      assert FileOf(s1, Quest, modId) == FileOf(s, Quest, modId);
    }
  }

  // ---------------------------------------------------------------------------
  // The pass over the loaded mods

  /** The two types a repository file's new objects use: listing and target. */
  datatype FileTypes = FileTypes(listing: Ref, target: Ref)

  /**
   * The store after the pass so far, the objects each file got, the mods each file got,
   * and the number of objects registered so far.
   */
  datatype Emitted = Emitted(store: Store, std: seq<Element>, nsfw: seq<Element>, stdIds: seq<int>, nsfwIds: seq<int>, count: nat)

  /**
   * One iteration of the loop of `run`: duplicate check, malformed flag, then `add_mod`
   * on the nsfw file or the standard file.
   */
  function Step(e: Emitted, m: (int, ModRow), std: FileTypes, nsfw: FileTypes): Result<Emitted, string>
  {
    var s1 :- MarkDuplicates(e.store, m.0);
    var (s2, row) := SetMalformedOf(s1, m.0, m.1);
    Ok(Added(e, m.0, std, nsfw, s2, row))
  }

  /** `add_mod` of the mod `modId`, whose fields are now `row`, on the file its nsfw flag picks. */
  function Added(e: Emitted, modId: int, std: FileTypes, nsfw: FileTypes, s: Store, row: ModRow): Emitted
  {
    if row.nsfw then
      var es := NewElements(row, s, modId, nsfw.listing, nsfw.target, e.count);
      e.(store := s, nsfw := e.nsfw + es, nsfwIds := e.nsfwIds + [modId], count := e.count + |es|)
    else
      var es := NewElements(row, s, modId, std.listing, std.target, e.count);
      e.(store := s, std := e.std + es, stdIds := e.stdIds + [modId], count := e.count + |es|)
  }

  /** The loop of `run` over the loaded mods, `n` objects being registered before it; the first exception ends it. */
  function Pass(s: Store, mods: seq<(int, ModRow)>, n: nat, std: FileTypes, nsfw: FileTypes): Result<Emitted, string>
  {
    if mods == [] then Ok(Emitted(s, [], [], [], [], n))
    else
      var e :- Pass(s, mods[..|mods| - 1], n, std, nsfw);
      Step(e, mods[|mods| - 1], std, nsfw)
  }

  lemma {:induction false} PassErrorPersists(s: Store, mods: seq<(int, ModRow)>, n: nat, std: FileTypes, nsfw: FileTypes, k: nat)
    requires k <= |mods| && Pass(s, mods[..k], n, std, nsfw).Err?
    ensures Pass(s, mods, n, std, nsfw) == Pass(s, mods[..k], n, std, nsfw)
    decreases |mods| - k
  {
    if k < |mods| {
      assert mods[..k + 1][..k] == mods[..k];
      PassErrorPersists(s, mods, n, std, nsfw, k + 1);
    } else {
      assert mods[..k] == mods;
    }
  }

  /** The ids of the mods whose nsfw flag is `nsfw`, in order. */
  function Route(mods: seq<(int, ModRow)>, nsfw: bool): (ids: seq<int>)
    ensures |ids| <= |mods|
  {
    if mods == [] then []
    else Route(mods[..|mods| - 1], nsfw) + (if mods[|mods| - 1].1.nsfw == nsfw then [mods[|mods| - 1].0] else [])
  }

  /** Every routed id is the id of a loaded mod whose nsfw flag picks that file. */
  lemma {:induction false} RouteFromLoaded(mods: seq<(int, ModRow)>, nsfw: bool, i: nat)
    requires i < |Route(mods, nsfw)|
    ensures exists j :: 0 <= j < |mods| && mods[j].0 == Route(mods, nsfw)[i] && mods[j].1.nsfw == nsfw
  {
    var init := mods[..|mods| - 1];
    var last := |mods| - 1;
    if i < |Route(init, nsfw)| {
      RouteFromLoaded(init, nsfw, i);
      var j :| 0 <= j < |init| && init[j].0 == Route(init, nsfw)[i] && init[j].1.nsfw == nsfw;
      assert mods[j] == init[j] && Route(mods, nsfw)[i] == Route(init, nsfw)[i];
    } else {
      assert Route(mods, nsfw)[i] == mods[last].0 && mods[last].1.nsfw == nsfw;
    }
  }

  function Ids(mods: seq<(int, ModRow)>): (ids: seq<int>)
    ensures |ids| == |mods| && forall i :: 0 <= i < |mods| ==> ids[i] == mods[i].0
  {
    seq(|mods|, i requires 0 <= i < |mods| => mods[i].0)
  }

  /** Every loaded mod goes to exactly one of the two files. */
  lemma {:induction false} RoutePartition(mods: seq<(int, ModRow)>)
    ensures multiset(Route(mods, false)) + multiset(Route(mods, true)) == multiset(Ids(mods))
  {
    if mods != [] {
      var init := mods[..|mods| - 1];
      RoutePartition(init);
      assert Ids(mods) == Ids(init) + [mods[|mods| - 1].0];
    }
  }

  /**
   * The pass sends each mod to the nsfw file when it is nsfw and to the standard file
   * otherwise, in loading order, and keeps every file and pallet.
   */
  lemma {:induction false} PassRoutes(s: Store, mods: seq<(int, ModRow)>, n: nat, std: FileTypes, nsfw: FileTypes)
    requires Consistent(s) && Pass(s, mods, n, std, nsfw).Ok?
    ensures var e := Pass(s, mods, n, std, nsfw).value;
      e.stdIds == Route(mods, false) && e.nsfwIds == Route(mods, true) &&
      e.store.files == s.files && e.store.pallets == s.pallets && e.store.mods.Keys == s.mods.Keys &&
      Consistent(e.store)
  {
    if mods != [] {
      var init := mods[..|mods| - 1];
      var m := mods[|mods| - 1];
      PassRoutes(s, init, n, std, nsfw);
      StepKeeps(Pass(s, init, n, std, nsfw).value, m, std, nsfw);
    }
  }

  /** One step sends the mod to the file its nsfw flag picks and keeps every file and pallet. */
  lemma StepKeeps(e: Emitted, m: (int, ModRow), std: FileTypes, nsfw: FileTypes)
    requires Consistent(e.store) && Step(e, m, std, nsfw).Ok?
    ensures var e' := Step(e, m, std, nsfw).value;
      e'.stdIds == e.stdIds + (if m.1.nsfw then [] else [m.0]) &&
      e'.nsfwIds == e.nsfwIds + (if m.1.nsfw then [m.0] else []) &&
      e'.store.files == e.store.files && e'.store.pallets == e.store.pallets && e'.store.mods.Keys == e.store.mods.Keys &&
      Consistent(e'.store)
  {
    var s1 := MarkDuplicates(e.store, m.0).value;
    var flagged := SetMalformedOf(s1, m.0, m.1);
    assert s1.files == e.store.files && s1.pallets == e.store.pallets && s1.mods == e.store.mods && Consistent(s1) by {
      MarkDuplicatesKeeps(e.store, m.0);
    }
    SetMalformedKeeps(s1, m.0, m.1, flagged.0, flagged.1);
    StepAdds(e, m, std, nsfw, s1, flagged.0, flagged.1);
    AddedRoutes(e, m.0, std, nsfw, flagged.0, flagged.1);
  }

  /** Setting the flag keeps the store consistent, the mods stored, and the nsfw flag. */
  lemma SetMalformedKeeps(s: Store, modId: int, row: ModRow, r: Store, row': ModRow)
    requires Consistent(s) && SetMalformedOf(s, modId, row) == (r, row')
    ensures r.files == s.files && r.pallets == s.pallets && r.mods.Keys == s.mods.Keys && Consistent(r)
    ensures row'.nsfw == row.nsfw
  {
    SetMalformedFlags(s, modId, row);
    if FileHasError(s, modId) {
      assert modId in s.mods;
    }
  }

  /** `Added` records the mod on the file its flag picks and takes the store it is given. */
  lemma AddedRoutes(e: Emitted, modId: int, std: FileTypes, nsfw: FileTypes, s: Store, row: ModRow)
    ensures var e' := Added(e, modId, std, nsfw, s, row);
      e'.store == s &&
      e'.stdIds == e.stdIds + (if row.nsfw then [] else [modId]) &&
      e'.nsfwIds == e.nsfwIds + (if row.nsfw then [modId] else [])
  {
  }

  lemma MarkDuplicatesKeeps(s: Store, modId: int)
    ensures MarkDuplicates(s, modId).Ok? ==> var r := MarkDuplicates(s, modId).value;
      r.mods == s.mods && r.files == s.files && r.pallets == s.pallets && s.errors.Keys <= r.errors.Keys &&
      (Consistent(s) ==> Consistent(r))
  {
  }

  // ---------------------------------------------------------------------------
  // The methods of `__main__`

  /** `check_duplicate_pallet_for`. */
  method CheckDuplicatePalletFor(db: Db, p: Platform, file: FileRow) returns (crash: Option<string>)
    modifies db
    ensures crash.None? ==> CheckDuplicate(old(db.State()), p, file) == Ok(db.State())
    ensures crash.Some? ==> CheckDuplicate(old(db.State()), p, file) == Err(crash.value) && db.State() == old(db.State())
  {
    var pallets := PalletsOf(db.State(), p, file.id);
    crash := None;
    if |pallets| > 1 {
      var barcodes := Barcodes(pallets);
      var (barcode, count) := MostCommon(barcodes);
      if count > 1 {
        var saved := InsertError(db.State(), p, file.id, DuplicateMessage(file.url, barcode));
        if saved.Err? {
          return Some(saved.error);
        }
        db.Commit(saved.value);
      }
    }
  }

  /** `mark_duplicate_pallets`, through the getters of the loaded instance. */
  method MarkDuplicatePallets(db: Db, mod: ModInstance) returns (crash: Option<string>)
    requires mod.Valid()
    modifies db, mod
    ensures mod.Valid()
    ensures crash.None? ==> MarkDuplicates(old(db.State()), mod.id) == Ok(db.State())
    ensures crash.Some? ==> MarkDuplicates(old(db.State()), mod.id) == Err(crash.value)
  {
    var pc := mod.GetFile(db, Pc);
    if pc.Some? {
      crash := CheckDuplicatePalletFor(db, Pc, pc.value);
      if crash.Some? {
        return;
      }
    }
    var quest := mod.GetFile(db, Quest);
    crash := None;
    if quest.Some? {
      crash := CheckDuplicatePalletFor(db, Quest, quest.value);
    }
  }

  /** `set_malformed`: `row` holds the instance's fields; the new fields are returned. */
  method SetMalformed(db: Db, mod: ModInstance, row: ModRow) returns (row': ModRow)
    requires mod.Valid()
    modifies db, mod
    ensures mod.Valid()
    ensures (db.State(), row') == SetMalformedOf(old(db.State()), mod.id, row)
  {
    row' := row;
    var pc := mod.GetFile(db, Pc);
    if pc.Some? && HasError(db.State(), Pc, pc.value.id) {
      row' := row'.(malformed := true);
      db.Commit(PutMod(db.State(), mod.id, row'));
    }
    var quest := mod.GetFile(db, Quest);
    if quest.Some? && HasError(db.State(), Quest, quest.value.id) {
      row' := row'.(malformed := true);
      db.Commit(PutMod(db.State(), mod.id, row'));
    }
  }

  // ---------------------------------------------------------------------------
  // `run`

  const StdFilename := "./static/repository.json"
  const StdName := "mod.io (unofficial)"
  const StdDescription := "Unofficial repository of mod.io mods"
  const NsfwFilename := "./static/nsfw_repository.json"
  const NsfwName := "mod.io nsfw (unofficial)"
  const NsfwDescription := "Unofficial repository of NSFW mod.io mods"

  /**
   * `Mod.filter(malformed_pallet=False)`: the rows not flagged malformed, in the order
   * `ids` the table returns its rows in.
   */
  function Loaded(s: Store, ids: seq<int>): (r: seq<(int, ModRow)>)
    ensures forall i :: 0 <= i < |r| ==> r[i].0 in s.mods && r[i].1 == s.mods[r[i].0] && !r[i].1.malformed
  {
    if ids == [] then []
    else
      var rest := Loaded(s, ids[1..]);
      if ids[0] in s.mods && !s.mods[ids[0]].malformed then [(ids[0], s.mods[ids[0]])] + rest else rest
  }

  /** Every unflagged mod of the table is loaded. */
  lemma {:induction false} LoadedIsComplete(s: Store, ids: seq<int>, id: int)
    requires id in ids && id in s.mods && !s.mods[id].malformed
    ensures exists i :: 0 <= i < |Loaded(s, ids)| && Loaded(s, ids)[i].0 == id
  {
    var rest := Loaded(s, ids[1..]);
    if ids[0] != id {
      LoadedIsComplete(s, ids[1..], id);
      var i :| 0 <= i < |rest| && rest[i].0 == id;
      if ids[0] in s.mods && !s.mods[ids[0]].malformed {
        assert Loaded(s, ids)[i + 1] == rest[i];
      } else {
        assert Loaded(s, ids) == rest;
      }
    } else {
      assert Loaded(s, ids)[0].0 == id;
    }
  }

  /** The types a repository file gives its listings and targets. */
  function TypesOf(f: RepositoryFile): FileTypes
  {
    FileTypes(f.tList.ref, f.tTarget.ref)
  }

  /** The document's root entry, the fixed token, names the file's own root object. */
  ghost predicate RootIsOwn(f: RepositoryFile)
    reads f.objects
  {
    f.objects.entries != [] && Token(f.objects.entries[0].1.ref) == RootToken
  }

  /** Two repository files sharing one registry, with their own containers. */
  ghost predicate Pair(std: RepositoryFile, nsfw: RepositoryFile)
    reads std, nsfw, std.reg, nsfw.reg, std.types, std.objects, nsfw.types, nsfw.objects
  {
    std.Valid() && nsfw.Valid() && std.reg == nsfw.reg &&
    std.objects != nsfw.objects && std.objects != nsfw.types && std.types != nsfw.objects
  }

  /** The objects a repository file starts with: its root, numbered `id`. */
  function RootEntries(name: string, description: string, tRepo: Ref, id: nat): seq<(int, Element)>
  {
    [(id, RootObject(name, description, tRepo, Ref(ObjectKind, id)))]
  }

  /** `RepositoryFile(filename, name, description)` in the registry `reg`. */
  method NewFile(filename: string, name: string, description: string, reg: Registry) returns (f: RepositoryFile)
    requires reg.Valid()
    modifies reg
    ensures f.Valid() && f.reg == reg && fresh(f.types) && fresh(f.objects)
    ensures f.objects.entries == [(|old(reg.objects)| + 1, RootObject(name, description, f.tRepo.ref, Ref(ObjectKind, |old(reg.objects)| + 1)))]
    ensures |reg.objects| == |old(reg.objects)| + 1
  {
    f := new RepositoryFile(filename, name, description, reg);
  }

  /**
   * Lines 48-57 of `run` as written: both files built one after the other in the
   * registry of a fresh process.  The second root object is numbered 2, yet its
   * document's root entry names "o:1", the first file's root.
   */
  method NewFiles() returns (std: RepositoryFile, nsfw: RepositoryFile)
    ensures Pair(std, nsfw)
    ensures RootIsOwn(std) && !RootIsOwn(nsfw)
    ensures fresh(std.reg) && fresh(std.objects) && fresh(nsfw.objects)
    ensures std.objects.entries == RootEntries(StdName, StdDescription, std.tRepo.ref, 1)
    ensures nsfw.objects.entries == RootEntries(NsfwName, NsfwDescription, nsfw.tRepo.ref, 2)
    ensures |std.reg.objects| == 2
  {
    var reg := new Registry();
    std := NewFile(StdFilename, StdName, StdDescription, reg);
    RootTokenIsFirstObject(1);
    nsfw := NewFile(NsfwFilename, NsfwName, NsfwDescription, reg);
    SecondRootIsNotRootToken();
  }

  /** The second object of a registry is not the one the fixed root token names. */
  lemma SecondRootIsNotRootToken()
    ensures Token(Ref(ObjectKind, 2)) != RootToken
  {
    RootTokenIsFirstObject(2);
  }

  /**
   * The two files with `reset()` called before each, which is what the fixed "o:1"
   * root entry needs: each root object is numbered 1, so each root entry names its
   * own file's root.
   */
  method NewFilesReset() returns (std: RepositoryFile, nsfw: RepositoryFile)
    ensures Pair(std, nsfw)
    ensures fresh(std.reg) && fresh(std.objects) && fresh(nsfw.objects)
    ensures std.objects.entries == RootEntries(StdName, StdDescription, std.tRepo.ref, 1)
    ensures nsfw.objects.entries == RootEntries(NsfwName, NsfwDescription, nsfw.tRepo.ref, 1)
    ensures |std.reg.objects| == 1
  {
    var reg := new Registry();
    reg.Reset();
    std := NewFile(StdFilename, StdName, StdDescription, reg);
    reg.Reset();
    nsfw := NewFile(NsfwFilename, NsfwName, NsfwDescription, reg);
    RootTokenIsFirstObject(1);
  }

  /** What `Step` makes of the pass `e` once the mod's duplicate check and flag are known. */
  lemma StepAdds(e: Emitted, m: (int, ModRow), std: FileTypes, nsfw: FileTypes, s1: Store, s2: Store, row: ModRow)
    requires MarkDuplicates(e.store, m.0) == Ok(s1) && SetMalformedOf(s1, m.0, m.1) == (s2, row)
    ensures Step(e, m, std, nsfw) == Ok(Added(e, m.0, std, nsfw, s2, row))
  {
  }

  /** Pairing does not depend on which file is named first. */
  lemma PairSymmetric(a: RepositoryFile, b: RepositoryFile)
    requires Pair(a, b)
    ensures Pair(b, a)
  {
  }

  /** `add_mod` on the file `f` of a pair, whose objects are tracked from `e0`; the other file keeps its objects. */
  method AddToFile(f: RepositoryFile, other: RepositoryFile, row: ModRow, db: Db, mod: ModInstance,
                   ghost e0: seq<(int, Element)>, ghost els: seq<Element>, ghost k: nat)
    requires Pair(f, other) && mod.Valid() && f.objects.entries == PutAll(e0, els) && |f.reg.objects| == k
    modifies f.objects, f.reg, mod
    ensures Pair(f, other) && mod.Valid() && other.objects.entries == old(other.objects.entries)
    ensures f.objects.entries == PutAll(e0, els + NewElements(row, db.State(), mod.id, TypesOf(f).listing, TypesOf(f).target, k))
    ensures |f.reg.objects| == k + |NewElements(row, db.State(), mod.id, TypesOf(f).listing, TypesOf(f).target, k)|
  {
    ghost var es := NewElements(row, db.State(), mod.id, f.tList.ref, f.tTarget.ref, |f.reg.objects|);
    f.AddMod(row, db, mod);
    PutAllAppend(e0, els, es);
  }

  /** The duplicate check and the malformed flag of one mod, on the store alone. */
  method CheckAndFlag(db: Db, mod: ModInstance, row: ModRow) returns (crash: Option<string>, ghost s1: Store, row': ModRow)
    requires mod.Valid()
    modifies db, mod
    ensures mod.Valid()
    ensures crash.Some? ==> MarkDuplicates(old(db.State()), mod.id) == Err(crash.value)
    ensures crash.None? ==> MarkDuplicates(old(db.State()), mod.id) == Ok(s1) &&
                            (db.State(), row') == SetMalformedOf(s1, mod.id, row)
  {
    crash := MarkDuplicatePallets(db, mod);
    s1, row' := db.State(), row;
    if crash.Some? {
      return;
    }
    row' := SetMalformed(db, mod, row);
  }

  /** `Step` ends the pass when the duplicate check raises. */
  lemma StepFails(e: Emitted, m: (int, ModRow), std: FileTypes, nsfw: FileTypes, msg: string)
    requires MarkDuplicates(e.store, m.0) == Err(msg)
    ensures Step(e, m, std, nsfw) == Err(msg)
  {
  }

  /** `add_mod` of a checked and flagged nsfw mod, on the nsfw file, as `Added` says. */
  method AddNsfw(db: Db, std: RepositoryFile, nsfw: RepositoryFile, mod: ModInstance, row: ModRow, ghost e: Emitted,
                 ghost stdE0: seq<(int, Element)>, ghost nsfwE0: seq<(int, Element)>)
    requires Pair(std, nsfw) && mod.Valid() && row.nsfw
    requires |std.reg.objects| == e.count
    requires std.objects.entries == PutAll(stdE0, e.std) && nsfw.objects.entries == PutAll(nsfwE0, e.nsfw)
    modifies std.objects, nsfw.objects, std.reg, mod
    ensures Pair(std, nsfw)
    ensures var e' := Added(e, mod.id, TypesOf(std), TypesOf(nsfw), db.State(), row);
      |std.reg.objects| == e'.count &&
      std.objects.entries == PutAll(stdE0, e'.std) && nsfw.objects.entries == PutAll(nsfwE0, e'.nsfw)
  {
    PairSymmetric(std, nsfw);
    AddToFile(nsfw, std, row, db, mod, nsfwE0, e.nsfw, e.count);
    PairSymmetric(nsfw, std);
  }

  /** `add_mod` of a checked and flagged mod that is not nsfw, on the standard file, as `Added` says. */
  method AddStd(db: Db, std: RepositoryFile, nsfw: RepositoryFile, mod: ModInstance, row: ModRow, ghost e: Emitted,
                ghost stdE0: seq<(int, Element)>, ghost nsfwE0: seq<(int, Element)>)
    requires Pair(std, nsfw) && mod.Valid() && !row.nsfw
    requires |std.reg.objects| == e.count
    requires std.objects.entries == PutAll(stdE0, e.std) && nsfw.objects.entries == PutAll(nsfwE0, e.nsfw)
    modifies std.objects, nsfw.objects, std.reg, mod
    ensures Pair(std, nsfw)
    ensures var e' := Added(e, mod.id, TypesOf(std), TypesOf(nsfw), db.State(), row);
      |std.reg.objects| == e'.count &&
      std.objects.entries == PutAll(stdE0, e'.std) && nsfw.objects.entries == PutAll(nsfwE0, e'.nsfw)
  {
    AddToFile(std, nsfw, row, db, mod, stdE0, e.std, e.count);
  }

  /**
   * One iteration of the loop of `run` on the database and the two files, from the
   * state the pass `e` left: duplicate check, malformed flag, then `add_mod` on the
   * nsfw file or the standard file.
   */
  method VisitMod(db: Db, std: RepositoryFile, nsfw: RepositoryFile, m: (int, ModRow), ghost e: Emitted,
                  ghost stdE0: seq<(int, Element)>, ghost nsfwE0: seq<(int, Element)>)
    returns (crash: Option<string>, ghost s1: Store, row: ModRow)
    requires Pair(std, nsfw)
    requires |std.reg.objects| == e.count
    requires std.objects.entries == PutAll(stdE0, e.std) && nsfw.objects.entries == PutAll(nsfwE0, e.nsfw)
    modifies db, std.objects, nsfw.objects, std.reg
    ensures Pair(std, nsfw)
    ensures crash.Some? ==> MarkDuplicates(old(db.State()), m.0) == Err(crash.value)
    ensures crash.None? ==> MarkDuplicates(old(db.State()), m.0) == Ok(s1) && SetMalformedOf(s1, m.0, m.1) == (db.State(), row)
    ensures crash.None? ==>
      var e' := Added(e, m.0, TypesOf(std), TypesOf(nsfw), db.State(), row);
      |std.reg.objects| == e'.count &&
      std.objects.entries == PutAll(stdE0, e'.std) && nsfw.objects.entries == PutAll(nsfwE0, e'.nsfw)
  {
    var mod := new ModInstance(m.0);
    crash, s1, row := CheckAndFlag(db, mod, m.1);
    if crash.Some? {
      return;
    }
    if row.nsfw {
      AddNsfw(db, std, nsfw, mod, row, e, stdE0, nsfwE0);
    } else {
      AddStd(db, std, nsfw, mod, row, e, stdE0, nsfwE0);
    }
  }

  /** `VisitMod` is one `Step` of the pass: the store, both files and the object count follow it. */
  method VisitStep(db: Db, std: RepositoryFile, nsfw: RepositoryFile, m: (int, ModRow), ghost e: Emitted,
                   ghost stdE0: seq<(int, Element)>, ghost nsfwE0: seq<(int, Element)>)
    returns (crash: Option<string>, ghost e': Emitted)
    requires Pair(std, nsfw)
    requires db.State() == e.store && |std.reg.objects| == e.count
    requires std.objects.entries == PutAll(stdE0, e.std) && nsfw.objects.entries == PutAll(nsfwE0, e.nsfw)
    modifies db, std.objects, nsfw.objects, std.reg
    ensures Pair(std, nsfw)
    ensures crash.Some? ==> Step(e, m, TypesOf(std), TypesOf(nsfw)) == Err(crash.value)
    ensures crash.None? ==> (Step(e, m, TypesOf(std), TypesOf(nsfw)) == Ok(e') &&
                             db.State() == e'.store && |std.reg.objects| == e'.count &&
                             std.objects.entries == PutAll(stdE0, e'.std) && nsfw.objects.entries == PutAll(nsfwE0, e'.nsfw))
  {
    ghost var s1;
    var row;
    crash, s1, row := VisitMod(db, std, nsfw, m, e, stdE0, nsfwE0);
    e' := e;
    if crash.Some? {
      StepFails(e, m, TypesOf(std), TypesOf(nsfw), crash.value);
      return;
    }
    e' := Added(e, m.0, TypesOf(std), TypesOf(nsfw), db.State(), row);
    StepAdds(e, m, TypesOf(std), TypesOf(nsfw), s1, db.State(), row);
  }

  /** The pass one mod further is the step after the pass so far. */
  lemma PassExtends(s: Store, mods: seq<(int, ModRow)>, i: nat, n: nat, std: FileTypes, nsfw: FileTypes, e: Emitted)
    requires i < |mods| && Pass(s, mods[..i], n, std, nsfw) == Ok(e)
    ensures Pass(s, mods[..i + 1], n, std, nsfw) == Step(e, mods[i], std, nsfw)
  {
    assert mods[..i + 1][..i] == mods[..i];
  }

  /**
   * The loop of `run` over `mods`, on two files sharing a registry that holds as many
   * objects as it holds when the loop starts.
   */
  method RunPass(db: Db, std: RepositoryFile, nsfw: RepositoryFile, mods: seq<(int, ModRow)>,
                 ghost stdE0: seq<(int, Element)>, ghost nsfwE0: seq<(int, Element)>)
    returns (crash: Option<string>)
    requires Pair(std, nsfw)
    requires std.objects.entries == stdE0 && nsfw.objects.entries == nsfwE0
    modifies db, std.objects, nsfw.objects, std.reg
    ensures Pair(std, nsfw)
    ensures var p := Pass(old(db.State()), mods, old(|std.reg.objects|), TypesOf(std), TypesOf(nsfw));
      (crash.Some? ==> p == Err(crash.value)) &&
      (crash.None? ==> (p.Ok? && db.State() == p.value.store && |std.reg.objects| == p.value.count &&
                        std.objects.entries == PutAll(stdE0, p.value.std) && nsfw.objects.entries == PutAll(nsfwE0, p.value.nsfw)))
  {
    ghost var s0 := db.State();
    ghost var n := |std.reg.objects|;
    ghost var e := Emitted(s0, [], [], [], [], n);
    var i := 0;
    while i < |mods|
      invariant 0 <= i <= |mods|
      invariant Pair(std, nsfw)
      invariant Pass(s0, mods[..i], n, TypesOf(std), TypesOf(nsfw)) == Ok(e)
      invariant db.State() == e.store && |std.reg.objects| == e.count
      invariant std.objects.entries == PutAll(stdE0, e.std) && nsfw.objects.entries == PutAll(nsfwE0, e.nsfw)
    {
      PassExtends(s0, mods, i, n, TypesOf(std), TypesOf(nsfw), e);
      crash, e := VisitStep(db, std, nsfw, mods[i], e, stdE0, nsfwE0);
      if crash.Some? {
        PassErrorPersists(s0, mods, n, TypesOf(std), TypesOf(nsfw), i + 1);
        return;
      }
      i := i + 1;
    }
    assert mods[..i] == mods;
    crash := None;
  }

  /**
   * `run` after the sync, as written: load the unflagged mods, build both files in one
   * registry (the standard root is object 1, the nsfw root object 2), then for each
   * mod check duplicates, set the malformed flag and add it to the nsfw or the
   * standard file, so the first mod's objects are numbered from 3.  An exception ends
   * the pass (and nothing is saved).
   */
  method Run(db: Db, ids: seq<int>) returns (std: RepositoryFile, nsfw: RepositoryFile, crash: Option<string>)
    modifies db
    ensures Pair(std, nsfw)
    ensures var p := Pass(old(db.State()), Loaded(old(db.State()), ids), 2, TypesOf(std), TypesOf(nsfw));
      (crash.Some? ==> p == Err(crash.value)) &&
      (crash.None? ==> (p.Ok? && db.State() == p.value.store &&
                        std.objects.entries == PutAll(RootEntries(StdName, StdDescription, std.tRepo.ref, 1), p.value.std) &&
                        nsfw.objects.entries == PutAll(RootEntries(NsfwName, NsfwDescription, nsfw.tRepo.ref, 2), p.value.nsfw)))
  {
    var mods := Loaded(db.State(), ids);
    std, nsfw := NewFiles();
    crash := RunPass(db, std, nsfw, mods, std.objects.entries, nsfw.objects.entries);
  }

  /**
   * `run` with `reset()` before each file: both roots are object 1 and the first
   * mod's objects are numbered from 2.
   */
  method RunReset(db: Db, ids: seq<int>) returns (std: RepositoryFile, nsfw: RepositoryFile, crash: Option<string>)
    modifies db
    ensures Pair(std, nsfw)
    ensures var p := Pass(old(db.State()), Loaded(old(db.State()), ids), 1, TypesOf(std), TypesOf(nsfw));
      (crash.Some? ==> p == Err(crash.value)) &&
      (crash.None? ==> (p.Ok? && db.State() == p.value.store &&
                        std.objects.entries == PutAll(RootEntries(StdName, StdDescription, std.tRepo.ref, 1), p.value.std) &&
                        nsfw.objects.entries == PutAll(RootEntries(NsfwName, NsfwDescription, nsfw.tRepo.ref, 1), p.value.nsfw)))
  {
    var mods := Loaded(db.State(), ids);
    std, nsfw := NewFilesReset();
    crash := RunPass(db, std, nsfw, mods, std.objects.entries, nsfw.objects.entries);
  }
}
