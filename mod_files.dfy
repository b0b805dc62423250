/**
 * `ModFiles.insert_mod_files`: from the API's file listing of a mod, store the first
 * file that targets the quest (android or oculus) and the first that targets windows,
 * each under the URL its download link redirects to.
 */
module ModFiles {
  import opened Base
  import opened Utils
  import opened Models

  /** Whether a listed file is a candidate for a platform's slot (`platforms` present). */
  predicate Targets(f: ApiFile, p: Platform)
  {
    f.platforms.Some? &&
    if p == Quest then Android in f.platforms.value || Oculus in f.platforms.value
    else Windows in f.platforms.value
  }

  function Need(p: Platform, needQuest: bool, needPc: bool): bool
  {
    if p == Quest then needQuest else needPc
  }

  /**
   * The saves the loop makes, in order, given which slots are still open: within one
   * file the quest slot is tried before the PC slot, and a filled slot closes.
   */
  function Saves(files: seq<ApiFile>, needQuest: bool, needPc: bool): seq<(Platform, ApiFile)>
  {
    if files == [] then []
    else
      var f := files[0];
      var q := Targets(f, Quest) && needQuest;
      var pc := Targets(f, Pc) && needPc;
      (if q then [(Quest, f)] else []) + (if pc then [(Pc, f)] else []) +
        Saves(files[1..], needQuest && !q, needPc && !pc)
  }

  /** The first listed file that targets a platform. */
  function FirstFor(files: seq<ApiFile>, p: Platform): (r: Option<ApiFile>)
    ensures r.Some? ==> r.value in files && Targets(r.value, p)
    ensures r.None? ==> forall f :: f in files ==> !Targets(f, p)
  {
    if files == [] then None
    else if Targets(files[0], p) then Some(files[0])
    else FirstFor(files[1..], p)
  }

  /** At most one save per platform, and only for an open slot. */
  lemma {:induction false} SavesOnePerPlatform(files: seq<ApiFile>, needQuest: bool, needPc: bool)
    ensures forall i :: 0 <= i < |Saves(files, needQuest, needPc)| ==>
      Need(Saves(files, needQuest, needPc)[i].0, needQuest, needPc)
    ensures forall i, j :: 0 <= i < j < |Saves(files, needQuest, needPc)| ==>
      Saves(files, needQuest, needPc)[i].0 != Saves(files, needQuest, needPc)[j].0
  {
    if files != [] {
      var f := files[0];
      var q := Targets(f, Quest) && needQuest;
      var pc := Targets(f, Pc) && needPc;
      SavesOnePerPlatform(files[1..], needQuest && !q, needPc && !pc);
      var rest := Saves(files[1..], needQuest && !q, needPc && !pc);
      var head := (if q then [(Quest, f)] else []) + (if pc then [(Pc, f)] else []);
      assert Saves(files, needQuest, needPc) == head + rest;
      OpenSlotsOnce(f, q, pc, needQuest, needPc, rest);
    }
  }

  /** A file's saves for open slots, then saves for the slots left open, use each platform once. */
  lemma OpenSlotsOnce(f: ApiFile, q: bool, pc: bool, needQuest: bool, needPc: bool, rest: seq<(Platform, ApiFile)>)
    requires (q ==> needQuest) && (pc ==> needPc)
    requires forall i :: 0 <= i < |rest| ==> Need(rest[i].0, needQuest && !q, needPc && !pc)
    requires forall i, j :: 0 <= i < j < |rest| ==> rest[i].0 != rest[j].0
    ensures var r := (if q then [(Quest, f)] else []) + (if pc then [(Pc, f)] else []) + rest;
      (forall i :: 0 <= i < |r| ==> Need(r[i].0, needQuest, needPc)) &&
      (forall i, j :: 0 <= i < j < |r| ==> r[i].0 != r[j].0)
  {
    var head := (if q then [(Quest, f)] else []) + (if pc then [(Pc, f)] else []);
    var r := head + rest;
    forall i, j | 0 <= i < j < |r| ensures r[i].0 != r[j].0 {
      if j < |head| {
        assert q && pc && head == [(Quest, f), (Pc, f)];
      } else if i < |head| {
        assert r[i] == head[i] && r[j] == rest[j - |head|];
        assert Need(rest[j - |head|].0, needQuest && !q, needPc && !pc);
      } else {
        assert r[i] == rest[i - |head|] && r[j] == rest[j - |head|];
      }
    }
    forall i | 0 <= i < |r| ensures Need(r[i].0, needQuest, needPc) {
      if i >= |head| {
        assert r[i] == rest[i - |head|];
        assert Need(rest[i - |head|].0, needQuest && !q, needPc && !pc);
      }
    }
  }

  /** The save for a platform, if any, is exactly the first listed file that targets it. */
  lemma {:induction false} SavesAreFirstPerPlatform(files: seq<ApiFile>, needQuest: bool, needPc: bool)
    ensures forall p, f :: (p, f) in Saves(files, needQuest, needPc) <==>
      Need(p, needQuest, needPc) && FirstFor(files, p) == Some(f)
  {
    if files != [] {
      var f := files[0];
      var q := Targets(f, Quest) && needQuest;
      var pc := Targets(f, Pc) && needPc;
      SavesAreFirstPerPlatform(files[1..], needQuest && !q, needPc && !pc);
      var rest := Saves(files[1..], needQuest && !q, needPc && !pc);
      var head := (if q then [(Quest, f)] else []) + (if pc then [(Pc, f)] else []);
      assert Saves(files, needQuest, needPc) == head + rest;
    }
  }

  /** With the listing in descending id order, each slot gets its platform's newest file. */
  lemma NewestFilePerPlatform(files: seq<ApiFile>, p: Platform, f: ApiFile, g: ApiFile)
    requires forall i, j :: 0 <= i < j < |files| ==> files[i].id > files[j].id
    requires (p, f) in Saves(files, true, true)
    requires g in files && Targets(g, p)
    ensures g.id <= f.id
  {
    SavesAreFirstPerPlatform(files, true, true);
    FirstIsNewest(files, p, g);
  }

  lemma {:induction false} FirstIsNewest(files: seq<ApiFile>, p: Platform, g: ApiFile)
    requires forall i, j :: 0 <= i < j < |files| ==> files[i].id > files[j].id
    requires g in files && Targets(g, p)
    ensures FirstFor(files, p).Some? && g.id <= FirstFor(files, p).value.id
  {
    if !Targets(files[0], p) {
      assert g in files[1..];
      FirstIsNewest(files[1..], p, g);
    } else if g != files[0] {
      var k :| 0 <= k < |files| && files[k] == g;
      assert k > 0;
    }
  }

  /** A file targeting both platforms, listed first, fills both slots in one iteration. */
  lemma BothSlotsFromOneFile(files: seq<ApiFile>)
    requires files != [] && Targets(files[0], Quest) && Targets(files[0], Pc)
    ensures Saves(files, true, true) == [(Quest, files[0]), (Pc, files[0])]
  {
    var f := files[0];
    NoSavesWhenClosed(files[1..]);
    assert Saves(files, true, true) == [(Quest, f)] + [(Pc, f)] + Saves(files[1..], false, false);
  }

  lemma {:induction false} NoSavesWhenClosed(files: seq<ApiFile>)
    ensures Saves(files, false, false) == []
  {
    if files != [] {
      NoSavesWhenClosed(files[1..]);
    }
  }

  /** The stored row: the API id and date, and the redirect target as url. */
  function StoredRow(f: ApiFile, location: string): (r: FileRow)
    ensures r.id == f.id && r.added == f.date && r.url == location
  {
    FileRow(f.id, f.date, location)
  }

  /**
   * Performing the saves one after another: each asks for the redirect target of the
   * file's url (a missing `Location` header is a `KeyError`) and inserts the row.
   * The first failure stops, leaving the earlier rows stored.
   */
  function ApplySaves(s: Store, modId: int, saves: seq<(Platform, ApiFile)>, location: map<string, string>): (Store, Option<string>)
    decreases |saves|
  {
    if saves == [] then (s, None)
    else
      var (p, f) := saves[0];
      if f.url !in location then (s, Some("KeyError: Location"))
      else match InsertFile(s, p, modId, StoredRow(f, location[f.url]))
        case Err(e) => (s, Some(e))
        case Ok(s1) => ApplySaves(s1, modId, saves[1..], location)
  }

  lemma {:induction false} ApplySavesAppend(s: Store, modId: int, a: seq<(Platform, ApiFile)>, b: seq<(Platform, ApiFile)>, location: map<string, string>)
    ensures ApplySaves(s, modId, a + b, location) ==
      (var (s1, e) := ApplySaves(s, modId, a, location);
       if e.Some? then (s1, e) else ApplySaves(s1, modId, b, location))
    decreases |a|
  {
    if a != [] {
      assert (a + b)[0] == a[0] && (a + b)[1..] == a[1..] + b;
      var (p, f) := a[0];
      if f.url in location {
        match InsertFile(s, p, modId, StoredRow(f, location[f.url]))
        case Err(_) =>
        case Ok(s1) => ApplySavesAppend(s1, modId, a[1..], b, location);
      }
    } else {
      assert a + b == b;
    }
  }

  /** Whatever the outcome, the saves touch the file table only. */
  lemma {:induction false} ApplySavesKeeps(s: Store, modId: int, saves: seq<(Platform, ApiFile)>, location: map<string, string>)
    ensures ApplySaves(s, modId, saves, location).0.mods == s.mods
    ensures ApplySaves(s, modId, saves, location).0.pallets == s.pallets
    ensures ApplySaves(s, modId, saves, location).0.errors == s.errors
    decreases |saves|
  {
    if saves != [] {
      var (p, f) := saves[0];
      if f.url in location {
        match InsertFile(s, p, modId, StoredRow(f, location[f.url]))
        case Err(_) =>
        case Ok(s1) => ApplySavesKeeps(s1, modId, saves[1..], location);
      }
    }
  }

  /** A successful pass stores exactly one row per saved platform, and changes nothing else. */
  lemma {:induction false} ApplySavesStores(s: Store, modId: int, saves: seq<(Platform, ApiFile)>, location: map<string, string>)
    requires forall i, j :: 0 <= i < j < |saves| ==> saves[i].0 != saves[j].0
    requires ApplySaves(s, modId, saves, location).1.None?
    ensures var s' := ApplySaves(s, modId, saves, location).0;
      s'.mods == s.mods && s'.pallets == s.pallets && s'.errors == s.errors &&
      (forall p, f :: (p, f) in saves ==> f.url in location && FileOf(s', p, modId) == Some(StoredRow(f, location[f.url]))) &&
      (forall p, m :: (m != modId || forall f :: (p, f) !in saves) ==> FileOf(s', p, m) == FileOf(s, p, m))
    decreases |saves|
  {
    if saves != [] {
      var (p, f) := saves[0];
      var s1 := InsertFile(s, p, modId, StoredRow(f, location[f.url])).value;
      ApplySavesStores(s1, modId, saves[1..], location);
      forall q, g | (q, g) in saves[1..] ensures q != p {
        var k :| 0 <= k < |saves[1..]| && saves[1..][k] == (q, g);
        assert saves[k + 1] == (q, g);
      }
    }
  }

  /**
   * One save of the loop: the redirect target is looked up and the row inserted; on
   * failure the outcome is that of the whole remaining sequence of saves.
   */
  method Save(db: Db, modId: int, p: Platform, f: ApiFile, location: map<string, string>,
              ghost s0: Store, ghost done: seq<(Platform, ApiFile)>, ghost later: seq<(Platform, ApiFile)>)
    returns (r: Result<(), string>)
    requires ApplySaves(s0, modId, done, location) == (db.State(), None)
    modifies db
    ensures r.Ok? ==> ApplySaves(s0, modId, done + [(p, f)], location) == (db.State(), None)
    ensures r.Err? ==> var (s', e) := ApplySaves(s0, modId, done + ([(p, f)] + later), location);
      db.State() == s' && e == Some(r.error)
  {
    var s := db.State();
    ApplySavesAppend(s0, modId, done, [(p, f)] + later, location);
    ApplySavesAppend(s0, modId, done, [(p, f)], location);
    assert ([(p, f)] + later)[1..] == later && [(p, f)][1..] == [];
    if f.url !in location {
      return Err("KeyError: Location");
    }
    var ins := InsertFile(s, p, modId, StoredRow(f, location[f.url]));
    if ins.Err? {
      return Err(ins.error);
    }
    db.Commit(ins.value);
    r := Ok(());
  }

  /** The saves one listed file causes, given the open slots: quest first, then PC. */
  function StepSaves(f: ApiFile, needQuest: bool, needPc: bool): seq<(Platform, ApiFile)>
  {
    (if Targets(f, Quest) && needQuest then [(Quest, f)] else []) +
    (if Targets(f, Pc) && needPc then [(Pc, f)] else [])
  }

  /** One iteration of the loop: the file's saves, and the slots still open after it. */
  method Step(db: Db, modId: int, f: ApiFile, needQuest: bool, needPc: bool, location: map<string, string>,
              ghost s0: Store, ghost done: seq<(Platform, ApiFile)>, ghost later: seq<(Platform, ApiFile)>)
    returns (r: Result<(), string>, needQuest': bool, needPc': bool)
    requires ApplySaves(s0, modId, done, location) == (db.State(), None)
    modifies db
    ensures r.Ok? ==> needQuest' == (needQuest && !Targets(f, Quest)) && needPc' == (needPc && !Targets(f, Pc))
    ensures r.Ok? ==> ApplySaves(s0, modId, done + StepSaves(f, needQuest, needPc), location) == (db.State(), None)
    ensures r.Err? ==> db.State() == ApplySaves(s0, modId, done + (StepSaves(f, needQuest, needPc) + later), location).0
    ensures r.Err? ==> ApplySaves(s0, modId, done + (StepSaves(f, needQuest, needPc) + later), location).1 == Some(r.error)
  {
    ghost var qs := if Targets(f, Quest) && needQuest then [(Quest, f)] else [];
    ghost var ps := if Targets(f, Pc) && needPc then [(Pc, f)] else [];
    assert StepSaves(f, needQuest, needPc) == qs + ps;
    Regroup(done, qs, ps, later);
    needQuest', needPc' := needQuest, needPc;
    r := Ok(());
    if f.platforms.Some? {
      var platforms := f.platforms.value;
      if (Android in platforms || Oculus in platforms) && needQuest {
        r := Save(db, modId, Quest, f, location, s0, done, ps + later);
        if r.Err? {
          return;
        }
        needQuest' := false;
      }
      if Windows in platforms && needPc {
        r := Save(db, modId, Pc, f, location, s0, done + qs, later);
        if r.Err? {
          return;
        }
        needPc' := false;
      }
    }
  }

  /** The regroupings of the saves around one iteration. */
  lemma Regroup<T>(d: seq<T>, q: seq<T>, p: seq<T>, l: seq<T>)
    ensures d + ((q + p) + l) == d + (q + (p + l)) == (d + q) + (p + l)
    ensures (d + q) + p == d + (q + p) && d + [] == d && d + q == (d + q) + []
  {
  }

  /** The saves from the `i`-th listed file on: that file's, then the rest's. */
  lemma SavesFrom(files: seq<ApiFile>, i: nat, needQuest: bool, needPc: bool)
    requires i < |files|
    ensures Saves(files[i..], needQuest, needPc) ==
      StepSaves(files[i], needQuest, needPc) +
      Saves(files[i + 1..], needQuest && !Targets(files[i], Quest), needPc && !Targets(files[i], Pc))
  {
    assert files[i..][1..] == files[i + 1..];
  }

  /** What the loop has saved before the `i`-th file, followed by that file's saves and the rest's. */
  lemma SavesAfter(files: seq<ApiFile>, i: nat, needQuest: bool, needPc: bool, emitted: seq<(Platform, ApiFile)>)
    requires i < |files|
    requires Saves(files, true, true) == emitted + Saves(files[i..], needQuest, needPc)
    ensures var step := StepSaves(files[i], needQuest, needPc);
      var later := Saves(files[i + 1..], needQuest && !Targets(files[i], Quest), needPc && !Targets(files[i], Pc));
      Saves(files, true, true) == emitted + (step + later) &&
      Saves(files, true, true) == (emitted + step) + later
  {
    SavesFrom(files, i, needQuest, needPc);
  }

  /** `insert_mod_files` for one mod, given the API listing and the redirect targets. */
  method InsertModFiles(db: Db, modId: int, files: seq<ApiFile>, location: map<string, string>)
    returns (r: Result<(), string>)
    modifies db
    ensures db.State() == ApplySaves(old(db.State()), modId, Saves(files, true, true), location).0
    ensures ApplySaves(old(db.State()), modId, Saves(files, true, true), location).1 == if r.Ok? then None else Some(r.error)
  {
    ghost var s0 := db.State();
    ghost var emitted: seq<(Platform, ApiFile)> := [];
    var needQuest, needPc := true, true;
    var i := 0;
    while i < |files|
      invariant 0 <= i <= |files|
      invariant Saves(files, true, true) == emitted + Saves(files[i..], needQuest, needPc)
      invariant ApplySaves(s0, modId, emitted, location) == (db.State(), None)
    {
      ghost var later := Saves(files[i + 1..], needQuest && !Targets(files[i], Quest), needPc && !Targets(files[i], Pc));
      ghost var step := StepSaves(files[i], needQuest, needPc);
      SavesAfter(files, i, needQuest, needPc, emitted);
      r, needQuest, needPc := Step(db, modId, files[i], needQuest, needPc, location, s0, emitted, later);
      if r.Err? {
        return;
      }
      emitted := emitted + step;
      i := i + 1;
    }
    assert files[i..] == [];
    assert emitted + [] == emitted;
    r := Ok(());
  }
}
