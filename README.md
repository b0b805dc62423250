# bonelab-mod-repo in Dafny

A model of `modio_repo`, the tool that mirrors the BONELAB mods listed on mod.io into two
"mod repository" manifests that the game's mod browser reads.

A run has two phases.

**The sync phase** (`downloader`) walks the mod.io listing. For each mod it:

- decides whether the mod changed since it was stored;
- rewrites only the listing statistics when it did not;
- otherwise re-inserts the mod row and rediscovers the newest PC and quest file (`ModFiles`);
- downloads each file's archive, extracts every `pallet.json` member to
  `static/pallets/<file id>_<k>.json`, finds the pallet object inside each one and stores one
  pallet row per member (`Pallets`).

A pallet load error marks the mod malformed, records the error for the file and skips the rest
of that mod. Any other exception ends the run.

**The manifest phase** (`__main__.run`) loads every mod that is not malformed. For each mod it:

- records an error for a file whose pallets repeat a barcode;
- flags the mod malformed when one of its files holds an error;
- adds the mod to the nsfw or the standard repository file.

Each added mod becomes one target object per platform file and one listing object. The listing
copies the barcode, author and versions of the mod's first pallet. Its title carries a hidden,
zero-padded rank, so that titles sort by rank.

Repository files are documents of the reference-graph serialiser (`SlzJson`). Types and objects
are numbered per class as they are constructed: `t:<n>` and `o:<n>`. Containers are
insertion-ordered dictionaries keyed by id. A decoding hook rebuilds refs, containers, types and
objects from parsed JSON.

Modules, one per source file plus shared helpers:

| module | source |
|---|---|
| `Base`, `Text`, `Assoc`, `JsonData` | Option/Result, decimal text, insertion-ordered dicts, parsed JSON |
| `Utils` | `utils.py` |
| `Models` | `models.py` (tables as maps, with the database's key and cascade rules; `Db`, `ModInstance` classes) |
| `Pallets` | `downloader/pallets.py` |
| `ModFiles` | `downloader/mod_files.py` |
| `Downloader` | `downloader/__init__.py` |
| `SlzJson`, `SlzRoundTrip` | `slz_json.py` (registry and `Container` classes; encode, decode, round trip) |
| `RepositoryFiles` | `slz_repositoryfile.py` (`RepositoryFile` class) |
| `ManifestRun` | `__main__.py` |

Code that changes state step by step is modelled as methods on classes:

- `Db`: the database, whose methods commit whole new table states.
- `ModInstance`: a loaded mod with its attribute cache.
- `Registry`: the per-class element tables.
- `Container`.
- `RepositoryFile`.
- `PalletDir`: the pallet directory.

Each method is proved against a pure function of the old state (`Reinsert`, `SyncAll`,
`LoadPallets`, `Pass`, …). The properties are proved about those functions.

Three places where the code does not do what it evidently means to; the model follows the code
and states the corrected behaviour beside it (see Findings):

- **The registry is never reset.** Every repository document's root entry is the fixed `"o:1"`
  (`slz_repositoryfile.py:26`), which names the root object only when that root is the first
  object constructed. `reset()` (`slz_json.py:28-30`) would restart the numbering, but nothing
  calls it, so the nsfw file, built second in the same registry, gets root object 2.
- **An archive without pallets is not an error.** The guard at `downloader/pallets.py:104-108`
  carries the message "pallet.json not found in zip.", but it tests `len(found_pallets) < 0`,
  which never holds, so such an archive yields no pallets and no error
  (`Pallets.NoPalletEntryExtractsNothing`).
- **A refreshed mod loses its malformed flag.** `update_stats_mod` clears `malformed_pallet`
  (`downloader/__init__.py:152`) but keeps the mod's files and their pallet errors. The next
  manifest pass picks the mod again and tries to save a second error for the same file.

## Model

| member | source | states |
|---|---|---|
| Text.ValueOfNatToString | modio_repo/slz_json.py:101-103 | `int()` of a printed id gives back the id |
| Text.NatToStringInjective | modio_repo/slz_json.py:94-96 | distinct ids print differently |
| Text.Format09dDigits | modio_repo/slz_repositoryfile.py:99 | `{rank:09d}` of a rank below 10^9 is nine digits whose value is the rank |
| Text.LexLessIsNumericOrder | modio_repo/slz_repositoryfile.py:95-100 | on digit strings of equal length, text order is numeric order |
| Utils.ApiModUpdated | modio_repo/utils.py:16-19 | the effective update time is at least the mod's update time and at least its live file's date, and is one of the two |
| Models.LastFileChange | modio_repo/models.py:32-42 | none exactly when there is no file; otherwise at least each present file's `added` and equal to one of them |
| Models.PutMod | modio_repo/downloader/__init__.py:162-177 | `update_or_create` replaces or adds exactly the one mod row, touches no other table and keeps the integrity rules |
| Models.MarkMalformed | modio_repo/downloader/__init__.py:205 | a filtered update sets only the malformed flag of the mod, if its row exists, else changes nothing |
| Models.InsertFile | modio_repo/models.py:88-93 | a file save succeeds exactly when the mod exists, has no file of that platform and the file id is unused; the new store is the old plus that file, still consistent |
| Models.InsertFileConsistent | modio_repo/models.py:62-73 | adding such a file keeps every foreign key and primary key rule |
| Models.InsertPallet | modio_repo/models.py:101-104 | a pallet save succeeds exactly when its file is stored, and appends the row to that file's pallets |
| Models.InsertError | modio_repo/models.py:111-114 | an error save succeeds exactly when its file is stored and has no error yet (one-to-one), and stores that error |
| Models.DeleteFile | modio_repo/models.py:44-51 | deleting a mod's file removes it and leaves every other file, keeps the mods, and cascades exactly that file's pallets and error; with no such file nothing changes; the store stays consistent |
| Models.DeleteFileConsistent | modio_repo/models.py:101-118 | the cascade drops the file's pallets and error, so no pallet or error is left without its file |
| Models.ClearFilesOf | modio_repo/models.py:44-51 | after `clear_files` the mod has neither file, and its files' pallets and errors are gone; other mods' files, pallets and errors are unchanged; integrity holds |
| Models.Db.constructor | modio_repo/models.py:7-17 | the database starts in the given table state |
| Models.Db.Commit | modio_repo/models.py:7-17 | a write leaves exactly the committed table state |
| Models.CacheWriteName | modio_repo/models.py:22-30 | the attribute the getters assign (name-mangled) is never the one they read, for either platform |
| Models.ModInstance.constructor | modio_repo/models.py:7-17 | a freshly loaded instance has no cached attribute |
| Models.ModInstance.GetFile | modio_repo/models.py:22-30 | each getter call returns the store's current file of that platform (the cache never hits) and records it under the mangled name |
| Models.ModInstance.GetLastFileChange | modio_repo/models.py:32-42 | equals `LastFileChange` of the two files currently stored |
| Models.ModInstance.ClearFiles | modio_repo/models.py:44-51 | the store becomes `ClearFilesOf` the old store: quest file then PC file deleted, with their pallets and errors |
| Pallets.ExtractPath | modio_repo/downloader/pallets.py:29-31 | every extract path lies in the pallet directory and ends in `.json` |
| Pallets.ExtractPathInjective | modio_repo/downloader/pallets.py:98-100 | distinct (file id, index) pairs never share an extract path |
| Pallets.NumberedNameInjective | modio_repo/downloader/pallets.py:98-100 | `<id>_<k>.json` determines both the id and the index |
| Pallets.Matching | modio_repo/downloader/pallets.py:95-97 | the pallet members are exactly the archive members whose name ends in `pallet.json` |
| Pallets.ExtractEntriesOk | modio_repo/downloader/pallets.py:91-114 | extraction succeeds exactly when every matching member can be read, and otherwise fails with the "Unknown Errror" load error |
| Pallets.ExtractEntriesSpec | modio_repo/downloader/pallets.py:95-103 | the k-th extracted entry is the k-th matching member, written to `<id>_<k>.json` with its content |
| Pallets.NoPalletEntryExtractsNothing | modio_repo/downloader/pallets.py:104-109 | an archive with no pallet member yields an empty list, not the "not found" error |
| Pallets.NoneMatching | modio_repo/downloader/pallets.py:95-97 | no member named like a pallet means no matching member |
| Pallets.GetFromZip | modio_repo/downloader/pallets.py:85-114 | the extraction loop returns `Extract`: a bad archive is a load error with its reason, else the extracted list |
| Pallets.ExtractErrorPersists | modio_repo/downloader/pallets.py:110-114 | once a member fails, extraction of the whole archive fails with that error |
| Pallets.ScanLastTestsAll | modio_repo/downloader/pallets.py:132-134 | a scan that succeeds has evaluated its test on every item without error |
| Pallets.ScanLastNone | modio_repo/downloader/pallets.py:136-139 | the scan finds nothing exactly when the test is false on every item |
| Pallets.ScanLastFindsLast | modio_repo/downloader/pallets.py:132-145 | what the scan finds is the last item that passes the test (later matches overwrite earlier ones) |
| Pallets.LastPassingExtend | modio_repo/downloader/pallets.py:143-145 | an item failing the test keeps the last passing item |
| Pallets.ScanLastErrorPersists | modio_repo/downloader/pallets.py:132-145 | a lookup error on one item ends the scan with that error |
| Pallets.Values | modio_repo/downloader/pallets.py:143 | `data["objects"].values()` in order |
| Pallets.PalletObjectIsTyped | modio_repo/downloader/pallets.py:125-152 | a found pallet object is one of the objects, and its `isa.type` is a key whose type's fullname names the pallet type |
| Pallets.FindPalletKey | modio_repo/downloader/pallets.py:130-134 | the key loop returns the last type key whose fullname contains the pallet type name, or none, or the lookup error |
| Pallets.FindPalletObject | modio_repo/downloader/pallets.py:141-145 | the object loop returns the last object whose `isa.type` is the key |
| Pallets.ReadPalletContent | modio_repo/downloader/pallets.py:125-152 | `_read_pallet_content` equals `PalletObject`: missing types, missing key and missing object are the three load errors |
| Pallets.PalletRowOf | modio_repo/downloader/pallets.py:47-57 | a built pallet row carries the entry's two paths and, for barcode, author, version and sdkVersion, the text the column stores for the object's value (`str()`); the row fails exactly when one of the four is missing or cannot be stored, and a missing key raises its lookup error before any value is stored |
| Pallets.MissingKeyBeforeNull | modio_repo/downloader/pallets.py:49-54 | a pallet with a null barcode and no `sdkVersion` raises `KeyError`, not the null error |
| Pallets.LoadPallets | modio_repo/downloader/pallets.py:33-58 | a file with pallets is left alone; a timeout is a load error tagged -999, an HTTP error and a bad archive are load errors for the file, a connection failure is an uncaught exception; an archive that opens gives the extraction error ("Unknown Errror" for an unreadable member), or else the store and result of `SavePallets` of the extracted entries |
| Pallets.SavePalletsRows | modio_repo/downloader/pallets.py:46-58 | saving only appends to the file's pallets, one row per extracted entry, each row the one built from that entry's paths and its pallet object's barcode, author, version and sdkVersion; no other table changes |
| Pallets.SavePalletsFrame | modio_repo/downloader/pallets.py:46-58 | the save loop changes only the pallets of the one file |
| Pallets.LoadPalletsFrame | modio_repo/downloader/pallets.py:33-58 | `run` changes only the pallets of its own file, whatever the download brings |
| Pallets.RunStoresOnePalletPerEntry | modio_repo/downloader/pallets.py:33-58 | on success a file without pallets gets exactly one row per matching member, the k-th with that member's name, extract path k, and the barcode, author, version and sdkVersion of the pallet object in that member |
| Pallets.SavePalletsAppend | modio_repo/downloader/pallets.py:46-58 | saving a + b is saving a, then b unless a failed |
| Pallets.SavePalletsSnoc | modio_repo/downloader/pallets.py:46-58 | one more entry is one more save step |
| Pallets.SavePalletsErrorPersists | modio_repo/downloader/pallets.py:46-58 | a failing entry stops the loop: later entries change nothing |
| Pallets.Run | modio_repo/downloader/pallets.py:33-58 | the handler leaves the store and result of `LoadPallets` |
| Pallets.SaveAll | modio_repo/downloader/pallets.py:46-58 | the save loop leaves the store and result of `SavePallets` |
| Pallets.SaveStep | modio_repo/downloader/pallets.py:47-58 | one iteration extends the saved prefix, or its error is the whole loop's |
| Pallets.SaveStepSaves | modio_repo/downloader/pallets.py:47-58 | the step's outcome relates to the saved prefix as the loop does |
| Pallets.SaveOne | modio_repo/downloader/pallets.py:47-58 | reading back one entry and saving its row is one step of `SavePallets` |
| Pallets.ReadBack | modio_repo/downloader/pallets.py:116-123 | reading an extracted file gives its pallet object, or the "not UTF-8" load error |
| ModFiles.FirstFor | modio_repo/downloader/mod_files.py:34-56 | the chosen file targets the platform and is listed; no choice means no listed file targets it |
| ModFiles.SavesOnePerPlatform | modio_repo/downloader/mod_files.py:30-56 | at most one file is saved per platform, and only for a platform still needed |
| ModFiles.OpenSlotsOnce | modio_repo/downloader/mod_files.py:36-56 | a file closes the slots it fills, so no slot is filled twice |
| ModFiles.SavesAreFirstPerPlatform | modio_repo/downloader/mod_files.py:30-56 | a (platform, file) pair is saved exactly when the platform was needed and the file is the first listed for it |
| ModFiles.NewestFilePerPlatform | modio_repo/downloader/mod_files.py:21-24 | with the listing newest first, the saved file of a platform is its newest file |
| ModFiles.FirstIsNewest | modio_repo/downloader/mod_files.py:21-24 | in a listing sorted by descending id the first file for a platform has the largest id |
| ModFiles.BothSlotsFromOneFile | modio_repo/downloader/mod_files.py:36-56 | a first file targeting both platforms is saved for both, quest first |
| ModFiles.NoSavesWhenClosed | modio_repo/downloader/mod_files.py:30-31 | with neither platform needed nothing is saved |
| ModFiles.StoredRow | modio_repo/downloader/mod_files.py:38-43 | a stored file row has the API id, the API date and the redirect location as URL |
| ModFiles.ApplySavesAppend | modio_repo/downloader/mod_files.py:32-56 | saving a + b is saving a, then b unless a failed |
| ModFiles.ApplySavesKeeps | modio_repo/downloader/mod_files.py:32-56 | file saves change only the file table |
| ModFiles.ApplySavesStores | modio_repo/downloader/mod_files.py:32-56 | when every save succeeds, each saved platform's file is the stored row of its file and every other mod and platform is unchanged |
| ModFiles.Save | modio_repo/downloader/mod_files.py:37-45 | one HEAD request and file save extends the saves done, or its failure is the loop's failure |
| ModFiles.Step | modio_repo/downloader/mod_files.py:32-56 | one iteration saves what `StepSaves` says and updates both need flags as the source does |
| ModFiles.SavesFrom | modio_repo/downloader/mod_files.py:32-56 | the saves of a suffix are the step's saves then the rest's |
| ModFiles.SavesAfter | modio_repo/downloader/mod_files.py:32-56 | the loop invariant: saves emitted so far, then this step, then the rest |
| ModFiles.InsertModFiles | modio_repo/downloader/mod_files.py:20-56 | the file table afterwards is the result of `ApplySaves` of the first file per platform, and any failure is reported |
| Downloader.CropMatch | modio_repo/downloader/__init__.py:52-54 | a match of `crop_\d+x\d+` starts with `crop_` and is longer than six characters |
| Downloader.CropMatchOfToken | modio_repo/downloader/__init__.py:52-54 | `crop_<w>x<h>` followed by a non-digit matches in full |
| Downloader.CropTokenReplaced | modio_repo/downloader/__init__.py:52-54 | such a token is replaced by `crop_128x128` and the rest is rewritten |
| Downloader.NoCropUnchanged | modio_repo/downloader/__init__.py:52-54 | a URL without `crop_` comes back unchanged |
| Downloader.LogoUrl | modio_repo/downloader/__init__.py:48-54 | no logo gives the default thumbnail; otherwise the small logo, or the original when the small one is empty, with every crop rewritten |
| Downloader.RefreshStats | modio_repo/downloader/__init__.py:143-159 | only name, summary, thumbnail, malformed (cleared), nsfw, rank and downloads of the one mod change; update and check times and every other table stay |
| Downloader.AfterLoad | modio_repo/downloader/__init__.py:198-208 | the file counts as done exactly when the handler succeeded; a skip leaves an error for the file and the mod flagged malformed |
| Downloader.ConfinedTrans | modio_repo/downloader/__init__.py:185-208 | changes confined to the mod and two sets of files compose |
| Downloader.HandleFileConfined | modio_repo/downloader/__init__.py:198-208 | loading one file's pallets changes only that file's pallets and error and the mod's malformed flag |
| Downloader.AfterLoadConfined | modio_repo/downloader/__init__.py:202-208 | the error path changes only the mod's flag and the file's error |
| Downloader.PcFailureSkipsQuest | modio_repo/downloader/__init__.py:190-196 | when the PC file fails, the quest file's pallets and errors are untouched (the `ModSkip` leaves the method) |
| Downloader.HandleFilesEffect | modio_repo/downloader/__init__.py:185-196 | loading the mod's pallets changes only its own files' pallets and errors and its malformed flag |
| Downloader.ReinsertWritesRow | modio_repo/downloader/__init__.py:161-183 | re-insertion writes the new row (up to the malformed flag) and leaves every other mod as it was |
| Downloader.ReinsertSettlesUpdateTime | modio_repo/downloader/__init__.py:161-177 | the stored update time is at least the API update time, so the next run does not see the mod as updated |
| Downloader.ReinsertRediscoversFiles | modio_repo/downloader/__init__.py:179-183 | old files are dropped and each platform's file is exactly the stored row of the first listed file for it, if any |
| Downloader.SavedFileOf | modio_repo/downloader/mod_files.py:32-56 | after clearing, each platform's stored file is the row of its first listed file, or none |
| Downloader.SyncKeepsMods | modio_repo/downloader/__init__.py:102-141 | a sync step never removes a mod and, unless it crashes, the visited mod is stored |
| Downloader.SyncAllStoresEveryMod | modio_repo/downloader/__init__.py:92-100 | a page that completes leaves every visited mod stored, including skipped ones |
| Downloader.SyncAllErrorPersists | modio_repo/downloader/__init__.py:92-100 | an exception other than `ModSkip` ends the page: later mods change nothing |
| Downloader.PalletFromFile | modio_repo/downloader/__init__.py:198-208 | the method leaves the store and outcome of `HandleFile` |
| Downloader.LoadModPallets | modio_repo/downloader/__init__.py:190-196 | the method leaves the store and outcome of `HandleFiles`, PC file first |
| Downloader.InsertMod | modio_repo/downloader/__init__.py:161-196 | the method leaves the store and outcome of `Reinsert` |
| Downloader.UpdateStatsMod | modio_repo/downloader/__init__.py:143-159 | the method leaves the store and outcome of `RefreshStats` |
| Downloader.IsChanged | modio_repo/downloader/__init__.py:107-135 | the change test is true exactly when the mod was updated remotely, or (on a passing draw) a file lacks pallets, or there is no live file, no stored file or a newer live file |
| Downloader.InsertUpdateMod | modio_repo/downloader/__init__.py:102-141 | a new or changed mod is re-inserted, an unchanged one refreshed (`Sync`) |
| Downloader.InsertMods | modio_repo/downloader/__init__.py:92-100 | the page loop leaves the store and outcome of `SyncAll`: skips are passed over, other exceptions end it |
| Downloader.PalletDir.constructor | modio_repo/downloader/__init__.py:217 | the directory holds the given files |
| Downloader.PalletDir.Unlink | modio_repo/downloader/__init__.py:219 | unlinking removes exactly that file |
| Downloader.DeleteOldPallets | modio_repo/downloader/__init__.py:211-220 | only `.json` files are removed, every referenced or non-json file stays, and every `.json` file left is referenced by a stored pallet |
| SlzJson.MatchPattern | modio_repo/slz_json.py:99-103 | a kind's pattern matches exactly when the string starts with its prefix followed by at least one digit |
| SlzJson.FromStr | modio_repo/slz_json.py:98-105 | parsing fails exactly when neither pattern matches; a parsed ref has the prefix of its kind |
| SlzJson.FromStrToken | modio_repo/slz_json.py:94-105 | parsing a ref's token gives back that ref |
| SlzJson.TokenInjective | modio_repo/slz_json.py:94-96 | equal tokens mean equal refs |
| SlzJson.TokenDistinct | modio_repo/slz_json.py:94-96 | distinct refs have distinct tokens |
| SlzJson.NotAToken | modio_repo/slz_json.py:98-105 | a string whose second character is not `:` is no ref |
| SlzJson.TokenIsNoKey | modio_repo/slz_json.py:122-123 | a token starts with its kind's prefix and is none of the keys the hook interprets |
| SlzJson.Element.WithRef | modio_repo/slz_json.py:225 | setting a ref changes the ref and not the element's class |
| SlzJson.DenseExtend | modio_repo/slz_json.py:63-69 | a table numbered 1..n stays dense when the next element goes under n + 1 |
| SlzJson.AddElementResolves | modio_repo/slz_json.py:63-69 | constructing an element registers it under the next id of its class; every earlier ref still resolves to the same element |
| SlzJson.CountObjects | modio_repo/slz_json.py:148-170 | at most all elements are objects; none exactly when no element is an object, all exactly when every element is |
| SlzJson.AddAllNumbered | modio_repo/slz_json.py:63-69 | registering a batch keeps each class numbered densely, adds one id per element of that class and keeps earlier refs |
| SlzJson.Registry.constructor | modio_repo/slz_json.py:55-61 | each class starts with an empty element table |
| SlzJson.Registry.Reset | modio_repo/slz_json.py:28-30 | `reset()` empties every table, so numbering restarts at 1 |
| SlzJson.Registry.NewType | modio_repo/slz_json.py:63-69 | a new type gets ref `t:<n+1>` and resolves to itself |
| SlzJson.Registry.NewObject | modio_repo/slz_json.py:63-69 | a new object gets ref `o:<n+1>`, resolves to itself and leaves the type table alone |
| SlzJson.Registry.RegisterAll | modio_repo/slz_json.py:63-69 | building elements one by one registers them as `AddAll` |
| SlzJson.Registry.Loads | modio_repo/slz_json.py:51 | `loads` returns the decoded value, or the first exception; every element the hook built before it returns or raises stays registered, in order |
| SlzJson.Lookup | modio_repo/slz_json.py:186-191 | indexing succeeds exactly when the key names an id stored in the container, and gives that element; a missing id is a `KeyError` |
| SlzJson.Member | modio_repo/slz_json.py:204-209 | `in` is true exactly when indexing would succeed |
| SlzJson.TableOf | modio_repo/slz_json.py:177-178 | a container built from a list has one entry per distinct id |
| SlzJson.DistinctIds | modio_repo/slz_json.py:211-212 | with distinct ids the entry count is the number of ids |
| SlzJson.Container.constructor | modio_repo/slz_json.py:177-178 | the container holds each element under its own ref's id, the last one winning |
| SlzJson.Container.Append | modio_repo/slz_json.py:201-202 | append stores under the element's own id, in place when the id is present, else at the end |
| SlzJson.Container.SetItem | modio_repo/slz_json.py:193-199 | item assignment stores under the key's id whatever the value's ref; an unparsable key raises and changes nothing |
| SlzJson.Container.GetItem | modio_repo/slz_json.py:186-191 | returns `Lookup` |
| SlzJson.Container.Contains | modio_repo/slz_json.py:204-209 | returns `Member` |
| SlzJson.Container.Len | modio_repo/slz_json.py:211-212 | the length is the number of distinct ids |
| SlzJson.Container.ToJson | modio_repo/slz_json.py:214-218 | the encoding has one member per element, keyed by its ref token, in insertion order |
| SlzJson.LookupIgnoresKind | modio_repo/slz_json.py:186-209 | lookup by ref or by token uses the numeric id only: `o:3` finds what `t:3` or 3 finds |
| SlzJson.StoreTouchesOneId | modio_repo/slz_json.py:193-202 | storing under an id makes that id give the value, leaves every other id as it was, and grows the container only for a new id |
| SlzJson.Selected | modio_repo/slz_json.py:243-245 | the selection is exactly the items whose type resolves to a type of the given fullname |
| SlzJson.RefListIsSelected | modio_repo/slz_json.py:242-252 | the RefList encoding is one `{ref, type}` entry per selected item, in container order |
| SlzJson.RefListToJson | modio_repo/slz_json.py:242-252 | the loop returns the `RefListJson` encoding |
| SlzJson.ItemsJson | modio_repo/slz_json.py:12-19 | a list encodes to a list of the same length |
| SlzJson.FieldsJson | modio_repo/slz_json.py:159-160 | a dict encodes to a dict with the same keys in the same order |
| SlzJson.ParseRefKeys | modio_repo/slz_json.py:35-38 | the hook's first step succeeds exactly when each member does, and rewrites each member on its own |
| SlzJson.ParseRefKeysPointwise | modio_repo/slz_json.py:35-38 | members rewritten one by one give the whole rewrite |
| SlzJson.ParseRefKeysKeys | modio_repo/slz_json.py:35-38 | the rewrite keeps every key; without `type`/`ref` keys nothing changes |
| SlzJson.ParseRefKeysUnchanged | modio_repo/slz_json.py:35-38 | a dict with no `type` or `ref` key passes through |
| SlzJson.TryContainer | modio_repo/slz_json.py:220-227 | a dict becomes a container exactly when every key parses as a ref and every value is an element; when the first key does not parse, the dict is left as it was |
| SlzJson.TypeFromJson | modio_repo/slz_json.py:132-140 | a type is tried exactly when `fullname` and `type` are non-null, and built exactly when they are a string and a parsed ref, carrying both |
| SlzJson.ObjectFromJson | modio_repo/slz_json.py:162-167 | an object is tried exactly when `isa` is present; it is built exactly when `isa` is a dict whose `type` is a ref and no other member is named `type_`, `self` or `cls` (each a parameter of the constructor call, which raises `TypeError`), with the next object ref, the other members as data and `isa.type` as its type; a container `isa` is suppressed after the pop |
| SlzJson.SameKeys | modio_repo/slz_json.py:35-38 | two dicts with the same keys in order agree on which keys they have |
| SlzJson.HookBuildsFromKeys | modio_repo/slz_json.py:33-49 | the hook builds an object only from a dict with `isa`, numbered after those already built, a type only from one with `fullname` and `type`, and registers nothing else |
| SlzRoundTrip.TableOfWellKeyed | modio_repo/slz_json.py:177-178 | a container built from plain elements holds each under its own ref's id |
| SlzRoundTrip.DecodeScalarFields | modio_repo/slz_json.py:33-49 | plain scalar fields decode back to themselves |
| SlzRoundTrip.DecodeScalarObject | modio_repo/slz_json.py:33-49 | a dict of plain scalars decodes to itself |
| SlzRoundTrip.FieldsJsonKeys | modio_repo/slz_json.py:159-160 | encoding keeps each key of an object's data |
| SlzRoundTrip.HookOnParsed | modio_repo/slz_json.py:40-42 | a dict whose first key is no ref is not taken for a container |
| SlzRoundTrip.NoRefableKeys | modio_repo/slz_json.py:44-48 | a dict with none of `fullname`/`type`/`isa` comes back as a dict |
| SlzRoundTrip.DecodeIsa | modio_repo/slz_json.py:159-160 | the encoded `isa` member decodes to a dict holding the type ref |
| SlzRoundTrip.TypeDict | modio_repo/slz_json.py:126-130 | an encoded type is a dict with its token under `type` and its fullname |
| SlzRoundTrip.DecodeTypeElement | modio_repo/slz_json.py:126-140 | decoding an encoded type gives a type with the same fullname and ref |
| SlzRoundTrip.PlainKeys | modio_repo/slz_json.py:159-167 | plain data has no `isa`, `type` or `ref` key |
| SlzRoundTrip.ObjectJsonShape | modio_repo/slz_json.py:159-160 | an encoded object is its data followed by `isa` |
| SlzRoundTrip.DecodeObjectMembers | modio_repo/slz_json.py:159-167 | the members of an encoded object decode to its data and `isa` |
| SlzRoundTrip.DecodeSingleEntry | modio_repo/slz_json.py:33-49 | decoding one member is decoding its value |
| SlzRoundTrip.IsaAppended | modio_repo/slz_json.py:164-166 | removing the appended `isa` gives back the data |
| SlzRoundTrip.ObjectDictKeys | modio_repo/slz_json.py:159-167 | the decoded dict of an object has distinct keys and an `isa` |
| SlzRoundTrip.ObjectDict | modio_repo/slz_json.py:33-49 | the hook on a decoded object dict builds an object with the same data and type |
| SlzRoundTrip.ObjectFromFields | modio_repo/slz_json.py:162-167 | `__from_json__` on data plus `isa` builds the object from that data |
| SlzRoundTrip.DecodeObjectElement | modio_repo/slz_json.py:148-170 | decoding an encoded plain object gives the object back, up to its ref |
| SlzRoundTrip.DecodeElement | modio_repo/slz_json.py:120-170 | decoding an encoded element gives it back, up to its ref |
| SlzRoundTrip.TableJsonMembers | modio_repo/slz_json.py:214-218 | a well-keyed container's encoding has one member per element keyed by its token |
| SlzRoundTrip.DecodeTableMembers | modio_repo/slz_json.py:33-49 | the members of an encoded container decode to its elements |
| SlzRoundTrip.TryContainerRebuilds | modio_repo/slz_json.py:220-227 | from the decoded members `__from_json__` rebuilds the container, each element with its token's ref |
| SlzRoundTrip.TryContainerStep | modio_repo/slz_json.py:223-226 | one member of the rebuild stores the element under its id |
| SlzRoundTrip.AppendFreshId | modio_repo/slz_json.py:201-202 | appending under a fresh id extends the container at its end |
| SlzRoundTrip.DecodedMembersKeys | modio_repo/slz_json.py:214-218 | the decoded members of a container have distinct, token-shaped keys |
| SlzRoundTrip.HookBuildsContainer | modio_repo/slz_json.py:40-42 | the hook turns the decoded members of a container back into that container |
| SlzRoundTrip.ContainerRoundTrip | modio_repo/slz_json.py:176-230 | decoding the encoding of a well-keyed container of plain elements gives back exactly that container |
| SlzRoundTrip.Document | modio_repo/slz_json.py:258-271 | a document is its named containers in order |
| SlzRoundTrip.DecodeDocumentMembers | modio_repo/slz_json.py:273-277 | each named container of a document decodes back to itself |
| SlzRoundTrip.DocumentHook | modio_repo/slz_json.py:33-49 | the hook hands a dict of plainly named containers back unchanged |
| SlzRoundTrip.DumpsLoadsRoundTrip | modio_repo/slz_json.py:255-278 | `loads(dumps(a)) == a` for a non-empty dict of named well-keyed containers |
| SlzRoundTrip.LoadedEqualsDumped | modio_repo/slz_json.py:274-277 | the test's `assert a == loaded` holds under Python `==`: the reloaded document of plain containers compares equal to the original |
| SlzRoundTrip.ReorderedDataEqual | modio_repo/slz_json.py:156-157 | two data dicts with the same scalar members compare equal whatever order the members were inserted in |
| SlzRoundTrip.ReorderedObjectsEqual | modio_repo/slz_json.py:156-157 | two objects with the same ref and the same members, in any order, are equal; their types are not compared |
| SlzRoundTrip.PlainElementSelfEqual | modio_repo/slz_json.py:120-157 | a type, or an object with plain data, equals itself |
| SlzRoundTrip.DocumentSelfEqual | modio_repo/slz_json.py:255-277 | a dict of named plain containers, as the test builds, equals itself |
| SlzRoundTrip.ContainerSelfEqual | modio_repo/slz_json.py:180-181 | a container of plain elements equals itself |
| SlzJson.ValueEq | modio_repo/slz_json.py:91-92 | definition of `==` between field values, with the exception raised where an operand lacks `ref_type` or `data`; promises in `BoolEqualsInt`, `RefAgainstOtherRaises` and `LoadedEqualsDumped` |
| SlzJson.ElementEq | modio_repo/slz_json.py:120-157 | definition: `SLZType` by `fullname`, `SLZObject` by `data` as a dict and by `ref`; promises in `ReorderedObjectsEqual` and `TypeAgainstObjectRaises` |
| SlzJson.ContainerEq | modio_repo/slz_json.py:180-181 | definition: `all` over `zip` of the two element lists; promises in `ContainerSelfEqual` |
| SlzJson.BoolEqualsInt | modio_repo/slz_json.py:156-157 | a stored `True` equals `1` and `False` equals `0`, in either order |
| SlzJson.TypeAgainstObjectRaises | modio_repo/slz_json.py:120-157 | a type compared with an object raises `AttributeError`, in either order |
| SlzJson.RefAgainstOtherRaises | modio_repo/slz_json.py:91-92 | a ref compared with anything but a ref raises `AttributeError`, in either order |
| RepositoryFiles.RankPrefixDigits | modio_repo/slz_repositoryfile.py:96-99 | for a rank below 10^9 the prefix is the size tags around nine digits whose value is the rank |
| RepositoryFiles.TitleParts | modio_repo/slz_repositoryfile.py:96-100 | a title starts with the rank prefix and the name and ends with the download count |
| RepositoryFiles.TitlesSortByRank | modio_repo/slz_repositoryfile.py:95-100 | of two ranked titles the lower rank sorts first, whatever the names and download counts |
| RepositoryFiles.ManifestUrlNamesFirstExtract | modio_repo/slz_repositoryfile.py:77 | the manifest URL names the file's first extracted pallet, `<id>_0.json` |
| RepositoryFiles.NewElementsEndInListing | modio_repo/slz_repositoryfile.py:60-80 | a mod with pallets adds its targets, then its listing |
| RepositoryFiles.NewElementsNumbered | modio_repo/slz_repositoryfile.py:60-93 | the added objects are numbered consecutively after those already built; all but the last are targets, the last is the listing |
| RepositoryFiles.ListingFromFirstPallet | modio_repo/slz_repositoryfile.py:52-80 | the listing describes the first pallet, PC pallets first, and links the file that owns it |
| RepositoryFiles.NoPalletNoListing | modio_repo/slz_repositoryfile.py:60 | a mod without pallets adds nothing at all |
| RepositoryFiles.RefListKeepsTheListing | modio_repo/slz_repositoryfile.py:35-37 | of a mod's new objects the root's RefList selects exactly the listing |
| RepositoryFiles.SelectedPrefixNone | modio_repo/slz_repositoryfile.py:35-37 | targets are never selected as listings |
| RepositoryFiles.AddAllSnoc | modio_repo/slz_json.py:63-69 | registering one more element is one more registration |
| RepositoryFiles.RegisterTypes | modio_repo/slz_repositoryfile.py:10-22 | the three types get the next three type ids, repository, listing and target in that order |
| RepositoryFiles.NewRoot | modio_repo/slz_repositoryfile.py:23-39 | the objects container starts with the root object under the next object id |
| RepositoryFiles.PutAllSnoc | modio_repo/slz_json.py:201-202 | appending one more element is one more `Put` |
| RepositoryFiles.RootTokenIsFirstObject | modio_repo/slz_repositoryfile.py:26 | the fixed root token names an object exactly when its id is 1 |
| RepositoryFiles.PutAllAppend | modio_repo/slz_json.py:201-202 | appending two batches is appending their concatenation |
| RepositoryFiles.AddAllAppend | modio_repo/slz_json.py:63-69 | registering two batches is registering their concatenation |
| RepositoryFiles.OneTarget | modio_repo/slz_repositoryfile.py:82-93 | zero or one target is zero or one append and registration |
| RepositoryFiles.TwoBatches | modio_repo/slz_repositoryfile.py:62-80 | the two platform batches compose |
| RepositoryFiles.CollectPallets | modio_repo/slz_repositoryfile.py:48-58 | returns the mod's two stored files and its pallets, PC file's first |
| RepositoryFiles.RepositoryFile.constructor | modio_repo/slz_repositoryfile.py:7-39 | registers the three types and the root object under the next ids; the root entry is the fixed `o:1` |
| RepositoryFiles.RepositoryFile.MaybeAddPlatform | modio_repo/slz_repositoryfile.py:82-93 | a present file adds one target under the next object id and its `{ref, type}` under the platform key; absent, nothing |
| RepositoryFiles.RepositoryFile.AddTargets | modio_repo/slz_repositoryfile.py:62-63 | the PC target then the quest target are added, and the targets dict names them |
| RepositoryFiles.RepositoryFile.AddObject | modio_repo/slz_repositoryfile.py:65-80 | a new object gets the next object id and is appended to the container and the registry |
| RepositoryFiles.RepositoryFile.AddListed | modio_repo/slz_repositoryfile.py:60-80 | targets then the listing are added, numbered consecutively |
| RepositoryFiles.RepositoryFile.AddMod | modio_repo/slz_repositoryfile.py:45-80 | the objects container grows by exactly `NewElements` of the mod, registered in the shared registry |
| RepositoryFiles.RepositoryFile.AddCollected | modio_repo/slz_repositoryfile.py:52-80 | from the collected files and pallets, adds exactly `NewElements` |
| ManifestRun.FirstMostCommon | modio_repo/__main__.py:19-20 | the scan finds the first barcode with the highest count |
| ManifestRun.MostCommon | modio_repo/__main__.py:19-21 | `most_common(1)` is a listed barcode with its count, and no barcode is counted more |
| ManifestRun.CountOfRepeat | modio_repo/__main__.py:19-22 | a barcode at two positions counts at least 2 |
| ManifestRun.RepeatOfCount | modio_repo/__main__.py:19-22 | a count of 2 or more comes from two positions |
| ManifestRun.DuplicateIffRepeat | modio_repo/__main__.py:17-26 | the duplicate error is raised exactly when some barcode repeats |
| ManifestRun.DuplicateNamesFirstMostCommon | modio_repo/__main__.py:19-26 | the message names the first of the most frequent barcodes, which occurs more than once |
| ManifestRun.Barcodes | modio_repo/__main__.py:19 | the barcodes in pallet order |
| ManifestRun.CheckDuplicateEffect | modio_repo/__main__.py:14-27 | no repeat changes nothing; a repeat adds the file's error, or is an integrity error when the file already has one; nothing else changes |
| ManifestRun.SetMalformedFlags | modio_repo/__main__.py:71-84 | the instance is flagged exactly when a file holds an error, and then saved; no other table changes |
| ManifestRun.PassErrorPersists | modio_repo/__main__.py:59-65 | the first exception ends the pass |
| ManifestRun.Route | modio_repo/__main__.py:62-65 | one file's mods are at most all of them |
| ManifestRun.RouteFromLoaded | modio_repo/__main__.py:62-65 | the id at any position of a file's route is the id of a loaded mod whose nsfw flag picks that file |
| ManifestRun.Ids | modio_repo/__main__.py:59 | the ids of the loaded mods in order |
| ManifestRun.RoutePartition | modio_repo/__main__.py:62-65 | the standard and nsfw mod lists together are exactly the loaded mods |
| ManifestRun.PassRoutes | modio_repo/__main__.py:59-65 | a completed pass sends each mod to the nsfw file when nsfw, else to the standard one, in order; files, pallets and the set of mods stay, integrity holds |
| ManifestRun.StepKeeps | modio_repo/__main__.py:60-65 | one mod goes to one file by its nsfw flag; files, pallets and mod ids stay |
| ManifestRun.SetMalformedKeeps | modio_repo/__main__.py:71-84 | `set_malformed` keeps files, pallets, mod ids, integrity and the nsfw flag |
| ManifestRun.CheckDuplicatePalletFor | modio_repo/__main__.py:14-27 | the store becomes `CheckDuplicate` of the old one, or the error is reported with the store unchanged |
| ManifestRun.MarkDuplicatePallets | modio_repo/__main__.py:30-37 | the PC check then the quest check, as `MarkDuplicates` |
| ManifestRun.SetMalformed | modio_repo/__main__.py:71-84 | the store and instance become `SetMalformedOf` |
| ManifestRun.Loaded | modio_repo/__main__.py:47 | every loaded mod is stored and not malformed, with its stored fields |
| ManifestRun.LoadedIsComplete | modio_repo/__main__.py:47 | every stored mod that is not malformed is loaded |
| ManifestRun.NewFile | modio_repo/slz_repositoryfile.py:7-39 | a repository file starts with its root object under the next object id |
| ManifestRun.NewFiles | modio_repo/__main__.py:48-57 | as written: both files share one registry; the standard root is object 1 and its entry names it, the nsfw root is object 2 while its entry is the fixed `o:1`; two objects are registered |
| ManifestRun.SecondRootIsNotRootToken | modio_repo/slz_repositoryfile.py:26 | object 2's token is not the fixed root token |
| ManifestRun.NewFilesReset | modio_repo/__main__.py:48-57 | with `reset()` before each file, both roots are object 1, so both root entries name their own root object |
| ManifestRun.AddToFile | modio_repo/__main__.py:62-65 | `add_mod` on one file appends `NewElements` there and leaves the other file's objects alone |
| ManifestRun.CheckAndFlag | modio_repo/__main__.py:60-61 | duplicate marking then `set_malformed`, or the exception that stops it |
| ManifestRun.AddNsfw | modio_repo/__main__.py:62-63 | an nsfw mod's objects go to the nsfw file, as `Added` says |
| ManifestRun.AddStd | modio_repo/__main__.py:64-65 | a mod that is not nsfw goes to the standard file, as `Added` says |
| ManifestRun.VisitMod | modio_repo/__main__.py:59-65 | one loop iteration, as the duplicate check, the flag and `Added` |
| ManifestRun.VisitStep | modio_repo/__main__.py:59-65 | one loop iteration is one `Step` of the pass |
| ManifestRun.PassExtends | modio_repo/__main__.py:59-65 | the pass over one more mod is one more step |
| ManifestRun.RunPass | modio_repo/__main__.py:59-65 | from any number of registered objects, the loop leaves the store and both files' objects of `Pass`, or the exception that ended it; the registry count follows the objects added |
| ManifestRun.Run | modio_repo/__main__.py:40-65 | loads the mods that are not malformed, builds both files in one registry (roots 1 and 2), and leaves the store and the two files' objects of `Pass` over them, mods numbered from 3 |
| ManifestRun.RunReset | modio_repo/__main__.py:40-65 | the corrected run: with `reset()` before each file, both roots are object 1 and the store and objects are those of `Pass` from one registered object |
| ManifestRun.CheckDuplicate | modio_repo/__main__.py:14-27 | definition; promises in `CheckDuplicateEffect` |
| ManifestRun.MarkDuplicates | modio_repo/__main__.py:30-37 | definition; promises in `MarkDuplicatesKeeps` and `StatsRefreshReopensDuplicate` |
| ManifestRun.DuplicateError | modio_repo/__main__.py:17-26 | definition; promises in `DuplicateIffRepeat` and `DuplicateNamesFirstMostCommon` |
| ManifestRun.SetMalformedOf | modio_repo/__main__.py:71-84 | definition; promises in `SetMalformedFlags` and `SetMalformedKeeps` |
| ManifestRun.Pass | modio_repo/__main__.py:59-65 | definition; promises in `PassRoutes`, `PassErrorPersists` and `PassExtends` |
| ManifestRun.MarkDuplicatesKeeps | modio_repo/__main__.py:30-37 | a duplicate marking that succeeds keeps mods, files and pallets and only adds errors |
| ManifestRun.CheckDuplicateOnce | modio_repo/__main__.py:14-27 | corrected check that leaves a file already holding its error alone; promises in `CheckDuplicateOnceSucceeds` |
| ManifestRun.MarkDuplicatesOnce | modio_repo/__main__.py:30-37 | corrected marking with that check; promises in `MarkDuplicatesOnceSucceeds` |
| ManifestRun.CheckDuplicateOnceSucceeds | modio_repo/__main__.py:14-27 | on a stored file the corrected check never fails; afterwards the file holds an error exactly when it held one or its barcodes repeat; only errors change |
| ManifestRun.MarkDuplicatesOnceSucceeds | modio_repo/__main__.py:30-37 | the corrected marking never ends the run with an integrity error and only adds errors |
| Downloader.StatsRefreshReopensDuplicate | modio_repo/downloader/__init__.py:143-159 | as written: after a refresh of a mod whose PC file holds its duplicate error, the flag is cleared and the next duplicate marking is an integrity error; the corrected marking succeeds |
| Downloader.ReplaceCrops | modio_repo/downloader/__init__.py:52-54 | definition; promises in `CropMatchOfToken`, `CropTokenReplaced`, `NoCropUnchanged` and `ReplaceCropsAtMatch` |
| Downloader.ReplaceCropsAtMatch | modio_repo/downloader/__init__.py:52-54 | text that starts with a crop match is rewritten to `crop_128x128` followed by the rewrite of what comes after the match |
| Downloader.NewRow | modio_repo/downloader/__init__.py:162-175 | definition; promises in `ReinsertWritesRow` and `ReinsertSettlesUpdateTime` |
| Downloader.HandleFile | modio_repo/downloader/__init__.py:198-208 | definition; promises in `AfterLoad` and `HandleFileConfined` |
| Downloader.HandleFiles | modio_repo/downloader/__init__.py:190-196 | definition; promises in `HandleFilesEffect` and `PcFailureSkipsQuest` |
| Downloader.Reinsert | modio_repo/downloader/__init__.py:161-196 | definition; promises in `ReinsertWritesRow`, `ReinsertSettlesUpdateTime` and `ReinsertRediscoversFiles` |
| Downloader.Changed | modio_repo/downloader/__init__.py:107-135 | definition; promises in `IsChanged` |
| Downloader.Sync | modio_repo/downloader/__init__.py:102-141 | definition; promises in `SyncKeepsMods` and `InsertUpdateMod` |
| Downloader.SyncAll | modio_repo/downloader/__init__.py:92-100 | definition; promises in `SyncAllStoresEveryMod` and `SyncAllErrorPersists` |
| Pallets.ExtractEntries | modio_repo/downloader/pallets.py:95-114 | definition; promises in `ExtractEntriesOk` and `ExtractEntriesSpec` |
| Pallets.Extract | modio_repo/downloader/pallets.py:85-114 | as written: definition; promises in `GetFromZip` and `NoPalletEntryExtractsNothing` |
| Pallets.ExtractChecked | modio_repo/downloader/pallets.py:104-108 | corrected extraction with an `== 0` guard; promises in `ExtractCheckedNotFound` |
| Pallets.ExtractCheckedNotFound | modio_repo/downloader/pallets.py:104-108 | with the `== 0` guard an archive without a pallet member is the "pallet.json not found in zip." load error; every other archive extracts as written |
| Pallets.SomeMatching | modio_repo/downloader/pallets.py:95-97 | a member named like a pallet is among the matching members |
| Pallets.PalletObject | modio_repo/downloader/pallets.py:125-152 | definition; promises in `PalletObjectIsTyped` and `ReadPalletContent` |
| Pallets.PalletContent | modio_repo/downloader/pallets.py:116-123 | definition; promises in `ReadBack` |
| Pallets.SavePallets | modio_repo/downloader/pallets.py:46-58 | definition; promises in `SavePalletsRows`, `SavePalletsFrame` and `SavePalletsErrorPersists` |
| Pallets.RowOfItem | modio_repo/downloader/pallets.py:47-57 | definition: the row one extracted entry gives; used by `SavePalletsRows` |
| Pallets.RowsMatchCons | modio_repo/downloader/pallets.py:47-58 | rows matching entries extend by one row per entry |
| Pallets.RowsOfMatching | modio_repo/downloader/pallets.py:47-58 | the k-th saved row is the row of the k-th matching member |
| Pallets.RowOfItemPaths | modio_repo/downloader/pallets.py:49-57 | a row built from an entry carries that entry's two paths |
| ModFiles.Saves | modio_repo/downloader/mod_files.py:30-56 | definition; promises in `SavesOnePerPlatform`, `SavesAreFirstPerPlatform` and `NewestFilePerPlatform` |
| ModFiles.ApplySaves | modio_repo/downloader/mod_files.py:32-56 | definition; promises in `ApplySavesKeeps`, `ApplySavesStores` and `ApplySavesAppend` |
| Models.DeleteFileAt | modio_repo/models.py:44-51 | deleting a file drops exactly that file's pallets and error and keeps every other file's |
| Models.OtherFileIdsDiffer | modio_repo/models.py:62-73 | in a consistent store another mod's file of a platform has a different id |
| SlzJson.Token | modio_repo/slz_json.py:94-96 | definition; promises in `FromStrToken`, `TokenInjective` and `TokenDistinct` |
| SlzJson.ValueJson | modio_repo/slz_json.py:12-19 | definition; promises in `ItemsJson`, `FieldsJson` and the round-trip lemmas |
| SlzJson.ElementJson | modio_repo/slz_json.py:126-130 | definition (with `slz_json.py:159-160`); promises in `TypeDict`, `ObjectJsonShape` and `DecodeElement` |
| SlzJson.TableJson | modio_repo/slz_json.py:214-218 | definition; promises in `TableJsonMembers` and `ContainerRoundTrip` |
| SlzJson.Decode | modio_repo/slz_json.py:51 | definition: `json.loads` calling the hook bottom-up; promises in `DecodeExtends` and the round-trip lemmas |
| SlzJson.ObjectHook | modio_repo/slz_json.py:33-49 | definition; promises in `HookBuildsFromKeys`, `HookExtends` and `HookOnParsed` |
| SlzJson.DecodeExtends | modio_repo/slz_json.py:63-69 | decoding only adds to the elements already built, whether it returns or raises |
| SlzJson.DecodeItemsExtends | modio_repo/slz_json.py:63-69 | decoding a list only adds to the elements already built |
| SlzJson.DecodeEntriesExtends | modio_repo/slz_json.py:63-69 | decoding a dict's members only adds to the elements already built |
| SlzJson.HookExtends | modio_repo/slz_json.py:33-49 | the hook registers at most the one element it builds, and nothing when it raises |
| SlzRoundTrip.FailureKeepsEarlierType | modio_repo/slz_json.py:63-69 | decoding `[<a type>, {"isa": 5}]` raises the `TypeError`, with the type already built and so registered |
| SlzRoundTrip.ItemsFailAtSecond | modio_repo/slz_json.py:51 | a list whose second item raises raises that error, keeping what the first item built |
| SlzRoundTrip.IsaIntRaises | modio_repo/slz_json.py:162-166 | `{"isa": 5}` raises "'isa' is not subscriptable" and adds nothing to what was already built |
| RepositoryFiles.TitleSortHack | modio_repo/slz_repositoryfile.py:95-100 | definition; promises in `TitleParts` and `TitlesSortByRank` |
| RepositoryFiles.NewElements | modio_repo/slz_repositoryfile.py:60-93 | definition; promises in `NewElementsNumbered`, `NewElementsEndInListing` and `NoPalletNoListing` |
| RepositoryFiles.ListingData | modio_repo/slz_repositoryfile.py:65-79 | definition; promises in `ListingFields` and `ListingFromFirstPallet` |
| RepositoryFiles.ListingFields | modio_repo/slz_repositoryfile.py:65-79 | the listing's eleven members: the pallet's barcode, author, version and sdkVersion, `internal` false, empty tags, the owner file's manifest URL and the targets |
| Pallets.StoredText | modio_repo/models.py:79-82 | definition: `str()` of a JSON scalar as a `TextField` stores it; promises in `StoredTextScalars` |
| Pallets.StoredTextScalars | modio_repo/models.py:79-82 | a string is stored as it is, an integer as decimal digits that read back as the integer, and `null` is refused |
| Pallets.TextField | modio_repo/downloader/pallets.py:50-53 | reading a field succeeds exactly when the key is present and its value can be stored, and gives the stored text |
| SlzRoundTrip.ParameterNameRaises | modio_repo/slz_json.py:63-69 | an object dict with a member named `type_`, `self` or `cls` raises `TypeError` instead of building an object |

## Left out

- Network I/O is an input, not modelled. This covers the mod.io client, pagination in
  `generate_mods`, HEAD redirects and archive downloads. The file listing, redirect locations
  and download outcomes are the `Remote` parameter.
- The wall clock (`datetime.now`) and the random draw (`random() > 0.95`) are inputs.
- Concurrency is not modelled. The semaphore, `asyncio.gather` and the pages running in
  parallel are sequential in the model, one page after another.
- `run_async`, `main`, `Tortoise.init`/`generate_schemas`, logging and `print` have no effect
  on the modelled state.
- `downloader_main` at `__main__.py:45` runs before the manifest pass and is modelled on its own
  (`Downloader.SyncAll`, `Downloader.DeleteOldPallets`). `ManifestRun.Run` starts from the store
  that phase leaves.
- The order of `Mod.filter(...)` rows is the `ids` input of `ManifestRun.Run`. The server-side
  sort and limit of the file listing are a precondition of `ModFiles.NewestFilePerPlatform`.
- `RepositoryFiles.ModPallets`, `ManifestRun.Barcodes`: the pallets of a file are taken in
  insertion order. Neither `await pc_file.pallet` (`slz_repositoryfile.py:54-56`) nor
  `file_.pallet.all()` (`__main__.py:17`) has an ORDER BY, so the "first pallet" of
  `RepositoryFiles.ListingFromFirstPallet` and the tie-break of `ManifestRun.FirstMostCommon`
  assume SQLite returns rows in insertion order; any other row order is not modelled.
- `RepositoryFile.save` and `dump` writing to disk are not modelled. The document is the value
  `RepositoryFile.Document()`.
- `get_pallet_class` is not modelled. Its `NotImplementedError` branch is unreachable with the
  two file classes, so the platform picks the pallet table.
- Zip decompression, UTF-8 decoding and JSON parsing of archive members are inputs. A member is
  either readable (with given content) or raises `NotImplementedError`. Disk content is read
  back as written.
- `Path.resolve()` is the identity on the stored relative paths.
- Timezone conversion is not modelled; times are integers.
- Python `\d` matches any Unicode decimal digit; the model's digits are ASCII only.
- SQLite type coercion is not modelled beyond the ORM's `str()` of the four pallet text fields
  (`Pallets.StoredText`).
- JSON numbers that are not integers are not modelled, in pallet documents and in repository
  documents alike: `JsonData.Json` and `SlzJson.Value` have no float case.
- `Pallets.PalletRowOf`: the stored `zip_path` is the member name as listed in the archive. The
  source stores `str(Path(name))` (`downloader/pallets.py:96`, `:55`), which also collapses
  repeated `/` and drops `.` components; that normalisation is not modelled.
- `Pallets.TextField`: a pallet field holding a JSON array or object is refused with a crash; the
  ORM would store its Python `repr` text, which is not modelled.
- `SlzJson.ValueEq`: a container compared with an object is taken to raise. Python instead
  zips the container's elements with the object's field values; no document compares the two.
- `SlzJson.ValueEq`: values have no identity. Python's identity shortcut inside list and dict
  comparisons is not modelled, and two `RefList`s, equal in Python only when they are one
  object, always compare unequal. A dict's entries are taken as its items, with distinct keys.
- `SlzRoundTrip.DumpsLoadsRoundTrip`: is proved only for containers whose objects hold plain
  scalar fields, the shape of the serialiser's own test. Objects holding nested dicts, lists or
  RefLists are not covered. A plain field is never named `type_`, `self` or `cls`: `loads`
  raises `TypeError` on such an object (`SlzRoundTrip.ParameterNameRaises`), so there is no round
  trip to state.
- `SLZType.__repr__`, `SLZObject.__repr__`, `Ref.__repr__` and `__str__` are diagnostics only.
- `SLZJSONEncoder.default`'s fallback for non-serialisable values is left out: the model's
  values are all encodable.
- `SlzJson.TryContainer`: the contract does not give the rebuilt table entry by entry; the
  successful case is proved separately for encoded containers (`SlzRoundTrip.TryContainerRebuilds`).
- `SlzJson.TryContainer`: a container stored as a value inside a container is refused
  (`ContainerCrash(Unsupported(...))`), where `slz_json.py:223-226` would set its `ref` attribute and store it.
  Containers hold elements only, so this value shape has no model.
- `SlzJson.TypeFromJson`: a non-null `fullname` that is not a string, or a `type` that did not parse
  as a ref, is refused (`Failed(Unsupported)`). `slz_json.py:133-139` builds a type carrying such
  values; the model's types carry a string name and a ref.
- `SlzJson.ObjectFromJson`: an `isa.type` that did not parse as a ref is refused
  (`Failed(Unsupported)`). `slz_json.py:163-166` builds an object with that value as its type; the
  model's objects carry a type ref.
- `SlzJson.Registry.Loads`: setting `value.ref` while rebuilding a container (`slz_json.py:225`)
  changes the element in the decoded value only. Elements are values, so the copy registered
  when the element was built keeps its original ref.
- `SlzJson.Selects`: an item whose type ref resolves to no registered type is not selected; the
  source's `resolve()` would raise `KeyError` (`slz_json.py:108`). The builder only adds objects
  whose types it registered, so the case does not arise there.

## Findings

| source | as written | input that shows it | evidently intended | confidence | as-written member | corrected member |
|---|---|---|---|---|---|---|
| modio_repo/__main__.py:48-57 with modio_repo/slz_repositoryfile.py:26 | both repository files are built in one registry; the second file's root object is `o:2`, but every document's `root` entry is the fixed `"o:1"` | a fresh run building the standard and then the nsfw file: the nsfw document's root names `o:1`, an object that is not in its `objects` | the registry is reset (`reset()`) before each file, so each root object is `o:1` | not executed | ManifestRun.NewFiles | ManifestRun.NewFilesReset |
| modio_repo/downloader/pallets.py:104-108 | the "not found" guard tests `len(found_pallets) < 0` | an archive whose members include no `pallet.json`: extraction returns an empty list and no error | the guard tests `== 0` and raises "pallet.json not found in zip." | not executed | Pallets.NoPalletEntryExtractsNothing | Pallets.ExtractCheckedNotFound |
| modio_repo/downloader/__init__.py:143-159 with modio_repo/__main__.py:14-27 and modio_repo/models.py:144-147 | `update_stats_mod` clears `malformed_pallet` but keeps the files' pallet errors; the duplicate check then saves a second error for a file | a mod whose PC file repeats a barcode: the first run saves the error and flags the mod; a later run refreshes it unchanged, the flag clears, and `check_duplicate_pallet_for` raises `IntegrityError` on the one-to-one error link | a file that already holds its pallet error is not flagged again | not executed | Downloader.StatsRefreshReopensDuplicate | ManifestRun.MarkDuplicatesOnceSucceeds |
