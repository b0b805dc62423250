/**
 * What the mod.io API reports about a mod, the "effective updated time" derived
 * from it, and the pallet load error every download step raises.  Timestamps are
 * integer seconds; timezone conversion is the identity here.
 */
module Utils {
  import opened Base

  /** The platforms a mod.io file can target (those the sync looks at, plus the rest). */
  datatype TargetPlatform = Windows | Android | Oculus | OtherPlatform(name: string)

  /** A file as the API lists it: `platforms` is absent on some records. */
  datatype ApiFile = ApiFile(id: int, date: int, url: string, platforms: Option<seq<TargetPlatform>>)

  datatype Logo = Logo(small: string, original: string)

  /** The fields of an API mod record the sync reads. */
  datatype ApiMod = ApiMod(
    id: int,
    name: string,
    summary: string,
    updated: int,
    file: Option<ApiFile>,      // the mod's current ("live") file
    explicit: bool,             // maturity option equals "explicit"
    rank: int,
    downloads: int,
    logo: Option<Logo>)

  /**
   * `get_api_mod_updated`: the later of the mod's own update time and its current
   * file's date, or the update time alone when there is no current file.
   */
  function ApiModUpdated(m: ApiMod): (t: int)
    ensures t >= m.updated
    ensures m.file.Some? ==> t >= m.file.value.date
    ensures t == m.updated || (m.file.Some? && t == m.file.value.date)
  {
    match m.file
    case None => m.updated
    case Some(f) => if f.date > m.updated then f.date else m.updated
  }

  /** `PalletLoadError`: its text (`str(e)`) and the file id it was raised for. */
  datatype LoadError = LoadError(message: string, fileId: int)
}
