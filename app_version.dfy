/**
 * The update check: the first line of the published VERSION file, trimmed, is
 * compared as a string with the built-in version.
 */
module AppVersion {
  import opened Wrappers
  import opened Text

  const CurrentVersion: string := "1.0.0"

  /**
   * The outcome of a check. `BetaVersion` is matched by the home screen but is
   * never produced by `CheckForUpdates`; it is kept so that the screen's three
   * labels can be modelled.
   */
  datatype VersionCheckResult =
    | UpdateAvailable(current: string, latest: string)
    | UpToDate
    | Error(message: string)
    | BetaVersion

  /** What reading the VERSION file gave: its first line, or an exception with its (nullable) message. */
  datatype Fetch = Fetched(line: string) | Failed(message: Option<string>)

  /** `checkForUpdates()`, with the network read passed in. */
  function CheckForUpdates(f: Fetch): (r: VersionCheckResult)
    ensures r.UpdateAvailable? <==> f.Fetched? && StrLess(CurrentVersion, Trim(f.line))
    ensures r.UpdateAvailable? ==> r.current == CurrentVersion && r.latest == Trim(f.line)
    ensures r.UpToDate? <==> f.Fetched? && !StrLess(CurrentVersion, Trim(f.line))
    ensures r.Error? <==> f.Failed?
    ensures r.Error? ==> r.message == (if f.message.Some? then f.message.value else "Unknown error")
    ensures !r.BetaVersion?
  {
    match f
    case Fetched(line) =>
      var latest := Trim(line);
      if StrLess(CurrentVersion, latest) then UpdateAvailable(CurrentVersion, latest) else UpToDate
    case Failed(message) => Error(message.GetOr("Unknown error"))
  }

  /** Whitespace around the published version does not change the outcome. */
  lemma PaddingIrrelevant(w1: string, line: string, w2: string)
    requires AllWhitespace(w1) && AllWhitespace(w2)
    ensures CheckForUpdates(Fetched(w1 + line + w2)) == CheckForUpdates(Fetched(line))
  {
    TrimIgnoresPadding(w1, line, w2);
  }

  /** Publishing the built-in version, or any version that sorts before it, is up to date. */
  lemma NotNewerIsUpToDate(line: string)
    requires Trim(line) == CurrentVersion || StrLess(Trim(line), CurrentVersion)
    ensures CheckForUpdates(Fetched(line)) == UpToDate
  {
    StrLessIrreflexive(CurrentVersion);
    if StrLess(Trim(line), CurrentVersion) && StrLess(CurrentVersion, Trim(line)) {
      StrLessTransitive(CurrentVersion, Trim(line), CurrentVersion);
    }
  }

  /**
   * The comparison is on characters, not numbers: "1.0.0-rc1" counts as newer
   * because the built-in version is a proper prefix of it.
   */
  lemma PrereleaseCountsAsNewer()
    ensures CheckForUpdates(Fetched("1.0.0-rc1")).UpdateAvailable?
  {
    assert Trim("1.0.0-rc1") == "1.0.0-rc1";
  }
}
