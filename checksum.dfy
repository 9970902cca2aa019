/**
 * `checksum_file`: the SHA-256 check of a fetched file and the action it
 * chooses on a mismatch, selected by an integer error level.
 */
module Checksum {
  import opened Wrappers
  import opened Text
  import opened Digest

  /** What the check asks of the engine. */
  datatype Outcome =
    | NoAction
    /** `Chef::Application.warn` with `warning`, then `file path` with `action :delete`. */
    | WarnAndDelete(path: string, warning: string)
    /** `Chef::Application.fatal!` with `message`: the run is aborted. */
    | Fatal(message: string)

  /** `` (cksum, fn) = `sha256sum #{filename}`.split(/\s+/) ``, then `cksum == shasum`. */
  predicate DigestMatches(sh: Shell, shasum: string, filename: string) {
    DigestToken(sh, "sha256sum", filename) == Some(shasum)
  }

  function ChecksumFile(sh: Shell, shasum: string, filename: string, errorLevel: int): (r: Outcome)
    ensures DigestMatches(sh, shasum, filename) ==> r == NoAction
    ensures !DigestMatches(sh, shasum, filename) && errorLevel == 0 ==>
      r == WarnAndDelete(filename, filename + " MISMATCH DELETE/REPULL")
    ensures !DigestMatches(sh, shasum, filename) && errorLevel == 1 ==>
      r == Fatal(filename + " MISMATCH CHECKSUM")
    ensures errorLevel != 0 && errorLevel != 1 ==> r == NoAction
  {
    var cksum := FirstField(sh(DigestCommand("sha256sum", filename)));
    if cksum != Some(shasum) then
      if errorLevel == 0 then WarnAndDelete(filename, filename + " MISMATCH DELETE/REPULL")
      else if errorLevel == 1 then Fatal(filename + " MISMATCH CHECKSUM")
      else NoAction
    else NoAction
  }

  /** The outcome depends on the shell only through whether the digests match. */
  lemma OutcomeDependsOnlyOnMatch(sh1: Shell, sh2: Shell, shasum: string, filename: string, errorLevel: int)
    requires DigestMatches(sh1, shasum, filename) == DigestMatches(sh2, shasum, filename)
    ensures ChecksumFile(sh1, shasum, filename, errorLevel) == ChecksumFile(sh2, shasum, filename, errorLevel)
  {
  }

  /**
   * On a host whose `sha256sum` reports real digests: no action exactly when
   * the file exists with the expected digest or the level is neither 0 nor
   * 1. A missing file is a mismatch, never a silent skip.
   */
  lemma ChecksumOnHost(sh: Shell, digests: map<string, string>, shasum: string, filename: string, errorLevel: int)
    requires Reports(sh, "sha256sum", Coreutils, digests) && ValidDigests(digests)
    ensures ChecksumFile(sh, shasum, filename, errorLevel) == NoAction <==>
      (filename in digests && digests[filename] == shasum) || (errorLevel != 0 && errorLevel != 1)
    ensures filename !in digests && errorLevel == 1 ==> ChecksumFile(sh, shasum, filename, errorLevel).Fatal?
    ensures ChecksumFile(sh, shasum, filename, errorLevel).WarnAndDelete? <==>
      errorLevel == 0 && Lookup(digests, filename) != Some(shasum)
  {
    TokenOnHost(sh, "sha256sum", Coreutils, digests, filename);
  }
}
