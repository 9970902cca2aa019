# source_build recipe helpers: a Dafny model

This project models the decision logic of the `source_build` cookbook's
helper library (`libraries/default.rb`). The library provides these helpers:
- install package dependencies, downloading RPMs into the engine's file cache;
- fetch a source archive, by ftp client or by `remote_file`;
- check a file's SHA-256 digest;
- remove the old extracted tree and extract the archive;
- declare the `configure`, `make` and `make install` steps;
- compare files by MD5 digest, either a whole directory (`compare_paths`) or an explicit list of pairs (`compare_list`).

The library runs shell commands in backticks. These are modelled as an oracle
`Digest.Shell`: a function from a command line to the text it prints on
standard output. A missing file prints nothing there. Ruby's
`split(/\s+/)[0]` is modelled exactly as `Text.FirstField`. It gives nil for
output that is empty or all whitespace, and `""` for output that starts with
whitespace. Configuration-engine resources (`execute`, `remote_file`,
`package`) are modelled as values of `Resources.Resource`. The helpers return
these values instead of declaring them. A guard (`creates`, `not_if`) is
evaluated against a small `Resources.Host`: the engine process's working
directory plus the directories and files that exist.

The output formats of the digest tools are modelled too:
- `md5sum`/`sha256sum`: `"<digest>  <path>\n"`;
- FreeBSD `md5`: `"MD5 (<path>) = <digest>\n"`;
- FreeBSD `md5 -q`: `"<digest>\n"`.

With these formats, the comparators and the checksum check are tied to the
files' real digests (`Digest.Reports`).

Behaviour of the code that the model keeps:
- Extractor selection is last-match-wins. Three successive assignments overwrite the flags, so "7z" beats "tar.bz2", which beats "tar.gz". A name matching none leaves the flags nil, and the command is then `" <cache>/<src_file>"`.
- `compare_paths` counts an entry that is missing on both sides as matching, because it has no nil check. `compare_list` counts any missing side as a mismatch.
- `checksum_file` takes an integer error level. 0 deletes and warns, 1 aborts, and any other level does nothing on a mismatch.
- `/^ftp/` is anchored at the start of any line of the URL.

## Model

| member | source | states |
|---|---|---|
| `Text.Contains` | libraries/default.rb:184-186 | the unanchored literal match `s =~ /t/` holds iff `t` occurs at some index of `s` |
| `Text.FirstField` | libraries/default.rb:144-145 | `split(/\s+/)[0]`: nil iff the output is all whitespace; otherwise the maximal whitespace-free prefix, empty iff the output starts with whitespace |
| `Text.FirstFieldOfLine` | libraries/default.rb:106 | a line that starts with a whitespace-free word followed by whitespace yields that word as its first field |
| `Digest.DigestToolAsWritten` | libraries/default.rb:139-140 | the tool is `md5` exactly on FreeBSD and `md5sum` elsewhere |
| `Digest.DigestTool` | libraries/default.rb:157-158 | corrected tool choice: `md5 -q` exactly on FreeBSD, the source's choice on every other platform, and never a tool whose output starts with a tag |
| `Digest.TokenOnHost` | libraries/default.rb:144-145 | on a host that reports real digests, the compared token is nil for a missing file, the digest for coreutils/quiet output, and the constant "MD5" for tagged BSD output |
| `Digest.TokenIsDigest` | libraries/default.rb:161-162 | with the corrected tool, the compared token is exactly the file's digest or nil when the file is missing |
| `Compare.ComparePaths` | libraries/default.rb:136-149 | result is true iff, for every listed entry, the source and destination digest tokens are equal (nil == nil included); it equals the entry-by-entry flag fold started from true, so a cleared flag stays cleared; true for an empty listing |
| `Compare.PathsFlagSticky` | libraries/default.rb:143-147 | once the `match` flag is false, no later entry makes it true again |
| `Compare.PathsFlagMeansAgreement` | libraries/default.rb:137-148 | the flag after the loop equals its start value and-ed with "every entry agrees" |
| `Compare.MissingOnBothSidesAgrees` | libraries/default.rb:146 | an entry absent on both sides has nil tokens and counts as agreeing |
| `Compare.CompareList` | libraries/default.rb:154-170 | result is true iff every pair has both tokens present and equal; true for an empty list |
| `Compare.MissingSourceFailsPair` | libraries/default.rb:163 | a pair whose source prints no digest makes the whole comparison false, whatever the destination prints |
| `Compare.NilAsymmetry` | libraries/default.rb:146 | on a host where nothing exists, `compare_paths` accepts every listing while `compare_list` rejects every non-empty list |
| `Compare.PathsAgreeIffDigestsAgree` | libraries/default.rb:136-149 | with the corrected tool, `compare_paths` agrees iff every listed entry has the same digest on both sides or is missing on both |
| `Compare.ListAgreesIffDigestsAgree` | libraries/default.rb:154-170 | with the corrected tool, `compare_list` agrees iff every pair's two files exist with equal digests |
| `Compare.FreeBsdComparisonIsBlind` | libraries/default.rb:140-146 | as written on FreeBSD, every listed entry that exists on both sides agrees, whatever the digests |
| `Compare.FreeBsdListComparisonIsBlind` | libraries/default.rb:157-163 | as written on FreeBSD, every pair whose two files exist agrees in `compare_list`, whatever the digests |
| `Compare.FreeBsdCounterexample` | libraries/default.rb:140-146 | a host where two files with digests `0a` and `0b` are reported as matching |
| `Checksum.ChecksumFile` | libraries/default.rb:105-116 | matching digest: no action; mismatch at level 0: warn and delete the file; mismatch at level 1: fatal; any other level: no action |
| `Checksum.OutcomeDependsOnlyOnMatch` | libraries/default.rb:107-115 | two shells that agree on whether the digest matches give the same outcome |
| `Checksum.ChecksumOnHost` | libraries/default.rb:106-115 | with real `sha256sum` output: no action iff the file exists with the expected digest or the level is neither 0 nor 1; a missing file at level 1 is fatal |
| `Fetch.IsFtpUrl` | libraries/default.rb:118 | `/^ftp/` holds iff some line of the URL starts with "ftp"; for a one-line URL, iff the URL starts with "ftp" |
| `Fetch.PullSource` | libraries/default.rb:102-130 | ftp URLs give a `curl` execute that creates `<cache>/<src_file>`; all others give a `remote_file` of that path with the expected checksum |
| `Fetch.PullSourceIdempotent` | libraries/default.rb:118-130 | both branches write `<cache>/<src_file>`; nothing is transferred once it exists, and something is when it does not |
| `Fetch.FtpBranchExamples` | libraries/default.rb:118 | an `ftp://` URL takes the ftp branch; an `http://ftp.…` URL does not |
| `Fetch.FtpOnLaterLine` | libraries/default.rb:118 | a URL whose second line starts with "ftp" takes the ftp branch |
| `Extract.CleanupResourceAsWritten` | libraries/default.rb:177-182 | `rm -rf <src_dir>` run in the cache, guarded by a directory test of `src_dir` itself, which for a relative `src_dir` is not the path `rm -rf` removes |
| `Extract.CleanupExtractSource` | libraries/default.rb:175-194 | the cleanup resource as the source declares it, and an extraction command whose flags are the last matching pattern's |
| `Extract.CleanupRemovesStaleTree` | libraries/default.rb:177-182 | with the corrected guard, no previously extracted directory or entry below it survives the cleanup step |
| `Extract.GuardAgreesWhenResolvedAlike` | libraries/default.rb:180 | the source's guard and the corrected one agree when `src_dir` is absolute or the engine runs in the cache |
| `Extract.CleanupAsWrittenLeavesStaleTree` | libraries/default.rb:177-182 | as written, an engine running in "/" skips the cleanup and leaves a stale tree in the cache |
| `Extract.GzipTarballExample` | libraries/default.rb:184 | `pkg-1.0.tar.gz` selects `tar zxf` |
| `Extract.LastMatchWinsExample` | libraries/default.rb:184-186 | a name containing both "tar.gz" and "7z" selects `7za x` |
| `Extract.SevenZipInsideNameExample` | libraries/default.rb:185-186 | `p7zip_9.20.tar.bz2` selects `7za x`, not `tar jxf` |
| `Extract.NoPatternExample` | libraries/default.rb:184-190 | `pkg-1.0.zip` matches no pattern and leaves the flags nil |
| `Packages.RpmFileName` | libraries/default.rb:15 | present iff some '/' is followed by a tail of shape `\w+[A-Za-z0-9_.-]+\.rpm` up to the end; the name is then that tail: it is slash-free, starts with a word character and ends the string |
| `Packages.PackageResources` | libraries/default.rb:14-29 | a name containing ".rpm" gives a download into the cache followed by an RPM-provider package from it; any other name gives a plain package |
| `Packages.ManualPackageInstall` | libraries/default.rb:9-34 | a nil list declares nothing; otherwise the resources of each dependency in order |
| `Packages.EveryDependencyInstalledOnce` | libraries/default.rb:11-31 | the plan's package resources name exactly the dependencies, once each, in order |
| `Packages.RpmFileNameExample` | libraries/default.rb:15 | a mirror URL yields its last path segment as the RPM file name |
| `Packages.RpmQueryUrlHasNoFileName` | libraries/default.rb:14-15 | a URL with a query after ".rpm" passes the outer test but yields no file name |
| `Build.ConfigSource` | libraries/default.rb:199-205 | runs in `<cache>/<src_dir>`; the command is the option flags, " ./configure ", then the configure flags, with nothing else |
| `Build.Make` | libraries/default.rb:210-216 | runs in `<cache>/<src_dir>`; the command is "make " followed by the make flags verbatim |
| `Build.MakeInstall` | libraries/default.rb:221-227 | runs in `<cache>/<src_dir>`; the command is "make install " followed by the install flags verbatim |
| `Build.ConfigureFlagsRecoverable` | libraries/default.rb:202 | the configure command determines the configure flags given the option flags, and the reverse |
| `Build.StepsShareSourceDir` | libraries/default.rb:201-223 | all three steps run in the same directory, which is the extraction target under the cache |

## Left out

- Running the resources (`remote_file`, `package`, `execute`, `file :delete`, the archive tools, `curl`) is left out. That happens in the configuration engine; the model only states which resources are declared and whether their guards let them act.
- Real hashing is left out. Digests are an abstract map from path to hexadecimal string, and the shell is an oracle. Shell word splitting and quoting of paths with spaces or metacharacters is not modelled. Neither is GNU `md5sum`'s backslash prefix for file names that contain a newline or backslash.
- The `ls` directory listing of `compare_paths` is taken as an input sequence of names.
- The `node.platform` lookup is left out. The platform is a parameter. The comparators take the tool name.
- The console output is left out: `p` in `manual_package_install` and `compare_list`, and the `puts` of `node_info`.
- `ssh_wrapper`, `checkout_branch`, `bundle_repo` and `ldconfig` are left out. They declare resources with no logic beyond string interpolation.
- `node_info` is a debug printer over the engine's node object. It is left out.
- The exit behaviour of `Chef::Application.warn` and `fatal!` is not modelled. Both are `Checksum.Outcome` values.
- `Resources.Attrs`: an absent attribute is the empty string. That matches Ruby's interpolation and regex tests of nil. It does not model two errors Ruby raises: `FileTest.directory?(nil)` raises a TypeError, and a nil `compare_list` raises NoMethodError. The `checksum` attribute is passed to `remote_file` as a value, not interpolated, so an absent checksum is nil there; the model passes the empty string.
- `Compare.CompareList`: the attribute's pairs are an arbitrary sequence. A Ruby hash also guarantees distinct source keys, which the model leaves out.
- Ruby's `\w` and `\s` are taken as their ASCII classes.

## Findings

| source | as written | input that shows it | evidently intended | confidence | as-written member | corrected member |
|---|---|---|---|---|---|---|
| libraries/default.rb:140 | on FreeBSD the comparators run `md5`, whose output line starts with the word "MD5", and compare that first token | FreeBSD, `/src/libfoo.so` with digest `0a`, `/dst/libfoo.so` with digest `0b`: both tokens are "MD5", so `compare_paths` returns true; `compare_list` is affected the same way (line 158) | compare the digests, e.g. with `md5 -q` | medium, not executed | `Compare.FreeBsdCounterexample` | `Compare.PathsAgreeIffDigestsAgree` |
| libraries/default.rb:180 | the cleanup guard tests `src_dir` relative to the engine's own working directory, while `rm -rf` runs in the cache | cache `/var/chef/cache`, `src_dir` `pkg-1.0`, engine working directory `/`, stale `/var/chef/cache/pkg-1.0/stale.o`: the guard fails, nothing is removed, and the archive is extracted over the old tree | test `<cache>/<src_dir>` | medium, not executed | `Extract.CleanupAsWrittenLeavesStaleTree` | `Extract.CleanupRemovesStaleTree` |

`Extract.CleanupExtractSource` declares the cleanup resource as written (`Extract.CleanupResourceAsWritten`); the corrected resource is `Extract.CleanupResource`, about which `Extract.CleanupRemovesStaleTree` is proved. The end-to-end comparator lemmas are stated for the corrected `Digest.DigestTool`, which agrees with the source's choice off FreeBSD; `Compare.FreeBsdListComparisonIsBlind` shows the as-written `compare_list` on FreeBSD. The comparator methods take the tool as a parameter, so they model the loops exactly as written.
