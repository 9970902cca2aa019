/**
 * `cleanup_extract_source`: remove the previously extracted tree, then
 * extract the archive with a tool chosen from the archive's name.
 */
module Extract {
  import opened Wrappers
  import opened Text
  import opened Resources

  /**
   * The extraction flags as a priority list, first match wins: "7z" before
   * "tar.bz2" before "tar.gz", and no flags for any other name.
   */
  function ExtractorByPriority(srcFile: string): Option<string> {
    if Contains(srcFile, "7z") then Some("7za x")
    else if Contains(srcFile, "tar.bz2") then Some("tar jxf")
    else if Contains(srcFile, "tar.gz") then Some("tar zxf")
    else None
  }

  /** The directory the archive extracts to, as `rm -rf` run in the cache sees it. */
  function SourceTree(cache: string, attrs: Attrs): string {
    Resolve(cache, attrs.srcDir)
  }

  /** `cleanup_source` exactly as declared: its guard looks at `src_dir` from the engine's own directory. */
  function CleanupResourceAsWritten(cache: string, attrs: Attrs): (r: Resource)
    ensures r.Execute? && r.cwd == Some(cache) && r.command == "rm -rf " + attrs.srcDir
    ensures r.guard == OnlyIfDirectory(attrs.srcDir)
    ensures HasPrefix(cache, "/") && !HasPrefix(attrs.srcDir, "/") ==> r.guard.path != SourceTree(cache, attrs)
  {
    assert !HasPrefix(attrs.srcDir, "/") ==> |SourceTree(cache, attrs)| > |attrs.srcDir|;
    Execute("cleanup_source", Some(cache), "rm -rf " + attrs.srcDir, OnlyIfDirectory(attrs.srcDir))
  }

  /** `cleanup_source` with its guard looking where `rm -rf` acts: `src_dir` under the cache. */
  function CleanupResource(cache: string, attrs: Attrs): Resource {
    Execute("cleanup_source", Some(cache), "rm -rf " + attrs.srcDir, OnlyIfDirectory(SourceTree(cache, attrs)))
  }

  /** The host after a cleanup resource is processed on it. */
  function AfterCleanup(r: Resource, cache: string, attrs: Attrs, host: Host): Host
    requires r.Execute?
  {
    if Acts(r.guard, host) then RemoveTree(host, SourceTree(cache, attrs)) else host
  }

  /** On this host, whatever lies strictly below `root` lies in a directory `root`. */
  predicate TreeRooted(host: Host, root: string) {
    forall p :: p in host.dirs + host.files && HasPrefix(p, root + "/") ==> root in host.dirs
  }

  /** After the cleanup step no stale directory or entry below it survives. */
  predicate NoStaleTree(host: Host, root: string) {
    root !in host.dirs && forall p :: HasPrefix(p, root + "/") ==> p !in host.dirs + host.files
  }

  /**
   * With the guard resolved against the cache, the cleanup step always
   * leaves no previously extracted tree behind.
   */
  lemma CleanupRemovesStaleTree(cache: string, attrs: Attrs, host: Host)
    requires HasPrefix(cache, "/")
    requires TreeRooted(host, SourceTree(cache, attrs))
    ensures NoStaleTree(AfterCleanup(CleanupResource(cache, attrs), cache, attrs, host), SourceTree(cache, attrs))
  {
  }

  /** The source's guard and the corrected one agree when `src_dir` is absolute or the engine runs in the cache. */
  lemma GuardAgreesWhenResolvedAlike(cache: string, attrs: Attrs, host: Host)
    requires HasPrefix(cache, "/")
    requires HasPrefix(attrs.srcDir, "/") || host.cwd == cache
    ensures Acts(CleanupResourceAsWritten(cache, attrs).guard, host) == Acts(CleanupResource(cache, attrs).guard, host)
  {
  }

  /**
   * As written, run by an engine whose working directory is "/": the stale
   * tree in the cache is not removed, and the new archive is extracted on
   * top of the old files.
   */
  lemma CleanupAsWrittenLeavesStaleTree()
    ensures var cache := "/var/chef/cache";
      var attrs := Attrs("", "pkg-1.0.tar.gz", "", "pkg-1.0", "", "", "", "", "", []);
      var host := Host("/", {"/var/chef/cache/pkg-1.0"}, {"/var/chef/cache/pkg-1.0/stale.o"});
      TreeRooted(host, SourceTree(cache, attrs)) &&
      !NoStaleTree(AfterCleanup(CleanupResourceAsWritten(cache, attrs), cache, attrs, host), SourceTree(cache, attrs))
  {
    var cache := "/var/chef/cache";
    var attrs := Attrs("", "pkg-1.0.tar.gz", "", "pkg-1.0", "", "", "", "", "", []);
    var host := Host("/", {"/var/chef/cache/pkg-1.0"}, {"/var/chef/cache/pkg-1.0/stale.o"});
    assert !HasPrefix("pkg-1.0", "/");
    assert SourceTree(cache, attrs) == "/var/chef/cache/pkg-1.0";
    assert Resolve("/", "pkg-1.0") == "//pkg-1.0";
    assert !Acts(CleanupResourceAsWritten(cache, attrs).guard, host);
  }

  /**
   * `cleanup_extract_source`: the cleanup resource, then the extraction,
   * whose flags are assigned by three successive pattern tests so that the
   * last matching test wins; with no match the flags stay nil and the
   * command is only `" <cache>/<src_file>"`.
   */
  method CleanupExtractSource(cache: string, attrs: Attrs) returns (cleanup: Resource, extract: Resource)
    ensures cleanup == CleanupResourceAsWritten(cache, attrs)
    ensures extract == Execute("extract_source", Some(cache),
      ExtractorByPriority(attrs.srcFile).GetOr("") + " " + cache + "/" + attrs.srcFile, Always)
  {
    cleanup := CleanupResourceAsWritten(cache, attrs);
    var extractFlags: Option<string> := None;
    if Contains(attrs.srcFile, "tar.gz") { extractFlags := Some("tar zxf"); }
    if Contains(attrs.srcFile, "tar.bz2") { extractFlags := Some("tar jxf"); }
    if Contains(attrs.srcFile, "7z") { extractFlags := Some("7za x"); }
    extract := Execute("extract_source", Some(cache),
      extractFlags.GetOr("") + " " + cache + "/" + attrs.srcFile, Always);
  }

  /** A pattern holding a character `t[j]` that never occurs in `s` does not match. */
  lemma AbsentCharNotContained(s: string, t: string, j: nat)
    requires j < |t| && forall k :: 0 <= k < |s| ==> s[k] != t[j]
    ensures !Contains(s, t)
  {
  }

  /** A gzip tarball name without "7z" in it selects `tar zxf`. */
  lemma GzipTarballExample(name: string)
    requires name == "pkg-1.0.tar.gz"
    ensures ExtractorByPriority(name) == Some("tar zxf")
  {
    assert !Contains(name, "7z") by { AbsentCharNotContained(name, "7z", 0); }
    assert !Contains(name, "tar.bz2") by { AbsentCharNotContained(name, "tar.bz2", 4); }
    assert Contains(name, "tar.gz") by { assert name[8..14] == "tar.gz"; assert OccursAt(name, "tar.gz", 8); }
  }

  /** The last test wins: a name with both "tar.gz" and "7z" selects `7za x`. */
  lemma LastMatchWinsExample()
    ensures ExtractorByPriority("pkg-1.0.tar.gz.7z") == Some("7za x")
  {
    assert OccursAt("pkg-1.0.tar.gz.7z", "7z", 15);
  }

  /** "7z" anywhere in the name wins, even inside a bzip2 tarball's name. */
  lemma SevenZipInsideNameExample()
    ensures ExtractorByPriority("p7zip_9.20.tar.bz2") == Some("7za x")
  {
  }

  /** A name matching no pattern leaves the flags nil. */
  lemma NoPatternExample()
    ensures ExtractorByPriority("pkg-1.0.zip") == None
  {
    AbsentCharNotContained("pkg-1.0.zip", "7z", 0);
    AbsentCharNotContained("pkg-1.0.zip", "tar.bz2", 0);
    AbsentCharNotContained("pkg-1.0.zip", "tar.gz", 0);
  }
}
