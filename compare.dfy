/**
 * The two file-set comparators, `compare_paths` and `compare_list`. Each
 * walks its entries once, keeping a `match` flag that starts true and is
 * cleared by a mismatching entry. They differ in how a missing digest
 * (nil token) is treated: `compare_paths` compares the tokens only, so
 * two missing files agree; `compare_list` counts any nil token as a
 * mismatch.
 */
module Compare {
  import opened Wrappers
  import opened Text
  import opened Digest
  import opened Resources

  // ---------------------------------------------------------------- compare_paths

  /** Entry `file` of the listing agrees: `src[0] == dst[0]`, nil included. */
  predicate EntryAgrees(sh: Shell, tool: string, srcPath: string, dstPath: string, file: string) {
    DigestToken(sh, tool, srcPath + "/" + file) == DigestToken(sh, tool, dstPath + "/" + file)
  }

  /** Every listed entry agrees. */
  predicate PathsAgree(sh: Shell, tool: string, srcPath: string, dstPath: string, files: seq<string>) {
    forall i :: 0 <= i < |files| ==> EntryAgrees(sh, tool, srcPath, dstPath, files[i])
  }

  /**
   * `compare_paths`: `files` is the listing of `srcPath` (the output of
   * `ls`), `tool` the digest tool picked for the platform.
   */
  method ComparePaths(sh: Shell, tool: string, srcPath: string, dstPath: string, files: seq<string>)
    returns (matched: bool)
    ensures matched <==> forall i :: 0 <= i < |files| ==>
      DigestToken(sh, tool, srcPath + "/" + files[i]) == DigestToken(sh, tool, dstPath + "/" + files[i])
    ensures matched == PathsFlag(true, sh, tool, srcPath, dstPath, files)
    ensures files == [] ==> matched
  {
    matched := true;
    for i := 0 to |files|
      invariant matched <==> forall j :: 0 <= j < i ==> EntryAgrees(sh, tool, srcPath, dstPath, files[j])
    {
      var file := files[i];
      var src := FirstField(sh(DigestCommand(tool, srcPath + "/" + file)));
      var dst := FirstField(sh(DigestCommand(tool, dstPath + "/" + file)));
      if src != dst {
        matched := false;
      }
    }
    PathsFlagMeansAgreement(true, sh, tool, srcPath, dstPath, files);
  }

  /**
   * The loop's flag after the entries `files`, starting from `m`: one
   * `match = false if (src[0] != dst[0])` per entry.
   */
  function PathsFlag(m: bool, sh: Shell, tool: string, srcPath: string, dstPath: string, files: seq<string>): bool
    decreases |files|
  {
    if files == [] then m
    else PathsFlag(m && EntryAgrees(sh, tool, srcPath, dstPath, files[0]), sh, tool, srcPath, dstPath, files[1..])
  }

  /** Once `match` is false it stays false, whatever entries follow. */
  lemma {:induction false} PathsFlagSticky(sh: Shell, tool: string, srcPath: string, dstPath: string, files: seq<string>)
    ensures !PathsFlag(false, sh, tool, srcPath, dstPath, files)
    decreases |files|
  {
    if files != [] {
      PathsFlagSticky(sh, tool, srcPath, dstPath, files[1..]);
    }
  }

  /** The flag the loop ends with is true exactly when it started true and every entry agrees. */
  lemma {:induction false} PathsFlagMeansAgreement(m: bool, sh: Shell, tool: string, srcPath: string, dstPath: string, files: seq<string>)
    ensures PathsFlag(m, sh, tool, srcPath, dstPath, files) == (m && PathsAgree(sh, tool, srcPath, dstPath, files))
    decreases |files|
  {
    if files != [] {
      var m' := m && EntryAgrees(sh, tool, srcPath, dstPath, files[0]);
      PathsFlagMeansAgreement(m', sh, tool, srcPath, dstPath, files[1..]);
      assert PathsAgree(sh, tool, srcPath, dstPath, files) <==>
        EntryAgrees(sh, tool, srcPath, dstPath, files[0]) && PathsAgree(sh, tool, srcPath, dstPath, files[1..]) by {
        assert forall i :: 1 <= i < |files| ==> files[1..][i - 1] == files[i];
      }
    }
  }

  /**
   * No nil check: an entry missing on both sides (both commands print
   * nothing) counts as agreeing.
   */
  lemma MissingOnBothSidesAgrees(sh: Shell, tool: string, srcPath: string, dstPath: string, file: string)
    requires sh(DigestCommand(tool, srcPath + "/" + file)) == ""
    requires sh(DigestCommand(tool, dstPath + "/" + file)) == ""
    ensures DigestToken(sh, tool, srcPath + "/" + file) == None
    ensures EntryAgrees(sh, tool, srcPath, dstPath, file)
  {
  }

  // ---------------------------------------------------------------- compare_list

  /** Full path of the source side of a pair: `<cache>/<src_dir>/<src_file>`. */
  function ListSource(cache: string, attrs: Attrs, srcFile: string): string {
    cache + "/" + attrs.srcDir + "/" + srcFile
  }

  /** Full path of the destination side of a pair: `<prefix>/<dst_file>`. */
  function ListDestination(attrs: Attrs, dstFile: string): string {
    attrs.prefix + "/" + dstFile
  }

  /** A pair agrees: both tokens present and equal. */
  predicate PairAgrees(sh: Shell, tool: string, cache: string, attrs: Attrs, pair: (string, string)) {
    var src := DigestToken(sh, tool, ListSource(cache, attrs, pair.0));
    var dst := DigestToken(sh, tool, ListDestination(attrs, pair.1));
    src.Some? && dst.Some? && src == dst
  }

  predicate ListAgrees(sh: Shell, tool: string, cache: string, attrs: Attrs) {
    forall i :: 0 <= i < |attrs.compareList| ==> PairAgrees(sh, tool, cache, attrs, attrs.compareList[i])
  }

  /** `compare_list`: `cache` is the engine's file cache path. */
  method CompareList(sh: Shell, tool: string, cache: string, attrs: Attrs) returns (matched: bool)
    ensures matched <==> forall i :: 0 <= i < |attrs.compareList| ==>
      var src := DigestToken(sh, tool, cache + "/" + attrs.srcDir + "/" + attrs.compareList[i].0);
      var dst := DigestToken(sh, tool, attrs.prefix + "/" + attrs.compareList[i].1);
      src.Some? && dst.Some? && src.value == dst.value
    ensures attrs.compareList == [] ==> matched
  {
    matched := true;
    var pairs := attrs.compareList;
    for i := 0 to |pairs|
      invariant matched <==> forall j :: 0 <= j < i ==> PairAgrees(sh, tool, cache, attrs, pairs[j])
    {
      var (srcFile, dstFile) := pairs[i];
      var src := FirstField(sh(DigestCommand(tool, cache + "/" + attrs.srcDir + "/" + srcFile)));
      var dst := FirstField(sh(DigestCommand(tool, attrs.prefix + "/" + dstFile)));
      if src != dst || src.None? || dst.None? {
        matched := false;
      }
    }
  }

  /** A pair whose source file is missing fails, even if the destination is missing too. */
  lemma MissingSourceFailsPair(sh: Shell, tool: string, cache: string, attrs: Attrs, i: nat)
    requires i < |attrs.compareList|
    requires sh(DigestCommand(tool, ListSource(cache, attrs, attrs.compareList[i].0))) == ""
    ensures !ListAgrees(sh, tool, cache, attrs)
  {
    assert !PairAgrees(sh, tool, cache, attrs, attrs.compareList[i]);
  }

  /** The nil asymmetry in one example: nothing exists anywhere. */
  lemma {:induction false} NilAsymmetry(tool: string, srcPath: string, dstPath: string, cache: string, attrs: Attrs, files: seq<string>)
    requires attrs.compareList != []
    ensures PathsAgree((cmd: string) => "", tool, srcPath, dstPath, files)
    ensures !ListAgrees((cmd: string) => "", tool, cache, attrs)
  {
    var sh: Shell := (cmd: string) => "";
    forall i | 0 <= i < |files| ensures EntryAgrees(sh, tool, srcPath, dstPath, files[i]) {
      MissingOnBothSidesAgrees(sh, tool, srcPath, dstPath, files[i]);
    }
    MissingSourceFailsPair(sh, tool, cache, attrs, 0);
  }

  // ---------------------------------------------------------------- against the files' digests

  /**
   * With the intended digest tool, `compare_paths` reports agreement
   * exactly when every listed entry has the same digest on both sides,
   * or is missing on both.
   */
  lemma PathsAgreeIffDigestsAgree(sh: Shell, platform: string, digests: map<string, string>,
                                  srcPath: string, dstPath: string, files: seq<string>)
    requires Reports(sh, DigestTool(platform), FormatOf(DigestTool(platform)), digests)
    requires ValidDigests(digests)
    ensures PathsAgree(sh, DigestTool(platform), srcPath, dstPath, files) <==>
      forall i :: 0 <= i < |files| ==> Lookup(digests, srcPath + "/" + files[i]) == Lookup(digests, dstPath + "/" + files[i])
  {
    forall i | 0 <= i < |files|
      ensures EntryAgrees(sh, DigestTool(platform), srcPath, dstPath, files[i]) <==>
        Lookup(digests, srcPath + "/" + files[i]) == Lookup(digests, dstPath + "/" + files[i])
    {
      TokenIsDigest(sh, platform, digests, srcPath + "/" + files[i]);
      TokenIsDigest(sh, platform, digests, dstPath + "/" + files[i]);
    }
  }

  /**
   * With the intended digest tool, `compare_list` reports agreement exactly
   * when every pair's two files exist and have the same digest.
   */
  lemma ListAgreesIffDigestsAgree(sh: Shell, platform: string, digests: map<string, string>, cache: string, attrs: Attrs)
    requires Reports(sh, DigestTool(platform), FormatOf(DigestTool(platform)), digests)
    requires ValidDigests(digests)
    ensures ListAgrees(sh, DigestTool(platform), cache, attrs) <==>
      forall i :: 0 <= i < |attrs.compareList| ==>
        var src := ListSource(cache, attrs, attrs.compareList[i].0);
        var dst := ListDestination(attrs, attrs.compareList[i].1);
        src in digests && dst in digests && digests[src] == digests[dst]
  {
    forall i | 0 <= i < |attrs.compareList|
      ensures PairAgrees(sh, DigestTool(platform), cache, attrs, attrs.compareList[i]) <==>
        var src := ListSource(cache, attrs, attrs.compareList[i].0);
        var dst := ListDestination(attrs, attrs.compareList[i].1);
        src in digests && dst in digests && digests[src] == digests[dst]
    {
      TokenIsDigest(sh, platform, digests, ListSource(cache, attrs, attrs.compareList[i].0));
      TokenIsDigest(sh, platform, digests, ListDestination(attrs, attrs.compareList[i].1));
    }
  }

  /**
   * As written, on FreeBSD the tool is `md5`, whose output line starts with
   * the word "MD5": every listed entry that exists on both sides agrees,
   * whatever the two files' digests are.
   */
  lemma FreeBsdComparisonIsBlind(sh: Shell, digests: map<string, string>, srcPath: string, dstPath: string, files: seq<string>)
    requires Reports(sh, DigestToolAsWritten("freebsd"), BsdTagged, digests)
    requires ValidDigests(digests)
    requires forall i :: 0 <= i < |files| ==> srcPath + "/" + files[i] in digests && dstPath + "/" + files[i] in digests
    ensures PathsAgree(sh, DigestToolAsWritten("freebsd"), srcPath, dstPath, files)
  {
    forall i | 0 <= i < |files| ensures EntryAgrees(sh, "md5", srcPath, dstPath, files[i]) {
      TokenOnHost(sh, "md5", BsdTagged, digests, srcPath + "/" + files[i]);
      TokenOnHost(sh, "md5", BsdTagged, digests, dstPath + "/" + files[i]);
    }
  }

  /**
   * As written, `compare_list` on FreeBSD is blind the same way: every pair
   * whose two files exist agrees, whatever their digests.
   */
  lemma FreeBsdListComparisonIsBlind(sh: Shell, digests: map<string, string>, cache: string, attrs: Attrs)
    requires Reports(sh, DigestToolAsWritten("freebsd"), BsdTagged, digests)
    requires ValidDigests(digests)
    requires forall i :: 0 <= i < |attrs.compareList| ==>
      ListSource(cache, attrs, attrs.compareList[i].0) in digests && ListDestination(attrs, attrs.compareList[i].1) in digests
    ensures ListAgrees(sh, DigestToolAsWritten("freebsd"), cache, attrs)
  {
    forall i | 0 <= i < |attrs.compareList| ensures PairAgrees(sh, "md5", cache, attrs, attrs.compareList[i]) {
      TokenOnHost(sh, "md5", BsdTagged, digests, ListSource(cache, attrs, attrs.compareList[i].0));
      TokenOnHost(sh, "md5", BsdTagged, digests, ListDestination(attrs, attrs.compareList[i].1));
    }
  }

  /** A concrete FreeBSD host where two files with different contents are reported as matching. */
  lemma FreeBsdCounterexample()
    ensures var digests := map["/src/libfoo.so" := "0a", "/dst/libfoo.so" := "0b"];
      digests["/src/libfoo.so"] != digests["/dst/libfoo.so"] &&
      PathsAgree(HostShell("md5", BsdTagged, digests), DigestToolAsWritten("freebsd"), "/src", "/dst", ["libfoo.so"])
  {
    var digests := map["/src/libfoo.so" := "0a", "/dst/libfoo.so" := "0b"];
    assert "/src" + "/" + "libfoo.so" == "/src/libfoo.so";
    assert "/dst" + "/" + "libfoo.so" == "/dst/libfoo.so";
    assert IsDigest("0a") && IsDigest("0b");
    FreeBsdComparisonIsBlind(HostShell("md5", BsdTagged, digests), digests, "/src", "/dst", ["libfoo.so"]);
  }
}
