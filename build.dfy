/**
 * `config_source`, `make` and `make_install`: each declares one `execute`
 * resource that runs in the extracted source directory and passes the
 * caller's flags through verbatim.
 */
module Build {
  import opened Wrappers
  import opened Text
  import opened Resources

  /** `"#{file_cache_path}/#{src_dir}"`: where every build step runs. */
  function SourceDir(cache: string, attrs: Attrs): string {
    cache + "/" + attrs.srcDir
  }

  /** `"#{opt_flags} ./configure #{cfg_flags}"`. */
  function ConfigSource(cache: string, attrs: Attrs): (r: Resource)
    ensures r.Execute? && r.name == "config_source" && r.guard == Always
    ensures r.cwd == Some(SourceDir(cache, attrs))
    ensures HasPrefix(r.command, attrs.optFlags + " ./configure ")
    ensures HasSuffix(r.command, attrs.cfgFlags)
    ensures |r.command| == |attrs.optFlags| + |" ./configure "| + |attrs.cfgFlags|
  {
    var command := attrs.optFlags + " ./configure " + attrs.cfgFlags;
    assert command[|command| - |attrs.cfgFlags|..] == attrs.cfgFlags;
    Execute("config_source", Some(SourceDir(cache, attrs)), command, Always)
  }

  /** `"make #{make_flags}"`. */
  function Make(cache: string, attrs: Attrs): (r: Resource)
    ensures r.Execute? && r.name == "make_source" && r.guard == Always
    ensures r.cwd == Some(SourceDir(cache, attrs))
    ensures HasPrefix(r.command, "make ") && r.command[5..] == attrs.makeFlags
  {
    Execute("make_source", Some(SourceDir(cache, attrs)), "make " + attrs.makeFlags, Always)
  }

  /** `"make install #{make_install_flags}"`. */
  function MakeInstall(cache: string, attrs: Attrs): (r: Resource)
    ensures r.Execute? && r.name == "install_source" && r.guard == Always
    ensures r.cwd == Some(SourceDir(cache, attrs))
    ensures HasPrefix(r.command, "make install ") && r.command[13..] == attrs.makeInstallFlags
  {
    Execute("install_source", Some(SourceDir(cache, attrs)), "make install " + attrs.makeInstallFlags, Always)
  }

  lemma {:induction false} CancelPrefix(p: string, x: string, y: string)
    requires p + x == p + y
    ensures x == y
  {
    assert x == (p + x)[|p|..];
    assert y == (p + y)[|p|..];
  }

  lemma {:induction false} CancelSuffix(x: string, y: string, s: string)
    requires x + s == y + s
    ensures x == y
  {
    assert x == (x + s)[..|x|];
    assert y == (y + s)[..|y|];
  }

  /**
   * The configure command determines its flags: with the same leading
   * flags, equal commands have equal configure flags, and with the same
   * configure flags, equal leading flags.
   */
  lemma ConfigureFlagsRecoverable(cache: string, a: Attrs, b: Attrs)
    requires ConfigSource(cache, a).command == ConfigSource(cache, b).command
    ensures a.optFlags == b.optFlags ==> a.cfgFlags == b.cfgFlags
    ensures a.cfgFlags == b.cfgFlags ==> a.optFlags == b.optFlags
  {
    if a.optFlags == b.optFlags {
      CancelPrefix(a.optFlags + " ./configure ", a.cfgFlags, b.cfgFlags);
    }
    if a.cfgFlags == b.cfgFlags {
      CancelSuffix(a.optFlags + " ./configure ", b.optFlags + " ./configure ", a.cfgFlags);
      CancelSuffix(a.optFlags, b.optFlags, " ./configure ");
    }
  }

  /** The three steps run in the same directory, the one the archive is extracted to under the cache. */
  lemma StepsShareSourceDir(cache: string, attrs: Attrs)
    ensures ConfigSource(cache, attrs).cwd == Make(cache, attrs).cwd == MakeInstall(cache, attrs).cwd
    ensures !HasPrefix(attrs.srcDir, "/") ==> Make(cache, attrs).cwd == Some(Resolve(cache, attrs.srcDir))
  {
  }
}
