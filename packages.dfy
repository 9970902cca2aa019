/**
 * `manual_package_install`: one `package` resource per dependency, and for
 * a dependency naming an RPM a `remote_file` that first downloads it into
 * the cache under the file name taken from the end of its URL.
 */
module Packages {
  import opened Wrappers
  import opened Text
  import opened Resources

  /** A character of `[a-zA-Z0-9\-\_\.]`. */
  predicate IsNameChar(c: char) {
    IsWordChar(c) || c == '-' || c == '.'
  }

  /**
   * `f` matches `\w+[a-zA-Z0-9\-\_\.]+\.rpm` in full: at least two name
   * characters, the first a word character, then ".rpm".
   */
  predicate RpmNameShape(f: string) {
    |f| >= 6 && HasSuffix(f, ".rpm") && IsWordChar(f[0]) &&
    forall k :: 0 <= k < |f| - 4 ==> IsNameChar(f[k])
  }

  /**
   * `$1` of `pkg =~ /\/(\w+[a-zA-Z0-9\-\_\.]+\.rpm)\z/`, nil when the
   * expression does not match. The group holds no '/', so the only slash
   * that can precede it is the last one in `pkg`.
   */
  function RpmFileName(pkg: string): (r: Option<string>)
    ensures r.Some? <==> exists i :: 0 <= i < |pkg| && pkg[i] == '/' && RpmNameShape(pkg[i + 1..])
    ensures forall i :: 0 <= i < |pkg| && pkg[i] == '/' && RpmNameShape(pkg[i + 1..]) ==> r == Some(pkg[i + 1..])
    ensures r.Some? ==> RpmNameShape(r.value) && HasSuffix(pkg, "/" + r.value)
    ensures r.Some? ==> forall k :: 0 <= k < |r.value| ==> r.value[k] != '/'
  {
    match LastIndexOf(pkg, '/')
    case None => None
    case Some(i) =>
      var tail := pkg[i + 1..];
      forall j | 0 <= j < i && pkg[j] == '/' ensures !RpmNameShape(pkg[j + 1..]) {
        var t := pkg[j + 1..];
        assert t[i - j - 1] == '/';
        assert !IsNameChar('/');
      }
      if RpmNameShape(tail) then
        assert pkg[|pkg| - |"/" + tail|..] == "/" + tail;
        forall k | 0 <= k < |tail| ensures tail[k] != '/' {
          assert pkg[i + 1 + k] != '/';
        }
        Some(tail)
      else None
  }

  /** The cache path a dependency is downloaded to: `"#{file_cache_path}/#{filename}"`. */
  function CachedPackage(cache: string, pkg: string): string {
    cache + "/" + RpmFileName(pkg).GetOr("")
  }

  /** The resources declared for one dependency. */
  function PackageResources(cache: string, pkg: string): (rs: seq<Resource>)
    ensures Contains(pkg, ".rpm") ==> rs == [RemoteFile(CachedPackage(cache, pkg), pkg, None),
                                             Package(pkg, Some(CachedPackage(cache, pkg)))]
    ensures !Contains(pkg, ".rpm") ==> rs == [Package(pkg, None)]
  {
    if Contains(pkg, ".rpm") then
      var local := CachedPackage(cache, pkg);
      [RemoteFile(local, pkg, None), Package(pkg, Some(local))]
    else
      [Package(pkg, None)]
  }

  /** The resources declared for a list of dependencies, in order. */
  function InstallPlan(cache: string, pkgs: seq<string>): seq<Resource>
    decreases |pkgs|
  {
    if pkgs == [] then []
    else InstallPlan(cache, pkgs[..|pkgs| - 1]) + PackageResources(cache, pkgs[|pkgs| - 1])
  }

  /** `manual_package_install`; a nil dependency list declares nothing. */
  method ManualPackageInstall(cache: string, pkgDependencies: Option<seq<string>>) returns (plan: seq<Resource>)
    ensures pkgDependencies.None? ==> plan == []
    ensures pkgDependencies.Some? ==> plan == InstallPlan(cache, pkgDependencies.value)
  {
    plan := [];
    if pkgDependencies.Some? {
      var pkgs := pkgDependencies.value;
      for i := 0 to |pkgs|
        invariant plan == InstallPlan(cache, pkgs[..i])
      {
        assert pkgs[..i + 1][..i] == pkgs[..i];
        plan := plan + PackageResources(cache, pkgs[i]);
      }
      assert pkgs[..|pkgs|] == pkgs;
    }
  }

  /** The names of the `package` resources in a plan, in order. */
  function PackageNames(rs: seq<Resource>): seq<string>
    decreases |rs|
  {
    if rs == [] then []
    else PackageNames(rs[..|rs| - 1]) + (if rs[|rs| - 1].Package? then [rs[|rs| - 1].name] else [])
  }

  lemma {:induction false} PackageNamesAppend(a: seq<Resource>, b: seq<Resource>)
    ensures PackageNames(a + b) == PackageNames(a) + PackageNames(b)
    decreases |b|
  {
    if b == [] {
      assert a + b == a;
    } else {
      var b' := b[..|b| - 1];
      assert (a + b)[..|a + b| - 1] == a + b';
      PackageNamesAppend(a, b');
    }
  }

  /** One dependency contributes exactly one `package` resource, for itself. */
  lemma PackageNamesOfResources(cache: string, pkg: string)
    ensures PackageNames(PackageResources(cache, pkg)) == [pkg]
  {
    var rs := PackageResources(cache, pkg);
    if Contains(pkg, ".rpm") {
      assert rs[..1] == [rs[0]];
      assert [rs[0]][..0] == [];
      assert PackageNames(rs[..1]) == [];
    } else {
      assert rs[..0] == [];
    }
  }

  /** Every dependency gets exactly one `package` resource, in the order given. */
  lemma {:induction false} EveryDependencyInstalledOnce(cache: string, pkgs: seq<string>)
    ensures PackageNames(InstallPlan(cache, pkgs)) == pkgs
    decreases |pkgs|
  {
    if pkgs != [] {
      var init := pkgs[..|pkgs| - 1];
      var last := pkgs[|pkgs| - 1];
      EveryDependencyInstalledOnce(cache, init);
      PackageNamesAppend(InstallPlan(cache, init), PackageResources(cache, last));
      PackageNamesOfResources(cache, last);
      assert init + [last] == pkgs;
    }
  }

  /** The file-name part of the example below has the shape the expression requires. */
  lemma ExampleNameShape(f: string)
    requires f == "libyaml-0.1.4.rpm"
    ensures RpmNameShape(f)
  {
  }

  /** An example as the recipes pass them: a URL whose last segment names the RPM. */
  lemma RpmFileNameExample(pkg: string)
    requires pkg == "http://mirror/el6/libyaml-0.1.4.rpm"
    ensures RpmFileName(pkg) == Some("libyaml-0.1.4.rpm")
  {
    assert pkg[17] == '/';
    assert pkg[18..] == "libyaml-0.1.4.rpm";
    ExampleNameShape(pkg[18..]);
  }

  /** A URL with a query after ".rpm" contains ".rpm" but yields no file name. */
  lemma RpmQueryUrlHasNoFileName(pkg: string)
    requires pkg == "http://host/get/foo-1.0.rpm?mirror=1"
    ensures Contains(pkg, ".rpm") && RpmFileName(pkg) == None
  {
    assert OccursAt(pkg, ".rpm", 23);
    forall i | 0 <= i < |pkg| && pkg[i] == '/' ensures !RpmNameShape(pkg[i + 1..]) {
      assert pkg[|pkg| - 1] == '1';
    }
  }
}
