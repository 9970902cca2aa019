/**
 * What the helpers hand to the configuration engine: the attribute
 * record they read, the resource declarations they make, and the small
 * part of the host (working directory, existing paths) that decides
 * whether a guarded resource acts. The engine itself is not modelled.
 */
module Resources {
  import opened Wrappers
  import opened Text

  /**
   * The attribute mapping passed to `pull_source`, `compare_list`,
   * `cleanup_extract_source` and the build steps. An attribute that is
   * absent is the empty string, which is what Ruby's `"#{nil}"` yields and
   * which no regular expression of the library matches.
   */
  datatype Attrs = Attrs(
    url: string,
    srcFile: string,
    checksum: string,
    srcDir: string,
    optFlags: string,
    cfgFlags: string,
    makeFlags: string,
    makeInstallFlags: string,
    prefix: string,
    compareList: seq<(string, string)>)

  /** The condition under which an `execute` resource is skipped or run. */
  datatype Guard =
    | Always
    /** `creates path`: skipped when `path` already exists. */
    | Creates(path: string)
    /** `not_if { !FileTest.directory?(path) }`: run only when `path` is a directory. */
    | OnlyIfDirectory(path: string)

  datatype Resource =
    | Execute(name: string, cwd: Option<string>, command: string, guard: Guard)
    /** `remote_file path` with `action :create_if_missing`. */
    | RemoteFile(path: string, source: string, checksum: Option<string>)
    /** `package name`, with the RPM provider and a local source when `rpmSource` is present. */
    | Package(name: string, rpmSource: Option<string>)

  /** The part of the host a guard or a deletion looks at. */
  datatype Host = Host(cwd: string, dirs: set<string>, files: set<string>)

  /**
   * A path as the operating system resolves it from directory `base`. The
   * result is not normalised (`Resolve("/", "a")` is `"//a"`), so the
   * paths of a `Host` are compared as strings of this form.
   */
  function Resolve(base: string, p: string): (r: string)
    ensures HasPrefix(p, "/") ==> r == p
    ensures !HasPrefix(p, "/") ==> HasPrefix(r, base + "/") && r[|base| + 1..] == p
  {
    if HasPrefix(p, "/") then p else base + "/" + p
  }

  /** `p` is `root` itself or lies below it. */
  predicate Within(p: string, root: string) {
    p == root || HasPrefix(p, root + "/")
  }

  /** Whether a guarded resource acts, evaluated in the engine's own process. */
  predicate Acts(g: Guard, host: Host) {
    match g
    case Always => true
    case Creates(p) => Resolve(host.cwd, p) !in host.dirs + host.files
    case OnlyIfDirectory(p) => Resolve(host.cwd, p) in host.dirs
  }

  /** The host after `rm -rf root`: nothing at or below `root` is left. */
  function RemoveTree(host: Host, root: string): (h: Host)
    ensures h.cwd == host.cwd
    ensures forall p :: p in h.dirs <==> p in host.dirs && !Within(p, root)
    ensures forall p :: p in h.files <==> p in host.files && !Within(p, root)
  {
    Host(host.cwd,
         set p | p in host.dirs && !Within(p, root),
         set p | p in host.files && !Within(p, root))
  }
}
