/**
 * The digest oracle. Every checksum the library takes comes from running
 * a digest tool in backticks and splitting its standard output on
 * whitespace; the shell is a function from a command line to that output.
 * The output formats of the tools are modelled so that the comparators
 * and the checksum check can be related to the files' real digests.
 */
module Digest {
  import opened Wrappers
  import opened Text

  /** Standard output of a command line run in backticks ("" when the command prints nothing). */
  type Shell = string -> string

  /** `"#{tool} #{path}"`. */
  function DigestCommand(tool: string, path: string): string {
    tool + " " + path
  }

  /** `` `#{tool} #{path}`.split(/\s+/)[0] ``: the token the library compares. */
  function DigestToken(sh: Shell, tool: string, path: string): Option<string> {
    FirstField(sh(DigestCommand(tool, path)))
  }

  /**
   * The digest tool as the source picks it (libraries/default.rb:139-140
   * and 157-158): `md5` on FreeBSD, `md5sum` elsewhere.
   */
  function DigestToolAsWritten(platform: string): (tool: string)
    ensures platform == "freebsd" <==> tool == "md5"
    ensures tool == "md5" || tool == "md5sum"
  {
    if platform == "freebsd" then "md5" else "md5sum"
  }

  /**
   * The digest tool the comparators are meant to use: on FreeBSD the
   * quiet form `md5 -q`, whose output starts with the digest itself.
   */
  function DigestTool(platform: string): (tool: string)
    ensures platform == "freebsd" <==> tool == "md5 -q"
    ensures FormatOf(tool) != BsdTagged
    ensures platform != "freebsd" ==> tool == DigestToolAsWritten(platform)
  {
    if platform == "freebsd" then "md5 -q" else "md5sum"
  }

  /** How a digest tool lays out its line of output. */
  datatype Format =
    | Coreutils  // md5sum, sha256sum: "<digest>  <path>\n"
    | BsdTagged  // FreeBSD md5:       "MD5 (<path>) = <digest>\n"
    | BsdQuiet   // FreeBSD md5 -q:    "<digest>\n"

  function FormatOf(tool: string): Format {
    if tool == "md5" then BsdTagged
    else if tool == "md5 -q" then BsdQuiet
    else Coreutils
  }

  /** A hexadecimal digest as the tools print it. */
  predicate IsDigest(d: string) {
    d != [] && forall k :: 0 <= k < |d| ==> ('0' <= d[k] <= '9') || ('a' <= d[k] <= 'f')
  }

  /** The digests of the files that exist, by full path. */
  predicate ValidDigests(digests: map<string, string>) {
    forall p :: p in digests ==> IsDigest(digests[p])
  }

  /** The standard output of a digest tool on `path`; a missing file prints nothing there. */
  function ToolOutput(fmt: Format, path: string, digests: map<string, string>): string {
    if path !in digests then ""
    else match fmt
      case Coreutils => digests[path] + "  " + path + "\n"
      case BsdTagged => "MD5 (" + path + ") = " + digests[path] + "\n"
      case BsdQuiet => digests[path] + "\n"
  }

  /** `sh` runs `tool` as a tool of format `fmt` over a host whose files have `digests`. */
  ghost predicate Reports(sh: Shell, tool: string, fmt: Format, digests: map<string, string>) {
    forall p :: sh(DigestCommand(tool, p)) == ToolOutput(fmt, p, digests)
  }

  /** The digest of `path`, or None when there is no such file. */
  function Lookup(digests: map<string, string>, path: string): Option<string> {
    if path in digests then Some(digests[path]) else None
  }

  /** A shell over a host with the given digests, where `tool` behaves as format `fmt`. */
  function HostShell(tool: string, fmt: Format, digests: map<string, string>): (sh: Shell)
    ensures Reports(sh, tool, fmt, digests)
  {
    var sh := (cmd: string) =>
      if HasPrefix(cmd, tool + " ") then ToolOutput(fmt, cmd[|tool| + 1..], digests) else "";
    assert forall p :: sh(DigestCommand(tool, p)) == ToolOutput(fmt, p, digests) by {
      forall p ensures sh(DigestCommand(tool, p)) == ToolOutput(fmt, p, digests) {
        var cmd := DigestCommand(tool, p);
        assert cmd[..|tool| + 1] == tool + " ";
        assert cmd[|tool| + 1..] == p;
      }
    }
    sh
  }

  /**
   * On a host whose shell reports real digests, the token the library
   * compares is the file's digest for the Coreutils and quiet formats,
   * the constant word "MD5" for the tagged BSD format, and nil for a
   * missing file.
   */
  lemma TokenOnHost(sh: Shell, tool: string, fmt: Format, digests: map<string, string>, path: string)
    requires Reports(sh, tool, fmt, digests) && ValidDigests(digests)
    ensures path !in digests ==> DigestToken(sh, tool, path) == None
    ensures path in digests && fmt != BsdTagged ==> DigestToken(sh, tool, path) == Some(digests[path])
    ensures path in digests && fmt == BsdTagged ==> DigestToken(sh, tool, path) == Some("MD5")
  {
    var out := sh(DigestCommand(tool, path));
    assert out == ToolOutput(fmt, path, digests);
    if path in digests {
      var d := digests[path];
      assert IsDigest(d);
      assert NoSpace(d);
      match fmt
      case Coreutils =>
        assert out == d + ("  " + path + "\n");
        FirstFieldOfLine(d, "  " + path + "\n");
      case BsdTagged =>
        assert out == "MD5" + (" (" + path + ") = " + d + "\n");
        FirstFieldOfLine("MD5", " (" + path + ") = " + d + "\n");
      case BsdQuiet =>
        assert out == d + "\n";
        FirstFieldOfLine(d, "\n");
    } else {
      assert out == "";
    }
  }

  /** With the intended tool, the compared token is exactly the file's digest, or nil when it is missing. */
  lemma {:induction false} TokenIsDigest(sh: Shell, platform: string, digests: map<string, string>, path: string)
    requires Reports(sh, DigestTool(platform), FormatOf(DigestTool(platform)), digests)
    requires ValidDigests(digests)
    ensures DigestToken(sh, DigestTool(platform), path) == Lookup(digests, path)
  {
    TokenOnHost(sh, DigestTool(platform), FormatOf(DigestTool(platform)), digests, path);
  }
}
