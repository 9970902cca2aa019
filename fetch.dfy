/**
 * `pull_source`: the choice between fetching with an external transfer
 * client (URLs matching `/^ftp/`) and a checksum-validated `remote_file`.
 * Both resources are skipped when the cached file already exists.
 */
module Fetch {
  import opened Wrappers
  import opened Text
  import opened Resources

  /** Some line of `s` begins with `t` (`^` in a Ruby regular expression is a line anchor). */
  predicate LineStartsWith(s: string, t: string, i: int) {
    0 <= i <= |s| && (i == 0 || s[i - 1] == '\n') && HasPrefix(s[i..], t)
  }

  /** Whether a line of `s[k..]` other than the first begins with `t`. */
  function LaterLineStartsWith(s: string, t: string, k: nat): (r: bool)
    requires k <= |s|
    ensures r <==> exists i :: k < i <= |s| && LineStartsWith(s, t, i)
    decreases |s| - k
  {
    if k == |s| then false
    else if s[k] == '\n' && HasPrefix(s[k + 1..], t) then
      assert LineStartsWith(s, t, k + 1);
      true
    else
      var r := LaterLineStartsWith(s, t, k + 1);
      assert !LineStartsWith(s, t, k + 1);
      r
  }

  /** `url =~ /^ftp/`: the text starts with "ftp", or a newline is followed by "ftp". */
  function IsFtpUrl(url: string): (r: bool)
    ensures r <==> exists i :: LineStartsWith(url, "ftp", i)
    ensures HasPrefix(url, "ftp") ==> r
    ensures (forall k :: 0 <= k < |url| ==> url[k] != '\n') ==> (r <==> HasPrefix(url, "ftp"))
  {
    assert HasPrefix(url, "ftp") <==> LineStartsWith(url, "ftp", 0) by {
      assert url[0..] == url;
    }
    HasPrefix(url, "ftp") || LaterLineStartsWith(url, "ftp", 0)
  }

  /** `"#{file_cache_path}/#{src_file}"`. */
  function OutFile(cache: string, attrs: Attrs): string {
    cache + "/" + attrs.srcFile
  }

  /** The single resource `pull_source` declares. */
  function PullSource(cache: string, attrs: Attrs): (r: Resource)
    ensures IsFtpUrl(attrs.url) ==> r == Execute("ftp_" + attrs.srcFile, None,
      "curl " + attrs.url + " -o " + OutFile(cache, attrs), Creates(OutFile(cache, attrs)))
    ensures !IsFtpUrl(attrs.url) ==> r == RemoteFile(OutFile(cache, attrs), attrs.url, Some(attrs.checksum))
  {
    var outfile := OutFile(cache, attrs);
    if IsFtpUrl(attrs.url) then
      Execute("ftp_" + attrs.srcFile, None, "curl " + attrs.url + " -o " + outfile, Creates(outfile))
    else
      RemoteFile(outfile, attrs.url, Some(attrs.checksum))
  }

  /** The path a fetch resource writes, and whether it transfers anything on `host`. */
  function Target(r: Resource): Option<string> {
    match r
    case Execute(_, _, _, Creates(p)) => Some(p)
    case RemoteFile(p, _, _) => Some(p)
    case _ => None
  }

  predicate Transfers(r: Resource, host: Host) {
    match r
    case Execute(_, _, _, g) => Acts(g, host)
    case RemoteFile(p, _, _) => Resolve(host.cwd, p) !in host.dirs + host.files
    case Package(_, _) => false
  }

  /**
   * Both branches write `<cache>/<src_file>` and nothing is transferred once
   * that file exists: pulling twice transfers at most once.
   */
  lemma PullSourceIdempotent(cache: string, attrs: Attrs, host: Host)
    ensures Target(PullSource(cache, attrs)) == Some(OutFile(cache, attrs))
    ensures Resolve(host.cwd, OutFile(cache, attrs)) in host.files ==> !Transfers(PullSource(cache, attrs), host)
    ensures Resolve(host.cwd, OutFile(cache, attrs)) !in host.dirs + host.files ==> Transfers(PullSource(cache, attrs), host)
  {
  }

  /** An ftp mirror takes the transfer-client branch; an http URL naming an ftp host does not. */
  lemma FtpBranchExamples(ftp: string, http: string)
    requires ftp == "ftp://ftp.gnu.org/gnu/make/make-3.82.tar.gz"
    requires http == "http://ftp.gnu.org/gnu/make/make-3.82.tar.gz"
    ensures IsFtpUrl(ftp) && !IsFtpUrl(http)
  {
    assert ftp[0] == 'f' && ftp[1] == 't' && ftp[2] == 'p';
    assert ftp[..3] == "ftp";
    forall k | 0 <= k < |http| ensures http[k] != '\n' {
    }
    assert http[..3] != "ftp" by { assert http[0] == 'h'; }
  }

  /** `^` anchors at any line: text whose second line starts with "ftp" takes the transfer-client branch. */
  lemma FtpOnLaterLine(url: string)
    requires url == "http://host/a.tar.gz\nftp://host/a.tar.gz"
    ensures IsFtpUrl(url) && !HasPrefix(url, "ftp")
  {
    assert url[20] == '\n';
    assert url[21] == 'f' && url[22] == 't' && url[23] == 'p';
    assert url[21..][..3] == "ftp";
    assert LineStartsWith(url, "ftp", 21);
    assert url[..3] != "ftp" by { assert url[0] == 'h'; }
  }
}
