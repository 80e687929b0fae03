/** The provider's client helpers: the default local socket path and the lookup of a named
    connection's URI in the output of `podman system connection list`. The process UID and
    the listing command's result are inputs here. */
module ClientHelper {
  import opened Wrappers
  import opened GoStrings

  // ---------------------------------------------------------------------------
  // Default socket path
  // ---------------------------------------------------------------------------

  /** The system-wide socket that root uses. */
  const RootSocketPath: string := "/run/podman/podman.sock"

  /** The default local socket for the process whose UID is `uid`: the system-wide socket for
      root, otherwise the rootless socket under that user's runtime directory. The source's
      function also returns an error, but never a non-nil one; here it is total. */
  function DefaultSocketPath(uid: int): (r: string)
    ensures uid == 0 <==> r == RootSocketPath
    ensures uid != 0 ==> |r| > |"/run/user/"| + |"/podman/podman.sock"| && "/run/user/" <= r
                         && r[|r| - |"/podman/podman.sock"|..] == "/podman/podman.sock"
  {
    if uid == 0 then RootSocketPath
    else
      var d := IntToDecimal(uid);
      var r := "/run/user/" + d + "/podman/podman.sock";
      assert r[..|"/run/user/"|] == "/run/user/";
      assert r[|r| - |"/podman/podman.sock"|..] == "/podman/podman.sock";
      assert r[5] == 'u' != RootSocketPath[5];
      r
  }

  /** The UID can be read back from a rootless default path. */
  lemma DefaultSocketPathUid(uid: int)
    requires uid != 0
    ensures var p := DefaultSocketPath(uid);
      p[|"/run/user/"|..|p| - |"/podman/podman.sock"|] == IntToDecimal(uid)
  {
  }

  /** Distinct users get distinct default sockets. */
  lemma DefaultSocketPathInjective(u1: int, u2: int)
    requires DefaultSocketPath(u1) == DefaultSocketPath(u2)
    ensures u1 == u2
  {
    if u1 != 0 && u2 != 0 {
      DefaultSocketPathUid(u1);
      DefaultSocketPathUid(u2);
      IntToDecimalInjective(u1, u2);
    }
  }

  /** The rootless default for UID 1000. */
  lemma DefaultSocketPathOf1000()
    ensures DefaultSocketPath(1000) == "/run/user/" + "1000" + "/podman/podman.sock"
  {
    assert DigitChar(0) == '0' && DigitChar(1) == '1';
    assert NatToDecimal(1) == "1";
    assert NatToDecimal(10) == "1" + "0";
    assert NatToDecimal(100) == "10" + "0";
    assert NatToDecimal(1000) == "100" + "0";
  }

  // ---------------------------------------------------------------------------
  // Named connection lookup
  // ---------------------------------------------------------------------------

  /** What running `podman system connection list --format "{{.Name}} {{.URI}}"` gave:
      its standard output, or the reason it failed. */
  datatype ListingResult = Listed(output: string) | ListingFailed(reason: string)

  /** Why a named connection could not be resolved. */
  datatype LookupError = ListFailed(reason: string) | NotFound(name: string) {
    /** The error's message text: the listing failure's reason after a fixed prefix, or the
        name quoted in a not-found sentence. */
    function Message(): (m: string)
      ensures ListFailed? ==> "failed to list podman connections: " <= m
                               && m[|"failed to list podman connections: "|..] == reason
      ensures NotFound? ==> (|m| == |"connection '"| + |name| + |"' not found"| && "connection '" <= m
                             && m[|"connection '"|..|m| - |"' not found"|] == name
                             && m[|m| - |"' not found"|..] == "' not found")
    {
      match this
      case ListFailed(reason) => "failed to list podman connections: " + reason
      case NotFound(name) => "connection '" + name + "' not found"
    }
  }

  /** The lines the listing is searched in: the whole output trimmed, then split at line feeds. */
  function Lines(output: string): (lines: seq<string>)
    ensures |lines| >= 1
    ensures forall i :: 0 <= i < |lines| ==> '\n' !in lines[i]
    ensures Join(lines, '\n') == TrimSpace(output)
  {
    Split(TrimSpace(output), '\n')
  }

  /** The URI a listing line gives for `name`: the line is cut at its first space, and when the
      text before it is `name` the URI is everything after it. A line holding `name`, a space
      and a URI gives that URI; a line without a space, or a name with a space, gives nothing. */
  function MatchLine(line: string, name: string): (r: Option<string>)
    ensures r.Some? ==> ' ' !in name && line == name + " " + r.value
  {
    var parts := SplitAtFirst(line, ' ');
    if |parts| == 2 && parts[0] == name then Some(parts[1]) else None
  }

  /** MatchLine finds every URI written after the name and a space. */
  lemma MatchLineComplete(name: string, uri: string)
    requires ' ' !in name
    ensures MatchLine(name + " " + uri, name) == Some(uri)
  {
    SplitAtFirstOf(name, uri, ' ');
  }

  /** The URI of the first line in `lines` that matches `name`, if any. It is absent exactly
      when no line matches. */
  function FindUri(lines: seq<string>, name: string): (r: Option<string>)
    ensures r.None? <==> forall i :: 0 <= i < |lines| ==> MatchLine(lines[i], name).None?
  {
    if lines == [] then None
    else
      match MatchLine(lines[0], name)
      case Some(uri) => Some(uri)
      case None =>
        var r := FindUri(lines[1..], name);
        assert forall i :: 1 <= i < |lines| ==> lines[i] == lines[1..][i - 1];
        r
  }

  /** The first matching line wins: later lines with the same name are ignored. */
  lemma {:induction false} FindUriFirstMatch(lines: seq<string>, name: string, k: nat)
    requires k < |lines| && MatchLine(lines[k], name).Some?
    requires forall j :: 0 <= j < k ==> MatchLine(lines[j], name).None?
    ensures FindUri(lines, name) == MatchLine(lines[k], name)
  {
    if k > 0 {
      assert MatchLine(lines[0], name).None?;
      assert lines[1..][k - 1] == lines[k];
      FindUriFirstMatch(lines[1..], name, k - 1);
    }
  }

  /** A found URI comes from a matching line with no matching line before it. */
  lemma {:induction false} FindUriWitness(lines: seq<string>, name: string) returns (k: nat)
    requires FindUri(lines, name).Some?
    ensures k < |lines| && MatchLine(lines[k], name) == FindUri(lines, name)
    ensures forall j :: 0 <= j < k ==> MatchLine(lines[j], name).None?
  {
    if MatchLine(lines[0], name).Some? {
      k := 0;
    } else {
      var k' := FindUriWitness(lines[1..], name);
      k := k' + 1;
      forall j | 0 <= j < k ensures MatchLine(lines[j], name).None? {
        if j > 0 {
          assert lines[j] == lines[1..][j - 1];
        }
      }
    }
  }

  /** getPodmanConnectionURI with the listing command's result as an input: a failed listing
      is reported without any lookup; otherwise the first line matching `name` gives the URI,
      and if none does the connection is not found. */
  function ConnectionUri(listing: ListingResult, name: string): (r: Result<string, LookupError>)
    ensures listing.ListingFailed? ==> r == Failure(ListFailed(listing.reason))
    ensures listing.Listed? && r.Failure? ==> r.error == NotFound(name)
    ensures r.Success? ==> listing.Listed? && ' ' !in name
  {
    match listing
    case ListingFailed(reason) => Failure(ListFailed(reason))
    case Listed(output) =>
      match FindUri(Lines(output), name)
      case Some(uri) => Success(uri)
      case None => Failure(NotFound(name))
  }

  /** The lookup as the source runs it: a loop over the lines that returns at the first match. */
  method GetPodmanConnectionUri(listing: ListingResult, name: string) returns (r: Result<string, LookupError>)
    ensures r == ConnectionUri(listing, name)
  {
    if listing.ListingFailed? {
      return Failure(ListFailed(listing.reason));
    }
    var lines := Split(TrimSpace(listing.output), '\n');
    for i := 0 to |lines|
      invariant FindUri(lines[i..], name) == FindUri(lines, name)
    {
      var parts := SplitAtFirst(lines[i], ' ');
      if |parts| == 2 && parts[0] == name {
        return Success(parts[1]);
      }
      assert lines[i..][1..] == lines[i + 1..];
    }
    return Failure(NotFound(name));
  }

  /** A found URI is what follows `name` and a space on some line of the listing, and no
      earlier line starts with `name` and a space. */
  lemma ConnectionUriFound(output: string, name: string)
    requires ConnectionUri(Listed(output), name).Success?
    ensures var lines, uri := Lines(output), ConnectionUri(Listed(output), name).value;
      exists k :: 0 <= k < |lines| && lines[k] == name + " " + uri
        && forall j :: 0 <= j < k ==> !(name + " " <= lines[j])
  {
    var lines, uri := Lines(output), ConnectionUri(Listed(output), name).value;
    var k := FindUriWitness(lines, name);
    forall j | 0 <= j < k ensures !(name + " " <= lines[j]) {
      if name + " " <= lines[j] {
        var rest := lines[j][|name| + 1..];
        assert lines[j] == name + " " + rest;
        MatchLineComplete(name, rest);
      }
    }
  }

  /** Conversely, the first line of the listing that starts with `name` and a space gives
      the URI, whatever later lines say. */
  lemma ConnectionUriFirstLine(output: string, name: string, k: nat, uri: string)
    requires ' ' !in name
    requires k < |Lines(output)| && Lines(output)[k] == name + " " + uri
    requires forall j :: 0 <= j < k ==> !(name + " " <= Lines(output)[j])
    ensures ConnectionUri(Listed(output), name) == Success(uri)
  {
    var lines := Lines(output);
    MatchLineComplete(name, uri);
    FindUriFirstMatch(lines, name, k);
  }

  /** A name containing a space is never found. */
  lemma NameWithSpaceNotFound(output: string, name: string)
    requires ' ' in name
    ensures ConnectionUri(Listed(output), name) == Failure(NotFound(name))
  {
  }

  /** An empty or all-blank listing finds nothing. */
  lemma BlankListingNotFound(output: string, name: string)
    requires AllSpace(output)
    ensures ConnectionUri(Listed(output), name) == Failure(NotFound(name))
  {
  }
}
