/** The provider's Configure step, up to the URI it hands to the Podman client library:
    reject unknown attributes, merge configuration over `PODMAN_*` environment variables,
    and pick one endpoint by a fixed precedence (explicit URI, named connection, ad-hoc
    SSH from host and username, local unix socket). The environment, the process UID
    and the result of the connection-listing command are inputs. */
module Provider {
  import opened Wrappers
  import opened GoStrings
  import opened ClientHelper

  // ---------------------------------------------------------------------------
  // Configuration as the plugin framework delivers it
  // ---------------------------------------------------------------------------

  /** A string attribute: not set, not yet known at plan time, or a known value. */
  datatype ConfigValue = Null | Unknown | Known(value: string) {
    /** The framework's ValueString(): the value when known, the empty string otherwise. */
    function ValueString(): string {
      if Known? then value else ""
    }
  }

  /** The six attributes of the provider schema. */
  datatype Field = Connection | Identity | Host | Username | Uri | SocketPath

  /** The provider configuration (one value per attribute). */
  datatype Config = Config(
    connection: ConfigValue, identity: ConfigValue, host: ConfigValue,
    username: ConfigValue, uri: ConfigValue, socketPath: ConfigValue)
  {
    function Get(f: Field): ConfigValue {
      match f
      case Connection => connection
      case Identity => identity
      case Host => host
      case Username => username
      case Uri => uri
      case SocketPath => socketPath
    }
  }

  /** The order in which Configure checks the attributes for unknown values. */
  const CheckOrder: seq<Field> := [Connection, Identity, Host, Username, Uri, SocketPath]

  /** Where an attribute stands in the check order. */
  function Position(f: Field): (i: nat)
    ensures i < |CheckOrder| && CheckOrder[i] == f
  {
    match f
    case Connection => 0
    case Identity => 1
    case Host => 2
    case Username => 3
    case Uri => 4
    case SocketPath => 5
  }

  /** The attribute's name in the schema. */
  function AttributeName(f: Field): string {
    match f
    case Connection => "connection"
    case Identity => "identity"
    case Host => "host"
    case Username => "username"
    case Uri => "uri"
    case SocketPath => "socket_path"
  }

  /** The environment variable that supplies the attribute when the configuration leaves it null. */
  function EnvVar(f: Field): string {
    match f
    case Connection => "PODMAN_CONNECTION"
    case Identity => "PODMAN_IDENTITY"
    case Host => "PODMAN_HOST"
    case Username => "PODMAN_USERNAME"
    case Uri => "PODMAN_URI"
    case SocketPath => "PODMAN_SOCKET_PATH"
  }

  /** The process environment. */
  type Env = map<string, string>

  /** os.Getenv: the variable's value, or the empty string when it is not set. */
  function Getenv(env: Env, key: string): (v: string)
    ensures key in env ==> v == env[key]
    ensures key !in env ==> v == ""
  {
    if key in env then env[key] else ""
  }

  // ---------------------------------------------------------------------------
  // Errors
  // ---------------------------------------------------------------------------

  /** Why Configure gives up before a URI reaches the client library. */
  datatype ConfigureError =
    | UnknownValue(field: Field)
    | UnresolvedConnection(name: string, cause: LookupError)
    | MissingIdentity

  /** A diagnostic as Configure reports it: the attribute it is attached to (attribute
      errors only), a summary and a detail. */
  datatype Diagnostic = Diagnostic(attribute: Option<string>, summary: string, detail: string)

  function UnknownSummary(f: Field): string {
    match f
    case Connection => "Unknown Connection"
    case Identity => "Unknown Identity"
    case Host => "Unknown Host"
    case Username => "Unknown Username"
    case Uri => "Unknown URI"
    case SocketPath => "Unknown Socket Path"
  }

  function UnknownDetail(f: Field): string {
    var what := match f
      case Connection => "connection"
      case Identity => "identity"
      case Host => "host"
      case Username => "username"
      case Uri => "URI"
      case SocketPath => "socket path";
    "The provider cannot determine the " + what + " to use. Please specify a valid " + what + "."
  }

  /** The diagnostic Configure adds for an error. Only an unknown attribute is reported as an
      error attached to that attribute; a failed lookup carries the lookup's own message. */
  function Diagnose(e: ConfigureError): (d: Diagnostic)
    ensures d.attribute.Some? <==> e.UnknownValue?
    ensures e.UnknownValue? ==> d.attribute == Some(AttributeName(e.field))
    ensures e.UnresolvedConnection? ==>
      d.summary == "Unable to Resolve Named Connection"
      && d.detail == "Failed to resolve connection '" + e.name + "': " + e.cause.Message()
    ensures e.MissingIdentity? ==>
      d.summary == "Missing SSH Identity for Remote Connection"
      && d.detail == "When using host and username for remote connection, an SSH identity (private key) must be provided."
    ensures e == UnknownValue(Connection) ==> d.summary == "Unknown Connection"
    ensures e == UnknownValue(Identity) ==> d.summary == "Unknown Identity"
    ensures e == UnknownValue(Host) ==> d.summary == "Unknown Host"
    ensures e == UnknownValue(Username) ==> d.summary == "Unknown Username"
    ensures e == UnknownValue(Uri) ==> d.summary == "Unknown URI"
    ensures e == UnknownValue(SocketPath) ==> d.summary == "Unknown Socket Path"
    ensures e.UnknownValue? ==> d.detail == UnknownDetail(e.field)
  {
    match e
    case UnknownValue(f) => Diagnostic(Some(AttributeName(f)), UnknownSummary(f), UnknownDetail(f))
    case UnresolvedConnection(name, cause) =>
      Diagnostic(None, "Unable to Resolve Named Connection",
        "Failed to resolve connection '" + name + "': " + cause.Message())
    case MissingIdentity =>
      Diagnostic(None, "Missing SSH Identity for Remote Connection",
        "When using host and username for remote connection, an SSH identity (private key) must be provided.")
  }

  // ---------------------------------------------------------------------------
  // Unknown check and merge
  // ---------------------------------------------------------------------------

  /** The first attribute in check order whose value is unknown, if any. */
  function FirstUnknown(c: Config): (r: Option<Field>)
    ensures r.Some? ==> c.Get(r.value).Unknown?
    ensures r.Some? ==> forall g :: Position(g) < Position(r.value) ==> !c.Get(g).Unknown?
    ensures r.None? <==> forall g :: !c.Get(g).Unknown?
  {
    if c.connection.Unknown? then Some(Connection)
    else if c.identity.Unknown? then Some(Identity)
    else if c.host.Unknown? then Some(Host)
    else if c.username.Unknown? then Some(Username)
    else if c.uri.Unknown? then Some(Uri)
    else if c.socketPath.Unknown? then Some(SocketPath)
    else None
  }

  /** The six settings after merging. */
  datatype Settings = Settings(
    connection: string, identity: string, host: string,
    username: string, uri: string, socketPath: string)
  {
    function Get(f: Field): string {
      match f
      case Connection => connection
      case Identity => identity
      case Host => host
      case Username => username
      case Uri => uri
      case SocketPath => socketPath
    }
  }

  /** A configured value wins over the environment whenever it is not null. */
  function MergeValue(v: ConfigValue, fromEnv: string): string {
    if v.Null? then fromEnv else v.ValueString()
  }

  /** Every setting is its configured value when that is not null (an explicit empty string
      included), and the matching `PODMAN_*` variable otherwise. */
  function Merge(c: Config, env: Env): (s: Settings)
    requires FirstUnknown(c).None?
    ensures forall f :: c.Get(f).Null? ==> s.Get(f) == Getenv(env, EnvVar(f))
    ensures forall f :: c.Get(f).Known? ==> s.Get(f) == c.Get(f).value
  {
    Settings(
      MergeValue(c.connection, Getenv(env, EnvVar(Connection))),
      MergeValue(c.identity, Getenv(env, EnvVar(Identity))),
      MergeValue(c.host, Getenv(env, EnvVar(Host))),
      MergeValue(c.username, Getenv(env, EnvVar(Username))),
      MergeValue(c.uri, Getenv(env, EnvVar(Uri))),
      MergeValue(c.socketPath, Getenv(env, EnvVar(SocketPath))))
  }

  // ---------------------------------------------------------------------------
  // Precedence switch
  // ---------------------------------------------------------------------------

  /** The four ways to connect, highest priority first. */
  datatype Mode = DirectUri | NamedConnection | RemoteSsh | LocalSocket

  /** Exactly one mode applies to any settings: a non-empty URI first, then a non-empty
      connection name, then host and username both non-empty, and the local socket otherwise
      (also when only one of host and username is set). */
  function SelectMode(s: Settings): (m: Mode)
    ensures m == DirectUri <==> s.uri != ""
    ensures m == NamedConnection <==> s.uri == "" && s.connection != ""
    ensures m == RemoteSsh <==> s.uri == "" && s.connection == "" && s.host != "" && s.username != ""
    ensures m == LocalSocket <==> s.uri == "" && s.connection == "" && (s.host == "" || s.username == "")
  {
    if s.uri != "" then DirectUri
    else if s.connection != "" then NamedConnection
    else if s.host != "" && s.username != "" then RemoteSsh
    else LocalSocket
  }

  /** The socket path an ad-hoc SSH connection uses when none is configured. It is fixed
      and does not depend on any UID. */
  const RemoteDefaultSocketPath: string := "/run/user/1000/podman/podman.sock"

  /** The SSH URI for an ad-hoc remote connection. */
  function SshUri(username: string, host: string, socketPath: string): string {
    "ssh://" + username + "@" + host + socketPath
  }

  /** An ad-hoc SSH URI reads, in order: the scheme `ssh://`, the username, `@`, the host and
      the socket path, each verbatim. */
  lemma SshUriParts(username: string, host: string, socketPath: string)
    ensures var r, u, h := SshUri(username, host, socketPath), |username|, |host|;
      |r| == 7 + u + h + |socketPath| && r[..6] == "ssh://" && r[6..6 + u] == username
      && r[6 + u] == '@' && r[7 + u..7 + u + h] == host && r[7 + u + h..] == socketPath
  {
  }

  /** The URI of a local unix socket. */
  function UnixUri(socketPath: string): string {
    "unix://" + socketPath
  }

  /** A local URI is the scheme `unix://` followed by the socket path, verbatim. */
  lemma UnixUriParts(socketPath: string)
    ensures var r := UnixUri(socketPath);
      |r| == 7 + |socketPath| && r[..7] == "unix://" && r[7..] == socketPath
  {
  }

  /** The endpoint the merged settings select, or why there is none. */
  function SelectEndpoint(s: Settings, uid: int, listing: ListingResult): (r: Result<string, ConfigureError>)
    ensures r.Failure? ==> !r.error.UnknownValue?
  {
    match SelectMode(s)
    case DirectUri => Success(s.uri)
    case NamedConnection =>
      (match ConnectionUri(listing, s.connection)
       case Success(uri) => Success(uri)
       case Failure(e) => Failure(UnresolvedConnection(s.connection, e)))
    case RemoteSsh =>
      if s.identity == "" then Failure(MissingIdentity)
      else Success(SshUri(s.username, s.host, if s.socketPath == "" then RemoteDefaultSocketPath else s.socketPath))
    case LocalSocket =>
      Success(UnixUri(if s.socketPath == "" then DefaultSocketPath(uid) else s.socketPath))
  }

  /** Configure's resolution: an unknown attribute stops everything; otherwise the merged
      settings select the endpoint. */
  function Resolve(c: Config, env: Env, uid: int, listing: ListingResult): (r: Result<string, ConfigureError>)
    ensures FirstUnknown(c).Some? ==> r == Failure(UnknownValue(FirstUnknown(c).value))
    ensures r.Failure? && r.error.UnknownValue? ==> FirstUnknown(c) == Some(r.error.field)
  {
    match FirstUnknown(c)
    case Some(f) => Failure(UnknownValue(f))
    case None => SelectEndpoint(Merge(c, env), uid, listing)
  }

  /** What Configure leaves behind for a resolution outcome: the URI for the client library,
      or the diagnostic of the error. */
  function Report(res: Result<string, ConfigureError>): Result<string, Diagnostic> {
    match res
    case Success(uri) => Success(uri)
    case Failure(e) => Failure(Diagnose(e))
  }

  /** Configure as the source runs it: a check per attribute, locals taken from the environment
      and overwritten by non-null configuration, then the switch. It reports the diagnostic of
      the error Resolve gives, or hands on the URI Resolve gives. */
  method Configure(c: Config, env: Env, uid: int, listing: ListingResult) returns (r: Result<string, Diagnostic>)
    ensures r == Report(Resolve(c, env, uid, listing))
  {
    if c.connection.Unknown? { return Failure(Diagnose(UnknownValue(Connection))); }
    if c.identity.Unknown? { return Failure(Diagnose(UnknownValue(Identity))); }
    if c.host.Unknown? { return Failure(Diagnose(UnknownValue(Host))); }
    if c.username.Unknown? { return Failure(Diagnose(UnknownValue(Username))); }
    if c.uri.Unknown? { return Failure(Diagnose(UnknownValue(Uri))); }
    if c.socketPath.Unknown? { return Failure(Diagnose(UnknownValue(SocketPath))); }

    var connection := Getenv(env, EnvVar(Connection));
    var identity := Getenv(env, EnvVar(Identity));
    var host := Getenv(env, EnvVar(Host));
    var username := Getenv(env, EnvVar(Username));
    var uri := Getenv(env, EnvVar(Uri));
    var socketPath := Getenv(env, EnvVar(SocketPath));

    if !c.connection.Null? { connection := c.connection.ValueString(); }
    if !c.identity.Null? { identity := c.identity.ValueString(); }
    if !c.host.Null? { host := c.host.ValueString(); }
    if !c.username.Null? { username := c.username.ValueString(); }
    if !c.uri.Null? { uri := c.uri.ValueString(); }
    if !c.socketPath.Null? { socketPath := c.socketPath.ValueString(); }

    ghost var s := Settings(connection, identity, host, username, uri, socketPath);
    assert s == Merge(c, env);
    assert Resolve(c, env, uid, listing) == SelectEndpoint(s, uid, listing);

    if uri != "" {
      return Success(uri);
    } else if connection != "" {
      var connectionUri := GetPodmanConnectionUri(listing, connection);
      if connectionUri.Failure? {
        return Failure(Diagnose(UnresolvedConnection(connection, connectionUri.error)));
      }
      return Success(connectionUri.value);
    } else if host != "" && username != "" {
      if identity == "" {
        return Failure(Diagnose(MissingIdentity));
      }
      if socketPath == "" {
        socketPath := RemoteDefaultSocketPath;
      }
      return Success(SshUri(username, host, socketPath));
    } else {
      if socketPath == "" {
        socketPath := DefaultSocketPath(uid);
      }
      return Success(UnixUri(socketPath));
    }
  }

  // ---------------------------------------------------------------------------
  // Properties of resolution
  // ---------------------------------------------------------------------------

  /** Resolution fails on attribute `f` being unknown exactly when `f` is unknown and no
      attribute checked before it is. */
  lemma UnknownAttributeFails(c: Config, env: Env, uid: int, listing: ListingResult, f: Field)
    ensures Resolve(c, env, uid, listing) == Failure(UnknownValue(f))
      <==> c.Get(f).Unknown? && forall g :: Position(g) < Position(f) ==> !c.Get(g).Unknown?
  {
  }

  /** Any unknown attribute stops resolution before anything is merged or looked up. */
  lemma UnknownStopsResolution(c: Config, env: Env, uid: int, listing: ListingResult, f: Field)
    requires c.Get(f).Unknown?
    ensures Resolve(c, env, uid, listing).Failure? && Resolve(c, env, uid, listing).error.UnknownValue?
  {
  }

  /** An explicitly configured empty URI hides `PODMAN_URI`: resolution moves on to the
      lower-priority modes whatever that variable holds. */
  lemma ExplicitEmptyUriOverridesEnv(c: Config, env: Env)
    requires FirstUnknown(c).None? && c.uri == Known("")
    ensures SelectMode(Merge(c, env)) != DirectUri
  {
  }

  /** A non-empty merged URI is the endpoint, verbatim. */
  lemma DirectUriEndpoint(c: Config, env: Env, uid: int, listing: ListingResult)
    requires FirstUnknown(c).None? && Merge(c, env).uri != ""
    ensures Resolve(c, env, uid, listing) == Success(Merge(c, env).uri)
  {
  }

  /** With a direct URI nothing else matters: two inputs that merge to the same non-empty
      URI resolve alike, whatever their other settings, environment, UID and listing. */
  lemma DirectUriIgnoresTheRest(c1: Config, env1: Env, uid1: int, listing1: ListingResult,
                                c2: Config, env2: Env, uid2: int, listing2: ListingResult)
    requires FirstUnknown(c1).None? && FirstUnknown(c2).None?
    requires Merge(c1, env1).uri != "" && Merge(c1, env1).uri == Merge(c2, env2).uri
    ensures Resolve(c1, env1, uid1, listing1) == Resolve(c2, env2, uid2, listing2)
  {
  }

  /** A named connection (with no URI) resolves to what the lookup gives for that name, and
      a failed lookup becomes an unresolved-connection error carrying the lookup's error. */
  lemma NamedConnectionEndpoint(c: Config, env: Env, uid: int, listing: ListingResult)
    requires FirstUnknown(c).None?
    requires Merge(c, env).uri == "" && Merge(c, env).connection != ""
    ensures var name := Merge(c, env).connection;
      var lookup := ConnectionUri(listing, name);
      (lookup.Success? ==> Resolve(c, env, uid, listing) == Success(lookup.value))
      && (lookup.Failure? ==> Resolve(c, env, uid, listing) == Failure(UnresolvedConnection(name, lookup.error)))
  {
  }

  /** Host and username without an identity are refused. */
  lemma RemoteWithoutIdentityFails(c: Config, env: Env, uid: int, listing: ListingResult)
    requires FirstUnknown(c).None?
    requires var s := Merge(c, env);
      s.uri == "" && s.connection == "" && s.host != "" && s.username != "" && s.identity == ""
    ensures Resolve(c, env, uid, listing) == Failure(MissingIdentity)
  {
  }

  /** Host and username with an identity give `ssh://username@host` followed by the socket
      path, or the fixed remote default when none is set. */
  lemma RemoteSshEndpoint(c: Config, env: Env, uid: int, listing: ListingResult)
    requires FirstUnknown(c).None?
    requires var s := Merge(c, env);
      s.uri == "" && s.connection == "" && s.host != "" && s.username != "" && s.identity != ""
    ensures var s := Merge(c, env);
      var sp := if s.socketPath == "" then RemoteDefaultSocketPath else s.socketPath;
      Resolve(c, env, uid, listing) == Success("ssh://" + s.username + "@" + s.host + sp)
  {
  }

  /** The identity is required but not part of the endpoint, and the remote default socket does
      not follow the local UID: changing either leaves an ad-hoc SSH endpoint unchanged. */
  lemma RemoteSshIgnoresIdentityAndUid(s1: Settings, s2: Settings, uid1: int, uid2: int,
                                        listing1: ListingResult, listing2: ListingResult)
    requires s1.uri == "" && s1.connection == "" && s1.host != "" && s1.username != ""
    requires s1.identity != "" && s2.identity != ""
    requires s2 == s1.(identity := s2.identity)
    ensures SelectEndpoint(s1, uid1, listing1) == SelectEndpoint(s2, uid2, listing2)
    ensures SelectEndpoint(s1, uid1, listing1).Success?
  {
  }

  /** Otherwise the endpoint is the unix socket: the configured path, or the UID's default. */
  lemma LocalSocketEndpoint(c: Config, env: Env, uid: int, listing: ListingResult)
    requires FirstUnknown(c).None?
    requires var s := Merge(c, env);
      s.uri == "" && s.connection == "" && (s.host == "" || s.username == "")
    ensures var s := Merge(c, env);
      var sp := if s.socketPath == "" then DefaultSocketPath(uid) else s.socketPath;
      Resolve(c, env, uid, listing) == Success("unix://" + sp)
  {
  }

  /** The listing is consulted only for a named connection. */
  lemma ListingOnlyForNamedConnection(c: Config, env: Env, uid: int, l1: ListingResult, l2: ListingResult)
    requires FirstUnknown(c).None? && SelectMode(Merge(c, env)) != NamedConnection
    ensures Resolve(c, env, uid, l1) == Resolve(c, env, uid, l2)
  {
  }

  /** The errors each mode can produce: a direct URI and the local socket always give an
      endpoint, a named connection fails only by its lookup, and an ad-hoc SSH connection
      fails only for want of an identity. */
  lemma FailuresByMode(c: Config, env: Env, uid: int, listing: ListingResult)
    requires FirstUnknown(c).None?
    ensures var m, r := SelectMode(Merge(c, env)), Resolve(c, env, uid, listing);
      (m == DirectUri || m == LocalSocket ==> r.Success?)
      && (m == NamedConnection && r.Failure? ==> r.error.UnresolvedConnection?)
      && (m == RemoteSsh ==> (r.Failure? <==> Merge(c, env).identity == "") && (r.Failure? ==> r.error == MissingIdentity))
  {
  }

  /** An ad-hoc SSH connection to 192.168.1.5 as alice with an identity and no socket path. */
  lemma RemoteSshExample(env: Env, uid: int, listing: ListingResult)
    requires "PODMAN_URI" !in env && "PODMAN_CONNECTION" !in env && "PODMAN_SOCKET_PATH" !in env
    ensures Resolve(Config(Null, Known("/key"), Known("192.168.1.5"), Known("alice"), Null, Null), env, uid, listing)
      == Success("ssh://" + "alice" + "@" + "192.168.1.5" + "/run/user/1000/podman/podman.sock")
  {
  }

  /** Root with nothing configured connects to the system-wide socket. */
  lemma RootLocalExample(listing: ListingResult)
    ensures Resolve(Config(Null, Null, Null, Null, Null, Null), map[], 0, listing)
      == Success("unix://" + "/run/podman/podman.sock")
  {
    var c := Config(Null, Null, Null, Null, Null, Null);
    assert FirstUnknown(c) == None;
    assert Merge(c, map[]) == Settings("", "", "", "", "", "");
    LocalSocketEndpoint(c, map[], 0, listing);
  }
}
