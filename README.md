# Podman provider: connection-endpoint resolution

A Dafny model of how the Terraform provider for Podman chooses the endpoint its client
connects to. The provider's `Configure` step takes six optional string attributes
(`connection`, `identity`, `host`, `username`, `uri`, `socket_path`). It stops with an
attribute error when any of them is still unknown at plan time. Otherwise it merges them over
the `PODMAN_*` environment variables and picks exactly one endpoint, in this priority order:

1. an explicit URI, used verbatim;
2. a named connection, looked up in the output of `podman system connection list`;
3. an ad-hoc SSH URI `ssh://username@host<socket>`, which requires an SSH identity;
4. a local `unix://<socket>` URI whose default socket depends on the process UID.

The model stops at the URI that would be handed to the Podman client library. The process
environment is a map, the UID is an integer, and the listing command's result (its output
text or the reason it failed) is an input.

Files:

- `wrappers.dfy`: `Option` and `Result`.
- `go_strings.dfy` (module `GoStrings`): the Go library behaviour the lookup depends on.
  This covers `strings.TrimSpace` with Go's white-space set, `strings.Split` and its inverse
  `strings.Join`, `strings.SplitN(s, " ", 2)` (`SplitAtFirst`), and `fmt`'s `%d`.
- `client_helper.dfy` (module `ClientHelper`): the default socket path and the named-connection
  lookup. The lookup has a specification function (`ConnectionUri`, over the first-match search
  `FindUri`) and a method with the source's loop and early return (`GetPodmanConnectionUri`),
  proved equal to it.
- `provider.dfy` (module `Provider`): the configuration values (null, unknown or known), the
  unknown check, the merge, the precedence switch (`SelectMode`, `SelectEndpoint`) and the pure
  `Resolve`. `Configure` is a method that follows the source step by step (reassigning its locals
  and returning at the first error), and it is proved to report exactly what `Resolve` and
  `Diagnose` give.

The lookup trims the listing output as a whole and splits it at line feeds. It cuts each line
at its first space only, so a URI may itself contain spaces.

## Model

| member | source | states |
|---|---|---|
| GoStrings.ContentStart | internal/provider/clientHelper.go:29 | the scan stops at the first character that is not white space (or at the end), and everything it skipped is white space |
| GoStrings.ContentEnd | internal/provider/clientHelper.go:29 | the scan back stops after the last character that is not white space (or at its start), and everything after that point is white space |
| GoStrings.TrimSpace | internal/provider/clientHelper.go:29 | the trimmed output is the piece of the output between an all-white-space prefix and an all-white-space suffix; it neither starts nor ends with white space, and it is empty exactly when the output is all white space |
| GoStrings.TrimSpaceIdempotent | internal/provider/clientHelper.go:29 | trimming an already trimmed output changes nothing |
| GoStrings.Split | internal/provider/clientHelper.go:29 | splitting at line feeds gives at least one line (one empty line for empty text), no line holds a line feed, and joining the lines gives the text back |
| GoStrings.SplitJoin | internal/provider/clientHelper.go:29 | the split recovers exactly the lines that were joined, when none holds a line feed |
| GoStrings.SplitAtFirst | internal/provider/clientHelper.go:31 | a line gives one part exactly when it has no space, and that part is the line; otherwise it gives the space-free text before the first space and the whole remainder after it |
| GoStrings.SplitAtFirstOf | internal/provider/clientHelper.go:31-32 | a space-free head, a space and any tail are cut into exactly that head and tail |
| GoStrings.NatToDecimal | internal/provider/clientHelper.go:17 | `%d` of a natural number is a non-empty digit string without a leading zero; it starts with `0` only for zero, which prints as `0` |
| GoStrings.DecimalRoundTrip | internal/provider/clientHelper.go:17 | reading the printed digits back gives the number |
| GoStrings.IntToDecimal | internal/provider/clientHelper.go:17 | `%d` of an integer is non-empty, starts with a minus sign exactly for negatives, and the digits after the sign (if any) denote the integer's absolute value without a leading zero (zero prints as `0`) |
| GoStrings.IntToDecimalInjective | internal/provider/clientHelper.go:17 | different UIDs print differently |
| ClientHelper.DefaultSocketPath | internal/provider/clientHelper.go:10-18 | total (no error case); UID 0 gets `/run/podman/podman.sock`, and only UID 0 does; any other UID gets a path of the form `/run/user/…/podman/podman.sock` |
| ClientHelper.DefaultSocketPathUid | internal/provider/clientHelper.go:17 | the middle of a rootless default path is the UID in decimal |
| ClientHelper.DefaultSocketPathInjective | internal/provider/clientHelper.go:10-18 | distinct UIDs get distinct default sockets |
| ClientHelper.DefaultSocketPathOf1000 | internal/provider/clientHelper.go:17 | UID 1000 gets `/run/user/1000/podman/podman.sock` |
| ClientHelper.Lines | internal/provider/clientHelper.go:29 | the trimmed output gives at least one line, no line holds a line feed, and joining the lines with line feeds gives the trimmed output back |
| ClientHelper.LookupError.Message | internal/provider/clientHelper.go:25-37 | a listing failure reads `failed to list podman connections: ` followed by the failure's own text; a missing name reads `connection '<name>' not found` |
| ClientHelper.MatchLine | internal/provider/clientHelper.go:31-33 | a line gives a URI only when the name has no space and the line is the name, a space and that URI |
| ClientHelper.MatchLineComplete | internal/provider/clientHelper.go:31-33 | a line made of a space-free name, a space and a URI always gives that URI, even when the URI has spaces |
| ClientHelper.FindUri | internal/provider/clientHelper.go:30-35 | the search finds nothing exactly when no line matches |
| ClientHelper.FindUriFirstMatch | internal/provider/clientHelper.go:30-34 | the first matching line gives the result; later lines with the same name are ignored |
| ClientHelper.FindUriWitness | internal/provider/clientHelper.go:30-34 | a found URI comes from a matching line with no matching line before it |
| ClientHelper.ConnectionUri | internal/provider/clientHelper.go:20-38 | a failed listing gives the listing error and nothing else; a lookup over a listing can fail only with not-found for that name; success needs a listing and a name without spaces |
| ClientHelper.GetPodmanConnectionUri | internal/provider/clientHelper.go:20-38 | the loop with early return gives exactly the first-match lookup result |
| ClientHelper.ConnectionUriFound | internal/provider/clientHelper.go:29-34 | a found URI is what follows the name and a space on some line of the trimmed output, and no earlier line starts with the name and a space |
| ClientHelper.ConnectionUriFirstLine | internal/provider/clientHelper.go:29-34 | the first line that starts with the name and a space gives the URI, whatever later lines say |
| ClientHelper.NameWithSpaceNotFound | internal/provider/clientHelper.go:31-32 | a name containing a space is never found |
| ClientHelper.BlankListingNotFound | internal/provider/clientHelper.go:29-37 | an empty or all-blank listing yields `connection '<name>' not found` |
| Provider.Getenv | internal/provider/provider.go:157-162 | a set variable reads as its value, an unset one as the empty string |
| Provider.Diagnose | internal/provider/provider.go:97-231 | only an unknown attribute is reported as an error attached to that attribute's name, with summary `Unknown Connection`, `Unknown Identity`, `Unknown Host`, `Unknown Username`, `Unknown URI` or `Unknown Socket Path` and the matching "cannot determine" detail; an unresolved connection reports "Unable to Resolve Named Connection" with the name and the lookup's message; a missing identity reports "Missing SSH Identity for Remote Connection" with the source's detail text |
| Provider.FirstUnknown | internal/provider/provider.go:97-149 | the reported attribute is unknown and no attribute checked before it is; nothing is reported exactly when no attribute is unknown |
| Provider.Merge | internal/provider/provider.go:157-186 | each setting is its configured value when that is not null (an explicit empty string included), and its `PODMAN_*` variable otherwise (empty when unset) |
| Provider.SelectMode | internal/provider/provider.go:191-275 | exactly one mode applies, in the priority uri > connection > host and username > local socket; only one of host and username falls through to the local socket |
| Provider.SshUriParts | internal/provider/provider.go:239 | the ad-hoc SSH URI is `ssh://`, the username, `@`, the host and the socket path, each verbatim and in that order |
| Provider.UnixUriParts | internal/provider/provider.go:266 | the local URI is `unix://` followed by the socket path verbatim |
| Provider.SelectEndpoint | internal/provider/provider.go:191-275 | the switch never produces an unknown-attribute error |
| Provider.Resolve | internal/provider/provider.go:97-275 | an unknown attribute ends resolution with an error naming the first unknown attribute in check order, and an unknown-attribute error names exactly that attribute |
| Provider.Configure | internal/provider/provider.go:86-280 | the step-by-step procedure hands on the URI that `Resolve` gives, or reports the diagnostic of `Resolve`'s error |
| Provider.UnknownAttributeFails | internal/provider/provider.go:97-149 | resolution fails on attribute f being unknown exactly when f is unknown and no attribute checked before it is |
| Provider.UnknownStopsResolution | internal/provider/provider.go:97-149 | any unknown attribute makes resolution fail with an unknown-attribute error |
| Provider.ExplicitEmptyUriOverridesEnv | internal/provider/provider.go:161-182 | an explicitly configured empty URI hides `PODMAN_URI`, so the direct-URI branch is not taken |
| Provider.DirectUriEndpoint | internal/provider/provider.go:194-195 | a non-empty merged URI is the endpoint, verbatim |
| Provider.DirectUriIgnoresTheRest | internal/provider/provider.go:191-195 | with a non-empty URI the other settings, the environment, the UID and the listing do not affect the result |
| Provider.NamedConnectionEndpoint | internal/provider/provider.go:205-214 | with no URI and a connection name, the endpoint is the lookup's URI; a failed lookup becomes "Unable to Resolve Named Connection" carrying the lookup error |
| Provider.RemoteWithoutIdentityFails | internal/provider/provider.go:224-231 | host and username with an empty identity give the missing-SSH-identity error |
| Provider.RemoteSshEndpoint | internal/provider/provider.go:233-244 | host and username with an identity give `"ssh://" + username + "@" + host + sp`, with sp the socket path or `/run/user/1000/podman/podman.sock` |
| Provider.RemoteSshIgnoresIdentityAndUid | internal/provider/provider.go:233-242 | the ad-hoc SSH endpoint does not embed the identity and does not depend on the local UID |
| Provider.LocalSocketEndpoint | internal/provider/provider.go:253-267 | otherwise the endpoint is `"unix://" + sp`, with sp the socket path or the UID's default socket |
| Provider.ListingOnlyForNamedConnection | internal/provider/provider.go:204-206 | the listing result affects resolution only in the named-connection branch |
| Provider.FailuresByMode | internal/provider/provider.go:191-275 | the direct-URI and local branches always give an endpoint; the named branch fails only by its lookup; the SSH branch fails exactly when the identity is empty |
| Provider.RemoteSshExample | internal/provider/provider.go:233-239 | host 192.168.1.5, user alice and identity /key with no socket path give `ssh://alice@192.168.1.5/run/user/1000/podman/podman.sock` |
| Provider.RootLocalExample | internal/provider/provider.go:253-266 | root with nothing configured gets `unix:///run/podman/podman.sock` |

## Left out

- Opening the connection (`bindings.NewConnection`) and its four failure diagnostics (provider.go 195-201, 214-220, 244-250, 267-273). The client library is not part of this model, so resolution ends at the URI it would receive.
- Running `podman system connection list`: its result is an input (output text or failure reason). Decoding the output bytes as UTF-8 text is not modelled; the output is a sequence of characters.
- `os.Getenv` and `os.Getuid`: the environment is a map (a missing variable reads as the empty string) and the UID is an integer parameter.
- `Metadata`, `Schema`, `DataSources`, `Resources` and `New`: static plugin-framework declarations with no behaviour to verify.
- Reading the configuration (`req.Config.Get`, provider.go 90-95) and the redundant `HasError` check (151-153): framework I/O. The model starts from the decoded configuration values.
- Storing the connection context in `resp.DataSourceData` and `resp.ResourceData` (277-278): a framework hand-off.
- The "Unable to Determine Default Socket Path" branch (provider.go 257-263) can never be reached because `getDefaultSocketPath` never returns an error; `DefaultSocketPath` is total.
- The empty `if identity != ""` block (provider.go 240-242) has no effect, so the model has nothing for it; `RemoteSshIgnoresIdentityAndUid` states the consequence.
