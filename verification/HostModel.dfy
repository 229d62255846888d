/** Host configuration and hosts, as the listeners and services share them through `Arc`. */
module HostModel {
  import opened Prelude

  type Port = n: nat | n < 65536

  /** An IP address. */
  type Interface = nat

  datatype Version = Http09 | Http10 | Http11 | Http2 | Http3

  datatype Bind = Bind(interface: Interface, port: Port)

  /** A certificate with its key; `usable` says that rustls accepts the pair. */
  datatype Tls = Tls(cert: nat, usable: bool, alpns: seq<string>)

  datatype ContentError = Forbidden | NotFound | InvalidMetadata | InvalidRange | ServerError

  datatype HostError = Proxy | Auth | Content(inner: ContentError) | Handler

  datatype VetisError = HostFailed(error: HostError) | OtherError

  datatype Path = Path(uri: string, id: nat)

  /** `defaultHeaders` is in iteration order; `statusPages` maps a status to a page that can be opened. */
  datatype HostConfig = HostConfig(
    hostname: string,
    protos: set<Version>,
    binds: seq<Bind>,
    tls: bool,
    allowUnsafe: bool,
    hsts: bool,
    defaultHeaders: Option<seq<(string, string)>>,
    statusPages: map<nat, string>)

  datatype Host = Host(config: HostConfig, paths: map<string, Path>, tls: Option<Tls>)
}
