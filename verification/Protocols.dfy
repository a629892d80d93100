/** pkg/common/protocol.go and the bounded `strconv.ParseUint` of the watchers. */
module Protocols {
  import opened Wrappers
  import opened Text

  const UNSUPPORTED := "UnsupportedProtocol"

  function ParseProtocol(s: string): string {
    var l := LowerCase(s);
    if l == "tcp" then "TCP"
    else if l == "http" then "HTTP"
    else if l == "https" then "HTTPS"
    else if l == "http2" then "HTTP2"
    else if l == "grpc" || l == "triple" || l == "tri" then "GRPC"
    else if l == "grpcs" then "GRPCS"
    else if l == "dubbo" then "Dubbo"
    else UNSUPPORTED
  }

  predicate IsHttps(protocol: string) {
    protocol == "HTTPS" || protocol == "GRPCS"
  }

  /** A decimal number below `limit`. */
  function ParseUint(s: string, limit: nat): Option<nat> {
    if s != [] && Digits(s) && DecimalValue(s) < limit then Some(DecimalValue(s)) else None
  }
}
