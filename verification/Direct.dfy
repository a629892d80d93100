/** registry/direct/watcher.go: the static and dns watcher, which publishes one host. */
module Direct {
  import opened Wrappers
  import opened Text
  import opened Protocols
  import opened ServiceCache

  datatype RegistryConfig = RegistryConfig(
    kind: string,
    name: string,
    domain: string,
    port: nat,
    protocol: string,
    sni: string,
    proxyName: string,
    authSecretName: string)

  function Host(kind: string, name: string): string {
    name + "." + kind
  }

  /** The name of the protocol option; the empty option means HTTP. */
  function ProtocolName(c: RegistryConfig): string {
    ParseProtocol(if c.protocol == "" then "HTTP" else c.protocol)
  }

  predicate IsDirect(kind: string) {
    kind == "static" || kind == "dns"
  }

  // ---- Endpoints ----------------------------------------------------------------

  predicate IsLetter(c: char) {
    'a' <= c <= 'z' || 'A' <= c <= 'Z'
  }

  predicate IsAlnum(c: char) {
    IsLetter(c) || '0' <= c <= '9'
  }

  predicate IsLabel(s: string) {
    && 1 <= |s| <= 63
    && IsAlnum(s[0]) && IsAlnum(s[|s| - 1])
    && forall i :: 0 <= i < |s| ==> IsAlnum(s[i]) || s[i] == '-'
  }

  /** The domain pattern: dot-terminated labels, then 2 to 63 letters. */
  predicate IsDomain(s: string) {
    var parts := Split(s, '.');
    var last := parts[|parts| - 1];
    && |parts| >= 2
    && (forall i :: 0 <= i < |parts| - 1 ==> IsLabel(parts[i]))
    && 2 <= |last| <= 63
    && forall i :: 0 <= i < |last| ==> IsLetter(last[i])
  }

  /** The last index of `c`, or -1. */
  function LastIndex(s: string, c: char): (r: int)
    ensures -1 <= r < |s|
    ensures r >= 0 ==> s[r] == c
    ensures forall i :: r < i < |s| ==> s[i] != c
  {
    if s == [] then -1
    else if s[|s| - 1] == c then |s| - 1
    else LastIndex(s[..|s| - 1], c)
  }

  /** `[IPv6]:port` or `IPv4:port`, cut into address and port text. */
  function CutAddress(ep: string): Option<(string, string)> {
    if HasPrefix(ep, "[") then
      var close := LastIndex(ep, ']');
      if close < 1 || close + 1 >= |ep| || ep[close + 1] != ':' then None
      else Some((ep[1..close], ep[close + 2..]))
    else
      var pair := Split(ep, ':');
      if |pair| != 2 then None else Some((pair[0], pair[1]))
  }

  /** Written addresses are read back: the two forms that the source documents. */
  lemma AddressRoundTrip(ip: string, port: string)
    ensures ']' !in port ==> CutAddress("[" + ip + "]:" + port) == Some((ip, port))
    ensures !HasPrefix(ip, "[") && ':' !in ip && ':' !in port ==> CutAddress(ip + ":" + port) == Some((ip, port))
  {
    hide CutAddress, Split;
    if ']' !in port { BracketedRoundTrip(ip, port); }
    if !HasPrefix(ip, "[") && ':' !in ip && ':' !in port { PlainRoundTrip(ip, port); }
  }

  lemma BracketedRoundTrip(ip: string, port: string)
    requires ']' !in port
    ensures CutAddress("[" + ip + "]:" + port) == Some((ip, port))
  {
    hide Split;
    var ep := "[" + ip + "]:" + port;
    LastIndexIs(ep, ']', |ip| + 1);
    assert ep[1..|ip| + 1] == ip && ep[|ip| + 3..] == port;
    assert ep[..1] == "[";
  }

  lemma PlainRoundTrip(ip: string, port: string)
    requires !HasPrefix(ip, "[") && ':' !in ip && ':' !in port
    ensures CutAddress(ip + ":" + port) == Some((ip, port))
  {
    var pair := ip + [':'] + port;
    PlainPair(ip, port);
    hide Split, LastIndex;
    assert ip + ":" + port == pair;
    assert pair[..1] == [if ip == "" then ':' else ip[0]];
    assert ip != "" ==> ip[..1] == [ip[0]];
  }

  lemma PlainPair(ip: string, port: string)
    requires ':' !in ip && ':' !in port
    ensures Split(ip + [':'] + port, ':') == [ip, port]
  {
    hide Cut;
    CutAt(ip, ':', port);
    CutAt(port, ':', "");
    assert Split(port, ':') == [port];
  }

  lemma LastIndexIs(s: string, c: char, i: nat)
    requires i < |s| && s[i] == c && forall j :: i < j < |s| ==> s[j] != c
    ensures LastIndex(s, c) == i
  {
    assert LastIndex(s, c) >= i;
  }

  /** One endpoint; `validIp` says which texts `net.ParseIP` accepts. */
  function EndpointOf(c: RegistryConfig, ep: string, validIp: string -> bool): Option<Workload> {
    if c.kind == "static" then
      var (ip, portText) :- CutAddress(ep);
      var port :- ParseUint(portText, 0x1_0000_0000);
      if validIp(ip) then Some(Workload(ip, map[ProtocolName(c) := port], map[])) else None
    else if c.kind == "dns" && IsDomain(ep) then Some(Workload(ep, map[], map[]))
    else None
  }

  function Endpoints(c: RegistryConfig, eps: seq<string>, validIp: string -> bool): Option<seq<Workload>> {
    if eps == [] then Some([])
    else
      var before :- Endpoints(c, eps[..|eps| - 1], validIp);
      var last :- EndpointOf(c, eps[|eps| - 1], validIp);
      Some(before + [last])
  }

  /** The entry of a configuration; none when any endpoint is malformed. */
  function EntryOf(c: RegistryConfig, validIp: string -> bool): (r: Option<ServiceEntry>)
    ensures r.Some? ==> |r.value.ports| == 1 && |r.value.hosts| == 1
  {
    var endpoints :- Endpoints(c, Split(c.domain, ','), validIp);
    Some(ServiceEntry(
      [Host(c.kind, c.name)],
      [ServicePort(c.port, ProtocolName(c), ProtocolName(c))],
      if c.kind == "static" then Static else Dns,
      endpoints))
  }

  /** The configured server name, or the domain of a dns registry with one endpoint. */
  function Sni(c: RegistryConfig, entry: ServiceEntry): string {
    if c.sni == "" && c.kind == "dns" && |entry.endpoints| == 1 then c.domain else c.sni
  }

  function RuleOf(c: RegistryConfig, entry: ServiceEntry): Option<TlsRule>
    requires entry.ports != [] && entry.hosts != []
  {
    if IsHttps(entry.ports[0].protocol) then Some(TlsRule(entry.hosts[0], entry.ports[0].number, Sni(c, entry)))
        else None
  }

  function ProxyOf(c: RegistryConfig, entry: ServiceEntry): Option<UpstreamProxy>
    requires entry.ports != []
  {
    if c.proxyName == "" then None
    else Some(UpstreamProxy(c.proxyName, ParseProtocol(entry.ports[0].protocol), Sni(c, entry)))
  }

  function WrapperOf(c: RegistryConfig, entry: ServiceEntry): (r: ServiceWrapper)
    requires entry.ports != [] && entry.hosts != []
    ensures r.createTime == 0
  {
    ServiceWrapper(c.name, c.kind, c.kind, c.name, entry, RuleOf(c, entry), ProxyOf(c, entry), 0)
  }

  /** The automatic server name is the address of the one endpoint. */
  lemma AutomaticSni(c: RegistryConfig, validIp: string -> bool)
    requires c.kind == "dns" && c.sni == "" && EntryOf(c, validIp).Some? && |EntryOf(c, validIp).value.endpoints| == 1
    ensures Sni(c, EntryOf(c, validIp).value) == EntryOf(c, validIp).value.endpoints[0].address
  {
    hide EndpointOf;
    EntryExact(c, validIp);
    var eps := Split(c.domain, ',');
    assert EndpointOf(c, eps[0], validIp) == Some(EntryOf(c, validIp).value.endpoints[0]);
    OneEndpoint(c, eps[0], validIp);
  }

  lemma OneEndpoint(c: RegistryConfig, ep: string, validIp: string -> bool)
    requires c.kind == "dns" && EndpointOf(c, ep, validIp).Some?
    ensures EndpointOf(c, ep, validIp).value.address == ep
  {
    hide IsDomain;
  }

  method GenerateServiceEntry(c: RegistryConfig, host: string, validIp: string -> bool)
      returns (r: Option<ServiceEntry>)
    requires host == Host(c.kind, c.name)
    ensures r == EntryOf(c, validIp)
  {
    hide EndpointOf, ProtocolName;
    var eps := Split(c.domain, ',');
    var endpoints: seq<Workload> := [];
    for i := 0 to |eps|
      invariant Endpoints(c, eps[..i], validIp) == Some(endpoints)
    {
      assert eps[..i + 1][..i] == eps[..i];
      var endpoint := EndpointOf(c, eps[i], validIp);
      if endpoint.None? {
        Malformed(c, eps, i + 1, validIp);
        return None;
      }
      endpoints := endpoints + [endpoint.value];
    }
    assert eps[..|eps|] == eps;
    var ports := [ServicePort(c.port, ProtocolName(c), ProtocolName(c))];
    return Some(ServiceEntry([host], ports, if c.kind == "static" then Static else Dns, endpoints));
  }

  lemma {:induction false} Malformed(c: RegistryConfig, eps: seq<string>, i: nat, validIp: string -> bool)
    requires i <= |eps| && Endpoints(c, eps[..i], validIp).None?
    ensures Endpoints(c, eps, validIp).None?
    decreases |eps|
  {
    hide EndpointOf;
    if i < |eps| {
      assert eps[..|eps| - 1][..i] == eps[..i];
      Malformed(c, eps[..|eps| - 1], i, validIp);
    } else {
      assert eps[..i] == eps;
    }
  }

  ghost predicate AllWellFormed(c: RegistryConfig, eps: seq<string>, validIp: string -> bool) {
    forall i :: 0 <= i < |eps| ==> EndpointOf(c, eps[i], validIp).Some?
  }

  ghost predicate InOrder(c: RegistryConfig, eps: seq<string>, validIp: string -> bool, ws: seq<Workload>) {
    |ws| == |eps| && forall i :: 0 <= i < |eps| ==> EndpointOf(c, eps[i], validIp) == Some(ws[i])
  }

  /** An entry is generated exactly when every comma-separated endpoint is well formed, and then
      holds one workload per endpoint, in order. */
  lemma EntryExact(c: RegistryConfig, validIp: string -> bool)
    ensures EntryOf(c, validIp).Some? <==> AllWellFormed(c, Split(c.domain, ','), validIp)
    ensures EntryOf(c, validIp).Some? ==> InOrder(c, Split(c.domain, ','), validIp, EntryOf(c, validIp).value.endpoints)
  {
    hide EndpointOf;
    EndpointsExact(c, Split(c.domain, ','), validIp);
  }

  lemma {:induction false} EndpointsExact(c: RegistryConfig, eps: seq<string>, validIp: string -> bool)
    ensures Endpoints(c, eps, validIp).Some? <==> AllWellFormed(c, eps, validIp)
    ensures Endpoints(c, eps, validIp).Some? ==> InOrder(c, eps, validIp, Endpoints(c, eps, validIp).value)
  {
    hide EndpointOf;
    if eps != [] {
      var n := |eps| - 1;
      EndpointsExact(c, eps[..n], validIp);
      assert forall i :: 0 <= i < n ==> eps[..n][i] == eps[i];
    }
  }

  // ---- Ownership ----------------------------------------------------------------

  /** Distinct direct registries own distinct hosts. */
  lemma HostInjective(kind: string, name: string, kind': string, name': string)
    requires IsDirect(kind) && IsDirect(kind') && Host(kind, name) == Host(kind', name')
    ensures kind == kind' && name == name'
  {
    var h := Host(kind, name);
    assert h[|h| - 1] == kind[|kind| - 1] == kind'[|kind'| - 1];
    assert kind == kind';
    assert name == h[..|h| - |kind| - 1] == name';
  }

  // ---- The watcher --------------------------------------------------------------

  class Watcher {
    const config: RegistryConfig
    const cache: Store
    var ready: bool

    constructor (config: RegistryConfig, cache: Store)
      ensures this.config == config && this.cache == cache && !ready
    {
      this.config := config;
      this.cache := cache;
      ready := false;
    }

    method Run(validIp: string -> bool, now: nat)
      modifies this, cache
      ensures ready
      ensures cache.Value() == Published(old(cache.Value()), config, validIp, now)
    {
      var host := Host(config.kind, config.name);
      var entry := GenerateServiceEntry(config, host, validIp);
      if entry.Some? {
        cache.UpdateServiceWrapper(host, WrapperOf(config, entry.value), now);
      }
      ready := true;
    }

    method Stop()
      modifies this, cache
      ensures !ready
      ensures cache.Value() == DeleteService(old(cache.Value()), Host(config.kind, config.name))
    {
      cache.DeleteServiceWrapper(Host(config.kind, config.name));
      ready := false;
    }
  }

  /** What a Run leaves in the cache: nothing changes for a malformed configuration. */
  function Published(c: Cache, config: RegistryConfig, validIp: string -> bool, now: nat): Cache {
    match EntryOf(config, validIp)
    case None => c
    case Some(entry) => UpdateService(c, Host(config.kind, config.name), WrapperOf(config, entry), now)
  }

  /** Stopping a watcher and running its replacement on the same host, with no purge between,
      keeps the host throughout and keeps its creation time. */
  lemma HandOver(c: Cache, before: RegistryConfig, after: RegistryConfig, validIp: string -> bool, now: nat)
    requires before.kind == after.kind && before.name == after.name && EntryOf(after, validIp).Some?
    requires Host(before.kind, before.name) in c.services
    ensures var host := Host(before.kind, before.name);
            var mid := DeleteService(c, host);
            var end := Published(mid, after, validIp, now);
            && host in mid.services && host in Purge(end).services
            && Purge(end).services[host] == WrapperOf(after,
                EntryOf(after, validIp).value).(createTime := c.services[host].createTime)
  {
    hide EntryOf;
  }
}
