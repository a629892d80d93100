/** registry/zookeeper/watcher.go: a private map of interface configurations pushed to the cache. */
module Zookeeper {
  import opened Wrappers
  import opened Protocols
  import opened ServiceCache

  datatype Endpoint = Endpoint(ip: string, port: string, metadata: map<string, string>)

  datatype ServiceType = DubboService | SpringCloudService

  datatype InterfaceConfig = InterfaceConfig(host: string, endpoints: seq<Endpoint>, protocol: string,
      serviceType: ServiceType)

  datatype Action = Add | Del | Update

  // ---- generateServiceEntry -----------------------------------------------------

  function ProtocolOf(e: Endpoint): string {
    if "protocol" in e.metadata && e.metadata["protocol"] != "" then ParseProtocol(e.metadata["protocol"]) else "HTTP"
  }

  /** A port in 1..65535 written in decimal, else the endpoint is skipped. */
  function PortOf(e: Endpoint): Option<nat> {
    var port :- ParseUint(e.port, 65536);
    if port == 0 then None else Some(port)
  }

  function WorkloadOf(e: Endpoint, port: nat): Workload {
    Workload(e.ip, map[ProtocolOf(e) := port], e.metadata)
  }

  function Workloads(es: seq<Endpoint>): seq<Workload> {
    if es == [] then []
    else
      var e := es[|es| - 1];
      Workloads(es[..|es| - 1]) + if PortOf(e).Some? then [WorkloadOf(e, PortOf(e).value)] else []
  }

  /** The service port comes from the first endpoint with a usable port. */
  function FirstPort(es: seq<Endpoint>): seq<ServicePort> {
    if es == [] then []
    else
      var before, e := FirstPort(es[..|es| - 1]), es[|es| - 1];
      if before == [] && PortOf(e).Some? then [ServicePort(PortOf(e).value, ProtocolOf(e), ProtocolOf(e))] else before
  }

  function Generate(config: InterfaceConfig): ServiceEntry {
    ServiceEntry([config.host + ".zookeeper"], FirstPort(config.endpoints), Static, Workloads(config.endpoints))
  }

  /** A service port exists exactly when some endpoint is usable, and it is the port of the first
      usable one. */
  lemma {:induction false} PortOfFirst(es: seq<Endpoint>)
    ensures FirstPort(es) == [] <==> Workloads(es) == []
    ensures Workloads(es) != [] ==>
              |FirstPort(es)| == 1 && Workloads(es)[0].ports == map[FirstPort(es)[0].protocol :=
                  FirstPort(es)[0].number]
  {
    hide PortOf, ProtocolOf;
    if es != [] { PortOfFirst(es[..|es| - 1]); }
  }

  /** Every workload comes from an endpoint whose port is in 1 to 65535, with its address and
      labels, and every such endpoint has one. */
  lemma {:induction false} WorkloadsAre(es: seq<Endpoint>, w: Workload)
    ensures w in Workloads(es) <==>
              exists i :: 0 <= i < |es| && PortOf(es[i]).Some? && w.address == es[i].ip && w.labels == es[i].metadata &&
                          w.ports == map[ProtocolOf(es[i]) := PortOf(es[i]).value]
  {
    hide PortOf, ProtocolOf;
    if es != [] {
      var n := |es| - 1;
      assert forall i :: 0 <= i < n ==> es[..n][i] == es[i];
      WorkloadsAre(es[..n], w);
    }
  }

  method GenerateServiceEntry(config: InterfaceConfig) returns (entry: ServiceEntry)
    ensures entry == Generate(config)
  {
    hide PortOf, ProtocolOf, WorkloadOf;
    var es := config.endpoints;
    var ports, endpoints := [], [];
    for i := 0 to |es|
      invariant ports == FirstPort(es[..i])
      invariant endpoints == Workloads(es[..i])
    {
      assert es[..i + 1][..i] == es[..i];
      var port := PortOf(es[i]);
      if port.None? {
        continue;
      }
      if |ports| == 0 {
        ports := ports + [ServicePort(port.value, ProtocolOf(es[i]), ProtocolOf(es[i]))];
      }
      endpoints := endpoints + [WorkloadOf(es[i], port.value)];
    }
    assert es[..|es|] == es;
    return ServiceEntry([config.host + ".zookeeper"], ports, Static, endpoints);
  }

  // ---- The private map ----------------------------------------------------------

  predicate SameAddress(a: Endpoint, b: Endpoint) {
    a.ip == b.ip && a.port == b.port
  }

  predicate Has(es: seq<Endpoint>, e: Endpoint) {
    exists i :: 0 <= i < |es| && SameAddress(es[i], e)
  }

  function Without(es: seq<Endpoint>, e: Endpoint): seq<Endpoint> {
    if es == [] then []
    else Without(es[..|es| - 1], e) + if SameAddress(es[|es| - 1], e) then [] else [es[|es| - 1]]
  }

  const NO_CONFIG := InterfaceConfig("", [], "", DubboService)

  datatype ZkState = ZkState(tracked: map<string, InterfaceConfig>, cache: Cache)

  /** Every tracked host with a usable endpoint is in the cache, not tombstoned, holding exactly
      the entry generated from its configuration. */
  ghost predicate Agree(s: ZkState) {
    forall host :: host in s.tracked ==> HostAgrees(s, host)
  }

  ghost predicate HostAgrees(s: ZkState, host: string)
    requires host in s.tracked
  {
    Generate(s.tracked[host]).endpoints != [] ==> Served(s.cache, host, s.tracked[host])
  }

  ghost predicate Served(c: Cache, host: string, config: InterfaceConfig) {
    host in c.services && host !in c.stale && c.services[host].entry == Generate(config)
  }

  ghost predicate Untouched(c: Cache, c': Cache, host: string) {
    Lookup(c.services, host) == Lookup(c'.services, host) && (host in c.stale <==> host in c'.stale)
  }

  /** What an add or update event leaves tracked. */
  function AfterAdd(tracked: map<string, InterfaceConfig>, host: string, config: InterfaceConfig): InterfaceConfig
    requires config.endpoints != []
  {
    if host !in tracked then config
    else if Has(tracked[host].endpoints, config.endpoints[0]) then tracked[host]
    else tracked[host].(endpoints := tracked[host].endpoints + [config.endpoints[0]])
  }

  function AfterDel(tracked: map<string, InterfaceConfig>, host: string,
      config: InterfaceConfig): map<string, InterfaceConfig>
    requires config.endpoints != []
  {
    if host in tracked then tracked[host :=
        tracked[host].(endpoints := Without(tracked[host].endpoints, config.endpoints[0]))] else tracked
  }

  ghost predicate AddStep(s: ZkState, s': ZkState, host: string, config: InterfaceConfig)
    requires config.endpoints != []
  {
    && s'.tracked == s.tracked[host := AfterAdd(s.tracked, host, config)]
    && Served(s'.cache, host, s'.tracked[host])
    && forall h :: h != host ==> Untouched(s.cache, s'.cache, h)
  }

  ghost predicate DelStep(s: ZkState, s': ZkState, host: string, config: InterfaceConfig, keepStale: bool)
    requires config.endpoints != []
  {
    && s'.tracked == AfterDel(s.tracked, host, config)
    && (var left := if host in s'.tracked then s'.tracked[host] else NO_CONFIG;
        if Generate(left).endpoints != [] then Served(s'.cache, host, left)
        else if keepStale then Untouched(s.cache, s'.cache, host)
        else s'.cache.services == s.cache.services && (host in s.cache.services ==> host in s'.cache.stale))
    && forall h :: h != host ==> Untouched(s.cache, s'.cache, h)
  }

  ghost predicate ChildrenStep(s: ZkState, s': ZkState, children: map<string, InterfaceConfig>) {
    && s'.tracked == s.tracked + children
    && forall h ::
         if h in children && !(h in s.tracked && s.tracked[h] == children[h]) then Served(s'.cache, h, children[h])
         else Untouched(s.cache, s'.cache, h)
  }

  // ---- The watcher --------------------------------------------------------------

  class Watcher {
    const name: string
    const keepStaleWhenEmpty: bool
    const cache: Store
    var serviceEntry: map<string, InterfaceConfig>

    ghost function State(): ZkState
      reads this, cache
    {
      ZkState(serviceEntry, cache.Value())
    }

    constructor (name: string, keepStaleWhenEmpty: bool, cache: Store)
      ensures this.cache == cache && serviceEntry == map[] && this.keepStaleWhenEmpty == keepStaleWhenEmpty
    {
      this.name := name;
      this.keepStaleWhenEmpty := keepStaleWhenEmpty;
      this.cache := cache;
      serviceEntry := map[];
    }

    method Publish(host: string, entry: ServiceEntry, now: nat)
      modifies cache
      ensures host in cache.services && host !in cache.stale && cache.services[host].entry == entry
      ensures forall h :: h != host ==> Untouched(old(cache.Value()), cache.Value(), h)
    {
      cache.UpdateServiceWrapper(host, ServiceWrapper(host, "zookeeper", "zookeeper", name, entry, None, None, 0), now);
    }

    /** `resolved` is the host and one-endpoint configuration parsed from the event, if it parses. */
    method DataChange(action: Action, resolved: Option<(string, InterfaceConfig)>, now: nat) returns (handled: bool)
      requires resolved.Some? ==> resolved.value.1.endpoints != []
      modifies this, cache
      ensures handled <==> resolved.Some?
      ensures resolved.None? ==> State() == old(State())
      ensures resolved.Some? && action != Del ==> AddStep(old(State()), State(), resolved.value.0, resolved.value.1)
      ensures resolved.Some? && action == Del ==>
                DelStep(old(State()), State(), resolved.value.0, resolved.value.1, keepStaleWhenEmpty)
    {
      if resolved.None? {
        return false;
      }
      var (host, config) := resolved.value;
      if action != Del {
        AddEndpoint(host, config, now);
      } else {
        RemoveEndpoint(host, config, now);
      }
      return true;
    }

    method AddEndpoint(host: string, config: InterfaceConfig, now: nat)
      requires config.endpoints != []
      modifies this, cache
      ensures AddStep(old(State()), State(), host, config)
    {
      hide Generate, AfterAdd;
      ApplyAdd(host, config);
      var entry := GenerateServiceEntry(serviceEntry[host]);
      assert cache.Value() == old(cache.Value());
      Publish(host, entry, now);
    }

    method RemoveEndpoint(host: string, config: InterfaceConfig, now: nat)
      requires config.endpoints != []
      modifies this, cache
      ensures DelStep(old(State()), State(), host, config, keepStaleWhenEmpty)
    {
      hide Generate, AfterDel;
      ApplyDel(host, config);
      var left := if host in serviceEntry then serviceEntry[host] else NO_CONFIG;
      var entry := GenerateServiceEntry(left);
      assert cache.Value() == old(cache.Value());
      if |entry.endpoints| == 0 {
        if !keepStaleWhenEmpty {
          cache.DeleteServiceWrapper(host);
        }
      } else {
        Publish(host, entry, now);
      }
      assert State().tracked == AfterDel(old(serviceEntry), host, config);
    }

    method ApplyAdd(host: string, config: InterfaceConfig)
      requires config.endpoints != []
      modifies this
      ensures serviceEntry == old(serviceEntry)[host := AfterAdd(old(serviceEntry), host, config)]
    {
      if host in serviceEntry {
        var value := serviceEntry[host];
        var isHave := false;
        for i := 0 to |value.endpoints|
          invariant isHave <==> exists j :: 0 <= j < i && SameAddress(value.endpoints[j], config.endpoints[0])
        {
          if SameAddress(value.endpoints[i], config.endpoints[0]) {
            isHave := true;
          }
        }
        if !isHave {
          value := value.(endpoints := value.endpoints + [config.endpoints[0]]);
        }
        serviceEntry := serviceEntry[host := value];
      } else {
        serviceEntry := serviceEntry[host := config];
      }
    }

    method ApplyDel(host: string, config: InterfaceConfig)
      requires config.endpoints != []
      modifies this
      ensures serviceEntry == AfterDel(old(serviceEntry), host, config)
    {
      if host in serviceEntry {
        var es := serviceEntry[host].endpoints;
        var endpoints := [];
        for i := 0 to |es|
          invariant endpoints == Without(es[..i], config.endpoints[0])
        {
          assert es[..i + 1][..i] == es[..i];
          if !SameAddress(es[i], config.endpoints[0]) {
            endpoints := endpoints + [es[i]];
          }
        }
        assert es[..|es|] == es;
        serviceEntry := serviceEntry[host := serviceEntry[host].(endpoints := endpoints)];
      }
    }

    /** `children` is the configuration assembled from the listed child nodes. */
    method ChildToServiceEntry(children: map<string, InterfaceConfig>, now: nat)
      modifies this, cache
      ensures ChildrenStep(old(State()), State(), children)
    {
      hide Generate, ChildrenStep, ChildStep;
      ghost var s := State();
      var rest := children.Keys;
      NoChildren(s);
      AllLeft(children);
      while rest != {}
        invariant rest <= children.Keys
        invariant ChildrenStep(s, State(), children - rest)
        decreases |rest|
      {
        var host :| host in rest;
        ghost var mid := State();
        Child(host, children[host], now);
        ChildrenNext(s, mid, State(), children - rest, host, children[host]);
        OneLess(children, rest, host);
        rest := rest - {host};
      }
      NoneLeft(children);
    }

    /** A configuration equal to the tracked one is not pushed again. */
    method Child(host: string, config: InterfaceConfig, now: nat)
      modifies this, cache
      ensures ChildStep(old(State()), State(), host, config)
    {
      hide Generate;
      var entry := GenerateServiceEntry(config);
      if host !in serviceEntry || serviceEntry[host] != config {
        serviceEntry := serviceEntry[host := config];
        assert cache.Value() == old(cache.Value());
        Publish(host, entry, now);
      }
    }
  }

  ghost predicate ChildStep(s: ZkState, s': ZkState, host: string, config: InterfaceConfig) {
    if host in s.tracked && s.tracked[host] == config then s' == s
    else
      && s'.tracked == s.tracked[host := config]
      && Served(s'.cache, host, config)
      && forall h :: h != host ==> Untouched(s.cache, s'.cache, h)
  }

  lemma AllLeft(children: map<string, InterfaceConfig>)
    ensures children - children.Keys == map[]
  {
  }

  lemma OneLess(children: map<string, InterfaceConfig>, rest: set<string>, host: string)
    requires host in rest && rest <= children.Keys
    ensures children - (rest - {host}) == (children - rest)[host := children[host]]
  {
  }

  lemma NoneLeft(children: map<string, InterfaceConfig>)
    ensures children - {} == children
  {
  }

  lemma NoChildren(s: ZkState)
    ensures ChildrenStep(s, s, map[])
  {
    assert s.tracked + map[] == s.tracked;
  }

  lemma ChildrenNext(s: ZkState, mid: ZkState, next: ZkState, done: map<string, InterfaceConfig>, host: string,
      config: InterfaceConfig)
    requires ChildrenStep(s, mid, done) && host !in done
    requires ChildStep(mid, next, host, config)
    ensures ChildrenStep(s, next, done[host := config])
  {
    hide Generate;
    assert host in mid.tracked <==> host in s.tracked;
    assert s.tracked + done[host := config] == mid.tracked[host := config];
    assert host in mid.tracked && mid.tracked[host] == config ==> mid.tracked[host := config] == mid.tracked;
    forall h
      ensures if h in done[host := config] && !(h in s.tracked && s.tracked[h] == done[host := config][h])
              then Served(next.cache, h, done[host := config][h]) else Untouched(s.cache, next.cache, h)
    {
      if h != host {
        assert h in done[host := config] <==> h in done;
        assert Untouched(mid.cache, next.cache, h);
      }
    }
  }

  // ---- Agreement over every run -------------------------------------------------

  datatype Event =
    | Changed(action: Action, resolved: Option<(string, InterfaceConfig)>)
    | Listed(children: map<string, InterfaceConfig>)
    | Purged

  ghost predicate Steps(s: ZkState, e: Event, s': ZkState, keepStale: bool) {
    match e
    case Changed(action, None) => s' == s
    case Changed(action, Some(r)) =>
      r.1.endpoints != [] && if action == Del then DelStep(s, s', r.0, r.1, keepStale) else AddStep(s, s', r.0, r.1)
    case Listed(children) => ChildrenStep(s, s', children)
    case Purged => s' == s.(cache := Purge(s.cache))
  }

  lemma UntouchedAgrees(s: ZkState, s': ZkState, host: string)
    requires host in s.tracked && host in s'.tracked && s'.tracked[host] == s.tracked[host]
    requires Untouched(s.cache, s'.cache, host) && HostAgrees(s, host)
    ensures HostAgrees(s', host)
  {
    hide Generate;
  }

  lemma StepAgrees(s: ZkState, e: Event, s': ZkState, keepStale: bool)
    requires Agree(s) && Steps(s, e, s', keepStale)
    ensures Agree(s')
  {
    hide Generate, AfterAdd;
    match e
    case Changed(action, None) =>
    case Changed(action, Some(r)) =>
      forall h | h in s'.tracked
        ensures HostAgrees(s', h)
      {
        if h != r.0 { UntouchedAgrees(s, s', h); }
      }
    case Listed(children) =>
      forall h | h in s'.tracked
        ensures HostAgrees(s', h)
      {
        if !(h in children && !(h in s.tracked && s.tracked[h] == children[h])) { UntouchedAgrees(s, s', h); }
      }
    case Purged =>
      forall h | h in s'.tracked
        ensures HostAgrees(s', h)
      {
        assert HostAgrees(s, h);
      }
  }

  /** After any run of events and purges that starts in agreement, map and cache agree. */
  lemma {:induction false} RunAgrees(states: seq<ZkState>, events: seq<Event>, keepStale: bool)
    requires |states| == |events| + 1 && Agree(states[0])
    requires forall i :: 0 <= i < |events| ==> Steps(states[i], events[i], states[i + 1], keepStale)
    ensures Agree(states[|events|])
  {
    hide Agree, Steps;
    if events != [] {
      var n := |events| - 1;
      RunAgrees(states[..|events|], events[..n], keepStale);
      StepAgrees(states[n], events[n], states[n + 1], keepStale);
    }
  }

  /** Adding an endpoint and deleting it again restores the tracked endpoints. */
  lemma AddThenDelete(tracked: map<string, InterfaceConfig>, host: string, config: InterfaceConfig)
    requires config.endpoints != [] && host in tracked && !Has(tracked[host].endpoints, config.endpoints[0])
    ensures AfterDel(tracked[host := AfterAdd(tracked, host, config)], host, config) == tracked
  {
    var es, e := tracked[host].endpoints, config.endpoints[0];
    WithoutAbsent(es, e);
    assert (es + [e])[..|es|] == es;
    assert Without(es + [e], e) == es;
    assert tracked[host := AfterAdd(tracked, host, config)][host := tracked[host]] == tracked;
  }

  lemma {:induction false} WithoutAbsent(es: seq<Endpoint>, e: Endpoint)
    requires !Has(es, e)
    ensures Without(es, e) == es
  {
    if es != [] {
      var n := |es| - 1;
      assert !SameAddress(es[n], e);
      assert forall i :: 0 <= i < n ==> es[..n][i] == es[i];
      WithoutAbsent(es[..n], e);
      assert es == es[..n] + [es[n]];
    }
  }
}
