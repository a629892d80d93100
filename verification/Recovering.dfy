/** hgctl/pkg/helm/recover.go: consuming owned Helm values into the typed profile. */
module Recovering {
  import opened Wrappers
  import opened Text
  import opened Protocols
  import opened HelmValues

  datatype Mode = K8s | LocalK8s | LocalDocker | Local | OtherMode(text: string)

  datatype Resource = Resource(requestsCpu: string, requestsMemory: string, limitsCpu: string, limitsMemory: string)

  /** The typed fields of a Profile that recovery or rendering touches. */
  datatype Settings = Settings(
    profile: string,
    install: Mode,
    ingressClass: string,
    namespace: string,
    enableIstioAPI: bool,
    enableGatewayAPI: bool,
    o11yEnabled: bool,
    consoleReplicas: nat,
    gatewayReplicas: nat,
    controllerReplicas: nat,
    controller: Resource,
    gateway: Resource,
    console: Resource)

  // ---- Ownership ----------------------------------------------------------------

  datatype Component = Controller | Gateway | Console

  datatype Slot = RequestsCpu | RequestsMemory | LimitsCpu | LimitsMemory

  datatype Owner =
    | IngressClass
    | Namespace
    | EnableIstioAPI
    | EnableGatewayAPI
    | LocalFlag
    | KindFlag
    | ConsoleReplicas
    | O11yEnabled
    | GatewayReplicas
    | ControllerReplicas
    | ResourceOf(component: Component, slot: Slot)

  const OWNERS: seq<Owner> := [
    IngressClass, Namespace, EnableIstioAPI, EnableGatewayAPI, LocalFlag, KindFlag,
    ConsoleReplicas, O11yEnabled, GatewayReplicas, ControllerReplicas,
    ResourceOf(Controller, RequestsCpu), ResourceOf(Controller, RequestsMemory),
    ResourceOf(Controller, LimitsCpu), ResourceOf(Controller, LimitsMemory),
    ResourceOf(Gateway, RequestsCpu), ResourceOf(Gateway, RequestsMemory),
    ResourceOf(Gateway, LimitsCpu), ResourceOf(Gateway, LimitsMemory),
    ResourceOf(Console, RequestsCpu), ResourceOf(Console, RequestsMemory),
    ResourceOf(Console, LimitsCpu), ResourceOf(Console, LimitsMemory)]

  function ComponentPath(c: Component): Path {
    match c
    case Controller => ["higress-core", "controller"]
    case Gateway => ["higress-core", "gateway"]
    case Console => ["higress-console"]
  }

  function SlotPath(s: Slot): Path {
    match s
    case RequestsCpu => ["requests", "cpu"]
    case RequestsMemory => ["requests", "memory"]
    case LimitsCpu => ["limits", "cpu"]
    case LimitsMemory => ["limits", "memory"]
  }

  function PathOf(o: Owner): (p: Path)
    ensures p != []
  {
    match o
    case IngressClass => ["global", "ingressClass"]
    case Namespace => ["global", "namespace"]
    case EnableIstioAPI => ["global", "enableIstioAPI"]
    case EnableGatewayAPI => ["global", "enableGatewayAPI"]
    case LocalFlag => ["global", "local"]
    case KindFlag => ["global", "kind"]
    case ConsoleReplicas => ["higress-console", "replicaCount"]
    case O11yEnabled => ["higress-console", "o11y", "enabled"]
    case GatewayReplicas => ["higress-core", "gateway", "replicas"]
    case ControllerReplicas => ["higress-core", "controller", "replicas"]
    case ResourceOf(c, s) => ComponentPath(c) + ["resources"] + SlotPath(s)
  }

  lemma EveryOwner(o: Owner)
    ensures o in OWNERS
  {
    match o
    case IngressClass => assert OWNERS[0] == o;
    case Namespace => assert OWNERS[1] == o;
    case EnableIstioAPI => assert OWNERS[2] == o;
    case EnableGatewayAPI => assert OWNERS[3] == o;
    case LocalFlag => assert OWNERS[4] == o;
    case KindFlag => assert OWNERS[5] == o;
    case ConsoleReplicas => assert OWNERS[6] == o;
    case O11yEnabled => assert OWNERS[7] == o;
    case GatewayReplicas => assert OWNERS[8] == o;
    case ControllerReplicas => assert OWNERS[9] == o;
    case ResourceOf(c, s) =>
      var i := match c case Controller => 10 case Gateway => 14 case Console => 18;
      var j := match s case RequestsCpu => 0 case RequestsMemory => 1 case LimitsCpu => 2 case LimitsMemory => 3;
      assert OWNERS[i + j] == o;
  }

  /** No owned path lies at or below another. */
  lemma PrefixFree(a: Owner, b: Owner)
    requires PathOf(a) <= PathOf(b)
    ensures a == b
  {
    var p, q := PathOf(a), PathOf(b);
    assert p[0] == q[0] && |p| > 1 && p[1] == q[1];
    assert |p| > 2 ==> p[2] == q[2];
    assert |p| > 3 ==> p[3] == q[3];
    assert |p| > 4 ==> p[4] == q[4];
  }

  // ---- Typed fields -------------------------------------------------------------

  const TWO32 := 0x1_0000_0000

  /** uint32Value: Go integers are cut to 32 bits, floats and texts must fit. */
  function Uint32Of(v: Value): Option<nat> {
    match v
    case Int(i) => if i < 0 then None else Some(i % TWO32)
    case Float(r) => if 0.0 <= r < TWO32 as real && r == r.Floor as real then Some(r.Floor) else None
    case Str(s) => ParseUint(s, TWO32)
    case _ => None
  }

  function SlotOf(r: Resource, s: Slot): string {
    match s
    case RequestsCpu => r.requestsCpu
    case RequestsMemory => r.requestsMemory
    case LimitsCpu => r.limitsCpu
    case LimitsMemory => r.limitsMemory
  }

  function WithSlot(r: Resource, s: Slot, text: string): Resource {
    match s
    case RequestsCpu => r.(requestsCpu := text)
    case RequestsMemory => r.(requestsMemory := text)
    case LimitsCpu => r.(limitsCpu := text)
    case LimitsMemory => r.(limitsMemory := text)
  }

  function ResourcesOf(s: Settings, c: Component): Resource {
    match c
    case Controller => s.controller
    case Gateway => s.gateway
    case Console => s.console
  }

  function WithResources(s: Settings, c: Component, r: Resource): Settings {
    match c
    case Controller => s.(controller := r)
    case Gateway => s.(gateway := r)
    case Console => s.(console := r)
  }

  function Installed(s: Settings, local: bool): Settings {
    if local then s.(install := LocalK8s, profile := "local-k8s") else s.(install := K8s, profile := "k8s")
  }

  /** The setter of an owner; none when the value has the wrong type. */
  function SetTyped(o: Owner, s: Settings, v: Value): Option<Settings> {
    match o
    case IngressClass => if v.Str? then Some(s.(ingressClass := v.s)) else None
    case Namespace => if v.Str? then Some(s.(namespace := v.s)) else None
    case EnableIstioAPI => if v.Bool? then Some(s.(enableIstioAPI := v.b)) else None
    case EnableGatewayAPI => if v.Bool? then Some(s.(enableGatewayAPI := v.b)) else None
    case LocalFlag => if v.Bool? then Some(Installed(s, v.b)) else None
    case KindFlag => if v.Bool? then Some(Installed(s, v.b)) else None
    case ConsoleReplicas => var n :- Uint32Of(v); Some(s.(consoleReplicas := n))
    case O11yEnabled => if v.Bool? then Some(s.(o11yEnabled := v.b)) else None
    case GatewayReplicas => var n :- Uint32Of(v); Some(s.(gatewayReplicas := n))
    case ControllerReplicas => var n :- Uint32Of(v); Some(s.(controllerReplicas := n))
    case ResourceOf(c, slot) => if v.Str? then Some(WithResources(s, c, WithSlot(ResourcesOf(s, c), slot, v.s)))
        else None
  }

  predicate WellTyped(o: Owner, v: Value) {
    match o
    case IngressClass => v.Str?
    case Namespace => v.Str?
    case ConsoleReplicas => Uint32Of(v).Some?
    case GatewayReplicas => Uint32Of(v).Some?
    case ControllerReplicas => Uint32Of(v).Some?
    case ResourceOf(_, _) => v.Str?
    case _ => v.Bool?
  }

  lemma SetTypedExact(o: Owner, s: Settings, v: Value)
    ensures SetTyped(o, s, v).Some? <==> WellTyped(o, v)
    ensures WellTyped(o, v) ==> !v.Map?
  {
  }

  // ---- Normalisation ------------------------------------------------------------

  /** The state after the first `i` owners. */
  function Consume(s: Settings, v: Value, i: nat): Option<(Settings, Value)>
    requires i <= |OWNERS|
  {
    if i == 0 then Some((s, v))
    else
      var before :- Consume(s, v, i - 1);
      ConsumeOne(OWNERS[i - 1], before.0, before.1)
  }

  function ConsumeOne(o: Owner, s: Settings, v: Value): Option<(Settings, Value)> {
    match Get(v, PathOf(o))
    case None => Some((s, v))
    case Some(x) =>
      var next :- SetTyped(o, s, x);
      Some((next, Remove(v, PathOf(o))))
  }

  function Normalise(s: Settings, v: Value): Option<(Settings, Value)> {
    var done :- Consume(s, v, |OWNERS|);
    Some((done.0, Prune(done.1)))
  }

  class Profile {
    var settings: Settings
    var values: Value

    constructor (settings: Settings, values: Value)
      requires values.Map?
      ensures this.settings == settings && this.values == values
    {
      this.settings := settings;
      this.values := values;
    }

    /** Fails at the first owned path that holds a value of the wrong type. */
    method NormalizeRecoveredProfileValues() returns (err: Option<string>)
      requires values.Map?
      modifies this
      ensures values.Map?
      ensures err.None? <==> Normalise(old(settings), old(values)).Some?
      ensures err.None? ==> Normalise(old(settings), old(values)) == Some((settings, values))
      ensures err.Some? ==>
                exists i :: 0 <= i < |OWNERS| && Consume(old(settings), old(values), i) == Some((settings, values))
    {
      hide ConsumeOne, PathOf, Join, Prune;
      for i := 0 to |OWNERS|
        invariant values.Map?
        invariant Consume(old(settings), old(values), i) == Some((settings, values))
      {
        var ok := ConsumeOwner(OWNERS[i]);
        if !ok {
          Stuck(old(settings), old(values), i + 1);
          return Some("recover " + Join(PathOf(OWNERS[i])));
        }
      }
      var pruned, _ := DeleteEmptyMaps(values);
      values := pruned;
      return None;
    }

    method ConsumeOwner(owner: Owner) returns (ok: bool)
      requires values.Map?
      modifies this
      ensures values.Map?
      ensures ok <==> ConsumeOne(owner, old(settings), old(values)).Some?
      ensures ok ==> ConsumeOne(owner, old(settings), old(values)) == Some((settings, values))
      ensures !ok ==> settings == old(settings) && values == old(values)
    {
      hide SetTyped, PathOf, Join, Split, Remove, Get;
      var value := GetNested(values, Join(PathOf(owner)));
      SplitJoinOwner(owner);
      if value.None? {
        return true;
      }
      var next := SetTyped(owner, settings, value.value);
      if next.None? {
        return false;
      }
      settings := next.value;
      values := Remove(values, PathOf(owner));
      return true;
    }
  }

  lemma {:induction false} Stuck(s: Settings, v: Value, i: nat)
    requires i <= |OWNERS| && Consume(s, v, i).None?
    ensures Consume(s, v, |OWNERS|).None?
    decreases |OWNERS| - i
  {
    hide ConsumeOne;
    if i < |OWNERS| { Stuck(s, v, i + 1); }
  }

  // ---- Joined names -------------------------------------------------------------

  /** The name collectLeafPaths gives a path below `prefix`. */
  function JoinFrom(prefix: string, q: Path): string
    decreases |q|
  {
    if q == [] then prefix
    else JoinFrom(if prefix == "" then q[0] else prefix + "." + q[0], q[1..])
  }

  function Join(q: Path): string {
    JoinFrom("", q)
  }

  ghost predicate PlainKeys(q: Path) {
    forall i :: 0 <= i < |q| ==> Plain(q[i])
  }

  lemma {:induction false} SplitJoinFrom(prefix: string, q: Path)
    requires prefix != "" && '.' !in prefix && PlainKeys(q)
    ensures JoinFrom(prefix, q) != "" && Split(JoinFrom(prefix, q), '.') == [prefix] + q
    decreases |q|
  {
    if q == [] {
      CutAt(prefix, '.', "");
    } else {
      JoinTail(prefix, q);
      SplitJoinFrom(q[0], q[1..]);
      CutAt(prefix, '.', JoinFrom(q[0], q[1..]));
      assert prefix + ['.'] + JoinFrom(q[0], q[1..]) == JoinFrom(prefix, q);
      assert [q[0]] + q[1..] == q;
    }
  }

  lemma {:induction false} JoinTail(prefix: string, q: Path)
    requires prefix != "" && q != [] && PlainKeys(q)
    ensures JoinFrom(prefix, q) == prefix + "." + JoinFrom(q[0], q[1..])
    decreases |q|
  {
    if |q| > 1 {
      var tail := q[1..];
      assert PlainKeys(tail) by { assert forall i :: 0 <= i < |tail| ==> tail[i] == q[i + 1]; }
      JoinTail(prefix + "." + q[0], tail);
      JoinTail(q[0], tail);
      assert prefix + "." + q[0] + "." + JoinFrom(tail[0], tail[1..]) == prefix + "." +
          (q[0] + "." + JoinFrom(tail[0], tail[1..]));
    }
  }

  /** Paths of plain keys are recovered from their joined names. */
  lemma SplitJoin(q: Path)
    requires q != [] && PlainKeys(q)
    ensures Join(q) != "" && Split(Join(q), '.') == q
  {
    SplitJoinFrom(q[0], q[1..]);
    assert q == [q[0]] + q[1..];
  }

  lemma SplitJoinOwner(o: Owner)
    ensures Join(PathOf(o)) != "" && Split(Join(PathOf(o)), '.') == PathOf(o) && PlainKeys(PathOf(o))
  {
    OwnerPlain(o);
    SplitJoin(PathOf(o));
  }

  predicate Plain(k: string) {
    k != "" && '.' !in k
  }

  lemma PlainAppend(p: Path, q: Path)
    requires PlainKeys(p) && PlainKeys(q)
    ensures PlainKeys(p + q)
  {
  }

  lemma OwnerPlain(o: Owner)
    ensures PlainKeys(PathOf(o))
  {
    match o
    case ResourceOf(c, s) =>
      ComponentPlain(c);
      SlotPlain(s);
      assert Plain("resources");
      PlainAppend(ComponentPath(c), ["resources"]);
      PlainAppend(ComponentPath(c) + ["resources"], SlotPath(s));
    case _ =>
      FlagPlain(o);
  }

  lemma ComponentPlain(c: Component)
    ensures PlainKeys(ComponentPath(c))
  {
    assert Plain("higress-core") && Plain("controller") && Plain("gateway") && Plain("higress-console");
  }

  lemma SlotPlain(s: Slot)
    ensures PlainKeys(SlotPath(s))
  {
    assert Plain("requests") && Plain("limits") && Plain("cpu") && Plain("memory");
  }

  lemma FlagPlain(o: Owner)
    requires !o.ResourceOf?
    ensures PlainKeys(PathOf(o))
  {
    if |PathOf(o)| == 2 {
      PairPlain(o);
    } else {
      assert Plain("higress-console") && Plain("o11y") && Plain("enabled") && Plain("higress-core");
      assert Plain("gateway") && Plain("controller") && Plain("replicas");
    }
  }

  lemma PairPlain(o: Owner)
    requires |PathOf(o)| == 2
    ensures PlainKeys(PathOf(o))
  {
    match o
    case IngressClass => assert Plain("global") && Plain("ingressClass");
    case Namespace => assert Plain("global") && Plain("namespace");
    case EnableIstioAPI => assert Plain("global") && Plain("enableIstioAPI");
    case EnableGatewayAPI => assert Plain("global") && Plain("enableGatewayAPI");
    case LocalFlag => assert Plain("global") && Plain("local");
    case KindFlag => assert Plain("global") && Plain("kind");
    case ConsoleReplicas => assert Plain("higress-console") && Plain("replicaCount");
  }
}
