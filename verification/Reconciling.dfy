/** registry/reconcile/reconcile.go: Reconcile, the watchers it starts and stops, and the shared
    cache, as one machine of atomic steps. */
module Reconciling {
  import opened Wrappers
  import opened Protocols
  import opened ServiceCache
  import opened Direct

  datatype Key = Key(kind: string, name: string)

  function KeyOf(c: RegistryConfig): Key {
    Key(c.kind, c.name)
  }

  function HostOf(k: Key): string {
    Host(k.kind, k.name)
  }

  type Spec = map<Key, RegistryConfig>

  /** A watcher's Run: not yet begun, entry pushed with the ready signal outstanding, returned. */
  datatype Phase = Started | Pushed | Done

  /** `orphan`: stopped before its Run began, so that the Run will still publish. */
  datatype Running = Running(key: Key, config: RegistryConfig, phase: Phase, stopped: bool, orphan: bool)

  /** The shared data: `all` lists every watcher ever created, `watchers` the tracked ones. */
  datatype Core = Core(cache: Cache, registries: Spec, watchers: map<Key, nat>, all: seq<Running>)

  /** Where the (one) Reconcile call is. `first` is the first watcher it creates, `mid` the updated
      key between its Stop and its restart, `calm` that no tracked Run was pending at the start. */
  datatype Pc =
    | Idle
    | Working(
        desired: Spec,
        toDelete: set<Key>,
        toUpdate: set<Key>,
        toCreate: set<Key>,
        mid: Option<Key>,
        first: nat,
        failed: bool,
        calm: bool)
    | Finishing(desired: Spec, first: nat, calm: bool)

  datatype State = State(core: Core, pc: Pc)

  const INIT := State(Core(EMPTY, map[], map[], []), Idle)

  datatype Action =
    | Begin(desired: Spec)
    | StopDeleted(key: Key)
    | StopUpdated(key: Key)
    | StartUpdated
    | FailUpdated
    | StartCreated(key: Key)
    | FailCreated(key: Key)
    | Abort
    | Timeout
    | AllReady
    | ProxyStep(op: Op)
    | PurgeStep
    | Publish(id: nat, now: nat)
    | Signal(id: nat)

  // ---- The diff of a specification against the tracked registries ----------------

  function Created(registries: Spec, desired: Spec): set<Key> {
    desired.Keys - registries.Keys
  }

  function Updated(registries: Spec, desired: Spec): set<Key> {
    set k | k in desired && k in registries && desired[k] != registries[k]
  }

  function Deleted(registries: Spec, desired: Spec): set<Key> {
    registries.Keys - desired.Keys
  }

  // ---- Effects on the shared data -----------------------------------------------

  /** Run and Stop hold the watcher's mutex, so that Stop waits for a Run that has begun. */
  ghost predicate Stoppable(c: Core, k: Key) {
    k in c.watchers && c.watchers[k] < |c.all| && c.all[c.watchers[k]].phase != Pushed
  }

  ghost function StopWatcher(c: Core, k: Key): Core
    requires Stoppable(c, k)
  {
    var id := c.watchers[k];
    Core(DeleteService(c.cache, HostOf(k)), c.registries - {k}, c.watchers - {k},
         c.all[id := c.all[id].(stopped := true, orphan := c.all[id].orphan || c.all[id].phase == Started)])
  }

  ghost function StartWatcher(c: Core, k: Key, config: RegistryConfig): Core {
    c.(registries := c.registries[k := config],
       watchers := c.watchers[k := |c.all|],
       all := c.all + [Running(k, config, Started, false, false)])
  }

  ghost function Push(validIp: string -> bool, c: Core, id: nat, now: nat): Core
    requires id < |c.all|
  {
    c.(cache := Published(c.cache, c.all[id].config, validIp, now), all := c.all[id := c.all[id].(phase := Pushed)])
  }

  ghost function Finish(c: Core, id: nat): Core
    requires id < |c.all|
  {
    c.(all := c.all[id := c.all[id].(phase := Done)])
  }

  // ---- Steps --------------------------------------------------------------------

  /** The watcher factory refuses other kinds and unknown protocols. */
  predicate Creatable(c: RegistryConfig) {
    IsDirect(c.kind) && ProtocolName(c) != UNSUPPORTED
  }

  ghost predicate Keyed(desired: Spec) {
    forall k :: k in desired ==> KeyOf(desired[k]) == k
  }

  ghost predicate DoneAt(c: Core, id: nat) {
    id < |c.all| && c.all[id].phase == Done
  }

  /** Every tracked watcher older than `first` has returned from Run. */
  ghost predicate OldDone(c: Core, first: nat) {
    forall k :: k in c.watchers && c.watchers[k] < first ==> DoneAt(c, c.watchers[k])
  }

  ghost predicate AllDoneFrom(c: Core, first: nat) {
    forall id :: first <= id < |c.all| ==> DoneAt(c, id)
  }

  ghost predicate Settled(pc: Pc) {
    pc.Working? && pc.toDelete == {} && pc.toUpdate == {} && pc.toCreate == {} && pc.mid.None?
  }

  ghost predicate Enabled(s: State, a: Action) {
    match a
    case Begin(desired) => s.pc.Idle? && Keyed(desired)
    case StopDeleted(k) => s.pc.Working? && k in s.pc.toDelete && Stoppable(s.core, k)
    case StopUpdated(k) =>
      s.pc.Working? && s.pc.toDelete == {} && s.pc.mid.None? && k in s.pc.toUpdate && Stoppable(s.core, k)
    case StartUpdated =>
      s.pc.Working? && s.pc.mid.Some? && s.pc.mid.value in s.pc.desired && Creatable(s.pc.desired[s.pc.mid.value])
    case FailUpdated => s.pc.Working? && s.pc.mid.Some?
    case StartCreated(k) => Creating(s.pc, k) && Creatable(s.pc.desired[k])
    case FailCreated(k) => Creating(s.pc, k)
    case Abort => Settled(s.pc) && s.pc.failed
    case Timeout => Settled(s.pc) && !s.pc.failed
    case AllReady => Settled(s.pc) && !s.pc.failed && AllDoneFrom(s.core, s.pc.first)
    case ProxyStep(op) => s.pc.Finishing? && (op.PutProxy? || op.DropProxy?)
    case PurgeStep => s.pc.Finishing?
    case Publish(id, _) => id < |s.core.all| && s.core.all[id].phase == Started
    case Signal(id) => id < |s.core.all| && s.core.all[id].phase == Pushed
  }

  ghost predicate Creating(pc: Pc, k: Key) {
    pc.Working? && pc.toDelete == {} && pc.toUpdate == {} && pc.mid.None? && k in pc.toCreate && k in pc.desired
  }

  ghost function CoreAfter(validIp: string -> bool, s: State, a: Action): Core
    requires Enabled(s, a)
  {
    match a
    case StopDeleted(k) => StopWatcher(s.core, k)
    case StopUpdated(k) => StopWatcher(s.core, k)
    case StartUpdated => StartWatcher(s.core, s.pc.mid.value, s.pc.desired[s.pc.mid.value])
    case StartCreated(k) => StartWatcher(s.core, k, s.pc.desired[k])
    case ProxyStep(op) => s.core.(cache := Apply(s.core.cache, op))
    case PurgeStep => s.core.(cache := Purge(s.core.cache))
    case Publish(id, now) => Push(validIp, s.core, id, now)
    case Signal(id) => Finish(s.core, id)
    case _ => s.core
  }

  ghost function PcAfter(s: State, a: Action): Pc
    requires Enabled(s, a)
  {
    match a
    case Begin(desired) =>
      var regs := s.core.registries;
      Working(desired, Deleted(regs, desired), Updated(regs, desired), Created(regs, desired), None,
              |s.core.all|, false, OldDone(s.core, |s.core.all|))
    case StopDeleted(k) => s.pc.(toDelete := s.pc.toDelete - {k})
    case StopUpdated(k) => s.pc.(toUpdate := s.pc.toUpdate - {k}, mid := Some(k))
    case StartUpdated => s.pc.(mid := None)
    case FailUpdated => s.pc.(mid := None, failed := true)
    case StartCreated(k) => s.pc.(toCreate := s.pc.toCreate - {k})
    case FailCreated(k) => s.pc.(toCreate := s.pc.toCreate - {k}, failed := true)
    case Abort => Idle
    case Timeout => Idle
    case AllReady => Finishing(s.pc.desired, s.pc.first, s.pc.calm)
    case PurgeStep => Idle
    case _ => s.pc
  }

  ghost predicate Steps(validIp: string -> bool, s: State, a: Action, s': State) {
    Enabled(s, a) && s'.core == CoreAfter(validIp, s, a) && s'.pc == PcAfter(s, a)
  }

  /** Any interleaving from the empty reconciler. */
  ghost predicate Trace(validIp: string -> bool, states: seq<State>, actions: seq<Action>) {
    && |states| == |actions| + 1
    && states[0] == INIT
    && forall i :: 0 <= i < |actions| ==> Steps(validIp, states[i], actions[i], states[i + 1])
  }

  // ---- Tracking -----------------------------------------------------------------

  /** The tracked watcher of `k` runs `k`'s recorded configuration. */
  ghost predicate TrackedAt(c: Core, k: Key) {
    && k in c.registries && k in c.watchers
    && c.watchers[k] < |c.all| && c.all[c.watchers[k]].key == k
    && c.all[c.watchers[k]].config == c.registries[k] && !c.all[c.watchers[k]].stopped
  }

  /** Every watcher is direct, and is the tracked one of its key until it is stopped. */
  ghost predicate OwnedAt(c: Core, id: nat) {
    && id < |c.all|
    && KeyOf(c.all[id].config) == c.all[id].key && IsDirect(c.all[id].key.kind)
    && (c.all[id].stopped || (c.all[id].key in c.watchers && c.watchers[c.all[id].key] == id))
  }

  ghost predicate Tracking(c: Core) {
    && c.watchers.Keys == c.registries.Keys
    && (forall k :: k in c.watchers ==> TrackedAt(c, k))
    && forall id :: 0 <= id < |c.all| ==> OwnedAt(c, id)
  }

  lemma StopTracks(c: Core, k: Key)
    requires Tracking(c) && Stoppable(c, k)
    ensures Tracking(StopWatcher(c, k))
  {
    hide DeleteService;
    var c' := StopWatcher(c, k);
    assert TrackedAt(c, k);
    forall j | j in c'.watchers
      ensures TrackedAt(c', j)
    {
      assert TrackedAt(c, j);
    }
    forall id | 0 <= id < |c'.all|
      ensures OwnedAt(c', id)
    {
      assert OwnedAt(c, id);
    }
  }

  lemma StartTracks(c: Core, k: Key, config: RegistryConfig)
    requires Tracking(c) && k !in c.registries && KeyOf(config) == k && IsDirect(k.kind)
    ensures Tracking(StartWatcher(c, k, config))
  {
    var c' := StartWatcher(c, k, config);
    forall j | j in c'.watchers
      ensures TrackedAt(c', j)
    {
      if j != k { assert TrackedAt(c, j); }
    }
    forall id | 0 <= id < |c'.all|
      ensures OwnedAt(c', id)
    {
      if id < |c.all| { assert OwnedAt(c, id); }
    }
  }

  /** The same watchers, tracked alike; a Run may have moved on. */
  ghost predicate MovedOn(c: Core, c': Core) {
    && c'.registries == c.registries && c'.watchers == c.watchers && |c'.all| == |c.all|
    && (forall id :: 0 <= id < |c.all| ==> c'.all[id] == c.all[id].(phase := c'.all[id].phase))
    && forall id :: 0 <= id < |c.all| ==> (DoneAt(c, id) ==> DoneAt(c', id))
  }

  lemma MovedOnTracks(c: Core, c': Core)
    requires Tracking(c) && MovedOn(c, c')
    ensures Tracking(c')
  {
    forall j | j in c'.watchers
      ensures TrackedAt(c', j)
    {
      assert TrackedAt(c, j);
    }
    forall i | 0 <= i < |c'.all|
      ensures OwnedAt(c', i)
    {
      assert OwnedAt(c, i);
    }
  }

  /** The steps that neither start nor stop a watcher. */
  lemma OtherMovesOn(validIp: string -> bool, s: State, a: Action)
    requires Enabled(s, a) && !a.StopDeleted? && !a.StopUpdated? && !a.StartUpdated? && !a.StartCreated?
    ensures MovedOn(s.core, CoreAfter(validIp, s, a))
  {
    hide Published, Apply, Purge;
  }

  // ---- The call's own state -----------------------------------------------------

  /** What the three work lists still owe the desired specification. */
  ghost predicate ListsOk(c: Core, pc: Pc)
    requires pc.Working?
  {
    && pc.toDelete <= c.registries.Keys && pc.toDelete !! pc.desired.Keys
    && pc.toUpdate <= c.registries.Keys && pc.toUpdate <= pc.desired.Keys
    && pc.toCreate <= pc.desired.Keys && pc.toCreate !! c.registries.Keys
    && (pc.mid.Some? ==> pc.mid.value in pc.desired && pc.mid.value !in c.registries && pc.mid.value !in pc.toCreate)
    && (forall k :: k in c.registries && k !in pc.toDelete ==> k in pc.desired)
    && (forall k :: k in c.registries && k in pc.desired && k !in pc.toUpdate ==> c.registries[k] == pc.desired[k])
    && (!pc.failed ==> forall k :: k in pc.desired ==> k in c.registries || k in pc.toCreate || pc.mid == Some(k))
  }

  /** What is still to be stopped is older than this call; in a calm call the old ones are done. */
  ghost predicate AgesOk(c: Core, pc: Pc)
    requires pc.Working?
  {
    && pc.first <= |c.all|
    && (forall k :: k in c.watchers && (k in pc.toDelete || k in pc.toUpdate) ==> c.watchers[k] < pc.first)
    && (pc.calm ==> OldDone(c, pc.first))
  }

  ghost predicate PcOk(c: Core, pc: Pc) {
    match pc
    case Idle => true
    case Working(desired, _, _, _, _, _, _, _) => Keyed(desired) && ListsOk(c, pc) && AgesOk(c, pc)
    case Finishing(desired, first, calm) =>
      c.registries == desired && first <= |c.all| && AllDoneFrom(c, first) && (calm ==> OldDone(c, first))
  }

  lemma StopListsOk(c: Core, pc: Pc, k: Key)
    requires pc.Working? && ListsOk(c, pc) && Stoppable(c, k)
    ensures k in pc.toDelete ==> ListsOk(StopWatcher(c, k), pc.(toDelete := pc.toDelete - {k}))
    ensures k in pc.toUpdate && pc.mid.None? ==>
              ListsOk(StopWatcher(c, k), pc.(toUpdate := pc.toUpdate - {k}, mid := Some(k)))
  {
    hide DeleteService;
    assert StopWatcher(c, k).registries.Keys == c.registries.Keys - {k};
  }

  lemma StopAgesOk(c: Core, pc: Pc, k: Key)
    requires Tracking(c) && pc.Working? && AgesOk(c, pc) && Stoppable(c, k)
    ensures AgesOk(StopWatcher(c, k), pc.(toDelete := pc.toDelete - {k}))
    ensures AgesOk(StopWatcher(c, k), pc.(toUpdate := pc.toUpdate - {k}, mid := Some(k)))
  {
    hide DeleteService;
    var c' := StopWatcher(c, k);
    forall j | j in c'.watchers && pc.calm && c'.watchers[j] < pc.first
      ensures DoneAt(c', c'.watchers[j])
    {
      assert DoneAt(c, c.watchers[j]);
    }
  }

  lemma BeginPcOk(s: State, a: Action)
    requires Tracking(s.core) && a.Begin? && Enabled(s, a)
    ensures PcOk(s.core, PcAfter(s, a))
  {
    hide Keyed;
    forall k | k in s.core.watchers
      ensures s.core.watchers[k] < |s.core.all|
    {
      assert TrackedAt(s.core, k);
    }
  }

  lemma StartListsOk(c: Core, pc: Pc, k: Key)
    requires pc.Working? && ListsOk(c, pc) && k in pc.desired
    ensures pc.mid == Some(k) ==> ListsOk(StartWatcher(c, k, pc.desired[k]), pc.(mid := None))
    ensures k in pc.toCreate && pc.mid.None? ==>
              ListsOk(StartWatcher(c, k, pc.desired[k]), pc.(toCreate := pc.toCreate - {k}))
  {
    var c' := StartWatcher(c, k, pc.desired[k]);
    assert forall j :: j in c'.registries <==> j == k || j in c.registries;
  }

  lemma StartAgesOk(c: Core, pc: Pc, k: Key)
    requires pc.Working? && AgesOk(c, pc) && ListsOk(c, pc) && k in pc.desired && k !in c.registries
    ensures AgesOk(StartWatcher(c, k, pc.desired[k]), pc.(mid := None))
    ensures AgesOk(StartWatcher(c, k, pc.desired[k]), pc.(toCreate := pc.toCreate - {k}))
  {
    var c' := StartWatcher(c, k, pc.desired[k]);
    assert k !in pc.toDelete && k !in pc.toUpdate;
    forall j | j in c'.watchers && pc.calm && c'.watchers[j] < pc.first
      ensures DoneAt(c', c'.watchers[j])
    {
      assert DoneAt(c, c.watchers[j]);
    }
  }

  lemma MovedOnPcOk(c: Core, c': Core, pc: Pc)
    requires Tracking(c) && PcOk(c, pc) && MovedOn(c, c')
    ensures PcOk(c', pc)
  {
    hide Keyed;
    if !pc.Idle? {
      forall j | j in c'.watchers && pc.calm && c'.watchers[j] < pc.first
        ensures DoneAt(c', c'.watchers[j])
      {
        assert DoneAt(c, c.watchers[j]);
      }
    }
  }

  lemma PcStep(validIp: string -> bool, s: State, a: Action)
    requires Tracking(s.core) && PcOk(s.core, s.pc) && Enabled(s, a)
    ensures PcOk(CoreAfter(validIp, s, a), PcAfter(s, a))
  {
    hide Published, Apply, Purge, StopWatcher, StartWatcher, Tracking, Keyed;
    match a
    case Begin(_) => BeginPcOk(s, a);
    case StopDeleted(k) =>
      StopListsOk(s.core, s.pc, k);
      StopAgesOk(s.core, s.pc, k);
    case StopUpdated(k) =>
      StopListsOk(s.core, s.pc, k);
      StopAgesOk(s.core, s.pc, k);
    case StartUpdated =>
      StartListsOk(s.core, s.pc, s.pc.mid.value);
      StartAgesOk(s.core, s.pc, s.pc.mid.value);
    case StartCreated(k) =>
      StartListsOk(s.core, s.pc, k);
      StartAgesOk(s.core, s.pc, k);
    case _ =>
      OtherMovesOn(validIp, s, a);
      MovedOnPcOk(s.core, CoreAfter(validIp, s, a), s.pc);
      if a.AllReady? { Complete(s.core, s.pc); }
  }

  /** When nothing is owed and nothing failed, the tracked registries are the desired ones. */
  lemma Complete(c: Core, pc: Pc)
    requires Settled(pc) && !pc.failed && ListsOk(c, pc)
    ensures c.registries == pc.desired
  {
    assert c.registries.Keys == pc.desired.Keys;
  }
}
